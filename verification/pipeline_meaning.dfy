// What the stages mean on the Envelope itself, for every message a bus can deliver.
module PipelineMeaning {
  import opened Prelude
  import opened Text
  import opened Pipeline

  /** The documented rule of user_basic, read on the envelope. */
  predicate Basic(e: Envelope) {
    e.name != "" && e.age != 0 && (e.age > 16 || 'A' in e.name)
  }

  /** The projections keep name and age and clear the rest. */
  function NameAge(e: Envelope): Envelope {
    Envelope(e.age, e.name, "", "")
  }

  /** Metadata handed over by a bus holds only strings. */
  predicate FromBus(m: Message) {
    m.meta.Some? ==> forall k :: k in m.meta.value ==> m.meta.value[k].Str?
  }

  /** user_basic on the decoded object is the rule on the envelope; the type assertion never fails. */
  lemma UserBasicOnEnvelope(e: Envelope)
    ensures UserBasicVerdict(Some(ToObject(e))) == if Basic(e) then Pass else Drop
  {
    ParseIntFormatInt(e.age);
  }

  /** On any other object the assertion fails exactly for a present age that is not a string. */
  lemma UserBasicPanics(obj: Option<Object>)
    ensures UserBasicVerdict(obj).Panic? <==>
      && obj.Some? && "name" in obj.value && "age" in obj.value
      && obj.value["name"] != JNull && obj.value["age"].JNumber?
  {
  }

  /** size_le_1mb does not bound anything: it passes on every bus message; recent_1h drops them all. */
  lemma MetaFiltersOnBusMessages(m: Meta, obj: Option<Object>, now: int)
    requires forall k :: k in m ==> m[k].Str?
    ensures Apply(SizeLe1Mb, m, obj, now) == Pass
    ensures Apply(Recent1h, m, obj, now) == Drop
  {
  }

  /** A declared size above one mebibyte that size_le_1mb lets through. */
  lemma OversizePasses()
    ensures Apply(SizeLe1Mb, map["size" := Str("9999999")], None, 0) == Pass
    ensures Apply(SizeLe1Mb, map["size" := Number(9999999)], None, 0) == Drop
  {
  }

  /** On metadata with integers the two filters are the documented comparisons; a missing value counts as zero. */
  lemma MetaFiltersOnIntegers(m: Meta, obj: Option<Object>, now: int)
    ensures Apply(SizeLe1Mb, m, obj, now) == Pass <==>
      !("size" in m && m["size"].Number? && m["size"].value > 1_048_576)
    ensures Apply(Recent1h, m, obj, now) == Pass <==>
      "createdAtMs" in m && m["createdAtMs"].Number? && m["createdAtMs"].value != 0
      && m["createdAtMs"].value >= now - 3_600_000
    ensures !Apply(SizeLe1Mb, m, obj, now).Panic? && !Apply(Recent1h, m, obj, now).Panic?
  {
  }

  /** The filters by the names a configuration uses, and what each decides about a bus message carrying envelope e. */
  lemma FiltersByName(m: Meta, e: Envelope, now: int)
    requires forall k :: k in m ==> m[k].Str?
    ensures BuiltinFilters().Keys == {"size_le_1mb", "recent_1h", "user_basic"}
    ensures Apply(BuiltinFilters()["size_le_1mb"], m, Some(ToObject(e)), now) == Pass
    ensures Apply(BuiltinFilters()["recent_1h"], m, Some(ToObject(e)), now) == Drop
    ensures Apply(BuiltinFilters()["user_basic"], m, Some(ToObject(e)), now) == if Basic(e) then Pass else Drop
  {
    MetaFiltersOnBusMessages(m, Some(ToObject(e)), now);
    UserBasicOnEnvelope(e);
  }

  /** The projections by name, and what each leaves of an envelope. */
  lemma ProjectionsByName(e: Envelope)
    ensures BuiltinProjections().Keys == {"keep_name_age_best_effort", "keep_name_age_strict"}
    ensures FromObject(Project(BuiltinProjections()["keep_name_age_best_effort"], Some(ToObject(e))))
      == Success(NameAge(e))
    ensures FromObject(Project(BuiltinProjections()["keep_name_age_strict"], Some(ToObject(e)))).Success? <==>
      e.name != "" && e.age != 0
    ensures e.name != "" && e.age != 0 ==>
      FromObject(Project(BuiltinProjections()["keep_name_age_strict"], Some(ToObject(e)))) == Success(NameAge(e))
  {
    ProjectedObject(e, BestEffort);
    ProjectedObject(e, Strict);
  }

  /** Projecting the decoded object and re-encoding it refills the envelope with name and age only. */
  lemma ProjectedObject(e: Envelope, p: Projection)
    ensures FromObject(Project(p, Some(ToObject(e)))) ==
      if p.BestEffort? || (e.name != "" && e.age != 0) then Success(NameAge(e))
      else Failure("unexpected token null")
  {
    NameAgeObject(e);
    if p.Strict? && e.name != "" && e.age != 0 {
      assert Project(Strict, Some(ToObject(e))).value == Project(BestEffort, Some(ToObject(e))).value;
    }
  }

  lemma NameAgeObject(e: Envelope)
    ensures FromObject(Project(BestEffort, Some(ToObject(e)))) == Success(NameAge(e))
  {
    var o := Project(BestEffort, Some(ToObject(e))).value;
    NameAgeFields(e, o);
    assert o.Keys <= {"age", "name", "address", "phone"};
  }

  lemma NameAgeFields(e: Envelope, o: Object)
    requires Some(o) == Project(BestEffort, Some(ToObject(e)))
    ensures o.Keys <= {"age", "name"}
    ensures AgeField(o) == Success(e.age) && TextField(o, "name") == Success(e.name)
  {
    ParseIntFormatInt(e.age);
  }

  /** Whether one filter passes a bus message that decodes to e (None: nothing was decoded). */
  predicate FilterPasses(f: Filter, e: Option<Envelope>) {
    match f
    case SizeLe1Mb => true
    case Recent1h => false
    case UserBasic => e.Some? && Basic(e.value)
  }

  predicate FiltersPass(fs: seq<Filter>, e: Option<Envelope>) {
    forall f :: f in fs ==> FilterPasses(f, e)
  }

  lemma {:induction false} FiltersOnEnvelope(fs: seq<Filter>, m: Meta, e: Option<Envelope>, clock: seq<int>)
    requires forall k :: k in m ==> m[k].Str?
    ensures ApplyAll(fs, m, if e.Some? then Some(ToObject(e.value)) else None, clock)
         == if FiltersPass(fs, e) then Pass else Drop
  {
    if fs != [] {
      if e.Some? {
        UserBasicOnEnvelope(e.value);
      }
      FiltersOnEnvelope(fs[1..], m, e, if clock == [] then [] else clock[1..]);
      assert forall f :: f in fs <==> f == fs[0] || f in fs[1..];
      assert FiltersPass(fs, e) <==> FilterPasses(fs[0], e) && FiltersPass(fs[1..], e);
      MetaFiltersOnBusMessages(m, None, if clock == [] then 0 else clock[0]);
    }
  }

  /** When the stages accept a bus message, in terms of the envelope in its payload. */
  predicate Acceptable(st: Stages, value: Bytes)
    requires st.codec.Some?
  {
    if value == [] then
      FiltersPass(st.filters, None) && st.projection.None?
    else
      match st.codec.value.unmarshal(value)
      case None => false
      case Some(e) =>
        && FiltersPass(st.filters, Some(e))
        && (st.projection == Some(Strict) ==> e.name != "" && e.age != 0)
  }

  /** The payload published for an acceptable message. */
  function Published(st: Stages, value: Bytes): Bytes
    requires st.codec.Some? && Acceptable(st, value)
  {
    if st.projection.None? then value
    else st.codec.value.marshal(NameAge(st.codec.value.unmarshal(value).value))
  }

  /** The stages, on every bus message and clock, are the envelope-level rule. */
  lemma StagesOnEnvelopes(st: Stages, m: Message, clock: seq<int>)
    requires st.codec.Some? && FromBus(m)
    ensures match Process(st, m, clock)
            case Accepted(out) =>
              && Acceptable(st, m.value)
              && out.value == Published(st, m.value)
              && out.meta == Some(if m.meta.None? then map[] else m.meta.value)
            case Rejected(_) => !Acceptable(st, m.value)
            case Crashed => false
  {
    var meta := if m.meta.None? then map[] else m.meta.value;
    var parsed := if m.value == [] then None else st.codec.value.unmarshal(m.value);
    FiltersOnEnvelope(st.filters, meta, parsed, clock);
    if parsed.Some? && st.projection.Some? {
      ProjectedObject(parsed.value, st.projection.value);
    }
  }

  /** No bus message makes the handler depend on the clock or crash in a filter. */
  lemma ProcessIgnoresClock(st: Stages, m: Message, clock: seq<int>)
    requires FromBus(m)
    ensures Process(st, m, clock) == Process(st, m, [])
    ensures !Process(st, m, clock).Crashed?
  {
    var meta := if m.meta.None? then map[] else m.meta.value;
    var parsed := if st.codec.None? || m.value == [] then None else st.codec.value.unmarshal(m.value);
    FiltersOnEnvelope(st.filters, meta, parsed, clock);
    FiltersOnEnvelope(st.filters, meta, parsed, []);
  }

  /**
   * Whatever the filters, a projected message sent through the same stages again comes out unchanged, unless its
   * payload is empty: then it is rejected.
   */
  lemma ProjectionIdempotent(st: Stages, m: Message, clock: seq<int>, later: seq<int>)
    requires st.codec.Some? && st.codec.value.Lawful() && st.projection.Some?
    requires FromBus(m) && Process(st, m, clock).Accepted?
    ensures var out := Process(st, m, clock).msg;
      if out.value == [] then Process(st, out, later).Rejected? else Process(st, out, later) == Accepted(out)
    ensures Process(st, m, clock).msg.value == [] <==>
      (st.projection == Some(BestEffort) && NameAge(st.codec.value.unmarshal(m.value).value) == EMPTY)
  {
    var wire := st.codec.value;
    StagesOnEnvelopes(st, m, clock);
    var out := Process(st, m, clock).msg;
    var e := wire.unmarshal(m.value).value;
    assert out.value == wire.marshal(NameAge(e));
    FiltersSeeNameAge(st.filters, e);
    StagesOnEnvelopes(st, out, later);
  }

  /** The filters look at nothing the projections clear. */
  lemma FiltersSeeNameAge(fs: seq<Filter>, e: Envelope)
    ensures FiltersPass(fs, Some(NameAge(e))) <==> FiltersPass(fs, Some(e))
  {
    assert forall f :: FilterPasses(f, Some(NameAge(e))) <==> FilterPasses(f, Some(e));
  }

  /** Strict accepts exactly the payloads with both fields, and then agrees with best effort. */
  lemma StrictVersusBestEffort(strict: Stages, m: Message, clock: seq<int>)
    requires strict.codec.Some? && strict.projection == Some(Strict) && FromBus(m)
    ensures var best := Process(strict.(projection := Some(BestEffort)), m, clock);
      var e := strict.codec.value.unmarshal(m.value);
      Process(strict, m, clock).Accepted? <==>
        best.Accepted? && e.value.name != "" && e.value.age != 0
    ensures Process(strict, m, clock).Accepted? ==>
      Process(strict, m, clock) == Process(strict.(projection := Some(BestEffort)), m, clock)
  {
    StagesOnEnvelopes(strict, m, clock);
    StagesOnEnvelopes(strict.(projection := Some(BestEffort)), m, clock);
  }
}
