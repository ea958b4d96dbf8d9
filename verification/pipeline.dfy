// The message stages of a route: codec, built-in filters and built-in projections
// (internal/router/codec.go, internal/router/pipeline.go, internal/router/router.go:223-263).
module Pipeline {
  import opened Prelude
  import opened Text

  // ---------- Messages ----------

  type Byte = n: int | 0 <= n < 256
  type Bytes = seq<Byte>

  /** A value stored in the `map[string]any` of message metadata. */
  datatype Any = Str(text: string) | Number(value: int)

  type Meta = map<string, Any>

  /** router.Message; None is Go's nil map. */
  datatype Message = Message(value: Bytes, meta: Option<Meta>)

  // ---------- Envelope and its JSON-object view ----------

  datatype Envelope = Envelope(age: Int64, name: string, address: string, phone: string)

  const EMPTY: Envelope := Envelope(0, "", "", "")

  datatype Json = JNull | JString(text: string) | JNumber(value: int)

  type Object = map<string, Json>

  /** protojson.Marshal then json.Unmarshal into a map: default fields are omitted, int64 is a string. */
  function ToObject(e: Envelope): Object {
    (if e.age == 0 then map[] else map["age" := JString(FormatInt(e.age))])
    + (if e.name == "" then map[] else map["name" := JString(e.name)])
    + (if e.address == "" then map[] else map["address" := JString(e.address)])
    + (if e.phone == "" then map[] else map["phone" := JString(e.phone)])
  }

  function TextField(obj: Object, key: string): Result<string, string> {
    if key !in obj || obj[key] == JNull then Success("")
    else if obj[key].JString? then Success(obj[key].text)
    else Failure("invalid value for string field " + key)
  }

  function AgeField(obj: Object): Result<Int64, string> {
    if "age" !in obj || obj["age"] == JNull then Success(0)
    else
      match obj["age"]
      case JString(s) => (match ParseInt(s)
                          case None => Failure("invalid value for int64 field age")
                          case Some(n) => Success(n))
      case JNumber(n) => if MIN_INT64 <= n <= MAX_INT64 then Success(n)
                         else Failure("invalid value for int64 field age")
      case JNull => Success(0)
  }

  /** json.Marshal then protojson.Unmarshal; a nil map prints as `null`, which is rejected. */
  function FromObject(obj: Option<Object>): Result<Envelope, string> {
    if obj.None? then Failure("unexpected token null")
    else if !(obj.value.Keys <= {"age", "name", "address", "phone"}) then Failure("unknown field")
    else
      match (AgeField(obj.value), TextField(obj.value, "name"),
             TextField(obj.value, "address"), TextField(obj.value, "phone"))
      case (Success(age), Success(name), Success(address), Success(phone)) =>
        Success(Envelope(age, name, address, phone))
      case (Failure(e), _, _, _) => Failure(e)
      case (_, Failure(e), _, _) => Failure(e)
      case (_, _, Failure(e), _) => Failure(e)
      case (_, _, _, Failure(e)) => Failure(e)
  }

  /** proto.Marshal and proto.Unmarshal; the wire format itself is not part of this model. */
  datatype Wire = Wire(marshal: Envelope -> Bytes, unmarshal: Bytes -> Option<Envelope>)
  {
    /** Unmarshal undoes Marshal, and only the all-default envelope has an empty encoding. */
    ghost predicate Lawful() {
      && (forall e {:trigger marshal(e)} :: unmarshal(marshal(e)) == Some(e))
      && (forall e {:trigger marshal(e)} :: marshal(e) == [] <==> e == EMPTY)
    }
  }

  /** What Encode produces; `haveDomain` tells whether Decode supplied a domain message. */
  function Encoded(wire: Wire, obj: Option<Object>, haveDomain: bool): Result<Bytes, string> {
    if !haveDomain then Failure("ProtoCodec: unexpected domain type (got <nil>)")
    else
      match FromObject(obj)
      case Failure(e) => Failure(e)
      case Success(e) => Success(wire.marshal(e))
  }

  class DomainMessage {
    var envelope: Envelope

    constructor (e: Envelope)
      ensures envelope == e
    {
      envelope := e;
    }
  }

  /** ProtoCodec.Decode: the object view together with a new domain message. */
  method Decode(wire: Wire, b: Bytes) returns (r: Result<(Object, DomainMessage), string>)
    ensures r.Success? <==> wire.unmarshal(b).Some?
    ensures r.Success? ==> fresh(r.value.1) && Some(r.value.1.envelope) == wire.unmarshal(b)
                           && r.value.0 == ToObject(r.value.1.envelope)
  {
    var parsed := wire.unmarshal(b);
    if parsed.None? {
      return Failure("cannot parse invalid wire-format data");
    }
    var domain := new DomainMessage(parsed.value);
    r := Success((ToObject(domain.envelope), domain));
  }

  /** ProtoCodec.Encode: resets the domain message, refills it from obj, then marshals it. */
  method Encode(wire: Wire, obj: Option<Object>, orig: DomainMessage?) returns (r: Result<Bytes, string>)
    modifies orig
    ensures r == Encoded(wire, obj, orig != null)
    ensures r.Success? ==> Success(orig.envelope) == FromObject(obj) && r.value == wire.marshal(orig.envelope)
  {
    if orig == null {
      return Failure("ProtoCodec: unexpected domain type (got <nil>)");
    }
    orig.envelope := EMPTY;
    var refilled := FromObject(obj);
    if refilled.Failure? {
      return Failure(refilled.error);
    }
    orig.envelope := refilled.value;
    r := Success(wire.marshal(orig.envelope));
  }

  // ---------- Built-in filters ----------

  datatype Filter = SizeLe1Mb | Recent1h | UserBasic

  /** Panic stands for a failed type assertion inside the filter. */
  datatype Verdict = Pass | Drop | Panic

  function BuiltinFilters(): map<string, Filter> {
    map["size_le_1mb" := SizeLe1Mb, "recent_1h" := Recent1h, "user_basic" := UserBasic]
  }

  function GetInt64(m: Meta, k: string): int {
    if k in m && m[k].Number? then m[k].value else 0
  }

  function UserBasicVerdict(obj: Option<Object>): Verdict {
    if obj.None? then Drop
    else
      var o := obj.value;
      if "name" !in o || o["name"] == JNull || "age" !in o || o["age"] == JNull then Drop
      else
        var name := if o["name"].JString? then o["name"].text else "";
        if !o["age"].JString? then Panic
        else
          match ParseInt(o["age"].text)
          case None => Drop
          case Some(age) =>
            if name == "" then Drop
            else if age > 16 || 'A' in name then Pass else Drop
  }

  /** One filter call; `now` is the clock reading the call would make. */
  function Apply(f: Filter, m: Meta, obj: Option<Object>, now: int): Verdict {
    match f
    case SizeLe1Mb => if GetInt64(m, "size") <= 1024 * 1024 then Pass else Drop
    case Recent1h =>
      var created := GetInt64(m, "createdAtMs");
      if created == 0 then Drop
      else if now - created <= 3600 * 1000 then Pass else Drop
    case UserBasic => UserBasicVerdict(obj)
  }

  /** The filters in order, up to the first that does not pass. */
  function ApplyAll(fs: seq<Filter>, m: Meta, obj: Option<Object>, clock: seq<int>): Verdict {
    if fs == [] then Pass
    else
      var v := Apply(fs[0], m, obj, if clock == [] then 0 else clock[0]);
      if v.Pass? then ApplyAll(fs[1..], m, obj, if clock == [] then [] else clock[1..]) else v
  }

  // ---------- Built-in projections ----------

  datatype Projection = BestEffort | Strict

  function BuiltinProjections(): map<string, Projection> {
    map["keep_name_age_best_effort" := BestEffort, "keep_name_age_strict" := Strict]
  }

  /** None is the nil map. */
  function Project(p: Projection, obj: Option<Object>): Option<Object> {
    match p
    case BestEffort =>
      if obj.None? then Some(map[])
      else
        Some((if "name" in obj.value then map["name" := obj.value["name"]] else map[])
             + (if "age" in obj.value then map["age" := obj.value["age"]] else map[]))
    case Strict =>
      if obj.None? || "name" !in obj.value || "age" !in obj.value then None
      else Some(map["name" := obj.value["name"], "age" := obj.value["age"]])
  }

  // ---------- The stages of one route, in handler order ----------

  datatype Stages = Stages(codec: Option<Wire>, filters: seq<Filter>, projection: Option<Projection>)

  datatype Outcome =
    | Accepted(msg: Message)     // the message the fan-out will publish
    | Rejected(text: string)     // the handler's error
    | Crashed                    // a filter panicked

  function Process(st: Stages, m: Message, clock: seq<int>): Outcome {
    var decodes := st.codec.Some? && |m.value| > 0;
    var parsed := if decodes then st.codec.value.unmarshal(m.value) else None;
    if decodes && parsed.None? then Rejected("decode failed")
    else
      var obj := if decodes then Some(ToObject(parsed.value)) else None;
      var meta := if m.meta.None? then map[] else m.meta.value;
      match ApplyAll(st.filters, meta, obj, clock)
      case Panic => Crashed
      case Drop => Rejected("filtered")
      case Pass =>
        if st.projection.None? || st.codec.None? then Accepted(Message(m.value, Some(meta)))
        else
          match Encoded(st.codec.value, Project(st.projection.value, obj), decodes)
          case Failure(e) => Rejected(e)
          case Success(enc) => Accepted(Message(enc, Some(meta)))
  }

  /** The router.Message object a handler call owns. */
  class InMessage {
    var value: Bytes
    var meta: Option<Meta>

    constructor (m: Message)
      ensures Content() == m
    {
      value, meta := m.value, m.meta;
    }

    ghost function Content(): Message
      reads this
    {
      Message(value, meta)
    }
  }

  /** The filter loop: it stops at the first filter that does not pass. */
  method RunFilters(fs: seq<Filter>, meta: Meta, obj: Option<Object>, clock: seq<int>) returns (end: Verdict)
    ensures end == ApplyAll(fs, meta, obj, clock)
  {
    assert fs[0..] == fs && ClockFrom(clock, 0) == clock;
    for i := 0 to |fs|
      invariant ApplyAll(fs[i..], meta, obj, ClockFrom(clock, i)) == ApplyAll(fs, meta, obj, clock)
    {
      assert fs[i..][1..] == fs[i + 1..];
      assert ClockFrom(clock, i + 1) == if ClockFrom(clock, i) == [] then [] else ClockFrom(clock, i)[1..];
      var v := Apply(fs[i], meta, obj, if i < |clock| then clock[i] else 0);
      if !v.Pass? {
        return v;
      }
    }
    end := Pass;
  }

  /** The handler up to the fan-out: it rewrites `m` in place and reports how the stages ended. */
  method RunStages(st: Stages, m: InMessage, clock: seq<int>) returns (end: Verdict, text: string)
    modifies m
    ensures match Process(st, old(m.Content()), clock)
            case Accepted(msg) => end == Pass && m.Content() == msg
            case Rejected(t) => end == Drop && text == t
            case Crashed => end == Panic
  {
    text := "";
    var obj: Option<Object> := None;
    var domain: DomainMessage? := null;
    if st.codec.Some? && |m.value| > 0 {
      var d := Decode(st.codec.value, m.value);
      if d.Failure? {
        return Drop, "decode failed";
      }
      obj, domain := Some(d.value.0), d.value.1;
    }
    if m.meta.None? {
      m.meta := Some(map[]);
    }
    end := RunFilters(st.filters, m.meta.value, obj, clock);
    if !end.Pass? {
      return end, "filtered";
    }
    if st.projection.Some? && st.codec.Some? {
      var enc := Encode(st.codec.value, Project(st.projection.value, obj), domain);
      if enc.Failure? {
        return Drop, enc.error;
      }
      m.value := enc.value;
    }
  }

  ghost function ClockFrom(clock: seq<int>, i: nat): seq<int> {
    if i <= |clock| then clock[i..] else []
  }
}
