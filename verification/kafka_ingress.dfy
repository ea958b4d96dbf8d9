// A Kafka-sourced route: ten workers share one reader; a message is committed only when its handler
// call returned nil (internal/connector/kafka/ingress.go:21-60).
module KafkaIngress {
  import opened Prelude
  import opened Pipeline
  import opened PipelineMeaning
  import opened Bank
  import opened Router
  import opened RouterSafety
  import opened Adapter

  const WORKERS: nat := 10

  datatype Offset = Offset(partition: nat, offset: nat)

  /** fetched[c] is where the message of handler call c came from; the sets hold settled calls. */
  datatype KState = KState(
    core: State,
    fetched: seq<Offset>,
    committed: set<nat>,     // CommitMessages succeeded
    uncommittable: set<nat>, // the handler succeeded but CommitMessages returned an error, which is ignored
    failed: set<nat>)        // the handler returned an error: nothing is done

  datatype KAction =
    | Fetch(w: nat, at: Offset, d: Delivery)
    | Commit(w: nat, ok: bool)     // the worker acts on the handler's result
    | Inner(a: Action)             // any step of the handlers, lanes and shutdown

  /** A consumer-group session fetches the offsets of a partition in increasing order. */
  ghost predicate KEnabled(r: Route, s: KState, a: KAction) {
    match a
    case Fetch(w, at, d) =>
      && Enabled(r, s.core, Begin(w, d))
      && (forall i :: 0 <= i < |s.fetched| && s.fetched[i].partition == at.partition ==>
            s.fetched[i].offset < at.offset)
    case Commit(w, _) => Enabled(r, s.core, Settle(w))
    case Inner(b) => Enabled(r, s.core, b) && !b.Begin? && !b.Settle?
  }

  function CoreAction(a: KAction): Action {
    match a case Fetch(w, _, d) => Begin(w, d) case Commit(w, _) => Settle(w) case Inner(b) => b
  }

  ghost function KStep(r: Route, s: KState, a: KAction): KState
    requires KEnabled(r, s, a)
  {
    var t := s.(core := Step(r, s.core, CoreAction(a)));
    match a
    case Fetch(_, at, _) => t.(fetched := s.fetched + [at])
    case Commit(w, ok) =>
      var c := s.core.workers[w].call;
      if s.core.calls[c].phase.status != Nil then t.(failed := s.failed + {c})
      else if ok then t.(committed := s.committed + {c})
      else t.(uncommittable := s.uncommittable + {c})
    case Inner(_) => t
  }

  function KInit(r: Route, subscribed: bool): KState {
    KState(Init(r, subscribed), [], {}, {}, {})
  }

  // ---------- Invariant ----------

  ghost predicate Increasing(fetched: seq<Offset>) {
    forall i, j :: 0 <= i < j < |fetched| && fetched[i].partition == fetched[j].partition ==>
      fetched[i].offset < fetched[j].offset
  }

  /** The ingress's books: each settled call is in the set its result calls for, every other call is live. */
  ghost predicate BooksOk(s: KState) {
    && |s.fetched| == |s.core.calls|
    && Increasing(s.fetched)
    && s.committed !! s.uncommittable && s.committed !! s.failed && s.uncommittable !! s.failed
    && (forall c :: c in s.committed + s.uncommittable + s.failed ==> c < |s.core.calls|)
    && (forall c: nat :: c < |s.core.calls| ==> (Live(s.core, c) <==> c !in s.committed + s.uncommittable + s.failed))
    && (forall c :: c in s.committed + s.uncommittable ==> s.core.calls[c].phase == Returned(Nil))
    && (forall c :: c in s.failed ==> s.core.calls[c].phase.Returned? && s.core.calls[c].phase.status != Nil)
  }

  ghost predicate KInv(r: Route, s: KState) {
    Inv(r, s.core) && BooksOk(s)
  }

  /** Only settling ends a worker's call, and only a fetch starts one. */
  lemma WorkersKeepCalls(r: Route, s: State, a: Action, c: nat)
    requires Enabled(r, s, a) && !a.Settle? && c < |s.calls| && s.calls[c].worker < |s.workers|
    ensures c < |Step(r, s, a).calls| && Step(r, s, a).calls[c].worker == s.calls[c].worker
    ensures Live(Step(r, s, a), c) <==> Live(s, c)
  {
  }

  lemma ReturnedStays(r: Route, s: State, a: Action, c: nat)
    requires Enabled(r, s, a) && c < |s.calls| && s.calls[c].phase.Returned?
    ensures c < |Step(r, s, a).calls| && Step(r, s, a).calls[c].phase == s.calls[c].phase
  {
  }

  lemma SettleFrees(r: Route, s: State, w: nat, c: nat)
    requires WorkersOk(s) && Enabled(r, s, Settle(w)) && c < |s.calls|
    ensures Live(Step(r, s, Settle(w)), c) <==> Live(s, c) && c != s.workers[w].call
    ensures Live(s, s.workers[w].call)
  {
  }

  lemma KFetchOk(r: Route, s: KState, w: nat, at: Offset, d: Delivery)
    requires KInv(r, s) && KEnabled(r, s, Fetch(w, at, d))
    ensures KInv(r, KStep(r, s, Fetch(w, at, d)))
  {
    var t := KStep(r, s, Fetch(w, at, d));
    BeginOk(r, s.core, w, d);
    forall c: nat | c < |s.core.calls|
      ensures (Live(t.core, c) <==> Live(s.core, c)) && t.core.calls[c] == s.core.calls[c]
    {
      WorkersKeepCalls(r, s.core, Begin(w, d), c);
    }
    assert Live(t.core, |s.core.calls|);
  }

  lemma CommitBooks(r: Route, s: KState, w: nat, ok: bool)
    requires WorkersOk(s.core) && BooksOk(s) && KEnabled(r, s, Commit(w, ok))
    ensures BooksOk(KStep(r, s, Commit(w, ok)))
  {
    var t := KStep(r, s, Commit(w, ok));
    var x := s.core.workers[w].call;
    SettleFrees(r, s.core, w, x);
    assert t.core.calls == s.core.calls && t.fetched == s.fetched;
    assert t.committed + t.uncommittable + t.failed == s.committed + s.uncommittable + s.failed + {x};
    forall c: nat | c < |t.core.calls| ensures Live(t.core, c) <==> Live(s.core, c) && c != x {
      SettleFrees(r, s.core, w, c);
    }
  }

  lemma KCommitOk(r: Route, s: KState, w: nat, ok: bool)
    requires KInv(r, s) && KEnabled(r, s, Commit(w, ok))
    ensures KInv(r, KStep(r, s, Commit(w, ok)))
  {
    SettleOk(r, s.core, w);
    CommitBooks(r, s, w, ok);
  }

  lemma KInnerOk(r: Route, s: KState, a: Action)
    requires KInv(r, s) && KEnabled(r, s, Inner(a))
    requires Inv(r, Step(r, s.core, a)) && |Step(r, s.core, a).calls| == |s.core.calls|
    ensures KInv(r, KStep(r, s, Inner(a)))
  {
    var t := KStep(r, s, Inner(a));
    forall c: nat | c < |s.core.calls|
      ensures Live(t.core, c) <==> Live(s.core, c)
      ensures s.core.calls[c].phase.Returned? ==> t.core.calls[c].phase == s.core.calls[c].phase
    {
      WorkersKeepCalls(r, s.core, a, c);
      if s.core.calls[c].phase.Returned? { ReturnedStays(r, s.core, a, c); }
    }
  }

  lemma SameCallCount(r: Route, s: State, a: Action)
    requires Enabled(r, s, a) && !a.Begin?
    ensures |Step(r, s, a).calls| == |s.calls|
  {
  }

  lemma KStepOk(r: Route, s: KState, a: KAction)
    requires KInv(r, s) && KEnabled(r, s, a)
    ensures KInv(r, KStep(r, s, a))
  {
    match a {
      case Fetch(w, at, d) => KFetchOk(r, s, w, at, d);
      case Commit(w, ok) => KCommitOk(r, s, w, ok);
      case Inner(b) =>
        StepOk(r, s.core, b);
        SameCallCount(r, s.core, b);
        KInnerOk(r, s, b);
    }
  }

  ghost predicate IsKRun(r: Route, tr: seq<KState>, acts: seq<KAction>) {
    && |tr| == |acts| + 1
    && forall i: nat {:trigger acts[i]} :: i < |acts| ==>
         KEnabled(r, tr[i], acts[i]) && tr[i + 1] == KStep(r, tr[i], acts[i])
  }

  /** Reachable from the start of a subscribed route with ten ingress workers. */
  ghost predicate KReachable(r: Route, s: KState) {
    exists tr: seq<KState>, acts: seq<KAction> :: ReachedBy(r, s, tr, acts)
  }

  ghost predicate ReachedBy(r: Route, s: KState, tr: seq<KState>, acts: seq<KAction>) {
    IsKRun(r, tr, acts) && tr[0] == KInit(r, true) && tr[|acts|] == s
  }

  lemma {:induction false} KRunOk(r: Route, tr: seq<KState>, acts: seq<KAction>, n: nat)
    requires IsKRun(r, tr, acts) && KInv(r, tr[0]) && n <= |acts|
    ensures KInv(r, tr[n])
  {
    if n > 0 {
      KRunOk(r, tr, acts, n - 1);
      var a := acts[n - 1];
      KStepOk(r, tr[n - 1], a);
    }
  }

  lemma KReachableOk(r: Route, s: KState)
    requires KReachable(r, s)
    ensures KInv(r, s)
  {
    var tr: seq<KState>, acts: seq<KAction> :| ReachedBy(r, s, tr, acts);
    InitOk(r, true);
    KRunOk(r, tr, acts, |acts|);
  }

  // ---------- Results ----------

  /** The publish of call c's processed payload, with its metadata, returned nil at every target. */
  ghost predicate DeliveredEverywhere(r: Route, s: State, c: nat)
    requires c < |s.calls|
  {
    var out := Process(r.stages, Arrived(s.calls[c].input), []);
    out.Accepted? && AllSucceeded(s, c, Delivery(out.msg.value, s.calls[c].input.meta))
  }

  /** Commit safety: in every reachable state a committed message has been published to every target. */
  lemma CommitSafety(r: Route, s: KState, c: nat)
    requires KReachable(r, s) && c in s.committed
    ensures c < |s.core.calls| && DeliveredEverywhere(r, s.core, c)
  {
    KReachableOk(r, s);
    FanOutExact(r, s.core, c);
  }

  /** Every fetched message is in exactly one of four places. */
  lemma OffsetPartition(r: Route, s: KState, c: nat)
    requires KReachable(r, s) && c < |s.fetched|
    ensures c < |s.core.calls|
    ensures multiset{Live(s.core, c), c in s.committed, c in s.uncommittable, c in s.failed}[true] == 1
    ensures c in s.failed ==> !DeliveredEverywhere(r, s.core, c)
  {
    KReachableOk(r, s);
    if c in s.failed { FanOutExact(r, s.core, c); }
  }

  /** Among the messages the ingress is done with, the ones not delivered everywhere are exactly the failed ones. */
  lemma SettledDeliveredIff(r: Route, s: KState, c: nat)
    requires KReachable(r, s) && c < |s.fetched|
    ensures c < |s.core.calls|
    ensures !Live(s.core, c) ==> (DeliveredEverywhere(r, s.core, c) <==> c !in s.failed)
  {
    KReachableOk(r, s);
    if !Live(s.core, c) {
      FanOutExact(r, s.core, c);
    }
  }

  /** The publish of call c's processed payload to target ti returned an error. */
  ghost predicate PublishFailed(r: Route, s: State, c: nat, ti: nat)
    requires c < |s.calls| && ti < |s.banks|
  {
    var out := Process(r.stages, Arrived(s.calls[c].input), []);
    out.Accepted? && exists text :: PublishedOnce(s, ti, c, Delivery(out.msg.value, s.calls[c].input.meta), Err(text))
  }

  ghost predicate SomePublishFailed(r: Route, s: State, c: nat)
    requires c < |s.calls|
  {
    exists ti: nat :: ti < |s.banks| && PublishFailed(r, s, c, ti)
  }

  /** The stages have no use for the call's payload. */
  predicate Unacceptable(r: Route, s: State, c: nat)
    requires c < |s.calls| && r.stages.codec.Some?
  {
    !Acceptable(r.stages, s.calls[c].input.payload)
  }

  lemma FailureIsNotSuccess(r: Route, s: State, c: nat, ti: nat)
    requires Inv(r, s) && c < |s.calls| && ti < |s.banks| && PublishFailed(r, s, c, ti)
    ensures !DeliveredEverywhere(r, s, c)
  {
    var out := Process(r.stages, Arrived(s.calls[c].input), []);
    var body := Delivery(out.msg.value, s.calls[c].input.meta);
    var text :| PublishedOnce(s, ti, c, body, Err(text));
    assert BankOk(s.banks[ti]);
    OneAnswer(s, ti, c, Err(text));
    assert !PublishedOnce(s, ti, c, body, Nil);
  }

  /** A message fails exactly when the stages cannot accept its payload or some target's publish returned an error. */
  lemma FailedIff(r: Route, s: KState, c: nat)
    requires KReachable(r, s) && c < |s.fetched| && r.stages.codec.Some?
    ensures c < |s.core.calls|
    ensures c in s.failed <==> !Live(s.core, c) && (Unacceptable(r, s.core, c) || SomePublishFailed(r, s.core, c))
  {
    KReachableOk(r, s);
    SettledDeliveredIff(r, s, c);
    var d := s.core.calls[c].input;
    ArrivedFromBus(d);
    StagesOnEnvelopes(r.stages, Arrived(d), []);
    if c in s.failed && !Unacceptable(r, s.core, c) {
      FailedPublish(r, s.core, c);
    }
    forall ti: nat | ti < |s.core.banks| && PublishFailed(r, s.core, c, ti) ensures !DeliveredEverywhere(r, s.core, c) {
      FailureIsNotSuccess(r, s.core, c, ti);
    }
  }

  lemma FailedPublish(r: Route, s: State, c: nat)
    requires Inv(r, s) && c < |s.calls| && s.calls[c].phase.Returned? && s.calls[c].phase.status != Nil
    requires Process(r.stages, Arrived(s.calls[c].input), []).Accepted?
    ensures SomePublishFailed(r, s, c)
  {
    FanOutExact(r, s, c);
    var msg := Process(r.stages, Arrived(s.calls[c].input), []).msg;
    var body := Delivery(msg.value, s.calls[c].input.meta);
    var ti: nat, text :| ti < |s.banks| && ti < |r.targets| && PublishedOnce(s, ti, c, body, Err(text))
      && s.calls[c].phase.status == Wrapped(r.targets[ti], Err(text));
    assert PublishFailed(r, s, c, ti);
  }

  /** Fetched messages of h's partition that lie below h. */
  ghost function BelowOffset(s: KState, h: nat): set<nat>
    requires h < |s.fetched|
  {
    set c: nat | c < |s.fetched| && s.fetched[c].partition == s.fetched[h].partition
                 && s.fetched[c].offset < s.fetched[h].offset
  }

  ghost function InHand(s: KState): set<nat> {
    set c: nat | c < |s.core.calls| && Live(s.core, c)
  }

  /** What a worker holds was fetched after everything it has settled. */
  lemma HolderIsHigher(r: Route, s: KState, h: nat, c: nat)
    requires KInv(r, s) && h < |s.fetched| && c < |s.fetched| && Live(s.core, c)
    requires s.core.calls[h].worker == s.core.calls[c].worker
    requires s.fetched[h].partition == s.fetched[c].partition
    ensures s.fetched[h].offset <= s.fetched[c].offset
  {
    assert s.core.workers[s.core.calls[c].worker] == Running(c);
    assert h <= c;
  }

  lemma HeldBelow(r: Route, s: KState, h: nat)
    requires KInv(r, s) && h in s.committed
    ensures |BelowOffset(s, h) * InHand(s)| <= |s.core.workers| - 1
  {
    var held := BelowOffset(s, h) * InHand(s);
    assert h < |s.core.calls| && s.core.calls[h].worker < |s.core.workers|;
    forall c | c in held ensures HeldByOther(s.core, c, s.core.calls[h].worker) {
      if s.core.calls[c].worker == s.core.calls[h].worker { HolderIsHigher(r, s, h, c); }
    }
    OnePerWorker(s.core, held, s.core.calls[h].worker);
  }

  ghost predicate HeldByOther(s: State, c: nat, mine: nat) {
    && c < |s.calls| && s.calls[c].worker < |s.workers| && s.calls[c].worker != mine
    && s.workers[s.calls[c].worker] == Running(c)
  }

  lemma OnePerWorker(s: State, held: set<nat>, mine: nat)
    requires mine < |s.workers| && forall c :: c in held ==> HeldByOther(s, c, mine)
    ensures |held| <= |s.workers| - 1
  {
    var owner := (c: nat) => if c < |s.calls| then s.calls[c].worker else 0;
    var others := Below(|s.workers|) - {mine};
    assert forall c :: c in held ==> HeldByOther(s, c, mine) && owner(c) in others;
    InjectionFits(held, owner, others);
    assert |others| == |s.workers| - 1;
  }

  /**
   * Below any committed offset of a partition the only uncommitted messages are failures, lost commits and
   * messages still in hand, and of the last there are at most nine: the worker that committed the
   * offset holds only higher ones.
   */
  lemma CommitWindow(r: Route, s: KState, h: nat)
    requires r.workers == WORKERS && KReachable(r, s) && h in s.committed
    ensures h < |s.fetched|
    ensures BelowOffset(s, h) - s.committed <= InHand(s) + s.failed + s.uncommittable
    ensures |BelowOffset(s, h) * InHand(s)| <= WORKERS - 1
  {
    KReachableOk(r, s);
    HeldBelow(r, s, h);
  }

  /** In a run without handler failures or commit errors at most nine lower offsets are uncommitted. */
  lemma CommitWindowWithoutFailures(r: Route, s: KState, h: nat)
    requires r.workers == WORKERS && KReachable(r, s) && h in s.committed
    requires s.failed == {} && s.uncommittable == {}
    ensures h < |s.fetched| && |BelowOffset(s, h) - s.committed| <= WORKERS - 1
  {
    CommitWindow(r, s, h);
    SubsetFits(BelowOffset(s, h) - s.committed, BelowOffset(s, h) * InHand(s));
  }

  /**
   * Once nothing below a committed offset is in hand, everything below it in its partition has been delivered
   * everywhere exactly when no message below it failed.
   */
  lemma NothingSkippedIff(r: Route, s: KState, h: nat)
    requires KReachable(r, s) && h in s.committed
    ensures h < |s.fetched|
    ensures BelowOffset(s, h) !! InHand(s) ==>
      ((forall c :: c in BelowOffset(s, h) ==> c < |s.core.calls| && DeliveredEverywhere(r, s.core, c))
       <==> BelowOffset(s, h) !! s.failed)
  {
    KReachableOk(r, s);
    if BelowOffset(s, h) !! InHand(s) {
      forall c | c in BelowOffset(s, h)
        ensures c < |s.core.calls| && (DeliveredEverywhere(r, s.core, c) <==> c !in s.failed)
      {
        SettledDeliveredIff(r, s, c);
        assert c !in InHand(s);
      }
    }
  }

  /** With ten workers every lane, whose buffer is 8192 deep, always has room. */
  lemma LanesHaveRoom(r: Route, s: KState, ti: nat, li: nat)
    requires r.workers == WORKERS && KReachable(r, s) && ti < |s.core.banks| && li < |s.core.banks[ti].lanes|
    ensures |Outstanding(s.core, ti)| <= WORKERS
    ensures |s.core.banks[ti].lanes[li].queue| <= WORKERS < LANE_BUFFER
  {
    KReachableOk(r, s);
    assert BankOk(s.core.banks[ti]);
    OccupancyBound(r, s.core, ti, li);
  }

  // ---------- Metadata from record headers ----------

  /** A later header replaces an earlier one of the same key. */
  method BuildMeta(headers: seq<(string, string)>) returns (meta: map<string, string>)
    ensures Indexes(meta, headers)
  {
    meta := map[];
    for i := 0 to |headers|
      invariant Indexes(meta, headers[..i])
    {
      IndexMore(meta, headers, i);
      meta := meta[headers[i].0 := headers[i].1];
    }
    assert headers[..|headers|] == headers;
  }
}
