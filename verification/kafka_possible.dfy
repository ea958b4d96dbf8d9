// What a Kafka-sourced route can do: all ten workers busy at once, a commit above nine messages in hand, and a
// commit above a message that is never published (internal/connector/kafka/ingress.go:32-57).
module KafkaPossible {
  import opened Prelude
  import opened Pipeline
  import opened PipelineMeaning
  import opened Bank
  import opened Router
  import opened RouterSafety
  import opened RouterPossible
  import opened KafkaIngress

  lemma ExtendRun(r: Route, s: KState, a: KAction)
    requires KReachable(r, s) && KEnabled(r, s, a)
    ensures KReachable(r, KStep(r, s, a))
  {
    var tr: seq<KState>, acts: seq<KAction> :| ReachedBy(r, s, tr, acts);
    AppendKStep(r, tr, acts, a);
    assert ReachedBy(r, KStep(r, s, a), tr + [KStep(r, s, a)], acts + [a]);
  }

  lemma AppendKStep(r: Route, tr: seq<KState>, acts: seq<KAction>, a: KAction)
    requires IsKRun(r, tr, acts) && KEnabled(r, tr[|acts|], a)
    ensures IsKRun(r, tr + [KStep(r, tr[|acts|], a)], acts + [a])
  {
    var tr', acts' := tr + [KStep(r, tr[|acts|], a)], acts + [a];
    forall i: nat | i < |acts'| ensures KEnabled(r, tr'[i], acts'[i]) && tr'[i + 1] == KStep(r, tr'[i], acts'[i]) {
      if i < |acts| { assert acts'[i] == acts[i]; }
    }
  }

  lemma ReachKInit(r: Route)
    ensures KReachable(r, KInit(r, true))
  {
    assert ReachedBy(r, KInit(r, true), [KInit(r, true)], []);
  }

  lemma {:induction false} KInsideRun(r: Route, s: KState, tr: seq<State>, acts: seq<Action>, n: nat)
    requires KReachable(r, s) && IsRun(r, tr, acts) && tr[0] == s.core && n <= |acts|
    requires forall a :: a in acts ==> !a.Begin? && !a.Settle?
    ensures KReachable(r, s.(core := tr[n]))
  {
    if n > 0 {
      KInsideRun(r, s, tr, acts, n - 1);
      KInsideStep(r, s, tr, acts, n - 1);
    } else {
      assert s.(core := tr[0]) == s;
    }
  }

  lemma KInsideStep(r: Route, s: KState, tr: seq<State>, acts: seq<Action>, i: nat)
    requires IsRun(r, tr, acts) && i < |acts| && KReachable(r, s.(core := tr[i]))
    requires !acts[i].Begin? && !acts[i].Settle?
    ensures KReachable(r, s.(core := tr[i + 1]))
  {
    var a := acts[i];
    ExtendRun(r, s.(core := tr[i]), Inner(a));
  }

  lemma KInside(r: Route, s: KState, t: State)
    requires KReachable(r, s) && LeadsInside(r, s.core, t)
    ensures KReachable(r, s.(core := t))
  {
    var tr: seq<State>, acts: seq<Action> :|
      IsRun(r, tr, acts) && tr[0] == s.core && tr[|acts|] == t && forall a :: a in acts ==> !a.Begin? && !a.Settle?;
    KInsideRun(r, s, tr, acts, |acts|);
  }

  // ---------- All ten workers busy ----------

  /**
   * With any acceptable messages at increasing offsets and any assignment of jobs to lanes, all workers of the reader
   * can hold a message at once, with a job queued at every target for each.
   */
  lemma {:induction false} AllWorkersHold(r: Route, ats: seq<Offset>, ds: seq<Delivery>, lane: nat -> nat -> nat,
                                          n: nat)
    returns (s: KState)
    requires n <= r.workers <= 8192 && |ats| == |ds| == r.workers && Increasing(ats)
    requires forall d :: d in ds ==> Passes(r, d)
    requires forall ti: nat, c: nat :: ti < |r.targets| && c < r.workers ==> lane(ti)(c) < 16
    ensures KReachable(r, s) && FullHouse(r, s.core, ds, lane, n)
    ensures s == KState(s.core, ats[..n], {}, {}, {})
  {
    if n == 0 {
      ReachKInit(r);
      EmptyHouse(r, ds, lane);
      s := KInit(r, true);
    } else {
      var m := AllWorkersHold(r, ats, ds, lane, n - 1);
      s := OneMoreHolds(r, m, ats, ds, lane, n - 1);
    }
  }

  lemma OneMoreHolds(r: Route, m: KState, ats: seq<Offset>, ds: seq<Delivery>, lane: nat -> nat -> nat, n: nat)
    returns (s: KState)
    requires n < r.workers <= 8192 && |ats| == |ds| == r.workers && Increasing(ats) && Passes(r, ds[n])
    requires forall ti: nat :: ti < |r.targets| ==> lane(ti)(n) < 16
    requires KReachable(r, m) && FullHouse(r, m.core, ds, lane, n) && m == KState(m.core, ats[..n], {}, {}, {})
    ensures KReachable(r, s) && FullHouse(r, s.core, ds, lane, n + 1)
    ensures s == KState(s.core, ats[..n + 1], {}, {}, {})
  {
    var core := SeatOne(r, m.core, ds, lane, n);
    s := FetchAt(r, m, n, ats[n], ds[n], core);
    assert ats[..n + 1] == ats[..n] + [ats[n]];
  }

  /** A worker fetches, and steps inside the route follow. */
  lemma FetchAt(r: Route, m: KState, w: nat, at: Offset, d: Delivery, core: State) returns (s: KState)
    requires KReachable(r, m) && KEnabled(r, m, Fetch(w, at, d))
    requires LeadsInside(r, Step(r, m.core, Begin(w, d)), core)
    ensures KReachable(r, s) && s == m.(core := core, fetched := m.fetched + [at])
  {
    ExtendRun(r, m, Fetch(w, at, d));
    var t := KStep(r, m, Fetch(w, at, d));
    KInside(r, t, core);
    s := t.(core := core);
  }

  // ---------- Nine in hand below a commit ----------

  /** Every message but the last goes down lane 0. */
  function LastOnItsOwn(last: nat): nat -> nat -> nat {
    ti => c => if c == last then 1 else 0
  }

  /**
   * The commit window is attained: nine workers can hold the nine messages below an offset that the tenth has
   * committed, or tried to commit, if the commit itself failed.
   */
  lemma NineBelowCommit(r: Route, p: nat, ds: seq<Delivery>, ok: bool) returns (s: KState)
    requires r.workers == WORKERS && |ds| == WORKERS && forall d :: d in ds ==> Passes(r, d)
    ensures KReachable(r, s) && |s.fetched| == 10 && |s.core.calls| == 10
    ensures forall i :: 0 <= i < 10 ==> s.fetched[i] == Offset(p, i)
    ensures s.failed == {} && s.committed == (if ok then {9} else {}) && s.uncommittable == (if ok then {} else {9})
    ensures forall c: nat :: c < 9 ==> Live(s.core, c) && s.core.calls[c].input == ds[c]
  {
    var last: nat := WORKERS - 1;
    var ats := seq(WORKERS, i requires 0 <= i => Offset(p, i));
    var lane := LastOnItsOwn(last);
    var m := AllWorkersHold(r, ats, ds, lane, last);
    var t := TenthReturns(r, m, ats[last], ds, lane, last);
    s := KStep(r, t, Commit(last, ok));
    ExtendRun(r, t, Commit(last, ok));
  }

  lemma TenthReturns(r: Route, m: KState, at: Offset, ds: seq<Delivery>, lane: nat -> nat -> nat, last: nat)
    returns (t: KState)
    requires KReachable(r, m) && FullHouse(r, m.core, ds, lane, last) && lane == LastOnItsOwn(last)
    requires last < r.workers && last < |ds| && Passes(r, ds[last])
    requires forall i :: 0 <= i < |m.fetched| ==> m.fetched[i].offset < at.offset
    ensures KReachable(r, t) && t == m.(core := t.core, fetched := m.fetched + [at]) && !t.core.panicked
    ensures |t.core.calls| == last + 1 && t.core.calls[last].phase == Returned(Nil)
    ensures forall c: nat :: c < last ==> t.core.calls[c] == m.core.calls[c]
    ensures t.core.workers == m.core.workers[last := Running(last)]
  {
    var s1 := Step(r, m.core, Begin(last, ds[last]));
    InsideNothing(r, s1);
    var s2 := StageCall(r, s1, s1, last, last, ds[last]);
    forall ti: nat | ti < |s2.banks| ensures FreeFor(s2, ti, last, 1) {
      assert Queued(m.core.banks[ti], lane(ti), last);
      NobodyOnLaneOne(lane(ti), last);
    }
    var order, statuses := InTurn(|r.targets|), seq(|r.targets|, _ => Nil);
    InTurnIsAll(r);
    var core := Complete(r, s1, s2, last, order, statuses, 1);
    t := FetchAt(r, m, last, at, ds[last], core);
  }

  lemma {:induction false} NobodyOnLaneOne(lane: nat -> nat, n: nat)
    requires forall c: nat :: c < n ==> lane(c) != 1
    ensures Routed(lane, 1, n) == []
  {
    if n > 0 { NobodyOnLaneOne(lane, n - 1); }
  }

  // ---------- Commits are per message, not a prefix ----------

  /** Worker 0 of a fresh route fetches a message the stages reject. */
  lemma SkipFirst(r: Route, d: Delivery) returns (s: KState)
    requires r.workers > 0 && Process(r.stages, Arrived(d), []).Rejected?
    ensures KReachable(r, s) && s.fetched == [Offset(0, 0)] && s.failed == {0} && s.committed == {}
    ensures !s.core.panicked && |s.core.calls| == 1 && |s.core.workers| == r.workers && s.core.workers[0] == Free
    ensures |s.core.banks| == |r.targets| && forall ti :: 0 <= ti < |r.targets| ==> s.core.banks[ti] == Admit(NewBank())
  {
    ReachKInit(r);
    var s1 := Step(r, KInit(r, true).core, Begin(0, d));
    InsideNothing(r, s1);
    InsideStep(r, s1, s1, RunStages(0, []));
    var m := FetchAt(r, KInit(r, true), 0, Offset(0, 0), d, Step(r, s1, RunStages(0, [])));
    s := KStep(r, m, Commit(0, true));
    ExtendRun(r, m, Commit(0, true));
  }

  /** It then fetches an acceptable one at the next offset, which is published everywhere and committed. */
  lemma CommitSecond(r: Route, m: KState, d: Delivery) returns (s: KState)
    requires KReachable(r, m) && m.fetched == [Offset(0, 0)] && m.failed == {0} && m.committed == {} && Passes(r, d)
    requires !m.core.panicked && |m.core.calls| == 1 && |m.core.workers| > 0 && m.core.workers[0] == Free
    requires |m.core.banks| == |r.targets|
    requires forall ti :: 0 <= ti < |r.targets| ==> m.core.banks[ti] == Admit(NewBank())
    ensures KReachable(r, s) && s.fetched == [Offset(0, 0), Offset(0, 1)] && s.failed == {0} && s.committed == {1}
  {
    var s1 := Step(r, m.core, Begin(0, d));
    InsideNothing(r, s1);
    var s2 := StageCall(r, s1, s1, 1, 0, d);
    FreshIsFree(s2, 1, 0, s1.banks);
    InTurnIsAll(r);
    var core := Complete(r, s1, s2, 1, InTurn(|r.targets|), seq(|r.targets|, _ => Nil), 0);
    var t := FetchAt(r, m, 0, Offset(0, 1), d, core);
    s := KStep(r, t, Commit(0, true));
    ExtendRun(r, t, Commit(0, true));
  }

  /**
   * On any route that rejects some message and accepts another, the accepted one can be committed above the rejected
   * one, which is then skipped for good.
   */
  lemma SkippedBelowCommitted(r: Route, bad: Delivery, good: Delivery) returns (s: KState)
    requires r.workers > 0 && Process(r.stages, Arrived(bad), []).Rejected? && Passes(r, good)
    ensures KReachable(r, s) && s.fetched == [Offset(0, 0), Offset(0, 1)] && s.committed == {1} && s.failed == {0}
    ensures |s.core.calls| == 2 && !DeliveredEverywhere(r, s.core, 0) && DeliveredEverywhere(r, s.core, 1)
  {
    var m := SkipFirst(r, bad);
    s := CommitSecond(r, m, good);
    KReachableOk(r, s);
    OffsetPartition(r, s, 0);
    OffsetPartition(r, s, 1);
    CommitSafety(r, s, 1);
  }

  /** For one, the route that only filters by user_basic rejects an empty payload and accepts an adult. */
  lemma UserBasicSkips(wire: Wire, target: Target) returns (r: Route, s: KState)
    requires wire.Lawful()
    ensures r == Route(WORKERS, Stages(Some(wire), [UserBasic], None), [target])
    ensures KReachable(r, s) && s.fetched == [Offset(0, 0), Offset(0, 1)] && s.committed == {1} && s.failed == {0}
  {
    r := Route(WORKERS, Stages(Some(wire), [UserBasic], None), [target]);
    var e := Envelope(30, "Ann", "", "");
    assert wire.unmarshal(wire.marshal(e)) == Some(e) && wire.marshal(e) != [];
    var bad, good := Delivery([], map[]), Delivery(wire.marshal(e), map[]);
    ArrivedFromBus(bad);
    ArrivedFromBus(good);
    assert UserBasic in r.stages.filters && !FilterPasses(UserBasic, None);
    StagesOnEnvelopes(r.stages, Arrived(bad), []);
    StagesOnEnvelopes(r.stages, Arrived(good), []);
    s := SkippedBelowCommitted(r, bad, good);
  }
}
