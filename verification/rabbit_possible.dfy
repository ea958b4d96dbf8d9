// What a RabbitMQ-sourced route can do: every way a delivery can end, and a full prefetch window
// (internal/connector/rabbitmq/ingress.go:55-111).
module RabbitPossible {
  import opened Prelude
  import opened Bank
  import opened Router
  import opened RouterSafety
  import opened RouterPossible
  import opened RabbitIngress

  lemma {:induction false} RInsideRun(r: Route, p: Policy, s: RState, tr: seq<State>, acts: seq<Action>, n: nat)
    requires r.workers == 1 && RReachable(r, p, s) && IsRun(r, tr, acts) && tr[0] == s.core && n <= |acts|
    requires forall a :: a in acts ==> !a.Begin? && !a.Settle?
    ensures RReachable(r, p, s.(core := tr[n]))
  {
    if n > 0 {
      RInsideRun(r, p, s, tr, acts, n - 1);
      RInsideStep(r, p, s, tr, acts, n - 1);
    } else {
      assert s.(core := tr[0]) == s;
    }
  }

  lemma RInsideStep(r: Route, p: Policy, s: RState, tr: seq<State>, acts: seq<Action>, i: nat)
    requires r.workers == 1 && IsRun(r, tr, acts) && i < |acts| && RReachable(r, p, s.(core := tr[i]))
    requires !acts[i].Begin? && !acts[i].Settle?
    ensures RReachable(r, p, s.(core := tr[i + 1]))
  {
    var a := acts[i];
    RCounts(r, p, s.(core := tr[i]));
    ExtendRRun(r, p, s.(core := tr[i]), Inner(a));
  }

  lemma RInside(r: Route, p: Policy, s: RState, t: State)
    requires r.workers == 1 && RReachable(r, p, s) && LeadsInside(r, s.core, t)
    ensures RReachable(r, p, s.(core := t))
  {
    var tr: seq<State>, acts: seq<Action> :|
      IsRun(r, tr, acts) && tr[0] == s.core && tr[|acts|] == t && forall a :: a in acts ==> !a.Begin? && !a.Settle?;
    RInsideRun(r, p, s, tr, acts, |acts|);
  }

  // ---------- The prefetch window fills ----------

  function TaggedFrom(ms: seq<AmqpMessage>): seq<Tagged> {
    seq(|ms|, i requires 0 <= i < |ms| => Tagged(ms[i], i + 1))
  }

  /** The broker can have any messages out at once, up to the prefetch count, tagged in order from 1. */
  lemma {:induction false} WindowFills(r: Route, p: Policy, ms: seq<AmqpMessage>) returns (s: RState)
    requires p.autoAck || p.prefetch == 0 || |ms| <= p.prefetch
    ensures RReachable(r, p, s) && s.core == Init(r, true) && s.queue == [] && s.taken == []
    ensures s.prefetched == TaggedFrom(ms) && s.nextTag == |ms| + 1 && s.arrived == multiset(ms)
    ensures s.unsettled == multiset{} && s.dropped == multiset{}
    ensures s.acked == if p.autoAck then multiset(ms) else multiset{}
    ensures s.ackedCalls == {} && s.unsettledCalls == {} && s.droppedCalls == {} && s.requeuedCalls == {}
    decreases |ms|
  {
    if ms == [] {
      ReachRInit(r, p);
      s := RInit(r);
    } else {
      var n: nat := |ms| - 1;
      var b := WindowFills(r, p, ms[..n]);
      s := OneMoreOut(r, p, b, ms[n]);
      TaggedMore(ms, n);
    }
  }

  lemma TaggedMore(ms: seq<AmqpMessage>, n: nat)
    requires |ms| == n + 1
    ensures TaggedFrom(ms) == TaggedFrom(ms[..n]) + [Tagged(ms[n], n + 1)]
    ensures multiset(ms) == multiset(ms[..n]) + multiset{ms[n]}
  {
    assert ms == ms[..n] + [ms[n]];
  }

  lemma OneMoreOut(r: Route, p: Policy, b: RState, m: AmqpMessage) returns (s: RState)
    requires RReachable(r, p, b) && b.core == Init(r, true) && b.queue == [] && b.taken == []
    requires p.autoAck || p.prefetch == 0 || |b.prefetched| < p.prefetch
    requires b.unsettled == multiset{}
    ensures RReachable(r, p, s)
    ensures s == b.(arrived := b.arrived + multiset{m}, prefetched := b.prefetched + [Tagged(m, b.nextTag)],
                    nextTag := b.nextTag + 1, acked := if p.autoAck then b.acked + multiset{m} else b.acked)
  {
    ExtendRRun(r, p, b, Enqueue(m));
    var q := RStep(r, p, b, Enqueue(m));
    assert InHand(q) == multiset{};
    ExtendRRun(r, p, q, Push);
    s := RStep(r, p, q, Push);
  }

  // ---------- Every way a delivery can end ----------

  /** A lone delivery has been taken, handled and settled: it is in one of the four places. */
  ghost predicate EndedIn(p: Policy, s: RState, m: AmqpMessage, good: bool, ok: bool) {
    var one, none := multiset{m}, multiset{};
    if !ok then
      s.unsettled == one && s.acked == none && s.dropped == none && s.queue == [] && s.unsettledCalls == {0}
    else if good then
      s.acked == one && s.unsettled == none && s.dropped == none && s.queue == [] && s.ackedCalls == {0}
    else if p.requeueOnError then
      s.queue == [m] && s.acked == none && s.unsettled == none && s.dropped == none && s.requeuedCalls == {0}
    else
      s.dropped == one && s.acked == none && s.unsettled == none && s.queue == [] && s.droppedCalls == {0}
  }

  /**
   * On every route with one worker, any acceptable message, whatever its targets answer in whatever order, can be
   * delivered and settled: acked if all answered nil, else requeued or dropped as the policy says; or its settlement is
   * lost. Afterwards the worker is free.
   */
  lemma EveryEnd(r: Route, p: Policy, m: AmqpMessage, order: seq<nat>, statuses: seq<Status>, ok: bool)
    returns (s: RState)
    requires r.workers == 1 && !p.autoAck && Passes(r, DeliveryOf(Tagged(m, 1)))
    requires |statuses| == |r.targets| && AllTargets(r, order)
    ensures RReachable(r, p, s) && s.arrived == multiset{m} && s.prefetched == [] && s.taken == [Tagged(m, 1)]
    ensures s.core.workers == [Free] && EndedIn(p, s, m, forall st :: st in statuses ==> st == Nil, ok)
  {
    var q := WindowFills(r, p, [m]);
    assert q.prefetched == [Tagged(m, 1)];
    var t := TakenAndHandled(r, p, q, m, order, statuses);
    GoodIffNil(r, order, statuses, t.core.calls[0].phase.status);
    s := SettleLone(r, p, t, m, ok);
  }

  lemma SettleLone(r: Route, p: Policy, t: RState, m: AmqpMessage, ok: bool) returns (s: RState)
    requires RReachable(r, p, t) && !p.autoAck && t.taken == [Tagged(m, 1)] && t.queue == []
    requires t.acked == t.unsettled == t.dropped == multiset{}
    requires t.ackedCalls == t.unsettledCalls == t.droppedCalls == t.requeuedCalls == {}
    requires !t.core.panicked && t.core.workers == [Running(0)] && |t.core.calls| == 1
    requires t.core.calls[0].phase.Returned?
    ensures RReachable(r, p, s) && s.core.workers == [Free]
    ensures s.arrived == t.arrived && s.prefetched == t.prefetched && s.taken == t.taken
    ensures EndedIn(p, s, m, t.core.calls[0].phase.status == Nil, ok)
  {
    ExtendRRun(r, p, t, Settled(ok, 0));
    s := RStep(r, p, t, Settled(ok, 0));
  }

  lemma TakeFirst(r: Route, p: Policy, q: RState, m: AmqpMessage) returns (u: RState)
    requires r.workers == 1 && RReachable(r, p, q) && q.core == Init(r, true) && q.prefetched == [Tagged(m, 1)]
    requires q.taken == []
    ensures RReachable(r, p, u) && u == q.(core := u.core, prefetched := [], taken := [Tagged(m, 1)])
    ensures var d := DeliveryOf(Tagged(m, 1)); u.core.calls == [Call(0, d, Arrived(d), Entered)]
    ensures !u.core.panicked && u.core.workers == [Running(0)]
    ensures |u.core.banks| == |r.targets| && forall ti :: 0 <= ti < |r.targets| ==> u.core.banks[ti] == Admit(NewBank())
  {
    var d := DeliveryOf(Tagged(m, 1));
    var s1 := FirstFetch(r, d);
    ExtendRRun(r, p, q, Take);
    u := RStep(r, p, q, Take);
    assert u.core == Step(r, q.core, Begin(0, d)) == s1;
    assert u.prefetched == [] && u.taken == [Tagged(m, 1)];
  }

  lemma TakenAndHandled(r: Route, p: Policy, q: RState, m: AmqpMessage, order: seq<nat>, statuses: seq<Status>)
    returns (t: RState)
    requires r.workers == 1 && RReachable(r, p, q) && q.core == Init(r, true) && q.prefetched == [Tagged(m, 1)]
    requires q.taken == []
    requires Passes(r, DeliveryOf(Tagged(m, 1))) && |statuses| == |r.targets| && AllTargets(r, order)
    ensures RReachable(r, p, t) && t == q.(core := t.core, prefetched := [], taken := [Tagged(m, 1)])
    ensures !t.core.panicked && t.core.workers == [Running(0)] && |t.core.calls| == 1 && t.core.calls[0].phase.Returned?
    ensures VerdictInOrder(r, order, statuses, t.core.calls[0].phase.status)
  {
    var d := DeliveryOf(Tagged(m, 1));
    var u := TakeFirst(r, p, q, m);
    var s1 := u.core;
    InsideNothing(r, s1);
    var s2 := StageCall(r, s1, s1, 0, 0, d);
    FreshIsFree(s2, 0, 0, s1.banks);
    var core := Complete(r, s1, s2, 0, order, statuses, 0);
    RInside(r, p, u, core);
    t := u.(core := core);
  }

  /** The verdict is nil exactly when every target answered nil. */
  lemma GoodIffNil(r: Route, order: seq<nat>, statuses: seq<Status>, verdict: Status)
    requires |statuses| == |r.targets| && AllTargets(r, order) && VerdictInOrder(r, order, statuses, verdict)
    ensures verdict == Nil <==> forall st :: st in statuses ==> st == Nil
  {
    assert forall i :: 0 <= i < |order| ==> statuses[order[i]] in statuses;
    if st :| st in statuses && st != Nil {
      var ti: nat :| ti < |statuses| && statuses[ti] == st;
      assert ti in order;
      var k: nat :| k < |order| && order[k] == ti;
      var i := FirstFailing(order, statuses, k);
      assert verdict == Wrapped(r.targets[order[i]], statuses[order[i]]);
    }
  }

  lemma {:induction false} FirstFailing(order: seq<nat>, statuses: seq<Status>, k: nat) returns (i: nat)
    requires k < |order| && (forall j :: 0 <= j < |order| ==> order[j] < |statuses|) && statuses[order[k]].Err?
    ensures i <= k && statuses[order[i]].Err? && forall j :: 0 <= j < i ==> statuses[order[j]] == Nil
  {
    if j: nat :| j < k && statuses[order[j]].Err? {
      i := FirstFailing(order, statuses, j);
    } else {
      i := k;
    }
  }
}
