// Where every delivery of a RabbitMQ-sourced route ends up, copy for copy, and how many the broker lets out at once
// (internal/connector/rabbitmq/ingress.go:55-111, internal/util/convert.go:41-50).
module RabbitSettlement {
  import opened Prelude
  import opened Router
  import opened RouterSafety
  import opened RabbitIngress

  // ---------- Every settled call is filed once ----------

  ghost function Settled(s: RState): set<nat> {
    s.ackedCalls + s.unsettledCalls + s.droppedCalls + s.requeuedCalls
  }

  ghost predicate Disjoint(s: RState) {
    && s.ackedCalls !! s.unsettledCalls && s.ackedCalls !! s.droppedCalls && s.ackedCalls !! s.requeuedCalls
    && s.unsettledCalls !! s.droppedCalls && s.unsettledCalls !! s.requeuedCalls && s.droppedCalls !! s.requeuedCalls
  }

  /** Without autoAck each call that is not being handled is in exactly one place, the one its result calls for. */
  ghost predicate CallsFiled(p: Policy, s: RState)
    requires |s.taken| == |s.core.calls|
  {
    && Disjoint(s)
    && (forall c :: c in Settled(s) ==> c < |s.taken|)
    && (forall c: nat :: c < |s.taken| ==> (c in Settled(s) <==> !BeingHandled(s, c)))
    && (forall c :: c in Settled(s) ==> s.core.calls[c].phase.Returned?)
    && (forall c :: c in s.ackedCalls ==> s.core.calls[c].phase.status == Nil)
    && (forall c :: c in s.droppedCalls + s.requeuedCalls ==> s.core.calls[c].phase.status != Nil)
    && (s.requeuedCalls != {} ==> p.requeueOnError) && (s.droppedCalls != {} ==> !p.requeueOnError)
  }

  /** Everything the broker ever delivered: what the client still holds, and what was taken. */
  ghost function Out(s: RState): multiset<AmqpMessage> {
    multiset(Messages(s.prefetched)) + multiset(Messages(s.taken))
  }

  /** Under autoAck nothing is settled explicitly: the broker lets go of a message as it delivers it. */
  ghost predicate LetGo(s: RState) {
    Settled(s) == {} && s.unsettled == multiset{} && s.dropped == multiset{} && s.acked == Out(s)
  }

  /** The broker's accounts, from the calls: a requeued message is delivered, and queued, once more. */
  ghost predicate Accounts(s: RState) {
    && s.unsettled == MessagesOf(s.taken, s.unsettledCalls)
    && s.dropped == MessagesOf(s.taken, s.droppedCalls)
    && multiset(s.queue) + Out(s) == s.arrived + MessagesOf(s.taken, s.requeuedCalls)
  }

  ghost predicate Filed(p: Policy, s: RState) {
    && |s.taken| == |s.core.calls|
    && (if p.autoAck then LetGo(s) else CallsFiled(p, s))
    && Accounts(s)
  }

  /** A step that takes and settles nothing keeps the files if the broker's books still balance. */
  lemma FiledFrame(p: Policy, s: RState, t: RState)
    requires Filed(p, s) && t.taken == s.taken && |t.core.calls| == |s.core.calls|
    requires t.ackedCalls == s.ackedCalls && t.unsettledCalls == s.unsettledCalls
    requires t.droppedCalls == s.droppedCalls && t.requeuedCalls == s.requeuedCalls
    requires t.unsettled == s.unsettled && t.dropped == s.dropped
    requires forall c: nat :: c < |s.taken| ==> (BeingHandled(t, c) <==> BeingHandled(s, c))
    requires forall c: nat :: c < |s.taken| && s.core.calls[c].phase.Returned? ==>
      t.core.calls[c].phase == s.core.calls[c].phase
    requires p.autoAck ==> t.acked == Out(t)
    requires multiset(t.queue) + Out(t) == t.arrived + MessagesOf(t.taken, t.requeuedCalls)
    ensures Filed(p, t)
  {
  }

  lemma FiledInner(r: Route, p: Policy, s: RState, a: Action)
    requires CoreOk(r, s) && Filed(p, s) && REnabled(r, p, s, Inner(a))
    ensures Filed(p, RStep(r, p, s, Inner(a)))
  {
    InnerFrame(r, s.core, a);
    FiledFrame(p, s, RStep(r, p, s, Inner(a)));
  }

  lemma FiledEnqueue(r: Route, p: Policy, s: RState, m: AmqpMessage)
    requires Filed(p, s)
    ensures Filed(p, RStep(r, p, s, Enqueue(m)))
  {
    var t := RStep(r, p, s, Enqueue(m));
    assert multiset(t.queue) + Out(t) == (multiset(s.queue) + Out(s)) + multiset{m};
    assert t.arrived + MessagesOf(s.taken, s.requeuedCalls)
      == (s.arrived + MessagesOf(s.taken, s.requeuedCalls)) + multiset{m};
    FiledFrame(p, s, t);
  }

  lemma FiledPush(r: Route, p: Policy, s: RState)
    requires Filed(p, s) && REnabled(r, p, s, Push)
    ensures Filed(p, RStep(r, p, s, Push))
  {
    var t := RStep(r, p, s, Push);
    HeadSplit(s.queue);
    assert Messages(t.prefetched) == Messages(s.prefetched) + [s.queue[0]];
    assert Out(t) == Out(s) + multiset{s.queue[0]};
    assert multiset(t.queue) + Out(t) == multiset(s.queue) + Out(s);
    FiledFrame(p, s, t);
  }

  lemma TakeMoves(r: Route, p: Policy, s: RState)
    requires |s.taken| == |s.core.calls| && REnabled(r, p, s, Take)
    ensures Out(RStep(r, p, s, Take)) == Out(s)
  {
    var t := RStep(r, p, s, Take);
    HeadSplit(Messages(s.prefetched));
    assert Messages(s.prefetched)[1..] == Messages(t.prefetched);
    assert Messages(t.taken) == Messages(s.taken) + [s.prefetched[0].msg];
  }

  /** The new call is the one being handled; everything else stays where it was. */
  lemma CallsFiledTake(p: Policy, s: RState, t: RState)
    requires |s.taken| == |s.core.calls| && CallsFiled(p, s) && |t.taken| == |t.core.calls| == |s.taken| + 1
    requires t.ackedCalls == s.ackedCalls && t.unsettledCalls == s.unsettledCalls
    requires t.droppedCalls == s.droppedCalls && t.requeuedCalls == s.requeuedCalls
    requires forall c: nat :: c < |s.taken| ==> t.core.calls[c] == s.core.calls[c] && !BeingHandled(s, c)
    requires forall c: nat :: BeingHandled(t, c) <==> c == |s.taken|
    ensures CallsFiled(p, t)
  {
  }

  lemma AccountsTake(s: RState, t: RState, x: Tagged)
    requires Accounts(s) && t.taken == s.taken + [x] && t.queue == s.queue && t.arrived == s.arrived && Out(t) == Out(s)
    requires t.unsettledCalls == s.unsettledCalls && t.droppedCalls == s.droppedCalls
    requires t.requeuedCalls == s.requeuedCalls
    requires t.unsettled == s.unsettled && t.dropped == s.dropped
    requires |s.taken| !in s.unsettledCalls + s.droppedCalls + s.requeuedCalls
    ensures Accounts(t)
  {
    OfAppend(s.taken, s.unsettledCalls, x);
    OfAppend(s.taken, s.droppedCalls, x);
    OfAppend(s.taken, s.requeuedCalls, x);
  }

  lemma FiledTake(r: Route, p: Policy, s: RState)
    requires Filed(p, s) && REnabled(r, p, s, Take)
    ensures Filed(p, RStep(r, p, s, Take))
  {
    var t := RStep(r, p, s, Take);
    TakeMoves(r, p, s);
    TakeFrame(r, p, s);
    assert p.autoAck ==> Settled(s) == {};
    AccountsTake(s, t, s.prefetched[0]);
    if !p.autoAck { CallsFiledTake(p, s, t); }
  }

  lemma TakeFrame(r: Route, p: Policy, s: RState)
    requires |s.taken| == |s.core.calls| && REnabled(r, p, s, Take)
    ensures var t := RStep(r, p, s, Take);
      && t == s.(core := t.core, taken := s.taken + [s.prefetched[0]], prefetched := s.prefetched[1..])
      && |t.core.calls| == |s.taken| + 1
      && (forall c: nat :: c < |s.taken| ==> t.core.calls[c] == s.core.calls[c] && !BeingHandled(s, c))
      && (forall c: nat :: BeingHandled(t, c) <==> c == |s.taken|)
  {
  }

  /** The call being handled is filed in one of the four places. */
  lemma CallsFiledSettled(p: Policy, s: RState, t: RState, c: nat)
    requires |s.taken| == |s.core.calls| && CallsFiled(p, s) && t.taken == s.taken && t.core.calls == s.core.calls
    requires c < |s.taken| && s.core.calls[c].phase.Returned?
    requires forall d: nat :: !BeingHandled(t, d) && (BeingHandled(s, d) <==> d == c)
    requires var st := s.core.calls[c].phase.status;
      || t == s.(core := t.core, unsettledCalls := s.unsettledCalls + {c}, unsettled := t.unsettled)
      || (st == Nil && t == s.(core := t.core, ackedCalls := s.ackedCalls + {c}, acked := t.acked))
      || (st != Nil && p.requeueOnError
          && t == s.(core := t.core, requeuedCalls := s.requeuedCalls + {c}, queue := t.queue))
      || (st != Nil && !p.requeueOnError
          && t == s.(core := t.core, droppedCalls := s.droppedCalls + {c}, dropped := t.dropped))
    ensures CallsFiled(p, t)
  {
    assert c !in Settled(s) && Settled(t) == Settled(s) + {c};
  }

  lemma AccountsSettled(s: RState, t: RState, c: nat)
    requires Accounts(s) && t.taken == s.taken && t.prefetched == s.prefetched && t.arrived == s.arrived
    requires c < |s.taken| && c !in s.unsettledCalls + s.droppedCalls + s.requeuedCalls
    requires var one := multiset{s.taken[c].msg};
      || (t.unsettledCalls == s.unsettledCalls + {c} && t.unsettled == s.unsettled + one && t.dropped == s.dropped
          && t.droppedCalls == s.droppedCalls && t.requeuedCalls == s.requeuedCalls && t.queue == s.queue)
      || (t.unsettledCalls == s.unsettledCalls && t.unsettled == s.unsettled && t.dropped == s.dropped
          && t.droppedCalls == s.droppedCalls && t.requeuedCalls == s.requeuedCalls && t.queue == s.queue)
      || (t.unsettledCalls == s.unsettledCalls && t.unsettled == s.unsettled && t.dropped == s.dropped
          && t.droppedCalls == s.droppedCalls && t.requeuedCalls == s.requeuedCalls + {c}
          && multiset(t.queue) == multiset(s.queue) + one)
      || (t.unsettledCalls == s.unsettledCalls && t.unsettled == s.unsettled && t.dropped == s.dropped + one
          && t.droppedCalls == s.droppedCalls + {c} && t.requeuedCalls == s.requeuedCalls && t.queue == s.queue)
    ensures Accounts(t)
  {
    OfInsert(s.taken, s.unsettledCalls, c);
    OfInsert(s.taken, s.droppedCalls, c);
    OfInsert(s.taken, s.requeuedCalls, c);
    assert Out(t) == Out(s);
    var one := multiset{s.taken[c].msg};
    assert (multiset(s.queue) + one) + Out(s) == (multiset(s.queue) + Out(s)) + one;
  }

  lemma FiledSettled(r: Route, p: Policy, s: RState, ok: bool, at: nat)
    requires Filed(p, s) && REnabled(r, p, s, RAction.Settled(ok, at))
    ensures Filed(p, RStep(r, p, s, RAction.Settled(ok, at)))
  {
    var t := RStep(r, p, s, RAction.Settled(ok, at));
    var c := s.core.workers[0].call;
    SettleFreesWorker(r, p, s, ok, at);
    if !p.autoAck {
      assert BeingHandled(s, c);
      InsertSplit(s.queue, at, s.taken[c].msg);
      AccountsSettled(s, t, c);
      CallsFiledSettled(p, s, t, c);
    }
  }

  lemma {:induction false} FiledInRun(r: Route, p: Policy, tr: seq<RState>, acts: seq<RAction>, n: nat)
    requires r.workers == 1 && IsRRun(r, p, tr, acts) && tr[0] == RInit(r) && n <= |acts|
    ensures Filed(p, tr[n])
  {
    if n > 0 {
      FiledInRun(r, p, tr, acts, n - 1);
      FiledStepInRun(r, p, tr, acts, n - 1);
    }
  }

  lemma FiledStepInRun(r: Route, p: Policy, tr: seq<RState>, acts: seq<RAction>, i: nat)
    requires r.workers == 1 && IsRRun(r, p, tr, acts) && tr[0] == RInit(r) && i < |acts| && Filed(p, tr[i])
    ensures Filed(p, tr[i + 1])
  {
    var s, a := tr[i], acts[i];
    match a {
      case Enqueue(m) => FiledEnqueue(r, p, s, m);
      case Push => FiledPush(r, p, s);
      case Take => FiledTake(r, p, s);
      case Settled(ok, at) => FiledSettled(r, p, s, ok, at);
      case Inner(b) =>
        RRunOk(r, p, tr, acts, i);
        FiledInner(r, p, s, b);
    }
  }

  /**
   * Without autoAck every delivery taken is in exactly one of five places: being handled, acked, requeued, dropped, or
   * its settlement was lost. Of those whose settlement reached the broker, the acked ones are exactly those published
   * everywhere; the others were requeued or dropped as the policy says.
   */
  lemma SettlementPartition(r: Route, p: Policy, s: RState, c: nat)
    requires r.workers == 1 && RReachable(r, p, s) && !p.autoAck && c < |s.taken|
    ensures c < |s.core.calls|
    ensures multiset{BeingHandled(s, c), c in s.ackedCalls, c in s.requeuedCalls, c in s.droppedCalls,
                     c in s.unsettledCalls}[true] == 1
    ensures !BeingHandled(s, c) && c !in s.unsettledCalls ==>
      && (c in s.ackedCalls <==> AckedDelivery(r, s, c))
      && (c in s.requeuedCalls <==> !AckedDelivery(r, s, c) && p.requeueOnError)
      && (c in s.droppedCalls <==> !AckedDelivery(r, s, c) && !p.requeueOnError)
  {
    ReachedFiled(r, p, s);
    if !BeingHandled(s, c) {
      AckedIffDelivered(r, p, s, c);
    }
  }

  lemma ReachedFiled(r: Route, p: Policy, s: RState)
    requires r.workers == 1 && RReachable(r, p, s)
    ensures Filed(p, s)
  {
    var tr: seq<RState>, acts: seq<RAction> :| IsRRun(r, p, tr, acts) && tr[0] == RInit(r) && tr[|acts|] == s;
    FiledInRun(r, p, tr, acts, |acts|);
  }

  lemma AckedIffDelivered(r: Route, p: Policy, s: RState, c: nat)
    requires r.workers == 1 && RReachable(r, p, s) && !p.autoAck && c < |s.taken| && !BeingHandled(s, c)
    ensures c < |s.core.calls| && s.core.calls[c].phase.Returned?
    ensures AckedDelivery(r, s, c) <==> s.core.calls[c].phase.status == Nil
  {
    ReachedFiled(r, p, s);
    RReachableOk(r, p, s);
    FanOutExact(r, s.core, c);
  }

  /**
   * Copy for copy: the acked, lost and dropped messages are those of the calls filed there, and counting queue,
   * deliveries in the client and all deliveries ever taken, each message appears as often as it arrived or was
   * requeued.
   */
  lemma CopyForCopy(r: Route, p: Policy, s: RState)
    requires r.workers == 1 && RReachable(r, p, s)
    ensures !p.autoAck ==> s.acked == MessagesOf(s.taken, s.ackedCalls)
    ensures p.autoAck ==> s.acked == multiset(Messages(s.prefetched)) + multiset(Messages(s.taken))
    ensures s.unsettled == MessagesOf(s.taken, s.unsettledCalls) && s.dropped == MessagesOf(s.taken, s.droppedCalls)
    ensures multiset(s.queue) + multiset(Messages(s.prefetched)) + multiset(Messages(s.taken))
            == s.arrived + MessagesOf(s.taken, s.requeuedCalls)
  {
    ReachedFiled(r, p, s);
    RReachableOk(r, p, s);
  }

  // ---------- Prefetch ----------

  /** Deliveries let out and not yet settled: in the client, in the handler, or with a lost settlement. */
  ghost predicate Limited(p: Policy, s: RState) {
    !p.autoAck && p.prefetch > 0 ==> Unacked(s) <= p.prefetch
  }

  lemma LimitedStep(r: Route, p: Policy, s: RState, a: RAction)
    requires |s.taken| == |s.core.calls| && |s.core.workers| == 1 && Limited(p, s) && REnabled(r, p, s, a)
    requires a.Inner? ==> InHand(RStep(r, p, s, a)) == InHand(s)
    ensures Limited(p, RStep(r, p, s, a))
  {
    if a.Settled? {
      LimitedSettled(r, p, s, a.ok, a.at);
    } else if a.Take? {
      assert InHand(s) == multiset{} && |InHand(RStep(r, p, s, a))| == 1;
    } else {
      assert InHand(RStep(r, p, s, a)) == InHand(s);
    }
  }

  lemma LimitedSettled(r: Route, p: Policy, s: RState, ok: bool, at: nat)
    requires |s.taken| == |s.core.calls| && Limited(p, s) && REnabled(r, p, s, RAction.Settled(ok, at))
    ensures Limited(p, RStep(r, p, s, RAction.Settled(ok, at)))
  {
    SettleFreesWorker(r, p, s, ok, at);
    assert |InHand(s)| == 1;
    assert |InHand(RStep(r, p, s, RAction.Settled(ok, at)))| == 0;
  }

  lemma {:induction false} LimitedInRun(r: Route, p: Policy, tr: seq<RState>, acts: seq<RAction>, n: nat)
    requires r.workers == 1 && IsRRun(r, p, tr, acts) && tr[0] == RInit(r) && n <= |acts|
    ensures Limited(p, tr[n])
  {
    if n > 0 {
      LimitedInRun(r, p, tr, acts, n - 1);
      LimitedStepInRun(r, p, tr, acts, n - 1);
    }
  }

  lemma LimitedStepInRun(r: Route, p: Policy, tr: seq<RState>, acts: seq<RAction>, i: nat)
    requires r.workers == 1 && IsRRun(r, p, tr, acts) && tr[0] == RInit(r) && i < |acts| && Limited(p, tr[i])
    ensures Limited(p, tr[i + 1])
  {
    RRunOk(r, p, tr, acts, i);
    var a := acts[i];
    LimitedAnyStep(r, p, tr[i], a);
  }

  lemma LimitedAnyStep(r: Route, p: Policy, s: RState, a: RAction)
    requires CoreOk(r, s) && |s.taken| == |s.core.calls| && Limited(p, s) && REnabled(r, p, s, a)
    ensures Limited(p, RStep(r, p, s, a))
  {
    if a.Inner? { InnerHand(r, p, s, a.a); }
    LimitedStep(r, p, s, a);
  }

  lemma InnerHand(r: Route, p: Policy, s: RState, a: Action)
    requires CoreOk(r, s) && |s.taken| == |s.core.calls| && REnabled(r, p, s, Inner(a))
    ensures InHand(RStep(r, p, s, Inner(a))) == InHand(s)
  {
    InnerFrame(r, s.core, a);
  }

  /** The broker never lets out more deliveries than the prefetch count, counting those whose settlement was lost. */
  lemma PrefetchBound(r: Route, p: Policy, s: RState)
    requires r.workers == 1 && RReachable(r, p, s) && !p.autoAck && p.prefetch > 0
    ensures |s.prefetched| + |InHand(s)| + |s.unsettled| <= p.prefetch
  {
    var tr: seq<RState>, acts: seq<RAction> :| IsRRun(r, p, tr, acts) && tr[0] == RInit(r) && tr[|acts|] == s;
    LimitedInRun(r, p, tr, acts, |acts|);
  }
}
