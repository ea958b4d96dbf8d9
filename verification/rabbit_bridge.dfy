// A route from RabbitMQ together with the RabbitMQ egresses of its targets: the ack at the source against the
// broker's acks at the targets (internal/connector/rabbitmq/ingress.go:76-111, internal/router/router.go:167-294,
// internal/connector/rabbitmq/exgress.go:74-130).
module RabbitBridge {
  import opened Prelude
  import opened Pipeline
  import opened Router
  import opened RouterSafety
  import opened RabbitIngress
  import RouterOrder
  import Bank
  import Confirms
  import Egress

  /** eg holds, for each target served by RabbitMQ, an egress of its own; other targets are free to answer anything. */
  datatype BState = BState(outer: RState, eg: map<nat, Egress.EState>)

  datatype BAction =
    | Outer(a: RAction)                  // a step of the source broker, the ingress, a handler or a lane
    | Broker(ti: nat, e: Egress.EAction)      // a step inside Publish, or a confirm of the target's broker

  /** The i-th call of Publish at a target was made for handler call c and has returned this status. */
  predicate Returns(sent: seq<Bank.Sent>, e: Egress.EState, i: nat, c: nat, status: Status) {
    && i < |sent| && i < |e.calls| && sent[i].call == c
    && e.calls[i].stage.Done? && e.calls[i].stage.status == status
  }

  /** A lane worker gets back what its own call of Publish returned. */
  ghost predicate ReturnsTogether(s: BState, a: Action) {
    a.DoReturn? && a.ti in s.eg && a.ti < |s.outer.core.banks| && Bank.CanReturn(s.outer.core.banks[a.ti], a.li) ==>
      var b := s.outer.core.banks[a.ti];
      exists i: nat :: Returns(b.sent, s.eg[a.ti], i, b.lanes[a.li].hand.call, a.status)
  }

  ghost predicate BEnabled(r: Route, p: Policy, s: BState, a: BAction) {
    match a
    case Outer(b) =>
      && |s.outer.taken| == |s.outer.core.calls| && REnabled(r, p, s.outer, b)
      && (b.Inner? ==> ReturnsTogether(s, b.a))
      && (Takes(b) && b.a.ti in s.eg ==> Egress.EEnabled(s.eg[b.a.ti], Egress.Pick))
    case Broker(ti, e) => ti in s.eg && Egress.EEnabled(s.eg[ti], e) && !e.Pick?
  }

  predicate Takes(b: RAction) { b.Inner? && b.a.DoTake? }

  /** Calling Publish picks a lane of the target's egress. */
  ghost function BStep(r: Route, p: Policy, s: BState, a: BAction): BState
    requires BEnabled(r, p, s, a)
  {
    match a
    case Outer(b) =>
      BState(RStep(r, p, s.outer, b),
             if Takes(b) && b.a.ti in s.eg then s.eg[b.a.ti := Egress.EStep(s.eg[b.a.ti], Egress.Pick)] else s.eg)
    case Broker(ti, e) => s.(eg := s.eg[ti := Egress.EStep(s.eg[ti], e)])
  }

  ghost predicate BInit(r: Route, s: BState) {
    && s.outer == RInit(r)
    && forall ti: nat :: ti in s.eg ==> ti < |r.targets| && s.eg[ti] == Egress.EInit(s.eg[ti].start)
  }

  // ---------- Invariant ----------

  /** Only the latest call can still be inside Publish. */
  ghost predicate Lone(e: Egress.EState) {
    forall k: nat :: k < |e.calls| && !e.calls[k].stage.Done? ==> k == |e.calls| - 1
  }

  ghost predicate EgressOk(e: Egress.EState) {
    Egress.RotationOk(e) && Egress.LanesOk(e) && Egress.LinksOk(e) && Egress.AllLagOk(e.lanes) && Lone(e)
  }

  /** The target's publish log and its egress count the same calls, and an answer is what its call returned. */
  ghost predicate Coupled(sent: seq<Bank.Sent>, answers: seq<Bank.Answer>, e: Egress.EState) {
    && |e.calls| == |sent|
    && forall i: nat, st {:trigger Bank.Answer(sent[i].call, st)} ::
         i < |sent| && Bank.Answer(sent[i].call, st) in answers ==> Returns(sent, e, i, sent[i].call, st)
  }

  ghost predicate TargetOk(s: BState, ti: nat) {
    && ti in s.eg && ti < |s.outer.core.banks|
    && EgressOk(s.eg[ti]) && Coupled(s.outer.core.banks[ti].sent, s.outer.core.banks[ti].answers, s.eg[ti])
  }

  ghost predicate TargetsOk(s: BState) {
    forall ti: nat {:trigger TargetOk(s, ti)} :: ti in s.eg ==> TargetOk(s, ti)
  }

  ghost predicate BInv(r: Route, p: Policy, s: BState) {
    RInv(r, p, s.outer) && TargetsOk(s)
  }

  // ---------- Steps inside the egress ----------

  lemma DoneStays(e: Egress.EState, a: Egress.EAction)
    requires Egress.EEnabled(e, a)
    ensures |Egress.EStep(e, a).calls| == |e.calls| + if a.Pick? then 1 else 0
    ensures forall k: nat :: k < |e.calls| && e.calls[k].stage.Done? ==> Egress.EStep(e, a).calls[k] == e.calls[k]
  {
  }

  lemma LoneIsWindowed(e: Egress.EState)
    requires Lone(e)
    ensures Egress.Windowed(e)
  {
  }

  lemma BrokerStepOk(e: Egress.EState, a: Egress.EAction)
    requires EgressOk(e) && Egress.EEnabled(e, a)
    requires a.Pick? ==> forall k: nat :: k < |e.calls| ==> e.calls[k].stage.Done?
    ensures EgressOk(Egress.EStep(e, a))
  {
    Egress.RotationStep(e, a);
    Egress.LanesStep(e, a);
    Egress.LinksStep(e, a);
    LoneIsWindowed(e);
    Egress.LagStep(e, a);
    LoneStep(e, a);
  }

  lemma LoneStep(e: Egress.EState, a: Egress.EAction)
    requires Lone(e) && Egress.EEnabled(e, a) && (a.Pick? ==> forall k: nat :: k < |e.calls| ==> e.calls[k].stage.Done?)
    ensures Lone(Egress.EStep(e, a))
  {
    DoneStays(e, a);
  }

  lemma CoupledAfterBroker(sent: seq<Bank.Sent>, answers: seq<Bank.Answer>, e: Egress.EState, a: Egress.EAction)
    requires Coupled(sent, answers, e) && Egress.EEnabled(e, a) && !a.Pick?
    ensures Coupled(sent, answers, Egress.EStep(e, a))
  {
    DoneStays(e, a);
    var t := Egress.EStep(e, a);
    forall i: nat, st | i < |sent| && Bank.Answer(sent[i].call, st) in answers
      ensures Returns(sent, t, i, sent[i].call, st)
    {
      assert Returns(sent, e, i, sent[i].call, st);
    }
  }

  // ---------- Steps of the route ----------

  function CoreAction(s: RState, b: RAction): Option<Action> {
    match b
    case Enqueue(_) => None
    case Push => None
    case Take => if s.prefetched == [] then None else Some(Begin(0, DeliveryOf(s.prefetched[0])))
    case Settled(_, _) => Some(Settle(0))
    case Inner(a) => Some(a)
  }

  lemma CoreOfStep(r: Route, p: Policy, s: RState, b: RAction)
    requires |s.taken| == |s.core.calls| && REnabled(r, p, s, b)
    ensures match CoreAction(s, b)
            case None => RStep(r, p, s, b).core == s.core
            case Some(a) => Enabled(r, s.core, a) && RStep(r, p, s, b).core == Step(r, s.core, a)
  {
  }

  /** Only a call of Publish extends a target's log, and only a return from it adds an answer. */
  lemma StepHistory(r: Route, s: State, a: Action, ti: nat)
    requires Shape(r, s) && Enabled(r, s, a) && ti < |s.banks|
    ensures ti < |Step(r, s, a).banks|
    ensures Step(r, s, a).banks[ti].sent
      == s.banks[ti].sent + if a.DoTake? && a.ti == ti then [TakenJob(s, a)] else []
    ensures Step(r, s, a).banks[ti].answers
      == s.banks[ti].answers
         + if a.DoReturn? && a.ti == ti then [Bank.Answer(s.banks[ti].lanes[a.li].hand.call, a.status)] else []
  {
    var b, t := s.banks[ti], Step(r, s, a);
    if a.DoTake? || a.DoReturn? {
      assert a.ti != ti ==> t.banks[ti] == b;
    } else {
      QuietHistory(r, s, a, ti);
    }
  }

  lemma QuietHistory(r: Route, s: State, a: Action, ti: nat)
    requires Shape(r, s) && Enabled(r, s, a) && ti < |s.banks| && !a.DoTake? && !a.DoReturn?
    ensures ti < |Step(r, s, a).banks|
    ensures Step(r, s, a).banks[ti].sent == s.banks[ti].sent && Step(r, s, a).banks[ti].answers == s.banks[ti].answers
  {
  }

  function TakenJob(s: State, a: Action): Bank.Sent
    requires a.DoTake? && a.ti < |s.banks| && Bank.CanTake(s.banks[a.ti], a.li)
    requires s.banks[a.ti].lanes[a.li].queue[0] < |s.calls|
  {
    var x := s.banks[a.ti].lanes[a.li].queue[0];
    Bank.Sent(x, Body(s.calls[x].msg))
  }

  /** With one worker, every published call but the latest has been answered. */
  lemma EarlierAnswered(r: Route, s: State, ti: nat, y: nat)
    requires r.workers == 1 && Inv(r, s) && ti < |s.banks| && y in Bank.SentCalls(s.banks[ti].sent)
    ensures y < |s.calls| && (y < |s.calls| - 1 ==> y in Bank.AnsweredCalls(s.banks[ti].answers))
  {
    var b := s.banks[ti];
    assert Bank.BankOk(b) && Bank.Taken(b, y);
    assert CallOk(r, s, y);
    if y < |s.calls| - 1 {
      assert s.calls[|s.calls| - 1].worker == 0 && s.calls[y].worker == 0;
      assert !Live(s, y);
      assert !PcAt(s, ti, y).Absent?;
      assert PcAt(s, ti, y).Reported?;
      assert Bank.Answered(b, y);
    }
  }

  /** So when the next job is taken, nobody is inside Publish. */
  lemma TakeFindsAllDone(r: Route, s: State, ti: nat, li: nat, e: Egress.EState)
    requires r.workers == 1 && Inv(r, s) && Enabled(r, s, DoTake(ti, li))
    requires Coupled(s.banks[ti].sent, s.banks[ti].answers, e)
    ensures forall k: nat :: k < |e.calls| ==> e.calls[k].stage.Done?
    ensures s.banks[ti].lanes[li].queue[0] !in Bank.AnsweredCalls(s.banks[ti].answers)
  {
    var b := s.banks[ti];
    var x := b.lanes[li].queue[0];
    RouterOrder.QueuedIsLatest(r, s, ti, li);
    NotTakenYet(b, x);
    forall k: nat | k < |e.calls| ensures e.calls[k].stage.Done? {
      var y := b.sent[k].call;
      assert Bank.SentCalls(b.sent)[k] == y;
      EarlierAnswered(r, s, ti, y);
      AnswerOf(b.answers, y);
    }
  }

  lemma NotTakenYet(b: Bank.Bank, x: nat)
    requires Bank.BankOk(b) && x < |b.jobs| && !Bank.Taken(b, x)
    ensures x !in Bank.SentCalls(b.sent) && x !in Bank.AnsweredCalls(b.answers)
  {
    if b.jobs[x].pc.Waiting? {
      assert Bank.JobOk(b, x);
      assert Bank.LaneOk(b, b.jobs[x].pc.lane);
    }
  }

  lemma AnswerOf(answers: seq<Bank.Answer>, y: nat)
    ensures y in Bank.AnsweredCalls(answers) <==> exists st :: Bank.Answer(y, st) in answers
  {
    if y in Bank.AnsweredCalls(answers) {
      var i :| 0 <= i < |answers| && Bank.AnsweredCalls(answers)[i] == y;
      assert answers[i] == Bank.Answer(y, answers[i].status);
    }
    forall st | Bank.Answer(y, st) in answers ensures y in Bank.AnsweredCalls(answers) {
      var i :| 0 <= i < |answers| && answers[i] == Bank.Answer(y, st);
      assert Bank.AnsweredCalls(answers)[i] == y;
    }
  }

  lemma CoupledAfterTake(sent: seq<Bank.Sent>, answers: seq<Bank.Answer>, e: Egress.EState, x: Bank.Sent)
    requires Coupled(sent, answers, e) && Egress.EEnabled(e, Egress.Pick) && x.call !in Bank.AnsweredCalls(answers)
    ensures Coupled(sent + [x], answers, Egress.EStep(e, Egress.Pick))
  {
    DoneStays(e, Egress.Pick);
    AnswerOf(answers, x.call);
    var t := Egress.EStep(e, Egress.Pick);
    forall i: nat, st | i < |sent + [x]| && Bank.Answer((sent + [x])[i].call, st) in answers
      ensures Returns(sent + [x], t, i, (sent + [x])[i].call, st)
    {
      assert i < |sent| && Bank.Answer(sent[i].call, st) in answers;
      assert Returns(sent, e, i, sent[i].call, st);
    }
  }

  lemma CoupledAfterReturn(sent: seq<Bank.Sent>, answers: seq<Bank.Answer>, e: Egress.EState, j: nat, c: nat,
                           status: Status)
    requires Coupled(sent, answers, e) && NoDup(Bank.SentCalls(sent)) && Returns(sent, e, j, c, status)
    ensures Coupled(sent, answers + [Bank.Answer(c, status)], e)
  {
    var answers' := answers + [Bank.Answer(c, status)];
    forall i: nat, st | i < |sent| && Bank.Answer(sent[i].call, st) in answers'
      ensures Returns(sent, e, i, sent[i].call, st)
    {
      if Bank.Answer(sent[i].call, st) !in answers {
        assert Bank.SentCalls(sent)[i] == Bank.SentCalls(sent)[j] == c;
        assert i == j;
      }
    }
  }

  /** One target's part of a step of the route. */
  lemma TargetStepOk(r: Route, s: State, a: Action, ti: nat, e: Egress.EState)
    requires r.workers == 1 && Inv(r, s) && Enabled(r, s, a) && ti < |s.banks|
    requires EgressOk(e) && Coupled(s.banks[ti].sent, s.banks[ti].answers, e)
    requires a.DoReturn? && a.ti == ti ==>
      exists i: nat :: Returns(s.banks[ti].sent, e, i, s.banks[ti].lanes[a.li].hand.call, a.status)
    ensures ti < |Step(r, s, a).banks|
    ensures var t := if a.DoTake? && a.ti == ti then Egress.EStep(e, Egress.Pick) else e;
      EgressOk(t) && Coupled(Step(r, s, a).banks[ti].sent, Step(r, s, a).banks[ti].answers, t)
  {
    StepHistory(r, s, a, ti);
    var b := s.banks[ti];
    if a.DoTake? && a.ti == ti {
      TakeFindsAllDone(r, s, ti, a.li, e);
      BrokerStepOk(e, Egress.Pick);
      CoupledAfterTake(b.sent, b.answers, e, TakenJob(s, a));
    } else if a.DoReturn? && a.ti == ti {
      var i: nat :| Returns(b.sent, e, i, b.lanes[a.li].hand.call, a.status);
      assert Bank.BankOk(b);
      CoupledAfterReturn(b.sent, b.answers, e, i, b.lanes[a.li].hand.call, a.status);
    }
  }

  lemma OuterStepOk(r: Route, p: Policy, s: BState, b: RAction)
    requires r.workers == 1 && BInv(r, p, s) && BEnabled(r, p, s, Outer(b))
    ensures BInv(r, p, BStep(r, p, s, Outer(b)))
  {
    var t := BStep(r, p, s, Outer(b));
    RStepOk(r, p, s.outer, b);
    forall ti: nat | ti in t.eg ensures TargetOk(t, ti) {
      OuterTargetOk(r, p, s, b, ti);
    }
  }

  lemma OuterTargetOk(r: Route, p: Policy, s: BState, b: RAction, ti: nat)
    requires r.workers == 1 && Inv(r, s.outer.core) && BEnabled(r, p, s, Outer(b)) && TargetOk(s, ti)
    ensures TargetOk(BStep(r, p, s, Outer(b)), ti)
  {
    CoreOfStep(r, p, s.outer, b);
    var core := s.outer.core;
    if CoreAction(s.outer, b).Some? {
      var a := CoreAction(s.outer, b).value;
      if a.DoReturn? && a.ti == ti {
        assert ReturnsTogether(s, a);
      }
      TargetStepOk(r, core, a, ti, s.eg[ti]);
    }
  }

  lemma BStepOk(r: Route, p: Policy, s: BState, a: BAction)
    requires r.workers == 1 && BInv(r, p, s) && BEnabled(r, p, s, a)
    ensures BInv(r, p, BStep(r, p, s, a))
  {
    match a {
      case Outer(b) => OuterStepOk(r, p, s, b);
      case Broker(ti, e) =>
        var t := BStep(r, p, s, a);
        forall tj: nat | tj in t.eg ensures TargetOk(t, tj) {
          assert TargetOk(s, tj);
          if tj == ti { BrokerTargetOk(s, ti, e); }
        }
    }
  }

  lemma BrokerTargetOk(s: BState, ti: nat, e: Egress.EAction)
    requires TargetOk(s, ti) && Egress.EEnabled(s.eg[ti], e) && !e.Pick?
    ensures TargetOk(s.(eg := s.eg[ti := Egress.EStep(s.eg[ti], e)]), ti)
  {
    var b := s.outer.core.banks[ti];
    BrokerStepOk(s.eg[ti], e);
    CoupledAfterBroker(b.sent, b.answers, s.eg[ti], e);
  }

  // ---------- Runs ----------

  ghost predicate IsBRun(r: Route, p: Policy, tr: seq<BState>, acts: seq<BAction>) {
    && |tr| == |acts| + 1
    && forall i: nat {:trigger acts[i]} :: i < |acts| ==>
         BEnabled(r, p, tr[i], acts[i]) && tr[i + 1] == BStep(r, p, tr[i], acts[i])
  }

  ghost predicate BReachable(r: Route, p: Policy, s: BState) {
    exists tr: seq<BState>, acts: seq<BAction> ::
      IsBRun(r, p, tr, acts) && BInit(r, tr[0]) && tr[|acts|] == s
  }

  lemma BInitOk(r: Route, p: Policy, s: BState)
    requires r.workers == 1 && BInit(r, s)
    ensures BInv(r, p, s)
  {
    InitOk(r, true);
    forall ti: nat | ti in s.eg ensures TargetOk(s, ti) { FreshEgressOk(s.eg[ti].start); }
  }

  lemma FreshEgressOk(start: Egress.Counter)
    ensures EgressOk(Egress.EInit(start))
  {
    Egress.LanesInit(start);
  }

  /** Leaving the egresses out of sight, a run of the composition is a run of the RabbitMQ-sourced route. */
  lemma {:induction false} OuterInRun(r: Route, p: Policy, tr: seq<BState>, acts: seq<BAction>, n: nat)
    requires IsBRun(r, p, tr, acts) && BInit(r, tr[0]) && n <= |acts|
    ensures RReachable(r, p, tr[n].outer)
  {
    if n > 0 {
      OuterInRun(r, p, tr, acts, n - 1);
      var a := acts[n - 1];
      if a.Outer? { ExtendRRun(r, p, tr[n - 1].outer, a.a); }
    } else {
      ReachRInit(r, p);
    }
  }

  lemma {:induction false} TargetsInRun(r: Route, p: Policy, tr: seq<BState>, acts: seq<BAction>, n: nat)
    requires r.workers == 1 && IsBRun(r, p, tr, acts) && BInit(r, tr[0]) && n <= |acts|
    ensures TargetsOk(tr[n])
  {
    if n > 0 {
      TargetsInRun(r, p, tr, acts, n - 1);
      TargetsInStep(r, p, tr, acts, n - 1);
    } else {
      BInitOk(r, p, tr[0]);
    }
  }

  lemma TargetsInStep(r: Route, p: Policy, tr: seq<BState>, acts: seq<BAction>, i: nat)
    requires r.workers == 1 && IsBRun(r, p, tr, acts) && BInit(r, tr[0]) && i < |acts| && TargetsOk(tr[i])
    ensures TargetsOk(tr[i + 1])
  {
    OuterInRun(r, p, tr, acts, i);
    RReachableOk(r, p, tr[i].outer);
    var a := acts[i];
    BStepOk(r, p, tr[i], a);
  }

  lemma BReachableOk(r: Route, p: Policy, s: BState)
    requires r.workers == 1 && BReachable(r, p, s)
    ensures BInv(r, p, s)
  {
    BReachableOuter(r, p, s);
    RReachableOk(r, p, s.outer);
    var tr: seq<BState>, acts: seq<BAction> :| IsBRun(r, p, tr, acts) && BInit(r, tr[0]) && tr[|acts|] == s;
    TargetsInRun(r, p, tr, acts, |acts|);
  }

  /** So all that holds of reachable states of such a route holds in the composition. */
  lemma BReachableOuter(r: Route, p: Policy, s: BState)
    requires BReachable(r, p, s)
    ensures RReachable(r, p, s.outer)
  {
    var tr: seq<BState>, acts: seq<BAction> :| IsBRun(r, p, tr, acts) && BInit(r, tr[0]) && tr[|acts|] == s;
    OuterInRun(r, p, tr, acts, |acts|);
  }

  // ---------- Results ----------

  /** However calls, confirms and timeouts interleave, each egress of such a route serves one call at a time. */
  lemma OneCallInPublish(r: Route, p: Policy, s: BState, ti: nat)
    requires r.workers == 1 && BReachable(r, p, s) && ti in s.eg
    ensures Lone(s.eg[ti]) && Egress.Windowed(s.eg[ti])
  {
    BReachableOk(r, p, s);
    assert TargetOk(s, ti);
    LoneIsWindowed(s.eg[ti]);
  }

  /**
   * The i-th call was sent as message j of its lane and read the broker's ack of the message Lag places earlier,
   * which is message j itself exactly when no publish before it on that lane gave up.
   */
  ghost predicate ReadAnAck(e: Egress.EState, i: nat) {
    && i < |e.calls| && e.calls[i].lane < |e.lanes| && e.calls[i].stage.Done? && e.calls[i].stage.sent.Some?
    && var lane, j := e.lanes[e.calls[i].lane], e.calls[i].stage.sent.value;
       && j < |lane.slots| && Confirms.Lag(lane, j) <= j && j - Confirms.Lag(lane, j) < |lane.emitted|
       && lane.emitted[j - Confirms.Lag(lane, j)]
       && (Confirms.Lag(lane, j) == 0 <==> forall k :: 0 <= k < j ==> !lane.slots[k].GaveUp?)
  }

  /** On an egress that served one call at a time, a call that returned nil read such an ack. */
  lemma NilCallReadAck(e: Egress.EState, i: nat)
    requires EgressOk(e) && i < |e.calls| && e.calls[i].stage.Done? && e.calls[i].stage.status == Nil
    ensures ReadAnAck(e, i)
  {
    assert Egress.CallerOk(e, i);
    Egress.LagOnLane(e.lanes, e.calls[i].lane, e.calls[i].stage.sent.value);
  }

  /** The i-th publish to target ti was made for handler call c with this body, and read the broker's ack. */
  ghost predicate AckedByBroker(s: BState, ti: nat, c: nat, body: Bank.Delivery, i: nat)
    requires ti in s.eg && ti < |s.outer.core.banks|
  {
    i < |s.outer.core.banks[ti].sent| && s.outer.core.banks[ti].sent[i] == Bank.Sent(c, body) && ReadAnAck(s.eg[ti], i)
  }

  lemma NilReturnFound(sent: seq<Bank.Sent>, answers: seq<Bank.Answer>, e: Egress.EState, c: nat, body: Bank.Delivery)
    returns (i: nat)
    requires Coupled(sent, answers, e) && Bank.Sent(c, body) in sent && Bank.Answer(c, Nil) in answers
    ensures i < |sent| && sent[i] == Bank.Sent(c, body) && Returns(sent, e, i, c, Nil)
  {
    i :| 0 <= i < |sent| && sent[i] == Bank.Sent(c, body);
    assert Bank.Answer(sent[i].call, Nil) in answers;
  }

  lemma NilReadAnAck(s: BState, ti: nat, c: nat, body: Bank.Delivery) returns (i: nat)
    requires TargetOk(s, ti) && PublishedOnce(s.outer.core, ti, c, body, Nil)
    ensures AckedByBroker(s, ti, c, body, i)
  {
    var b, e := s.outer.core.banks[ti], s.eg[ti];
    i := NilReturnFound(b.sent, b.answers, e, c, body);
    NilCallReadAck(e, i);
  }

  /**
   * Ack to ack: when a delivery of such a route has been acked at the source, then at every RabbitMQ target the
   * broker acked the message its publish read the confirm of, and that is the processed delivery itself wherever no
   * earlier publish on the same lane had given up.
   */
  lemma AckMeansBrokerAcks(r: Route, p: Policy, s: BState, c: nat, ti: nat) returns (i: nat)
    requires r.workers == 1 && BReachable(r, p, s) && c in s.outer.ackedCalls && ti in s.eg
    ensures c < |s.outer.taken| && ti < |s.outer.core.banks|
    ensures var out := Process(r.stages, Arrived(DeliveryOf(s.outer.taken[c])), []);
      out.Accepted? && AckedByBroker(s, ti, c, Bank.Delivery(out.msg.value, MetaOf(s.outer.taken[c])), i)
  {
    BReachableOk(r, p, s);
    assert TargetOk(s, ti);
    AckedCallDelivered(r, p, s.outer, c);
    var out := Process(r.stages, Arrived(DeliveryOf(s.outer.taken[c])), []);
    i := NilReadAnAck(s, ti, c, Bank.Delivery(out.msg.value, MetaOf(s.outer.taken[c])));
  }
}
