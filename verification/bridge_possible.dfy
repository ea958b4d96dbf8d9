// The ack chain at work: one delivery from RabbitMQ through the route to a RabbitMQ target's broker and back
// (internal/connector/rabbitmq/ingress.go:76-111, internal/connector/rabbitmq/exgress.go:74-130).
module BridgePossible {
  import opened Prelude
  import opened Pipeline
  import opened Router
  import opened RouterPossible
  import opened RabbitIngress
  import opened RabbitBridge
  import RabbitPossible
  import Bank
  import Confirms
  import Egress

  lemma BReachStep(r: Route, p: Policy, s: BState, a: BAction)
    requires BReachable(r, p, s) && BEnabled(r, p, s, a)
    ensures BReachable(r, p, BStep(r, p, s, a))
  {
    var tr: seq<BState>, acts: seq<BAction> :| IsBRun(r, p, tr, acts) && BInit(r, tr[0]) && tr[|acts|] == s;
    var tr', acts' := tr + [BStep(r, p, s, a)], acts + [a];
    forall i: nat | i < |acts'|
      ensures BEnabled(r, p, tr'[i], acts'[i]) && tr'[i + 1] == BStep(r, p, tr'[i], acts'[i])
    {
      if i < |acts| { assert acts'[i] == acts[i]; }
    }
    assert IsBRun(r, p, tr', acts') && BInit(r, tr'[0]) && tr'[|acts'|] == BStep(r, p, s, a);
  }

  /** Some actions of the composition, one after the other, lead from s to t. */
  ghost predicate Walk(r: Route, p: Policy, s: BState, acts: seq<BAction>, t: BState)
    decreases |acts|
  {
    if acts == [] then t == s
    else BEnabled(r, p, s, acts[0]) && Walk(r, p, BStep(r, p, s, acts[0]), acts[1..], t)
  }

  lemma {:induction false} WalkOn(r: Route, p: Policy, s: BState, acts: seq<BAction>, m: BState, a: BAction)
    requires Walk(r, p, s, acts, m) && BEnabled(r, p, m, a)
    ensures Walk(r, p, s, acts + [a], BStep(r, p, m, a))
    decreases |acts|
  {
    if acts == [] {
      assert (acts + [a])[1..] == [] && (acts + [a])[0] == a;
    } else {
      WalkOn(r, p, BStep(r, p, s, acts[0]), acts[1..], m, a);
      assert (acts + [a])[1..] == acts[1..] + [a];
    }
  }

  lemma {:induction false} WalkReaches(r: Route, p: Policy, s: BState, acts: seq<BAction>, t: BState)
    requires BReachable(r, p, s) && Walk(r, p, s, acts, t)
    ensures BReachable(r, p, t)
    decreases |acts|
  {
    if acts != [] {
      BReachStep(r, p, s, acts[0]);
      WalkReaches(r, p, BStep(r, p, s, acts[0]), acts[1..], t);
    }
  }

  // ---------- The states on the way ----------

  /** The bank of the only target, with call 0's job in the given state and lane 0 as given. */
  function OneJob(job: Bank.Job, lane: Bank.Lane, sent: seq<Bank.Sent>, answers: seq<Bank.Answer>): Bank.Bank {
    Bank.Bank([job], Bank.NewBank().lanes[0 := lane], sent, answers)
  }

  /** The route while its worker handles its first call. */
  function Lone(d: Bank.Delivery, msg: Message, bank: Bank.Bank, phase: Phase): State {
    State([Running(0)], [Call(0, d, msg, phase)], [bank], true, false, false)
  }

  /** The composition at that time: the lone message has been enqueued, delivered and taken. */
  ghost function At(m: AmqpMessage, msg: Message, bank: Bank.Bank, phase: Phase, e: Egress.EState): BState {
    BState(TakenLone(Lone(DeliveryOf(Tagged(m, 1)), msg, bank, phase), m), map[0 := e])
  }

  ghost function TakenLone(core: State, m: AmqpMessage): RState {
    RState(core, multiset{m}, [], 2, [], [Tagged(m, 1)], multiset{}, multiset{}, multiset{}, {}, {}, {}, {})
  }

  function Fanned(): Bank.Bank { OneJob(Bank.Job(Bank.Ready, []), Bank.Lane([], Bank.Idle, false), [], []) }

  function InQueue(): Bank.Bank { OneJob(Bank.Job(Bank.Waiting(0), []), Bank.Lane([0], Bank.Idle, false), [], []) }

  function InPublish(body: Bank.Delivery): Bank.Bank {
    OneJob(Bank.Job(Bank.Waiting(0), []), Bank.Lane([], Bank.Publishing(0), false), [Bank.Sent(0, body)], [])
  }

  function Answered(body: Bank.Delivery, st: Status): Bank.Bank {
    OneJob(Bank.Job(Bank.Waiting(0), []), Bank.Lane([], Bank.Replying(0, st), false), [Bank.Sent(0, body)],
           [Bank.Answer(0, st)])
  }

  function Heard(body: Bank.Delivery, st: Status): Bank.Bank {
    OneJob(Bank.Job(Bank.Waiting(0), [st]), Bank.Lane([], Bank.Idle, false), [Bank.Sent(0, body)], [Bank.Answer(0, st)])
  }

  function Told(body: Bank.Delivery, st: Status): Bank.Bank {
    OneJob(Bank.Job(Bank.Reported(st), []), Bank.Lane([], Bank.Idle, false), [Bank.Sent(0, body)], [Bank.Answer(0, st)])
  }

  lemma BankSteps(body: Bank.Delivery, st: Status)
    ensures Bank.Spawn(Bank.Admit(Bank.NewBank()), 0) == Fanned()
    ensures Bank.CanSubmit(Fanned(), 0, 0) && Bank.Submit(Fanned(), 0, 0) == InQueue()
    ensures Bank.CanTake(InQueue(), 0) && Bank.Take(InQueue(), 0, body) == InPublish(body)
    ensures Bank.CanReturn(InPublish(body), 0) && Bank.Return(InPublish(body), 0, st) == Answered(body, st)
    ensures Bank.CanReply(Answered(body, st), 0) && Bank.Reply(Answered(body, st), 0) == Heard(body, st)
    ensures Bank.CanReport(Heard(body, st), 0) && Bank.Report(Heard(body, st), 0) == Told(body, st)
  {
    var lanes := Bank.NewBank().lanes;
    assert lanes[0 := Bank.Lane([], Bank.Idle, false)] == lanes;
    assert [0][1..] == [] && [st][1..] == [];
    assert [] + [Bank.Sent(0, body)] == [Bank.Sent(0, body)] && [] + [Bank.Answer(0, st)] == [Bank.Answer(0, st)];
    assert [] + [0] == [0] && [] + [st] == [st];
    Overwrite(lanes, Bank.Lane([], Bank.Idle, false), Bank.Lane([0], Bank.Idle, false));
    Overwrite(lanes, Bank.Lane([0], Bank.Idle, false), Bank.Lane([], Bank.Publishing(0), false));
    Overwrite(lanes, Bank.Lane([], Bank.Publishing(0), false), Bank.Lane([], Bank.Replying(0, st), false));
    Overwrite(lanes, Bank.Lane([], Bank.Replying(0, st), false), Bank.Lane([], Bank.Idle, false));
  }

  lemma Overwrite<T>(s: seq<T>, a: T, b: T)
    requires s != []
    ensures s[0 := a][0 := b] == s[0 := b]
  {
  }

  // ---------- The steps ----------

  /** A step of the route that is neither a call of Publish nor a return from one. */
  lemma InnerStep(r: Route, p: Policy, s0: BState, acts: seq<BAction>, core: State, m: AmqpMessage, e: Egress.EState,
                  a: Action)
    requires Walk(r, p, s0, acts, BState(TakenLone(core, m), map[0 := e])) && |core.calls| == 1 && Enabled(r, core, a)
    requires !a.Begin? && !a.Settle? && !a.DoTake? && !a.DoReturn?
    ensures Walk(r, p, s0, acts + [Outer(Inner(a))], BState(TakenLone(Step(r, core, a), m), map[0 := e]))
  {
    WalkOn(r, p, s0, acts, BState(TakenLone(core, m), map[0 := e]), Outer(Inner(a)));
  }

  lemma BrokerStep(r: Route, p: Policy, s0: BState, acts: seq<BAction>, outer: RState, e: Egress.EState,
                   a: Egress.EAction)
    requires Walk(r, p, s0, acts, BState(outer, map[0 := e])) && Egress.EEnabled(e, a) && !a.Pick?
    ensures Walk(r, p, s0, acts + [Broker(0, a)], BState(outer, map[0 := Egress.EStep(e, a)]))
  {
    WalkOn(r, p, s0, acts, BState(outer, map[0 := e]), Broker(0, a));
    assert map[0 := e][0 := Egress.EStep(e, a)] == map[0 := Egress.EStep(e, a)];
  }

  ghost function Start(r: Route, start: Egress.Counter): BState {
    BState(RInit(r), map[0 := Egress.EInit(start)])
  }

  lemma OutOnly(r: Route, p: Policy, s0: BState, acts: seq<BAction>, outer: RState, e: Egress.EState, b: RAction)
    requires Walk(r, p, s0, acts, BState(outer, map[0 := e])) && !b.Inner?
    requires |outer.taken| == |outer.core.calls| && REnabled(r, p, outer, b)
    ensures Walk(r, p, s0, acts + [Outer(b)], BState(RStep(r, p, outer, b), map[0 := e]))
  {
    WalkOn(r, p, s0, acts, BState(outer, map[0 := e]), Outer(b));
  }

  lemma Fetched(r: Route, p: Policy, m: AmqpMessage, start: Egress.Counter) returns (acts: seq<BAction>)
    requires r.workers == 1 && |r.targets| == 1 && !p.autoAck && p.prefetch != 0
    ensures var d := DeliveryOf(Tagged(m, 1));
      Walk(r, p, Start(r, start), acts, At(m, Arrived(d), Bank.Admit(Bank.NewBank()), Entered, Egress.EInit(start)))
  {
    var s0, e := Start(r, start), Egress.EInit(start);
    var o1, o2, o3 := TakingSteps(r, p, m);
    OutOnly(r, p, s0, [], RInit(r), e, Enqueue(m));
    OutOnly(r, p, s0, [] + [Outer(Enqueue(m))], o1, e, Push);
    OutOnly(r, p, s0, [] + [Outer(Enqueue(m))] + [Outer(Push)], o2, e, Take);
    acts := [] + [Outer(Enqueue(m))] + [Outer(Push)] + [Outer(Take)];
  }

  lemma TakingSteps(r: Route, p: Policy, m: AmqpMessage) returns (o1: RState, o2: RState, o3: RState)
    requires r.workers == 1 && |r.targets| == 1 && !p.autoAck && p.prefetch != 0
    ensures o1 == RStep(r, p, RInit(r), Enqueue(m))
    ensures |o1.taken| == |o1.core.calls| && REnabled(r, p, o1, Push) && o2 == RStep(r, p, o1, Push)
    ensures |o2.taken| == |o2.core.calls| && REnabled(r, p, o2, Take) && o3 == RStep(r, p, o2, Take)
    ensures var d := DeliveryOf(Tagged(m, 1));
      o3 == TakenLone(Lone(d, Arrived(d), Bank.Admit(Bank.NewBank()), Entered), m)
  {
    o1 := RStep(r, p, RInit(r), Enqueue(m));
    assert InHand(o1) == multiset{} && o1.queue == [m];
    o2 := RStep(r, p, o1, Push);
    assert o2.prefetched == [Tagged(m, 1)] && o2.queue == [];
    o3 := RStep(r, p, o2, Take);
    assert o3.prefetched == [] && o3.taken == [Tagged(m, 1)] && o3.arrived == multiset{m};
    assert o3.core.workers == [Running(0)] && o3.core.banks == [Bank.Admit(Bank.NewBank())];
  }

  lemma Queued(r: Route, p: Policy, m: AmqpMessage, start: Egress.Counter) returns (acts: seq<BAction>, msg: Message)
    requires r.workers == 1 && |r.targets| == 1 && !p.autoAck && p.prefetch != 0 && Passes(r, DeliveryOf(Tagged(m, 1)))
    ensures Walk(r, p, Start(r, start), acts, At(m, msg, InQueue(), FannedOut([]), Egress.EInit(start)))
  {
    var d, e := DeliveryOf(Tagged(m, 1)), Egress.EInit(start);
    msg := Process(r.stages, Arrived(d), []).msg;
    BankSteps(Bank.Delivery([], map[]), Nil);
    var entered := Lone(d, Arrived(d), Bank.Admit(Bank.NewBank()), Entered);
    var fanned := Lone(d, msg, Fanned(), FannedOut([]));
    assert Step(r, entered, RunStages(0, [])).banks == fanned.banks;
    assert Step(r, entered, RunStages(0, [])).calls == fanned.calls;
    assert Step(r, fanned, DoSubmit(0, 0, 0)).banks == [InQueue()];
    acts := Fetched(r, p, m, start);
    InnerStep(r, p, Start(r, start), acts, entered, m, e, RunStages(0, []));
    acts := acts + [Outer(Inner(RunStages(0, [])))];
    InnerStep(r, p, Start(r, start), acts, fanned, m, e, DoSubmit(0, 0, 0));
    acts := acts + [Outer(Inner(DoSubmit(0, 0, 0)))];
  }

  function Verdict(ack: bool): Status {
    if ack then Nil else Err("broker NACKed")
  }

  /** The lane worker calls Publish, which picks the first lane of the rotation. */
  lemma Called(r: Route, p: Policy, s0: BState, acts: seq<BAction>, m: AmqpMessage, msg: Message, e: Egress.EState)
    requires |e.lanes| == 16 && Walk(r, p, s0, acts, At(m, msg, InQueue(), FannedOut([]), e))
    ensures Walk(r, p, s0, acts + [Outer(Inner(DoTake(0, 0)))],
                 At(m, msg, InPublish(Body(msg)), FannedOut([]), Egress.EStep(e, Egress.Pick)))
  {
    var s, take := At(m, msg, InQueue(), FannedOut([]), e), Inner(DoTake(0, 0));
    TakeStep(r, DeliveryOf(Tagged(m, 1)), msg);
    assert map[0 := e][0 := Egress.EStep(e, Egress.Pick)] == map[0 := Egress.EStep(e, Egress.Pick)];
    assert BStep(r, p, s, Outer(take)) == At(m, msg, InPublish(Body(msg)), FannedOut([]), Egress.EStep(e, Egress.Pick));
    WalkOn(r, p, s0, acts, s, Outer(take));
  }

  lemma TakeStep(r: Route, d: Bank.Delivery, msg: Message)
    ensures Enabled(r, Lone(d, msg, InQueue(), FannedOut([])), DoTake(0, 0))
    ensures Step(r, Lone(d, msg, InQueue(), FannedOut([])), DoTake(0, 0))
      == Lone(d, msg, InPublish(Body(msg)), FannedOut([]))
  {
    BankSteps(Body(msg), Nil);
    assert Step(r, Lone(d, msg, InQueue(), FannedOut([])), DoTake(0, 0)).banks == [InPublish(Body(msg))];
  }

  /** What the egress does meanwhile: it sends, the broker confirms, and the call reads that confirm. */
  lemma EgressSteps(start: Egress.Counter, ack: bool)
    returns (e0: Egress.EState, e1: Egress.EState, e2: Egress.EState, e3: Egress.EState)
    ensures var l := Egress.LaneOfPick(start, 0);
      && e0 == Egress.EStep(Egress.EInit(start), Egress.Pick)
      && Egress.EEnabled(e0, Egress.SendOn(0)) && e1 == Egress.EStep(e0, Egress.SendOn(0))
      && Egress.EEnabled(e1, Egress.Emit(l, ack)) && e2 == Egress.EStep(e1, Egress.Emit(l, ack))
      && Egress.EEnabled(e2, Egress.Consume(0)) && e3 == Egress.EStep(e2, Egress.Consume(0))
      && e3.calls == [Egress.Caller(l, Egress.Done(Verdict(ack), Some(0)))] && |e3.lanes| == 16
      && e3.lanes[l] == Confirms.Lane([Confirms.Got(0, ack)], [ack], [])
  {
    var l := Egress.LaneOfPick(start, 0);
    assert Egress.CounterAfter(start, 1) == Egress.NextCounter(Egress.CounterAfter(start, 0));
    e0 := Egress.EStep(Egress.EInit(start), Egress.Pick);
    assert e0.calls == [Egress.Caller(l, Egress.Picked)] && e0.lanes[l] == Confirms.NEW_LANE;
    e1 := Egress.EStep(e0, Egress.SendOn(0));
    assert e1.lanes[l] == Confirms.Lane([Confirms.Awaiting], [], []);
    assert e1.calls == [Egress.Caller(l, Egress.Waiting(0))];
    e2 := Egress.EStep(e1, Egress.Emit(l, ack));
    assert e2.lanes[l] == Confirms.Lane([Confirms.Awaiting], [ack], [ack]);
    e3 := Egress.EStep(e2, Egress.Consume(0));
  }

  lemma Confirmed(r: Route, p: Policy, s0: BState, before: seq<BAction>, outer: RState, start: Egress.Counter,
                  ack: bool)
    returns (acts: seq<BAction>, e: Egress.EState)
    requires Walk(r, p, s0, before, BState(outer, map[0 := Egress.EStep(Egress.EInit(start), Egress.Pick)]))
    ensures Walk(r, p, s0, acts, BState(outer, map[0 := e])) && |e.lanes| == 16
    ensures e.calls == [Egress.Caller(Egress.LaneOfPick(start, 0), Egress.Done(Verdict(ack), Some(0)))]
    ensures e.lanes[Egress.LaneOfPick(start, 0)] == Confirms.Lane([Confirms.Got(0, ack)], [ack], [])
  {
    var l := Egress.LaneOfPick(start, 0);
    var e0, e1, e2, e3 := EgressSteps(start, ack);
    BrokerStep(r, p, s0, before, outer, e0, Egress.SendOn(0));
    acts := before + [Broker(0, Egress.SendOn(0))];
    BrokerStep(r, p, s0, acts, outer, e1, Egress.Emit(l, ack));
    acts := acts + [Broker(0, Egress.Emit(l, ack))];
    BrokerStep(r, p, s0, acts, outer, e2, Egress.Consume(0));
    acts := acts + [Broker(0, Egress.Consume(0))];
    e := e3;
  }

  /** The lane worker gets the call's status. */
  lemma Returned(r: Route, p: Policy, s0: BState, acts: seq<BAction>, m: AmqpMessage, msg: Message, st: Status,
                 e: Egress.EState)
    requires Walk(r, p, s0, acts, At(m, msg, InPublish(Body(msg)), FannedOut([]), e))
    requires |e.calls| == 1 && e.calls[0].stage.Done? && e.calls[0].stage.status == st
    ensures Walk(r, p, s0, acts + [Outer(Inner(DoReturn(0, 0, st)))],
                 At(m, msg, Answered(Body(msg), st), FannedOut([]), e))
  {
    var s, ret := At(m, msg, InPublish(Body(msg)), FannedOut([]), e), Inner(DoReturn(0, 0, st));
    BankSteps(Body(msg), st);
    assert Returns(s.outer.core.banks[0].sent, e, 0, 0, st);
    assert ReturnsTogether(s, ret.a);
    assert Step(r, s.outer.core, DoReturn(0, 0, st)).banks == [Answered(Body(msg), st)];
    WalkOn(r, p, s0, acts, s, Outer(ret));
  }

  /** It replies, the handler's goroutine reports, and the handler returns. */
  lemma Replied(r: Route, p: Policy, s0: BState, before: seq<BAction>, m: AmqpMessage, msg: Message, st: Status,
                e: Egress.EState)
    returns (acts: seq<BAction>)
    requires |r.targets| == 1 && Walk(r, p, s0, before, At(m, msg, Answered(Body(msg), st), FannedOut([]), e))
    ensures Walk(r, p, s0, acts, At(m, msg, Told(Body(msg), st), Phase.Returned(Wrapped(r.targets[0], st)), e))
  {
    var d, body := DeliveryOf(Tagged(m, 1)), Body(msg);
    var c1, c2, c3 := ReplySteps(r, d, msg, st);
    InnerStep(r, p, s0, before, c1, m, e, DoReply(0, 0));
    acts := before + [Outer(Inner(DoReply(0, 0)))];
    InnerStep(r, p, s0, acts, c2, m, e, DoReport(0, 0));
    acts := acts + [Outer(Inner(DoReport(0, 0)))];
    InnerStep(r, p, s0, acts, c3, m, e, Finish(0));
    acts := acts + [Outer(Inner(Finish(0)))];
  }

  lemma ReplySteps(r: Route, d: Bank.Delivery, msg: Message, st: Status) returns (c1: State, c2: State, c3: State)
    requires |r.targets| == 1
    ensures c1 == Lone(d, msg, Answered(Body(msg), st), FannedOut([]))
    ensures Enabled(r, c1, DoReply(0, 0)) && c2 == Step(r, c1, DoReply(0, 0))
    ensures Enabled(r, c2, DoReport(0, 0)) && c3 == Step(r, c2, DoReport(0, 0))
    ensures Enabled(r, c3, Finish(0))
    ensures Step(r, c3, Finish(0)) == Lone(d, msg, Told(Body(msg), st), Phase.Returned(Wrapped(r.targets[0], st)))
    ensures |c1.calls| == |c2.calls| == |c3.calls| == 1
  {
    BankSteps(Body(msg), st);
    c1 := Lone(d, msg, Answered(Body(msg), st), FannedOut([]));
    c2 := Lone(d, msg, Heard(Body(msg), st), FannedOut([]));
    assert Step(r, c1, DoReply(0, 0)).banks == c2.banks;
    assert [] + [ErrSend(0, st)] == [ErrSend(0, st)];
    c3 := Lone(d, msg, Told(Body(msg), st), FannedOut([ErrSend(0, st)]));
    assert Step(r, c2, DoReport(0, 0)).banks == c3.banks;
    assert Step(r, c2, DoReport(0, 0)).calls == c3.calls;
    assert FirstError(r, [ErrSend(0, st)]) == if st == Nil then FirstError(r, []) else Wrapped(r.targets[0], st);
    assert Step(r, c3, Finish(0)).calls == [Call(0, d, msg, Phase.Returned(Wrapped(r.targets[0], st)))];
  }

  /** The ingress settles. */
  lemma Concluded(r: Route, p: Policy, s0: BState, acts: seq<BAction>, m: AmqpMessage, msg: Message, bank: Bank.Bank,
                  st: Status, e: Egress.EState) returns (outer: RState)
    requires Walk(r, p, s0, acts, At(m, msg, bank, Phase.Returned(st), e)) && !p.autoAck
    ensures Walk(r, p, s0, acts + [Outer(Settled(true, 0))], BState(outer, map[0 := e]))
    ensures outer.core.workers == [Free] && RabbitPossible.EndedIn(p, outer, m, st == Nil, true)
  {
    var s := At(m, msg, bank, Phase.Returned(st), e);
    OutOnly(r, p, s0, acts, s.outer, e, Settled(true, 0));
    outer := RStep(r, p, s.outer, Settled(true, 0));
  }

  lemma StartReachable(r: Route, p: Policy, start: Egress.Counter)
    requires |r.targets| == 1
    ensures BReachable(r, p, Start(r, start))
  {
    var none: seq<BAction> := [];
    assert IsBRun(r, p, [Start(r, start)], none) && [Start(r, start)][|none|] == Start(r, start);
  }

  /**
   * From any counter value, an acceptable message travels from the source queue to the target's broker: if the broker
   * acks it, it is acked at the source; if the broker nacks it, it goes back to the queue, or is dropped, as the policy
   * says.
   */
  lemma AckTravelsBack(r: Route, p: Policy, m: AmqpMessage, start: Egress.Counter, ack: bool) returns (s: BState)
    requires r.workers == 1 && |r.targets| == 1 && !p.autoAck && p.prefetch != 0 && Passes(r, DeliveryOf(Tagged(m, 1)))
    ensures BReachable(r, p, s) && RabbitPossible.EndedIn(p, s.outer, m, ack, true) && s.outer.core.workers == [Free]
    ensures s.eg.Keys == {0} && |s.eg[0].lanes| == 16
    ensures s.eg[0].lanes[Egress.LaneOfPick(start, 0)] == Confirms.Lane([Confirms.Got(0, ack)], [ack], [])
  {
    var acts, outer, e := ThereAndBack(r, p, m, start, ack);
    s := BState(outer, map[0 := e]);
    StartReachable(r, p, start);
    WalkReaches(r, p, Start(r, start), acts, s);
  }

  lemma ThereAndBack(r: Route, p: Policy, m: AmqpMessage, start: Egress.Counter, ack: bool)
    returns (acts: seq<BAction>, outer: RState, e: Egress.EState)
    requires r.workers == 1 && |r.targets| == 1 && !p.autoAck && p.prefetch != 0 && Passes(r, DeliveryOf(Tagged(m, 1)))
    ensures Walk(r, p, Start(r, start), acts, BState(outer, map[0 := e]))
    ensures RabbitPossible.EndedIn(p, outer, m, ack, true) && outer.core.workers == [Free]
    ensures |e.lanes| == 16 && e.lanes[Egress.LaneOfPick(start, 0)] == Confirms.Lane([Confirms.Got(0, ack)], [ack], [])
  {
    var s0, st := Start(r, start), Verdict(ack);
    var msg: Message;
    acts, msg := Queued(r, p, m, start);
    Called(r, p, s0, acts, m, msg, Egress.EInit(start));
    acts := acts + [Outer(Inner(DoTake(0, 0)))];
    var busy := At(m, msg, InPublish(Body(msg)), FannedOut([]), Egress.EInit(start)).outer;
    acts, e := Confirmed(r, p, s0, acts, busy, start, ack);
    Returned(r, p, s0, acts, m, msg, st, e);
    acts := Replied(r, p, s0, acts + [Outer(Inner(DoReturn(0, 0, st)))], m, msg, st, e);
    outer := Concluded(r, p, s0, acts, m, msg, Told(Body(msg), st), Wrapped(r.targets[0], st), e);
    acts := acts + [Outer(Settled(true, 0))];
  }
}
