// A RabbitMQ-sourced route: one goroutine takes the prefetched deliveries one at a time, and acks or
// nacks each after its handler returned (internal/connector/rabbitmq/ingress.go:55-120).
module RabbitIngress {
  import opened Prelude
  import opened Pipeline
  import opened Bank
  import opened Router
  import opened RouterSafety
  import opened RouterOrder

  /** The delivery policy an IngressConfig carries. */
  datatype Policy = Policy(autoAck: bool, prefetch: nat, requeueOnError: bool)

  datatype Header = Text(value: string) | Other

  datatype AmqpMessage = AmqpMessage(
    id: nat, body: Bytes, contentType: string, exchange: string, routingKey: string, headers: map<string, Header>)

  /** A message on its way to the consumer, with its delivery tag. */
  datatype Tagged = Tagged(msg: AmqpMessage, tag: nat)

  /** taken[c] is what handler call c was made for; `prefetched` is the client's deliveries channel. */
  datatype RState = RState(
    core: State,
    arrived: multiset<AmqpMessage>,   // everything ever enqueued
    queue: seq<AmqpMessage>,
    nextTag: nat,
    prefetched: seq<Tagged>,
    taken: seq<Tagged>,
    acked: multiset<AmqpMessage>,
    unsettled: multiset<AmqpMessage>, // the ack or nack itself failed; the error is ignored
    dropped: multiset<AmqpMessage>,   // nacked without requeue
    ackedCalls: set<nat>,             // the calls whose deliveries ended in each of these ways, or were requeued
    unsettledCalls: set<nat>,
    droppedCalls: set<nat>,
    requeuedCalls: set<nat>)

  datatype RAction =
    | Enqueue(m: AmqpMessage)
    | Push                             // the broker delivers the head of the queue
    | Take                             // the consumer goroutine receives and calls the handler
    | Settled(ok: bool, at: nat)       // ack, or nack (requeued at an arbitrary position); ok: it reached the broker
    | Inner(a: Action)

  /** Metadata of a delivery: properties first, then every string header, which may overwrite them. */
  function MetaOf(t: Tagged): map<string, string> {
    map["content-type" := t.msg.contentType, "exchange" := t.msg.exchange,
        "routing-key" := t.msg.routingKey, "delivery-tag" := Text.FormatInt(t.tag)]
    + map k | k in t.msg.headers && t.msg.headers[k].Text? :: t.msg.headers[k].value
  }

  function DeliveryOf(t: Tagged): Delivery {
    Delivery(t.msg.body, MetaOf(t))
  }

  /** A string header wins over the property of the same name; otherwise each property stands under its own name. */
  lemma MetaOfIs(t: Tagged, k: string)
    ensures k in t.msg.headers && t.msg.headers[k].Text? ==> k in MetaOf(t) && MetaOf(t)[k] == t.msg.headers[k].value
    ensures !(k in t.msg.headers && t.msg.headers[k].Text?) ==>
      && (k in MetaOf(t) <==> k in {"content-type", "exchange", "routing-key", "delivery-tag"})
      && (k == "content-type" ==> MetaOf(t)[k] == t.msg.contentType)
      && (k == "exchange" ==> MetaOf(t)[k] == t.msg.exchange)
      && (k == "routing-key" ==> MetaOf(t)[k] == t.msg.routingKey)
      && (k == "delivery-tag" ==> MetaOf(t)[k] == Text.FormatInt(t.tag))
  {
  }

  /** Properties first, then the loop over the header table, whose order does not matter. */
  method BuildMeta(t: Tagged) returns (meta: map<string, string>)
    ensures meta == MetaOf(t)
  {
    meta := map["content-type" := t.msg.contentType, "exchange" := t.msg.exchange,
                "routing-key" := t.msg.routingKey, "delivery-tag" := Text.FormatInt(t.tag)];
    meta := AddStrings(meta, t.msg.headers);
  }

  method AddStrings(base: map<string, string>, headers: map<string, Header>) returns (meta: map<string, string>)
    ensures meta == base + map k | k in headers && headers[k].Text? :: headers[k].value
  {
    meta := base;
    var left := headers.Keys;
    while left != {}
      invariant left <= headers.Keys
      invariant meta == base + map k | k in headers && k !in left && headers[k].Text? :: headers[k].value
    {
      var k :| k in left;
      left := left - {k};
      if headers[k].Text? {
        meta := meta[k := headers[k].value];
      }
    }
  }

  function InHand(s: RState): multiset<AmqpMessage> {
    if |s.core.workers| > 0 && s.core.workers[0].Running? && s.core.workers[0].call < |s.taken|
    then multiset{s.taken[s.core.workers[0].call].msg} else multiset{}
  }

  function Messages(ts: seq<Tagged>): seq<AmqpMessage> {
    seq(|ts|, i requires 0 <= i < |ts| => ts[i].msg)
  }

  /** Deliveries the broker still counts as unacknowledged. */
  function Unacked(s: RState): nat {
    |s.prefetched| + |InHand(s)| + |s.unsettled|
  }

  ghost predicate REnabled(r: Route, p: Policy, s: RState, a: RAction) {
    match a
    case Enqueue(_) => true
    case Push => s.queue != [] && (p.autoAck || p.prefetch == 0 || Unacked(s) < p.prefetch)
    case Take => s.prefetched != [] && Enabled(r, s.core, Begin(0, DeliveryOf(s.prefetched[0])))
    case Settled(_, at) => at <= |s.queue| && Enabled(r, s.core, Settle(0))
    case Inner(b) => Enabled(r, s.core, b) && !b.Begin? && !b.Settle?
  }

  ghost function RStep(r: Route, p: Policy, s: RState, a: RAction): RState
    requires |s.taken| == |s.core.calls|
    requires REnabled(r, p, s, a)
  {
    match a
    case Enqueue(m) => s.(queue := s.queue + [m], arrived := s.arrived + multiset{m})
    case Push =>
      var m := s.queue[0];
      s.(queue := s.queue[1..], prefetched := s.prefetched + [Tagged(m, s.nextTag)], nextTag := s.nextTag + 1,
         acked := if p.autoAck then s.acked + multiset{m} else s.acked)
    case Take =>
      s.(core := Step(r, s.core, Begin(0, DeliveryOf(s.prefetched[0]))),
         prefetched := s.prefetched[1..], taken := s.taken + [s.prefetched[0]])
    case Settled(ok, at) =>
      var c := s.core.workers[0].call;
      var m := s.taken[c].msg;
      var t := s.(core := Step(r, s.core, Settle(0)));
      if p.autoAck then t
      else if !ok then t.(unsettled := s.unsettled + multiset{m}, unsettledCalls := s.unsettledCalls + {c})
      else if s.core.calls[c].phase.status == Nil then
        t.(acked := s.acked + multiset{m}, ackedCalls := s.ackedCalls + {c})
      else if p.requeueOnError then
        t.(queue := s.queue[..at] + [m] + s.queue[at..], requeuedCalls := s.requeuedCalls + {c})
      else t.(dropped := s.dropped + multiset{m}, droppedCalls := s.droppedCalls + {c})
    case Inner(b) => s.(core := Step(r, s.core, b))
  }

  function RInit(r: Route): RState {
    RState(Init(r, true), multiset{}, [], 1, [], [], multiset{}, multiset{}, multiset{}, {}, {}, {}, {})
  }

  // ---------- Invariant ----------

  /** Messages delivered but not settled; under autoAck the broker has let go of them. */
  ghost function Held(p: Policy, s: RState): multiset<AmqpMessage> {
    if p.autoAck then multiset{} else multiset(Messages(s.prefetched)) + InHand(s)
  }

  ghost predicate Conserved(p: Policy, s: RState) {
    s.arrived == multiset(s.queue) + Held(p, s) + s.acked + s.unsettled + s.dropped
  }

  ghost predicate CoreOk(r: Route, s: RState) {
    Inv(r, s.core) && InOrder(r, s.core) && |s.core.workers| == 1
  }

  /** Handler calls were made for the deliveries taken, one by one. */
  ghost predicate Aligned(s: RState) {
    && |s.taken| == |s.core.calls|
    && forall i :: 0 <= i < |s.taken| ==> s.core.calls[i].input == DeliveryOf(s.taken[i])
  }

  /** The messages of some handler calls, each call counted once. */
  ghost function MessagesOf(taken: seq<Tagged>, calls: set<nat>): multiset<AmqpMessage> {
    if taken == [] then multiset{}
    else
      var n: nat := |taken| - 1;
      MessagesOf(taken[..n], calls) + if n in calls then multiset{taken[n].msg} else multiset{}
  }

  lemma {:induction false} OfElsewhere(taken: seq<Tagged>, calls: set<nat>, c: nat)
    requires |taken| <= c
    ensures MessagesOf(taken, calls + {c}) == MessagesOf(taken, calls)
  {
    if taken != [] { OfElsewhere(taken[..|taken| - 1], calls, c); }
  }

  lemma {:induction false} OfInsert(taken: seq<Tagged>, calls: set<nat>, c: nat)
    requires c < |taken| && c !in calls
    ensures MessagesOf(taken, calls + {c}) == MessagesOf(taken, calls) + multiset{taken[c].msg}
  {
    var n: nat := |taken| - 1;
    if c == n {
      OfElsewhere(taken[..n], calls, c);
    } else {
      OfInsert(taken[..n], calls, c);
    }
  }

  lemma OfAppend(taken: seq<Tagged>, calls: set<nat>, x: Tagged)
    requires |taken| !in calls
    ensures MessagesOf(taken + [x], calls) == MessagesOf(taken, calls)
  {
    assert (taken + [x])[..|taken|] == taken;
  }

  ghost predicate BeingHandled(s: RState, c: nat) {
    |s.core.workers| > 0 && s.core.workers[0] == Running(c)
  }

  /** Explicit acks went, once each, to calls that returned nil, and without autoAck there are no other acks. */
  ghost predicate AckBooks(p: Policy, s: RState)
    requires |s.taken| == |s.core.calls|
  {
    && (forall c :: c in s.ackedCalls ==>
          c < |s.core.calls| && s.core.calls[c].phase == Returned(Nil) && !BeingHandled(s, c))
    && (!p.autoAck ==> s.acked == MessagesOf(s.taken, s.ackedCalls))
  }

  ghost predicate RInv(r: Route, p: Policy, s: RState) {
    CoreOk(r, s) && Aligned(s) && Books(p, s)
  }

  ghost predicate Books(p: Policy, s: RState)
    requires |s.taken| == |s.core.calls|
  {
    && AckBooks(p, s)
    && Conserved(p, s)
    && (p.requeueOnError || p.autoAck ==> s.dropped == multiset{})
  }

  lemma HeadSplit(q: seq<AmqpMessage>)
    requires q != []
    ensures multiset(q) == multiset{q[0]} + multiset(q[1..])
  {
    assert q == [q[0]] + q[1..];
  }

  lemma InsertSplit(q: seq<AmqpMessage>, at: nat, m: AmqpMessage)
    requires at <= |q|
    ensures multiset(q[..at] + [m] + q[at..]) == multiset(q) + multiset{m}
  {
    assert q == q[..at] + q[at..];
  }

  /** What a step of the handlers and lanes leaves alone. */
  lemma InnerFrame(r: Route, s: State, a: Action)
    requires Inv(r, s) && Enabled(r, s, a) && !a.Begin? && !a.Settle? && |s.workers| == 1
    ensures |Step(r, s, a).calls| == |s.calls| && |Step(r, s, a).workers| == 1
    ensures forall c: nat :: c < |s.calls| ==> Step(r, s, a).calls[c].input == s.calls[c].input
    ensures forall c: nat :: c < |s.calls| && s.calls[c].phase.Returned? ==>
      Step(r, s, a).calls[c].phase == s.calls[c].phase
    ensures s.workers[0].Running? ==> Step(r, s, a).workers == s.workers
    ensures !s.workers[0].Running? ==> !Step(r, s, a).workers[0].Running?
  {
    InnerCalls(r, s, a);
    InnerWorkers(r, s, a);
  }

  lemma InnerCalls(r: Route, s: State, a: Action)
    requires Shape(r, s) && Enabled(r, s, a) && !a.Begin? && !a.Settle?
    ensures |Step(r, s, a).calls| == |s.calls|
    ensures forall c: nat :: c < |s.calls| ==> Step(r, s, a).calls[c].input == s.calls[c].input
    ensures forall c: nat :: c < |s.calls| && s.calls[c].phase.Returned? ==>
      Step(r, s, a).calls[c].phase == s.calls[c].phase
  {
  }

  lemma InnerWorkers(r: Route, s: State, a: Action)
    requires Enabled(r, s, a) && !a.Begin? && !a.Settle? && |s.workers| == 1
    ensures |Step(r, s, a).workers| == 1
    ensures s.workers[0].Running? ==> Step(r, s, a).workers == s.workers
    ensures !s.workers[0].Running? ==> !Step(r, s, a).workers[0].Running?
  {
  }

  lemma RInnerOk(r: Route, p: Policy, s: RState, a: Action)
    requires r.workers == 1 && RInv(r, p, s) && REnabled(r, p, s, Inner(a))
    ensures RInv(r, p, RStep(r, p, s, Inner(a)))
  {
    InnerCore(r, p, s, a);
    InnerBooks(r, p, s, a);
  }

  lemma InnerCore(r: Route, p: Policy, s: RState, a: Action)
    requires r.workers == 1 && CoreOk(r, s) && Aligned(s) && REnabled(r, p, s, Inner(a))
    ensures CoreOk(r, RStep(r, p, s, Inner(a))) && Aligned(RStep(r, p, s, Inner(a)))
  {
    StepOk(r, s.core, a);
    OrderStep(r, s.core, a);
    InnerFrame(r, s.core, a);
  }

  lemma InnerBooks(r: Route, p: Policy, s: RState, a: Action)
    requires CoreOk(r, s) && Aligned(s) && REnabled(r, p, s, Inner(a)) && AckBooks(p, s) && Conserved(p, s)
    ensures |s.taken| == |RStep(r, p, s, Inner(a)).core.calls|
    ensures AckBooks(p, RStep(r, p, s, Inner(a))) && Conserved(p, RStep(r, p, s, Inner(a)))
  {
    var t := RStep(r, p, s, Inner(a));
    InnerFrame(r, s.core, a);
    assert InHand(t) == InHand(s);
    SameTotals(p, s, t);
  }

  lemma PushConserves(p: Policy, s: RState, t: RState, m: AmqpMessage)
    requires Conserved(p, s) && t.arrived == s.arrived && t.unsettled == s.unsettled && t.dropped == s.dropped
    requires multiset(s.queue) == multiset{m} + multiset(t.queue)
    requires if p.autoAck then Held(p, t) == Held(p, s) && t.acked == s.acked + multiset{m}
             else Held(p, t) == Held(p, s) + multiset{m} && t.acked == s.acked
    ensures Conserved(p, t)
  {
  }

  lemma PushHeld(r: Route, p: Policy, s: RState)
    requires |s.taken| == |s.core.calls| && REnabled(r, p, s, Push)
    ensures Held(p, RStep(r, p, s, Push)) == if p.autoAck then multiset{} else Held(p, s) + multiset{s.queue[0]}
  {
    var t := RStep(r, p, s, Push);
    assert Messages(t.prefetched) == Messages(s.prefetched) + [s.queue[0]];
    assert InHand(t) == InHand(s);
  }

  lemma RPushOk(r: Route, p: Policy, s: RState)
    requires RInv(r, p, s) && REnabled(r, p, s, Push)
    ensures RInv(r, p, RStep(r, p, s, Push))
  {
    var t := RStep(r, p, s, Push);
    HeadSplit(s.queue);
    PushHeld(r, p, s);
    PushConserves(p, s, t, s.queue[0]);
    assert Aligned(t) && AckBooks(p, t);
  }

  lemma TakeConserves(r: Route, p: Policy, s: RState)
    requires CoreOk(r, s) && Aligned(s) && REnabled(r, p, s, Take)
    ensures Held(p, RStep(r, p, s, Take)) == Held(p, s)
  {
    var t := RStep(r, p, s, Take);
    HeadSplit(Messages(s.prefetched));
    assert Messages(s.prefetched)[1..] == Messages(t.prefetched);
    assert InHand(s) == multiset{} && InHand(t) == multiset{s.prefetched[0].msg};
  }

  /** Books about earlier calls survive another call being taken. */
  lemma TakeAckBooks(p: Policy, s: RState, t: RState)
    requires |s.taken| == |s.core.calls| && |t.taken| == |t.core.calls| && AckBooks(p, s)
    requires t.ackedCalls == s.ackedCalls && t.acked == s.acked
    requires |t.taken| > |s.taken| && t.taken == s.taken + [t.taken[|s.taken|]]
    requires forall c :: 0 <= c < |s.taken| ==> t.core.calls[c] == s.core.calls[c] && !BeingHandled(t, c)
    ensures AckBooks(p, t)
  {
    OfAppend(s.taken, s.ackedCalls, t.taken[|s.taken|]);
  }

  lemma TakeCore(r: Route, p: Policy, s: RState)
    requires r.workers == 1 && CoreOk(r, s) && Aligned(s) && REnabled(r, p, s, Take)
    ensures CoreOk(r, RStep(r, p, s, Take)) && Aligned(RStep(r, p, s, Take))
  {
    BeginOk(r, s.core, 0, DeliveryOf(s.prefetched[0]));
    OrderBegin(r, s.core, 0, DeliveryOf(s.prefetched[0]));
  }

  lemma RTakeOk(r: Route, p: Policy, s: RState)
    requires r.workers == 1 && RInv(r, p, s) && REnabled(r, p, s, Take)
    ensures RInv(r, p, RStep(r, p, s, Take))
  {
    var t := RStep(r, p, s, Take);
    TakeCore(r, p, s);
    TakeTotals(r, p, s);
    TakeBooks(r, p, s);
    assert t.dropped == s.dropped;
  }

  lemma TakeBooks(r: Route, p: Policy, s: RState)
    requires Aligned(s) && REnabled(r, p, s, Take) && AckBooks(p, s)
    ensures Aligned(RStep(r, p, s, Take)) && AckBooks(p, RStep(r, p, s, Take))
  {
    TakeAckBooks(p, s, RStep(r, p, s, Take));
  }

  lemma TakeTotals(r: Route, p: Policy, s: RState)
    requires r.workers == 1 && CoreOk(r, s) && Aligned(s) && REnabled(r, p, s, Take) && Conserved(p, s)
    ensures Conserved(p, RStep(r, p, s, Take))
  {
    TakeConserves(r, p, s);
    SameTotals(p, s, RStep(r, p, s, Take));
  }

  lemma SameTotals(p: Policy, s: RState, t: RState)
    requires Conserved(p, s) && Held(p, t) == Held(p, s) && t.arrived == s.arrived && t.queue == s.queue
    requires t.acked == s.acked && t.unsettled == s.unsettled && t.dropped == s.dropped
    ensures Conserved(p, t)
  {
  }

  /** A settlement moves the message in hand to exactly one account. */
  lemma SettleConserves(r: Route, p: Policy, s: RState, ok: bool, at: nat)
    requires Aligned(s) && REnabled(r, p, s, Settled(ok, at)) && Conserved(p, s)
    ensures Conserved(p, RStep(r, p, s, Settled(ok, at)))
  {
    var t := RStep(r, p, s, Settled(ok, at));
    var m := s.taken[s.core.workers[0].call].msg;
    SettleEmptiesHand(r, p, s, ok, at);
    if !p.autoAck {
      InsertSplit(s.queue, at, m);
      SettleMoves(p, s, t, m);
    }
  }

  lemma SettleEmptiesHand(r: Route, p: Policy, s: RState, ok: bool, at: nat)
    requires Aligned(s) && REnabled(r, p, s, Settled(ok, at))
    ensures InHand(s) == multiset{s.taken[s.core.workers[0].call].msg}
    ensures InHand(RStep(r, p, s, Settled(ok, at))) == multiset{}
  {
    SettleFreesWorker(r, p, s, ok, at);
  }

  lemma SettleFreesWorker(r: Route, p: Policy, s: RState, ok: bool, at: nat)
    requires |s.taken| == |s.core.calls| && REnabled(r, p, s, Settled(ok, at))
    ensures RStep(r, p, s, Settled(ok, at)).core.workers == s.core.workers[0 := Free]
  {
  }

  lemma SettleMoves(p: Policy, s: RState, t: RState, m: AmqpMessage)
    requires Conserved(p, s) && !p.autoAck && t.arrived == s.arrived && t.prefetched == s.prefetched
    requires InHand(s) == multiset{m} && InHand(t) == multiset{}
    requires var one := multiset{m};
      || (t.queue == s.queue && t.acked == s.acked && t.unsettled == s.unsettled + one && t.dropped == s.dropped)
      || (t.queue == s.queue && t.acked == s.acked + one && t.unsettled == s.unsettled && t.dropped == s.dropped)
      || (t.queue == s.queue && t.acked == s.acked && t.unsettled == s.unsettled && t.dropped == s.dropped + one)
      || (multiset(t.queue) == multiset(s.queue) + one
          && t.acked == s.acked && t.unsettled == s.unsettled && t.dropped == s.dropped)
    ensures Conserved(p, t)
  {
  }

  lemma SettleAckBooks(r: Route, p: Policy, s: RState, ok: bool, at: nat)
    requires CoreOk(r, s) && Aligned(s) && REnabled(r, p, s, Settled(ok, at)) && AckBooks(p, s)
    ensures |RStep(r, p, s, Settled(ok, at)).taken| == |RStep(r, p, s, Settled(ok, at)).core.calls|
    ensures AckBooks(p, RStep(r, p, s, Settled(ok, at)))
  {
    var t := RStep(r, p, s, Settled(ok, at));
    AckedOneMore(p, s, t, s.core.workers[0].call);
  }

  lemma AckedOneMore(p: Policy, s: RState, t: RState, c: nat)
    requires |s.taken| == |s.core.calls| && t.taken == s.taken && t.core.calls == s.core.calls && AckBooks(p, s)
    requires c < |s.taken| && s.core.calls[c].phase.Returned? && BeingHandled(s, c)
    requires forall d: nat :: !BeingHandled(t, d)
    requires
      || (t.acked == s.acked && t.ackedCalls == s.ackedCalls)
      || (s.core.calls[c].phase.status == Nil
          && t.acked == s.acked + multiset{s.taken[c].msg} && t.ackedCalls == s.ackedCalls + {c})
    ensures AckBooks(p, t)
  {
    OfInsert(s.taken, s.ackedCalls, c);
  }

  lemma SettleCore(r: Route, p: Policy, s: RState, ok: bool, at: nat)
    requires r.workers == 1 && CoreOk(r, s) && Aligned(s) && REnabled(r, p, s, Settled(ok, at))
    ensures CoreOk(r, RStep(r, p, s, Settled(ok, at))) && Aligned(RStep(r, p, s, Settled(ok, at)))
  {
    SettleOk(r, s.core, 0);
    OrderStep(r, s.core, Settle(0));
    assert RStep(r, p, s, Settled(ok, at)).core == Step(r, s.core, Settle(0));
  }

  lemma RSettleOk(r: Route, p: Policy, s: RState, ok: bool, at: nat)
    requires r.workers == 1 && RInv(r, p, s) && REnabled(r, p, s, Settled(ok, at))
    ensures RInv(r, p, RStep(r, p, s, Settled(ok, at)))
  {
    SettleCore(r, p, s, ok, at);
    SettleConserves(r, p, s, ok, at);
    SettleAckBooks(r, p, s, ok, at);
  }

  lemma RStepOk(r: Route, p: Policy, s: RState, a: RAction)
    requires r.workers == 1 && RInv(r, p, s) && REnabled(r, p, s, a)
    ensures RInv(r, p, RStep(r, p, s, a))
  {
    match a {
      case Enqueue(_) =>
        assert Held(p, RStep(r, p, s, a)) == Held(p, s);
      case Push => RPushOk(r, p, s);
      case Take => RTakeOk(r, p, s);
      case Settled(ok, at) => RSettleOk(r, p, s, ok, at);
      case Inner(b) => RInnerOk(r, p, s, b);
    }
  }

  ghost predicate IsRRun(r: Route, p: Policy, tr: seq<RState>, acts: seq<RAction>) {
    && |tr| == |acts| + 1
    && forall i: nat {:trigger acts[i]} :: i < |acts| ==>
         && |tr[i].taken| == |tr[i].core.calls|
         && REnabled(r, p, tr[i], acts[i]) && tr[i + 1] == RStep(r, p, tr[i], acts[i])
  }

  ghost predicate RReachable(r: Route, p: Policy, s: RState) {
    exists tr: seq<RState>, acts: seq<RAction> ::
      IsRRun(r, p, tr, acts) && tr[0] == RInit(r) && tr[|acts|] == s
  }

  lemma {:induction false} CoreInRun(r: Route, p: Policy, tr: seq<RState>, acts: seq<RAction>, n: nat)
    requires r.workers == 1 && IsRRun(r, p, tr, acts) && tr[0] == RInit(r) && n <= |acts|
    ensures CoreOk(r, tr[n]) && Aligned(tr[n])
  {
    if n > 0 {
      CoreInRun(r, p, tr, acts, n - 1);
      CoreInStep(r, p, tr, acts, n - 1);
    } else {
      InitOk(r, true);
    }
  }

  lemma SameCore(r: Route, s: RState, t: RState)
    requires CoreOk(r, s) && Aligned(s) && t.core == s.core && t.taken == s.taken
    ensures CoreOk(r, t) && Aligned(t)
  {
  }

  lemma CoreInStep(r: Route, p: Policy, tr: seq<RState>, acts: seq<RAction>, i: nat)
    requires r.workers == 1 && IsRRun(r, p, tr, acts) && i < |acts| && CoreOk(r, tr[i]) && Aligned(tr[i])
    ensures CoreOk(r, tr[i + 1]) && Aligned(tr[i + 1])
  {
    var a := acts[i];
    CoreStep(r, p, tr[i], a);
  }

  lemma CoreStep(r: Route, p: Policy, s: RState, a: RAction)
    requires r.workers == 1 && CoreOk(r, s) && Aligned(s) && REnabled(r, p, s, a)
    ensures CoreOk(r, RStep(r, p, s, a)) && Aligned(RStep(r, p, s, a))
  {
    match a {
      case Enqueue(_) => SameCore(r, s, RStep(r, p, s, a));
      case Push => SameCore(r, s, RStep(r, p, s, a));
      case Take => TakeCore(r, p, s);
      case Settled(ok, at) => SettleCore(r, p, s, ok, at);
      case Inner(b) => InnerCore(r, p, s, b);
    }
  }

  lemma {:induction false} BooksInRun(r: Route, p: Policy, tr: seq<RState>, acts: seq<RAction>, n: nat)
    requires r.workers == 1 && IsRRun(r, p, tr, acts) && tr[0] == RInit(r) && n <= |acts|
    ensures |tr[n].taken| == |tr[n].core.calls| && Books(p, tr[n])
  {
    if n > 0 {
      BooksInRun(r, p, tr, acts, n - 1);
      BooksInStep(r, p, tr, acts, n - 1);
    }
  }

  lemma BooksInStep(r: Route, p: Policy, tr: seq<RState>, acts: seq<RAction>, i: nat)
    requires r.workers == 1 && IsRRun(r, p, tr, acts) && tr[0] == RInit(r) && i < |acts|
    requires |tr[i].taken| == |tr[i].core.calls| && Books(p, tr[i])
    ensures |tr[i + 1].taken| == |tr[i + 1].core.calls| && Books(p, tr[i + 1])
  {
    CoreInRun(r, p, tr, acts, i);
    var a := acts[i];
    RStepOk(r, p, tr[i], a);
  }

  lemma RRunOk(r: Route, p: Policy, tr: seq<RState>, acts: seq<RAction>, n: nat)
    requires r.workers == 1 && IsRRun(r, p, tr, acts) && tr[0] == RInit(r) && n <= |acts|
    ensures RInv(r, p, tr[n])
  {
    CoreInRun(r, p, tr, acts, n);
    BooksInRun(r, p, tr, acts, n);
  }

  lemma RReachableOk(r: Route, p: Policy, s: RState)
    requires r.workers == 1 && RReachable(r, p, s)
    ensures RInv(r, p, s)
  {
    var tr: seq<RState>, acts: seq<RAction> :| IsRRun(r, p, tr, acts) && tr[0] == RInit(r) && tr[|acts|] == s;
    RRunOk(r, p, tr, acts, |acts|);
  }

  lemma ExtendRRun(r: Route, p: Policy, s: RState, b: RAction)
    requires RReachable(r, p, s) && |s.taken| == |s.core.calls| && REnabled(r, p, s, b)
    ensures RReachable(r, p, RStep(r, p, s, b))
  {
    var tr: seq<RState>, acts: seq<RAction> :| IsRRun(r, p, tr, acts) && tr[0] == RInit(r) && tr[|acts|] == s;
    AppendRStep(r, p, tr, acts, b);
    assert (tr + [RStep(r, p, s, b)])[|acts + [b]|] == RStep(r, p, s, b);
  }

  lemma AppendRStep(r: Route, p: Policy, tr: seq<RState>, acts: seq<RAction>, b: RAction)
    requires IsRRun(r, p, tr, acts)
    requires |tr[|acts|].taken| == |tr[|acts|].core.calls| && REnabled(r, p, tr[|acts|], b)
    ensures IsRRun(r, p, tr + [RStep(r, p, tr[|acts|], b)], acts + [b])
  {
    var tr', acts' := tr + [RStep(r, p, tr[|acts|], b)], acts + [b];
    forall i: nat | i < |acts'|
      ensures |tr'[i].taken| == |tr'[i].core.calls|
      ensures REnabled(r, p, tr'[i], acts'[i]) && tr'[i + 1] == RStep(r, p, tr'[i], acts'[i])
    {
      if i < |acts| { assert acts'[i] == acts[i]; }
    }
  }

  lemma ReachRInit(r: Route, p: Policy)
    ensures RReachable(r, p, RInit(r))
  {
    var none: seq<RAction> := [];
    assert IsRRun(r, p, [RInit(r)], none) && [RInit(r)][|none|] == RInit(r);
  }

  lemma RCounts(r: Route, p: Policy, s: RState)
    requires r.workers == 1 && RReachable(r, p, s)
    ensures |s.taken| == |s.core.calls|
  {
    RReachableOk(r, p, s);
  }

  // ---------- Results ----------

  /**
   * Conservation: under the delivery policy the bridge configures (no autoAck, requeue on error) every
   * message ever enqueued is queued, delivered and unsettled, or acked; none is dropped.
   */
  lemma Conservation(r: Route, p: Policy, s: RState)
    requires r.workers == 1 && RReachable(r, p, s) && !p.autoAck && p.requeueOnError
    ensures s.arrived == multiset(s.queue) + multiset(Messages(s.prefetched)) + InHand(s) + s.unsettled + s.acked
    ensures s.dropped == multiset{}
  {
    RReachableOk(r, p, s);
  }

  lemma AckedCallDelivered(r: Route, p: Policy, s: RState, c: nat)
    requires RInv(r, p, s) && c in s.ackedCalls
    ensures c < |s.taken| && c < |s.core.calls| && AckedDelivery(r, s, c)
  {
    FanOutExact(r, s.core, c);
  }

  /** Ack safety: an acked delivery had been published to every target; a rejected one is never acked. */
  lemma AckSafety(r: Route, p: Policy, s: RState, c: nat)
    requires r.workers == 1 && RReachable(r, p, s) && c in s.ackedCalls
    ensures c < |s.taken| && c < |s.core.calls| && AckedDelivery(r, s, c)
  {
    RReachableOk(r, p, s);
    AckedCallDelivered(r, p, s, c);
  }

  /**
   * Without autoAck the acked messages are, copy for copy, those of the calls whose delivery was acked explicitly,
   * and so each of them had been published everywhere.
   */
  lemma AckedWasPublished(r: Route, p: Policy, s: RState)
    requires r.workers == 1 && RReachable(r, p, s) && !p.autoAck
    ensures s.acked == MessagesOf(s.taken, s.ackedCalls)
    ensures forall c :: c in s.ackedCalls ==> c < |s.taken| && c < |s.core.calls| && AckedDelivery(r, s, c)
  {
    RReachableOk(r, p, s);
    forall c | c in s.ackedCalls ensures c < |s.taken| && c < |s.core.calls| && AckedDelivery(r, s, c) {
      AckSafety(r, p, s, c);
    }
  }

  /** The delivery of call c passed the stages and its processed payload was published to every target. */
  ghost predicate AckedDelivery(r: Route, s: RState, c: nat)
    requires c < |s.taken| && c < |s.core.calls|
  {
    var out := Process(r.stages, Arrived(DeliveryOf(s.taken[c])), []);
    out.Accepted? && AllSucceeded(s.core, c, Delivery(out.msg.value, MetaOf(s.taken[c])))
  }

  /**
   * Each target's publish log is exactly the accepted deliveries, in delivery order, up to the one being
   * handled; between deliveries nothing is missing.
   */
  lemma DeliveryOrder(r: Route, p: Policy, s: RState, ti: nat)
    requires r.workers == 1 && RReachable(r, p, s) && ti < |s.core.banks|
    ensures |s.core.workers| == 1
    ensures Inputs(s.core) == seq(|s.taken|, i requires 0 <= i < |s.taken| => DeliveryOf(s.taken[i]))
    ensures s.core.banks[ti].sent == Passed(r.stages, Due(s.core, ti))
    ensures !s.core.workers[0].Running? ==> s.core.banks[ti].sent == Passed(r.stages, Inputs(s.core))
  {
    RReachableOk(r, p, s);
    AlignedInputs(s);
    if !s.core.workers[0].Running? { FreeWorkerOwesNothing(r, s.core, ti); }
  }

  lemma AlignedInputs(s: RState)
    requires Aligned(s)
    ensures Inputs(s.core) == seq(|s.taken|, i requires 0 <= i < |s.taken| => DeliveryOf(s.taken[i]))
  {
  }

  /** One job at a time: each target has at most one outstanding. */
  lemma OneOutstanding(r: Route, p: Policy, s: RState, ti: nat)
    requires r.workers == 1 && RReachable(r, p, s) && ti < |s.core.banks|
    ensures |Outstanding(s.core, ti)| <= 1
  {
    RReachableOk(r, p, s);
    OccupancyBound(r, s.core, ti, 0);
  }
}
