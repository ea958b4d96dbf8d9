// The RabbitMQ egress as a whole: the round-robin counter, its sixteen lanes and all the calls inside
// Publish (internal/connector/rabbitmq/exgress.go:22-130).
module Egress {
  import opened Prelude
  import opened Confirms

  // ---------- Round robin ----------

  /** A value of the uint64 counter. */
  type Counter = c: int | 0 <= c < WRAP

  /** The counter after one atomic add. */
  function NextCounter(c: Counter): Counter {
    if c == WRAP - 1 then 0 else c + 1
  }

  function LaneIndex(c: Counter): (l: nat)
    ensures l < POOL
  {
    c % POOL
  }

  /** The counter after n adds. */
  function CounterAfter(c: Counter, n: nat): Counter {
    if n == 0 then c else NextCounter(CounterAfter(c, n - 1))
  }

  /** The lane of the n-th pick (from 0) after the counter stood at c. */
  function LaneOfPick(c: Counter, n: nat): (l: nat)
    ensures l < POOL
  {
    LaneIndex(CounterAfter(c, n + 1))
  }

  lemma NextKeepsLane(c: Counter)
    ensures NextCounter(c) == (c + 1) % WRAP
    ensures LaneIndex(NextCounter(c)) == (LaneIndex(c) + 1) % POOL
  {
  }

  /** Wrap-around at 2^64 does not disturb the rotation, because 16 divides 2^64. */
  lemma {:induction false} LaneOfPickIs(c: Counter, n: nat)
    ensures LaneOfPick(c, n) == (c + n + 1) % POOL
  {
    if n > 0 { LaneOfPickIs(c, n - 1); }
    NextKeepsLane(CounterAfter(c, n));
  }

  /** Two picks meet on a lane exactly when a multiple of sixteen picks separates them, also across overflow. */
  lemma PicksShareLane(c: Counter, m: nat, n: nat)
    requires m <= n
    ensures LaneOfPick(c, m) == LaneOfPick(c, n) <==> (n - m) % 16 == 0
  {
    LaneOfPickIs(c, m);
    LaneOfPickIs(c, n);
  }

  /** How many of the first n picks chose lane l. */
  function PickCount(c: Counter, n: nat, l: nat): nat {
    if n == 0 then 0 else PickCount(c, n - 1, l) + if LaneOfPick(c, n - 1) == l then 1 else 0
  }

  /** Steps from the counter to the first pick of lane l. */
  function FirstPick(c: int, l: nat): (d: nat)
    requires l < POOL
    ensures d < POOL
  {
    (l - (c + 1)) % POOL
  }

  lemma Rotation(c: int, n: nat, l: nat)
    requires l < POOL
    ensures (c + n + 1) % POOL == l <==> n % POOL == FirstPick(c, l)
  {
  }

  lemma DivisionStep(n: nat, d: nat)
    requires d < POOL
    ensures (n + POOL - d) / POOL == (n + POOL - 1 - d) / POOL + if n % POOL == d then 1 else 0
  {
  }

  lemma {:induction false} PickCountIs(c: Counter, n: nat, l: nat)
    requires l < POOL
    ensures PickCount(c, n, l) == (n + POOL - 1 - FirstPick(c, l)) / POOL
  {
    if n > 0 {
      PickCountIs(c, n - 1, l);
      LaneOfPickIs(c, n - 1);
      Rotation(c, n - 1, l);
      DivisionStep(n - 1, FirstPick(c, l));
    }
  }

  /** After any number of picks from any counter value the lane loads differ by at most one. */
  lemma RoundRobinBalance(c: Counter, n: nat, k: nat, l: nat)
    requires k < POOL && l < POOL
    ensures n / 16 <= PickCount(c, n, l) <= n / 16 + 1
    ensures PickCount(c, n, k) <= PickCount(c, n, l) + 1
  {
    PickCountIs(c, n, k);
    PickCountIs(c, n, l);
  }

  // ---------- All calls of Publish on one egress ----------

  datatype Stage =
    | Picked                                    // lane chosen, nothing sent yet
    | Waiting(slot: nat)                        // message sent as that slot of the lane
    | Done(status: Status, sent: Option<nat>)   // returned; sent is None if the send itself failed

  datatype Caller = Caller(lane: nat, stage: Stage)

  datatype EState = EState(start: Counter, counter: Counter, lanes: seq<Lane>, calls: seq<Caller>)

  datatype EAction =
    | Pick
    | SendFails(k: nat, text: string)
    | SendOn(k: nat)
    | Emit(l: nat, ack: bool)
    | Consume(k: nat)
    | GiveUp(k: nat, text: string)     // timeout or context done

  function EInit(start: Counter): EState {
    EState(start, start, seq(POOL, _ => NEW_LANE), [])
  }

  predicate EEnabled(e: EState, a: EAction) {
    match a
    case Pick => |e.lanes| == POOL
    case SendFails(k, _) => k < |e.calls| && e.calls[k].stage.Picked?
    case SendOn(k) => k < |e.calls| && e.calls[k].stage.Picked? && e.calls[k].lane < |e.lanes|
    case Emit(l, _) => l < |e.lanes| && CanEmit(e.lanes[l])
    case Consume(k) =>
      k < |e.calls| && e.calls[k].stage.Waiting? && e.calls[k].lane < |e.lanes|
      && CanConsume(e.lanes[e.calls[k].lane], e.calls[k].stage.slot)
    case GiveUp(k, _) =>
      k < |e.calls| && e.calls[k].stage.Waiting? && e.calls[k].lane < |e.lanes|
      && CanGiveUp(e.lanes[e.calls[k].lane], e.calls[k].stage.slot)
  }

  function SetStage(e: EState, k: nat, s: Stage): EState
    requires k < |e.calls|
  {
    e.(calls := e.calls[k := e.calls[k].(stage := s)])
  }

  function SetLane(e: EState, l: nat, lane: Lane): EState
    requires l < |e.lanes|
  {
    e.(lanes := e.lanes[l := lane])
  }

  function EStep(e: EState, a: EAction): EState
    requires EEnabled(e, a)
  {
    match a
    case Pick =>
      var c := NextCounter(e.counter);
      e.(counter := c, calls := e.calls + [Caller(LaneIndex(c), Picked)])
    case SendFails(k, text) => SetStage(e, k, Done(Err(text), None))
    case SendOn(k) =>
      var l := e.calls[k].lane;
      SetLane(SetStage(e, k, Waiting(|e.lanes[l].slots|)), l, LaneSend(e.lanes[l]))
    case Emit(l, ack) => SetLane(e, l, LaneEmit(e.lanes[l], ack))
    case Consume(k) =>
      var l := e.calls[k].lane;
      var slot := e.calls[k].stage.slot;
      var ack := e.lanes[l].unread[0];
      var status := if ack then Nil else Err("broker NACKed");
      SetLane(SetStage(e, k, Done(status, Some(slot))), l, LaneConsume(e.lanes[l], slot))
    case GiveUp(k, text) =>
      var l := e.calls[k].lane;
      var slot := e.calls[k].stage.slot;
      SetLane(SetStage(e, k, Done(Err(text), Some(slot))), l, LaneGiveUp(e.lanes[l], slot))
  }

  ghost function NilLane(l: Lane): nat { NilReturns(l) }
  ghost function AckLane(l: Lane): nat { Acks(l.emitted) }
  function NilCall(c: Caller): nat { if c.stage.Done? && c.stage.status == Nil then 1 else 0 }

  /** A call and its slot tell the same story. */
  ghost predicate CallerOk(e: EState, k: nat)
    requires k < |e.calls| && e.calls[k].lane < |e.lanes|
  {
    var c := e.calls[k];
    var slots := e.lanes[c.lane].slots;
    match c.stage
    case Picked => true
    case Waiting(j) => j < |slots| && slots[j].Awaiting?
    case Done(st, None) => st != Nil
    case Done(st, Some(j)) =>
      j < |slots| && !slots[j].Awaiting? && (st == Nil <==> slots[j].Got? && slots[j].ack)
  }

  ghost predicate SameLaneWaiting(e: EState, j: nat, k: nat)
    requires j < |e.calls| && k < |e.calls|
  {
    e.calls[j].lane == e.calls[k].lane && e.calls[j].stage.Waiting? && e.calls[k].stage.Waiting?
  }

  ghost predicate SlotOwned(e: EState, l: nat, j: nat) {
    exists k :: 0 <= k < |e.calls| && e.calls[k] == Caller(l, Waiting(j))
  }

  /** The counter and the lanes of all calls follow the rotation. */
  ghost predicate RotationOk(e: EState) {
    && e.counter == CounterAfter(e.start, |e.calls|)
    && (forall k: nat :: k < |e.calls| ==> e.calls[k].lane == LaneOfPick(e.start, k))
  }

  ghost predicate AllOk(lanes: seq<Lane>) {
    forall l: nat :: l < |lanes| ==> LaneOk(lanes[l])
  }

  ghost predicate LanesOk(e: EState) {
    |e.lanes| == POOL && AllOk(e.lanes)
  }

  /** Calls and slots agree; an awaiting slot belongs to one call. */
  ghost predicate LinksOk(e: EState) {
    && (forall k: nat :: k < |e.calls| ==> e.calls[k].lane < |e.lanes| && CallerOk(e, k))
    && (forall l: nat, j: nat {:trigger SlotOwned(e, l, j)} ::
          l < |e.lanes| && j < |e.lanes[l].slots| && e.lanes[l].slots[j].Awaiting? ==> SlotOwned(e, l, j))
    && (forall j: nat, k: nat {:trigger SameLaneWaiting(e, j, k)} ::
          j < k < |e.calls| && SameLaneWaiting(e, j, k) ==> e.calls[j].stage.slot != e.calls[k].stage.slot)
  }

  ghost predicate NilsMatch(e: EState) {
    Sum(NilCall, e.calls) == Sum(NilLane, e.lanes)
  }

  ghost predicate EInv(e: EState) {
    RotationOk(e) && LanesOk(e) && LinksOk(e) && NilsMatch(e)
  }

  lemma RotationStep(e: EState, a: EAction)
    requires RotationOk(e) && EEnabled(e, a)
    ensures RotationOk(EStep(e, a))
  {
  }

  lemma NewLaneOk()
    ensures LaneOk(NEW_LANE)
  {
  }

  lemma NewLanesOk(lanes: seq<Lane>)
    requires forall l :: 0 <= l < |lanes| ==> lanes[l] == NEW_LANE
    ensures AllOk(lanes)
  {
    NewLaneOk();
  }

  lemma LaneActionOk(lanes: seq<Lane>, i: nat, a: LaneAction)
    requires AllOk(lanes) && i < |lanes| && LaneEnabled(lanes[i], a)
    ensures AllOk(lanes[i := LaneStep(lanes[i], a)])
  {
    LaneStepOk(lanes[i], a);
  }

  lemma LanesStep(e: EState, a: EAction)
    requires LanesOk(e) && EEnabled(e, a)
    ensures LanesOk(EStep(e, a))
  {
    if a.Emit? {
      LaneActionOk(e.lanes, a.l, AEmit(a.ack));
    } else if a.SendOn? {
      LaneActionOk(e.lanes, e.calls[a.k].lane, ASend);
    } else if a.Consume? {
      LaneActionOk(e.lanes, e.calls[a.k].lane, AConsume(e.calls[a.k].stage.slot));
    } else if a.GiveUp? {
      LaneActionOk(e.lanes, e.calls[a.k].lane, AGiveUp(e.calls[a.k].stage.slot));
    }
  }

  lemma NilsStep(e: EState, a: EAction)
    requires NilsMatch(e) && EEnabled(e, a)
    ensures NilsMatch(EStep(e, a))
  {
    var t := EStep(e, a);
    if a.Pick? {
      SumAppend(NilCall, e.calls, t.calls[|e.calls|]);
    } else if a.Emit? {
      SumUpdate(NilLane, e.lanes, a.l, t.lanes[a.l]);
    } else {
      SumUpdate(NilCall, e.calls, a.k, t.calls[a.k]);
      var l := e.calls[a.k].lane;
      if a.SendOn? {
        SumAppend(NilCost, e.lanes[l].slots, Awaiting);
        SumUpdate(NilLane, e.lanes, l, t.lanes[l]);
      } else if !a.SendFails? {
        var j := e.calls[a.k].stage.slot;
        SumUpdate(NilCost, e.lanes[l].slots, j, t.lanes[l].slots[j]);
        SumUpdate(NilLane, e.lanes, l, t.lanes[l]);
      }
    }
  }

  /** An owner stays the owner while its own stage is untouched. */
  lemma StillOwned(e: EState, t: EState, l: nat, j: nat, changed: int)
    requires SlotOwned(e, l, j) && |t.calls| >= |e.calls|
    requires forall k :: 0 <= k < |e.calls| && k != changed ==> t.calls[k] == e.calls[k]
    requires 0 <= changed < |e.calls| ==> e.calls[changed] != Caller(l, Waiting(j))
    ensures SlotOwned(t, l, j)
  {
    var k :| 0 <= k < |e.calls| && e.calls[k] == Caller(l, Waiting(j));
    assert t.calls[k] == e.calls[k];
  }

  lemma PickLinks(e: EState)
    requires LinksOk(e) && EEnabled(e, Pick)
    ensures LinksOk(EStep(e, Pick))
  {
    var t := EStep(e, Pick);
    forall k: nat | k < |t.calls| ensures t.calls[k].lane < |t.lanes| && CallerOk(t, k) {
      if k < |e.calls| { assert CallerOk(e, k); }
    }
    forall l: nat, j: nat | l < |t.lanes| && j < |t.lanes[l].slots| && t.lanes[l].slots[j].Awaiting?
      ensures SlotOwned(t, l, j)
    {
      StillOwned(e, t, l, j, -1);
    }
    forall j: nat, k: nat | j < k < |t.calls| && SameLaneWaiting(t, j, k)
      ensures t.calls[j].stage.slot != t.calls[k].stage.slot
    {
      assert SameLaneWaiting(e, j, k);
    }
  }

  lemma EmitLinks(e: EState, l: nat, ack: bool)
    requires LinksOk(e) && EEnabled(e, Emit(l, ack))
    ensures LinksOk(EStep(e, Emit(l, ack)))
  {
    var t := EStep(e, Emit(l, ack));
    forall k: nat | k < |t.calls| ensures t.calls[k].lane < |t.lanes| && CallerOk(t, k) { assert CallerOk(e, k); }
    forall m: nat, j: nat | m < |t.lanes| && j < |t.lanes[m].slots| && t.lanes[m].slots[j].Awaiting?
      ensures SlotOwned(t, m, j)
    {
      StillOwned(e, t, m, j, -1);
    }
    forall j: nat, k: nat | j < k < |t.calls| && SameLaneWaiting(t, j, k)
      ensures t.calls[j].stage.slot != t.calls[k].stage.slot
    {
      assert SameLaneWaiting(e, j, k);
    }
  }

  /** A call leaves Publish: its stage becomes Done and its slot, if it has one, stops waiting. */
  lemma EndLinks(e: EState, t: EState, k: nat, l: nat, lane: Lane)
    requires LinksOk(e) && k < |e.calls| && !e.calls[k].stage.Done? && l == e.calls[k].lane
    requires |t.calls| == |e.calls| && t.calls == e.calls[k := Caller(l, t.calls[k].stage)] && t.calls[k].stage.Done?
    requires l < |e.lanes| && t.lanes == e.lanes[l := lane] && |lane.slots| == |e.lanes[l].slots|
    requires CallerOk(t, k)
    requires if e.calls[k].stage.Waiting?
      then e.calls[k].stage.slot < |lane.slots| && !lane.slots[e.calls[k].stage.slot].Awaiting?
           && lane.slots == e.lanes[l].slots[e.calls[k].stage.slot := lane.slots[e.calls[k].stage.slot]]
      else lane.slots == e.lanes[l].slots
    ensures LinksOk(t)
  {
    assert CallerOk(e, k);
    forall d: nat | d < |t.calls| ensures t.calls[d].lane < |t.lanes| && CallerOk(t, d) {
      assert CallerOk(e, d);
      if d < k { assert SameLaneWaiting(e, d, k) || !SameLaneWaiting(e, d, k); }
      if d > k { assert SameLaneWaiting(e, k, d) || !SameLaneWaiting(e, k, d); }
    }
    forall m: nat, j: nat | m < |t.lanes| && j < |t.lanes[m].slots| && t.lanes[m].slots[j].Awaiting?
      ensures SlotOwned(t, m, j)
    {
      assert SlotOwned(e, m, j);
      StillOwned(e, t, m, j, k);
    }
    forall i: nat, d: nat | i < d < |t.calls| && SameLaneWaiting(t, i, d)
      ensures t.calls[i].stage.slot != t.calls[d].stage.slot
    {
      assert SameLaneWaiting(e, i, d);
    }
  }

  lemma SendLinks(e: EState, k: nat)
    requires LinksOk(e) && EEnabled(e, SendOn(k))
    ensures LinksOk(EStep(e, SendOn(k)))
  {
    var t := EStep(e, SendOn(k));
    var l := e.calls[k].lane;
    var n := |e.lanes[l].slots|;
    forall d: nat | d < |t.calls| ensures t.calls[d].lane < |t.lanes| && CallerOk(t, d) { assert CallerOk(e, d); }
    forall m: nat, j: nat | m < |t.lanes| && j < |t.lanes[m].slots| && t.lanes[m].slots[j].Awaiting?
      ensures SlotOwned(t, m, j)
    {
      if m == l && j == n {
        assert t.calls[k] == Caller(l, Waiting(n));
      } else {
        assert SlotOwned(e, m, j);
        StillOwned(e, t, m, j, k);
      }
    }
    forall i: nat, d: nat | i < d < |t.calls| && SameLaneWaiting(t, i, d)
      ensures t.calls[i].stage.slot != t.calls[d].stage.slot
    {
      assert CallerOk(e, i) && CallerOk(e, d);
      assert i != k && d != k ==> SameLaneWaiting(e, i, d);
    }
  }

  lemma LinksStep(e: EState, a: EAction)
    requires LinksOk(e) && EEnabled(e, a)
    ensures LinksOk(EStep(e, a))
  {
    var t := EStep(e, a);
    match a {
      case Pick => PickLinks(e);
      case SendFails(k, _) =>
        assert CallerOk(e, k);
        EndLinks(e, t, k, e.calls[k].lane, e.lanes[e.calls[k].lane]);
      case SendOn(k) => SendLinks(e, k);
      case Emit(l, ack) => EmitLinks(e, l, ack);
      case Consume(k) => EndLinks(e, t, k, e.calls[k].lane, t.lanes[e.calls[k].lane]);
      case GiveUp(k, _) => EndLinks(e, t, k, e.calls[k].lane, t.lanes[e.calls[k].lane]);
    }
  }

  lemma EStepOk(e: EState, a: EAction)
    requires EInv(e) && EEnabled(e, a)
    ensures EInv(EStep(e, a))
  {
    RotationStep(e, a);
    LanesStep(e, a);
    LinksStep(e, a);
    NilsStep(e, a);
  }

  lemma EInitOk(start: Counter)
    ensures EInv(EInit(start))
  {
    LanesInit(start);
    NilsInit(start);
  }

  lemma LanesInit(start: Counter)
    ensures LanesOk(EInit(start))
  {
    NewLaneOk();
  }

  lemma NilsInit(start: Counter)
    ensures NilsMatch(EInit(start))
  {
    NoNilsYet(EInit(start).lanes);
  }

  lemma {:induction false} NoNilsYet(lanes: seq<Lane>)
    requires forall l :: 0 <= l < |lanes| ==> lanes[l] == NEW_LANE
    ensures Sum(NilLane, lanes) == 0
  {
    if lanes != [] { NoNilsYet(lanes[..|lanes| - 1]); }
  }

  ghost predicate IsERun(tr: seq<EState>, acts: seq<EAction>, start: Counter) {
    IsERunFrom(EInit(start), tr, acts)
  }

  ghost predicate IsERunFrom(e: EState, tr: seq<EState>, acts: seq<EAction>) {
    && |tr| == |acts| + 1 && tr[0] == e
    && forall i: nat {:trigger acts[i]} :: i < |acts| ==> EEnabled(tr[i], acts[i]) && tr[i + 1] == EStep(tr[i], acts[i])
  }

  lemma {:induction false} RotationInRun(tr: seq<EState>, acts: seq<EAction>, start: Counter, n: nat)
    requires IsERun(tr, acts, start) && n <= |acts|
    ensures RotationOk(tr[n]) && tr[n].start == start
  {
    if n > 0 {
      RotationInRun(tr, acts, start, n - 1);
      var a := acts[n - 1];
      RotationStep(tr[n - 1], a);
    }
  }

  lemma {:induction false} LanesInRun(tr: seq<EState>, acts: seq<EAction>, start: Counter, n: nat)
    requires IsERun(tr, acts, start) && n <= |acts|
    ensures LanesOk(tr[n])
  {
    if n == 0 {
      LanesInit(start);
    } else {
      LanesInRun(tr, acts, start, n - 1);
      var a := acts[n - 1];
      LanesStep(tr[n - 1], a);
    }
  }

  lemma {:induction false} LinksInRun(tr: seq<EState>, acts: seq<EAction>, start: Counter, n: nat)
    requires IsERun(tr, acts, start) && n <= |acts|
    ensures LinksOk(tr[n])
  {
    if n > 0 {
      LinksInRun(tr, acts, start, n - 1);
      var a := acts[n - 1];
      LinksStep(tr[n - 1], a);
    }
  }

  lemma {:induction false} NilsInRun(tr: seq<EState>, acts: seq<EAction>, start: Counter, n: nat)
    requires IsERun(tr, acts, start) && n <= |acts|
    ensures NilsMatch(tr[n])
  {
    if n == 0 {
      NilsInit(start);
    } else {
      NilsInRun(tr, acts, start, n - 1);
      var a := acts[n - 1];
      NilsStep(tr[n - 1], a);
    }
  }

  /** Over the whole egress and any interleaving, publishes that returned nil never exceed the broker's acks. */
  lemma NilReturnsBounded(tr: seq<EState>, acts: seq<EAction>, start: Counter, n: nat)
    requires IsERun(tr, acts, start) && n <= |acts|
    ensures Sum(NilCall, tr[n].calls) <= Sum(AckLane, tr[n].lanes)
  {
    NilsInRun(tr, acts, start, n);
    LanesInRun(tr, acts, start, n);
    NilsWithinAcks(tr[n].lanes);
  }

  lemma {:induction false} NilsWithinAcks(lanes: seq<Lane>)
    requires forall l :: 0 <= l < |lanes| ==> LaneOk(lanes[l])
    ensures Sum(NilLane, lanes) <= Sum(AckLane, lanes)
  {
    if lanes != [] { NilsWithinAcks(lanes[..|lanes| - 1]); }
  }

  // ---------- When a call is sure to read its own confirmation ----------

  /** Every call still inside Publish is among the last sixteen that picked a lane. */
  ghost predicate Windowed(e: EState) {
    forall k: nat :: k < |e.calls| && !e.calls[k].stage.Done? ==> |e.calls| - k <= POOL
  }

  /** Then no two unfinished calls share a lane. */
  lemma WindowSeparates(e: EState, j: nat, k: nat)
    requires RotationOk(e) && Windowed(e) && j < k < |e.calls|
    requires !e.calls[j].stage.Done? && !e.calls[k].stage.Done?
    ensures e.calls[j].lane != e.calls[k].lane
  {
    PicksShareLane(e.start, j, k);
  }

  lemma WindowedSlot(e: EState, k: nat, j: nat)
    requires RotationOk(e) && LinksOk(e) && Windowed(e) && EEnabled(e, SendOn(k))
    requires j < |e.lanes[e.calls[k].lane].slots|
    ensures !e.lanes[e.calls[k].lane].slots[j].Awaiting?
  {
    var l := e.calls[k].lane;
    if e.lanes[l].slots[j].Awaiting? {
      assert SlotOwned(e, l, j);
      var d: nat :| d < |e.calls| && e.calls[d] == Caller(l, Waiting(j));
      if d < k { WindowSeparates(e, d, k); } else { WindowSeparates(e, k, d); }
    }
  }

  lemma LagEmit(l: Lane, ack: bool)
    requires LagOk(l) && CanEmit(l)
    ensures LagOk(LaneEmit(l, ack))
  {
    assert forall k: nat :: k <= |l.slots| ==> Lag(LaneEmit(l, ack), k) == Lag(l, k);
  }

  /** One lane moves; on a send nobody on the lane is waiting. */
  lemma LagLaneStep(l: Lane, a: LaneAction)
    requires LaneOk(l) && LagOk(l) && LaneEnabled(l, a)
    requires a.ASend? ==> forall j: nat :: j < |l.slots| ==> !l.slots[j].Awaiting?
    ensures LagOk(LaneStep(l, a))
  {
    match a {
      case ASend => LagSend(l);
      case AEmit(ack) => LagEmit(l, ack);
      case AConsume(k) => LagConsume(l, k);
      case AGiveUp(k) => LagGiveUp(l, k);
    }
  }

  lemma LagLanesStep(lanes: seq<Lane>, i: nat, a: LaneAction)
    requires AllOk(lanes) && AllLagOk(lanes) && i < |lanes| && LaneEnabled(lanes[i], a)
    requires a.ASend? ==> forall j: nat :: j < |lanes[i].slots| ==> !lanes[i].slots[j].Awaiting?
    ensures AllLagOk(lanes[i := LaneStep(lanes[i], a)])
  {
    LagLaneStep(lanes[i], a);
  }

  lemma LagStep(e: EState, a: EAction)
    requires RotationOk(e) && LanesOk(e) && LinksOk(e) && Windowed(e) && EEnabled(e, a)
    requires AllLagOk(e.lanes)
    ensures AllLagOk(EStep(e, a).lanes)
  {
    if a.SendOn? {
      var l := e.calls[a.k].lane;
      forall j: nat | j < |e.lanes[l].slots| ensures !e.lanes[l].slots[j].Awaiting? { WindowedSlot(e, a.k, j); }
      LagLanesStep(e.lanes, l, ASend);
    } else if a.Emit? {
      LagLanesStep(e.lanes, a.l, AEmit(a.ack));
    } else if a.Consume? {
      LagLanesStep(e.lanes, e.calls[a.k].lane, AConsume(e.calls[a.k].stage.slot));
    } else if a.GiveUp? {
      LagLanesStep(e.lanes, e.calls[a.k].lane, AGiveUp(e.calls[a.k].stage.slot));
    }
  }

  ghost predicate AllLagOk(lanes: seq<Lane>) {
    forall l: nat :: l < |lanes| ==> LagOk(lanes[l])
  }

  lemma {:induction false} LagERun(tr: seq<EState>, acts: seq<EAction>, start: Counter, n: nat)
    requires IsERun(tr, acts, start) && n <= |acts|
    requires forall e :: e in tr ==> Windowed(e)
    ensures AllLagOk(tr[n].lanes)
  {
    if n > 0 {
      LagERun(tr, acts, start, n - 1);
      RotationInRun(tr, acts, start, n - 1);
      LanesInRun(tr, acts, start, n - 1);
      LinksInRun(tr, acts, start, n - 1);
      var a := acts[n - 1];
      assert tr[n - 1] in tr;
      LagStep(tr[n - 1], a);
    }
  }

  /**
   * Confirm lag on the whole egress: if every call leaves Publish before sixteen more calls have entered, a call
   * that read a confirmation read the one of the message t places earlier on its lane, where t counts the earlier
   * give-ups there. It is its own exactly when nobody gave up earlier, and the call returned nil exactly when that
   * confirmation was an ack; a call that gave up returned an error.
   */
  lemma EgressConfirmLag(tr: seq<EState>, acts: seq<EAction>, start: Counter, n: nat, k: nat)
    requires IsERun(tr, acts, start) && n <= |acts| && k < |tr[n].calls|
    requires forall e :: e in tr ==> Windowed(e)
    requires tr[n].calls[k].stage.Done? && tr[n].calls[k].stage.sent.Some?
    ensures tr[n].calls[k].lane < |tr[n].lanes|
    ensures var lane := tr[n].lanes[tr[n].calls[k].lane];
      var j := tr[n].calls[k].stage.sent.value;
      && j < |lane.slots| && (lane.slots[j].Got? || lane.slots[j].GaveUp?)
      && (lane.slots[j].GaveUp? ==> tr[n].calls[k].stage.status != Nil)
      && (lane.slots[j].Got? ==>
            && Lag(lane, j) <= j && j - Lag(lane, j) < |lane.emitted|
            && lane.slots[j] == Got(j - Lag(lane, j), lane.emitted[j - Lag(lane, j)])
            && (tr[n].calls[k].stage.status == Nil <==> lane.emitted[j - Lag(lane, j)])
            && (lane.slots[j].index == j <==> forall i :: 0 <= i < j ==> !lane.slots[i].GaveUp?))
  {
    LinksInRun(tr, acts, start, n);
    assert CallerOk(tr[n], k);
    var l, j := tr[n].calls[k].lane, tr[n].calls[k].stage.sent.value;
    LagERun(tr, acts, start, n);
    LanesInRun(tr, acts, start, n);
    if tr[n].lanes[l].slots[j].Got? {
      LagOnLane(tr[n].lanes, l, j);
    }
  }

  lemma LagOnLane(lanes: seq<Lane>, l: nat, j: nat)
    requires AllOk(lanes) && AllLagOk(lanes) && l < |lanes| && j < |lanes[l].slots| && lanes[l].slots[j].Got?
    ensures Lag(lanes[l], j) <= j && j - Lag(lanes[l], j) < |lanes[l].emitted|
    ensures lanes[l].slots[j] == Got(j - Lag(lanes[l], j), lanes[l].emitted[j - Lag(lanes[l], j)])
    ensures lanes[l].slots[j].index == j <==> forall i :: 0 <= i < j ==> !lanes[l].slots[i].GaveUp?
  {
    LagMeaning(lanes[l], j);
  }

  /** So with no earlier give-up on its lane, a call that read a confirmation reports the verdict on its own message. */
  lemma OwnConfirm(tr: seq<EState>, acts: seq<EAction>, start: Counter, n: nat, k: nat)
    requires IsERun(tr, acts, start) && n <= |acts| && k < |tr[n].calls|
    requires forall e :: e in tr ==> Windowed(e)
    requires tr[n].calls[k].stage.Done? && tr[n].calls[k].stage.sent.Some? && tr[n].calls[k].lane < |tr[n].lanes|
    requires var slots := tr[n].lanes[tr[n].calls[k].lane].slots;
      var j := tr[n].calls[k].stage.sent.value;
      j < |slots| && slots[j].Got? && forall i :: 0 <= i < j ==> !slots[i].GaveUp?
    ensures var lane := tr[n].lanes[tr[n].calls[k].lane];
      var j := tr[n].calls[k].stage.sent.value;
      j < |lane.emitted| && (tr[n].calls[k].stage.status == Nil <==> lane.emitted[j])
  {
    EgressConfirmLag(tr, acts, start, n, k);
  }

  // ---------- The egress object ----------

  /** What happens around one Publish call: the send may fail; else confirms arrive and the caller reads or gives up. */
  datatype Surroundings = SendError(text: string) | Confirmed(acks: seq<bool>) | Timeout(acks: seq<bool>, text: string)

  class Client {
    var rrCounter: Uint64
    var lanes: seq<Lane>

    ghost predicate Valid()
      reads this
    {
      |lanes| == POOL && AllOk(lanes)
    }

    constructor ()
      ensures rrCounter == 0 && lanes == []
    {
      rrCounter, lanes := 0, [];
    }

    /** newEgress: needs a target name, then opens sixteen channels in confirm mode, failing on the first error. */
    static method NewEgress(targetName: string, channelOk: nat -> bool, confirmOk: nat -> bool)
      returns (r: Result<Client, string>)
      ensures r.Success? <==> targetName != "" && forall i: nat :: i < POOL ==> channelOk(i) && confirmOk(i)
      ensures r.Success? ==> fresh(r.value) && r.value.Valid() && r.value.rrCounter == 0
      ensures r.Success? ==> forall l: nat :: l < POOL ==> r.value.lanes[l] == NEW_LANE
    {
      if targetName == "" {
        return Failure("egress requires targetName");
      }
      var c := new Client();
      for i := 0 to POOL
        invariant c.rrCounter == 0 && |c.lanes| == i
        invariant forall l: nat :: l < i ==> c.lanes[l] == NEW_LANE && channelOk(l) && confirmOk(l)
      {
        if !channelOk(i) {
          return Failure("egress channel");
        }
        if !confirmOk(i) {
          return Failure("enable confirms");
        }
        c.lanes := c.lanes + [NEW_LANE];
      }
      NewLanesOk(c.lanes);
      r := Success(c);
    }

    /** The atomic add and the lane it selects. */
    method PickLane() returns (idx: nat)
      requires Valid()
      modifies this`rrCounter
      ensures rrCounter as int == NextCounter(old(rrCounter) as Counter)
      ensures rrCounter as int == (old(rrCounter) as int + 1) % 0x1_0000_0000_0000_0000
      ensures idx == LaneIndex(rrCounter as Counter) < |lanes|
      ensures idx == LaneOfPick(old(rrCounter) as Counter, 0)
    {
      ghost var c := rrCounter as Counter;
      assert CounterAfter(c, 1) == NextCounter(CounterAfter(c, 0));
      rrCounter := if rrCounter as int == WRAP - 1 then 0 else rrCounter + 1;
      idx := rrCounter as int % |lanes|;
    }

    /**
     * One Publish while no other caller is inside. It reads the oldest unread confirmation of its lane, so
     * with confirmations left over it reports an earlier message's fate. Other lanes are untouched. On every
     * egress with this counter and these lanes it is the run in which one more call picks a lane, sends, hears
     * the confirmations and reads or gives up, or fails to send.
     */
    method Publish(around: Surroundings) returns (status: Status)
      requires Valid() && Possible(lanes[LaneIndex(NextCounter(rrCounter as Counter))], around)
      modifies this
      ensures Valid() && rrCounter as int == NextCounter(old(rrCounter) as Counter)
      ensures var l := LaneIndex(rrCounter as Counter);
        && lanes == old(lanes)[l := AfterPublish(old(lanes)[l], around)]
        && status == PublishStatus(old(lanes)[l], around)
        && (if around.SendError? then status != Nil && lanes == old(lanes)
            else ReportsSlot(old(lanes)[l], lanes[l], status, around.Timeout?))
      ensures forall e: EState {:trigger PublishesAs(e, around, rrCounter as Counter, lanes, status)} ::
        e.counter == old(rrCounter) as Counter && e.lanes == old(lanes) ==>
          PublishesAs(e, around, rrCounter as Counter, lanes, status)
    {
      ghost var before, c := lanes, rrCounter as Counter;
      var l := PickLane();
      var lane: Lane;
      lane, status := SendAndWait(lanes[l], around);
      lanes := lanes[l := lane];
      PublishIsRunAnywhere(c, before, around);
      assert lanes == before[l := AfterPublish(before[l], around)];
    }
  }
  /** The call added one message to its lane; it returned nil iff it read an ack, and an error if it gave up. */
  predicate ReportsSlot(before: Lane, after: Lane, status: Status, gaveUp: bool) {
    && |after.slots| == |before.slots| + 1 && after.slots[..|before.slots|] == before.slots
    && var fate := after.slots[|before.slots|];
       && (if gaveUp then fate.GaveUp? else fate.Got?)
       && (status == Nil <==> fate.Got? && fate.ack)
  }

  /** What Publish does with the lane it picked. */
  method SendAndWait(l: Lane, around: Surroundings) returns (lane: Lane, status: Status)
    requires LaneOk(l) && Possible(l, around)
    ensures lane == AfterPublish(l, around) && status == PublishStatus(l, around) && LaneOk(lane)
    ensures if around.SendError? then status != Nil && lane == l else ReportsSlot(l, lane, status, around.Timeout?)
  {
    StatusIsSlot(l, around);
    AfterPublishOk(l, around);
    status := PublishStatus(l, around);
    lane := l;
    if !around.SendError? {
      lane := Arrive(LaneSend(l), around.acks);
      var k := |l.slots|;
      lane := if around.Confirmed? then LaneConsume(lane, k) else LaneGiveUp(lane, k);
    }
  }

  lemma StatusIsSlot(l: Lane, around: Surroundings)
    requires LaneOk(l) && Possible(l, around)
    ensures around.SendError? ==> PublishStatus(l, around) != Nil && AfterPublish(l, around) == l
    ensures !around.SendError? ==>
      ReportsSlot(l, AfterPublish(l, around), PublishStatus(l, around), around.Timeout?)
  {
    if !around.SendError? { EmitAllFields(LaneSend(l), around.acks); }
  }

  // ---------- A lone Publish as a run of the egress ----------

  /** Exactly these actions lead from e to t. */
  ghost predicate Does(e: EState, acts: seq<EAction>, t: EState)
    decreases |acts|
  {
    if acts == [] then t == e else EEnabled(e, acts[0]) && Does(EStep(e, acts[0]), acts[1..], t)
  }

  function Confirming(l: nat, acks: seq<bool>): seq<EAction> {
    seq(|acks|, i requires 0 <= i < |acks| => Emit(l, acks[i]))
  }

  /** The steps of call k on lane l. */
  function PublishSteps(k: nat, l: nat, around: Surroundings): seq<EAction> {
    match around
    case SendError(text) => [Pick, SendFails(k, text)]
    case Confirmed(acks) => [Pick, SendOn(k)] + Confirming(l, acks) + [Consume(k)]
    case Timeout(acks, text) => [Pick, SendOn(k)] + Confirming(l, acks) + [GiveUp(k, text)]
  }

  /** One more call of Publish, inside the egress as a whole: it ends with these lanes, and returns this status. */
  ghost predicate PublishesAs(e: EState, around: Surroundings, counter: Counter, lanes: seq<Lane>, status: Status) {
    exists t: EState ::
      && Does(e, PublishSteps(|e.calls|, LaneIndex(counter), around), t)
      && t.counter == counter && t.lanes == lanes
      && |t.calls| == |e.calls| + 1 && t.calls[..|e.calls|] == e.calls
      && t.calls[|e.calls|].lane == LaneIndex(counter)
      && t.calls[|e.calls|].stage.Done? && t.calls[|e.calls|].stage.status == status
  }

  lemma {:induction false} DoesThen(e: EState, a: seq<EAction>, m: EState, b: seq<EAction>, t: EState)
    requires Does(e, a, m) && Does(m, b, t)
    ensures Does(e, a + b, t)
    decreases |a|
  {
    if a == [] {
      assert a + b == b;
    } else {
      DoesThen(EStep(e, a[0]), a[1..], m, b, t);
      assert (a + b)[1..] == a[1..] + b;
    }
  }

  lemma DoesOne(e: EState, a: EAction)
    requires EEnabled(e, a)
    ensures Does(e, [a], EStep(e, a))
  {
    assert [a][1..] == [];
  }

  lemma {:induction false} ConfirmingRun(e: EState, l: nat, acks: seq<bool>)
    requires l < |e.lanes| && |e.lanes[l].emitted| + |acks| <= |e.lanes[l].slots|
    requires |e.lanes[l].unread| + |acks| <= CONFIRM_BUFFER
    ensures Does(e, Confirming(l, acks), SetLane(e, l, EmitAll(e.lanes[l], acks)))
    decreases |acks|
  {
    if acks == [] {
      assert SetLane(e, l, e.lanes[l]) == e;
    } else {
      var n := |acks| - 1;
      ConfirmingRun(e, l, acks[..n]);
      var m := SetLane(e, l, EmitAll(e.lanes[l], acks[..n]));
      DoesOne(m, Emit(l, acks[n]));
      DoesThen(e, Confirming(l, acks[..n]), m, [Emit(l, acks[n])], EStep(m, Emit(l, acks[n])));
      assert Confirming(l, acks) == Confirming(l, acks[..n]) + [Emit(l, acks[n])];
      assert EStep(m, Emit(l, acks[n])) == SetLane(e, l, EmitAll(e.lanes[l], acks));
    }
  }

  lemma PublishIsRun(e: EState, around: Surroundings)
    requires |e.lanes| == POOL && LaneOk(e.lanes[LaneIndex(NextCounter(e.counter))])
    requires Possible(e.lanes[LaneIndex(NextCounter(e.counter))], around)
    ensures var c := NextCounter(e.counter);
      var l := LaneIndex(c);
      PublishesAs(e, around, c, e.lanes[l := AfterPublish(e.lanes[l], around)], PublishStatus(e.lanes[l], around))
  {
    var c, k := NextCounter(e.counter), |e.calls|;
    var l := LaneIndex(c);
    var picked := EStep(e, Pick);
    DoesOne(e, Pick);
    if around.SendError? {
      var fail := SendFails(k, around.text);
      DoesOne(picked, fail);
      DoesThen(e, [Pick], picked, [fail], EStep(picked, fail));
      assert [Pick] + [fail] == PublishSteps(k, l, around);
      assert e.lanes[l := e.lanes[l]] == e.lanes;
    } else {
      SendAndEnd(e, picked, l, around);
    }
  }

  lemma SendAndEnd(e: EState, picked: EState, l: nat, around: Surroundings)
    requires |e.lanes| == POOL && l == LaneIndex(NextCounter(e.counter)) && picked == EStep(e, Pick)
    requires LaneOk(e.lanes[l]) && Possible(e.lanes[l], around) && !around.SendError? && Does(e, [Pick], picked)
    ensures PublishesAs(e, around, picked.counter, e.lanes[l := AfterPublish(e.lanes[l], around)],
                        PublishStatus(e.lanes[l], around))
  {
    var k := |e.calls|;
    var heard := SendAndHear(e, picked, l, around.acks);
    var end := if around.Confirmed? then Consume(k) else GiveUp(k, around.text);
    EmitAllFields(LaneSend(e.lanes[l]), around.acks);
    assert EEnabled(heard, end);
    var t := EStep(heard, end);
    DoesOne(heard, end);
    DoesThen(e, [Pick] + [SendOn(k)] + Confirming(l, around.acks), heard, [end], t);
    assert [Pick] + [SendOn(k)] + Confirming(l, around.acks) + [end] == PublishSteps(k, l, around);
    assert t.lanes == e.lanes[l := AfterPublish(e.lanes[l], around)];
    assert t.calls[..k] == e.calls;
  }

  lemma SendAndHear(e: EState, picked: EState, l: nat, acks: seq<bool>) returns (heard: EState)
    requires |e.lanes| == POOL && l == LaneIndex(NextCounter(e.counter)) && picked == EStep(e, Pick)
    requires |e.lanes[l].emitted| + |acks| <= |e.lanes[l].slots| + 1 && |e.lanes[l].unread| + |acks| <= CONFIRM_BUFFER
    requires Does(e, [Pick], picked)
    ensures Does(e, [Pick] + [SendOn(|e.calls|)] + Confirming(l, acks), heard)
    ensures heard.counter == picked.counter && heard.lanes == e.lanes[l := EmitAll(LaneSend(e.lanes[l]), acks)]
    ensures heard.calls == e.calls + [Caller(l, Waiting(|e.lanes[l].slots|))]
  {
    var k := |e.calls|;
    var sent := EStep(picked, SendOn(k));
    DoesOne(picked, SendOn(k));
    DoesThen(e, [Pick], picked, [SendOn(k)], sent);
    assert sent.calls == e.calls + [Caller(l, Waiting(|e.lanes[l].slots|))];
    heard := SetLane(sent, l, EmitAll(sent.lanes[l], acks));
    ConfirmingRun(sent, l, acks);
    DoesThen(e, [Pick] + [SendOn(k)], sent, Confirming(l, acks), heard);
  }

  lemma PublishIsRunAnywhere(c: Counter, lanes: seq<Lane>, around: Surroundings)
    requires |lanes| == POOL && LaneOk(lanes[LaneIndex(NextCounter(c))])
    requires Possible(lanes[LaneIndex(NextCounter(c))], around)
    ensures var l := LaneIndex(NextCounter(c));
      var after := lanes[l := AfterPublish(lanes[l], around)];
      forall e: EState {:trigger PublishesAs(e, around, NextCounter(c), after, PublishStatus(lanes[l], around))} ::
        e.counter == c && e.lanes == lanes ==>
          PublishesAs(e, around, NextCounter(c), after, PublishStatus(lanes[l], around))
  {
    var l := LaneIndex(NextCounter(c));
    var after := lanes[l := AfterPublish(lanes[l], around)];
    forall e: EState | e.counter == c && e.lanes == lanes
      ensures PublishesAs(e, around, NextCounter(c), after, PublishStatus(lanes[l], around))
    {
      PublishIsRun(e, around);
    }
  }

  /** The broker can only confirm what was sent, in a bounded channel; a caller that reads finds something. */
  predicate Possible(l: Lane, around: Surroundings) {
    around.SendError? || (
      && |l.emitted| + |around.acks| <= |l.slots| + 1
      && |l.unread| + |around.acks| <= CONFIRM_BUFFER
      && (around.Confirmed? ==> |l.unread| + |around.acks| > 0))
  }

  function PublishStatus(l: Lane, around: Surroundings): Status
    requires Possible(l, around)
  {
    match around
    case SendError(text) => Err(text)
    case Timeout(_, text) => Err(text)
    case Confirmed(acks) => if (l.unread + acks)[0] then Nil else Err("broker NACKed")
  }

  /** The broker's confirmations arriving one by one in the lane's channel. */
  function EmitAll(l: Lane, acks: seq<bool>): (r: Lane)
    requires |l.emitted| + |acks| <= |l.slots| && |l.unread| + |acks| <= CONFIRM_BUFFER
    ensures r.slots == l.slots && |r.emitted| == |l.emitted| + |acks| && |r.unread| == |l.unread| + |acks|
  {
    if acks == [] then l else LaneEmit(EmitAll(l, acks[..|acks| - 1]), acks[|acks| - 1])
  }

  lemma {:induction false} EmitAllFields(l: Lane, acks: seq<bool>)
    requires |l.emitted| + |acks| <= |l.slots| && |l.unread| + |acks| <= CONFIRM_BUFFER
    ensures EmitAll(l, acks).emitted == l.emitted + acks && EmitAll(l, acks).unread == l.unread + acks
  {
    if acks != [] {
      EmitAllFields(l, acks[..|acks| - 1]);
      assert acks == acks[..|acks| - 1] + [acks[|acks| - 1]];
    }
  }

  lemma {:induction false} EmitAllOk(l: Lane, acks: seq<bool>)
    requires LaneOk(l) && |l.emitted| + |acks| <= |l.slots| && |l.unread| + |acks| <= CONFIRM_BUFFER
    ensures LaneOk(EmitAll(l, acks))
  {
    if acks != [] {
      EmitAllOk(l, acks[..|acks| - 1]);
      EmitOk(EmitAll(l, acks[..|acks| - 1]), acks[|acks| - 1]);
    }
  }

  method Arrive(l: Lane, acks: seq<bool>) returns (lane: Lane)
    requires |l.emitted| + |acks| <= |l.slots| && |l.unread| + |acks| <= CONFIRM_BUFFER
    ensures lane == EmitAll(l, acks)
  {
    lane := l;
    for i := 0 to |acks|
      invariant lane == EmitAll(l, acks[..i])
    {
      assert acks[..i + 1][..i] == acks[..i];
      lane := LaneEmit(lane, acks[i]);
    }
    assert acks[..|acks|] == acks;
  }

  /** Send, the confirmations that arrive meanwhile, then read or give up. */
  function AfterPublish(l: Lane, around: Surroundings): Lane
    requires Possible(l, around) && |l.unread| <= |l.emitted|
  {
    if around.SendError? then l
    else
      var sent := EmitAll(LaneSend(l), around.acks);
      if around.Confirmed? then LaneConsume(sent, |l.slots|) else LaneGiveUp(sent, |l.slots|)
  }

  lemma SentOk(l: Lane, acks: seq<bool>)
    requires LaneOk(l) && |l.emitted| + |acks| <= |l.slots| + 1 && |l.unread| + |acks| <= CONFIRM_BUFFER
    ensures LaneOk(EmitAll(LaneSend(l), acks))
  {
    SendOk(l);
    EmitAllOk(LaneSend(l), acks);
  }

  lemma AfterPublishOk(l: Lane, around: Surroundings)
    requires LaneOk(l) && Possible(l, around)
    ensures LaneOk(AfterPublish(l, around))
  {
    if !around.SendError? {
      SentOk(l, around.acks);
      var sent := EmitAll(LaneSend(l), around.acks);
      if around.Confirmed? { ConsumeOk(sent, |l.slots|); } else { GiveUpOk(sent, |l.slots|); }
    }
  }

  /** What a lone call reports and leaves behind: it reads the oldest confirmation not yet read. */
  lemma LoneCallReadsOldest(l: Lane, acks: seq<bool>)
    requires LaneOk(l) && Possible(l, Confirmed(acks))
    ensures var pending := l.unread + acks;
      var after := AfterPublish(l, Confirmed(acks));
      && (PublishStatus(l, Confirmed(acks)) == Nil <==> pending[0])
      && after.unread == pending[1..] && after.emitted == l.emitted + acks
      && after.slots == l.slots + [Got(|l.emitted| - |l.unread|, pending[0])]
  {
    EmitAllFields(LaneSend(l), acks);
  }

  /** With nothing left over, the call reports the verdict on its own message. */
  lemma AloneReadsOwn(l: Lane, ack: bool)
    requires LaneOk(l) && l.unread == [] && |l.emitted| == |l.slots|
    ensures (PublishStatus(l, Confirmed([ack])) == Nil <==> ack)
    ensures AfterPublish(l, Confirmed([ack])).slots[|l.slots|] == Got(|l.slots|, ack)
  {
    LoneCallReadsOldest(l, [ack]);
  }
}
