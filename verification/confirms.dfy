// Publisher confirms on the sixteen AMQP channels of an egress
// (internal/connector/rabbitmq/exgress.go:15-34, 74-130).
// A publish picks a lane by round robin, sends on its channel, and then reads the next unread
// confirmation of that channel, or gives up. Any number of callers may be in Publish at once.
module Confirms {
  import opened Prelude

  const POOL: nat := 16
  const CONFIRM_BUFFER: nat := 2048
  const WRAP: int := 0x1_0000_0000_0000_0000

  newtype Uint64 = n: int | 0 <= n < WRAP

  // ---------- One lane ----------

  /** What became of the k-th message sent on a lane. Got(i, ack): its caller read the i-th confirmation. */
  datatype Fate = Awaiting | Got(index: nat, ack: bool) | GaveUp

  /** slots: messages in send order; emitted: confirmations in broker order; unread: the Go channel's content. */
  datatype Lane = Lane(slots: seq<Fate>, emitted: seq<bool>, unread: seq<bool>)

  const NEW_LANE: Lane := Lane([], [], [])

  function LaneSend(l: Lane): Lane {
    l.(slots := l.slots + [Awaiting])
  }

  /** The broker confirms the messages of a lane in the order they were sent. */
  predicate CanEmit(l: Lane) {
    |l.emitted| < |l.slots| && |l.unread| < CONFIRM_BUFFER
  }

  function LaneEmit(l: Lane, ack: bool): Lane
    requires CanEmit(l)
  {
    l.(emitted := l.emitted + [ack], unread := l.unread + [ack])
  }

  predicate CanConsume(l: Lane, k: nat) {
    k < |l.slots| && l.slots[k] == Awaiting && l.unread != [] && |l.unread| <= |l.emitted|
  }

  function LaneConsume(l: Lane, k: nat): Lane
    requires CanConsume(l, k)
  {
    l.(slots := l.slots[k := Got(|l.emitted| - |l.unread|, l.unread[0])], unread := l.unread[1..])
  }

  predicate CanGiveUp(l: Lane, k: nat) {
    k < |l.slots| && l.slots[k] == Awaiting
  }

  function LaneGiveUp(l: Lane, k: nat): Lane
    requires CanGiveUp(l, k)
  {
    l.(slots := l.slots[k := GaveUp])
  }

  // ---------- Counting, with no assumption on the callers ----------

  function GotCost(f: Fate): nat { if f.Got? then 1 else 0 }
  function NilCost(f: Fate): nat { if f.Got? && f.ack then 1 else 0 }
  function AckCost(ack: bool): nat { if ack then 1 else 0 }
  function GaveUpCost(f: Fate): nat { if f.GaveUp? then 1 else 0 }
  function AwaitingCost(f: Fate): nat { if f.Awaiting? then 1 else 0 }

  ghost function Acks(confs: seq<bool>): nat { Sum(AckCost, confs) }

  /** Calls on this lane that returned nil. */
  ghost function NilReturns(l: Lane): nat { Sum(NilCost, l.slots) }

  ghost predicate LaneOk(l: Lane) {
    && |l.unread| <= CONFIRM_BUFFER
    && |l.unread| <= |l.emitted| <= |l.slots|
    && l.unread == l.emitted[|l.emitted| - |l.unread|..]
    && Sum(GotCost, l.slots) + |l.unread| == |l.emitted|
    && NilReturns(l) + Acks(l.unread) == Acks(l.emitted)
    && (forall k :: 0 <= k < |l.slots| && l.slots[k].Got? ==>
          l.slots[k].index < |l.emitted| - |l.unread| && l.slots[k].ack == l.emitted[l.slots[k].index])
    && (forall j, k :: 0 <= j < k < |l.slots| && l.slots[j].Got? && l.slots[k].Got? ==>
          l.slots[j].index != l.slots[k].index)
  }

  lemma SendOk(l: Lane)
    requires LaneOk(l)
    ensures LaneOk(LaneSend(l))
  {
    SumAppend(GotCost, l.slots, Awaiting);
    SumAppend(NilCost, l.slots, Awaiting);
  }

  lemma EmitOk(l: Lane, ack: bool)
    requires LaneOk(l) && CanEmit(l)
    ensures LaneOk(LaneEmit(l, ack))
  {
    SumAppend(AckCost, l.emitted, ack);
    SumAppend(AckCost, l.unread, ack);
  }

  lemma {:induction false} AcksHead(confs: seq<bool>)
    requires confs != []
    ensures Acks(confs) == AckCost(confs[0]) + Acks(confs[1..])
  {
    var n := |confs| - 1;
    if n > 0 {
      AcksHead(confs[..n]);
      assert confs[..n][1..] == confs[1..][..n - 1];
    }
  }

  lemma ConsumeOk(l: Lane, k: nat)
    requires LaneOk(l) && CanConsume(l, k)
    ensures LaneOk(LaneConsume(l, k))
  {
    var f := LaneConsume(l, k).slots[k];
    SumUpdate(GotCost, l.slots, k, f);
    SumUpdate(NilCost, l.slots, k, f);
    AcksHead(l.unread);
  }

  lemma GiveUpOk(l: Lane, k: nat)
    requires LaneOk(l) && CanGiveUp(l, k)
    ensures LaneOk(LaneGiveUp(l, k))
  {
    SumUpdate(GotCost, l.slots, k, GaveUp);
    SumUpdate(NilCost, l.slots, k, GaveUp);
  }

  // ---------- One caller at a time: the confirm lag ----------

  /** Give-ups among the messages sent before the k-th. */
  ghost function Lag(l: Lane, k: nat): nat
    requires k <= |l.slots|
  {
    Sum(GaveUpCost, l.slots[..k])
  }

  /** Only the message sent last can still be waiting: what one caller at a time amounts to. */
  ghost predicate Sequential(l: Lane) {
    forall k :: 0 <= k < |l.slots| - 1 ==> !l.slots[k].Awaiting?
  }

  /** Each call that read a confirmation read the one of the message `Lag` places before its own. */
  ghost predicate LagOk(l: Lane) {
    && Sequential(l)
    && forall k: nat :: k < |l.slots| && l.slots[k].Got? ==> l.slots[k].index + Lag(l, k) == k
  }

  lemma {:induction false} FatesAddUp(s: seq<Fate>)
    ensures Sum(GotCost, s) + Sum(GaveUpCost, s) + Sum(AwaitingCost, s) == |s|
  {
    if s != [] { FatesAddUp(s[..|s| - 1]); }
  }

  lemma {:induction false} NoneAwaiting(s: seq<Fate>)
    requires forall k :: 0 <= k < |s| ==> !s[k].Awaiting?
    ensures Sum(AwaitingCost, s) == 0
  {
    if s != [] { NoneAwaiting(s[..|s| - 1]); }
  }

  lemma LagSend(l: Lane)
    requires LagOk(l) && (l.slots == [] || !l.slots[|l.slots| - 1].Awaiting?)
    ensures LagOk(LaneSend(l))
  {
    var t := LaneSend(l);
    forall k: nat | k < |t.slots| && t.slots[k].Got? ensures t.slots[k].index + Lag(t, k) == k {
      assert k < |l.slots| && t.slots[k] == l.slots[k];
      SameLag(l, t, k);
    }
  }

  lemma SameLag(l: Lane, t: Lane, k: nat)
    requires k <= |l.slots| && k <= |t.slots| && forall j :: 0 <= j < k ==> t.slots[j] == l.slots[j]
    ensures Lag(t, k) == Lag(l, k)
  {
    assert t.slots[..k] == l.slots[..k];
  }

  /** A call that ends, by confirmation or by giving up, does not disturb the earlier ones. */
  lemma LagEnd(l: Lane, f: Fate)
    requires LagOk(l) && l.slots != [] && l.slots[|l.slots| - 1].Awaiting? && !f.Awaiting?
    requires f.Got? ==> f.index + Lag(l, |l.slots| - 1) == |l.slots| - 1
    ensures LagOk(l.(slots := l.slots[|l.slots| - 1 := f]))
  {
    var n: nat := |l.slots| - 1;
    var t := l.(slots := l.slots[n := f]);
    forall k: nat | k < |t.slots| && t.slots[k].Got? ensures t.slots[k].index + Lag(t, k) == k {
      SameLag(l, t, k);
    }
  }

  /** While only the last message is waited for, what has been read and given up accounts for all before it. */
  lemma NextRead(l: Lane)
    requires LaneOk(l) && Sequential(l) && l.slots != [] && l.slots[|l.slots| - 1].Awaiting?
    ensures |l.emitted| - |l.unread| + Lag(l, |l.slots| - 1) == |l.slots| - 1
  {
    var before := l.slots[..|l.slots| - 1];
    FatesAddUp(before);
    NoneAwaiting(before);
  }

  lemma LagConsume(l: Lane, k: nat)
    requires LaneOk(l) && LagOk(l) && CanConsume(l, k)
    ensures LagOk(LaneConsume(l, k))
  {
    NextRead(l);
    var f := LaneConsume(l, k).slots[k];
    LagEnd(l, f);
    SameSlots(l.(slots := l.slots[k := f]), LaneConsume(l, k));
  }

  lemma SameSlots(l: Lane, t: Lane)
    requires LagOk(l) && t.slots == l.slots
    ensures LagOk(t)
  {
    forall k: nat | k < |t.slots| ensures Lag(t, k) == Lag(l, k) {}
  }

  lemma LagGiveUp(l: Lane, k: nat)
    requires LagOk(l) && CanGiveUp(l, k)
    ensures LagOk(LaneGiveUp(l, k))
  {
    LagEnd(l, GaveUp);
  }

  // ---------- Runs of one lane ----------

  datatype LaneAction = ASend | AEmit(ack: bool) | AConsume(k: nat) | AGiveUp(k: nat)

  predicate LaneEnabled(l: Lane, a: LaneAction) {
    match a
    case ASend => true
    case AEmit(_) => CanEmit(l)
    case AConsume(k) => CanConsume(l, k)
    case AGiveUp(k) => CanGiveUp(l, k)
  }

  function LaneStep(l: Lane, a: LaneAction): Lane
    requires LaneEnabled(l, a)
  {
    match a
    case ASend => LaneSend(l)
    case AEmit(ack) => LaneEmit(l, ack)
    case AConsume(k) => LaneConsume(l, k)
    case AGiveUp(k) => LaneGiveUp(l, k)
  }

  ghost predicate IsLaneRun(tr: seq<Lane>, acts: seq<LaneAction>) {
    && |tr| == |acts| + 1 && tr[0] == NEW_LANE
    && forall i: nat {:trigger acts[i]} :: i < |acts| ==>
         LaneEnabled(tr[i], acts[i]) && tr[i + 1] == LaneStep(tr[i], acts[i])
  }

  /** No message is sent on the lane while an earlier one is still awaited. */
  ghost predicate OneCallerAtATime(tr: seq<Lane>, acts: seq<LaneAction>)
    requires |tr| == |acts| + 1
  {
    forall i: nat, k: nat {:trigger acts[i], tr[i].slots[k]} ::
      i < |acts| && acts[i].ASend? && k < |tr[i].slots| ==> !tr[i].slots[k].Awaiting?
  }

  lemma LaneStepOk(l: Lane, a: LaneAction)
    requires LaneOk(l) && LaneEnabled(l, a)
    ensures LaneOk(LaneStep(l, a))
  {
    match a {
      case ASend => SendOk(l);
      case AEmit(ack) => EmitOk(l, ack);
      case AConsume(k) => ConsumeOk(l, k);
      case AGiveUp(k) => GiveUpOk(l, k);
    }
  }

  lemma {:induction false} LaneRunOk(tr: seq<Lane>, acts: seq<LaneAction>, n: nat)
    requires IsLaneRun(tr, acts) && n <= |acts|
    ensures LaneOk(tr[n])
  {
    if n > 0 {
      LaneRunOk(tr, acts, n - 1);
      var a := acts[n - 1];
      LaneStepOk(tr[n - 1], a);
    }
  }

  lemma {:induction false} LagRun(tr: seq<Lane>, acts: seq<LaneAction>, n: nat)
    requires IsLaneRun(tr, acts) && OneCallerAtATime(tr, acts) && n <= |acts|
    ensures LagOk(tr[n])
  {
    if n > 0 {
      LagRun(tr, acts, n - 1);
      LaneRunOk(tr, acts, n - 1);
      var a := acts[n - 1];
      var l := tr[n - 1];
      match a {
        case ASend =>
          assert forall k: nat :: k < |l.slots| ==> !l.slots[k].Awaiting?;
          LagSend(l);
        case AEmit(ack) =>
          assert LaneEmit(l, ack).slots == l.slots;
          assert forall k: nat :: k <= |l.slots| ==> Lag(LaneEmit(l, ack), k) == Lag(l, k);
        case AConsume(k) => LagConsume(l, k);
        case AGiveUp(k) => LagGiveUp(l, k);
      }
    }
  }

  /**
   * Confirm lag: on a lane used by one caller at a time, the call for the k-th message reads the
   * confirmation of the message t places earlier, where t counts the earlier messages whose callers gave
   * up; so it reads its own exactly when nobody before it gave up.
   */
  lemma ConfirmLag(tr: seq<Lane>, acts: seq<LaneAction>, n: nat, k: nat)
    requires IsLaneRun(tr, acts) && OneCallerAtATime(tr, acts) && n <= |acts|
    requires k < |tr[n].slots| && tr[n].slots[k].Got?
    ensures var l := tr[n];
      && Lag(l, k) <= k && k - Lag(l, k) < |l.emitted|
      && l.slots[k] == Got(k - Lag(l, k), l.emitted[k - Lag(l, k)])
      && (l.slots[k].index == k <==> forall j :: 0 <= j < k ==> !l.slots[j].GaveUp?)
  {
    LagRun(tr, acts, n);
    LaneRunOk(tr, acts, n);
    LagMeaning(tr[n], k);
  }

  lemma LagMeaning(l: Lane, k: nat)
    requires LaneOk(l) && LagOk(l) && k < |l.slots| && l.slots[k].Got?
    ensures Lag(l, k) <= k && k - Lag(l, k) < |l.emitted|
    ensures l.slots[k] == Got(k - Lag(l, k), l.emitted[k - Lag(l, k)])
    ensures l.slots[k].index == k <==> forall j :: 0 <= j < k ==> !l.slots[j].GaveUp?
  {
    LagZero(l.slots[..k]);
    assert forall j :: 0 <= j < k ==> l.slots[..k][j] == l.slots[j];
  }

  lemma {:induction false} LagZero(s: seq<Fate>)
    ensures Sum(GaveUpCost, s) == 0 <==> forall j :: 0 <= j < |s| ==> !s[j].GaveUp?
  {
    if s != [] { LagZero(s[..|s| - 1]); }
  }

  /**
   * Confirm counting, whatever the interleaving of callers: nil returns never exceed the acks the broker
   * emitted on the lane, and unread confirmations are exactly the emitted ones no call has read.
   */
  lemma ConfirmCounting(tr: seq<Lane>, acts: seq<LaneAction>, n: nat)
    requires IsLaneRun(tr, acts) && n <= |acts|
    ensures NilReturns(tr[n]) == Acks(tr[n].emitted) - Acks(tr[n].unread) <= Acks(tr[n].emitted)
    ensures |tr[n].unread| == |tr[n].emitted| - Sum(GotCost, tr[n].slots)
  {
    LaneRunOk(tr, acts, n);
  }

  /** Confirmations of calls that gave up pile up unread, as many as the channel holds. */
  lemma {:induction false} BufferFills(n: nat) returns (tr: seq<Lane>, acts: seq<LaneAction>)
    requires n <= 2048
    ensures IsLaneRun(tr, acts) && |tr[|acts|].unread| == n && |tr[|acts|].emitted| == |tr[|acts|].slots| == n
  {
    tr, acts := [NEW_LANE], [];
    if n > 0 {
      tr, acts := BufferFills(n - 1);
      tr, acts := ExtendLaneRun(tr, acts, ASend);
      tr, acts := ExtendLaneRun(tr, acts, AGiveUp(n - 1));
      tr, acts := ExtendLaneRun(tr, acts, AEmit(true));
    }
  }

  lemma ExtendLaneRun(tr: seq<Lane>, acts: seq<LaneAction>, a: LaneAction)
    returns (tr': seq<Lane>, acts': seq<LaneAction>)
    requires IsLaneRun(tr, acts) && LaneEnabled(tr[|acts|], a)
    ensures IsLaneRun(tr', acts') && |acts'| == |acts| + 1 && tr'[|acts'|] == LaneStep(tr[|acts|], a)
  {
    tr', acts' := tr + [LaneStep(tr[|acts|], a)], acts + [a];
    forall i: nat | i < |acts'| ensures LaneEnabled(tr'[i], acts'[i]) && tr'[i + 1] == LaneStep(tr'[i], acts'[i]) {
      if i < |acts| { assert acts'[i] == acts[i]; }
    }
  }

  /** Two overlapping callers can swap confirmations: the one whose message was nacked returns nil. */
  lemma OverlapSwapsConfirms() returns (tr: seq<Lane>, acts: seq<LaneAction>)
    ensures IsLaneRun(tr, acts) && |acts| == 6
    ensures tr[6].emitted == [true, false] && tr[6].slots == [Got(1, false), Got(0, true)]
  {
    acts := [ASend, ASend, AEmit(true), AEmit(false), AConsume(1), AConsume(0)];
    tr := [NEW_LANE,
           Lane([Awaiting], [], []),
           Lane([Awaiting, Awaiting], [], []),
           Lane([Awaiting, Awaiting], [true], [true]),
           Lane([Awaiting, Awaiting], [true, false], [true, false]),
           Lane([Awaiting, Got(0, true)], [true, false], [false]),
           Lane([Got(1, false), Got(0, true)], [true, false], [])];
  }

  /** After one give-up the next call of the lane reads the confirmation of the call before it. */
  lemma GiveUpShiftsConfirms() returns (tr: seq<Lane>, acts: seq<LaneAction>)
    ensures IsLaneRun(tr, acts) && OneCallerAtATime(tr, acts) && |acts| == 5
    ensures tr[5].slots == [GaveUp, Got(0, true)] && tr[5].unread == []
  {
    acts := [ASend, AGiveUp(0), AEmit(true), ASend, AConsume(1)];
    tr := [NEW_LANE,
           Lane([Awaiting], [], []),
           Lane([GaveUp], [], []),
           Lane([GaveUp], [true], [true]),
           Lane([GaveUp, Awaiting], [true], [true]),
           Lane([GaveUp, Got(0, true)], [true], [])];
  }
}
