// Exactly when a call of Publish can read the confirmation of another message
// (internal/connector/rabbitmq/exgress.go:79-130): on one lane, on the whole egress, and as runs of the egress
// that start from its first pick.
module Misread {
  import opened Prelude
  import opened Confirms
  import opened Egress

  // ---------- One lane ----------

  /** A run of one lane from any of its states, in which no further message is sent. */
  ghost predicate Continues(l: Lane, tr: seq<Lane>, acts: seq<LaneAction>) {
    && |tr| == |acts| + 1 && tr[0] == l
    && forall i: nat {:trigger acts[i]} :: i < |acts| ==>
         !acts[i].ASend? && LaneEnabled(tr[i], acts[i]) && tr[i + 1] == LaneStep(tr[i], acts[i])
  }

  /** The call for the k-th message has read a confirmation other than that message's. */
  predicate MisreadAt(l: Lane, k: nat) {
    k < |l.slots| && l.slots[k].Got? && l.slots[k].index != k
  }

  /** Some continuation without further sends lets the call for message k misread. */
  ghost predicate CanMisread(l: Lane, k: nat) {
    exists tr: seq<Lane>, acts: seq<LaneAction> :: Continues(l, tr, acts) && MisreadAt(tr[|acts|], k)
  }

  ghost predicate OthersDone(l: Lane, k: nat) {
    forall j: nat :: j < |l.slots| && j != k ==> !l.slots[j].Awaiting?
  }

  /** Nobody else is waiting on the lane, and as many confirmations have been read as messages precede k. */
  ghost predicate NextIsOwn(l: Lane, k: nat) {
    OthersDone(l, k) && Sum(GotCost, l.slots) == k
  }

  /** The call waits for its own confirmation and nothing else, or has ended without misreading. */
  ghost predicate Safe(l: Lane, k: nat) {
    && k < |l.slots|
    && match l.slots[k]
       case Awaiting => NextIsOwn(l, k)
       case Got(index, _) => index == k
       case GaveUp => true
  }

  lemma SafeStep(l: Lane, a: LaneAction, k: nat)
    requires LaneOk(l) && LaneEnabled(l, a) && !a.ASend? && Safe(l, k)
    ensures Safe(LaneStep(l, a), k)
  {
    if a.AGiveUp? && a.k != k {
      SumUpdate(GotCost, l.slots, a.k, GaveUp);
    }
  }

  lemma {:induction false} SafeRun(l: Lane, tr: seq<Lane>, acts: seq<LaneAction>, k: nat, n: nat)
    requires LaneOk(l) && Continues(l, tr, acts) && Safe(l, k) && n <= |acts|
    ensures LaneOk(tr[n]) && Safe(tr[n], k)
  {
    if n > 0 {
      SafeRun(l, tr, acts, k, n - 1);
      var a := acts[n - 1];
      LaneStepOk(tr[n - 1], a);
      SafeStep(tr[n - 1], a, k);
    }
  }

  lemma StepMisreads(l: Lane, a: LaneAction, k: nat)
    requires LaneEnabled(l, a) && !a.ASend? && CanMisread(LaneStep(l, a), k)
    ensures CanMisread(l, k)
  {
    var tr: seq<Lane>, acts: seq<LaneAction> :| Continues(LaneStep(l, a), tr, acts) && MisreadAt(tr[|acts|], k);
    PrependLaneStep(l, a, tr, acts);
    assert MisreadAt(([l] + tr)[|[a] + acts|], k);
  }

  lemma PrependLaneStep(l: Lane, a: LaneAction, tr: seq<Lane>, acts: seq<LaneAction>)
    requires LaneEnabled(l, a) && !a.ASend? && Continues(LaneStep(l, a), tr, acts)
    ensures Continues(l, [l] + tr, [a] + acts)
  {
    var tr', acts' := [l] + tr, [a] + acts;
    forall i: nat | i < |acts'|
      ensures !acts'[i].ASend? && LaneEnabled(tr'[i], acts'[i]) && tr'[i + 1] == LaneStep(tr'[i], acts'[i])
    {
      if i > 0 { assert acts'[i] == acts[i - 1]; }
    }
  }

  /** A waiting message leaves at least one confirmation unread or still to come. */
  lemma {:induction false} GotLeavesRoom(s: seq<Fate>, k: nat)
    requires k < |s| && s[k].Awaiting?
    ensures Sum(GotCost, s) < |s|
    ensures forall j: nat :: j < |s| && j != k && s[j].Awaiting? ==> Sum(GotCost, s) + 1 < |s|
  {
    var n := |s| - 1;
    FatesAddUp(s);
    SumUpdate(AwaitingCost, s, k, GaveUp);
    forall j: nat | j < |s| && j != k && s[j].Awaiting? ensures Sum(GotCost, s) + 1 < |s| {
      SumUpdate(AwaitingCost, s[k := GaveUp], j, GaveUp);
    }
  }

  /** The call reads next, at a moment when the next confirmation is not its own. */
  lemma ReadNextMisreads(l: Lane, k: nat)
    requires LaneOk(l) && k < |l.slots| && l.slots[k].Awaiting? && Sum(GotCost, l.slots) != k
    ensures CanMisread(l, k)
  {
    if l.unread == [] {
      GotLeavesRoom(l.slots, k);
      EmitOk(l, true);
      ReadUnreadMisreads(LaneEmit(l, true), k);
      StepMisreads(l, AEmit(true), k);
    } else {
      ReadUnreadMisreads(l, k);
    }
  }

  lemma ReadUnreadMisreads(l: Lane, k: nat)
    requires LaneOk(l) && k < |l.slots| && l.slots[k].Awaiting? && Sum(GotCost, l.slots) != k && l.unread != []
    ensures CanMisread(l, k)
  {
    var t := LaneConsume(l, k);
    assert MisreadAt(t, k);
    assert Continues(t, [t], []);
    StepMisreads(l, AConsume(k), k);
  }

  /** Another call reads the confirmation that is k's own, and k reads the one after it. */
  lemma ReadAfterOtherMisreads(l: Lane, k: nat, j: nat)
    requires LaneOk(l) && k < |l.slots| && l.slots[k].Awaiting? && Sum(GotCost, l.slots) == k
    requires j < |l.slots| && j != k && l.slots[j].Awaiting? && l.unread != []
    ensures CanMisread(l, k)
  {
    var t := LaneConsume(l, j);
    ConsumeOk(l, j);
    SumUpdate(GotCost, l.slots, j, t.slots[j]);
    ReadNextMisreads(t, k);
    StepMisreads(l, AConsume(j), k);
  }

  lemma OtherFirstMisreads(l: Lane, k: nat, j: nat)
    requires LaneOk(l) && k < |l.slots| && l.slots[k].Awaiting? && Sum(GotCost, l.slots) == k
    requires j < |l.slots| && j != k && l.slots[j].Awaiting?
    ensures CanMisread(l, k)
  {
    if l.unread == [] {
      GotLeavesRoom(l.slots, k);
      EmitOk(l, true);
      ReadAfterOtherMisreads(LaneEmit(l, true), k, j);
      StepMisreads(l, AEmit(true), k);
    } else {
      ReadAfterOtherMisreads(l, k, j);
    }
  }

  /**
   * Without further sends a waiting call can read another message's confirmation exactly unless it is the only
   * one waiting on its lane and exactly the confirmations of the messages before its own have been read.
   */
  lemma MisreadPossibleIff(l: Lane, k: nat)
    requires LaneOk(l) && k < |l.slots| && l.slots[k].Awaiting?
    ensures CanMisread(l, k) <==> !NextIsOwn(l, k)
  {
    if NextIsOwn(l, k) {
      if CanMisread(l, k) {
        var tr: seq<Lane>, acts: seq<LaneAction> :| Continues(l, tr, acts) && MisreadAt(tr[|acts|], k);
        SafeRun(l, tr, acts, k, |acts|);
        assert false;
      }
    } else if Sum(GotCost, l.slots) != k {
      ReadNextMisreads(l, k);
    } else {
      var j: nat :| j < |l.slots| && j != k && l.slots[j].Awaiting?;
      OtherFirstMisreads(l, k, j);
    }
  }

  /** One more message sent on the lane meanwhile is always enough. */
  lemma OverlapMisreads(l: Lane, k: nat)
    requires LaneOk(l) && k < |l.slots| && l.slots[k].Awaiting?
    ensures CanMisread(LaneSend(l), k)
  {
    SendOk(l);
    assert LaneSend(l).slots[|l.slots|].Awaiting?;
    MisreadPossibleIff(LaneSend(l), k);
  }

  // ---------- The whole egress ----------

  /** A run of the egress in which no further message is sent; calls may still pick lanes or fail to send. */
  ghost predicate EContinues(e: EState, tr: seq<EState>, acts: seq<EAction>) {
    && |tr| == |acts| + 1 && tr[0] == e
    && forall i: nat {:trigger acts[i]} :: i < |acts| ==>
         !acts[i].SendOn? && EEnabled(tr[i], acts[i]) && tr[i + 1] == EStep(tr[i], acts[i])
  }

  ghost predicate ECanMisread(e: EState, l: nat, k: nat) {
    exists tr: seq<EState>, acts: seq<EAction> ::
      EContinues(e, tr, acts) && l < |tr[|acts|].lanes| && MisreadAt(tr[|acts|].lanes[l], k)
  }

  /** What a step of the egress other than a send does to one lane. */
  function OnLane(e: EState, a: EAction, l: nat): Option<LaneAction> {
    match a
    case Pick => None
    case SendFails(_, _) => None
    case SendOn(_) => None
    case Emit(m, ack) => if m == l then Some(AEmit(ack)) else None
    case Consume(k) =>
      if k < |e.calls| && e.calls[k].stage.Waiting? && e.calls[k].lane == l
      then Some(AConsume(e.calls[k].stage.slot)) else None
    case GiveUp(k, _) =>
      if k < |e.calls| && e.calls[k].stage.Waiting? && e.calls[k].lane == l
      then Some(AGiveUp(e.calls[k].stage.slot)) else None
  }

  lemma StepOnLane(e: EState, a: EAction, l: nat)
    requires EEnabled(e, a) && !a.SendOn? && l < |e.lanes|
    ensures |EStep(e, a).lanes| == |e.lanes|
    ensures match OnLane(e, a, l)
            case None => EStep(e, a).lanes[l] == e.lanes[l]
            case Some(b) => !b.ASend? && LaneEnabled(e.lanes[l], b) && EStep(e, a).lanes[l] == LaneStep(e.lanes[l], b)
  {
  }

  /** A safe call stays safe whatever the callers of all lanes do, short of sending. */
  lemma {:induction false} ESafeRun(e: EState, tr: seq<EState>, acts: seq<EAction>, l: nat, k: nat, n: nat)
    requires EContinues(e, tr, acts) && l < |e.lanes| && LaneOk(e.lanes[l]) && Safe(e.lanes[l], k) && n <= |acts|
    ensures l < |tr[n].lanes| && LaneOk(tr[n].lanes[l]) && Safe(tr[n].lanes[l], k)
  {
    if n > 0 {
      ESafeRun(e, tr, acts, l, k, n - 1);
      var a := acts[n - 1];
      StepOnLane(tr[n - 1], a, l);
      SafeStepMaybe(tr[n - 1].lanes[l], OnLane(tr[n - 1], a, l), tr[n].lanes[l], k);
    }
  }

  lemma SafeStepMaybe(l: Lane, b: Option<LaneAction>, t: Lane, k: nat)
    requires LaneOk(l) && Safe(l, k)
    requires match b case None => t == l case Some(a) => !a.ASend? && LaneEnabled(l, a) && t == LaneStep(l, a)
    ensures LaneOk(t) && Safe(t, k)
  {
    if b.Some? {
      LaneStepOk(l, b.value);
      SafeStep(l, b.value, k);
    }
  }

  lemma EStepMisreads(e: EState, a: EAction, l: nat, k: nat)
    requires EEnabled(e, a) && !a.SendOn? && ECanMisread(EStep(e, a), l, k)
    ensures ECanMisread(e, l, k)
  {
    var tr: seq<EState>, acts: seq<EAction> :|
      EContinues(EStep(e, a), tr, acts) && l < |tr[|acts|].lanes| && MisreadAt(tr[|acts|].lanes[l], k);
    PrependEStep(e, a, tr, acts);
    assert MisreadAt(([e] + tr)[|[a] + acts|].lanes[l], k);
  }

  lemma PrependEStep(e: EState, a: EAction, tr: seq<EState>, acts: seq<EAction>)
    requires EEnabled(e, a) && !a.SendOn? && EContinues(EStep(e, a), tr, acts)
    ensures EContinues(e, [e] + tr, [a] + acts)
  {
    var tr', acts' := [e] + tr, [a] + acts;
    forall i: nat | i < |acts'|
      ensures !acts'[i].SendOn? && EEnabled(tr'[i], acts'[i]) && tr'[i + 1] == EStep(tr'[i], acts'[i])
    {
      if i > 0 { assert acts'[i] == acts[i - 1]; }
    }
  }

  /** The step of the egress that makes a given lane take a given step. */
  lemma LaneStepLifts(e: EState, l: nat, b: LaneAction) returns (a: EAction)
    requires LinksOk(e) && l < |e.lanes| && LaneEnabled(e.lanes[l], b) && !b.ASend?
    ensures !a.SendOn? && EEnabled(e, a) && |EStep(e, a).lanes| == |e.lanes|
    ensures EStep(e, a).lanes[l] == LaneStep(e.lanes[l], b)
  {
    match b {
      case AEmit(ack) => a := Emit(l, ack);
      case AConsume(j) =>
        assert SlotOwned(e, l, j);
        var d: nat :| d < |e.calls| && e.calls[d] == Caller(l, Waiting(j));
        a := Consume(d);
      case AGiveUp(j) =>
        assert SlotOwned(e, l, j);
        var d: nat :| d < |e.calls| && e.calls[d] == Caller(l, Waiting(j));
        a := GiveUp(d, "publish confirm timeout");
    }
  }

  /** Whatever one lane can do, the egress can do on that lane. */
  lemma {:induction false} MisreadLifts(e: EState, l: nat, k: nat, tr: seq<Lane>, acts: seq<LaneAction>)
    requires LinksOk(e) && l < |e.lanes|
    requires Continues(e.lanes[l], tr, acts) && MisreadAt(tr[|acts|], k)
    ensures ECanMisread(e, l, k)
    decreases |acts|
  {
    if acts == [] {
      var still: seq<EAction> := [];
      assert EContinues(e, [e], still) && MisreadAt([e][|still|].lanes[l], k);
    } else {
      var b := acts[0];
      var a := LaneStepLifts(e, l, b);
      LinksStep(e, a);
      TailContinues(e.lanes[l], tr, acts);
      MisreadLifts(EStep(e, a), l, k, tr[1..], acts[1..]);
      EStepMisreads(e, a, l, k);
    }
  }

  lemma TailContinues(l: Lane, tr: seq<Lane>, acts: seq<LaneAction>)
    requires Continues(l, tr, acts) && acts != []
    ensures LaneEnabled(l, acts[0]) && Continues(LaneStep(l, acts[0]), tr[1..], acts[1..])
    ensures tr[1..][|acts[1..]|] == tr[|acts|]
  {
    forall i: nat | i < |acts[1..]|
      ensures !acts[1..][i].ASend? && LaneEnabled(tr[1..][i], acts[1..][i])
      ensures tr[1..][i + 1] == LaneStep(tr[1..][i], acts[1..][i])
    {
      assert acts[1..][i] == acts[i + 1];
    }
  }

  /** No other call of the egress waits on this call's lane, and its own confirmation is the next to be read. */
  ghost predicate AloneAndNext(e: EState, c: nat)
    requires c < |e.calls| && e.calls[c].lane < |e.lanes| && e.calls[c].stage.Waiting?
  {
    && (forall d: nat :: d < |e.calls| && d != c && e.calls[d].lane == e.calls[c].lane ==> !e.calls[d].stage.Waiting?)
    && Sum(GotCost, e.lanes[e.calls[c].lane].slots) == e.calls[c].stage.slot
  }

  lemma AloneIsOthersDone(e: EState, c: nat)
    requires LinksOk(e) && c < |e.calls| && e.calls[c].stage.Waiting?
    ensures e.calls[c].lane < |e.lanes|
    ensures AloneAndNext(e, c) <==> NextIsOwn(e.lanes[e.calls[c].lane], e.calls[c].stage.slot)
  {
    var l, k := e.calls[c].lane, e.calls[c].stage.slot;
    assert CallerOk(e, c);
    if AloneAndNext(e, c) {
      forall j: nat | j < |e.lanes[l].slots| && j != k ensures !e.lanes[l].slots[j].Awaiting? {
        assert e.lanes[l].slots[j].Awaiting? ==> SlotOwned(e, l, j);
      }
    }
    if OthersDone(e.lanes[l], k) {
      forall d: nat | d < |e.calls| && d != c && e.calls[d].lane == l ensures !e.calls[d].stage.Waiting? {
        if e.calls[d].stage.Waiting? {
          assert CallerOk(e, d);
          assert SameLaneWaiting(e, c, d) && SameLaneWaiting(e, d, c);
        }
      }
    }
  }

  /**
   * On the egress, a waiting call can read another message's confirmation without anybody sending again exactly
   * unless it is alone on its lane and its own confirmation is the next to be read.
   */
  lemma EMisreadPossibleIff(e: EState, c: nat)
    requires LanesOk(e) && LinksOk(e) && c < |e.calls| && e.calls[c].stage.Waiting?
    ensures e.calls[c].lane < |e.lanes|
    ensures ECanMisread(e, e.calls[c].lane, e.calls[c].stage.slot) <==> !AloneAndNext(e, c)
  {
    var l, k := e.calls[c].lane, e.calls[c].stage.slot;
    assert CallerOk(e, c);
    AloneIsOthersDone(e, c);
    MisreadPossibleIff(e.lanes[l], k);
    if AloneAndNext(e, c) {
      if ECanMisread(e, l, k) {
        var tr: seq<EState>, acts: seq<EAction> :|
          EContinues(e, tr, acts) && l < |tr[|acts|].lanes| && MisreadAt(tr[|acts|].lanes[l], k);
        ESafeRun(e, tr, acts, l, k, |acts|);
        assert false;
      }
    } else {
      var tr: seq<Lane>, acts: seq<LaneAction> :| Continues(e.lanes[l], tr, acts) && MisreadAt(tr[|acts|], k);
      MisreadLifts(e, l, k, tr, acts);
    }
  }

  // ---------- The bad runs, from the first pick on ----------

  /** Some run of the egress leads from s to e; if `windowed`, no call in it outstays sixteen later picks. */
  ghost predicate Leads(s: EState, e: EState, windowed: bool) {
    exists tr: seq<EState>, acts: seq<EAction> ::
      IsERunFrom(s, tr, acts) && tr[|acts|] == e && (windowed ==> forall x :: x in tr ==> Windowed(x))
  }

  ghost predicate Reached(start: Counter, e: EState, windowed: bool) {
    Leads(EInit(start), e, windowed)
  }

  lemma LeadsStep(s: EState, e: EState, windowed: bool, a: EAction)
    requires Leads(s, e, windowed) && EEnabled(e, a) && (windowed ==> Windowed(EStep(e, a)))
    ensures Leads(s, EStep(e, a), windowed)
  {
    var tr: seq<EState>, acts: seq<EAction> :|
      IsERunFrom(s, tr, acts) && tr[|acts|] == e && (windowed ==> forall x :: x in tr ==> Windowed(x));
    var tr', acts' := tr + [EStep(e, a)], acts + [a];
    forall i: nat | i < |acts'| ensures EEnabled(tr'[i], acts'[i]) && tr'[i + 1] == EStep(tr'[i], acts'[i]) {
      if i < |acts| { assert acts'[i] == acts[i]; }
    }
    assert IsERunFrom(s, tr', acts') && tr'[|acts'|] == EStep(e, a);
  }

  lemma ReachedStep(start: Counter, e: EState, windowed: bool, a: EAction)
    requires Reached(start, e, windowed) && EEnabled(e, a) && (windowed ==> Windowed(EStep(e, a)))
    ensures Reached(start, EStep(e, a), windowed)
  {
    LeadsStep(EInit(start), e, windowed, a);
  }

  lemma ReachedInit(start: Counter, windowed: bool)
    ensures Reached(start, EInit(start), windowed)
  {
    LeadsNowhere(EInit(start), windowed);
  }

  lemma LeadsNowhere(s: EState, windowed: bool)
    requires windowed ==> Windowed(s)
    ensures Leads(s, s, windowed)
  {
    var none: seq<EAction> := [];
    assert IsERunFrom(s, [s], none) && [s][|none|] == s;
  }

  lemma ReachedRotates(start: Counter, e: EState, windowed: bool)
    requires Reached(start, e, windowed)
    ensures RotationOk(e) && e.start == start && |e.lanes| == POOL
    ensures forall k: nat :: k < |e.calls| ==> e.calls[k].lane < POOL
  {
    var tr: seq<EState>, acts: seq<EAction> :| IsERunFrom(EInit(start), tr, acts) && tr[|acts|] == e;
    RotationInRun(tr, acts, start, |acts|);
    LanesInRun(tr, acts, start, |acts|);
  }

  lemma ReachedOk(start: Counter, e: EState, windowed: bool)
    requires Reached(start, e, windowed)
    ensures LanesOk(e) && LinksOk(e)
  {
    var tr: seq<EState>, acts: seq<EAction> :| IsERunFrom(EInit(start), tr, acts) && tr[|acts|] == e;
    LanesInRun(tr, acts, start, |acts|);
    LinksInRun(tr, acts, start, |acts|);
  }

  /** n more calls enter and pick their lanes. */
  lemma {:induction false} PickMore(start: Counter, e: EState, windowed: bool, n: nat) returns (t: EState)
    requires Reached(start, e, windowed)
    requires windowed ==> forall k: nat :: k < |e.calls| && !e.calls[k].stage.Done? ==> |e.calls| + n - k <= POOL
    requires windowed ==> n <= POOL
    ensures Reached(start, t, windowed) && t.lanes == e.lanes
    ensures |t.calls| == |e.calls| + n && t.calls[..|e.calls|] == e.calls
    ensures forall k :: |e.calls| <= k < |t.calls| ==> t.calls[k].stage == Picked
  {
    t := e;
    if n > 0 {
      var b := PickMore(start, e, windowed, n - 1);
      ReachedRotates(start, b, windowed);
      t := EStep(b, Pick);
      assert forall k :: 0 <= k < |e.calls| ==> t.calls[k] == b.calls[..|e.calls|][k];
      assert t.calls[..|e.calls|] == e.calls;
      ReachedStep(start, b, windowed, Pick);
    }
  }

  /** What the two calls that meet on lane l see: the lane, and their own progress. */
  ghost predicate Pair(e: EState, l: nat, lane: Lane, first: Stage, last: Stage) {
    && |e.lanes| == POOL && l < POOL && |e.calls| == POOL + 1
    && e.lanes[l] == lane && e.calls[0] == Caller(l, first) && e.calls[POOL] == Caller(l, last)
  }

  /** Sixteen calls later the rotation is back on the first call's lane. */
  lemma RotationMeets(start: Counter, e: EState, windowed: bool) returns (l: nat)
    requires Reached(start, e, windowed) && |e.calls| == POOL + 1
    ensures l < POOL && e.calls[0].lane == l && e.calls[POOL].lane == l && |e.lanes| == POOL
  {
    ReachedRotates(start, e, windowed);
    FullTurn(start);
    l := e.calls[0].lane;
  }

  lemma FullTurn(start: Counter)
    ensures LaneOfPick(start, 0) == LaneOfPick(start, POOL)
  {
    PicksShareLane(start, 0, POOL);
  }

  lemma StepPair(start: Counter, e: EState, windowed: bool, l: nat, a: EAction, lane: Lane, first: Stage, last: Stage)
    returns (t: EState)
    requires Reached(start, e, windowed) && EEnabled(e, a)
    requires (windowed ==> Windowed(EStep(e, a))) && Pair(EStep(e, a), l, lane, first, last)
    ensures Reached(start, t, windowed) && Pair(t, l, lane, first, last) && t == EStep(e, a)
  {
    t := EStep(e, a);
    ReachedStep(start, e, windowed, a);
  }

  /**
   * Seventeen calls enter before the first has sent. The first and the last meet on a lane, send one after the
   * other, and read in the opposite order: the broker nacks the last call's message and that call returns nil,
   * while the first call's message is acked and that call returns an error.
   */
  lemma OverlapReachesEgress(start: Counter) returns (e: EState, l: nat)
    ensures Reached(start, e, false)
    ensures Pair(e, l, Lane([Got(1, false), Got(0, true)], [true, false], []),
                 Done(Err("broker NACKed"), Some(0)), Done(Nil, Some(1)))
  {
    ReachedInit(start, false);
    e := PickMore(start, EInit(start), false, POOL + 1);
    l := RotationMeets(start, e, false);
    assert Pair(e, l, NEW_LANE, Picked, Picked);
    e := StepPair(start, e, false, l, SendOn(0), Lane([Awaiting], [], []), Waiting(0), Picked);
    e := StepPair(start, e, false, l, SendOn(POOL), Lane([Awaiting, Awaiting], [], []), Waiting(0), Waiting(1));
    e := StepPair(start, e, false, l, Emit(l, true), Lane([Awaiting, Awaiting], [true], [true]),
                  Waiting(0), Waiting(1));
    e := OverlapEnds(start, e, l);
  }

  lemma OverlapEnds(start: Counter, s: EState, l: nat) returns (e: EState)
    requires Reached(start, s, false)
    requires Pair(s, l, Lane([Awaiting, Awaiting], [true], [true]), Waiting(0), Waiting(1))
    ensures Reached(start, e, false)
    ensures Pair(e, l, Lane([Got(1, false), Got(0, true)], [true, false], []),
                 Done(Err("broker NACKed"), Some(0)), Done(Nil, Some(1)))
  {
    e := StepPair(start, s, false, l, Emit(l, false), Lane([Awaiting, Awaiting], [true, false], [true, false]),
                  Waiting(0), Waiting(1));
    e := StepPair(start, e, false, l, Consume(POOL), Lane([Awaiting, Got(0, true)], [true, false], [false]),
                  Waiting(0), Done(Nil, Some(1)));
    e := StepPair(start, e, false, l, Consume(0), Lane([Got(1, false), Got(0, true)], [true, false], []),
                  Done(Err("broker NACKed"), Some(0)), Done(Nil, Some(1)));
  }

  /**
   * The first call sends and times out, its message is acked late, and sixteen calls later the next call on that
   * lane reads the late ack as its own, although the broker nacks its message. No two calls are ever on a lane.
   */
  lemma GiveUpReachesEgress(start: Counter) returns (e: EState, l: nat)
    ensures Reached(start, e, true)
    ensures Pair(e, l, Lane([GaveUp, Got(0, true)], [true, false], [false]),
                 Done(Err("publish confirm timeout"), Some(0)), Done(Nil, Some(1)))
  {
    var s := OneGivesUp(start);
    e := PickMore(start, s, true, POOL);
    l := RotationMeets(start, e, true);
    assert e.calls[0] == e.calls[..1][0] == s.calls[0];
    e := GiveUpEnds(start, e, l, Done(Err("publish confirm timeout"), Some(0)));
  }

  lemma GiveUpEnds(start: Counter, s: EState, l: nat, out: Stage) returns (e: EState)
    requires Reached(start, s, true) && out.Done? && Pair(s, l, Lane([GaveUp], [true], [true]), out, Picked)
    ensures Reached(start, e, true)
    ensures Pair(e, l, Lane([GaveUp, Got(0, true)], [true, false], [false]), out, Done(Nil, Some(1)))
  {
    e := StepPair(start, s, true, l, SendOn(POOL), Lane([GaveUp, Awaiting], [true], [true]), out, Waiting(1));
    e := StepPair(start, e, true, l, Emit(l, false), Lane([GaveUp, Awaiting], [true, false], [true, false]), out,
                  Waiting(1));
    e := StepPair(start, e, true, l, Consume(POOL), Lane([GaveUp, Got(0, true)], [true, false], [false]), out,
                  Done(Nil, Some(1)));
  }

  lemma OneGivesUp(start: Counter) returns (e: EState)
    ensures Reached(start, e, true) && |e.calls| == 1 && e.calls[0].lane < |e.lanes| == POOL
    ensures e.calls[0].stage == Done(Err("publish confirm timeout"), Some(0))
    ensures e.lanes[e.calls[0].lane] == Lane([GaveUp], [true], [true])
  {
    ReachedInit(start, true);
    e := PickMore(start, EInit(start), true, 1);
    ReachedRotates(start, e, true);
    var l := e.calls[0].lane;
    var a, b, c := SendOn(0), GiveUp(0, "publish confirm timeout"), Emit(l, true);
    ReachedStep(start, e, true, a);
    e := EStep(e, a);
    ReachedStep(start, e, true, b);
    e := EStep(e, b);
    ReachedStep(start, e, true, c);
    e := EStep(e, c);
  }

  // ---------- With sends allowed, every waiting call can misread ----------

  /** A continuation of a run, and the run it continues. */
  ghost predicate Onward(start: Counter, s: EState, e: EState) {
    Reached(start, e, false) && Leads(s, e, false)
  }

  lemma OnwardStep(start: Counter, s: EState, e: EState, a: EAction)
    requires Onward(start, s, e) && EEnabled(e, a)
    ensures Onward(start, s, EStep(e, a))
  {
    ReachedStep(start, e, false, a);
    LeadsStep(s, e, false, a);
  }

  lemma {:induction false} OnwardRun(start: Counter, s: EState, e: EState, tr: seq<EState>, acts: seq<EAction>, n: nat)
    requires Onward(start, s, e) && EContinues(e, tr, acts) && n <= |acts|
    ensures Onward(start, s, tr[n])
  {
    if n > 0 {
      OnwardRun(start, s, e, tr, acts, n - 1);
      var a := acts[n - 1];
      OnwardStep(start, s, tr[n - 1], a);
    }
  }

  /** More calls enter until one has picked lane l. */
  lemma {:induction false} PickUntil(start: Counter, s: EState, e: EState, n: nat) returns (t: EState)
    requires Onward(start, s, e) && |e.calls| <= n
    ensures Onward(start, s, t) && t.lanes == e.lanes && |t.calls| == n + 1 && t.calls[n].stage == Picked
    ensures t.calls[..|e.calls|] == e.calls
    decreases n - |e.calls|
  {
    ReachedRotates(start, e, false);
    var b := EStep(e, Pick);
    OnwardStep(start, s, e, Pick);
    if |e.calls| == n {
      t := b;
    } else {
      t := PickUntil(start, s, b, n);
      assert t.calls[..|e.calls|] == t.calls[..|b.calls|][..|e.calls|];
    }
  }

  /** With a second call waiting on its lane, a call can misread. */
  lemma SharedLaneMisreads(start: Counter, s: EState, e: EState, c: nat, d: nat) returns (t: EState)
    requires Onward(start, s, e) && c < |e.calls| && d < |e.calls| && c != d
    requires e.calls[c].stage.Waiting? && e.calls[d].stage.Waiting? && e.calls[d].lane == e.calls[c].lane
    ensures Onward(start, s, t) && e.calls[c].lane < |t.lanes|
    ensures MisreadAt(t.lanes[e.calls[c].lane], e.calls[c].stage.slot)
  {
    ReachedOk(start, e, false);
    EMisreadPossibleIff(e, c);
    assert !AloneAndNext(e, c);
    var l := e.calls[c].lane;
    var tr: seq<EState>, acts: seq<EAction> :| EContinues(e, tr, acts) && l < |tr[|acts|].lanes|
      && MisreadAt(tr[|acts|].lanes[l], e.calls[c].stage.slot);
    OnwardRun(start, s, e, tr, acts, |acts|);
    t := tr[|acts|];
  }

  /**
   * Nothing in the egress protects a waiting call: from every reachable state in which it waits, some continuation
   * in which further calls enter and send leads to it reading another message's confirmation.
   */
  lemma NoWaitingCallIsSafe(start: Counter, s: EState, c: nat) returns (t: EState)
    requires Reached(start, s, false) && c < |s.calls| && s.calls[c].stage.Waiting?
    ensures Leads(s, t, false) && s.calls[c].lane < |t.lanes|
    ensures MisreadAt(t.lanes[s.calls[c].lane], s.calls[c].stage.slot)
  {
    LeadsNowhere(s, false);
    var n: nat := |s.calls| + (c - |s.calls|) % POOL;
    assert (n - c) % POOL == 0;
    var e := PickUntil(start, s, s, n);
    assert e.calls[c] == e.calls[..|s.calls|][c] == s.calls[c];
    ReachedRotates(start, e, false);
    PicksShareLane(start, c, n);
    OnwardStep(start, s, e, SendOn(n));
    t := SharedLaneMisreads(start, s, EStep(e, SendOn(n)), c, n);
  }
}
