// Every handler call returns, whatever the other workers do; and between two fetches a route
// performs only finitely many steps.
module RouterLiveness {
  import opened Prelude
  import opened Bank
  import opened Router
  import opened RouterSafety

  // ---------- Distance of one handler call to its return ----------

  function HandCost(h: Hand): nat {
    match h
    case Idle => 0
    case Publishing(_) => 2
    case Replying(_, _) => 1
    case Exited => 0
  }

  function Position(q: seq<nat>, c: nat): nat
    requires c in q
  {
    if q[0] == c then 0 else 1 + Position(q[1..], c)
  }

  /** Cost of a job that is still to be sent: every call ahead of it costs its lane worker three steps. */
  function UnsentCost(workers: nat): nat { 3 * workers + 4 }

  /** Steps of c's goroutine and of its lane's worker until the goroutine has reported. */
  function JobDistance(b: Bank, c: nat, workers: nat): nat {
    if c >= |b.jobs| then 0
    else
      var j := b.jobs[c];
      match j.pc
      case Absent => 0
      case Ready => UnsentCost(workers)
      case Reported(_) => 0
      case Waiting(li) =>
        if j.done != [] || li >= |b.lanes| then 1
        else
          var l := b.lanes[li];
          if c in l.queue then 3 * (Position(l.queue, c) + 1) + HandCost(l.hand) + 1
          else HandCost(l.hand) + 1
  }

  ghost function BankDistance(c: nat, workers: nat): Bank -> nat {
    b => JobDistance(b, c, workers)
  }

  /** Helpful steps left before handler call c returns. */
  ghost function Distance(r: Route, s: State, c: nat): nat
    requires c < |s.calls|
  {
    match s.calls[c].phase
    case Entered => |r.targets| * UnsentCost(r.workers) + 2
    case FannedOut(_) => Sum(BankDistance(c, r.workers), s.banks) + 1
    case Returned(_) => 0
  }

  lemma {:induction false} PositionAppend(q: seq<nat>, c: nat, x: nat)
    requires c in q
    ensures Position(q + [x], c) == Position(q, c)
  {
    if q[0] != c {
      PositionAppend(q[1..], c, x);
      assert (q + [x])[1..] == q[1..] + [x];
    }
  }

  lemma {:induction false} PositionInRange(q: seq<nat>, c: nat)
    requires c in q
    ensures Position(q, c) < |q| && q[Position(q, c)] == c
  {
    if q[0] != c { PositionInRange(q[1..], c); }
  }

  /** The last of the queue stands behind all the others. */
  lemma {:induction false} PositionOfLast(q: seq<nat>, c: nat)
    requires c !in q
    ensures Position(q + [c], c) == |q|
  {
    if q != [] {
      PositionOfLast(q[1..], c);
      assert (q + [c])[1..] == q[1..] + [c];
    }
  }

  /** Which bank steps serve call c: its own goroutine's, and those of the worker of the lane it waits on. */
  ghost predicate Serves(b: Bank, c: nat, li: nat) {
    c < |b.jobs| && b.jobs[c].pc == Waiting(li) && b.jobs[c].done == []
  }

  lemma TakeDistance(b: Bank, li: nat, body: Delivery, c: nat, n: nat)
    requires BankOk(b) && CanTake(b, li)
    ensures JobDistance(Take(b, li, body), c, n) <= JobDistance(b, c, n)
    ensures Serves(b, c, li) ==> JobDistance(Take(b, li, body), c, n) < JobDistance(b, c, n)
  {
    assert LaneOk(b, li);
    if c < |b.jobs| { assert JobOk(b, c); }
    var q := b.lanes[li].queue;
    assert c in q <==> c == q[0] || c in q[1..];
  }

  lemma ReturnDistance(b: Bank, li: nat, status: Status, c: nat, n: nat)
    requires BankOk(b) && CanReturn(b, li)
    ensures JobDistance(Return(b, li, status), c, n) <= JobDistance(b, c, n)
    ensures Serves(b, c, li) ==> JobDistance(Return(b, li, status), c, n) < JobDistance(b, c, n)
  {
  }

  lemma ReplyDistance(b: Bank, li: nat, c: nat, n: nat)
    requires BankOk(b) && CanReply(b, li)
    ensures JobDistance(Reply(b, li), c, n) <= JobDistance(b, c, n)
    ensures Serves(b, c, li) ==> JobDistance(Reply(b, li), c, n) < JobDistance(b, c, n)
  {
    assert LaneOk(b, li);
  }

  lemma SubmitDistance(b: Bank, d: nat, li: nat, c: nat, n: nat)
    requires BankOk(b) && CanSubmit(b, d, li) && |b.lanes[li].queue| < n
    ensures JobDistance(Submit(b, d, li), c, n) <= JobDistance(b, c, n)
    ensures c == d ==> JobDistance(Submit(b, d, li), c, n) < JobDistance(b, c, n)
  {
    var q := b.lanes[li].queue;
    assert LaneOk(b, li) && d !in q;
    if c == d {
      PositionOfLast(q, c);
    } else if c in q {
      PositionAppend(q, c, d);
    }
  }

  lemma ReportDistance(b: Bank, d: nat, c: nat, n: nat)
    requires BankOk(b) && CanReport(b, d)
    ensures JobDistance(Report(b, d), c, n) <= JobDistance(b, c, n)
    ensures c == d ==> JobDistance(Report(b, d), c, n) < JobDistance(b, c, n)
  {
    assert JobOk(b, d);
  }

  lemma CloseDistance(b: Bank, li: nat, c: nat, n: nat)
    requires CanClose(b, li)
    ensures JobDistance(Close(b, li), c, n) == JobDistance(b, c, n)
  {
  }

  lemma ExitDistance(b: Bank, li: nat, c: nat, n: nat)
    requires CanExit(b, li)
    ensures JobDistance(Exit(b, li), c, n) == JobDistance(b, c, n)
  {
  }

  /** The bank steps of a route, and the bank they lead to. */
  predicate IsBankStep(a: Action) {
    a.DoSubmit? || a.DoTake? || a.DoReturn? || a.DoReply? || a.DoReport? || a.CloseLane? || a.ExitLane?
  }

  /** Action a advances call c at target ti. */
  ghost predicate Advances(s: State, a: Action, c: nat) {
    || (a.RunStages? && a.c == c)
    || (a.Finish? && a.c == c)
    || (a.DoSubmit? && a.c == c)
    || (a.DoReport? && a.c == c)
    || ((a.DoTake? || a.DoReturn? || a.DoReply?) && a.ti < |s.banks| && Serves(s.banks[a.ti], c, a.li))
  }

  lemma BankStepDistance(r: Route, s: State, a: Action, c: nat)
    requires Inv(r, s) && Enabled(r, s, a) && IsBankStep(a) && c < |s.calls| && !Step(r, s, a).panicked
    ensures JobDistance(Step(r, s, a).banks[a.ti], c, r.workers) <= JobDistance(s.banks[a.ti], c, r.workers)
    ensures Advances(s, a, c) ==>
      JobDistance(Step(r, s, a).banks[a.ti], c, r.workers) < JobDistance(s.banks[a.ti], c, r.workers)
  {
    var b := s.banks[a.ti];
    var n := r.workers;
    if a.DoSubmit? {
      RoomToSubmit(r, s, a.c, a.ti, a.li);
      SubmitDistance(b, a.c, a.li, c, n);
    } else if a.DoTake? {
      TakeDistance(b, a.li, Body(s.calls[b.lanes[a.li].queue[0]].msg), c, n);
    } else if a.DoReturn? {
      ReturnDistance(b, a.li, a.status, c, n);
    } else if a.DoReply? {
      ReplyDistance(b, a.li, c, n);
    } else if a.DoReport? {
      ReportDistance(b, a.c, c, n);
    } else if a.CloseLane? {
      CloseDistance(b, a.li, c, n);
    } else {
      ExitDistance(b, a.li, c, n);
    }
  }

  lemma BankStepFallsOrKeeps(r: Route, s: State, a: Action, c: nat)
    requires Inv(r, s) && Enabled(r, s, a) && IsBankStep(a) && c < |s.calls| && !Step(r, s, a).panicked
    ensures Sum(BankDistance(c, r.workers), Step(r, s, a).banks) <= Sum(BankDistance(c, r.workers), s.banks)
    ensures Advances(s, a, c) ==>
      Sum(BankDistance(c, r.workers), Step(r, s, a).banks) < Sum(BankDistance(c, r.workers), s.banks)
    ensures Step(r, s, a).calls == s.calls || (a.DoReport? && InFanOut(s, a.c) && InFanOut(Step(r, s, a), a.c)
      && forall d: nat :: d < |s.calls| && d != a.c ==> Step(r, s, a).calls[d] == s.calls[d])
    ensures |Step(r, s, a).calls| == |s.calls|
  {
    var t := Step(r, s, a);
    BankStepDistance(r, s, a, c);
    assert t.banks == s.banks[a.ti := t.banks[a.ti]];
    SumUpdate(BankDistance(c, r.workers), s.banks, a.ti, t.banks[a.ti]);
  }

  lemma AdmitDistance(s: State, c: nat, n: nat)
    requires forall ti: nat :: ti < |s.banks| ==> c < |s.banks[ti].jobs|
    ensures Sum(BankDistance(c, n), Admitted(s.banks)) == Sum(BankDistance(c, n), s.banks)
  {
    SumRaised(BankDistance(c, n), s.banks, Admitted(s.banks), 0);
  }

  lemma SpawnDistance(banks: seq<Bank>, d: nat, c: nat, n: nat)
    requires forall ti :: 0 <= ti < |banks| ==> d < |banks[ti].jobs| && c < |banks[ti].jobs|
    ensures c == d ==> Sum(BankDistance(c, n), Spawned(banks, d)) <= |banks| * UnsentCost(n)
    ensures c != d ==> Sum(BankDistance(c, n), Spawned(banks, d)) == Sum(BankDistance(c, n), banks)
  {
    if c == d {
      SumBounded(BankDistance(c, n), Spawned(banks, d), UnsentCost(n));
    } else {
      SumRaised(BankDistance(c, n), banks, Spawned(banks, d), 0);
    }
  }

  lemma RunStagesDistance(r: Route, s: State, d: nat, clock: seq<int>, c: nat)
    requires Shape(r, s) && Enabled(r, s, RunStages(d, clock)) && c < |s.calls|
    requires !Step(r, s, RunStages(d, clock)).panicked
    ensures Distance(r, Step(r, s, RunStages(d, clock)), c) <= Distance(r, s, c)
    ensures c == d ==> Distance(r, Step(r, s, RunStages(d, clock)), c) < Distance(r, s, c)
  {
    SpawnDistance(s.banks, d, c, r.workers);
    assert |s.banks| == |r.targets|;
  }

  /**
   * No step of any goroutine moves a call away from its return, and every step that advances it moves it
   * strictly closer: in particular later submissions by other workers never push a queued job back.
   */
  lemma DistanceNeverGrows(r: Route, s: State, a: Action, c: nat)
    requires Inv(r, s) && Enabled(r, s, a) && c < |s.calls| && !Step(r, s, a).panicked
    ensures c < |Step(r, s, a).calls|
    ensures Distance(r, Step(r, s, a), c) <= Distance(r, s, c)
    ensures Advances(s, a, c) && !s.calls[c].phase.Returned? ==> Distance(r, Step(r, s, a), c) < Distance(r, s, c)
  {
    if IsBankStep(a) {
      BankStepFallsOrKeeps(r, s, a, c);
      if Advances(s, a, c) { BankStepIsFannedOut(r, s, a, c); }
    } else if a.RunStages? {
      RunStagesDistance(r, s, a.c, a.clock, c);
    } else if a.Begin? {
      AdmitDistance(s, c, r.workers);
    }
  }

  /** A bank step can only advance a call that has fanned out. */
  lemma BankStepIsFannedOut(r: Route, s: State, a: Action, c: nat)
    requires Inv(r, s) && Enabled(r, s, a) && IsBankStep(a) && c < |s.calls| && Advances(s, a, c)
    ensures InFanOut(s, c)
  {
    if a.DoTake? || a.DoReturn? || a.DoReply? {
      assert PcAt(s, a.ti, c).Waiting?;
      assert CallOk(r, s, c);
    }
  }

  /** The length of the way is bounded by the number of targets and of ingress workers alone. */
  lemma DistanceBound(r: Route, s: State, c: nat)
    requires Inv(r, s) && c < |s.calls|
    ensures Distance(r, s, c) <= |r.targets| * UnsentCost(r.workers) + 2
  {
    var cost := BankDistance(c, r.workers);
    forall ti: nat | ti < |s.banks| ensures cost(s.banks[ti]) <= UnsentCost(r.workers) {
      var b := s.banks[ti];
      assert BankOk(b) && JobOk(b, c);
      if b.jobs[c].pc.Waiting? {
        var li := b.jobs[c].pc.lane;
        OccupancyBound(r, s, ti, li);
        if c in b.lanes[li].queue { PositionInRange(b.lanes[li].queue, c); }
        QueueAndHand(r, s, ti, li);
      }
    }
    SumBounded(cost, s.banks, UnsentCost(r.workers));
  }

  /** Queue plus the job in hand stay within the number of workers. */
  lemma QueueAndHand(r: Route, s: State, ti: nat, li: nat)
    requires Inv(r, s) && ti < |s.banks| && li < LANES
    ensures |s.banks[ti].lanes[li].queue| + (if HandCost(s.banks[ti].lanes[li].hand) > 0 then 1 else 0) <= r.workers
  {
    OccupancyBound(r, s, ti, li);
    var b := s.banks[ti];
    var l := b.lanes[li];
    assert BankOk(b) && LaneOk(b, li);
    if HandCost(l.hand) > 0 {
      var rest := Outstanding(s, ti) - {l.hand.call};
      forall i | 0 <= i < |l.queue| ensures l.queue[i] in rest { assert InLane(b, l.queue[i], li); }
      NoDupFits(l.queue, rest);
      assert |rest| == |Outstanding(s, ti)| - 1;
    }
  }

  // ---------- Some advancing step is always enabled ----------

  /** Some goroutine of c has yet to send its job while a lane of its target is already closed. */
  ghost predicate FacesClosedLane(s: State, c: nat) {
    exists ti: nat, li: nat :: ti < |s.banks| && Submitting(s.banks[ti], c, li) && s.banks[ti].lanes[li].closed
  }

  lemma WaitingAdvances(r: Route, s: State, c: nat, ti: nat) returns (a: Action)
    requires Inv(r, s) && !s.panicked && c < |s.calls| && ti < |s.banks| && PcAt(s, ti, c).Waiting?
    ensures Enabled(r, s, a) && Advances(s, a, c) && !Step(r, s, a).panicked
  {
    var b := s.banks[ti];
    assert BankOk(b) && JobOk(b, c);
    assert CallOk(r, s, c);
    var li := b.jobs[c].pc.lane;
    var l := b.lanes[li];
    if b.jobs[c].done != [] {
      ErrsNeverFull(r, s, c, ti);
      return DoReport(c, ti);
    }
    assert LaneOk(b, li);
    match l.hand {
      case Idle =>
        assert InLane(b, l.queue[0], li);
        return DoTake(ti, li);
      case Publishing(_) => return DoReturn(ti, li, Nil);
      case Replying(_, _) => return DoReply(ti, li);
    }
  }

  /** A call that has not returned always has an enabled step that advances it, unless a lane it needs is closed. */
  lemma CallAdvances(r: Route, s: State, c: nat) returns (a: Action)
    requires Inv(r, s) && !s.panicked && r.workers <= LANE_BUFFER
    requires c < |s.calls| && !s.calls[c].phase.Returned? && !FacesClosedLane(s, c)
    ensures Enabled(r, s, a) && Advances(s, a, c) && !Step(r, s, a).panicked
  {
    assert CallOk(r, s, c);
    if s.calls[c].phase.Entered? {
      RunStagesOk(r, s, c, []);
      return RunStages(c, []);
    }
    if AllReported(s, c) {
      return Finish(c);
    }
    var ti :| 0 <= ti < |s.banks| && !(c < |s.banks[ti].jobs| && s.banks[ti].jobs[c].pc.Reported?);
    if PcAt(s, ti, c).Ready? {
      assert BankOk(s.banks[ti]);
      assert Submitting(s.banks[ti], c, 0);
      SendsNeverBlock(r, s, ti, c, 0);
      return DoSubmit(c, ti, 0);
    }
    a := WaitingAdvances(r, s, c, ti);
  }

  // ---------- Over whole runs ----------

  /** How many of the first n actions of the run advance call c. */
  ghost function AdvanceCount(tr: seq<State>, acts: seq<Action>, c: nat, n: nat): nat
    requires |tr| == |acts| + 1 && n <= |acts|
  {
    if n == 0 then 0
    else
      var s := tr[n - 1];
      AdvanceCount(tr, acts, c, n - 1)
      + if c < |s.calls| && !s.calls[c].phase.Returned? && Advances(s, acts[n - 1], c) then 1 else 0
  }

  /** In any run, whatever is interleaved, a call is advanced at most Distance times and then it has returned. */
  lemma {:induction false} AdvancesAreBounded(r: Route, tr: seq<State>, acts: seq<Action>, c: nat, n: nat)
    requires IsRun(r, tr, acts) && Inv(r, tr[0]) && !tr[|acts|].panicked && n <= |acts|
    requires c < |tr[0].calls|
    ensures c < |tr[n].calls|
    ensures AdvanceCount(tr, acts, c, n) + Distance(r, tr[n], c) <= Distance(r, tr[0], c)
  {
    if n > 0 {
      AdvancesAreBounded(r, tr, acts, c, n - 1);
      RunKeepsInv(r, tr, acts, n - 1);
      var a := acts[n - 1];
      StaysAlive(r, tr, acts, n);
      DistanceNeverGrows(r, tr[n - 1], a, c);
    }
  }

  lemma {:induction false} StaysAlive(r: Route, tr: seq<State>, acts: seq<Action>, i: nat)
    requires IsRun(r, tr, acts) && i <= |acts| && !tr[|acts|].panicked
    ensures !tr[i].panicked
  {
    if i < |acts| {
      var a := acts[i];
      assert Enabled(r, tr[i], a);
    }
  }

  /** Call c has a place in the run's state i and has returned there. */
  ghost predicate ReturnedAt(tr: seq<State>, c: nat, i: nat) {
    i < |tr| && c < |tr[i].calls| && tr[i].calls[c].phase.Returned?
  }

  lemma {:induction false} DistanceInRun(r: Route, tr: seq<State>, acts: seq<Action>, c: nat, i: nat, n: nat)
    requires IsRun(r, tr, acts) && Inv(r, tr[0]) && !tr[|acts|].panicked && i <= n <= |acts|
    requires c < |tr[0].calls|
    ensures c < |tr[i].calls| && c < |tr[n].calls|
    ensures Distance(r, tr[n], c) <= Distance(r, tr[i], c)
  {
    AdvancesAreBounded(r, tr, acts, c, i);
    if i < n {
      DistanceInRun(r, tr, acts, c, i, n - 1);
      RunKeepsInv(r, tr, acts, n - 1);
      var a := acts[n - 1];
      StaysAlive(r, tr, acts, n);
      DistanceNeverGrows(r, tr[n - 1], a, c);
    }
  }

  lemma HomeIsZero(r: Route, s: State, c: nat)
    requires c < |s.calls|
    ensures Distance(r, s, c) == 0 <==> s.calls[c].phase.Returned?
  {
  }

  /** Somewhere in actions i, .., i + window - 1 call c is advanced. */
  ghost predicate AdvancedWithin(tr: seq<State>, acts: seq<Action>, c: nat, i: nat, window: nat)
    requires |tr| == |acts| + 1
  {
    exists j: nat :: i <= j < i + window && j < |acts| && Advances(tr[j], acts[j], c)
  }

  /** Fairness to call c: it never waits `window` actions for one of the steps that advance it. */
  ghost predicate FairTo(tr: seq<State>, acts: seq<Action>, c: nat, window: nat)
    requires |tr| == |acts| + 1
  {
    forall i: nat {:trigger AdvancedWithin(tr, acts, c, i, window)} ::
      i + window <= |acts| && !ReturnedAt(tr, c, i) ==> AdvancedWithin(tr, acts, c, i, window)
  }

  lemma AdvanceInRun(r: Route, tr: seq<State>, acts: seq<Action>, c: nat, j: nat)
    requires IsRun(r, tr, acts) && Inv(r, tr[0]) && !tr[|acts|].panicked && j < |acts|
    requires c < |tr[j].calls| && Advances(tr[j], acts[j], c)
    ensures c < |tr[j + 1].calls|
    ensures Distance(r, tr[j + 1], c) == 0 || Distance(r, tr[j + 1], c) < Distance(r, tr[j], c)
  {
    RunKeepsInv(r, tr, acts, j);
    StaysAlive(r, tr, acts, j + 1);
    var a := acts[j];
    DistanceNeverGrows(r, tr[j], a, c);
    HomeIsZero(r, tr[j], c);
  }

  ghost predicate NeverGrows(d: seq<nat>) {
    forall i: nat, j: nat :: i <= j < |d| ==> d[j] <= d[i]
  }

  /** The numbers fall over every window that starts above zero. */
  ghost predicate FallsEvery(d: seq<nat>, window: nat) {
    forall i: nat :: i + window < |d| && d[i] > 0 ==> d[i + window] < d[i]
  }

  lemma {:induction false} WindowsDescend(d: seq<nat>, window: nat, w: nat)
    requires NeverGrows(d) && FallsEvery(d, window) && window * w < |d|
    ensures d[window * w] == 0 || d[window * w] + w <= d[0]
  {
    if w > 0 {
      var i := window * (w - 1);
      assert window * w == i + window;
      WindowsDescend(d, window, w - 1);
    }
  }

  lemma FairWindow(r: Route, tr: seq<State>, acts: seq<Action>, c: nat, i: nat, window: nat) returns (j: nat)
    requires |tr| == |acts| + 1 && FairTo(tr, acts, c, window) && i + window <= |acts|
    requires c < |tr[i].calls| && Distance(r, tr[i], c) > 0
    ensures i <= j < i + window && Advances(tr[j], acts[j], c)
  {
    HomeIsZero(r, tr[i], c);
    assert AdvancedWithin(tr, acts, c, i, window);
    j :| i <= j < i + window && j < |acts| && Advances(tr[j], acts[j], c);
  }

  lemma WindowFalls(r: Route, tr: seq<State>, acts: seq<Action>, c: nat, i: nat, j: nat, window: nat)
    requires IsRun(r, tr, acts) && Inv(r, tr[0]) && !tr[|acts|].panicked && c < |tr[0].calls|
    requires i <= j < i + window <= |acts| && Advances(tr[j], acts[j], c)
    ensures c < |tr[i].calls| && c < |tr[i + window].calls|
    ensures Distance(r, tr[i], c) > 0 ==> Distance(r, tr[i + window], c) < Distance(r, tr[i], c)
  {
    DistanceInRun(r, tr, acts, c, i, j);
    AdvanceInRun(r, tr, acts, c, j);
    DistanceInRun(r, tr, acts, c, j + 1, i + window);
  }

  lemma FairWindowFalls(r: Route, tr: seq<State>, acts: seq<Action>, c: nat, i: nat, window: nat)
    requires IsRun(r, tr, acts) && Inv(r, tr[0]) && !tr[|acts|].panicked && c < |tr[0].calls|
    requires i + window <= |acts| && FairTo(tr, acts, c, window)
    requires c < |tr[i].calls| && Distance(r, tr[i], c) > 0
    ensures c < |tr[i + window].calls| && Distance(r, tr[i + window], c) < Distance(r, tr[i], c)
  {
    var j := FairWindow(r, tr, acts, c, i, window);
    WindowFalls(r, tr, acts, c, i, j, window);
  }

  ghost function Distances(r: Route, tr: seq<State>, c: nat): seq<nat>
    requires forall i :: 0 <= i < |tr| ==> c < |tr[i].calls|
  {
    seq(|tr|, i requires 0 <= i < |tr| => Distance(r, tr[i], c))
  }

  lemma CallStays(r: Route, tr: seq<State>, acts: seq<Action>, c: nat)
    requires IsRun(r, tr, acts) && Inv(r, tr[0]) && !tr[|acts|].panicked && c < |tr[0].calls|
    ensures forall i :: 0 <= i < |tr| ==> c < |tr[i].calls|
  {
    forall i: nat | i < |tr| ensures c < |tr[i].calls| { AdvancesAreBounded(r, tr, acts, c, i); }
  }

  lemma DistancesNeverGrow(r: Route, tr: seq<State>, acts: seq<Action>, c: nat)
    requires IsRun(r, tr, acts) && Inv(r, tr[0]) && !tr[|acts|].panicked && c < |tr[0].calls|
    requires forall i :: 0 <= i < |tr| ==> c < |tr[i].calls|
    ensures NeverGrows(Distances(r, tr, c))
  {
    var d := Distances(r, tr, c);
    forall i: nat, j: nat | i <= j < |d| ensures d[j] <= d[i] { DistanceInRun(r, tr, acts, c, i, j); }
  }

  lemma FairDistancesFall(r: Route, tr: seq<State>, acts: seq<Action>, c: nat, window: nat)
    requires IsRun(r, tr, acts) && Inv(r, tr[0]) && !tr[|acts|].panicked && c < |tr[0].calls|
    requires forall i :: 0 <= i < |tr| ==> c < |tr[i].calls|
    requires FairTo(tr, acts, c, window)
    ensures FallsEvery(Distances(r, tr, c), window)
  {
    var d := Distances(r, tr, c);
    forall i: nat | i + window < |d| && d[i] > 0 ensures d[i + window] < d[i] {
      FairWindowFalls(r, tr, acts, c, i, window);
    }
  }

  /**
   * Handler termination: in any run that is fair to a call, the call has returned after as many windows as its
   * route's target count and worker count allow steps, no matter how many other calls were begun and submitted.
   */
  lemma HandlerReturns(r: Route, tr: seq<State>, acts: seq<Action>, c: nat, window: nat)
    requires IsRun(r, tr, acts) && Inv(r, tr[0]) && !tr[|acts|].panicked
    requires c < |tr[0].calls| && FairTo(tr, acts, c, window)
    requires window * (|r.targets| * UnsentCost(r.workers) + 2) <= |acts|
    ensures ReturnedAt(tr, c, |acts|)
  {
    var w := |r.targets| * UnsentCost(r.workers) + 2;
    CallStays(r, tr, acts, c);
    DistancesNeverGrow(r, tr, acts, c);
    FairDistancesFall(r, tr, acts, c, window);
    var d := Distances(r, tr, c);
    WindowsDescend(d, window, w);
    DistanceBound(r, tr[0], c);
    assert d[|acts|] <= d[window * w];
    HomeIsZero(r, tr[|acts|], c);
  }

  // ---------- From every state the call can be brought home ----------

  ghost predicate NoLaneClosed(s: State) {
    forall ti: nat, li: nat {:trigger s.banks[ti].lanes[li]} ::
      ti < |s.banks| && li < |s.banks[ti].lanes| ==> !s.banks[ti].lanes[li].closed
  }

  lemma AdvanceClosesNothing(r: Route, s: State, a: Action, c: nat)
    requires Enabled(r, s, a) && Advances(s, a, c) && NoLaneClosed(s)
    ensures NoLaneClosed(Step(r, s, a))
  {
  }

  lemma PrependStep(r: Route, s: State, a: Action, tr: seq<State>, acts: seq<Action>)
    requires Enabled(r, s, a) && IsRun(r, tr, acts) && tr[0] == Step(r, s, a)
    ensures IsRun(r, [s] + tr, [a] + acts)
  {
    forall i: nat | i < |[a] + acts|
      ensures Enabled(r, ([s] + tr)[i], ([a] + acts)[i])
      ensures ([s] + tr)[i + 1] == Step(r, ([s] + tr)[i], ([a] + acts)[i])
    {
      if i > 0 { assert acts[i - 1] == ([a] + acts)[i]; }
    }
  }

  ghost predicate AllAdvance(tr: seq<State>, acts: seq<Action>, c: nat)
    requires |tr| == |acts| + 1
  {
    forall i: nat {:trigger acts[i]} :: i < |acts| ==> Advances(tr[i], acts[i], c)
  }

  /**
   * While no lane is closed an unfinished call can be brought to its return by steps that all advance it, and
   * by no more of them than its distance: nothing anybody else did so far can stand in its way.
   */
  lemma {:induction false} CallCanFinish(r: Route, s: State, c: nat) returns (tr: seq<State>, acts: seq<Action>)
    requires Inv(r, s) && !s.panicked && r.workers <= LANE_BUFFER && c < |s.calls| && NoLaneClosed(s)
    ensures IsRun(r, tr, acts) && tr[0] == s && AllAdvance(tr, acts, c) && |acts| <= Distance(r, s, c)
    ensures !tr[|acts|].panicked && ReturnedAt(tr, c, |acts|)
    decreases Distance(r, s, c)
  {
    tr, acts := [s], [];
    if !s.calls[c].phase.Returned? {
      var a := CallAdvances(r, s, c);
      var t := Step(r, s, a);
      StepOk(r, s, a);
      DistanceNeverGrows(r, s, a, c);
      AdvanceClosesNothing(r, s, a, c);
      var rest, later := CallCanFinish(r, t, c);
      PrependStep(r, s, a, rest, later);
      tr, acts := [s] + rest, [a] + later;
      forall i: nat | i < |acts| ensures Advances(tr[i], acts[i], c) {
        if i > 0 { assert acts[i] == later[i - 1]; }
      }
    }
  }
}
