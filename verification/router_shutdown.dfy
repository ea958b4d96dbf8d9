// Cancellation, lane closing and draining (internal/router/router.go:167-197, 300-313).
module RouterShutdown {
  import opened Prelude
  import opened Pipeline
  import opened PipelineMeaning
  import opened Bank
  import opened Router
  import opened RouterSafety
  import opened RouterLiveness

  // ---------- A measure that every step but a fetch lowers ----------

  function JobCost(j: Job): nat {
    match j.pc case Absent => 0 case Ready => 5 case Waiting(_) => 1 case Reported(_) => 0
  }

  function LaneCost(l: Lane): nat {
    3 * |l.queue| + HandCost(l.hand) + (if l.closed then 0 else 1) + (if l.hand.Exited? then 0 else 1)
  }

  ghost function BankCost(b: Bank): nat {
    Sum(JobCost, b.jobs) + Sum(LaneCost, b.lanes)
  }

  function EnteredCost(r: Route): nat { 5 * |r.targets| + 2 }

  function CallCost(r: Route): Call -> nat {
    (k: Call) => match k.phase case Entered => EnteredCost(r) case FannedOut(_) => 1 case Returned(_) => 0
  }

  function WorkerCost(w: Worker): nat {
    match w case Running(_) => 2 case Free => 1 case Stopped => 0
  }

  ghost function AllBanksCost(s: State): nat { Sum(BankCost, s.banks) }

  ghost function Measure(r: Route, s: State): nat {
    AllBanksCost(s) + Sum(CallCost(r), s.calls) + Sum(WorkerCost, s.workers) + if s.cancelled then 0 else 1
  }

  lemma SetJobCost(b: Bank, c: nat, j: Job)
    requires c < |b.jobs|
    ensures BankCost(SetJob(b, c, j)) + JobCost(b.jobs[c]) == BankCost(b) + JobCost(j)
  {
    SumUpdate(JobCost, b.jobs, c, j);
  }

  lemma SetLaneCost(b: Bank, li: nat, l: Lane)
    requires li < |b.lanes|
    ensures BankCost(SetLane(b, li, l)) + LaneCost(b.lanes[li]) == BankCost(b) + LaneCost(l)
  {
    SumUpdate(LaneCost, b.lanes, li, l);
  }

  lemma SubmitCost(b: Bank, c: nat, li: nat)
    requires CanSubmit(b, c, li)
    ensures BankCost(Submit(b, c, li)) < BankCost(b)
  {
    var l := b.lanes[li];
    var j := b.jobs[c].(pc := Waiting(li));
    SetJobCost(b, c, j);
    SetLaneCost(SetJob(b, c, j), li, l.(queue := l.queue + [c]));
  }

  lemma ReplyCost(b: Bank, li: nat)
    requires BankOk(b) && CanReply(b, li)
    ensures BankCost(Reply(b, li)) < BankCost(b)
  {
    var h := b.lanes[li].hand;
    var j := b.jobs[h.call].(done := b.jobs[h.call].done + [h.status]);
    SetJobCost(b, h.call, j);
    SetLaneCost(SetJob(b, h.call, j), li, b.lanes[li].(hand := Idle));
  }

  lemma TakeCost(b: Bank, li: nat, body: Delivery)
    requires CanTake(b, li)
    ensures BankCost(Take(b, li, body)) < BankCost(b)
  {
    SetLaneCost(b, li, Take(b, li, body).lanes[li]);
  }

  lemma ReturnCost(b: Bank, li: nat, status: Status)
    requires CanReturn(b, li)
    ensures BankCost(Return(b, li, status)) < BankCost(b)
  {
    SetLaneCost(b, li, Return(b, li, status).lanes[li]);
  }

  lemma CloseAndExitCost(b: Bank, li: nat)
    ensures CanClose(b, li) ==> BankCost(Close(b, li)) < BankCost(b)
    ensures CanExit(b, li) ==> BankCost(Exit(b, li)) < BankCost(b)
  {
    if CanClose(b, li) { SetLaneCost(b, li, Close(b, li).lanes[li]); }
    if CanExit(b, li) { SetLaneCost(b, li, Exit(b, li).lanes[li]); }
  }

  /** Each step of a bank lowers its cost. */
  lemma BankCostFalls(r: Route, s: State, a: Action)
    requires Inv(r, s) && Enabled(r, s, a) && IsBankStep(a) && !Step(r, s, a).panicked
    ensures BankCost(Step(r, s, a).banks[a.ti]) < BankCost(s.banks[a.ti])
  {
    var b := s.banks[a.ti];
    if a.DoReport? {
      SetJobCost(b, a.c, Report(b, a.c).jobs[a.c]);
    } else if a.DoSubmit? {
      SubmitCost(b, a.c, a.li);
    } else if a.DoReply? {
      ReplyCost(b, a.li);
    } else if a.DoTake? {
      TakeCost(b, a.li, Body(s.calls[b.lanes[a.li].queue[0]].msg));
    } else if a.DoReturn? {
      ReturnCost(b, a.li, a.status);
    } else {
      CloseAndExitCost(b, a.li);
    }
  }

  lemma SpawnedCost(banks: seq<Bank>, c: nat)
    requires forall ti: nat :: ti < |banks| ==> c < |banks[ti].jobs| && banks[ti].jobs[c].pc.Absent?
    ensures Sum(BankCost, Spawned(banks, c)) == Sum(BankCost, banks) + |banks| * 5
  {
    forall ti | 0 <= ti < |banks| ensures BankCost(Spawned(banks, c)[ti]) == BankCost(banks[ti]) + 5 {
      SetJobCost(banks[ti], c, Job(Ready, []));
    }
    SumRaised(BankCost, banks, Spawned(banks, c), 5);
  }

  lemma AdmittedCost(banks: seq<Bank>)
    ensures Sum(BankCost, Admitted(banks)) == Sum(BankCost, banks)
  {
    forall ti | 0 <= ti < |banks| ensures BankCost(Admitted(banks)[ti]) == BankCost(banks[ti]) {
      SumAppend(JobCost, banks[ti].jobs, Job(Absent, []));
    }
    SumRaised(BankCost, banks, Admitted(banks), 0);
  }

  lemma BankStepMeasure(r: Route, s: State, a: Action)
    requires Inv(r, s) && Enabled(r, s, a) && IsBankStep(a) && !Step(r, s, a).panicked
    ensures Measure(r, Step(r, s, a)) < Measure(r, s)
  {
    var t := Step(r, s, a);
    BankCostFalls(r, s, a);
    SumUpdate(BankCost, s.banks, a.ti, t.banks[a.ti]);
    assert t.banks == s.banks[a.ti := t.banks[a.ti]];
    if a.DoReport? {
      SumUpdate(CallCost(r), s.calls, a.c, t.calls[a.c]);
    }
  }

  lemma SpawnedAllCost(r: Route, s: State, c: nat)
    requires Shape(r, s) && c < |s.calls| && NotSpawned(s, c)
    ensures Sum(BankCost, Spawned(s.banks, c)) + 2 == Sum(BankCost, s.banks) + EnteredCost(r)
  {
    forall ti: nat | ti < |s.banks| ensures c < |s.banks[ti].jobs| && s.banks[ti].jobs[c].pc.Absent? {
      assert PcAt(s, ti, c).Absent?;
    }
    SpawnedCost(s.banks, c);
  }

  lemma RunStagesMeasure(r: Route, s: State, c: nat, clock: seq<int>)
    requires Shape(r, s) && Enabled(r, s, RunStages(c, clock)) && NotSpawned(s, c)
    requires !Step(r, s, RunStages(c, clock)).panicked
    ensures Measure(r, Step(r, s, RunStages(c, clock))) < Measure(r, s)
  {
    var t := Step(r, s, RunStages(c, clock));
    SumUpdate(CallCost(r), s.calls, c, t.calls[c]);
    SpawnedAllCost(r, s, c);
  }

  /** Every step other than a fetch lowers the measure; a fetch raises it by a constant of the route. */
  lemma MeasureFalls(r: Route, s: State, a: Action)
    requires Inv(r, s) && Enabled(r, s, a) && !Step(r, s, a).panicked
    ensures !a.Begin? ==> Measure(r, Step(r, s, a)) < Measure(r, s)
    ensures a.Begin? ==> Measure(r, Step(r, s, a)) == Measure(r, s) + EnteredCost(r) + 1
  {
    var t := Step(r, s, a);
    if IsBankStep(a) {
      BankStepMeasure(r, s, a);
    } else if a.RunStages? {
      assert CallOk(r, s, a.c);
      RunStagesMeasure(r, s, a.c, a.clock);
    } else if a.Begin? {
      AdmittedCost(s.banks);
      SumAppend(CallCost(r), s.calls, t.calls[|s.calls|]);
      SumUpdate(WorkerCost, s.workers, a.w, Running(|s.calls|));
    } else if a.Finish? {
      SumUpdate(CallCost(r), s.calls, a.c, t.calls[a.c]);
    } else if a.Settle? || a.StopWorker? {
      SumUpdate(WorkerCost, s.workers, a.w, t.workers[a.w]);
    }
  }

  ghost function Begins(acts: seq<Action>, n: nat): nat
    requires n <= |acts|
  {
    if n == 0 then 0 else Begins(acts, n - 1) + if acts[n - 1].Begin? then 1 else 0
  }

  /** What the first n actions add to the measure. */
  ghost function Allowance(r: Route, acts: seq<Action>, n: nat): nat
    requires n <= |acts|
  {
    if n == 0 then 0 else Allowance(r, acts, n - 1) + if acts[n - 1].Begin? then EnteredCost(r) + 2 else 0
  }

  lemma TimesSuccessor(e: nat, k: nat)
    ensures e * (k + 1) == e * k + e
  {
  }

  lemma {:induction false} AllowanceIs(r: Route, acts: seq<Action>, n: nat)
    requires n <= |acts|
    ensures Allowance(r, acts, n) == (EnteredCost(r) + 2) * Begins(acts, n)
  {
    if n > 0 {
      AllowanceIs(r, acts, n - 1);
      TimesSuccessor(EnteredCost(r) + 2, Begins(acts, n - 1));
    }
  }

  lemma MeasureInRun(r: Route, tr: seq<State>, acts: seq<Action>, i: nat)
    requires IsRun(r, tr, acts) && Inv(r, tr[0]) && !tr[|acts|].panicked && i < |acts|
    ensures Measure(r, tr[i + 1]) < Measure(r, tr[i]) + if acts[i].Begin? then EnteredCost(r) + 2 else 0
  {
    var a := acts[i];
    RunKeepsInv(r, tr, acts, i);
    StaysAlive(r, tr, acts, i + 1);
    MeasureFalls(r, tr[i], a);
  }

  lemma {:induction false} RunsWithinAllowance(r: Route, tr: seq<State>, acts: seq<Action>, n: nat)
    requires IsRun(r, tr, acts) && Inv(r, tr[0]) && !tr[|acts|].panicked && n <= |acts|
    ensures n + Measure(r, tr[n]) <= Measure(r, tr[0]) + Allowance(r, acts, n)
  {
    if n > 0 {
      RunsWithinAllowance(r, tr, acts, n - 1);
      MeasureInRun(r, tr, acts, n - 1);
    }
  }

  /** A run performs only finitely many steps per fetched message. */
  lemma RunsAreBounded(r: Route, tr: seq<State>, acts: seq<Action>, n: nat)
    requires IsRun(r, tr, acts) && Inv(r, tr[0]) && !tr[|acts|].panicked && n <= |acts|
    ensures n + Measure(r, tr[n]) <= Measure(r, tr[0]) + (EnteredCost(r) + 2) * Begins(acts, n)
  {
    RunsWithinAllowance(r, tr, acts, n);
    AllowanceIs(r, acts, n);
  }

  // ---------- When closing the lanes is safe ----------

  /** Call c will still send a job on some lane. */
  ghost predicate MaySubmit(r: Route, s: State, c: nat)
    requires Shape(r, s) && c < |s.calls|
  {
    || (s.calls[c].phase.Entered? && |r.targets| > 0 && Process(r.stages, Arrived(s.calls[c].input), []).Accepted?)
    || (exists ti: nat :: ti < |s.banks| && PcAt(s, ti, c).Ready?)
  }

  ghost predicate Quiet(r: Route, s: State)
    requires Shape(r, s)
  {
    forall c: nat :: c < |s.calls| ==> !MaySubmit(r, s, c)
  }

  /** From a quiet state no step but a fetch panics, and the state stays quiet. */
  lemma QuietStep(r: Route, s: State, a: Action)
    requires Inv(r, s) && Enabled(r, s, a) && Quiet(r, s) && !a.Begin?
    ensures Inv(r, Step(r, s, a)) && Quiet(r, Step(r, s, a)) && !Step(r, s, a).panicked
  {
    StepOk(r, s, a);
    PanicsOnlyOnClosedLane(r, s, a);
    if a.DoSubmit? {
      assert PcAt(s, a.ti, a.c).Ready?;
      assert MaySubmit(r, s, a.c);
      assert false;
    } else if a.RunStages? {
      QuietRunStages(r, s, a.c, a.clock);
    } else {
      QuietOtherStep(r, s, a);
    }
  }

  lemma QuietOtherStep(r: Route, s: State, a: Action)
    requires Shape(r, s) && Enabled(r, s, a) && Quiet(r, s) && !a.Begin? && !a.RunStages? && !a.DoSubmit?
    ensures Shape(r, Step(r, s, a)) && Quiet(r, Step(r, s, a))
  {
    var t := Step(r, s, a);
    forall c: nat | c < |t.calls| ensures !MaySubmit(r, t, c) {
      assert !MaySubmit(r, s, c);
      forall ti: nat | ti < |t.banks| ensures PcAt(t, ti, c).Ready? ==> PcAt(s, ti, c).Ready? {
        if IsBankStep(a) && ti == a.ti { NoNewReady(r, s, a, c); }
      }
    }
  }

  lemma NoNewReady(r: Route, s: State, a: Action, c: nat)
    requires Shape(r, s) && Enabled(r, s, a) && IsBankStep(a) && !a.DoSubmit? && c < |s.calls|
    ensures PcAt(Step(r, s, a), a.ti, c).Ready? ==> PcAt(s, a.ti, c).Ready?
  {
  }

  lemma QuietRunStages(r: Route, s: State, d: nat, clock: seq<int>)
    requires Inv(r, s) && Enabled(r, s, RunStages(d, clock)) && Quiet(r, s)
    ensures Shape(r, Step(r, s, RunStages(d, clock))) && Quiet(r, Step(r, s, RunStages(d, clock)))
  {
    RunStagesOk(r, s, d, clock);
    var t := Step(r, s, RunStages(d, clock));
    assert CallOk(r, s, d) && !MaySubmit(r, s, d);
    ArrivedFromBus(s.calls[d].input);
    ProcessIgnoresClock(r.stages, s.calls[d].msg, clock);
    assert |t.banks| == 0 || t.banks == s.banks;
    forall c: nat | c < |t.calls| ensures !MaySubmit(r, t, c) {
      assert !MaySubmit(r, s, c);
      assert c == d || t.calls[c] == s.calls[c];
      assert forall ti: nat :: ti < |t.banks| && PcAt(t, ti, c).Ready? ==> PcAt(s, ti, c).Ready?;
    }
  }

  lemma {:induction false} QuietRun(r: Route, tr: seq<State>, acts: seq<Action>, n: nat)
    requires IsRun(r, tr, acts) && Inv(r, tr[0]) && Quiet(r, tr[0]) && !tr[0].panicked && n <= |acts|
    requires forall a :: a in acts ==> !a.Begin?
    ensures Inv(r, tr[n]) && Quiet(r, tr[n]) && !tr[n].panicked
  {
    if n > 0 {
      QuietRun(r, tr, acts, n - 1);
      var a := acts[n - 1];
      QuietStep(r, tr[n - 1], a);
    }
  }

  /** One more step in front of a run. */
  lemma ReadyPanics(r: Route, s: State, c: nat, ti: nat) returns (tr: seq<State>, acts: seq<Action>)
    requires Inv(r, s) && s.listening && s.cancelled && !s.panicked
    requires c < |s.calls| && ti < |s.banks| && PcAt(s, ti, c).Ready?
    ensures IsRun(r, tr, acts) && tr[0] == s && tr[|acts|].panicked
    ensures forall a :: a in acts ==> !a.Begin?
  {
    assert BankOk(s.banks[ti]) && CallOk(r, s, c);
    var send := DoSubmit(c, ti, 0);
    if s.banks[ti].lanes[0].closed {
      return [s, Step(r, s, send)], [send];
    }
    var close := CloseLane(ti, 0);
    var t := Step(r, s, close);
    tr, acts := [t, Step(r, t, send)], [send];
    PrependStep(r, s, close, tr, acts);
    tr, acts := [s] + tr, [close] + acts;
  }

  /** Once a listening route is cancelled, a call that may still submit can be made to panic the process. */
  lemma SubmitterPanics(r: Route, s: State, c: nat) returns (tr: seq<State>, acts: seq<Action>)
    requires Inv(r, s) && s.listening && s.cancelled && !s.panicked
    requires c < |s.calls| && MaySubmit(r, s, c)
    ensures IsRun(r, tr, acts) && tr[0] == s && tr[|acts|].panicked
    ensures forall a :: a in acts ==> !a.Begin?
  {
    if s.calls[c].phase.Entered? {
      assert CallOk(r, s, c) && NotSpawned(s, c);
      var run := RunStages(c, []);
      RunStagesOk(r, s, c, []);
      var t := Step(r, s, run);
      assert PcAt(t, 0, c).Ready?;
      tr, acts := ReadyPanics(r, t, c, 0);
      PrependStep(r, s, run, tr, acts);
      tr, acts := [s] + tr, [run] + acts;
    } else {
      var ti: nat :| ti < |s.banks| && PcAt(s, ti, c).Ready?;
      tr, acts := ReadyPanics(r, s, c, ti);
    }
  }

  /** Some continuation without a further fetch panics. */
  ghost predicate CanPanic(r: Route, s: State) {
    exists tr: seq<State>, acts: seq<Action> ::
      && IsRun(r, tr, acts) && tr[0] == s && tr[|acts|].panicked
      && forall a :: a in acts ==> !a.Begin?
  }

  /** After cancellation a send on a closed lane is possible exactly when some call has yet to submit. */
  lemma PanicPossibleIff(r: Route, s: State)
    requires Inv(r, s) && s.listening && s.cancelled && !s.panicked
    ensures CanPanic(r, s) <==> !Quiet(r, s)
  {
    if CanPanic(r, s) && Quiet(r, s) {
      var tr: seq<State>, acts: seq<Action> :|
        IsRun(r, tr, acts) && tr[0] == s && tr[|acts|].panicked && forall a :: a in acts ==> !a.Begin?;
      QuietRun(r, tr, acts, |acts|);
    }
    if !Quiet(r, s) {
      var c: nat :| c < |s.calls| && MaySubmit(r, s, c);
      var tr, acts := SubmitterPanics(r, s, c);
    }
  }

  // ---------- Draining ----------

  /** What stop() waits for: every lane worker of the route is gone. */
  ghost predicate ShutDown(s: State) {
    forall ti: nat, li: nat {:trigger s.banks[ti].lanes[li]} ::
      ti < |s.banks| && li < |s.banks[ti].lanes| ==> s.banks[ti].lanes[li].hand.Exited?
  }

  /** Nothing but a fetch can happen any more. */
  ghost predicate Stuck(r: Route, s: State) {
    forall a :: Enabled(r, s, a) ==> a.Begin?
  }

  /** A lane worker that has not exited can always be moved along once the route is cancelled. */
  lemma LaneWorkerMoves(r: Route, s: State, ti: nat, li: nat) returns (a: Action)
    requires Inv(r, s) && s.listening && s.cancelled && !s.panicked
    requires ti < |s.banks| && li < |s.banks[ti].lanes| && !s.banks[ti].lanes[li].hand.Exited?
    ensures Enabled(r, s, a) && !a.Begin?
  {
    var b := s.banks[ti];
    var l := b.lanes[li];
    assert BankOk(b) && LaneOk(b, li);
    match l.hand {
      case Publishing(_) => a := DoReturn(ti, li, Nil);
      case Replying(_, _) => a := DoReply(ti, li);
      case Idle =>
        if l.queue != [] {
          assert InLane(b, l.queue[0], li);
          a := DoTake(ti, li);
        } else if l.closed {
          a := ExitLane(ti, li);
        } else {
          a := CloseLane(ti, li);
        }
    }
  }

  lemma SpawnedStaysStep(r: Route, s: State, a: Action, ti: nat, c: nat)
    requires Shape(r, s) && Enabled(r, s, a)
    requires ti < |s.banks| && c < |s.banks[ti].jobs| && !PcAt(s, ti, c).Absent?
    ensures var t := Step(r, s, a);
      ti < |t.banks| && c < |t.banks[ti].jobs| && !PcAt(t, ti, c).Absent?
  {
    if IsBankStep(a) {
      SpawnedStaysBankStep(r, s, a, ti, c);
    } else if a.Begin? || a.RunStages? {
      SpawnedStaysNewJobs(r, s, a, ti, c);
    } else {
      assert Step(r, s, a).banks == s.banks;
    }
  }

  lemma SpawnedStaysBankStep(r: Route, s: State, a: Action, ti: nat, c: nat)
    requires Shape(r, s) && Enabled(r, s, a) && IsBankStep(a)
    requires ti < |s.banks| && c < |s.banks[ti].jobs| && !PcAt(s, ti, c).Absent?
    ensures var t := Step(r, s, a);
      ti < |t.banks| && c < |t.banks[ti].jobs| && !PcAt(t, ti, c).Absent?
  {
  }

  lemma SpawnedStaysNewJobs(r: Route, s: State, a: Action, ti: nat, c: nat)
    requires Shape(r, s) && Enabled(r, s, a) && (a.Begin? || a.RunStages?)
    requires ti < |s.banks| && c < |s.banks[ti].jobs| && !PcAt(s, ti, c).Absent?
    ensures var t := Step(r, s, a);
      ti < |t.banks| && c < |t.banks[ti].jobs| && !PcAt(t, ti, c).Absent?
  {
  }

  /** Jobs never un-happen. */
  lemma {:induction false} SpawnedStays(r: Route, tr: seq<State>, acts: seq<Action>, n: nat, ti: nat, c: nat)
    requires IsRun(r, tr, acts) && Inv(r, tr[0]) && n <= |acts|
    requires ti < |tr[0].banks| && c < |tr[0].calls| && !PcAt(tr[0], ti, c).Absent?
    ensures Inv(r, tr[n]) && ti < |tr[n].banks| && c < |tr[n].calls| && !PcAt(tr[n], ti, c).Absent?
  {
    if n > 0 {
      SpawnedStays(r, tr, acts, n - 1, ti, c);
      var a := acts[n - 1];
      SpawnedStaysStep(r, tr[n - 1], a, ti, c);
      StepOk(r, tr[n - 1], a);
    }
  }

  lemma {:induction false} FlagsStay(r: Route, tr: seq<State>, acts: seq<Action>, n: nat)
    requires IsRun(r, tr, acts) && n <= |acts|
    ensures tr[n].listening == tr[0].listening && (tr[0].cancelled ==> tr[n].cancelled)
  {
    if n > 0 {
      FlagsStay(r, tr, acts, n - 1);
      var a := acts[n - 1];
      assert Enabled(r, tr[n - 1], a);
    }
  }

  /**
   * Shutdown of a subscribed, cancelled route in which no call has yet to submit and nothing more is
   * fetched: no run panics, every run is at most Measure steps long, and where it can go no further every
   * lane worker has exited (so stop() returns), every handler call has returned and every ingress worker has
   * stopped, and every job that was under way has been published once, answered once, and its answer delivered.
   */
  lemma Drain(r: Route, tr: seq<State>, acts: seq<Action>)
    requires IsRun(r, tr, acts) && Inv(r, tr[0]) && !tr[0].panicked
    requires tr[0].listening && tr[0].cancelled && Quiet(r, tr[0])
    requires forall a :: a in acts ==> !a.Begin?
    ensures !tr[|acts|].panicked && |acts| <= Measure(r, tr[0])
    ensures Stuck(r, tr[|acts|]) ==> ShutDown(tr[|acts|]) && IngressGone(tr[|acts|])
    ensures Stuck(r, tr[|acts|]) ==> Inv(r, tr[|acts|]) && forall ti: nat, c: nat {:trigger PcAt(tr[0], ti, c)} ::
      ti < |tr[0].banks| && c < |tr[0].calls| && !PcAt(tr[0], ti, c).Absent? ==>
        && c < |tr[|acts|].calls| && ti < |tr[|acts|].banks|
        && PcAt(tr[|acts|], ti, c).Reported?
        && PublishedOnce(tr[|acts|], ti, c, Body(tr[|acts|].calls[c].msg), PcAt(tr[|acts|], ti, c).status)
  {
    var n := |acts|;
    var t := tr[n];
    QuietRun(r, tr, acts, n);
    FlagsStay(r, tr, acts, n);
    RunsAreBounded(r, tr, acts, n);
    NoBegins(acts, n);
    if Stuck(r, t) {
      StuckIngressGone(r, t);
      forall ti: nat, li: nat | ti < |t.banks| && li < |t.banks[ti].lanes| ensures t.banks[ti].lanes[li].hand.Exited? {
        if !t.banks[ti].lanes[li].hand.Exited? { var a := LaneWorkerMoves(r, t, ti, li); }
      }
      forall ti: nat, c: nat | ti < |tr[0].banks| && c < |tr[0].calls| && !PcAt(tr[0], ti, c).Absent?
        ensures c < |t.calls| && ti < |t.banks| && PcAt(t, ti, c).Reported?
          && PublishedOnce(t, ti, c, Body(t.calls[c].msg), PcAt(t, ti, c).status)
      {
        SpawnedStays(r, tr, acts, n, ti, c);
        assert !MaySubmit(r, t, c);
        if PcAt(t, ti, c).Waiting? { var a := WaitingAdvances(r, t, c, ti); }
        ReportedIsPublished(r, t, ti, c);
      }
    }
  }

  /** Every handler call has returned and every ingress worker has stopped. */
  ghost predicate IngressGone(s: State) {
    && (forall c: nat :: c < |s.calls| ==> s.calls[c].phase.Returned?)
    && (forall w: nat :: w < |s.workers| ==> s.workers[w].Stopped?)
  }

  lemma StuckIngressGone(r: Route, s: State)
    requires Inv(r, s) && Quiet(r, s) && !s.panicked && s.cancelled && Stuck(r, s)
    ensures IngressGone(s)
  {
    forall c: nat | c < |s.calls| ensures s.calls[c].phase.Returned? {
      if !s.calls[c].phase.Returned? { var a := QuietCallMoves(r, s, c); }
    }
    forall w: nat | w < |s.workers| ensures s.workers[w].Stopped? {
      assert !Enabled(r, s, Settle(w)) && !Enabled(r, s, StopWorker(w));
    }
  }

  /** An unfinished call with nothing left to submit can always be moved along. */
  lemma QuietCallMoves(r: Route, s: State, c: nat) returns (a: Action)
    requires Inv(r, s) && Quiet(r, s) && !s.panicked && c < |s.calls| && !s.calls[c].phase.Returned?
    ensures Enabled(r, s, a) && !a.Begin?
  {
    assert CallOk(r, s, c) && !MaySubmit(r, s, c);
    if s.calls[c].phase.Entered? {
      return RunStages(c, []);
    }
    if AllReported(s, c) {
      return Finish(c);
    }
    var ti: nat :| ti < |s.banks| && !s.banks[ti].jobs[c].pc.Reported?;
    assert !PcAt(s, ti, c).Absent? && !PcAt(s, ti, c).Ready?;
    a := WaitingAdvances(r, s, c, ti);
  }

  lemma {:induction false} NoBegins(acts: seq<Action>, n: nat)
    requires n <= |acts| && forall a :: a in acts ==> !a.Begin?
    ensures Begins(acts, n) == 0
  {
    if n > 0 { NoBegins(acts, n - 1); }
  }

  /** If Subscribe failed the lanes are never closed, so with any target stop() waits for ever. */
  lemma StopNeedsSubscription(r: Route, tr: seq<State>, acts: seq<Action>, n: nat)
    requires IsRun(r, tr, acts) && tr[0] == Init(r, false) && n <= |acts| && |r.targets| > 0
    ensures !ShutDown(tr[n])
  {
    InitOk(r, false);
    RunKeepsInv(r, tr, acts, n);
    FlagsStay(r, tr, acts, n);
    assert BankOk(tr[n].banks[0]) && LaneOk(tr[n].banks[0], 0);
    assert !tr[n].banks[0].lanes[0].hand.Exited?;
  }
}
