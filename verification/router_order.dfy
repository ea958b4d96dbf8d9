// With a single ingress worker the random choice of lanes does not reorder anything
// (internal/connector/rabbitmq/ingress.go:74-118, internal/router/router.go:267-294, 332-337).
module RouterOrder {
  import opened Pipeline
  import opened Bank
  import opened Router
  import opened RouterSafety

  /** The deliveries handed to the handler, in the order of the handler calls. */
  function Inputs(s: State): seq<Delivery> {
    seq(|s.calls|, i requires 0 <= i < |s.calls| => s.calls[i].input)
  }

  /** The publishes owed for a sequence of deliveries: those the stages accept, in delivery order. */
  function Passed(st: Stages, ds: seq<Delivery>): seq<Sent> {
    if ds == [] then []
    else
      var n := |ds| - 1;
      Passed(st, ds[..n]) + match Process(st, Arrived(ds[n]), [])
                            case Accepted(m) => [Sent(n, Body(m))]
                            case Rejected(_) => []
                            case Crashed => []
  }

  /** The worker of target ti has already called Publish for the latest handler call. */
  ghost predicate LatestTaken(s: State, ti: nat)
    requires ti < |s.banks|
  {
    |s.calls| > 0 && |s.calls| - 1 < |s.banks[ti].jobs| && Taken(s.banks[ti], |s.calls| - 1)
  }

  /** Deliveries whose publish to target ti is due to be in its log. */
  ghost function Due(s: State, ti: nat): seq<Delivery>
    requires ti < |s.banks|
  {
    if s.calls == [] || LatestTaken(s, ti) then Inputs(s) else Inputs(s)[..|s.calls| - 1]
  }

  ghost predicate InOrder(r: Route, s: State) {
    forall ti: nat :: ti < |s.banks| ==> s.banks[ti].sent == Passed(r.stages, Due(s, ti))
  }

  lemma PassedOneMore(st: Stages, ds: seq<Delivery>, d: Delivery)
    ensures Passed(st, ds + [d]) == Passed(st, ds) + match Process(st, Arrived(d), [])
                                                     case Accepted(m) => [Sent(|ds|, Body(m))]
                                                     case Rejected(_) => []
                                                     case Crashed => []
  {
    assert (ds + [d])[..|ds|] == ds;
  }

  lemma LatestReturned(r: Route, s: State)
    requires r.workers == 1 && Inv(r, s) && s.calls != []
    requires |s.workers| == 0 || !s.workers[0].Running?
    ensures s.calls[|s.calls| - 1].phase.Returned?
  {
    var last: nat := |s.calls| - 1;
    assert !s.calls[last].phase.Returned? ==> Live(s, last);
  }

  /** A returned call that was never published to a target had been rejected by the stages. */
  lemma UnpublishedWasRejected(r: Route, s: State, ti: nat)
    requires Inv(r, s) && ti < |s.banks| && s.calls != []
    requires s.calls[|s.calls| - 1].phase.Returned? && !LatestTaken(s, ti)
    ensures Process(r.stages, Arrived(s.calls[|s.calls| - 1].input), []).Rejected?
  {
    var last: nat := |s.calls| - 1;
    assert CallOk(r, s, last);
    assert !PcAt(s, ti, last).Reported?;
  }

  /** While the only worker is free, every accepted delivery so far has been published to every target. */
  lemma FreeWorkerOwesNothing(r: Route, s: State, ti: nat)
    requires r.workers == 1 && Inv(r, s) && InOrder(r, s) && ti < |s.banks|
    requires |s.workers| == 0 || !s.workers[0].Running?
    ensures s.banks[ti].sent == Passed(r.stages, Inputs(s))
  {
    if s.calls != [] && !LatestTaken(s, ti) {
      LatestReturned(r, s);
      UnpublishedWasRejected(r, s, ti);
      LatestSplit(r, s);
    }
  }

  lemma LatestSplit(r: Route, s: State)
    requires s.calls != []
    ensures var last := |s.calls| - 1;
      Passed(r.stages, Inputs(s)) == Passed(r.stages, Inputs(s)[..last])
        + match Process(r.stages, Arrived(s.calls[last].input), [])
          case Accepted(m) => [Sent(last, Body(m))]
          case Rejected(_) => []
          case Crashed => []
  {
    var last := |s.calls| - 1;
    assert Inputs(s) == Inputs(s)[..last] + [s.calls[last].input];
    PassedOneMore(r.stages, Inputs(s)[..last], s.calls[last].input);
  }

  lemma OrderBegin(r: Route, s: State, w: nat, d: Delivery)
    requires r.workers == 1 && Inv(r, s) && InOrder(r, s) && Enabled(r, s, Begin(w, d))
    ensures InOrder(r, Step(r, s, Begin(w, d)))
  {
    var t := Step(r, s, Begin(w, d));
    forall ti: nat | ti < |t.banks| ensures t.banks[ti].sent == Passed(r.stages, Due(t, ti)) {
      FreeWorkerOwesNothing(r, s, ti);
      assert !LatestTaken(t, ti);
      assert Inputs(t)[..|s.calls|] == Inputs(s);
    }
  }

  lemma QueuedIsLive(r: Route, s: State, ti: nat, li: nat)
    requires Inv(r, s) && ti < |s.banks| && CanTake(s.banks[ti], li)
    ensures s.banks[ti].lanes[li].queue[0] < |s.calls| && Live(s, s.banks[ti].lanes[li].queue[0])
    ensures InLane(s.banks[ti], s.banks[ti].lanes[li].queue[0], li)
    ensures !Taken(s.banks[ti], s.banks[ti].lanes[li].queue[0])
  {
    var b := s.banks[ti];
    var x := b.lanes[li].queue[0];
    assert BankOk(b) && LaneOk(b, li) && x in b.lanes[li].queue && InLane(b, x, li);
    assert x in Outstanding(s, ti);
    OutstandingIsLive(r, s, ti);
  }

  /** A queued job belongs to the latest call: with one worker nobody else has a job under way. */
  lemma QueuedIsLatest(r: Route, s: State, ti: nat, li: nat)
    requires r.workers == 1 && Inv(r, s) && ti < |s.banks| && CanTake(s.banks[ti], li)
    ensures s.calls != [] && s.banks[ti].lanes[li].queue[0] == |s.calls| - 1 && !LatestTaken(s, ti)
    ensures Process(r.stages, Arrived(s.calls[|s.calls| - 1].input), []) == Accepted(s.calls[|s.calls| - 1].msg)
  {
    var x := s.banks[ti].lanes[li].queue[0];
    QueuedIsLive(r, s, ti, li);
    assert CallOk(r, s, x);
    assert !PcAt(s, ti, x).Absent? && !PcAt(s, ti, x).Reported?;
    var last: nat := |s.calls| - 1;
    assert s.calls[last].worker == 0 && s.calls[x].worker == 0;
    assert last <= s.workers[0].call;
  }

  lemma TakePublishesLatest(b: Bank, li: nat, body: Delivery, last: nat)
    requires BankOk(b) && CanTake(b, li) && b.lanes[li].queue[0] == last
    ensures last < |b.jobs| && Taken(Take(b, li, body), last)
  {
    assert LaneOk(b, li) && last in b.lanes[li].queue && InLane(b, last, li);
    assert last !in b.lanes[li].queue[1..];
  }

  lemma OrderTake(r: Route, s: State, ti: nat, li: nat)
    requires r.workers == 1 && Inv(r, s) && InOrder(r, s) && Enabled(r, s, DoTake(ti, li))
    ensures InOrder(r, Step(r, s, DoTake(ti, li)))
  {
    var last: nat := |s.calls| - 1;
    var body := Body(s.calls[s.banks[ti].lanes[li].queue[0]].msg);
    QueuedIsLatest(r, s, ti, li);
    TakePublishesLatest(s.banks[ti], li, body, last);
    LatestSplit(r, s);
    var t := Step(r, s, DoTake(ti, li));
    TakeEffect(r, s, ti, li);
    assert LatestTaken(t, ti);
    forall tj: nat | tj < |t.banks| ensures t.banks[tj].sent == Passed(r.stages, Due(t, tj)) {
      if tj != ti {
        assert LatestTaken(t, tj) == LatestTaken(s, tj);
      }
    }
  }

  lemma TakeEffect(r: Route, s: State, ti: nat, li: nat)
    requires Enabled(r, s, DoTake(ti, li))
    ensures Step(r, s, DoTake(ti, li)) ==
      WithBank(s, ti, Take(s.banks[ti], li, Body(s.calls[s.banks[ti].lanes[li].queue[0]].msg)))
    ensures Inputs(Step(r, s, DoTake(ti, li))) == Inputs(s)
  {
  }

  predicate IsLaneAction(a: Action) {
    a.DoSubmit? || a.DoReturn? || a.DoReply? || a.DoReport? || a.CloseLane? || a.ExitLane?
  }

  /** On the bank it acts on, such a step neither makes nor unmakes a publish. */
  lemma LaneActionKeepsTaken(r: Route, s: State, a: Action)
    requires Inv(r, s) && Enabled(r, s, a) && IsLaneAction(a) && !Step(r, s, a).panicked
    ensures SameTaken(s.banks[a.ti], Step(r, s, a).banks[a.ti])
  {
    var b := s.banks[a.ti];
    if a.DoSubmit? {
      SubmitOk(b, a.c, a.li);
    } else if a.DoReturn? {
      ReturnOk(b, a.li, a.status);
    } else if a.DoReply? {
      ReplyOk(b, a.li);
    } else if a.DoReport? {
      ReportOk(b, a.c);
    } else if a.CloseLane? {
      CloseOk(b, a.li);
    } else {
      ExitOk(b, a.li);
    }
  }

  lemma RunStagesKeepsTaken(r: Route, s: State, c: nat, clock: seq<int>, ti: nat)
    requires Inv(r, s) && Enabled(r, s, RunStages(c, clock)) && ti < |s.banks|
    ensures SameTaken(s.banks[ti], Step(r, s, RunStages(c, clock)).banks[ti])
  {
    assert CallOk(r, s, c) && NotSpawned(s, c);
    assert PcAt(s, ti, c).Absent?;
    SpawnOk(s.banks[ti], c);
  }

  /** No other step publishes, or changes whether the latest call has been published. */
  lemma OtherStepKeepsLog(r: Route, s: State, a: Action, ti: nat)
    requires Inv(r, s) && Enabled(r, s, a) && !a.Begin? && !a.DoTake? && ti < |s.banks|
    ensures ti < |Step(r, s, a).banks| && Step(r, s, a).banks[ti].sent == s.banks[ti].sent
    ensures Inputs(Step(r, s, a)) == Inputs(s)
  {
    OtherStepKeepsInputs(r, s, a);
  }

  lemma OtherStepKeepsInputs(r: Route, s: State, a: Action)
    requires Shape(r, s) && Enabled(r, s, a) && !a.Begin?
    ensures Inputs(Step(r, s, a)) == Inputs(s)
  {
  }

  lemma OtherStepKeepsDue(r: Route, s: State, a: Action, ti: nat)
    requires Inv(r, s) && Enabled(r, s, a) && !a.Begin? && !a.DoTake? && ti < |s.banks|
    requires ti < |Step(r, s, a).banks|
    ensures SameTaken(s.banks[ti], Step(r, s, a).banks[ti])
  {
    if IsLaneAction(a) {
      if !Step(r, s, a).panicked { LaneActionKeepsTaken(r, s, a); }
    } else if a.RunStages? {
      RunStagesKeepsTaken(r, s, a.c, a.clock, ti);
    }
  }

  lemma OrderOther(r: Route, s: State, a: Action)
    requires Inv(r, s) && InOrder(r, s) && Enabled(r, s, a) && !a.Begin? && !a.DoTake?
    requires |Step(r, s, a).banks| == |s.banks|
    ensures InOrder(r, Step(r, s, a))
  {
    var t := Step(r, s, a);
    forall ti: nat | ti < |t.banks| ensures t.banks[ti].sent == Passed(r.stages, Due(t, ti)) {
      OtherStepKeepsLog(r, s, a, ti);
      OtherStepKeepsDue(r, s, a, ti);
      SameDue(s, t, ti);
    }
  }

  lemma SameDue(s: State, t: State, ti: nat)
    requires ti < |s.banks| && ti < |t.banks| && Inputs(t) == Inputs(s) && SameTaken(s.banks[ti], t.banks[ti])
    ensures Due(t, ti) == Due(s, ti)
  {
    assert |t.calls| == |Inputs(t)| == |s.calls|;
  }

  lemma OrderStep(r: Route, s: State, a: Action)
    requires r.workers == 1 && Inv(r, s) && InOrder(r, s) && Enabled(r, s, a)
    ensures InOrder(r, Step(r, s, a))
  {
    if a.Begin? {
      OrderBegin(r, s, a.w, a.d);
    } else if a.DoTake? {
      OrderTake(r, s, a.ti, a.li);
    } else {
      StepOk(r, s, a);
      OrderOther(r, s, a);
    }
  }

  /**
   * In every run of a route with one ingress worker, each target's log of publish calls is the accepted
   * deliveries in delivery order, up to the delivery being handled, whatever lanes were picked.
   */
  lemma {:induction false} PublishOrder(r: Route, tr: seq<State>, acts: seq<Action>, sub: bool, n: nat)
    requires r.workers == 1 && IsRun(r, tr, acts) && tr[0] == Init(r, sub) && n <= |acts|
    ensures Inv(r, tr[n]) && InOrder(r, tr[n])
  {
    InitOk(r, sub);
    if n > 0 {
      PublishOrder(r, tr, acts, sub, n - 1);
      var a := acts[n - 1];
      OrderStep(r, tr[n - 1], a);
      StepOk(r, tr[n - 1], a);
    }
  }
}
