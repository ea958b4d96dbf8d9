// Every reachable state of a route keeps the protocol invariant, and what follows from it.
module RouterSafety {
  import opened Prelude
  import opened Pipeline
  import opened PipelineMeaning
  import opened Bank
  import opened Router

  // ---------- The invariant holds initially and at every step ----------

  lemma InitOk(r: Route, subscribed: bool)
    ensures Inv(r, Init(r, subscribed))
  {
    NewBankOk();
  }

  /** Neither goroutine state counts for the handler's bookkeeping of call c, or it did not change. */
  ghost predicate SameProgress(s: State, t: State, c: nat)
  {
    && |s.banks| == |t.banks|
    && forall ti: nat :: ti < |s.banks| ==>
      && c < |s.banks[ti].jobs| && c < |t.banks[ti].jobs|
      && var p, q := PcAt(s, ti, c), PcAt(t, ti, c);
         p == q || (!p.Absent? && !p.Reported? && !q.Absent? && !q.Reported?)
  }

  lemma CallCarries(r: Route, s: State, t: State, c: nat)
    requires Shape(r, s) && Shape(r, t) && c < |s.calls| && c < |t.calls|
    requires t.calls[c] == s.calls[c] && SameProgress(s, t, c)
    requires CallOk(r, s, c)
    ensures CallOk(r, t, c)
  {
    var k := s.calls[c];
    if k.phase.Returned? && k.phase.status != Nil && Process(r.stages, Arrived(k.input), []).Accepted? {
      var ti: nat :| ti < |s.banks| && FailedWith(r, s, c, ti, k.phase.status);
      assert PcAt(t, ti, c) == PcAt(s, ti, c);
      assert FailedWith(r, t, c, ti, k.phase.status);
    }
  }

  /** A step of one bank that leaves every handler's bookkeeping alone keeps the invariant. */
  lemma BankStepOk(r: Route, s: State, ti: nat, b: Bank)
    requires Inv(r, s) && ti < |s.banks| && BankOk(b) && |b.jobs| == |s.calls|
    requires forall c: nat :: c < |s.calls| ==> SameProgress(s, WithBank(s, ti, b), c)
    requires forall e :: e in b.sent && e !in s.banks[ti].sent ==>
      e.call < |s.calls| && !s.calls[e.call].phase.Entered? && e.body == Body(s.calls[e.call].msg)
    requires forall li: nat :: li < |b.lanes| && b.lanes[li].closed ==> s.listening && s.cancelled
    ensures Inv(r, WithBank(s, ti, b))
  {
    var t := WithBank(s, ti, b);
    forall c: nat | c < |t.calls| ensures CallOk(r, t, c) {
      CallCarries(r, s, t, c);
    }
    forall tj: nat, e | tj < |t.banks| && e in t.banks[tj].sent
      ensures e.call < |t.calls| && !t.calls[e.call].phase.Entered? && e.body == Body(t.calls[e.call].msg)
    {
      if tj != ti || e in s.banks[ti].sent { assert e in s.banks[tj].sent; }
    }
  }

  lemma BeginOk(r: Route, s: State, w: nat, d: Delivery)
    requires Inv(r, s) && Enabled(r, s, Begin(w, d))
    ensures Inv(r, Step(r, s, Begin(w, d)))
  {
    var t := Step(r, s, Begin(w, d));
    var n := |s.calls|;
    forall ti: nat | ti < |t.banks| ensures BankOk(t.banks[ti]) { AdmitOk(s.banks[ti]); }
    forall c: nat | c < |t.calls| ensures CallOk(r, t, c) {
      if c < n { CallCarries(r, s, t, c); }
    }
    forall c: nat | c < n ensures t.calls[c] == s.calls[c] {}
    assert WorkersOk(t) by {
      forall c: nat | c < |t.calls| && !t.calls[c].phase.Returned? ensures Live(t, c) {
        if c < n { assert Live(s, c); }
      }
    }
    forall tj: nat, e | tj < |t.banks| && e in t.banks[tj].sent
      ensures e.call < |t.calls| && !t.calls[e.call].phase.Entered? && e.body == Body(t.calls[e.call].msg)
    {
      assert e in s.banks[tj].sent;
    }
    forall ti: nat, li: nat | ti < |t.banks| && li < |t.banks[ti].lanes| && t.banks[ti].lanes[li].closed
      ensures t.listening && t.cancelled
    {
      assert s.banks[ti].lanes[li].closed;
    }
  }

  /** A bus message's metadata survives the conversion to `map[string]any`. */
  lemma ArrivedFromBus(d: Delivery)
    ensures FromBus(Arrived(d))
    ensures Body(Arrived(d)) == d
  {
    var m := Arrived(d);
    assert Body(m).meta == d.meta;
  }

  /** A step of handler call c that publishes nothing keeps the invariant if it keeps c's own bookkeeping. */
  lemma CallStepOk(r: Route, s: State, t: State, c: nat)
    requires Inv(r, s) && c < |s.calls| && !s.calls[c].phase.Returned?
    requires Shape(r, t) && t == s.(calls := t.calls, banks := t.banks)
    requires |t.calls| == |s.calls| && t.calls == s.calls[c := t.calls[c]]
    requires t.calls[c].worker == s.calls[c].worker && !t.calls[c].phase.Entered?
    requires forall ti: nat :: ti < |t.banks| ==> BankOk(t.banks[ti])
    requires forall ti: nat :: ti < |t.banks| ==>
      t.banks[ti].sent == s.banks[ti].sent && t.banks[ti].lanes == s.banks[ti].lanes
    requires forall d: nat :: d < |s.calls| && d != c ==> SameProgress(s, t, d)
    requires s.calls[c].phase.Entered? || t.calls[c].msg == s.calls[c].msg
    requires CallOk(r, t, c)
    ensures Inv(r, t)
  {
    forall d: nat | d < |t.calls| ensures CallOk(r, t, d) { if d != c { CallCarries(r, s, t, d); } }
    forall d: nat | d < |t.calls| && !t.calls[d].phase.Returned? ensures Live(t, d) { assert Live(s, d); }
    forall tj: nat, e | tj < |t.banks| && e in t.banks[tj].sent
      ensures e.call < |t.calls| && !t.calls[e.call].phase.Entered? && e.body == Body(t.calls[e.call].msg)
    {
      assert e in s.banks[tj].sent;
    }
    forall ti: nat, li: nat | ti < |t.banks| && li < |t.banks[ti].lanes| && t.banks[ti].lanes[li].closed
      ensures t.listening && t.cancelled
    {
      assert s.banks[ti].lanes[li].closed;
    }
  }

  lemma RunStagesOk(r: Route, s: State, c: nat, clock: seq<int>)
    requires Inv(r, s) && Enabled(r, s, RunStages(c, clock))
    ensures Inv(r, Step(r, s, RunStages(c, clock))) && !Step(r, s, RunStages(c, clock)).panicked
  {
    StagesCallOk(r, s, c, clock);
    StagesChanges(r, s, c, clock);
    assert CallOk(r, s, c);
    CallStepOk(r, s, Step(r, s, RunStages(c, clock)), c);
  }

  lemma StagesChanges(r: Route, s: State, c: nat, clock: seq<int>)
    requires Shape(r, s) && Enabled(r, s, RunStages(c, clock)) && !Step(r, s, RunStages(c, clock)).panicked
    ensures var t := Step(r, s, RunStages(c, clock));
      && Shape(r, t) && t == s.(calls := t.calls, banks := t.banks)
      && |t.calls| == |s.calls| && t.calls == s.calls[c := t.calls[c]]
      && t.calls[c].worker == s.calls[c].worker && !t.calls[c].phase.Entered?
      && (forall ti: nat :: ti < |t.banks| ==>
            t.banks[ti].sent == s.banks[ti].sent && t.banks[ti].lanes == s.banks[ti].lanes)
      && (forall d: nat :: d < |s.calls| && d != c ==> SameProgress(s, t, d))
  {
  }

  /** What the stages leave behind: banks in order, and a call that is fanned out, or returned with its rejection. */
  lemma StagesCallOk(r: Route, s: State, c: nat, clock: seq<int>)
    requires Inv(r, s) && Enabled(r, s, RunStages(c, clock))
    ensures var t := Step(r, s, RunStages(c, clock));
      && !t.panicked && Shape(r, t) && CallOk(r, t, c)
      && forall ti: nat :: ti < |t.banks| ==> BankOk(t.banks[ti])
  {
    var t := Step(r, s, RunStages(c, clock));
    var k := s.calls[c];
    assert CallOk(r, s, c) && NotSpawned(s, c);
    ArrivedFromBus(k.input);
    ProcessIgnoresClock(r.stages, k.msg, clock);
    if Process(r.stages, k.msg, clock).Accepted? {
      forall ti: nat | ti < |t.banks| ensures BankOk(t.banks[ti]) && PcAt(t, ti, c) == Ready {
        assert PcAt(s, ti, c).Absent?;
        SpawnOk(s.banks[ti], c);
      }
      assert ErrsOk(t, c, []);
    } else {
      assert t.banks == s.banks;
      assert forall ti: nat :: ti < |t.banks| ==> PcAt(t, ti, c) == PcAt(s, ti, c);
      assert NotSpawned(t, c);
    }
  }

  lemma ErrsAfterReport(s: State, t: State, c: nat, ti: nat, errs: seq<ErrSend>, x: ErrSend)
    requires |t.calls| == |s.calls| && |t.banks| == |s.banks| && c < |s.calls| && ti < |s.banks|
    requires forall tj: nat :: tj < |s.banks| ==> |s.banks[tj].jobs| == |s.calls| == |t.banks[tj].jobs|
    requires ErrsOk(s, c, errs) && !PcAt(s, ti, c).Reported? && x.target == ti
    requires PcAt(t, ti, c) == Reported(x.status)
    requires forall tj: nat :: tj < |s.banks| && tj != ti ==> PcAt(t, tj, c) == PcAt(s, tj, c)
    ensures ErrsOk(t, c, errs + [x])
  {
    forall i | 0 <= i < |errs| ensures errs[i].target != ti {
      assert errs[i] in errs;
    }
    assert Targets(errs + [x]) == Targets(errs) + [ti];
  }

  lemma ReportStepOk(r: Route, s: State, c: nat, ti: nat)
    requires Inv(r, s) && Enabled(r, s, DoReport(c, ti))
    ensures Inv(r, Step(r, s, DoReport(c, ti)))
  {
    var t := Step(r, s, DoReport(c, ti));
    var errs := s.calls[c].phase.errs;
    var x := ErrSend(ti, s.banks[ti].jobs[c].done[0]);
    ReportOk(s.banks[ti], c);
    assert CallOk(r, s, c);
    ErrsAfterReport(s, t, c, ti, errs, x);
    assert SpawnedEverywhere(t, c) by {
      assert forall tj: nat :: tj < |s.banks| && tj != ti ==> PcAt(t, tj, c) == PcAt(s, tj, c);
    }
    CallStepOk(r, s, t, c);
  }

  /** The scan returns nil when errs holds only nils, otherwise an error some target sent. */
  lemma {:induction false} FirstErrorMeaning(r: Route, errs: seq<ErrSend>)
    requires forall e :: e in errs ==> e.target < |r.targets|
    ensures FirstError(r, errs) == Nil <==> forall e :: e in errs ==> e.status == Nil
    ensures FirstError(r, errs) != Nil ==>
      exists e :: e in errs && e.status != Nil && FirstError(r, errs) == Wrapped(r.targets[e.target], e.status)
  {
    if errs != [] {
      FirstErrorMeaning(r, errs[1..]);
      assert forall e :: e in errs <==> e == errs[0] || e in errs[1..];
    }
  }

  /** Once every goroutine has reported, the scan of errs is the verdict of the fan-out. */
  lemma ScanIsVerdict(r: Route, s: State, c: nat)
    requires Inv(r, s) && InFanOut(s, c) && AllReported(s, c)
    ensures FanOutVerdict(r, s, c, FirstError(r, s.calls[c].phase.errs))
  {
    var errs := s.calls[c].phase.errs;
    var status := FirstError(r, errs);
    assert CallOk(r, s, c) && ErrsOk(s, c, errs);
    FirstErrorMeaning(r, errs);
    forall ti: nat | ti < |s.banks|
      ensures PcAt(s, ti, c).Reported? && (status == Nil ==> PcAt(s, ti, c) == Reported(Nil))
    {
      assert ErrSend(ti, PcAt(s, ti, c).status) in errs;
    }
    if status != Nil {
      var e :| e in errs && e.status != Nil && status == Wrapped(r.targets[e.target], e.status);
      assert FailedWith(r, s, c, e.target, status);
    }
  }

  lemma VerdictCarries(r: Route, s: State, t: State, c: nat, status: Status)
    requires Shape(r, s) && Shape(r, t) && t.banks == s.banks && c < |s.calls| && c < |t.calls|
    requires FanOutVerdict(r, s, c, status)
    ensures FanOutVerdict(r, t, c, status)
  {
    assert forall ti: nat :: ti < |t.banks| ==> PcAt(t, ti, c) == PcAt(s, ti, c);
    if status != Nil {
      var ti: nat :| ti < |s.banks| && FailedWith(r, s, c, ti, status);
      assert FailedWith(r, t, c, ti, status);
    }
  }

  lemma FinishOk(r: Route, s: State, c: nat)
    requires Inv(r, s) && Enabled(r, s, Finish(c))
    ensures Inv(r, Step(r, s, Finish(c)))
  {
    var t := Step(r, s, Finish(c));
    FinishChanges(r, s, c);
    FinishedCallOk(r, s, c);
    forall d: nat | d < |s.calls| && d != c ensures SameProgress(s, t, d) {}
    CallStepOk(r, s, t, c);
  }

  lemma FinishChanges(r: Route, s: State, c: nat)
    requires Shape(r, s) && Enabled(r, s, Finish(c))
    ensures var t := Step(r, s, Finish(c));
      && Shape(r, t) && t == s.(calls := t.calls) && |t.calls| == |s.calls|
      && t.calls == s.calls[c := s.calls[c].(phase := Returned(FirstError(r, s.calls[c].phase.errs)))]
  {
  }

  lemma FinishedCallOk(r: Route, s: State, c: nat)
    requires Inv(r, s) && Enabled(r, s, Finish(c)) && Shape(r, Step(r, s, Finish(c)))
    ensures CallOk(r, Step(r, s, Finish(c)), c)
  {
    var t := Step(r, s, Finish(c));
    ScanIsVerdict(r, s, c);
    VerdictCarries(r, s, t, c, FirstError(r, s.calls[c].phase.errs));
    assert CallOk(r, s, c);
  }

  lemma SettleOk(r: Route, s: State, w: nat)
    requires Inv(r, s) && Enabled(r, s, Settle(w))
    ensures Inv(r, Step(r, s, Settle(w)))
  {
    var t := Step(r, s, Settle(w));
    forall d: nat | d < |t.calls| ensures CallOk(r, t, d) { CallCarries(r, s, t, d); }
    forall d: nat | d < |t.calls| && !t.calls[d].phase.Returned? ensures Live(t, d) { assert Live(s, d); }
  }

  lemma SignalOk(r: Route, s: State, a: Action)
    requires Inv(r, s) && Enabled(r, s, a) && (a.Cancel? || a.StopWorker?)
    ensures Inv(r, Step(r, s, a))
  {
    var t := Step(r, s, a);
    forall d: nat | d < |t.calls| ensures CallOk(r, t, d) { CallCarries(r, s, t, d); }
    forall d: nat | d < |t.calls| && !t.calls[d].phase.Returned? ensures Live(t, d) { assert Live(s, d); }
  }

  /** A send on a closed lane takes the process down without touching anything else. */
  ghost predicate SendsOnClosed(s: State, a: Action) {
    a.DoSubmit? && a.ti < |s.banks| && a.li < |s.banks[a.ti].lanes| && s.banks[a.ti].lanes[a.li].closed
  }

  lemma SubmitStepOk(r: Route, s: State, c: nat, ti: nat, li: nat)
    requires Inv(r, s) && Enabled(r, s, DoSubmit(c, ti, li)) && !SendsOnClosed(s, DoSubmit(c, ti, li))
    ensures Inv(r, Step(r, s, DoSubmit(c, ti, li)))
  {
    SubmitOk(s.banks[ti], c, li);
    BankStepOk(r, s, ti, Submit(s.banks[ti], c, li));
  }

  lemma TakeStepOk(r: Route, s: State, ti: nat, li: nat)
    requires Inv(r, s) && Enabled(r, s, DoTake(ti, li))
    ensures Inv(r, Step(r, s, DoTake(ti, li)))
  {
    var b := s.banks[ti];
    var x := b.lanes[li].queue[0];
    var body := Body(s.calls[x].msg);
    TakeOk(b, li, body);
    assert LaneOk(b, li) && x in b.lanes[li].queue && InLane(b, x, li);
    assert PcAt(s, ti, x).Waiting? && CallOk(r, s, x);
    BankStepOk(r, s, ti, Take(b, li, body));
  }

  lemma ReplyStepOk(r: Route, s: State, ti: nat, li: nat)
    requires Inv(r, s) && Enabled(r, s, DoReply(ti, li))
    ensures Inv(r, Step(r, s, DoReply(ti, li)))
  {
    ReplyOk(s.banks[ti], li);
    BankStepOk(r, s, ti, Reply(s.banks[ti], li));
  }

  lemma OtherLaneStepOk(r: Route, s: State, a: Action)
    requires Inv(r, s) && Enabled(r, s, a) && (a.DoReturn? || a.CloseLane? || a.ExitLane?)
    ensures Inv(r, Step(r, s, a))
  {
    var b := s.banks[a.ti];
    if a.DoReturn? {
      ReturnOk(b, a.li, a.status);
      BankStepOk(r, s, a.ti, Return(b, a.li, a.status));
    } else if a.CloseLane? {
      CloseOk(b, a.li);
      BankStepOk(r, s, a.ti, Close(b, a.li));
    } else {
      ExitOk(b, a.li);
      BankStepOk(r, s, a.ti, Exit(b, a.li));
    }
  }

  lemma PanicKeepsInv(r: Route, s: State)
    requires Inv(r, s)
    ensures Inv(r, s.(panicked := true))
  {
    var t := s.(panicked := true);
    forall d: nat | d < |t.calls| ensures CallOk(r, t, d) { CallCarries(r, s, t, d); }
    forall d: nat | d < |t.calls| && !t.calls[d].phase.Returned? ensures Live(t, d) { assert Live(s, d); }
  }

  /** Every action keeps the invariant. */
  lemma StepOk(r: Route, s: State, a: Action)
    requires Inv(r, s) && Enabled(r, s, a)
    ensures Inv(r, Step(r, s, a))
  {
    match a {
      case Begin(w, d) => BeginOk(r, s, w, d);
      case RunStages(c, clock) => RunStagesOk(r, s, c, clock);
      case DoSubmit(c, ti, li) =>
        if SendsOnClosed(s, a) { PanicKeepsInv(r, s); } else { SubmitStepOk(r, s, c, ti, li); }
      case DoTake(ti, li) => TakeStepOk(r, s, ti, li);
      case DoReturn(_, _, _) => OtherLaneStepOk(r, s, a);
      case DoReply(ti, li) => ReplyStepOk(r, s, ti, li);
      case DoReport(c, ti) => ReportStepOk(r, s, c, ti);
      case Finish(c) => FinishOk(r, s, c);
      case Settle(w) => SettleOk(r, s, w);
      case Cancel => SignalOk(r, s, a);
      case StopWorker(_) => SignalOk(r, s, a);
      case CloseLane(_, _) => OtherLaneStepOk(r, s, a);
      case ExitLane(_, _) => OtherLaneStepOk(r, s, a);
    }
  }

  // ---------- Runs ----------

  /** A finite run from a given state. */
  ghost predicate IsRun(r: Route, tr: seq<State>, acts: seq<Action>) {
    && |tr| == |acts| + 1
    && forall i: nat {:trigger acts[i]} :: i < |acts| ==>
         Enabled(r, tr[i], acts[i]) && tr[i + 1] == Step(r, tr[i], acts[i])
  }

  ghost predicate Reachable(r: Route, s: State) {
    exists tr: seq<State>, acts: seq<Action>, sub: bool ::
      IsRun(r, tr, acts) && tr[0] == Init(r, sub) && tr[|acts|] == s
  }

  lemma {:induction false} RunKeepsInv(r: Route, tr: seq<State>, acts: seq<Action>, i: nat)
    requires IsRun(r, tr, acts) && Inv(r, tr[0]) && i <= |acts|
    ensures Inv(r, tr[i])
  {
    if i > 0 {
      RunKeepsInv(r, tr, acts, i - 1);
      var a := acts[i - 1];
      StepOk(r, tr[i - 1], a);
    }
  }

  lemma ReachableOk(r: Route, s: State)
    requires Reachable(r, s)
    ensures Inv(r, s)
  {
    var tr, acts, sub :| IsRun(r, tr, acts) && tr[0] == Init(r, sub) && tr[|acts|] == s;
    InitOk(r, sub);
    RunKeepsInv(r, tr, acts, |acts|);
  }

  // ---------- Fan-out exactness ----------

  /** The egress of target ti was asked once, for call c, to publish `body`, and that publish returned `status`. */
  ghost predicate PublishedOnce(s: State, ti: nat, c: nat, body: Delivery, status: Status)
    requires ti < |s.banks|
  {
    var b := s.banks[ti];
    && Sent(c, body) in b.sent && multiset(SentCalls(b.sent))[c] == 1
    && Answer(c, status) in b.answers && multiset(AnsweredCalls(b.answers))[c] == 1
  }

  lemma {:induction false} NoDupCount<T(!new)>(s: seq<T>, x: T)
    requires NoDup(s) && x in s
    ensures multiset(s)[x] == 1
  {
    var n := |s| - 1;
    assert s == s[..n] + [s[n]];
    if s[n] == x {
      assert x !in s[..n];
    } else {
      NoDupCount(s[..n], x);
    }
  }

  lemma ReportedIsPublished(r: Route, s: State, ti: nat, c: nat)
    requires Inv(r, s) && ti < |s.banks| && c < |s.calls| && PcAt(s, ti, c).Reported?
    ensures PublishedOnce(s, ti, c, Body(s.calls[c].msg), PcAt(s, ti, c).status)
  {
    var b := s.banks[ti];
    assert BankOk(b) && JobOk(b, c) && Taken(b, c) && Answered(b, c);
    assert c in SentCalls(b.sent) && c in AnsweredCalls(b.answers);
    NoDupCount(SentCalls(b.sent), c);
    NoDupCount(AnsweredCalls(b.answers), c);
    var i :| 0 <= i < |b.sent| && b.sent[i].call == c;
    assert b.sent[i] in b.sent;
  }

  /** Every target's egress was asked exactly once for call c, with the same body. */
  ghost predicate PublishedEverywhere(s: State, c: nat, body: Delivery) {
    forall ti: nat :: ti < |s.banks| ==> AskedOnce(s, ti, c, body)
  }

  ghost predicate AskedOnce(s: State, ti: nat, c: nat, body: Delivery)
    requires ti < |s.banks|
  {
    exists st :: PublishedOnce(s, ti, c, body, st)
  }

  ghost predicate AllSucceeded(s: State, c: nat, body: Delivery) {
    forall ti: nat :: ti < |s.banks| ==> PublishedOnce(s, ti, c, body, Nil)
  }

  ghost predicate NothingPublished(s: State, c: nat) {
    forall ti: nat :: ti < |s.banks| ==>
      c !in SentCalls(s.banks[ti].sent) && c !in AnsweredCalls(s.banks[ti].answers)
  }

  /** A publish to target ti failed, and `status` is its error wrapped with the target's name. */
  ghost predicate SomeFailure(r: Route, s: State, c: nat, body: Delivery, status: Status) {
    exists ti: nat, text ::
      && ti < |s.banks| && ti < |r.targets|
      && PublishedOnce(s, ti, c, body, Err(text))
      && status == Wrapped(r.targets[ti], Err(text))
  }

  /**
   * A returned handler call: if the stages accepted its message, every target's egress was asked exactly
   * once, all with the same processed bytes and the delivered metadata unchanged, and the handler's result
   * is nil iff every publish returned nil, otherwise the error of one target that failed. If the stages
   * rejected the message, nothing was published for it and the result is that rejection.
   */
  lemma FanOutExact(r: Route, s: State, c: nat)
    requires Inv(r, s) && c < |s.calls| && s.calls[c].phase.Returned?
    ensures var k := s.calls[c];
      match Process(r.stages, Arrived(k.input), [])
      case Crashed => false
      case Rejected(text) => k.phase.status == Err(text) && NothingPublished(s, c)
      case Accepted(msg) =>
        var body := Delivery(msg.value, k.input.meta);
        && PublishedEverywhere(s, c, body)
        && (k.phase.status == Nil <==> AllSucceeded(s, c, body))
        && (k.phase.status != Nil ==> SomeFailure(r, s, c, body, k.phase.status))
  {
    var k := s.calls[c];
    assert CallOk(r, s, c);
    var out := Process(r.stages, Arrived(k.input), []);
    if out.Rejected? {
      forall ti: nat | ti < |s.banks|
        ensures c !in SentCalls(s.banks[ti].sent) && c !in AnsweredCalls(s.banks[ti].answers)
      {
        assert PcAt(s, ti, c).Absent? && BankOk(s.banks[ti]);
        assert !Taken(s.banks[ti], c) && !Answered(s.banks[ti], c);
      }
    } else {
      AcceptedFanOut(r, s, c, out.msg);
    }
  }

  lemma AcceptedFanOut(r: Route, s: State, c: nat, msg: Message)
    requires Inv(r, s) && c < |s.calls| && s.calls[c].phase.Returned?
    requires Process(r.stages, Arrived(s.calls[c].input), []) == Accepted(msg)
    ensures var k := s.calls[c];
      var body := Delivery(msg.value, k.input.meta);
      && PublishedEverywhere(s, c, body)
      && (k.phase.status == Nil <==> AllSucceeded(s, c, body))
      && (k.phase.status != Nil ==> SomeFailure(r, s, c, body, k.phase.status))
  {
    var k := s.calls[c];
    assert CallOk(r, s, c);
    MetaUnchanged(r, k.input);
    var body := Delivery(msg.value, k.input.meta);
    assert body == Body(k.msg);
    forall ti: nat | ti < |s.banks| ensures PublishedOnce(s, ti, c, body, PcAt(s, ti, c).status) {
      ReportedIsPublished(r, s, ti, c);
    }
    assert PublishedEverywhere(s, c, body) by {
      forall ti: nat | ti < |s.banks| ensures AskedOnce(s, ti, c, body) {
        assert PublishedOnce(s, ti, c, body, PcAt(s, ti, c).status);
      }
    }
    if k.phase.status != Nil {
      var ti: nat :| ti < |s.banks| && FailedWith(r, s, c, ti, k.phase.status);
      assert PublishedOnce(s, ti, c, body, Err(PcAt(s, ti, c).status.text));
      assert BankOk(s.banks[ti]);
      OneAnswer(s, ti, c, PcAt(s, ti, c).status);
      assert !PublishedOnce(s, ti, c, body, Nil);
      assert SomeFailure(r, s, c, body, k.phase.status);
    } else {
      forall ti: nat | ti < |s.banks| ensures PublishedOnce(s, ti, c, body, Nil) {
        assert PcAt(s, ti, c) == Reported(Nil);
        assert PublishedOnce(s, ti, c, body, PcAt(s, ti, c).status);
      }
    }
  }

  lemma OneAnswer(s: State, ti: nat, c: nat, status: Status)
    requires ti < |s.banks| && NoDup(AnsweredCalls(s.banks[ti].answers)) && Answer(c, status) in s.banks[ti].answers
    ensures forall st :: Answer(c, st) in s.banks[ti].answers ==> st == status
  {
    var ans := s.banks[ti].answers;
    forall st | Answer(c, st) in ans ensures st == status {
      var i :| 0 <= i < |ans| && ans[i] == Answer(c, st);
      var j :| 0 <= j < |ans| && ans[j] == Answer(c, status);
      assert AnsweredCalls(ans)[i] == AnsweredCalls(ans)[j];
    }
  }

  /** The stages may rewrite the payload but the metadata reaches the egress as the ingress built it. */
  lemma MetaUnchanged(r: Route, d: Delivery)
    requires Process(r.stages, Arrived(d), []).Accepted?
    ensures Body(Process(r.stages, Arrived(d), []).msg).meta == d.meta
  {
    ArrivedFromBus(d);
  }

  // ---------- Panics ----------

  /** The process panics exactly when a goroutine sends its job on a lane that has been closed. */
  lemma PanicsOnlyOnClosedLane(r: Route, s: State, a: Action)
    requires Inv(r, s) && Enabled(r, s, a)
    ensures Step(r, s, a).panicked <==> SendsOnClosed(s, a)
  {
    if a.RunStages? {
      RunStagesOk(r, s, a.c, a.clock);
    }
  }

  // ---------- Occupancy ----------

  ghost function LiveCalls(s: State): set<nat> {
    set c: nat | c < |s.calls| && Live(s, c)
  }

  /** Calls with a job at bank ti that its goroutine has not reported yet. */
  ghost function Outstanding(s: State, ti: nat): set<nat>
    requires ti < |s.banks|
  {
    set c: nat | c < |s.banks[ti].jobs| && !PcAt(s, ti, c).Absent? && !PcAt(s, ti, c).Reported?
  }

  /** At most one handler call per ingress worker is in progress. */
  lemma LiveCallsBounded(r: Route, s: State)
    requires Inv(r, s)
    ensures |LiveCalls(s)| <= |s.workers| <= r.workers
  {
    var owner := (c: nat) => if c < |s.calls| then s.calls[c].worker else 0;
    InjectionFits(LiveCalls(s), owner, Below(|s.workers|));
  }

  lemma OutstandingIsLive(r: Route, s: State, ti: nat)
    requires Inv(r, s) && ti < |s.banks|
    ensures Outstanding(s, ti) <= LiveCalls(s)
  {
    forall c | c in Outstanding(s, ti) ensures c in LiveCalls(s) {
      assert CallOk(r, s, c);
      assert !s.calls[c].phase.Returned?;
    }
  }

  lemma SubsetFits<T>(a: set<T>, b: set<T>)
    requires a <= b
    ensures |a| <= |b|
  {
    assert b == a + (b - a);
  }

  /** Each target has at most as many outstanding jobs as the ingress has workers; so has each lane. */
  lemma OccupancyBound(r: Route, s: State, ti: nat, li: nat)
    requires Inv(r, s) && ti < |s.banks| && li < LANES
    ensures |Outstanding(s, ti)| <= r.workers
    ensures |s.banks[ti].lanes[li].queue| <= |Outstanding(s, ti)|
  {
    LiveCallsBounded(r, s);
    OutstandingIsLive(r, s, ti);
    SubsetFits(Outstanding(s, ti), LiveCalls(s));
    var b := s.banks[ti];
    assert BankOk(b) && LaneOk(b, li);
    forall i | 0 <= i < |b.lanes[li].queue| ensures b.lanes[li].queue[i] in Outstanding(s, ti) {
      assert InLane(b, b.lanes[li].queue[i], li);
    }
    NoDupFits(b.lanes[li].queue, Outstanding(s, ti));
  }

  /** While c is ready to submit, its lane holds only other calls, so it is strictly below the bound. */
  lemma RoomToSubmit(r: Route, s: State, c: nat, ti: nat, li: nat)
    requires Inv(r, s) && ti < |s.banks| && Submitting(s.banks[ti], c, li)
    ensures |s.banks[ti].lanes[li].queue| < r.workers
  {
    OccupancyBound(r, s, ti, li);
    var b := s.banks[ti];
    assert BankOk(b) && LaneOk(b, li) && c in Outstanding(s, ti);
    forall i | 0 <= i < |b.lanes[li].queue| ensures b.lanes[li].queue[i] in Outstanding(s, ti) - {c} {
      assert InLane(b, b.lanes[li].queue[i], li);
    }
    NoDupFits(b.lanes[li].queue, Outstanding(s, ti) - {c});
    assert |Outstanding(s, ti) - {c}| == |Outstanding(s, ti)| - 1;
  }

  /** No send of the protocol ever blocks: lanes and done have room, and so does errs (lemma ErrsNeverFull). */
  lemma SendsNeverBlock(r: Route, s: State, ti: nat, c: nat, li: nat)
    requires Inv(r, s) && r.workers <= LANE_BUFFER && ti < |s.banks|
    ensures Submitting(s.banks[ti], c, li) && !s.banks[ti].lanes[li].closed ==> CanSubmit(s.banks[ti], c, li)
    ensures Replies(s.banks[ti], li) ==> CanReply(s.banks[ti], li)
  {
    if Submitting(s.banks[ti], c, li) {
      RoomToSubmit(r, s, c, ti, li);
    }
    if li < |s.banks[ti].lanes| {
      assert BankOk(s.banks[ti]) && LaneOk(s.banks[ti], li);
    }
  }

  /** A goroutine with a reply always finds room on errs, whose capacity is the number of targets. */
  lemma ErrsNeverFull(r: Route, s: State, c: nat, ti: nat)
    requires Inv(r, s) && !s.panicked && ti < |s.banks| && c < |s.calls| && CanReport(s.banks[ti], c)
    ensures Enabled(r, s, DoReport(c, ti))
  {
    assert CallOk(r, s, c) && !PcAt(s, ti, c).Absent? && !PcAt(s, ti, c).Reported?;
    var errs := s.calls[c].phase.errs;
    forall i | 0 <= i < |errs| ensures Targets(errs)[i] in Below(|s.banks|) - {ti} {
      assert errs[i] in errs;
    }
    NoDupFits(Targets(errs), Below(|s.banks|) - {ti});
    assert |Below(|s.banks|) - {ti}| == |s.banks| - 1;
  }
}
