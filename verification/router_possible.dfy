// What a route can do: runs that attain the bounds of RouterSafety and every outcome of a handler call
// (internal/router/router.go:166-306).
module RouterPossible {
  import opened Prelude
  import opened Pipeline
  import opened Bank
  import opened Router
  import opened RouterSafety
  import opened RouterShutdown

  // ---------- Runs inside the handlers and lanes ----------

  /** Steps of handlers, lanes and shutdown lead from s to t; no worker begins or settles a call on the way. */
  ghost predicate LeadsInside(r: Route, s: State, t: State) {
    exists tr: seq<State>, acts: seq<Action> ::
      IsRun(r, tr, acts) && tr[0] == s && tr[|acts|] == t && forall a :: a in acts ==> !a.Begin? && !a.Settle?
  }

  lemma InsideNothing(r: Route, s: State)
    ensures LeadsInside(r, s, s)
  {
    var none: seq<Action> := [];
    assert IsRun(r, [s], none) && [s][|none|] == s;
  }

  lemma AppendStep(r: Route, tr: seq<State>, acts: seq<Action>, a: Action)
    requires IsRun(r, tr, acts) && Enabled(r, tr[|acts|], a)
    ensures IsRun(r, tr + [Step(r, tr[|acts|], a)], acts + [a])
  {
    var tr', acts' := tr + [Step(r, tr[|acts|], a)], acts + [a];
    forall i: nat | i < |acts'| ensures Enabled(r, tr'[i], acts'[i]) && tr'[i + 1] == Step(r, tr'[i], acts'[i]) {
      if i < |acts| { assert acts'[i] == acts[i]; }
    }
  }

  lemma InsideStep(r: Route, s: State, t: State, a: Action)
    requires LeadsInside(r, s, t) && Enabled(r, t, a) && !a.Begin? && !a.Settle?
    ensures LeadsInside(r, s, Step(r, t, a))
  {
    var tr: seq<State>, acts: seq<Action> :|
      IsRun(r, tr, acts) && tr[0] == s && tr[|acts|] == t && forall a :: a in acts ==> !a.Begin? && !a.Settle?;
    AppendStep(r, tr, acts, a);
    assert (tr + [Step(r, t, a)])[|acts + [a]|] == Step(r, t, a);
  }

  lemma ReachStep(r: Route, s: State, a: Action)
    requires Reachable(r, s) && Enabled(r, s, a)
    ensures Reachable(r, Step(r, s, a))
  {
    var tr: seq<State>, acts: seq<Action>, sub: bool :|
      IsRun(r, tr, acts) && tr[0] == Init(r, sub) && tr[|acts|] == s;
    AppendStep(r, tr, acts, a);
    ReachBy(r, tr + [Step(r, s, a)], acts + [a], sub);
  }

  lemma ReachBy(r: Route, tr: seq<State>, acts: seq<Action>, sub: bool)
    requires IsRun(r, tr, acts) && tr[0] == Init(r, sub)
    ensures Reachable(r, tr[|acts|])
  {
  }

  lemma ConcatRun(r: Route, tr: seq<State>, acts: seq<Action>, later: seq<State>, more: seq<Action>)
    requires IsRun(r, tr, acts) && IsRun(r, later, more) && later[0] == tr[|acts|]
    ensures IsRun(r, tr + later[1..], acts + more)
    ensures (tr + later[1..])[|acts + more|] == later[|more|] && (tr + later[1..])[0] == tr[0]
  {
    var tr', acts' := tr + later[1..], acts + more;
    forall i: nat | i < |acts'| ensures Enabled(r, tr'[i], acts'[i]) && tr'[i + 1] == Step(r, tr'[i], acts'[i]) {
      if i < |acts| { assert acts'[i] == acts[i]; } else { assert acts'[i] == more[i - |acts|]; }
    }
  }

  lemma ReachRun(r: Route, s: State, later: seq<State>, more: seq<Action>)
    requires Reachable(r, s) && IsRun(r, later, more) && later[0] == s
    ensures Reachable(r, later[|more|])
  {
    var tr: seq<State>, acts: seq<Action>, sub: bool :|
      IsRun(r, tr, acts) && tr[0] == Init(r, sub) && tr[|acts|] == s;
    ConcatRun(r, tr, acts, later, more);
    ReachBy(r, tr + later[1..], acts + more, sub);
  }

  lemma ReachInside(r: Route, s: State, t: State)
    requires Reachable(r, s) && LeadsInside(r, s, t)
    ensures Reachable(r, t)
  {
    var tr: seq<State>, acts: seq<Action> :| IsRun(r, tr, acts) && tr[0] == s && tr[|acts|] == t;
    ReachRun(r, s, tr, acts);
  }

  lemma ReachInit(r: Route)
    ensures Reachable(r, Init(r, true))
  {
    var none: seq<Action> := [];
    assert IsRun(r, [Init(r, true)], none) && [Init(r, true)][|none|] == Init(r, true);
  }

  // ---------- One call through the stages and to its targets ----------

  /** The stages accept the delivery. */
  predicate Passes(r: Route, d: Delivery) {
    Process(r.stages, Arrived(d), []).Accepted?
  }

  /** Call c has just been fanned out: no reports yet, and a goroutine ready at every target. */
  ghost predicate JustFannedOut(s: State, c: nat) {
    && c < |s.calls| && s.calls[c].phase == FannedOut([])
    && forall ti: nat :: ti < |s.banks| ==> c < |s.banks[ti].jobs| && s.banks[ti].jobs[c] == Job(Ready, [])
  }

  lemma StageCall(r: Route, s0: State, s: State, c: nat, w: nat, d: Delivery) returns (t: State)
    requires LeadsInside(r, s0, s) && !s.panicked && Passes(r, d)
    requires c < |s.calls| && s.calls[c] == Call(w, d, Arrived(d), Entered)
    requires forall ti: nat :: ti < |s.banks| ==> c < |s.banks[ti].jobs|
    ensures LeadsInside(r, s0, t) && JustFannedOut(t, c)
    ensures t == s.(calls := s.calls[c := t.calls[c]], banks := Spawned(s.banks, c))
    ensures t.calls[c] == Call(w, d, t.calls[c].msg, FannedOut([]))
  {
    t := Step(r, s, RunStages(c, []));
    InsideStep(r, s0, s, RunStages(c, []));
  }

  /** Call c has heard from the targets in `errs`; the lanes numbered li are free at all others. */
  ghost predicate Hearing(r: Route, s: State, c: nat, errs: seq<ErrSend>, order: seq<nat>, li: nat) {
    && !s.panicked && c < |s.calls| && s.calls[c].phase == FannedOut(errs) && |errs| + |order| <= |r.targets|
    && NoDup(order)
    && forall i: nat :: i < |order| ==> FreeFor(s, order[i], c, li)
  }

  ghost predicate FreeFor(s: State, ti: nat, c: nat, li: nat) {
    && ti < |s.banks| && c < |s.banks[ti].jobs| && s.banks[ti].jobs[c] == Job(Ready, [])
    && li < |s.banks[ti].lanes| && s.banks[ti].lanes[li] == Lane([], Idle, false)
  }

  /** What serving call c at one target leaves behind: its report, and all lanes as they were. */
  ghost predicate ServedAt(s: State, t: State, c: nat, ti: nat, status: Status)
    requires c < |s.calls| && s.calls[c].phase.FannedOut? && ti < |s.banks| && c < |s.banks[ti].jobs|
  {
    && ti < |t.banks| && t == s.(calls := t.calls, banks := s.banks[ti := t.banks[ti]])
    && t.calls == s.calls[c := s.calls[c].(phase := FannedOut(s.calls[c].phase.errs + [ErrSend(ti, status)]))]
    && t.banks[ti].lanes == s.banks[ti].lanes
    && t.banks[ti].jobs == s.banks[ti].jobs[c := Job(Reported(status), [])]
  }

  /** A job alone on an idle lane is published, answered and reported. */
  lemma Trip(b: Bank, c: nat, li: nat, body: Delivery, status: Status)
    requires c < |b.jobs| && b.jobs[c] == Job(Ready, []) && li < |b.lanes| && b.lanes[li] == Lane([], Idle, false)
    ensures CanSubmit(b, c, li)
    ensures var b1 := Submit(b, c, li);
      && CanTake(b1, li) && b1.lanes[li].queue == [c]
      && var b2 := Take(b1, li, body);
         && CanReturn(b2, li)
         && var b3 := Return(b2, li, status);
            && CanReply(b3, li)
            && var b4 := Reply(b3, li);
               && CanReport(b4, c) && b4.jobs[c].done == [status]
               && b4.lanes == b.lanes && Report(b4, c).jobs == b.jobs[c := Job(Reported(status), [])]
  {
    var b1 := Submit(b, c, li);
    assert b1.lanes[li].queue == [c];
    var b2 := Take(b1, li, body);
    assert b2.lanes[li] == Lane([], Publishing(c), false);
    var b4 := Reply(Return(b2, li, status), li);
    assert b4.lanes[li] == Lane([], Idle, false);
    assert b4.lanes == b.lanes;
    var sent := Job(Waiting(li), []);
    assert b1.jobs == b.jobs[c := sent] && b4.jobs == b1.jobs[c := Job(Waiting(li), [] + [status])];
    assert b4.jobs[c].done == [status] && b4.jobs[c].done[1..] == [];
    assert Report(b4, c).jobs == b4.jobs[c := Job(Reported(status), [])];
  }

  lemma Serve(r: Route, s0: State, s: State, c: nat, ti: nat, li: nat, status: Status) returns (t: State)
    requires LeadsInside(r, s0, s) && !s.panicked && FreeFor(s, ti, c, li)
    requires c < |s.calls| && s.calls[c].phase.FannedOut? && |s.calls[c].phase.errs| < |r.targets|
    ensures LeadsInside(r, s0, t) && ServedAt(s, t, c, ti, status)
  {
    var b, body := s.banks[ti], Body(s.calls[c].msg);
    Trip(b, c, li, body, status);
    var b1 := Submit(b, c, li);
    var s1 := WithBank(s, ti, b1);
    InsideStep(r, s0, s, DoSubmit(c, ti, li));
    var s2 := WithBank(s, ti, Take(b1, li, body));
    assert Step(r, s1, DoTake(ti, li)).banks == s2.banks;
    InsideStep(r, s0, s1, DoTake(ti, li));
    t := AnswerAndReport(r, s0, s2, c, ti, li, status);
  }

  lemma AnswerAndReport(r: Route, s0: State, s: State, c: nat, ti: nat, li: nat, status: Status) returns (t: State)
    requires LeadsInside(r, s0, s) && !s.panicked && ti < |s.banks| && CanReturn(s.banks[ti], li)
    requires c < |s.calls| && s.calls[c].phase.FannedOut? && |s.calls[c].phase.errs| < |r.targets|
    requires CanReply(Return(s.banks[ti], li, status), li)
    requires var b := Reply(Return(s.banks[ti], li, status), li); CanReport(b, c) && b.jobs[c].done == [status]
    ensures LeadsInside(r, s0, t)
    ensures t == s.(calls := t.calls, banks := s.banks[ti := Report(Reply(Return(s.banks[ti], li, status), li), c)])
    ensures t.calls == s.calls[c := s.calls[c].(phase := FannedOut(s.calls[c].phase.errs + [ErrSend(ti, status)]))]
  {
    var s1 := WithBank(s, ti, Return(s.banks[ti], li, status));
    InsideStep(r, s0, s, DoReturn(ti, li, status));
    var s2 := WithBank(s, ti, Reply(s1.banks[ti], li));
    assert Step(r, s1, DoReply(ti, li)).banks == s2.banks;
    InsideStep(r, s0, s1, DoReply(ti, li));
    t := Step(r, s2, DoReport(c, ti));
    InsideStep(r, s0, s2, DoReport(c, ti));
  }

  function Reports(order: seq<nat>, statuses: seq<Status>): seq<ErrSend>
    requires forall i :: 0 <= i < |order| ==> order[i] < |statuses|
  {
    seq(|order|, i requires 0 <= i < |order| => ErrSend(order[i], statuses[order[i]]))
  }

  /** What serving call c at the targets in `order` leaves behind. */
  ghost predicate ServedList(s: State, t: State, c: nat, errs: seq<ErrSend>, order: seq<nat>, statuses: seq<Status>)
    requires c < |s.calls| && forall i :: 0 <= i < |order| ==> order[i] < |statuses|
  {
    && |t.banks| == |s.banks| && t == s.(calls := t.calls, banks := t.banks)
    && t.calls == s.calls[c := s.calls[c].(phase := FannedOut(errs + Reports(order, statuses)))]
    && forall ti: nat :: ti < |s.banks| ==> AfterServing(s.banks[ti], t.banks[ti], c, ti in order)
  }

  /** The targets in `order` answer one after the other, each with its own status. */
  lemma {:induction false} ServeAll(r: Route, s0: State, s: State, c: nat, errs: seq<ErrSend>, order: seq<nat>,
                                    statuses: seq<Status>, li: nat) returns (t: State)
    requires LeadsInside(r, s0, s) && Hearing(r, s, c, errs, order, li)
    requires forall i :: 0 <= i < |order| ==> order[i] < |statuses|
    ensures LeadsInside(r, s0, t) && ServedList(s, t, c, errs, order, statuses)
    decreases |order|
  {
    if order == [] {
      t := s;
      assert errs + Reports(order, statuses) == errs;
    } else {
      var ti, rest := order[0], order[1..];
      assert FreeFor(s, order[0], c, li);
      var m := Serve(r, s0, s, c, ti, li, statuses[ti]);
      StillHearing(r, s, m, c, errs, order, statuses[ti], li);
      t := ServeAll(r, s0, m, c, errs + [ErrSend(ti, statuses[ti])], rest, statuses, li);
      ServedMore(s, m, t, c, errs, order, statuses);
    }
  }

  lemma ServedMore(s: State, m: State, t: State, c: nat, errs: seq<ErrSend>, order: seq<nat>, statuses: seq<Status>)
    requires order != [] && NoDup(order) && forall i :: 0 <= i < |order| ==> order[i] < |statuses|
    requires c < |s.calls| && s.calls[c].phase == FannedOut(errs)
    requires order[0] < |s.banks| && c < |s.banks[order[0]].jobs|
    requires ServedAt(s, m, c, order[0], statuses[order[0]])
    requires ServedList(m, t, c, errs + [ErrSend(order[0], statuses[order[0]])], order[1..], statuses)
    ensures ServedList(s, t, c, errs, order, statuses)
  {
    var ti, rest := order[0], order[1..];
    assert errs + [ErrSend(ti, statuses[ti])] + Reports(rest, statuses) == errs + Reports(order, statuses);
    assert t.calls == s.calls[c := t.calls[c]];
    forall tj: nat | tj < |s.banks| ensures AfterServing(s.banks[tj], t.banks[tj], c, tj in order) {
      assert AfterServing(m.banks[tj], t.banks[tj], c, tj in rest);
      assert tj in order <==> tj == ti || tj in rest;
      assert ti !in rest;
    }
  }

  lemma StillHearing(r: Route, s: State, m: State, c: nat, errs: seq<ErrSend>, order: seq<nat>, status: Status, li: nat)
    requires Hearing(r, s, c, errs, order, li) && order != [] && ServedAt(s, m, c, order[0], status)
    ensures Hearing(r, m, c, errs + [ErrSend(order[0], status)], order[1..], li)
  {
    forall i: nat | i < |order[1..]| ensures FreeFor(m, order[1..][i], c, li) {
      assert FreeFor(s, order[i + 1], c, li) && order[i + 1] != order[0];
    }
  }

  /** A served bank has the same lanes, the same other jobs, and call c reported; any other bank is unchanged. */
  ghost predicate AfterServing(b: Bank, t: Bank, c: nat, served: bool) {
    && t.lanes == b.lanes && |t.jobs| == |b.jobs|
    && (forall d: nat :: d < |b.jobs| && d != c ==> t.jobs[d] == b.jobs[d])
    && (if served then c < |t.jobs| && t.jobs[c].pc.Reported? else t == b)
  }

  /** Every target occurs in `order` exactly once. */
  ghost predicate AllTargets(r: Route, order: seq<nat>) {
    && |order| == |r.targets| && NoDup(order)
    && (forall i :: 0 <= i < |order| ==> order[i] < |r.targets|)
    && (forall ti: nat :: ti < |r.targets| ==> ti in order)
  }

  /** From position k on, the i-th target of the order is the first to fail. */
  ghost predicate FirstFailure(order: seq<nat>, statuses: seq<Status>, k: nat, i: nat)
    requires forall j :: 0 <= j < |order| ==> order[j] < |statuses|
  {
    k <= i < |order| && statuses[order[i]].Err? && forall j :: k <= j < i ==> statuses[order[j]] == Nil
  }

  /** Nil when all is well, otherwise the wrapped error of the first target in `order` that failed. */
  ghost predicate VerdictInOrder(r: Route, order: seq<nat>, statuses: seq<Status>, verdict: Status)
    requires |statuses| == |r.targets| && AllTargets(r, order)
  {
    && ((forall i :: 0 <= i < |order| ==> statuses[order[i]] == Nil) ==> verdict == Nil)
    && (forall i: nat :: FirstFailure(order, statuses, 0, i) ==>
          verdict == Wrapped(r.targets[order[i]], statuses[order[i]]))
  }

  lemma {:induction false} FirstErrorInOrder(r: Route, order: seq<nat>, statuses: seq<Status>, k: nat)
    requires |statuses| == |r.targets| && k <= |order| && forall i :: 0 <= i < |order| ==> order[i] < |r.targets|
    ensures var e := FirstError(r, Reports(order, statuses)[k..]);
      && ((forall i :: k <= i < |order| ==> statuses[order[i]] == Nil) ==> e == Nil)
      && (forall i: nat :: FirstFailure(order, statuses, k, i) ==>
            e == Wrapped(r.targets[order[i]], statuses[order[i]]))
    decreases |order| - k
  {
    var errs := Reports(order, statuses);
    if k < |order| {
      FirstErrorInOrder(r, order, statuses, k + 1);
      assert errs[k..][1..] == errs[k + 1..];
      assert errs[k..][0] == ErrSend(order[k], statuses[order[k]]);
    }
  }

  /** A call just fanned out, whose targets all have lane li free, gets any statuses in any order and returns. */
  lemma Complete(r: Route, s0: State, s: State, c: nat, order: seq<nat>, statuses: seq<Status>, li: nat)
    returns (t: State)
    requires LeadsInside(r, s0, s) && !s.panicked && |s.banks| == |r.targets| && JustFannedOut(s, c)
    requires forall ti: nat :: ti < |s.banks| ==> FreeFor(s, ti, c, li)
    requires |statuses| == |r.targets| && AllTargets(r, order)
    ensures LeadsInside(r, s0, t) && |t.banks| == |s.banks| && |t.calls| == |s.calls|
    ensures t == s.(calls := s.calls[c := t.calls[c]], banks := t.banks)
    ensures t.calls[c] == s.calls[c].(phase := t.calls[c].phase) && t.calls[c].phase.Returned?
    ensures VerdictInOrder(r, order, statuses, t.calls[c].phase.status)
    ensures forall ti: nat :: ti < |s.banks| ==> AfterServing(s.banks[ti], t.banks[ti], c, true)
  {
    var m := ServeAll(r, s0, s, c, [], order, statuses, li);
    var errs := Reports(order, statuses);
    assert [] + errs == errs && errs[0..] == errs;
    forall ti: nat | ti < |m.banks| ensures AfterServing(s.banks[ti], m.banks[ti], c, true) { assert ti in order; }
    FirstErrorInOrder(r, order, statuses, 0);
    t := Step(r, m, Finish(c));
    InsideStep(r, s0, m, Finish(c));
  }

  /** The targets in the order they are listed. */
  function InTurn(n: nat): seq<nat> {
    seq(n, i requires 0 <= i => i)
  }

  lemma InTurnIsAll(r: Route)
    ensures AllTargets(r, InTurn(|r.targets|))
  {
    forall ti: nat | ti < |r.targets| ensures ti in InTurn(|r.targets|) { assert InTurn(|r.targets|)[ti] == ti; }
  }

  // ---------- Every outcome is possible ----------

  /**
   * Whatever statuses the targets return and in whatever order they report, some run of the route ends with the
   * handler returning nil, respectively the first reported error.
   */
  lemma EveryOutcome(r: Route, d: Delivery, order: seq<nat>, statuses: seq<Status>, li: nat) returns (s: State)
    requires r.workers > 0 && Passes(r, d) && li < 16 && |statuses| == |r.targets| && AllTargets(r, order)
    ensures Reachable(r, s) && !s.panicked && |s.calls| == 1 && |s.workers| == r.workers && s.workers[0] == Running(0)
    ensures s.calls[0].input == d && s.calls[0].phase.Returned?
    ensures VerdictInOrder(r, order, statuses, s.calls[0].phase.status)
  {
    var s1 := FirstFetch(r, d);
    InsideNothing(r, s1);
    var s2 := StageCall(r, s1, s1, 0, 0, d);
    FreshIsFree(s2, 0, li, s1.banks);
    s := Complete(r, s1, s2, 0, order, statuses, li);
    ReachInside(r, s1, s);
  }

  /** Where no lane was ever used, every lane is free for a call just fanned out. */
  lemma FreshIsFree(s: State, c: nat, li: nat, banks: seq<Bank>)
    requires JustFannedOut(s, c) && li < LANES && |s.banks| == |banks|
    requires forall ti :: 0 <= ti < |banks| ==> s.banks[ti].lanes == banks[ti].lanes == NewBank().lanes
    ensures forall ti: nat :: ti < |s.banks| ==> FreeFor(s, ti, c, li)
  {
  }

  /** The first worker of a fresh route begins a call. */
  lemma FirstFetch(r: Route, d: Delivery) returns (s: State)
    requires r.workers > 0
    ensures Reachable(r, s) && Enabled(r, Init(r, true), Begin(0, d)) && s == Step(r, Init(r, true), Begin(0, d))
    ensures !s.panicked && s.listening && !s.cancelled && s.calls == [Call(0, d, Arrived(d), Entered)]
    ensures |s.workers| == r.workers && s.workers[0] == Running(0)
    ensures |s.banks| == |r.targets| && forall ti :: 0 <= ti < |r.targets| ==> s.banks[ti] == Admit(NewBank())
  {
    ReachInit(r);
    ReachStep(r, Init(r, true), Begin(0, d));
    s := Step(r, Init(r, true), Begin(0, d));
  }

  // ---------- Every worker busy, every job queued ----------

  /** The calls below n that were sent down lane li, in submission order. */
  function Routed(lane: nat -> nat, li: nat, n: nat): (q: seq<nat>)
    ensures |q| <= n
    ensures forall i :: 0 <= i < |q| ==> q[i] < n && lane(q[i]) == li
    ensures forall c: nat :: c < n && lane(c) == li ==> c in q
  {
    if n == 0 then [] else Routed(lane, li, n - 1) + if lane(n - 1) == li then [n - 1] else []
  }

  /** All jobs of the first n calls are queued on the lanes they were assigned, and no lane worker has taken any. */
  ghost predicate Queued(b: Bank, lane: nat -> nat, n: nat) {
    && |b.jobs| == n && |b.lanes| == 16
    && (forall c: nat :: c < n ==> b.jobs[c] == Job(Waiting(lane(c)), []))
    && (forall li: nat :: li < 16 ==> b.lanes[li] == Lane(Routed(lane, li, n), Idle, false))
  }

  /** The first n workers each hold a call of their own, fanned out, with a job queued at every target. */
  ghost predicate FullHouse(r: Route, s: State, ds: seq<Delivery>, lane: nat -> nat -> nat, n: nat) {
    && !s.panicked && s.listening && !s.cancelled
    && |s.workers| == r.workers && n <= r.workers && |s.calls| == n <= |ds| && |s.banks| == |r.targets|
    && (forall w: nat :: w < r.workers ==> s.workers[w] == if w < n then Running(w) else Free)
    && (forall c: nat :: c < n ==>
          s.calls[c].worker == c && s.calls[c].input == ds[c] && s.calls[c].phase == FannedOut([]))
    && (forall ti: nat :: ti < |s.banks| ==> Queued(s.banks[ti], lane(ti), n))
  }

  /** As Queued, but the next call's job is still to be sent. */
  ghost predicate AlmostQueued(b: Bank, lane: nat -> nat, n: nat) {
    && |b.jobs| == n + 1 && |b.lanes| == 16 && b.jobs[n] == Job(Ready, [])
    && (forall c: nat :: c < n ==> b.jobs[c] == Job(Waiting(lane(c)), []))
    && (forall li: nat :: li < 16 ==> b.lanes[li] == Lane(Routed(lane, li, n), Idle, false))
  }

  lemma QueueOne(b: Bank, lane: nat -> nat, n: nat)
    requires AlmostQueued(b, lane, n) && lane(n) < 16 && n < 8192
    ensures CanSubmit(b, n, lane(n)) && Queued(Submit(b, n, lane(n)), lane, n + 1)
  {
  }

  lemma {:induction false} QueueTargets(r: Route, s0: State, s: State, lane: nat -> nat -> nat, n: nat, k: nat)
    returns (t: State)
    requires LeadsInside(r, s0, s) && !s.panicked && n < |s.calls| && s.calls[n].phase.FannedOut?
    requires k <= |s.banks| && n < 8192 && forall ti: nat :: ti < |s.banks| ==> lane(ti)(n) < 16
    requires forall ti: nat :: ti < k ==> Queued(s.banks[ti], lane(ti), n + 1)
    requires forall ti: nat :: k <= ti < |s.banks| ==> AlmostQueued(s.banks[ti], lane(ti), n)
    ensures LeadsInside(r, s0, t) && t == s.(banks := t.banks) && |t.banks| == |s.banks|
    ensures forall ti: nat :: ti < |t.banks| ==> Queued(t.banks[ti], lane(ti), n + 1)
    decreases |s.banks| - k
  {
    t := s;
    if k < |s.banks| {
      var li := lane(k)(n);
      QueueOne(s.banks[k], lane(k), n);
      InsideStep(r, s0, s, DoSubmit(n, k, li));
      var m := WithBank(s, k, Submit(s.banks[k], n, li));
      t := QueueTargets(r, s0, m, lane, n, k + 1);
    }
  }

  /** One more worker gets a call, and its jobs are queued behind the others. */
  lemma SeatOne(r: Route, s: State, ds: seq<Delivery>, lane: nat -> nat -> nat, n: nat) returns (t: State)
    requires FullHouse(r, s, ds, lane, n) && n < r.workers <= 8192 && n < |ds| && Passes(r, ds[n])
    requires forall ti: nat :: ti < |r.targets| ==> lane(ti)(n) < 16
    ensures Enabled(r, s, Begin(n, ds[n])) && LeadsInside(r, Step(r, s, Begin(n, ds[n])), t)
    ensures FullHouse(r, t, ds, lane, n + 1)
  {
    var s1 := Step(r, s, Begin(n, ds[n]));
    InsideNothing(r, s1);
    var s2 := StageCall(r, s1, s1, n, n, ds[n]);
    forall ti: nat | ti < |s2.banks| ensures AlmostQueued(s2.banks[ti], lane(ti), n) {
      assert Queued(s.banks[ti], lane(ti), n);
    }
    t := QueueTargets(r, s1, s2, lane, n, 0);
  }

  lemma EmptyHouse(r: Route, ds: seq<Delivery>, lane: nat -> nat -> nat)
    ensures FullHouse(r, Init(r, true), ds, lane, 0)
  {
  }

  /**
   * The bounds are attained: with any acceptable deliveries and any assignment of jobs to lanes, some run ends with
   * every worker holding a call and all their jobs queued at every target.
   */
  lemma {:induction false} EveryWorkerBusy(r: Route, ds: seq<Delivery>, lane: nat -> nat -> nat, n: nat)
    returns (s: State)
    requires n <= r.workers <= 8192 && |ds| == r.workers && forall d :: d in ds ==> Passes(r, d)
    requires forall ti: nat, c: nat :: ti < |r.targets| && c < r.workers ==> lane(ti)(c) < 16
    ensures Reachable(r, s) && FullHouse(r, s, ds, lane, n)
  {
    if n == 0 {
      ReachInit(r);
      EmptyHouse(r, ds, lane);
      s := Init(r, true);
    } else {
      var m := EveryWorkerBusy(r, ds, lane, n - 1);
      s := SeatOne(r, m, ds, lane, n - 1);
      ReachStep(r, m, Begin(n - 1, ds[n - 1]));
      ReachInside(r, Step(r, m, Begin(n - 1, ds[n - 1])), s);
    }
  }

  // ---------- The panic is not hypothetical ----------

  /** Any subscribed route with a worker, a target and an acceptable delivery has a run that ends in a panic. */
  lemma PanicReachable(r: Route, d: Delivery) returns (s: State)
    requires r.workers > 0 && |r.targets| > 0 && Passes(r, d)
    ensures Reachable(r, s) && s.panicked
  {
    var s1 := FirstFetch(r, d);
    ReachStep(r, s1, Cancel);
    var s2 := Step(r, s1, Cancel);
    ReachableOk(r, s2);
    assert MaySubmit(r, s2, 0);
    var tr, acts := SubmitterPanics(r, s2, 0);
    ReachRun(r, s2, tr, acts);
    s := tr[|acts|];
  }
}
