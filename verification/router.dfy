// One running route as a labelled transition system: ingress workers, handler calls, the banks of
// lanes of its targets, cancellation and lane closing (internal/router/router.go:144-314).
// All scheduling, lane choice, clock readings and publish results are in the action labels.
module Router {
  import opened Prelude
  import opened Pipeline
  import opened Bank

  datatype Target = Target(connector: string, target: string)

  /** workers: goroutines of the ingress that call the handler (10 for Kafka, 1 for RabbitMQ). */
  datatype Route = Route(workers: nat, stages: Stages, targets: seq<Target>)

  /** One send on the handler's errs channel. */
  datatype ErrSend = ErrSend(target: nat, status: Status)

  datatype Phase =
    | Entered                          // handler called, stages not yet run
    | FannedOut(errs: seq<ErrSend>)   // goroutines spawned; errs holds what they sent so far
    | Returned(status: Status)

  /** One handler call; `msg` is the router.Message its jobs point to. */
  datatype Call = Call(worker: nat, input: Delivery, msg: Message, phase: Phase)

  datatype Worker = Free | Running(call: nat) | Stopped

  /** listening: Subscribe succeeded. panicked: some goroutine panicked and the process is gone. */
  datatype State = State(
    workers: seq<Worker>,
    calls: seq<Call>,
    banks: seq<Bank>,
    listening: bool,
    cancelled: bool,
    panicked: bool)

  datatype Action =
    | Begin(w: nat, d: Delivery)             // an ingress worker calls the handler
    | RunStages(c: nat, clock: seq<int>)     // decode, filter, project, spawn one goroutine per target
    | DoSubmit(c: nat, ti: nat, li: nat)     // a goroutine sends its job on lane li of target ti
    | DoTake(ti: nat, li: nat)               // a lane worker receives a job and calls Publish
    | DoReturn(ti: nat, li: nat, status: Status)
    | DoReply(ti: nat, li: nat)              // done <- err
    | DoReport(c: nat, ti: nat)              // errs <- ...
    | Finish(c: nat)                         // wgPub.Wait over; errs scanned; handler returns
    | Settle(w: nat)                         // the ingress acts on the handler's result
    | Cancel
    | CloseLane(ti: nat, li: nat)
    | ExitLane(ti: nat, li: nat)
    | StopWorker(w: nat)

  function Arrived(d: Delivery): Message {
    Message(d.payload, Some(map k | k in d.meta :: Str(d.meta[k])))
  }

  function AnyText(v: Any): string {
    match v case Str(s) => s case Number(n) => Text.FormatInt(n)
  }

  /** What Bus.Publish hands to the egress for a router.Message. */
  function Body(m: Message): Delivery {
    Delivery(m.value, if m.meta.None? then map[] else map k | k in m.meta.value :: AnyText(m.meta.value[k]))
  }

  function Wrapped(t: Target, status: Status): Status {
    match status case Nil => Nil case Err(text) => Err(t.connector + "/" + t.target + ": " + text)
  }

  /** The scan over errs: the first error received, if any. */
  function FirstError(r: Route, errs: seq<ErrSend>): Status {
    if errs == [] then Nil
    else if errs[0].status.Nil? || errs[0].target >= |r.targets| then FirstError(r, errs[1..])
    else Wrapped(r.targets[errs[0].target], errs[0].status)
  }

  function Init(r: Route, subscribed: bool): State {
    State(if subscribed then seq(r.workers, _ => Free) else [],
          [], seq(|r.targets|, _ => NewBank()), subscribed, !subscribed, false)
  }

  // ---------- Enabledness and effect of each action ----------

  predicate InFanOut(s: State, c: nat) {
    c < |s.calls| && s.calls[c].phase.FannedOut?
  }

  predicate AllReported(s: State, c: nat) {
    forall ti :: 0 <= ti < |s.banks| ==> c < |s.banks[ti].jobs| && s.banks[ti].jobs[c].pc.Reported?
  }

  predicate Enabled(r: Route, s: State, a: Action) {
    !s.panicked &&
    match a
    case Begin(w, _) => w < |s.workers| && s.workers[w].Free?
    case RunStages(c, _) =>
      c < |s.calls| && s.calls[c].phase.Entered? && forall ti :: 0 <= ti < |s.banks| ==> c < |s.banks[ti].jobs|
    case DoSubmit(c, ti, li) =>
      InFanOut(s, c) && ti < |s.banks| && Submitting(s.banks[ti], c, li)
      && (s.banks[ti].lanes[li].closed || CanSubmit(s.banks[ti], c, li))
    case DoTake(ti, li) => ti < |s.banks| && CanTake(s.banks[ti], li) && s.banks[ti].lanes[li].queue[0] < |s.calls|
    case DoReturn(ti, li, _) => ti < |s.banks| && CanReturn(s.banks[ti], li)
    case DoReply(ti, li) => ti < |s.banks| && CanReply(s.banks[ti], li)
    case DoReport(c, ti) =>
      InFanOut(s, c) && ti < |s.banks| && CanReport(s.banks[ti], c)
      && |s.calls[c].phase.errs| < |r.targets|
    case Finish(c) => InFanOut(s, c) && AllReported(s, c)
    case Settle(w) =>
      w < |s.workers| && s.workers[w].Running? && s.workers[w].call < |s.calls|
      && s.calls[s.workers[w].call].phase.Returned?
    case Cancel => !s.cancelled
    case CloseLane(ti, li) => s.listening && s.cancelled && ti < |s.banks| && CanClose(s.banks[ti], li)
    case ExitLane(ti, li) => ti < |s.banks| && CanExit(s.banks[ti], li)
    case StopWorker(w) => s.cancelled && w < |s.workers| && s.workers[w].Free?
  }

  function WithBank(s: State, ti: nat, b: Bank): State
    requires ti < |s.banks|
  {
    s.(banks := s.banks[ti := b])
  }

  function WithCall(s: State, c: nat, k: Call): State
    requires c < |s.calls|
  {
    s.(calls := s.calls[c := k])
  }

  function Spawned(banks: seq<Bank>, c: nat): seq<Bank>
    requires forall ti :: 0 <= ti < |banks| ==> c < |banks[ti].jobs|
  {
    seq(|banks|, ti requires 0 <= ti < |banks| => Spawn(banks[ti], c))
  }

  function Admitted(banks: seq<Bank>): seq<Bank> {
    seq(|banks|, ti requires 0 <= ti < |banks| => Admit(banks[ti]))
  }

  function Step(r: Route, s: State, a: Action): State
    requires Enabled(r, s, a)
  {
    match a
    case Begin(w, d) =>
      s.(workers := s.workers[w := Running(|s.calls|)],
         calls := s.calls + [Call(w, d, Arrived(d), Entered)],
         banks := Admitted(s.banks))
    case RunStages(c, clock) =>
      var k := s.calls[c];
      (match Process(r.stages, k.msg, clock)
       case Accepted(msg) => WithCall(s, c, k.(msg := msg, phase := FannedOut([]))).(banks := Spawned(s.banks, c))
       case Rejected(text) => WithCall(s, c, k.(phase := Returned(Err(text))))
       case Crashed => s.(panicked := true))
    case DoSubmit(c, ti, li) =>
      if s.banks[ti].lanes[li].closed then s.(panicked := true)    // send on closed channel
      else WithBank(s, ti, Submit(s.banks[ti], c, li))
    case DoTake(ti, li) =>
      WithBank(s, ti, Take(s.banks[ti], li, Body(s.calls[s.banks[ti].lanes[li].queue[0]].msg)))
    case DoReturn(ti, li, status) => WithBank(s, ti, Return(s.banks[ti], li, status))
    case DoReply(ti, li) => WithBank(s, ti, Reply(s.banks[ti], li))
    case DoReport(c, ti) =>
      var k := s.calls[c];
      WithBank(WithCall(s, c, k.(phase := FannedOut(k.phase.errs + [ErrSend(ti, s.banks[ti].jobs[c].done[0])]))),
               ti, Report(s.banks[ti], c))
    case Finish(c) =>
      var k := s.calls[c];
      WithCall(s, c, k.(phase := Returned(FirstError(r, k.phase.errs))))
    case Settle(w) => s.(workers := s.workers[w := Free])
    case Cancel => s.(cancelled := true)
    case CloseLane(ti, li) => WithBank(s, ti, Close(s.banks[ti], li))
    case ExitLane(ti, li) => WithBank(s, ti, Exit(s.banks[ti], li))
    case StopWorker(w) => s.(workers := s.workers[w := Stopped])
  }

  // ---------- Invariant ----------

  function PcAt(s: State, ti: nat, c: nat): Pc
    requires ti < |s.banks| && c < |s.banks[ti].jobs|
  {
    s.banks[ti].jobs[c].pc
  }

  ghost predicate Shape(r: Route, s: State) {
    && |s.banks| == |r.targets|
    && |s.workers| <= r.workers
    && (forall ti: nat :: ti < |s.banks| ==> |s.banks[ti].jobs| == |s.calls|)
  }

  ghost predicate Live(s: State, c: nat)
    requires c < |s.calls|
  {
    s.calls[c].worker < |s.workers| && s.workers[s.calls[c].worker] == Running(c)
  }

  /** Calls belong to their workers: a call that has not returned is the one its worker is running. */
  ghost predicate WorkersOk(s: State) {
    && (forall w: nat :: w < |s.workers| && s.workers[w].Running? ==>
          s.workers[w].call < |s.calls| && s.calls[s.workers[w].call].worker == w)
    && (forall w: nat, c: nat {:trigger s.workers[w], s.calls[c]} ::
          w < |s.workers| && s.workers[w].Running? && c < |s.calls| && s.calls[c].worker == w ==>
            c <= s.workers[w].call)
    && (forall c: nat :: c < |s.calls| ==> s.calls[c].worker < |s.workers|)
    && (forall c: nat :: c < |s.calls| && !s.calls[c].phase.Returned? ==> Live(s, c))
  }

  function Targets(errs: seq<ErrSend>): seq<nat> {
    seq(|errs|, i requires 0 <= i < |errs| => errs[i].target)
  }

  /** errs holds one entry per target whose goroutine has reported, with that goroutine's status. */
  ghost predicate ErrsOk(s: State, c: nat, errs: seq<ErrSend>)
    requires forall ti: nat :: ti < |s.banks| ==> |s.banks[ti].jobs| == |s.calls|
    requires c < |s.calls|
  {
    && NoDup(Targets(errs))
    && (forall e :: e in errs ==> e.target < |s.banks| && PcAt(s, e.target, c) == Reported(e.status))
    && (forall ti: nat :: ti < |s.banks| && PcAt(s, ti, c).Reported? ==> ErrSend(ti, PcAt(s, ti, c).status) in errs)
  }

  /** The verdict of a fan-out: nil exactly when every target reported nil, else some target's error. */
  ghost predicate FanOutVerdict(r: Route, s: State, c: nat, status: Status)
    requires Shape(r, s) && c < |s.calls|
  {
    && (forall ti: nat :: ti < |s.banks| ==> PcAt(s, ti, c).Reported?)
    && (status == Nil ==> forall ti: nat :: ti < |s.banks| ==> PcAt(s, ti, c) == Reported(Nil))
    && (status != Nil ==> exists ti: nat :: ti < |s.banks| && FailedWith(r, s, c, ti, status))
  }

  ghost predicate FailedWith(r: Route, s: State, c: nat, ti: nat, status: Status)
    requires Shape(r, s) && c < |s.calls| && ti < |s.banks|
  {
    var pc := PcAt(s, ti, c);
    pc.Reported? && pc.status != Nil && status == Wrapped(r.targets[ti], pc.status)
  }

  ghost predicate CallOk(r: Route, s: State, c: nat)
    requires Shape(r, s) && c < |s.calls|
  {
    var k := s.calls[c];
    var out := Process(r.stages, Arrived(k.input), []);
    match k.phase
    case Entered => k.msg == Arrived(k.input) && NotSpawned(s, c)
    case FannedOut(errs) => out == Accepted(k.msg) && ErrsOk(s, c, errs) && SpawnedEverywhere(s, c)
    case Returned(status) =>
      match out
      case Accepted(msg) => k.msg == msg && FanOutVerdict(r, s, c, status)
      case Rejected(text) => status == Err(text) && NotSpawned(s, c)
      case Crashed => false
  }

  ghost predicate NotSpawned(s: State, c: nat)
    requires forall ti: nat :: ti < |s.banks| ==> |s.banks[ti].jobs| == |s.calls|
    requires c < |s.calls|
  {
    forall ti: nat :: ti < |s.banks| ==> PcAt(s, ti, c).Absent?
  }

  ghost predicate SpawnedEverywhere(s: State, c: nat)
    requires forall ti: nat :: ti < |s.banks| ==> |s.banks[ti].jobs| == |s.calls|
    requires c < |s.calls|
  {
    forall ti: nat :: ti < |s.banks| ==> !PcAt(s, ti, c).Absent?
  }

  /** Every publish carried the current value of its call's message. */
  ghost predicate BodiesOk(s: State) {
    forall ti: nat, e {:trigger e in s.banks[ti].sent} :: ti < |s.banks| && e in s.banks[ti].sent ==>
      e.call < |s.calls| && !s.calls[e.call].phase.Entered? && e.body == Body(s.calls[e.call].msg)
  }

  /** Lanes are closed only after cancellation, and only by a route that was subscribed. */
  ghost predicate ClosingOk(s: State) {
    forall ti: nat, li: nat {:trigger s.banks[ti].lanes[li]} ::
      ti < |s.banks| && li < |s.banks[ti].lanes| && s.banks[ti].lanes[li].closed ==> s.listening && s.cancelled
  }

  ghost predicate Inv(r: Route, s: State) {
    && Shape(r, s)
    && WorkersOk(s)
    && (forall ti: nat :: ti < |s.banks| ==> BankOk(s.banks[ti]))
    && (forall c: nat :: c < |s.calls| ==> CallOk(r, s, c))
    && BodiesOk(s)
    && ClosingOk(s)
  }
}
