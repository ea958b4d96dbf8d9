// The lanes of one target of a route: per-call submitter goroutines, sixteen buffered lanes,
// one worker goroutine per lane, and the reply channels (internal/router/router.go:144-199, 271-283).
// Every function below is one atomic step of one goroutine.
module Bank {
  import opened Prelude
  import opened Pipeline

  const LANES: nat := 16
  const LANE_BUFFER: nat := 8192
  const DONE_BUFFER: nat := 1

  /** What an ingress hands over, and what an egress is asked to publish. */
  datatype Delivery = Delivery(payload: Bytes, meta: map<string, string>)

  /** Where the goroutine that serves this target for one handler call stands. */
  datatype Pc =
    | Absent                      // not spawned
    | Ready                       // about to pick a lane and send its job
    | Waiting(lane: nat)          // job sent on that lane; blocked on the reply channel
    | Reported(status: Status)    // reply forwarded to the handler's errs channel

  /** The goroutine together with its job's reply channel `done`. */
  datatype Job = Job(pc: Pc, done: seq<Status>)

  /** A lane's worker goroutine. */
  datatype Hand =
    | Idle
    | Publishing(call: nat)                  // inside outBus.Publish
    | Replying(call: nat, status: Status)    // Publish returned; about to send on done
    | Exited

  datatype Lane = Lane(queue: seq<nat>, hand: Hand, closed: bool)

  /** History: calls to Publish in the order they were made, and the results in the order they returned. */
  datatype Sent = Sent(call: nat, body: Delivery)
  datatype Answer = Answer(call: nat, status: Status)

  /** jobs[c] belongs to handler call c. */
  datatype Bank = Bank(jobs: seq<Job>, lanes: seq<Lane>, sent: seq<Sent>, answers: seq<Answer>)

  function NewBank(): Bank {
    Bank([], seq(LANES, _ => Lane([], Idle, false)), [], [])
  }

  // ---------- Steps ----------

  function SetJob(b: Bank, c: nat, j: Job): Bank
    requires c < |b.jobs|
  {
    b.(jobs := b.jobs[c := j])
  }

  function SetLane(b: Bank, li: nat, l: Lane): Bank
    requires li < |b.lanes|
  {
    b.(lanes := b.lanes[li := l])
  }

  /** A new handler call appears. */
  function Admit(b: Bank): Bank {
    b.(jobs := b.jobs + [Job(Absent, [])])
  }

  /** The handler starts the goroutine of call c. */
  function Spawn(b: Bank, c: nat): Bank
    requires c < |b.jobs|
  {
    SetJob(b, c, Job(Ready, []))
  }

  predicate Submitting(b: Bank, c: nat, li: nat) {
    c < |b.jobs| && b.jobs[c].pc.Ready? && li < |b.lanes|
  }

  /** The send on a lane goes through when the lane is open and its buffer has room. */
  predicate CanSubmit(b: Bank, c: nat, li: nat) {
    Submitting(b, c, li) && !b.lanes[li].closed && |b.lanes[li].queue| < LANE_BUFFER
  }

  function Submit(b: Bank, c: nat, li: nat): Bank
    requires CanSubmit(b, c, li)
  {
    var l := b.lanes[li];
    SetLane(SetJob(b, c, b.jobs[c].(pc := Waiting(li))), li, l.(queue := l.queue + [c]))
  }

  predicate CanTake(b: Bank, li: nat) {
    li < |b.lanes| && b.lanes[li].hand.Idle? && b.lanes[li].queue != []
  }

  /** The worker receives the head job and calls Publish with `body`. */
  function Take(b: Bank, li: nat, body: Delivery): Bank
    requires CanTake(b, li)
  {
    var q := b.lanes[li].queue;
    SetLane(b, li, b.lanes[li].(queue := q[1..], hand := Publishing(q[0])))
    .(sent := b.sent + [Sent(q[0], body)])
  }

  predicate CanReturn(b: Bank, li: nat) {
    li < |b.lanes| && b.lanes[li].hand.Publishing?
  }

  function Return(b: Bank, li: nat, status: Status): Bank
    requires CanReturn(b, li)
  {
    var c := b.lanes[li].hand.call;
    SetLane(b, li, b.lanes[li].(hand := Replying(c, status)))
    .(answers := b.answers + [Answer(c, status)])
  }

  predicate Replies(b: Bank, li: nat) {
    li < |b.lanes| && b.lanes[li].hand.Replying? && b.lanes[li].hand.call < |b.jobs|
  }

  /** The send on done goes through when its buffer has room. */
  predicate CanReply(b: Bank, li: nat) {
    Replies(b, li) && |b.jobs[b.lanes[li].hand.call].done| < DONE_BUFFER
  }

  function Reply(b: Bank, li: nat): Bank
    requires CanReply(b, li)
  {
    var h := b.lanes[li].hand;
    var j := b.jobs[h.call];
    SetLane(SetJob(b, h.call, j.(done := j.done + [h.status])), li, b.lanes[li].(hand := Idle))
  }

  predicate CanReport(b: Bank, c: nat) {
    c < |b.jobs| && b.jobs[c].pc.Waiting? && b.jobs[c].done != []
  }

  function Report(b: Bank, c: nat): Bank
    requires CanReport(b, c)
  {
    SetJob(b, c, Job(Reported(b.jobs[c].done[0]), b.jobs[c].done[1..]))
  }

  predicate CanClose(b: Bank, li: nat) {
    li < |b.lanes| && !b.lanes[li].closed
  }

  function Close(b: Bank, li: nat): Bank
    requires CanClose(b, li)
  {
    SetLane(b, li, b.lanes[li].(closed := true))
  }

  /** The worker's range loop ends once its lane is closed and drained. */
  predicate CanExit(b: Bank, li: nat) {
    li < |b.lanes| && b.lanes[li].hand.Idle? && b.lanes[li].queue == [] && b.lanes[li].closed
  }

  function Exit(b: Bank, li: nat): Bank
    requires CanExit(b, li)
  {
    SetLane(b, li, b.lanes[li].(hand := Exited))
  }

  // ---------- Invariant ----------

  predicate Holds(h: Hand, c: nat) {
    (h.Publishing? || h.Replying?) && h.call == c
  }

  ghost predicate InLane(b: Bank, c: nat, li: nat) {
    c < |b.jobs| && b.jobs[c] == Job(Waiting(li), [])
  }

  /** Everything queued or held on a lane is a job waiting on that lane, without repetition. */
  ghost predicate LaneOk(b: Bank, li: nat)
    requires li < |b.lanes|
  {
    var l := b.lanes[li];
    && NoDup(l.queue)
    && (forall c :: c in l.queue ==> InLane(b, c, li))
    && (l.hand.Publishing? || l.hand.Replying? ==> InLane(b, l.hand.call, li) && l.hand.call !in l.queue)
    && (l.hand.Publishing? ==> l.hand.call !in AnsweredCalls(b.answers))
    && (l.hand.Replying? ==> Answer(l.hand.call, l.hand.status) in b.answers)
    && (l.hand.Exited? ==> l.closed && l.queue == [])
  }

  /** A job that waits without a reply is queued or held; a reply in done or reported is an answer. */
  ghost predicate JobOk(b: Bank, c: nat)
    requires c < |b.jobs|
  {
    var j := b.jobs[c];
    match j.pc
    case Absent => j.done == []
    case Ready => j.done == []
    case Waiting(li) =>
      && li < |b.lanes|
      && |j.done| <= DONE_BUFFER
      && (j.done == [] ==> c in b.lanes[li].queue || Holds(b.lanes[li].hand, c))
      && (j.done != [] ==> Answer(c, j.done[0]) in b.answers)
    case Reported(st) => j.done == [] && Answer(c, st) in b.answers
  }

  function SentCalls(s: seq<Sent>): seq<nat> {
    seq(|s|, i requires 0 <= i < |s| => s[i].call)
  }

  function AnsweredCalls(s: seq<Answer>): seq<nat> {
    seq(|s|, i requires 0 <= i < |s| => s[i].call)
  }

  /** The worker has called Publish for call c. */
  ghost predicate Taken(b: Bank, c: nat)
    requires c < |b.jobs|
  {
    var j := b.jobs[c];
    || j.pc.Reported?
    || (j.pc.Waiting? && j.pc.lane < |b.lanes| && (j.done != [] || c !in b.lanes[j.pc.lane].queue))
  }

  /** Publish has returned for call c. */
  ghost predicate Answered(b: Bank, c: nat)
    requires c < |b.jobs|
  {
    var j := b.jobs[c];
    || j.pc.Reported?
    || (j.pc.Waiting? && j.pc.lane < |b.lanes|
        && (j.done != [] || (b.lanes[j.pc.lane].hand.Replying? && b.lanes[j.pc.lane].hand.call == c)))
  }

  ghost predicate SameTaken(b: Bank, t: Bank) {
    |b.jobs| == |t.jobs| && forall c: nat :: c < |b.jobs| ==> (Taken(b, c) <==> Taken(t, c))
  }

  /** Publish is called once, and returns once, for exactly the jobs that got that far. */
  ghost predicate HistoryOk(b: Bank) {
    && NoDup(SentCalls(b.sent))
    && NoDup(AnsweredCalls(b.answers))
    && (forall c :: c in SentCalls(b.sent) ==> c < |b.jobs|)
    && (forall c :: c in AnsweredCalls(b.answers) ==> c < |b.jobs|)
    && (forall c: nat :: c < |b.jobs| ==> (c in SentCalls(b.sent) <==> Taken(b, c)))
    && (forall c: nat :: c < |b.jobs| ==> (c in AnsweredCalls(b.answers) <==> Answered(b, c)))
  }

  ghost predicate BankOk(b: Bank) {
    && |b.lanes| == LANES
    && (forall li: nat :: li < |b.lanes| ==> LaneOk(b, li))
    && (forall c: nat :: c < |b.jobs| ==> JobOk(b, c))
    && HistoryOk(b)
  }

  lemma NewBankOk()
    ensures BankOk(NewBank())
  {
  }

  lemma AdmitOk(b: Bank)
    requires BankOk(b)
    ensures BankOk(Admit(b))
  {
    var t := Admit(b);
    forall li: nat | li < |t.lanes| ensures LaneOk(t, li) { assert LaneOk(b, li); }
    forall c: nat | c < |t.jobs| ensures JobOk(t, c) { if c < |b.jobs| { assert JobOk(b, c); } }
    forall c: nat | c < |t.jobs|
      ensures c in SentCalls(t.sent) <==> Taken(t, c)
      ensures c in AnsweredCalls(t.answers) <==> Answered(t, c)
    {
      if c < |b.jobs| { assert Taken(t, c) <==> Taken(b, c); assert Answered(t, c) <==> Answered(b, c); }
    }
  }

  lemma SpawnOk(b: Bank, c: nat)
    requires BankOk(b) && c < |b.jobs| && b.jobs[c].pc.Absent?
    ensures BankOk(Spawn(b, c)) && SameTaken(b, Spawn(b, c))
  {
    var t := Spawn(b, c);
    forall li: nat | li < |t.lanes| ensures LaneOk(t, li) { assert LaneOk(b, li); }
    forall d: nat | d < |t.jobs| ensures JobOk(t, d) { assert JobOk(b, d); }
    forall d: nat | d < |t.jobs|
      ensures d in SentCalls(t.sent) <==> Taken(t, d)
      ensures d in AnsweredCalls(t.answers) <==> Answered(t, d)
    {
      assert Taken(t, d) <==> Taken(b, d);
      assert Answered(t, d) <==> Answered(b, d);
    }
  }

  lemma SubmitOk(b: Bank, c: nat, li: nat)
    requires BankOk(b) && CanSubmit(b, c, li)
    ensures BankOk(Submit(b, c, li)) && SameTaken(b, Submit(b, c, li))
  {
    var t := Submit(b, c, li);
    assert JobOk(b, c);
    assert c !in b.lanes[li].queue by { assert LaneOk(b, li); }
    forall m: nat | m < |t.lanes| ensures LaneOk(t, m) { assert LaneOk(b, m); }
    forall d: nat | d < |t.jobs| ensures JobOk(t, d) { assert JobOk(b, d); }
    forall d: nat | d < |t.jobs|
      ensures d in SentCalls(t.sent) <==> Taken(t, d)
      ensures d in AnsweredCalls(t.answers) <==> Answered(t, d)
    {
      assert LaneOk(b, li);
      assert Taken(t, d) <==> Taken(b, d);
      assert Answered(t, d) <==> Answered(b, d);
    }
  }

  lemma TakeOk(b: Bank, li: nat, body: Delivery)
    requires BankOk(b) && CanTake(b, li)
    ensures BankOk(Take(b, li, body))
  {
    var t := Take(b, li, body);
    var q := b.lanes[li].queue;
    var x := q[0];
    assert LaneOk(b, li) && x in q && x !in q[1..] && InLane(b, x, li);
    assert !Taken(b, x) && !Answered(b, x);
    assert SentCalls(t.sent) == SentCalls(b.sent) + [x];
    assert forall d :: d in q[1..] ==> d in q;
    forall m: nat | m < |t.lanes| ensures LaneOk(t, m) { assert LaneOk(b, m); }
    forall d: nat | d < |t.jobs| ensures JobOk(t, d) {
      assert JobOk(b, d);
      assert d in q <==> d == x || d in q[1..];
    }
    forall d: nat | d < |t.jobs|
      ensures d in SentCalls(t.sent) <==> Taken(t, d)
      ensures d in AnsweredCalls(t.answers) <==> Answered(t, d)
    {
      assert d in q <==> d == x || d in q[1..];
      assert Taken(t, d) <==> Taken(b, d) || d == x;
      assert Answered(t, d) <==> Answered(b, d);
    }
  }

  lemma ReturnOk(b: Bank, li: nat, status: Status)
    requires BankOk(b) && CanReturn(b, li)
    ensures BankOk(Return(b, li, status)) && SameTaken(b, Return(b, li, status))
  {
    var t := Return(b, li, status);
    var x := b.lanes[li].hand.call;
    assert LaneOk(b, li);
    assert AnsweredCalls(t.answers) == AnsweredCalls(b.answers) + [x];
    forall m: nat | m < |t.lanes| ensures LaneOk(t, m) {
      assert LaneOk(b, m);
    }
    forall d: nat | d < |t.jobs| ensures JobOk(t, d) { assert JobOk(b, d); }
    forall d: nat | d < |t.jobs|
      ensures d in SentCalls(t.sent) <==> Taken(t, d)
      ensures d in AnsweredCalls(t.answers) <==> Answered(t, d)
    {
      assert Taken(t, d) <==> Taken(b, d);
      assert Answered(t, d) <==> Answered(b, d) || d == x;
    }
  }

  lemma ReplyOk(b: Bank, li: nat)
    requires BankOk(b) && CanReply(b, li)
    ensures BankOk(Reply(b, li)) && SameTaken(b, Reply(b, li))
  {
    var t := Reply(b, li);
    var x := b.lanes[li].hand.call;
    assert LaneOk(b, li) && InLane(b, x, li);
    forall m: nat | m < |t.lanes| ensures LaneOk(t, m) { assert LaneOk(b, m); }
    forall d: nat | d < |t.jobs| ensures JobOk(t, d) { assert JobOk(b, d); }
    forall d: nat | d < |t.jobs|
      ensures d in SentCalls(t.sent) <==> Taken(t, d)
      ensures d in AnsweredCalls(t.answers) <==> Answered(t, d)
    {
      assert Taken(t, d) <==> Taken(b, d);
      assert Answered(t, d) <==> Answered(b, d);
    }
  }

  lemma ReportOk(b: Bank, c: nat)
    requires BankOk(b) && CanReport(b, c)
    ensures BankOk(Report(b, c)) && SameTaken(b, Report(b, c))
  {
    var t := Report(b, c);
    assert JobOk(b, c);
    forall m: nat | m < |t.lanes| ensures LaneOk(t, m) { assert LaneOk(b, m); }
    forall d: nat | d < |t.jobs| ensures JobOk(t, d) { assert JobOk(b, d); }
    forall d: nat | d < |t.jobs|
      ensures d in SentCalls(t.sent) <==> Taken(t, d)
      ensures d in AnsweredCalls(t.answers) <==> Answered(t, d)
    {
      assert Taken(t, d) <==> Taken(b, d);
      assert Answered(t, d) <==> Answered(b, d);
    }
  }

  lemma CloseOk(b: Bank, li: nat)
    requires BankOk(b) && CanClose(b, li)
    ensures BankOk(Close(b, li)) && SameTaken(b, Close(b, li))
  {
    var t := Close(b, li);
    forall m: nat | m < |t.lanes| ensures LaneOk(t, m) { assert LaneOk(b, m); }
    forall d: nat | d < |t.jobs| ensures JobOk(t, d) { assert JobOk(b, d); }
    forall d: nat | d < |t.jobs|
      ensures d in SentCalls(t.sent) <==> Taken(t, d)
      ensures d in AnsweredCalls(t.answers) <==> Answered(t, d)
    {
      assert Taken(t, d) <==> Taken(b, d);
      assert Answered(t, d) <==> Answered(b, d);
    }
  }

  lemma ExitOk(b: Bank, li: nat)
    requires BankOk(b) && CanExit(b, li)
    ensures BankOk(Exit(b, li)) && SameTaken(b, Exit(b, li))
  {
    var t := Exit(b, li);
    forall m: nat | m < |t.lanes| ensures LaneOk(t, m) { assert LaneOk(b, m); }
    forall d: nat | d < |t.jobs| ensures JobOk(t, d) { assert JobOk(b, d); }
    forall d: nat | d < |t.jobs|
      ensures d in SentCalls(t.sent) <==> Taken(t, d)
      ensures d in AnsweredCalls(t.answers) <==> Answered(t, d)
    {
      assert Taken(t, d) <==> Taken(b, d);
      assert Answered(t, d) <==> Answered(b, d);
    }
  }
}
