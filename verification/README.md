# Verified model of the message bridge

A YAML configuration is validated and turned into connectors and buses; each route then consumes from Kafka or
RabbitMQ, decodes, filters and projects every message, fans it out to its targets through lanes of queued jobs,
and acknowledges the source only when every target succeeded. This project models that behaviour in Dafny and
proves what every run of it keeps. `dafny verify dfyconfig.toml` checks all of it.

## How the model is laid out

| files | what they model |
|---|---|
| `prelude.dfy`, `text.dfy` | options, results and Go errors; sums over sequences; trimming, lower-casing, joining, int64 printing and parsing |
| `pipeline.dfy`, `pipeline_meaning.dfy` | codec, built-in filters and projections, the handler up to the fan-out; what they mean on the Envelope |
| `bank.dfy`, `router.dfy` | one target's lanes, workers and reply channels; a whole running route as a labelled transition system |
| `router_safety.dfy`, `router_liveness.dfy`, `router_shutdown.dfy`, `router_order.dfy` | the route invariant and fan-out, handler termination, cancellation and draining, publish order |
| `router_possible.dfy` | runs that attain the bounds and every outcome of a handler call |
| `kafka_ingress.dfy`, `kafka_possible.dfy` | the route composed with a Kafka reader: offsets and commits, and what can happen to them |
| `rabbit_ingress.dfy`, `rabbit_settlement.dfy`, `rabbit_possible.dfy` | the route composed with a RabbitMQ queue: acks and nacks, where every delivery ends up, and every way it can |
| `confirms.dfy`, `egress.dfy` | publisher confirms on one lane; the sixteen-lane RabbitMQ egress with its round-robin counter |
| `misread.dfy` | exactly when a call can read another message's confirm, and runs in which it does |
| `rabbit_bridge.dfy`, `bridge_possible.dfy` | a RabbitMQ-sourced route composed with the RabbitMQ egresses of its targets, and a message's way there and back |
| `config.dfy`, `validate_rules.dfy`, `validate_props.dfy`, `validate_errors.dfy`, `validate.dfy` | the configuration, the four validation passes, the declarative meaning of acceptance, and the cause of every error |
| `adapter.dfy`, `connectors.dfy`, `startup.dfy` | metadata conversion and name maps, configuration to connectors and buses, StartRoutes' target resolution |

**Protocols.** A running route is a state `s`, an action `a`, a predicate `Enabled(r, s, a)` and a function
`Step(r, s, a)`. One action is one step of one goroutine: an ingress worker calling the handler, a fan-out
goroutine sending its job on a lane, a lane worker taking a job, its publish returning, the reply, the report on
`errs`, the handler returning, the ingress settling, cancellation, the closing of a lane, a worker leaving.
Scheduling, lane choice, clock readings, message arrival and publish results sit in the action labels, so a
theorem about every run is a theorem about every interleaving and every answer from outside. A send on a closed
lane is a step that sets `panicked`. The Kafka and RabbitMQ compositions add the broker's state around that system
and let the ingress act only on the handler's result.

**Imperative code.** Code that updates things in place is modelled by methods and classes proved against
specification functions: the validator's loops and its in-place default on `UserConfig`, the name maps and metadata
conversion of the bus, the connector-building loops, reader and writer maps, StartRoutes' resolution loops, the
handler's rewriting of its message, the codec's reuse of the domain message, and the egress object with its counter.

## What is proved

* **Commit and ack safety.** In every reachable state of the composed system a Kafka message is committed, or a
  RabbitMQ delivery acked, only if every target's publish of that message's processed payload and unchanged metadata
  has returned nil. Each handler call that reaches the fan-out makes exactly one publish per target and returns nil
  iff all succeeded, otherwise the error of one that failed.
* **No blocking, and termination.** Lanes, `done` and `errs` always have room. Each unfinished handler call has a
  distance that no step of anybody raises, each step that serves it lowers, and some such step is always enabled while no
  lane it needs is closed: so a call returns in every run that is fair to it, within a bound, and while no lane is closed
  it can be brought home from anywhere. Runs are bounded per fetched message.
* **What can happen.** The bounds are not slack: runs are constructed in which every worker holds a call and every job is
  queued on any lane one likes, every combination of target results comes back to the handler in any order, nine Kafka
  messages are in hand below a commit, the prefetch window is full, a delivery ends in each of its possible ways, and a
  broker's verdict travels back to the source.
* **Shutdown.** Closing the lanes can panic exactly when some call may still submit. From a quiet cancelled state
  every run is bounded, never panics, and can only come to rest with every worker gone and every spawned job published,
  answered and reported exactly once. A route whose Subscribe failed never closes its lanes, so `stop` cannot return.
* **Order and conservation.** A RabbitMQ route's publish logs are its accepted deliveries in delivery order, whatever
  lanes are picked; no message is lost under the configured policy; every delivery
  taken is in exactly one place, the acked ones being those published everywhere, and all accounts match copy for copy. Kafka
  offsets are partitioned into in hand, committed, commit failed and handler failed, without failures at most nine lower
  ones trail a commit, and what lies below a commit was skipped exactly if it failed.
* **Publisher confirms.** What a call reads when callers do not overlap on a lane (the confirm lag, on one lane and on the
  egress), what holds with no assumption at all (counting), and exactly when a waiting call can read another message's
  confirm. Since the rotation can always bring a second sender to its lane, no waiting call is safe by the egress alone.
  A RabbitMQ-sourced route does protect them: its one worker keeps each egress at one call at a time, so an ack at the
  source means a broker ack at every RabbitMQ target, of that very message where no publish gave up on the lane before.
  For a route with ten Kafka workers nothing of the kind is proved; the exact condition says which of its calls are at
  risk.
* **Pipeline.** The filters and projections read on the Envelope itself, with int64 printing and parsing proved inverse.
* **Validation and start-up.** The validator returns nil exactly on well-formed configurations, reports each kind of error
  exactly when there is cause for it, in pass order, and its defaulting is stable. Connectors are mapped field by field,
  and routes run with exactly the targets configured. An accepted configuration never crashes start-up, and its routes
  start exactly when a stated condition holds.

## Where the code says one thing and its comments or documents another

The model follows the code in each case.

* The comment at `internal/connector/rabbitmq/exgress.go:116` says a call waits for its own confirm; the lock that would
  order a lane (lines 19 and 81-82) is commented out. `OverlapReachesEgress` and `GiveUpReachesEgress` are runs of the
  egress in which a call reads another message's confirm, and `EMisreadPossibleIff` says exactly when one can.
* The comments at `internal/router/router.go:265-266` and `internal/connector/kafka/ingress.go:54` say an uncommitted
  message will be retried; a later commit of the same partition can pass it (`SkippedBelowCommitted`);
  nothing below a commit is skipped exactly when nothing below it failed (`NothingSkippedIff`).
* Retries, TTL expiry and maximum attempts are commented out (`internal/router/router.go:171-194`); a route's `ttl_ms` is
  validated and defaulted but never used. The second default in `internal/config/validate.go:271-273` repeats the first
  one's test, so it never applies and the attempts are never defaulted.
* `size_le_1mb` and `recent_1h` read metadata as numbers, but a bus delivers only strings: the first passes every message
  and the second drops every message (`MetaFiltersOnBusMessages`).
* Validation ignores the case of a connector's type, accepts NATS, and treats a blank `to_group` as absent; the code after
  it compares types exactly, builds nothing for NATS, and looks up any non-empty `to_group` (`UpperCaseTypeStopsMapping`,
  `NatsTargetStopsStart`, `BlankGroupStopsStart`).
* A group with no targets passes validation; its routes then publish nowhere, and every accepted message is acknowledged.
  The fan-out theorems cover this case, with nothing to publish.

## Model

| member | source | states |
|---|---|---|
| RouterSafety.StepOk | internal/router/router.go:167-313 | every step of every goroutine keeps the route invariant, whatever lane, interleaving or publish result |
| RouterSafety.ReachableOk | internal/router/router.go:144-314 | every state a started route can reach satisfies the invariant |
| RouterSafety.FanOutExact | internal/router/router.go:226-294 | a returned call whose message passed the stages had exactly one publish per target, all with the same processed bytes and the delivered metadata; it returned nil iff all succeeded, else one failed target's error; a rejected message was published nowhere |
| RouterSafety.FirstErrorMeaning | internal/router/router.go:287-294 | the scan over errs is nil iff all entries are nil, otherwise it is the wrapped error of a target that sent one |
| RouterSafety.ScanIsVerdict | internal/router/router.go:284-294 | when every goroutine has reported, the scan's result is the verdict over all targets, not just those scanned first |
| RouterSafety.MetaUnchanged | internal/router/router.go:234-263 | the stages may replace the payload, the metadata that reaches the egress is the ingress's |
| RouterSafety.ArrivedFromBus | internal/router/adapter.go:36-58 | string metadata survives the conversion to any-values and back |
| RouterSafety.PanicsOnlyOnClosedLane | internal/router/router.go:269-275 | a step takes the process down iff it sends a job on a closed lane |
| RouterSafety.LiveCallsBounded | internal/connector/kafka/ingress.go:32-57 | at most one handler call per ingress worker is in progress |
| RouterSafety.OccupancyBound | internal/router/router.go:151-157 | each target has at most as many outstanding jobs as the ingress has workers, and so has each of its lanes |
| RouterSafety.RoomToSubmit | internal/router/router.go:272-275 | at the moment of a send the chosen lane holds strictly fewer jobs than there are ingress workers |
| RouterSafety.SendsNeverBlock | internal/router/router.go:193-195 | with no more workers than the lane depth, every send on an open lane and every reply on done finds room |
| RouterSafety.ErrsNeverFull | internal/router/router.go:267-285 | a goroutine holding a reply always finds room on errs |
| RouterPossible.EveryWorkerBusy | internal/connector/kafka/ingress.go:33-57 | the bounds are attained: with any acceptable deliveries and any assignment of their jobs to the sixteen lanes of each target, some run ends with every ingress worker holding its own call and all jobs queued, in submission order, on the lanes assigned |
| RouterPossible.EveryOutcome | internal/router/router.go:267-294 | whatever the targets return and in whatever order they report, some run ends with the handler returning nil if all succeeded, otherwise the wrapped error of the first failure reported |
| RouterLiveness.DistanceNeverGrows | internal/router/router.go:169-196 | no step of anyone moves a call further from returning, and each step that serves it moves it strictly closer: its jobs' FIFO positions never grow |
| RouterLiveness.DistanceBound | internal/router/router.go:267-294 | a call is never more than a fixed number of its own steps away from returning |
| RouterLiveness.CallAdvances | internal/router/router.go:267-294 | an unfinished call not facing a closed lane always has an enabled step that serves it and does not panic |
| RouterLiveness.AdvancesAreBounded | internal/router/router.go:267-294 | in any run, steps serving a call plus its remaining distance never exceed its distance at the start |
| RouterLiveness.HandlerReturns | internal/router/router.go:207-294 | in any run that, in every window of K actions, takes one of an unfinished call's own steps, the call has returned after K times a bound of its route's target and worker counts, however many other calls kept submitting |
| RouterLiveness.CallCanFinish | internal/router/router.go:267-294 | from every state of the invariant with no lane closed, an unfinished call can be brought to its return by steps that all serve it, at most as many as its distance |
| RouterShutdown.MeasureFalls | internal/router/router.go:167-313 | every step but a fetch lowers a global measure over unsent, queued, in-hand and replied jobs; a fetch raises it by a constant of the route |
| RouterShutdown.RunsAreBounded | internal/router/router.go:167-313 | a run has only boundedly many steps per fetched message |
| RouterShutdown.QuietRun | internal/router/router.go:269-306 | once no call may still submit and nothing is fetched, no run panics and none submits |
| RouterShutdown.SubmitterPanics | internal/router/router.go:300-306 | after cancellation, any call that may still submit has a run without further fetches that sends on a closed lane |
| RouterShutdown.PanicPossibleIff | internal/router/router.go:300-306 | after cancellation a panic is possible iff some call may still submit |
| RouterPossible.PanicReachable | internal/router/router.go:300-306 | every subscribed route with a worker, a target and an acceptable delivery has a run from its start that sends on a closed lane |
| RouterShutdown.LaneWorkerMoves | internal/router/router.go:167-197 | after cancellation, while some lane worker has not left, a step other than a fetch is enabled |
| RouterShutdown.Drain | internal/router/router.go:300-313 | from a quiet cancelled state runs are bounded and never panic, can rest only with all lane workers gone, all handler calls returned and all ingress workers stopped, and then each spawned job has been published and reported exactly once |
| RouterShutdown.StopNeedsSubscription | internal/router/router.go:295-313 | when Subscribe failed the lanes are never closed, so stop never returns |
| RouterOrder.PublishOrder | internal/connector/rabbitmq/ingress.go:76-111 | with one ingress worker every target's publish log is the accepted deliveries in order, up to the one being handled, in every run and for every lane choice |
| RouterOrder.FreeWorkerOwesNothing | internal/router/router.go:265-294 | between two deliveries nothing accepted is missing from any target's log |
| RouterOrder.QueuedIsLatest | internal/router/router.go:267-286 | with one ingress worker any queued job belongs to the latest delivery |
| KafkaIngress.KStepOk | internal/connector/kafka/ingress.go:34-57 | fetching, committing and every inner step keep the ingress's books |
| KafkaIngress.CommitSafety | internal/connector/kafka/ingress.go:50-55 | in every reachable state a committed message's processed payload had a nil-returning publish at every target |
| KafkaIngress.OffsetPartition | internal/connector/kafka/ingress.go:37-56 | every fetched message is in exactly one of: in hand, committed, commit failed, handler failed; a failed one was not delivered everywhere |
| KafkaIngress.SettledDeliveredIff | internal/connector/kafka/ingress.go:50-55 | among the messages the ingress is done with, those not delivered everywhere are exactly the failed ones |
| KafkaIngress.FailedIff | internal/router/router.go:226-294 | a settled message failed iff the stages cannot accept its payload or some target's publish of it returned an error |
| KafkaIngress.HolderIsHigher | internal/connector/kafka/ingress.go:34-52 | what a worker holds has a higher offset than what it settled in that partition |
| KafkaIngress.CommitWindow | internal/connector/kafka/ingress.go:32-57 | below a committed offset the only uncommitted messages are failures, lost commits and at most nine in hand |
| KafkaIngress.CommitWindowWithoutFailures | internal/connector/kafka/ingress.go:32-57 | without failures at most nine lower offsets of the partition are uncommitted |
| KafkaIngress.NothingSkippedIff | internal/connector/kafka/ingress.go:50-55 | once nothing below a committed offset is in hand, everything below it was delivered everywhere iff no message below it failed |
| KafkaIngress.LanesHaveRoom | internal/router/router.go:70-71 | a Kafka route keeps at most ten jobs outstanding per target, so an 8192-deep lane is never full |
| KafkaPossible.AllWorkersHold | internal/connector/kafka/ingress.go:32-57 | with messages at any increasing offsets, all workers of the reader can hold a message each, with every job queued on any lane of every target |
| KafkaPossible.NineBelowCommit | internal/connector/kafka/ingress.go:32-55 | the window is attained: nine workers can hold the nine messages below an offset the tenth has committed, or whose commit failed |
| KafkaPossible.SkippedBelowCommitted | internal/connector/kafka/ingress.go:51-55 | on every route that rejects some message and accepts another, an offset can be committed above one that was rejected and is never published |
| KafkaPossible.UserBasicSkips | internal/router/pipeline.go:31-53 | such a route: one filtered by user_basic alone |
| KafkaIngress.BuildMeta | internal/connector/kafka/ingress.go:46-49 | metadata maps each header key to the value of its last header, and holds nothing else |
| RabbitIngress.RStepOk | internal/connector/rabbitmq/ingress.go:76-111 | delivery, settlement and every inner step keep the broker accounts, the alignment of calls with deliveries, and the order invariant |
| RabbitIngress.Conservation | internal/util/convert.go:42-49 | with autoAck off and requeue on, every message ever enqueued is queued, delivered and unsettled, or acked; none is dropped |
| RabbitIngress.AckSafety | internal/connector/rabbitmq/ingress.go:98-111 | an acked delivery had passed decode, filter and projection and been published to every target with its own metadata |
| RabbitIngress.AckedWasPublished | internal/connector/rabbitmq/ingress.go:107-111 | without autoAck the acked messages are, copy for copy, those of the explicitly acked calls, each published everywhere |
| RabbitSettlement.SettlementPartition | internal/connector/rabbitmq/ingress.go:98-111 | without autoAck every delivery taken is in exactly one of: being handled, acked, requeued, dropped, settlement lost; of those whose settlement reached the broker the acked ones are exactly those published everywhere, and the others are requeued or dropped as the policy says |
| RabbitSettlement.CopyForCopy | internal/connector/rabbitmq/ingress.go:98-111 | acked, lost and dropped messages are those of the calls filed there, and queue plus all deliveries ever made equal arrivals plus requeues, counting copies |
| RabbitSettlement.PrefetchBound | internal/connector/rabbitmq/ingress.go:56-60 | deliveries in the client, in the handler and with a lost settlement never exceed the prefetch count |
| RabbitPossible.WindowFills | internal/connector/rabbitmq/ingress.go:56-72 | any messages up to the prefetch count can be out at once, in order and tagged from 1, with the queue empty |
| RabbitPossible.EveryEnd | internal/connector/rabbitmq/ingress.go:98-111 | under any policy without autoAck, any acceptable message can be delivered and settled: acked with the queue empty if all targets succeed, else requeued or dropped; or its settlement is lost |
| RabbitIngress.DeliveryOrder | internal/connector/rabbitmq/ingress.go:76-111 | calls are made for the deliveries one by one, each target's log is the accepted ones in delivery order, complete between deliveries |
| RabbitIngress.OneOutstanding | internal/connector/rabbitmq/ingress.go:74-111 | a RabbitMQ route has at most one outstanding job per target |
| RabbitIngress.BuildMeta | internal/connector/rabbitmq/ingress.go:83-95 | the header loop yields the properties overridden by the string headers, in whatever order the table is walked |
| RabbitIngress.MetaOfIs | internal/connector/rabbitmq/ingress.go:83-95 | a string header wins over a property of the same name, each of the four properties otherwise stands under its own name, and there is no other entry |
| Confirms.LaneStepOk | internal/connector/rabbitmq/exgress.go:79-130 | sends, broker confirms, reads and give-ups by any number of callers keep the lane's accounts |
| Confirms.ConfirmLag | internal/connector/rabbitmq/exgress.go:112-129 | with one caller at a time the n-th message's call reads the confirm of the message t places earlier, t being the earlier give-ups; it is its own iff none gave up |
| Confirms.ConfirmCounting | internal/connector/rabbitmq/exgress.go:112-129 | under any interleaving nil returns equal acks emitted minus acks unread, and unread confirms equal emitted minus read |
| Confirms.BufferFills | internal/connector/rabbitmq/exgress.go:53 | confirms of calls that gave up can pile up unread, up to all 2048 the channel holds |
| Confirms.OverlapSwapsConfirms | internal/connector/rabbitmq/exgress.go:81-120 | a run of one lane in which two overlapping callers swap confirms, so a nacked message's call returns nil |
| Confirms.GiveUpShiftsConfirms | internal/connector/rabbitmq/exgress.go:120-129 | a run of one lane in which a timeout makes the next call read the previous message's confirm |
| Egress.LaneOfPickIs | internal/connector/rabbitmq/exgress.go:74-77 | the n-th pick's lane advances by one modulo sixteen, across the counter's wrap-around |
| Egress.PicksShareLane | internal/connector/rabbitmq/exgress.go:74-77 | two picks share a lane iff a multiple of sixteen separates them, so sixteen consecutive picks hit sixteen lanes |
| Egress.PickCountIs | internal/connector/rabbitmq/exgress.go:74-77 | the exact number of times each lane was picked |
| Egress.RoundRobinBalance | internal/connector/rabbitmq/exgress.go:74-77 | after any number of picks from any counter value the lane counts differ by at most one |
| Egress.EStepOk | internal/connector/rabbitmq/exgress.go:74-130 | every step of every caller keeps rotation, lane accounts and the link between calls and messages |
| Egress.NilReturnsBounded | internal/connector/rabbitmq/exgress.go:79-130 | over the whole egress and any interleaving, nil returns never exceed broker acks |
| Egress.WindowSeparates | internal/connector/rabbitmq/exgress.go:74-82 | if all unfinished calls are among the last sixteen picks, no two of them share a lane |
| Egress.EgressConfirmLag | internal/connector/rabbitmq/exgress.go:79-130 | if every call leaves before sixteen more enter, a call that gave up returned an error, and one that read a confirm read that of the message t places earlier on its lane, t being the earlier give-ups there: its own iff none gave up, and nil iff it was an ack |
| Egress.OwnConfirm | internal/connector/rabbitmq/exgress.go:79-130 | if every call leaves before sixteen more enter, a call that read a confirm and had no earlier give-up on its lane returned nil iff the broker acked its own message |
| Egress.Client.NewEgress | internal/connector/rabbitmq/exgress.go:36-70 | succeeds iff a target name is given and all sixteen channels open in confirm mode; then all lanes are fresh |
| Egress.Client.PickLane | internal/connector/rabbitmq/exgress.go:74-77 | adds one to the 64-bit counter with wrap-around and returns the lane it selects |
| Egress.Client.Publish | internal/connector/rabbitmq/exgress.go:79-130 | one undisturbed call, whatever confirms earlier calls left on its lane: a failed send returns an error and changes no lane; otherwise it adds one message to its lane and returns nil iff it read an ack, and an error if it gave up; on every egress with this counter and these lanes it is the run of one more call that picks, sends, hears those confirms and reads or gives up, with the same lanes and status at its end |
| Egress.PublishIsRun | internal/connector/rabbitmq/exgress.go:79-130 | the steps of that run, action by action, in the transition system of all concurrent calls |
| Egress.AfterPublishOk | internal/connector/rabbitmq/exgress.go:112-129 | an undisturbed call keeps the lane's accounts |
| Egress.LoneCallReadsOldest | internal/connector/rabbitmq/exgress.go:116-124 | such a call reports the oldest confirm not yet read and leaves the rest |
| Egress.AloneReadsOwn | internal/connector/rabbitmq/exgress.go:116-124 | with no confirm left over it reports its own message's verdict |
| Misread.MisreadPossibleIff | internal/connector/rabbitmq/exgress.go:112-129 | without further sends a waiting call can read another message's confirm iff another call waits on its lane or the number of confirms read there differs from the number of messages sent before its own |
| Misread.OverlapMisreads | internal/connector/rabbitmq/exgress.go:81-120 | one further send on the lane is always enough for a waiting call to misread |
| Misread.EMisreadPossibleIff | internal/connector/rabbitmq/exgress.go:74-130 | on the whole egress, whatever callers of other lanes do, a waiting call can misread without further sends iff it is not alone on its lane or its own confirm is not the next one read |
| Misread.NoWaitingCallIsSafe | internal/connector/rabbitmq/exgress.go:74-130 | from every reachable state with a waiting call, some continuation ends with that call having read another message's confirm: the rotation always brings a second sender to its lane |
| Misread.OverlapReachesEgress | internal/connector/rabbitmq/exgress.go:74-120 | from any counter value, a run of the egress in which seventeen calls enter, the first and last meet on a lane, and the one whose message the broker nacked returns nil |
| Misread.GiveUpReachesEgress | internal/connector/rabbitmq/exgress.go:74-129 | from any counter value, a run of the egress with never two calls on a lane in which a late ack of a timed-out message is returned to the call sixteen picks later, whose message was nacked |
| RabbitBridge.BStepOk | internal/router/router.go:167-196 | steps of the source, the route and the egresses keep log and egress of every target in step: the same calls in the same order, and answers that are what those calls returned |
| RabbitBridge.BReachableOuter | internal/connector/rabbitmq/ingress.go:76-111 | with the egresses hidden, the composition reaches only states of the RabbitMQ-sourced route, so its theorems carry over |
| RabbitBridge.OneCallInPublish | internal/router/router.go:167-196 | in every reachable state only the latest call of an egress can be inside Publish, so the window condition always holds there |
| RabbitBridge.AckMeansBrokerAcks | internal/connector/rabbitmq/ingress.go:107-111 | when a delivery is acked at the source, then at every RabbitMQ target its publish read a broker ack, t places back on its lane for t earlier give-ups there, and so the ack of that very message iff nobody gave up on the lane before it |
| BridgePossible.AckTravelsBack | internal/connector/rabbitmq/ingress.go:98-111 | from any counter value a message can travel from the source queue to a target broker and its verdict back: an ack ends in an ack at the source, a nack in a requeue or a drop |
| Pipeline.Decode | internal/router/codec.go:26-40 | succeeds iff the bytes parse, giving the object view of a fresh domain message |
| Pipeline.Encode | internal/router/codec.go:42-55 | resets and refills the passed domain message and marshals exactly that message |
| Pipeline.RunStages | internal/router/router.go:223-263 | the handler's in-place rewriting of its message ends as the stage function says: accepted with which content, rejected, or crashed |
| Text.ParseIntFormatInt | internal/router/pipeline.go:44-48 | printing an int64 in decimal and parsing it back is the identity |
| Text.TrimSpaceIs | internal/config/validate.go:88-115 | the trimmed text stands in the original between white space and has none at its ends |
| PipelineMeaning.UserBasicOnEnvelope | internal/router/pipeline.go:30-53 | on every decoded Envelope user_basic is true iff name is non-empty, age non-zero and age above 16 or name contains A; its type assertion never fails |
| PipelineMeaning.UserBasicPanics | internal/router/pipeline.go:36-44 | on an arbitrary object the assertion fails exactly for a present name and a numeric age |
| PipelineMeaning.MetaFiltersOnBusMessages | internal/router/pipeline.go:17-29 | on string-only metadata size_le_1mb always passes and recent_1h always drops |
| PipelineMeaning.MetaFiltersOnIntegers | internal/router/pipeline.go:15-29 | on integer metadata the two filters are the comparisons their comments give |
| PipelineMeaning.OversizePasses | internal/router/router.go:317-330 | a size given as a string passes where the same size given as a number is dropped |
| PipelineMeaning.ProjectedObject | internal/router/pipeline.go:57-86 | projecting a decoded Envelope and refilling keeps name and age and clears the rest; strict fails iff one of the two is default |
| PipelineMeaning.ProjectionsByName | internal/router/pipeline.go:57-86 | the two projections by their configured names, and what each leaves of an Envelope |
| PipelineMeaning.FiltersOnEnvelope | internal/router/router.go:239-248 | a route's filter list passes iff each filter's Envelope-level predicate holds |
| PipelineMeaning.FiltersByName | internal/router/pipeline.go:13-54 | the three filters by their configured names, and what each decides about a bus message with a given Envelope |
| PipelineMeaning.StagesOnEnvelopes | internal/router/router.go:226-263 | for every bus message the handler accepts exactly the acceptable payloads and publishes exactly the projected ones; it never crashes |
| PipelineMeaning.ProcessIgnoresClock | internal/router/router.go:226-263 | on bus messages the outcome does not depend on the time |
| PipelineMeaning.ProjectionIdempotent | internal/router/router.go:250-263 | under any filters, a second pass over a projected message changes nothing when its payload is non-empty, and rejects it when empty |
| PipelineMeaning.StrictVersusBestEffort | internal/router/pipeline.go:72-85 | strict accepts iff best-effort does and both fields are non-default, and then the results are equal |
| Validate.ValidateConfig | internal/config/validate.go:11-38 | nil iff the configuration is well formed; otherwise one error with all errors of all passes joined in order; drop routes get their default TTL in place either way |
| Validate.ValidateTwice | internal/config/validate.go:262-274 | a second validation gives the same verdict and changes nothing, and accepted drop routes have a positive TTL |
| Validate.ValidateConnectors | internal/config/validate.go:40-142 | the first pass's loops, name sets and early continue report exactly the per-connector errors |
| Validate.ValidateGroupReceivers | internal/config/validate.go:144-181 | the second pass reports exactly the name clashes and unresolved targets |
| Validate.ValidateRoutesEndpoints | internal/config/validate.go:183-280 | the third pass reports exactly the route errors and writes exactly the TTL defaults |
| Validate.ValidateFiltersAndProjections | internal/config/validate.go:282-306 | the fourth pass reports exactly the undeclared filters and projections |
| Validate.RequireKafkaParams | internal/config/validate.go:322-346 | reports a missing, empty or wrongly typed broker list, naming the first broker that is not a string |
| Validate.JoinNonNil | internal/config/validate.go:355-366 | nil when no error is present, otherwise all texts on separate lines |
| ValidateProps.NoErrorsIffWellFormed | internal/config/validate.go:11-306 | no pass reports anything iff names are unique (egress names after trimming), parameters, TLS and egress types are right, every reference resolves, each route has one destination and a legal mode |
| ValidateErrors.ReportedIffCaused | internal/config/validate.go:40-346 | an error is reported iff the configuration gives cause for it, each of the 38 kinds with its own condition on the entries, names and references it is about |
| ValidateErrors.ReportedInSequence | internal/config/validate.go:11-38 | the report goes pass by pass, and within a pass entry by entry |
| ValidateProps.NormalisedIsStable | internal/config/validate.go:262-274 | defaulting changes no verdict and defaulting twice is defaulting once |
| ValidateProps.DropRoutesGetTtl | internal/config/validate.go:264-273 | on an accepted configuration drop routes end with a positive TTL, a missing one being 180000, and positive TTLs and all other fields are kept |
| Adapter.ToAnyMap | internal/router/adapter.go:90-99 | nil stays nil, otherwise every entry becomes a string value |
| Adapter.ToStringMap | internal/router/adapter.go:101-117 | nil stays nil, otherwise every value is rendered as text |
| Adapter.MetaRoundTrip | internal/router/adapter.go:90-117 | the two conversions compose to the identity on string metadata |
| Adapter.NameMap | internal/router/adapter.go:19-28 | the filled map holds, for every name that occurs, the value of the last entry carrying it, and nothing else |
| Adapter.UniqueIsFound | internal/router/adapter.go:20-27 | an entry whose name is unique is the one a lookup returns |
| Connectors.MapConnectors | internal/util/convert.go:27-159 | succeeds iff every entry decodes, has one of the three exact types, and opens; under each name stands the last wired entry, field by field: its sources with queue and policy, or topic and group, and its targets with exchange and routing key, or topic, at the same positions |
| Connectors.LinkFound | internal/util/convert.go:84-151 | with distinct names a lookup finds the connector declared under the name, and nothing for a NATS entry |
| Connectors.SourcesRequeue | internal/util/convert.go:41-50 | every RabbitMQ source gets manual acks and requeue on error |
| Connectors.Bus.FindIngress | internal/router/adapter.go:36-40 | Subscribe's lookup returns the last ingress declared with that name |
| Connectors.Bus.FindEgress | internal/router/adapter.go:52-56 | Publish's lookup returns the last egress declared with that name |
| Connectors.KafkaClient.Open | internal/connector/kafka/connector.go:38-74 | one reader per source name, the last declaration winning, and one writer per distinct topic |
| Connectors.KafkaClient.StartSource | internal/connector/kafka/ingress.go:21-31 | a uniquely named source always finds a reader of its topic, in its own group if all sources of the topic share one |
| Connectors.OwnGroupIff | internal/connector/kafka/ingress.go:22-28 | the reader found is sure to be in the source's own group iff all sources of that topic share one group |
| Connectors.KafkaClient.FindWriter | internal/connector/kafka/connector.go:61-72 | every declared target has a writer, and it is the one of its own topic |
| Startup.StartRoute | internal/router/router.go:86-164 | the lookups of one route end in its first problem, in the order of the checks, or in a running route with the workers of its source, its stages by name, and all targets of the last group it names or else just its own |
| Startup.StartRoutes | internal/router/router.go:74-164 | every route runs with exactly the targets configured for it, or start-up stops at the first route with a problem, a nil destination being a crash |
| Startup.ProblemMeaning | internal/router/router.go:89-164 | each problem is true of the route and everything looked up before it was found; without a problem everything was found |
| Startup.NeverNilTo | internal/router/router.go:97-99 | on an accepted configuration a nil destination is never dereferenced |
| Startup.StartsIff | internal/router/router.go:89-164 | on an accepted configuration a route starts iff its non-empty group exists, its filters and projection are built in, and its connectors have an exact wired type |
| Startup.PlainStarts | internal/config/validate.go:144-306 | with exact types, empty or non-blank groups and registered names, acceptance alone suffices |
| Startup.SubscribeFinds | internal/router/adapter.go:36-40 | the ingress lookup of an accepted route finds the one declared ingress, on a connector that mirrors its configuration |
| Startup.PublishFinds | internal/router/adapter.go:52-56 | the egress lookup of each destination of an accepted route finds the one declared egress, on a connector that mirrors its configuration |
| Startup.AcceptedOutcome | internal/router/router.go:62-164 | start-up of an accepted configuration never crashes and runs everything iff all its routes can start |
| Startup.Launch | cmd/cfgcheck/main.go:32-89 | validation, mapping, the Redis ping and start-up in sequence: when each refuses, that StartRoutes never crashes, and when all routes run |
| Startup.StartedRoutesNeverBlock | internal/router/router.go:69-71 | the worker counts of the wired connectors keep every send of a started route from blocking |
| Startup.StartedRouteKind | internal/util/convert.go:41-50 | a started RabbitMQ route has one worker and only sources under manual ack and requeue, as order and conservation need; a started Kafka route has ten workers |
| Startup.BlankGroupStopsStart | internal/router/router.go:89-95 | an accepted configuration with a blank group name that start-up refuses |
| Startup.UpperCaseTypeStopsMapping | internal/util/convert.go:30-31 | an accepted configuration whose connector type only differs in case and is refused by the mapping |
| Startup.NatsTargetStopsStart | internal/util/convert.go:134-151 | an accepted and mapped configuration whose NATS destination has no bus |

## Left out

Assumptions about what lies outside, and simplifications:

- Network clients (Kafka, AMQP, Redis, NATS): publish results, fetches, timeouts and broker replies are arbitrary steps.
  Assumed of them: the confirms of one AMQP channel arrive in publish order, lane channels stay open, one partition's
  offsets are fetched in increasing order, and there is no rebalance, no reconnection and no process restart.
- The router protocol, the two ingress loops and the concurrent calls of Publish are modelled on values as state machines,
  one atomic step per channel operation, because they are concurrent; the jobs of a call refer to its message, which is
  constant once they exist.
- The wire formats of protobuf and JSON: assumed are that unmarshalling undoes marshalling, that only the all-default
  Envelope has an empty encoding, and the ProtoJSON rules for defaults, int64 and null. JSON values are null, strings and
  integers, and int64 strings are plain decimals without exponent or fraction.
- Each running route is a system of its own: several routes sharing an ingress, a Kafka reader or an egress are not
  composed with each other. RabbitBridge gives each RabbitMQ target of the route an egress of its own, so a group naming
  the same egress twice is not covered there.
- Lanes are closed in any order rather than target by target; this only adds runs.
- Start-up failing half-way leaves the goroutines of earlier routes behind; only the outcome of start-up is modelled.
- RabbitMQ connector internals (exchange and queue declaration, the failure paths of its Open, reconnecting) are not part
  of this model; whether a connector opens is an input.
- Metadata values other than strings and integers do not occur on a bus and are not modelled.
- The name sets of the validator are sets of names, not maps to flags or pointers; %q does not escape; lower-casing covers
  ASCII and the two other code points that lower-case into ASCII.
- The struct validator finds no tags on the configuration types and always passes, so it is absent, as are YAML loading,
  environment, command line, logging, TLS and authentication set-up, metrics and the commented-out hop check in Redis.
- NATS connectors: nothing is built for them, so their entries only pass through MapConnectors.
- Bus.Close and the connectors' Close and Stop only forward to library calls.
- Egress.Client.Publish: one call with no other inside; overlapping calls are the transition system of the same module.
