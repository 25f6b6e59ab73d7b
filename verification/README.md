# CueProxy: a verified model of its stateful core

CueProxy stands between producers and consumers on one side and a Raft-backed cluster on the
other.  Four of its pieces keep state that several goroutines change: the per-topic job buffers
with the response routing tables, the leader tracker, the consumer router with its credit-based
flow control, and the batching of Done commands.  Each piece is modelled twice:

- as the object it is in the program, a class whose methods update its fields and whose contracts
  give the whole new state as a function of the old one;
- as a machine whose steps are the blocks between two lock or channel operations, built from the
  same functions.  A run is any sequence of steps in any order; a step whose guard does not hold
  leaves the state alone.  The theorems hold in every state of every run.

`dafny verify dfyconfig.toml` checks everything.

| file | what it models |
|---|---|
| `Leadership.dfy` | heartbeats, quorum counting, adoption and loss of the leader |
| `Batching.dfy` | one job buffer: store, drain, response fan-out, attribution of failures by hash |
| `Lanes.dfy` | one topic's buffer with the channels around it and histories of what arrived and was answered |
| `Producers.dfy` | all lanes, the shared counter, the sender goroutine, routing tables, concurrent response handlers |
| `Losses.dfy` | reception of responses, and how answers are lost: a full response channel, a full store |
| `Answers.dfy` | where a batch is, and how a received response becomes answers |
| `LaneLoop.dfy` | the job buffer's goroutine: one turn of its loop is one step of the lane machine |
| `FlowControl.dfy` | one consumer: credit, sequence IDs, the 256-slot write channel |
| `TopicQueue.dfy` | one topic queue with its dispatcher and its consumers, block by block; the dispatcher's batch loop |
| `Router.dfy` | the router's four maps, enqueueing, the capacity report |
| `RouterRuns.dfy` | all callers of the router interleaved: enqueue calls in flight, channels of former incarnations, marks, reports |
| `EnqueueCalls.dfy` | a whole enqueue call as a run; a call that marks a topic which never refused it |
| `DoneBatch.dfy` | Done commands: copy, truncate, send, restore |
| `Runs.dfy` | runs of a machine given by its step function |
| `Common.dfy` | shared names and counting lemmas |

## Assumptions the theorems name

- `ApiChecked`: a request has at least one job (the HTTP handler checks it).
- `issued < 2^32`: the batch counter has not wrapped. `ReusedIdStrandsWaiters` shows what happens otherwise.
- `TopicsMatch`: every job carries the topic of its request. Only `MatchingTopicsLead` needs it, because
  a batch is routed by its first job's topic; the other routing theorems say what happens either way.
- `ElectionSafe`: section 5.2 of the Raft paper, as far as heartbeats show it. `SplitTermFlaps`
  shows that it is needed.
- `HonestStep`, `HonestAck`: a consumer acknowledges only what the write loop has taken out.
- One live dispatcher per topic. `CreditBound` is stated for `k` dispatchers and `CreditBoundIsTight`
  shows that each one more costs one job of overshoot.
- `Monotone`: clock readings are inputs of the steps; only the backpressure theorems ask for a clock
  that does not run backwards.
- `Visits`: a report's loop sees each live topic once, in any order, with the free slots of exactly
  its consumers.

## What the proofs show about the code

- Under Election Safety, a leader that lost availability is not available again when the same leader
  is confirmed in the same term (`ConfirmationDoesNotHelp` is such a trace); only a higher term
  restores it (`LostUntilNewTerm`).
- A lane is stuck exactly when it once took a request while 1024 were stored (`StuckIffTookWhileFull`;
  `StuckHappens` gets there). It is stuck for good, since the goroutine that waits for room is the one
  that drains (`FullStoreIsForever`).
- An answer reaches its lane exactly when no AddTopic request with its ID was pending at arrival, the
  first job of the batch names the lane's topic (the API does not check that it does), and the lane's
  response channel had room at the push (`ReceivedIffFreeAndReachable`; `FailureReceivedIffReachable`
  for failed sends). An answer that is sent elsewhere or dropped costs its batch the route, and then no
  producer of the batch is ever answered (`DropLoses`, `LostIsForever`). `MisrouteHappens` loses a batch
  to one job of another topic, `LossHappens` to a full channel.
- The late answer to an AddTopic request that was given up is taken for the batch with the same ID
  (`LateAddTopicAnswerIsTaken`).
- A topic that refused a job at most two seconds ago, and was not removed since, is reported with score 0
  unless the call still owes the mark (`RefusalIsReported`); `ReportBeforeMark` is a run whose report comes in between and shows a
  positive score.
- A call whose topic is removed after its lookup, and only such a call, has jobs accepted by a channel
  that no topic owns any more (`AcceptedIntoCurrentIffTopicStayed`); in `OrphanHappens` it returns 0
  rejected with no topic left.
- A rejection is marked under the topic's name, not its channel. A call that found the topic before it
  was removed and created again marks the new topic: exactly then a mark stems from an earlier
  incarnation (`MarkIsStaleIffTopicWasRemoved`), and `StaleMarkHappens` is a run in which a topic whose
  queue was never offered anything is reported with score 0.
- A producer is told success for a response that carries neither known status unless a failure hash
  matches one of its jobs (`ToldSuccessIff`); a hash collision tells a bystander that its job failed
  (`CollisionBlamesBystander`) but never hides a failure (`NeverFalseSuccess`).
- A job can be lost at a consumer's write channel exactly when MaxInflights exceeds 255
  (`DropIffMoreThan255`): 256 slots hold 255 jobs and the "accepted" message.
- A failed flush discards its copy exactly when a nonempty Done for the topic arrived during the send
  (`DiscardIffArrivalInBetween`).
- Agreement counts every tracked sender, voter or not; heartbeats can lead to two quorate claims, even
  under Election Safety, exactly when at least two quorums' worth of senders are tracked
  (`QuorumExclusion`).

## Model

| member | source | states |
|---|---|---|
| Leadership.LeaderTracker.constructor | internal/cluster/agent.go:141-173 | initially no leader, term 0, no voters, not available |
| Leadership.LeaderTracker.HandleHeartbeat | internal/cluster/process.go:67-113 | the in-place update is `Receive`; discovery is refreshed exactly on an adoption under HTTP discovery whose voter list differs |
| Leadership.LeaderTracker.SweepStale | internal/cluster/process.go:88-93 | the deletion loop keeps exactly the entries at most 5 seconds old |
| Leadership.LeaderTracker.EvaluateLeadership | internal/cluster/process.go:115-201 | the quorum decision is `Judge`: adopt, lose or keep, with all topology fields |
| Leadership.LeaderTracker.CountVotes | internal/cluster/process.go:117-128 | the loop counts the fresh entries and those of them that agree with the claim, as set sizes |
| Leadership.LeaderTracker.CompareVoters | internal/cluster/process.go:159-178 | the early-exit loop finds a reported voter that is not a current one, or a length difference |
| Leadership.ReceiveEffect | internal/cluster/process.go:95-200 | one heartbeat adopts, or loses, or changes nothing about the leader, never two of these |
| Leadership.StepEffect | internal/cluster/process.go:95-200 | the same along a trace |
| Leadership.EntriesAfter | internal/cluster/process.go:76-93 | a heartbeat writes only its sender's entry |
| Leadership.EntryIsLatest | internal/cluster/process.go:76-93 | in every trace a tracked entry is its sender's latest heartbeat: leader, term, time and status |
| Leadership.TrackedIff | internal/cluster/process.go:76-106 | a sender is tracked iff its latest heartbeat did not withdraw and every sweep since found it at most 5 seconds old |
| Leadership.VoteDecides | internal/cluster/process.go:115-200 | a proposed node takes over, with term, voters and learners of the heartbeat, iff a majority of the known voters' number of fresh tracked senders name it and its term is higher, or equal and it is not the leader; short of a majority the current leader loses availability |
| Leadership.EveryStepIsDecided | internal/cluster/process.go:95-200 | so on every step of every trace; without a proposal only a resignation of the leader changes anything |
| Leadership.AdoptionIsBacked | internal/cluster/process.go:117-148 | each adoption has at least `len(Voters)/2+1` distinct senders whose latest heartbeat is fresh and carries the adopted leader and term |
| Leadership.AdoptionIsNamed | internal/cluster/process.go:95-157 | an adopted leader is not empty and was named for the adopted term by some heartbeat |
| Leadership.LeaderIsNamed | internal/cluster/process.go:156-185 | `currentLeader` equals the topology's leader in every state; no leader means term 0 and unavailable; a leader was named for the current term |
| Leadership.LeaderIsTrue | internal/cluster/process.go:147-185 | under Election Safety every heartbeat of the current term, past or future, that names anyone names the adopted leader |
| Leadership.AdoptionRaisesTerm | internal/cluster/process.go:148-157 | under Election Safety an adoption over a known leader raises the term |
| Leadership.TermNeverFalls | internal/cluster/process.go:148-157 | terms never fall and a known leader is never forgotten |
| Leadership.AdoptedTermsIncrease | internal/cluster/process.go:147-157 | under Election Safety adopted terms strictly increase, so one leader per term |
| Leadership.AvailableIffLatestVerdictIsAdoption | internal/cluster/process.go:99-104 | the leader counts as available iff some adoption was followed by no resignation and no under-quorum vote |
| Leadership.AvailableNeedsNewTerm | internal/cluster/process.go:147-200 | a step into availability either raised the term or found it available |
| Leadership.LostUntilNewTerm | internal/cluster/process.go:147-200 | availability lost at a term returns only at a strictly higher one |
| Leadership.ConfirmationDoesNotHelp | internal/cluster/process.go:99-150 | a trace in which a leader resigns and a quorum confirms it in the same term, and it stays unavailable |
| Leadership.ReelectionHelps | internal/cluster/process.go:148-185 | a trace in which the same leader is lost and regained at a higher term |
| Leadership.SplitTermFlaps | internal/cluster/process.go:148-157 | a trace without Election Safety that adopts two leaders in one term |
| Leadership.SplitNeedsSenders | internal/cluster/process.go:120-148 | two quorate claims need two quorums of tracked senders |
| Leadership.ReportsAreTracked | internal/cluster/process.go:76-93 | after each of `k` followers reported, exactly their claims are tracked, and the voters are those reported |
| Leadership.SplitIsPossible | internal/cluster/process.go:67-148 | with that many senders a trace of fresh follower heartbeats, under Election Safety, reaches a state with these voters and two quorate claims |
| Leadership.QuorumExclusion | internal/cluster/process.go:77-148 | heartbeats can reach two quorate claims iff two quorums of senders are tracked; in no table at all while senders do not outnumber voters |
| Leadership.VotersChangedIffSetsDiffer | internal/cluster/process.go:159-178 | for duplicate-free lists the one-sided check is true iff the voter sets differ |
| Leadership.VotersChangedIsRightIff | internal/cluster/process.go:159-178 | for any lists the check is right iff some reported voter is new, or the lengths agree just when the numbers of distinct voters do |
| Leadership.VotersChangedNeedsDistinct | internal/cluster/process.go:159-178 | with duplicates the check both misses a change and invents one |
| Batching.SharedCounter.Add | internal/cluster/job_buffer.go:129 | one more than before, modulo 2^32 |
| Batching.ConsecutiveIdsDiffer | internal/cluster/job_buffer.go:129 | fewer than 2^32 consecutive increments give distinct IDs |
| Batching.JobBuffer.constructor | internal/cluster/job_buffer.go:51-66 | an empty buffer with exact counters |
| Batching.JobBuffer.Store | internal/cluster/job_buffer.go:91-96 | appends the request and keeps both counters exact, given room in the store |
| Batching.JobBuffer.Drain | internal/cluster/job_buffer.go:98-141 | an empty store does nothing; otherwise the store is emptied, the counter goes up by one modulo 2^32, that ID maps to one waiter per request, and the batch is the FIFO concatenation of their jobs |
| Batching.JobBuffer.CollectHashes | internal/cluster/job_buffer.go:109-116 | one hash per job, in order |
| Batching.JobBuffer.DispatchResponse | internal/cluster/job_buffer.go:143-216 | the sends are one reply per listening waiter of that batch, in order; the batch is forgotten and nothing else changes |
| Batching.JobBuffer.ClientFailures | internal/cluster/job_buffer.go:187-192 | the failures whose hash is among the producer's, in order |
| Batching.CountersStayExact | internal/cluster/job_buffer.go:91-96 | after a store the counters equal the number of stored requests and of their jobs |
| Batching.DrainResetsCounters | internal/cluster/job_buffer.go:126-127 | after a drain too |
| Batching.JobsUpToNonempty | internal/cluster/job_buffer.go:106-124 | a batch that starts with a nonempty request is nonempty and starts with its first job |
| Batching.HashedVersusNamed | internal/cluster/job_buffer.go:187-192 | attribution by hash finds every failure attribution by ID finds, and finds more iff one collides |
| Batching.HashedEqualsNamedIffNoCollision | internal/cluster/job_buffer.go:218-223 | hash and ID attribution are equal iff no reported failure collides with the producer's jobs |
| Batching.OwnIsComplete | internal/cluster/job_buffer.go:187-192 | the reference attribution misses no failure |
| Batching.NeverFalseSuccess | internal/cluster/job_buffer.go:182-212 | whatever the collisions, a producer with a failed job gets an error listing that failure |
| Batching.ReplyRefinesIdReply | internal/cluster/job_buffer.go:148-212 | without collision the reply is the one ID attribution gives |
| Batching.InjectiveHashesDoNotCollide | internal/cluster/job_buffer.go:218-223 | a hash injective on the IDs involved rules collisions out |
| Batching.ToldSuccessIff | internal/cluster/job_buffer.go:148-212 | exactly when a producer is told success |
| Batching.MineEmptyIff | internal/cluster/job_buffer.go:187-193 | no failure is attributed iff no failure's hash is one of the producer's |
| Batching.MineSelects | internal/cluster/job_buffer.go:187-192 | the failures attributed are exactly those whose hash is one of the producer's, each once, in the order reported |
| Batching.ReplyShape | internal/cluster/job_buffer.go:148-212 | a reply goes under the producer's request ID; a success is bare, an error passes the response's error text and the attributed failures on |
| Batching.CollisionBlamesBystander | internal/cluster/job_buffer.go:182-223 | a producer none of whose jobs failed is told of an error iff some reported failure collides with one of them |
| Lanes.AttemptsAreSends | internal/cluster/job_buffer.go:143-216 | the sends the lane logs are those of the job buffer, reply by reply |
| Lanes.DispatchAnswers | internal/cluster/job_buffer.go:143-216 | a response to a waiting batch settles it: each listening producer has exactly one message, caused by it, in its channel, the batch waits no more, all others still do; any other response only leaves its channel |
| Lanes.DispatchTakesOldest | internal/cluster/job_buffer.go:82-83 | a dispatch takes the oldest response and touches no request, store or batch |
| Lanes.DispatchIsTheMethods | internal/cluster/job_buffer.go:143-216 | what a dispatch adds to the log are the sends of `DispatchResponse`, and its buffer is what the method leaves |
| Lanes.SubmitKeeps | internal/cluster/tasks.go:192-217 | accepting a request keeps the lane invariant |
| Lanes.IntakeKeeps | internal/cluster/job_buffer.go:79-96 | taking one in keeps it, also when the store is full |
| Lanes.CollectKeeps | internal/cluster/job_buffer.go:98-130 | draining under a fresh ID keeps it |
| Lanes.DispatchKeeps | internal/cluster/job_buffer.go:143-216 | dispatching any response, late or repeated, keeps it; no send finds its channel full |
| Lanes.Whereabouts | internal/cluster/job_buffer.go:79-96 | where an undrained request lies, by its position in arrival order |
| Lanes.WaitingIffUnsettled | internal/cluster/job_buffer.go:129-130 | a request is in the waiting map, once, iff it was drained and its batch has had no response |
| Lanes.ExactlyOnePlace | internal/cluster/job_buffer.go:79-216 | an accepted request is in exactly one of input channel, the lane's hand, store, one waiting entry, or done |
| Lanes.AnsweredExactlyWhenDone | internal/cluster/job_buffer.go:148-215 | a listening producer's channel gets exactly one message, when its batch is settled; none is dropped |
| Lanes.AnswersAreTrue | internal/cluster/job_buffer.go:148-215 | each answer stems from a response with the ID of the producer's batch, goes under the producer's own request ID, and is true to that response's failures |
| Lanes.ReusedIdStrandsWaiters | internal/cluster/job_buffer.go:129-130 | an ID that is still waiting when reused leaves the earlier producers nowhere and unanswered |
| Producers.StepKeepsInv | internal/cluster/tasks.go:192-291 | every block of every goroutine keeps the system invariant |
| Producers.RunKeepsInv | internal/cluster/tasks.go:192-291 | so every state of every run has it while the counter has not wrapped |
| Producers.EveryRequestIsAccountedFor | internal/cluster/tasks.go:192-291 | with any number of topics, and late or repeated responses, each accepted request is in exactly one place, answered at most once, and no answer is lost to a full channel |
| Producers.EveryAnswerIsTrue | internal/cluster/process.go:40-64 | even a misrouted response answers only producers of the batch it names |
| Producers.WaitingMapsDisjoint | internal/cluster/job_buffer.go:129-146 | no batch waits in two lanes |
| Producers.BatchesAreFaithful | internal/cluster/job_buffer.go:132-140 | a batch on its way is nonempty, waits in its lane, and holds in order the jobs of exactly its waiters |
| Producers.RegisterKeepsRoutes | internal/cluster/tasks.go:258-267 | registering routes a batch to the topic its first job names |
| Producers.RunKeepsRoutes | internal/cluster/tasks.go:258-291 | in every state of every run each open batch has such a route |
| Producers.StepKeepsRoutes | internal/cluster/process.go:40-64 | no other block disturbs the route of an open batch |
| Producers.RoutingAgrees | internal/cluster/tasks.go:258-274 | from registration to send failure or first response a batch has a route and a waiting lane, and the route names the lane iff the first job does |
| Producers.MatchingTopicsLead | internal/cluster/tasks.go:264 | if jobs carry the topic of their request, the first job of every batch names its lane |
| Producers.LocatedIffFreeAndLeading | internal/cluster/process.go:25-48 | the first response to an open batch finds the route to its lane iff no AddTopic request with its ID is pending and the first job names the lane |
| Producers.LateAddTopicAnswerIsTaken | internal/cluster/process.go:25-48 | a response goes to the AddTopic request of its ID while that is pending, and to the batch once it was given up |
| Producers.RoutingTables.constructor | internal/cluster/agent.go:162-169 | the tables of the initial system |
| Producers.RoutingTables.Forward | internal/cluster/process.go:51-59 | the non-blocking send to a lane, dropped when its channel is full or there is no lane |
| Producers.RoutingTables.HandleResponse | internal/cluster/process.go:25-65 | uninterrupted, it is the machine's arrival, push and cleanup in sequence |
| Producers.RoutingTables.HandleSendJobs | internal/cluster/tasks.go:258-291 | uninterrupted, it is the machine's registration followed by success, or by failure with an error response |
| Losses.ForwardStays | internal/cluster/process.go:50-64 | a handler keeps its response and the route it found whatever happens meanwhile |
| Losses.LeadsStays | internal/cluster/tasks.go:264 | what a batch is routed by never changes |
| Losses.ReceivedIffFreeAndReachable | internal/cluster/process.go:25-59 | the first response to an open batch ends in its lane's channel iff no AddTopic request with its ID was pending at arrival, the first job names the lane, and there was room at the push |
| Losses.RunKeepsSending | internal/cluster/tasks.go:258-264 | the topic a failed send is answered under is the one the batch's first job names |
| Losses.FailureReceivedIffReachable | internal/cluster/tasks.go:270-290 | the error answer to a failed send ends in the channel of the lane that waits iff the first job names the lane and there is room |
| Losses.StepKeepsLost | internal/cluster/process.go:50-64 | no block of any goroutine brings back a batch with neither a route nor an answer on its way |
| Losses.LostIsForever | internal/cluster/process.go:54-64 | in every continuation such a batch goes on waiting and none of its producers is answered |
| Losses.DropLoses | internal/cluster/process.go:50-64 | a response sent to another lane or a full channel, and cleaned up after, loses its batch unless another answer is on its way |
| Losses.FailureLoses | internal/cluster/tasks.go:270-290 | so does a failed send whose error answer goes there |
| Losses.LossHappens | internal/cluster/process.go:50-64 | a run that loses a batch: copies of one answer fill the channel |
| Losses.MisrouteHappens | internal/cluster/tasks.go:264-274 | a run that loses a batch to one job of another topic, all channels empty |
| Losses.FullStoreIsForever | internal/cluster/job_buffer.go:68-92 | a lane that waits for room drains, stores and answers nothing more in any continuation |
| Losses.StuckIffTookWhileFull | internal/cluster/job_buffer.go:79-92 | in every run a lane waits for room iff some earlier step took a request while 1024 were stored |
| Losses.StuckHappens | internal/cluster/job_buffer.go:79-92 | a run that takes 1025 requests before a drain ends there |
| Answers.RequestIsAcceptedIffRoom | internal/cluster/tasks.go:192-205 | a request with a topic is accepted, as it was sent, iff fewer than 1024 wait at its lane |
| Answers.BatchIsQueuedIffRoom | internal/cluster/job_buffer.go:132-133 | a drained batch joins the sender's queue, behind the others, iff it holds fewer than 128 |
| Answers.OldestBatchIsRegistered | internal/cluster/tasks.go:249-267 | the sender takes the oldest batch, which becomes open and routed |
| Answers.EveryBatchIsAccountedFor | internal/cluster/tasks.go:240-291 | in every state of every run a drained batch is in exactly one of its lane's hand, the queue, open or closed, and queued at most once |
| Answers.HeadStays | internal/cluster/job_buffer.go:82-83 | nothing but the lane's dispatch removes its oldest response or the batch that waits for it |
| Answers.ReceivedIsAnswered | internal/cluster/job_buffer.go:143-216 | a received response that is oldest in its lane's channel answers every listening producer of its batch exactly once at the lane's next dispatch |
| Answers.AnswerHappens | internal/cluster/job_buffer.go:143-161 | a run in which a producer's request goes to the leader and back and the producer reads the answer |
| Answers.PendingTopicTakesOneResponse | internal/cluster/process.go:25-37 | a pending AddTopic request takes one response with its number, changing nothing else; the next goes to the batch |
| Answers.SwallowHappens | internal/cluster/process.go:25-37 | a run in which an AddTopic request takes the only answer of a batch |
| LaneLoop.Turn | internal/cluster/job_buffer.go:68-89 | a turn of the loop on the object is the machine's step: buffer, counter, batch and sends |
| LaneLoop.DrainUsesFreshId | internal/cluster/job_buffer.go:129-130 | before the counter wraps, a drain's number waits in no lane and belongs to no earlier batch |
| FlowControl.ConsumerConn.constructor | internal/api/consumer.go:41-53 | nothing sent, nothing acknowledged, empty channel |
| FlowControl.ConsumerConn.GetFreeSlots | internal/api/consumer.go:55-63 | never negative, and positive iff the last sent ID is below the acknowledged one plus MaxInflights |
| FlowControl.ConsumerConn.OnJobSent | internal/api/consumer.go:65-70 | hands out one more than the last sequence ID |
| FlowControl.ConsumerConn.UpdateDeliveryAck | internal/api/consumer.go:72-78 | the acknowledged ID becomes the greater of itself and the argument; nothing else changes |
| FlowControl.ConsumerConn.TryWrite | internal/api/router.go:295-302 | the non-blocking send, refused exactly when 256 frames are queued |
| FlowControl.ConsumerConn.WriteOne | internal/api/consumer.go:96-110 | one turn of the write loop takes the oldest frame and writes it |
| FlowControl.StepKeepsCredit | internal/api/router.go:258-279 | checks and stamps of `k` dispatchers, interleaved with anything, keep the credit |
| FlowControl.CreditBound | internal/api/router.go:246-279 | `LastSentID <= LastDeliveryAckID + MaxInflights + k - 1` in every state, for any acknowledgements |
| FlowControl.CreditBoundIsTight | internal/api/router.go:246-279 | for every MaxInflights and every `k` a run attains that bound |
| FlowControl.AckNeverAhead | internal/api/consumer.go:72-78 | acknowledging only sent IDs keeps the acknowledged ID at or below the last sent one |
| FlowControl.LastAckIsMaximum | internal/api/consumer.go:72-78 | in every run the acknowledged ID is the greatest of 0 and all IDs acknowledged so far |
| FlowControl.AckRestoresCredit | internal/api/consumer.go:55-78 | an acknowledgement returns credit: the free slots are MaxInflights less what was sent beyond it, all of them once the last sent ID is acknowledged |
| FlowControl.WritesFlush | internal/api/consumer.go:96-110 | `n` turns of the write loop write the oldest `n` frames, in order |
| FlowControl.FreeSlotsInRange | internal/api/consumer.go:55-78 | then `0 <= GetFreeSlots() <= MaxInflights`, and it is exactly the unused credit |
| FlowControl.FramesFit | internal/api/consumer.go:89-112 | strictly increasing IDs out of an interval are no more than the interval holds |
| FlowControl.StepKeepsInOrder | internal/api/router.go:279-302 | IDs enter and leave the channel strictly increasing, whatever the consumer does |
| FlowControl.StepKeepsOrdered | internal/api/router.go:279-302 | with honest acknowledgements, acknowledged IDs have gone out, and the greeting is queued once |
| FlowControl.RoomForJobInHand | internal/api/router.go:295-302 | within credit, a job in hand finds room |
| FlowControl.StepKeepsSafe | internal/api/router.go:258-302 | no step drops a job |
| FlowControl.NothingDropped | internal/api/router.go:295-302 | so no run does, for MaxInflights up to 255 |
| FlowControl.QueueUp | internal/api/router.go:258-302 | a run that fills the channel while the write loop has no turn |
| FlowControl.DropIsPossible | internal/api/router.go:298-302 | with MaxInflights of 256 or more a run drops a job |
| FlowControl.DropIffMoreThan255 | internal/api/consumer.go:48 | some honest run drops a job iff MaxInflights exceeds 255 |
| TopicQueue.StepKeepsInv | internal/api/router.go:236-311 | every block of dispatcher, offers, acknowledgements, write loops and drain keeps the queue invariant |
| TopicQueue.RunKeepsInv | internal/api/router.go:236-311 | so every state of every run has it |
| TopicQueue.EveryJobIsAccountedFor | internal/api/router.go:107-158 | an accepted job is at its place in the queue, in the dispatcher's hand, or has one fate; the queue never exceeds 25,000 |
| TopicQueue.FateIsFinal | internal/api/router.go:266-305 | pushed, expired, not marshalled, channel full, discarded: a fate never changes |
| TopicQueue.NewFate | internal/api/router.go:266-305 | which step settles a job, and as what: expired, not marshalled, pushed under the last sent ID with room in the channel, channel full, discarded by the drain |
| TopicQueue.ExpiredIffOld | internal/api/router.go:273-277 | a job the drain did not discard expired iff it was more than 5 seconds old when the dispatcher looked at it |
| TopicQueue.OfferIsAcceptedIffRoom | internal/api/router.go:143-146 | a job is accepted, as it was offered, iff fewer than 25,000 are queued |
| TopicQueue.AcceptedWasOffered | internal/api/router.go:140-146 | every accepted job was offered, and stamped with the time read there |
| TopicQueue.PushesInAcceptanceOrder | internal/api/router.go:258-302 | pushes follow acceptance order and are exactly the jobs whose fate is pushed |
| TopicQueue.ConsumerStreamIsItsPushes | internal/api/consumer.go:65-112 | what a consumer was and will be written is, in order, what was pushed to it, under strictly increasing IDs |
| TopicQueue.NoJobLostAtChannel | internal/api/router.go:295-302 | with many consumers of MaxInflights up to 255 and honest acknowledgements no job's fate is a full channel |
| TopicQueue.SendOne | internal/api/router.go:273-302 | sending one job: expiry, stamp, marshal, non-blocking send |
| TopicQueue.TakeTurn | internal/api/router.go:260-306 | one turn: no credit, no job or a full channel ends the loop; otherwise the head job meets its fate |
| TopicQueue.SendBatch | internal/api/router.go:258-307 | the batch loop is `Serve`, in consumer, queue and fates |
| TopicQueue.ServeBounds | internal/api/router.go:258-307 | an uninterrupted loop takes at most 8 jobs from the queue's head, in order, and stays within credit |
| TopicQueue.TurnIsSteps | internal/api/router.go:258-302 | one turn is four steps of the machine |
| TopicQueue.ServeIsRun | internal/api/router.go:258-307 | the whole loop is a run of the machine, from any reachable state, fate by fate |
| TopicQueue.HeadCanBeDelivered | internal/api/router.go:246-302 | from any reachable state between batches, a young job at the head is pushed to a consumer with credit and room under the next ID |
| TopicQueue.DrainEmpties | internal/api/router.go:110-113 | a drain empties the queue and discards exactly what was queued |
| TopicQueue.ConsumerJoins | internal/api/consumer.go:41-53 | a consumer joins with full credit and an empty channel, other lines untouched |
| TopicQueue.ConsumerAcknowledges | internal/api/consumer.go:72-78 | an acknowledgement concerns its consumer alone |
| TopicQueue.OldestFrameIsWritten | internal/api/consumer.go:100-104 | the write loop takes the oldest frame of its consumer |
| TopicQueue.GreetingIsQueued | internal/api/api.go:402-405 | the "accepted" message is queued once, when there is room |
| Router.DefaultRouter.constructor | internal/api/router.go:69-79 | four empty maps |
| Router.DefaultRouter.AddConsumer | internal/api/router.go:81-93 | creates queue, pressure and dispatcher with the first consumer and leaves those of a live topic alone; every other consumer keeps its connection object; the maps stay consistent |
| Router.DefaultRouter.RemoveConsumer | internal/api/router.go:95-105 | forgets the topic with its last consumer and otherwise leaves its queue alone; the others keep their connection objects; the maps stay consistent |
| Router.DefaultRouter.DrainAndStopTopic | internal/api/router.go:107-118 | removes exactly this topic from all four maps |
| Router.DefaultRouter.MarkSaturated | internal/api/router.go:120-127 | marks a known topic, changes nothing else |
| Router.DefaultRouter.EnqueueJobs | internal/api/router.go:130-158 | accepts exactly the prefix that fits, in order, returns exactly the number not accepted, marks the topic iff some was rejected |
| Router.DefaultRouter.GetNextConsumer | internal/api/router.go:160-179 | a consumer with most free slots; null iff the topic has none |
| Router.DefaultRouter.BuildHeartbeatReport | internal/api/router.go:181-221 | each live topic once, scored by its mark after the reset and its consumers with a free slot |
| Router.OfferAll | internal/api/router.go:139-151 | the offering loop, rejection by rejection |
| Router.CountReady | internal/api/router.go:207-212 | the number of consumers with a free slot, as a set size |
| Router.ReportTopic | internal/api/router.go:192-217 | reset of a stale mark, then the score |
| Router.ReportAll | internal/api/router.go:187-218 | the report's loop over the topics |
| Router.ZeroScoreIffDispatchBlocked | internal/api/router.go:160-217 | score 0 iff saturated or the consumer dispatch would choose has no free slot |
| Router.AddedConsistent | internal/api/router.go:81-93 | adding keeps equal key sets and a consumer for each topic |
| Router.RemovedConsistent | internal/api/router.go:95-118 | so does removing |
| Router.EnqueuedConsistent | internal/api/router.go:130-158 | so does enqueueing, and no queue exceeds 25,000 |
| RouterRuns.IndexesAgree | internal/api/router.go:81-118 | after every interleaving the four maps list the same topics, each with a consumer, so the report's skip is unreachable |
| RouterRuns.StepKeepsInv | internal/api/router.go:81-158 | every block of every caller keeps channels, calls, counts and queue contents in agreement |
| RouterRuns.RunKeepsInv | internal/api/router.go:81-158 | so every state of every run has it |
| RouterRuns.RejectedIsTheRest | internal/api/router.go:130-158 | under every interleaving the number a call returns is exactly the number of its jobs that entered no channel |
| RouterRuns.EnteredOnceInOrder | internal/api/router.go:139-146 | no job enters twice, all enter the channel the call found, in the order of the call |
| RouterRuns.QueueIsConserved | internal/api/router.go:85-146 | what entered a live topic's channel is, in order, what its dispatcher took followed by the queue |
| RouterRuns.FormerIsConserved | internal/api/router.go:107-146 | the same for a former channel, with what the removal drained |
| RouterRuns.QueueChangesOnlyBy | internal/api/router.go:81-158 | on every step of every run: an offer by a call that found this channel appends, the dispatcher takes the oldest, nothing else changes a live topic's queue |
| RouterRuns.FormerChangesOnlyBy | internal/api/router.go:143-146 | the same for a former channel |
| RouterRuns.RemovalDrains | internal/api/router.go:107-117 | when a topic goes, exactly its queued jobs are drained, in order |
| RouterRuns.CallBegan | internal/api/router.go:131-137 | a call goes on with the channel it found when it began |
| RouterRuns.CallIdStays | internal/api/router.go:131-141 | topic, jobs and channel of a call never change |
| RouterRuns.SameChannelIffLiveThroughout | internal/api/router.go:85-117 | a topic has the same channel at two points iff it was live in between |
| RouterRuns.RejectionWasRefused | internal/api/router.go:143-149 | behind every counted rejection is an offer that found the channel full |
| RouterRuns.MarkHasRejection | internal/api/router.go:146-155 | no mark without a refused offer before it |
| RouterRuns.RejectionIsMarked | internal/api/router.go:146-149 | a refused offer is marked before its call goes on |
| RouterRuns.RejectionsRemembered | internal/api/router.go:120-127 | a topic's mark is that of its last rejection and outlives the window |
| RouterRuns.LastMark | internal/api/router.go:120-127 | that rejection is the latest marked by any call since the topic was last created |
| RouterRuns.SaturatedIffRecentlyRejected | internal/api/router.go:192-197 | a report finds a topic saturated iff a call marked a rejection in its current incarnation at most 2 seconds before |
| RouterRuns.RefusalIsReported | internal/api/router.go:143-197 | a topic that refused an offer at most 2 seconds before a report, and was not removed since, is found saturated unless the call still owes the mark |
| RouterRuns.ReportShowsRejections | internal/api/router.go:187-218 | the report built then lists each live topic once, with 0 if recently rejected and otherwise the number of its consumers with a free slot |
| RouterRuns.BuiltReportIsStep | internal/api/router.go:181-221 | whatever the report method may return is the report step of the machine, for some order of the topics |
| RouterRuns.MarkIsStaleIffTopicWasRemoved | internal/api/router.go:120-158 | the refusing channel is not the marked topic's iff the topic was removed between the call's lookup and the mark |
| RouterRuns.AcceptedIntoCurrentIffTopicStayed | internal/api/router.go:107-146 | an accepted job enters its topic's current queue iff the topic was not removed since the call's lookup |
| EnqueueCalls.EnqueueIsRun | internal/api/router.go:130-158 | an uninterrupted call is a run from any reachable state, with the method's effect and the method's result |
| EnqueueCalls.StaleMarkHappens | internal/api/router.go:120-158 | a run in which a new, empty topic with a ready consumer is reported with score 0 for a refusal by its former queue |
| EnqueueCalls.ReportBeforeMark | internal/api/router.go:143-197 | a run whose report falls between a refusal and its mark and shows a positive score |
| EnqueueCalls.OrphanHappens | internal/api/router.go:107-158 | a run in which a call returns 0 rejected although its job lies in a former channel and no topic is left |
| DoneBatch.DoneBatcher.HandleDone | internal/cluster/tasks.go:293-307 | appends to the topic's list |
| DoneBatch.DoneBatcher.BeginFlush | internal/cluster/tasks.go:348-374 | copies and empties a nonempty list; otherwise nothing |
| DoneBatch.DoneBatcher.Restore | internal/cluster/tasks.go:380-384 | puts the copy back iff the list is empty |
| DoneBatch.DoneBatcher.FlushTopic | internal/cluster/tasks.go:348-386 | an uninterrupted flush is the machine's two steps: a nonempty list is sent whole and emptied, or left as it was if the send fails |
| DoneBatch.DoneBatcher.FlushAllTopics | internal/cluster/tasks.go:332-345 | with nothing arriving meanwhile, every topic is either sent whole and emptied or left exactly as it was |
| DoneBatch.StepKeepsBalanced | internal/cluster/tasks.go:293-386 | each block keeps the balance of a topic |
| DoneBatch.NothingLostInOrder | internal/cluster/tasks.go:293-386 | the submitted IDs are, in order, the copies that left, the copy in flight and the pending list |
| DoneBatch.EverythingArrivedIsAccountedFor | internal/cluster/tasks.go:293-386 | what the Done requests of a run named for a topic is exactly that, in arrival order |
| DoneBatch.DoneIdsConserved | internal/cluster/tasks.go:332-386 | as multisets: submitted = pending + in flight + sent + discarded |
| DoneBatch.WhatLeaves | internal/cluster/tasks.go:376-385 | a copy leaves by a successful send, or by a failed one that finds new IDs pending |
| DoneBatch.InFlightSince | internal/cluster/tasks.go:347-385 | the topic of a copy in flight has pending IDs iff some arrived since the copy was taken |
| DoneBatch.DiscardIffArrivalInBetween | internal/cluster/tasks.go:376-385 | a failed send discards its copy iff a nonempty Done for the topic arrived since; otherwise the copy is the pending list again |

## Left out

- QUIC dialing, retries, TLS identity checks, the handshake and all encodings: a send to the leader
  succeeds or fails at will, and since a failed send may have reached the leader, responses may
  arrive for any ID at any time. "Sent" in `DoneBatch` therefore counts successful sends only.
- FNV-1a: the hash is an arbitrary function from job ID to 64 bits.
- JSON marshalling: succeeds or fails at will.
- HTTP and WebSocket handling, timeouts, authentication, configuration, metrics, connection sync and
  HTTP discovery: only the nonempty-jobs check, acknowledgements and the "accepted" message remain.
- Liveness: nothing here says that a step is ever taken, only what no step can bring about any more.
- Data races below the level of locks and channel operations, and two live dispatchers of one topic
  in `TopicQueue` (after a drain the former one may still finish its batch).
- The "proxy busy" answer to a request that finds its lane's input channel full (not an accepted
  request), and the answers to AddTopic requests.
- Integer widths other than the batch ID's: the buffered counters (int32), sequence IDs (int64) and
  terms (uint64) do not wrap here.
- Which of several consumers with equally many free slots is chosen. The runs of `TopicQueue` let the
  dispatcher choose any consumer with a free slot, also one that has left the topic.
- The unreachable `quorum == 0` branch (internal/cluster/process.go:136-138): a majority of any
  number of voters is at least 1.
- Leadership.LeaderTracker.HandleHeartbeat: returns whether discovery is to be refreshed; the refresh itself is network traffic.
- LaneLoop.Turn: a request is a whole turn only when the store has room; a turn that has to wait for room is the lane's `held` request.
- Batching.JobBuffer.Store: has room in the store as a precondition; waiting for room is a state of the lane (`StuckIffTookWhileFull`).
- Router.DefaultRouter.EnqueueJobs: an uninterrupted call; `EnqueueIsRun` makes it a run of `RouterRuns`, where other callers and dispatchers come between its offers.
- RouterRuns.SaturatedIffRecentlyRejected: the two seconds count from the block that marks a rejection; `RefusalIsReported` counts from the refused offer.
- RouterRuns: the removal of a topic with the drain of its queue is one step; a job offered during the drain behaves like one offered before or after it.
- TopicQueue.EveryJobIsAccountedFor: one channel and its dispatcher; a job accepted after the topic was removed counts as in that channel's queue, and `RouterRuns.AcceptedIntoCurrentIffTopicStayed` says when that is.
- TopicQueue.SendBatch: an uninterrupted loop; interleavings are those of the machine it is a run of.
