/** Batches on their way to the leader and answers on their way back: where a batch is, when a received
    response is turned into answers, and what AddTopic requests with the same number do to them. */
module Answers {
  import opened Common
  import opened Batching
  import opened Lanes
  import opened Producers
  import opened Losses
  import Runs

  // ------------------------------------------------------------------ where a batch is

  ghost predicate AtLane(lanes: map<Topic, Lane>, t: Topic, id: uint32) {
    t in lanes && lanes[t].outgoing.Some? && lanes[t].outgoing.value.id == id
  }

  ghost predicate InQueue(sendCh: seq<Batch>, id: uint32) {
    exists k :: 0 <= k < |sendCh| && sendCh[k].id == id
  }

  /** Every drained batch is at its lane, queued, open or closed. */
  ghost predicate Placed(lanes: map<Topic, Lane>, sendCh: seq<Batch>, open: set<uint32>, closed: set<uint32>) {
    forall t, id: uint32 :: Owns(lanes, t, id) ==>
      AtLane(lanes, t, id) || InQueue(sendCh, id) || id in open || id in closed
  }

  ghost predicate AllPlaced(s: System) {
    Placed(s.lanes, s.sendCh, s.open, s.closed)
  }

  lemma EmitKeepsPlaced(h: HashFn, s: System, t: Topic)
    requires AllPlaced(s)
    ensures AllPlaced(Emits(s, t))
  {
    var s' := Emits(s, t);
    forall u, id: uint32 | Owns(s'.lanes, u, id)
      ensures AtLane(s'.lanes, u, id) || InQueue(s'.sendCh, id) || id in s'.open || id in s'.closed
    {
      assert Owns(s.lanes, u, id);
      if k :| 0 <= k < |s.sendCh| && s.sendCh[k].id == id {
        assert s'.sendCh[k] == s.sendCh[k];
      } else if AtLane(s.lanes, u, id) && s'.sendCh != s.sendCh {
        assert s'.sendCh[|s.sendCh|] == s.lanes[t].outgoing.value;
      }
    }
  }

  lemma RegisterKeepsPlaced(s: System)
    requires AllPlaced(s)
    ensures AllPlaced(Registers(s))
  {
    var s' := Registers(s);
    forall u, id: uint32 | Owns(s'.lanes, u, id)
      ensures AtLane(s'.lanes, u, id) || InQueue(s'.sendCh, id) || id in s'.open || id in s'.closed
    {
      if k :| 0 <= k < |s.sendCh| && s.sendCh[k].id == id {
        if s'.sendCh != s.sendCh && k > 0 {
          assert s'.sendCh[k - 1] == s.sendCh[k];
        }
      }
    }
  }

  /** Drains, and the lane blocks that touch no batch. */
  lemma LaneKeepsPlaced(h: HashFn, s: System, e: Event)
    requires AllPlaced(s) && OfLane(e) && !e.LaneEmits? && Step(h, s, e).issued < ID_SPACE
    ensures AllPlaced(Step(h, s, e))
  {
    var s' := Step(h, s, e);
    LaneKeepsSendCh(h, s, e);
    forall u, id: uint32 | Owns(s'.lanes, u, id)
      ensures AtLane(s'.lanes, u, id) || InQueue(s'.sendCh, id) || id in s'.open || id in s'.closed
    {
      if Owns(s.lanes, u, id) {
        if s.lanes[u].outgoing.Some? {
          LaneKeepsOutgoing(h, s, e, u);
        }
      } else {
        NewBatchIsAtLane(h, s, e, u, id);
      }
    }
  }

  lemma LaneKeepsSendCh(h: HashFn, s: System, e: Event)
    requires OfLane(e) && !e.LaneEmits?
    ensures var s' := Step(h, s, e); s'.sendCh == s.sendCh && s'.open == s.open && s'.closed == s.closed
  {
  }

  lemma LaneKeepsOutgoing(h: HashFn, s: System, e: Event, u: Topic)
    requires OfLane(e) && !e.LaneEmits? && u in s.lanes && s.lanes[u].outgoing.Some?
    ensures u in Step(h, s, e).lanes && Step(h, s, e).lanes[u].outgoing == s.lanes[u].outgoing
  {
  }

  lemma NewBatchIsAtLane(h: HashFn, s: System, e: Event, u: Topic, id: uint32)
    requires Owns(Step(h, s, e).lanes, u, id) && !Owns(s.lanes, u, id)
    ensures AtLane(Step(h, s, e).lanes, u, id)
  {
  }

  lemma RelayKeepsPlaced(h: HashFn, s: System, e: Event)
    requires AllPlaced(s) && !OfLane(e)
    ensures AllPlaced(Step(h, s, e))
  {
    if e.SenderRegisters? {
      RegisterKeepsPlaced(s);
    } else {
      var s' := Step(h, s, e);
      RelayKeepsStages(h, s, e);
      forall u, id: uint32 | Owns(s'.lanes, u, id)
        ensures AtLane(s'.lanes, u, id) || InQueue(s'.sendCh, id) || id in s'.open || id in s'.closed
      {
        RelayKeepsLane(h, s, e, u);
        assert Owns(s.lanes, u, id);
      }
    }
  }

  lemma RelayKeepsStages(h: HashFn, s: System, e: Event)
    requires !OfLane(e) && !e.SenderRegisters?
    ensures var s' := Step(h, s, e);
      s'.sendCh == s.sendCh && forall id :: id in s.open || id in s.closed ==> id in s'.open || id in s'.closed
  {
  }

  lemma RelayKeepsLane(h: HashFn, s: System, e: Event, u: Topic)
    requires !OfLane(e) && u in Step(h, s, e).lanes
    ensures u in s.lanes && Step(h, s, e).lanes[u].spans == s.lanes[u].spans
    ensures Step(h, s, e).lanes[u].outgoing == s.lanes[u].outgoing
  {
  }

  lemma {:induction false} RunKeepsPlaced(h: HashFn, run: seq<Event>, st: seq<System>, n: nat)
    requires IsRun(h, run, st) && n < |st| && st[n].issued < ID_SPACE
    ensures AllPlaced(st[n])
  {
    if n > 0 {
      var s, e := st[n - 1], run[n - 1];
      assert StepAt(h, run, st, n - 1);
      IssuedNeverFalls(h, s, e);
      RunKeepsPlaced(h, run, st, n - 1);
      if e.LaneEmits? {
        EmitKeepsPlaced(h, s, e.topic);
      } else if OfLane(e) {
        LaneKeepsPlaced(h, s, e);
      } else {
        RelayKeepsPlaced(h, s, e);
      }
    }
  }

  /** Conservation of batches: in every state of every run a drained batch is in exactly one of its lane's
      hand, the sender's queue, open (registered, neither failed nor answered) or closed; and it is queued
      at most once. */
  lemma EveryBatchIsAccountedFor(h: HashFn, run: seq<Event>, st: seq<System>, n: nat, t: Topic, id: uint32)
    requires IsRun(h, run, st) && n < |st| && ApiChecked(run) && st[n].issued < ID_SPACE
    requires Owns(st[n].lanes, t, id)
    ensures var s := st[n];
      Bit(AtLane(s.lanes, t, id)) + Bit(InQueue(s.sendCh, id)) + Bit(id in s.open) + Bit(id in s.closed) == 1
    ensures forall j, k :: 0 <= j < k < |st[n].sendCh| ==> st[n].sendCh[j].id != st[n].sendCh[k].id
  {
    RunKeepsInv(h, run, st, n);
    RunKeepsPlaced(h, run, st, n);
  }

  // ------------------------------------------------------------------ what the blocks accept

  /** A request is accepted, as it was sent, exactly while fewer than 1024 wait at its lane; a request
      without a topic is ignored. */
  lemma RequestIsAcceptedIffRoom(h: HashFn, s: System, t: Topic, id: uint32, listening: bool, jobs: seq<Job>)
    ensures t.name == "" ==> Step(h, s, ProducerSubmits(t, id, listening, jobs)) == s
    ensures t.name != "" ==>
      var s', l := Step(h, s, ProducerSubmits(t, id, listening, jobs)), LaneOf(s.lanes, t);
      && t in s'.lanes
      && if |l.input| < 1024 then
           && |s'.lanes[t].arrivals| == |l.arrivals| + 1 && l.arrivals <= s'.lanes[t].arrivals
           && s'.lanes[t].input == l.input + [s'.lanes[t].arrivals[|l.arrivals|]]
           && var r := s'.lanes[t].arrivals[|l.arrivals|];
           r.id == id && r.listening == listening && r.topic == t && r.jobs == jobs
         else s'.lanes[t] == l
  {
  }

  /** The sender's queue takes a drained batch, behind the others, exactly while it holds fewer than 128. */
  lemma BatchIsQueuedIffRoom(h: HashFn, s: System, t: Topic)
    requires t in s.lanes && s.lanes[t].outgoing.Some?
    ensures var s' := Step(h, s, LaneEmits(t));
      if |s.sendCh| < 128
      then s'.sendCh == s.sendCh + [s.lanes[t].outgoing.value] && t in s'.lanes && s'.lanes[t].outgoing.None?
      else s' == s
  {
  }

  /** The sender takes the oldest batch, when it has none under way. */
  lemma OldestBatchIsRegistered(h: HashFn, s: System)
    requires Inv(h, s) && s.sending.None? && s.sendCh != []
    ensures var s', b := Step(h, s, SenderRegisters), s.sendCh[0];
      && s.sendCh == [b] + s'.sendCh && b.id in s'.open && b.id !in s.open
      && s'.sending.Some? && s'.sending.value.id == b.id && b.id in s'.routes
  {
    var b := s.sendCh[0];
    assert BatchOk(b.topic, s.lanes[b.topic].arrivals, s.lanes[b.topic].spans, b);
  }

  // ------------------------------------------------------------------ answers

  /** Lane `t` waits for the batch that its oldest response names. */
  ghost predicate HeadIsDue(lanes: map<Topic, Lane>, t: Topic, resp: Response) {
    && t in lanes && lanes[t].responses != [] && lanes[t].responses[0] == resp
    && resp.requestId in lanes[t].buffer.waiting && resp.requestId in lanes[t].spans
  }

  lemma LaneEventKeepsHead(h: HashFn, s: System, e: Event, t: Topic, resp: Response)
    requires HeadIsDue(s.lanes, t, resp) && OfLane(e) && e != LaneDispatches(t)
    requires Step(h, s, e).issued < ID_SPACE
    ensures HeadIsDue(Step(h, s, e).lanes, t, resp)
  {
  }

  lemma RelayKeepsHead(h: HashFn, s: System, e: Event, t: Topic, resp: Response)
    requires HeadIsDue(s.lanes, t, resp) && !OfLane(e)
    ensures HeadIsDue(Step(h, s, e).lanes, t, resp)
  {
  }

  lemma {:induction false} HeadStays(h: HashFn, run: seq<Event>, st: seq<System>, m: nat, n: nat, t: Topic,
                                     resp: Response)
    requires IsRun(h, run, st) && m <= n < |st| && st[n].issued < ID_SPACE
    requires HeadIsDue(st[m].lanes, t, resp) && forall j :: m <= j < n ==> run[j] != LaneDispatches(t)
    ensures HeadIsDue(st[n].lanes, t, resp)
    decreases n
  {
    if m < n {
      var s, e := st[n - 1], run[n - 1];
      assert StepAt(h, run, st, n - 1);
      IssuedNeverFalls(h, s, e);
      HeadStays(h, run, st, m, n - 1, t, resp);
      if OfLane(e) {
        LaneEventKeepsHead(h, s, e, t, resp);
      } else {
        RelayKeepsHead(h, s, e, t, resp);
      }
    }
  }

  /** A received response that is next in its lane's channel answers its whole batch: at the lane's next
      dispatch, whenever that is, every listening producer of the batch gets exactly one message, caused
      by this response, and the batch is waited for no more. */
  lemma ReceivedIsAnswered(h: HashFn, run: seq<Event>, st: seq<System>, m: nat, n: nat, t: Topic, resp: Response)
    requires IsRun(h, run, st) && m <= n < |run| && ApiChecked(run) && st[n].issued < ID_SPACE
    requires HeadIsDue(st[m].lanes, t, resp) && forall j :: m <= j < n ==> run[j] != LaneDispatches(t)
    requires run[n] == LaneDispatches(t) && t in st[n].lanes && Idle(st[n].lanes[t])
    ensures t in st[n + 1].lanes && resp.requestId in st[n].lanes[t].spans
    ensures var l, l' := st[n].lanes[t], st[n + 1].lanes[t];
      && AllAnswered(l.arrivals, l.spans[resp.requestId], l'.mailboxes, l'.log, resp)
      && OnlySettles(l.buffer.waiting, l'.buffer.waiting, resp.requestId)
  {
    HeadStays(h, run, st, m, n, t, resp);
    RunKeepsInv(h, run, st, n);
    assert StepAt(h, run, st, n);
    assert LaneOk(h, t, st[n].lanes[t]);
    DispatchAnswers(h, t, st[n].lanes[t]);
  }

  const JOB := Job("job", TOPIC, [])

  /** The lane has accepted one request, of a producer that listens, and is at its select. */
  ghost predicate Lone(l: Lane) {
    |l.arrivals| == 1 && l.arrivals[0].listening && l.arrivals[0].jobs == [JOB] && l.input == [] && Idle(l)
  }

  /** Its batch was drained. */
  ghost predicate LoneWaits(l: Lane) {
    && Lone(l) && l.spans == map[1 := Span(0, 1)] && 1 in l.buffer.waiting
  }

  lemma LoneFiled(h: HashFn) returns (run: seq<Event>, st: seq<System>)
    ensures IsRun(h, run, st) && ApiChecked(run)
    ensures var s := st[|run|];
      && Calm(s) && s.issued == 0 && s.sendCh == [] && TOPIC in s.lanes && Lone(s.lanes[TOPIC])
      && s.lanes[TOPIC].buffer.store == s.lanes[TOPIC].arrivals && s.lanes[TOPIC].spans == map[]
      && s.lanes[TOPIC].batchOf == [] && s.lanes[TOPIC].responses == []
  {
    run, st := Runs.Extend(StepOf(h), INITIAL, [], [INITIAL], ProducerSubmits(TOPIC, 0, true, [JOB]));
    run, st := Runs.Extend(StepOf(h), INITIAL, run, st, LaneTakes(TOPIC));
  }

  lemma LoneQueued(h: HashFn) returns (run: seq<Event>, st: seq<System>)
    ensures IsRun(h, run, st) && ApiChecked(run)
    ensures var s := st[|run|];
      && Calm(s) && s.issued == 1 && TOPIC in s.lanes && LoneWaits(s.lanes[TOPIC]) && s.lanes[TOPIC].responses == []
      && |s.sendCh| == 1 && s.sendCh[0].id == 1 && s.sendCh[0].jobs == [JOB]
  {
    run, st := LoneFiled(h);
    var store := st[|run|].lanes[TOPIC].buffer.store;
    assert JobsUpTo(store, 1) == JobsUpTo(store, 0) + store[0].jobs;
    run, st := Runs.Extend(StepOf(h), INITIAL, run, st, LaneDrains(TOPIC));
    run, st := Runs.Extend(StepOf(h), INITIAL, run, st, LaneEmits(TOPIC));
  }

  /** One producer waits for batch 1, whose answer is in the lane's channel. */
  ghost predicate Due(s: System) {
    && HeadIsDue(s.lanes, TOPIC, Answer(1)) && LoneWaits(s.lanes[TOPIC]) && s.issued == 1
  }

  lemma LoneSent(h: HashFn) returns (run: seq<Event>, st: seq<System>)
    ensures IsRun(h, run, st) && ApiChecked(run)
    ensures var s := st[|run|];
      && Calm(s) && s.issued == 1 && TOPIC in s.lanes && LoneWaits(s.lanes[TOPIC]) && s.lanes[TOPIC].responses == []
      && 1 in s.routes && s.routes[1] == TOPIC
  {
    run, st := LoneQueued(h);
    run, st := Runs.Extend(StepOf(h), INITIAL, run, st, SenderRegisters);
    run, st := Runs.Extend(StepOf(h), INITIAL, run, st, SendSucceeds);
  }

  lemma DueRun(h: HashFn) returns (run: seq<Event>, st: seq<System>)
    ensures IsRun(h, run, st) && ApiChecked(run) && Due(st[|run|])
  {
    run, st := LoneSent(h);
    run, st := Runs.Extend(StepOf(h), INITIAL, run, st, ResponseArrives(Answer(1)));
    run, st := Runs.Extend(StepOf(h), INITIAL, run, st, HandlerPushes(0));
  }

  /** It happens: a request goes to the leader and back, and its producer reads the answer. */
  lemma AnswerHappens(h: HashFn) returns (run: seq<Event>, st: seq<System>)
    ensures IsRun(h, run, st) && ApiChecked(run) && |run| >= 1 && run[|run| - 1] == ProducerReads(TOPIC, 0)
    ensures TOPIC in st[|run| - 1].lanes && 0 in st[|run| - 1].lanes[TOPIC].mailboxes
    ensures AnsweredOnceBy(st[|run| - 1].lanes[TOPIC].log, 0, Answer(1))
    ensures TOPIC in st[|run|].lanes && 0 !in st[|run|].lanes[TOPIC].mailboxes
  {
    run, st := DueRun(h);
    var n := |run|;
    run, st := Runs.Extend(StepOf(h), INITIAL, run, st, LaneDispatches(TOPIC));
    ReceivedIsAnswered(h, run, st, n, n, TOPIC, Answer(1));
    assert AnsweredOnceBy(st[n + 1].lanes[TOPIC].log, 0, Answer(1));
    run, st := Runs.Extend(StepOf(h), INITIAL, run, st, ProducerReads(TOPIC, 0));
  }

  // ------------------------------------------------------------------ AddTopic requests with the same number

  /** A pending AddTopic request takes one response with its number, and only that: no lane, route or
      handler changes, and the next such response goes to the batch. */
  lemma PendingTopicTakesOneResponse(h: HashFn, run: seq<Event>, st: seq<System>, n: nat, t: Topic, resp: Response,
                                     next: Response)
    requires IsRun(h, run, st) && n < |st| && ApiChecked(run) && st[n].issued < ID_SPACE
    requires resp.requestId == next.requestId && resp.requestId in st[n].open && resp.requestId in st[n].addTopics
    requires LeadsIn(st[n].lanes, t, resp.requestId, t)
    ensures var s, s' := st[n], Step(h, st[n], ResponseArrives(resp));
      && s' == s.(addTopics := s.addTopics - {resp.requestId})
      && Step(h, s', ResponseArrives(next)).forwards == s.forwards + [Forward(next, t, Located)]
  {
    RoutingAgrees(h, run, st, n, t, resp.requestId);
  }

  /** It happens: an AddTopic request with the number of a batch takes the batch's only answer, and the
      batch goes on waiting with its route. */
  lemma SwallowHappens(h: HashFn) returns (run: seq<Event>, st: seq<System>)
    ensures IsRun(h, run, st) && ApiChecked(run) && |run| >= 2
    ensures run[|run| - 2] == TopicRequested(1) && run[|run| - 1] == ResponseArrives(Answer(1))
    ensures var s := st[|run|];
      s.forwards == [] && 1 in s.routes && TOPIC in s.lanes && Unanswered(s.lanes[TOPIC], 1) && 1 !in s.addTopics
  {
    run, st := IssueOne(h, [], [INITIAL], 0);
    assert Unanswered(st[|run|].lanes[TOPIC], 1);
    run, st := Runs.Extend(StepOf(h), INITIAL, run, st, TopicRequested(1));
    run, st := Runs.Extend(StepOf(h), INITIAL, run, st, ResponseArrives(Answer(1)));
  }
}
