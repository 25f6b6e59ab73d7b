/** How answers reach a lane and how they are lost: to a pending AddTopic request with the batch's ID,
    to the lane of another topic, to a full response channel, or because the lane stopped at a full
    store.  Each way is given its exact condition, and the last three a run that gets there and what
    they mean for every continuation. */
module Losses {
  import opened Common
  import opened Batching
  import opened Lanes
  import opened Producers
  import Runs

  // ------------------------------------------------------------------ what stays

  lemma StepKeepsForward(h: HashFn, s: System, e: Event, i: nat)
    requires i < |s.forwards|
    ensures i < |Step(h, s, e).forwards|
    ensures var f, f' := s.forwards[i], Step(h, s, e).forwards[i]; f'.resp == f.resp && f'.topic == f.topic
  {
  }

  /** A handler keeps its place, its response and its route. */
  lemma {:induction false} ForwardStays(h: HashFn, run: seq<Event>, st: seq<System>, m: nat, n: nat, i: nat)
    requires IsRun(h, run, st) && m <= n < |st| && i < |st[m].forwards|
    ensures i < |st[n].forwards|
    ensures var f, f' := st[m].forwards[i], st[n].forwards[i]; f'.resp == f.resp && f'.topic == f.topic
    decreases n
  {
    if m < n {
      ForwardStays(h, run, st, m, n - 1, i);
      assert StepAt(h, run, st, n - 1);
      StepKeepsForward(h, st[n - 1], run[n - 1], i);
    }
  }

  lemma StepKeepsLane(h: HashFn, s: System, e: Event, t: Topic)
    requires t in s.lanes
    ensures t in Step(h, s, e).lanes
  {
  }

  lemma {:induction false} LaneStays(h: HashFn, run: seq<Event>, st: seq<System>, m: nat, n: nat, t: Topic)
    requires IsRun(h, run, st) && m <= n < |st| && t in st[m].lanes
    ensures t in st[n].lanes
    decreases n
  {
    if m < n {
      LaneStays(h, run, st, m, n - 1, t);
      assert StepAt(h, run, st, n - 1);
      StepKeepsLane(h, st[n - 1], run[n - 1], t);
    }
  }

  lemma {:induction false} IssuedOnlyGrows(h: HashFn, run: seq<Event>, st: seq<System>, m: nat, n: nat)
    requires IsRun(h, run, st) && m <= n < |st|
    ensures st[m].issued <= st[n].issued
    decreases n
  {
    if m < n {
      IssuedOnlyGrows(h, run, st, m, n - 1);
      assert StepAt(h, run, st, n - 1);
      IssuedNeverFalls(h, st[n - 1], run[n - 1]);
    }
  }

  // ------------------------------------------------------------------ reception

  /** At step `p` the handler that the arrival at step `m` would start makes its push. */
  ghost predicate PushOf(run: seq<Event>, st: seq<System>, m: nat, p: nat) {
    && m < p < |run| && |st| == |run| + 1
    && run[p] == HandlerPushes(|st[m].forwards|)
    && |st[m].forwards| < |st[p].forwards| && st[p].forwards[|st[m].forwards|].stage == Located
  }

  /** The response that arrived at step `m` is what step `p` adds to the lane's response channel. */
  ghost predicate ReceivedAt(run: seq<Event>, st: seq<System>, m: nat, p: nat, t: Topic)
    requires m < p < |run| && |st| == |run| + 1 && run[m].ResponseArrives?
  {
    && |st[m + 1].forwards| == |st[m].forwards| + 1
    && t in st[p].lanes && t in st[p + 1].lanes
    && st[p + 1].lanes[t].responses == st[p].lanes[t].responses + [run[m].resp]
  }

  /** Its lane is the one the batch's first job names, and has room. */
  ghost predicate Reachable(s: System, t: Topic, id: uint32) {
    t in s.lanes && LeadsIn(s.lanes, t, id, t) && |s.lanes[t].responses| < 1024
  }

  /** The first response to an open batch ends in the channel of the lane that waits for it if and only
      if no AddTopic request with its ID was pending when it arrived, the first job of the batch names
      the lane, and there was room when it was pushed. */
  lemma ReceivedIffFreeAndReachable(h: HashFn, run: seq<Event>, st: seq<System>, m: nat, p: nat, t: Topic)
    requires IsRun(h, run, st) && ApiChecked(run)
    requires PushOf(run, st, m, p) && st[p].issued < ID_SPACE
    requires run[m].ResponseArrives? && t in st[m].lanes
    requires run[m].resp.requestId in st[m].lanes[t].spans && run[m].resp.requestId in st[m].open
    ensures t in st[p].lanes
    ensures ReceivedAt(run, st, m, p, t) <==>
            run[m].resp.requestId !in st[m].addTopics && Reachable(st[p], t, run[m].resp.requestId)
  {
    var i, id := |st[m].forwards|, run[m].resp.requestId;
    IssuedOnlyGrows(h, run, st, m, p);
    LaneStays(h, run, st, m, p, t);
    RoutingAgrees(h, run, st, m, t, id);
    assert StepAt(h, run, st, m) && StepAt(h, run, st, p);
    LeadsStays(h, run, st, m, p, t, id, st[m].routes[id]);
    if id !in st[m].addTopics {
      var u := st[m].routes[id];
      assert st[m + 1].forwards[i] == Forward(run[m].resp, u, Located);
      ForwardStays(h, run, st, m + 1, p, i);
      PushEffect(Moved(st[p], i, Pushed), u, t, run[m].resp);
    }
  }

  /** A batch's first job stays what it is. */
  lemma {:induction false} LeadsStays(h: HashFn, run: seq<Event>, st: seq<System>, m: nat, n: nat, t: Topic,
                                      id: uint32, u: Topic)
    requires IsRun(h, run, st) && ApiChecked(run) && m <= n < |st| && st[n].issued < ID_SPACE
    requires LeadsIn(st[m].lanes, t, id, u)
    ensures LeadsIn(st[n].lanes, t, id, u)
    decreases n
  {
    if m < n {
      assert StepAt(h, run, st, n - 1);
      IssuedNeverFalls(h, st[n - 1], run[n - 1]);
      LeadsStays(h, run, st, m, n - 1, t, id, u);
      RunKeepsInv(h, run, st, n - 1);
      StepKeepsLeads(h, st[n - 1], run[n - 1], t, id, u);
    }
  }

  lemma StepKeepsLeads(h: HashFn, s: System, e: Event, t: Topic, id: uint32, u: Topic)
    requires IdsOk(s.lanes, s.issued) && LeadsIn(s.lanes, t, id, u) && Step(h, s, e).issued < ID_SPACE
    ensures LeadsIn(Step(h, s, e).lanes, t, id, u)
  {
    assert Owns(s.lanes, t, id);
    if OfLane(e) {
      LaneEventKeepsLeads(h, s, e, t, id, u);
    }
  }

  /** A push to lane `u`, as lane `t` sees it. */
  lemma PushEffect(s: System, u: Topic, t: Topic, resp: Response)
    requires t in s.lanes
    ensures var s', l := Push(s, u, resp), s.lanes[t];
      && t in s'.lanes
      && s'.lanes[t].responses == l.responses + (if u == t && |l.responses| < RESPONSE_CAPACITY then [resp] else [])
      && s'.lanes[t].spans == l.spans && s'.lanes[t].buffer == l.buffer
  {
  }

  /** The sender's topic is the one the batch's first job names. */
  ghost predicate SendingOk(s: System, t: Topic, id: uint32) {
    s.sending.Some? && s.sending.value.id == id && Owns(s.lanes, t, id) ==>
      LeadsIn(s.lanes, t, id, s.sending.value.topic)
  }

  lemma StepKeepsSender(h: HashFn, s: System, e: Event)
    requires !e.SenderRegisters?
    ensures Step(h, s, e).sending.Some? ==> Step(h, s, e).sending == s.sending
  {
  }

  lemma StepKeepsSending(h: HashFn, s: System, e: Event, t: Topic, id: uint32)
    requires Inv(h, s) && Registered(s) && SendingOk(s, t, id)
    requires Step(h, s, e).issued < ID_SPACE
    ensures SendingOk(Step(h, s, e), t, id)
  {
    if e.SenderRegisters? {
      if s.sending.None? && s.sendCh != [] && s.sendCh[0].jobs != [] && s.sendCh[0].id == id && Owns(s.lanes, t, id) {
        BatchLeads(h, s, t);
      }
    } else if s.sending.Some? && s.sending.value.id == id {
      StepKeepsSender(h, s, e);
      if Owns(s.lanes, t, id) {
        StepKeepsLeads(h, s, e, t, id, s.sending.value.topic);
      } else if Owns(Step(h, s, e).lanes, t, id) {
        StepOwns(h, s, e, t, id);
      }
    } else {
      StepKeepsSender(h, s, e);
    }
  }

  lemma {:induction false} RunKeepsSending(h: HashFn, run: seq<Event>, st: seq<System>, n: nat, t: Topic, id: uint32)
    requires IsRun(h, run, st) && n < |st| && ApiChecked(run) && st[n].issued < ID_SPACE
    ensures SendingOk(st[n], t, id)
  {
    if n > 0 {
      assert StepAt(h, run, st, n - 1);
      IssuedNeverFalls(h, st[n - 1], run[n - 1]);
      RunKeepsSending(h, run, st, n - 1, t, id);
      RunKeepsInv(h, run, st, n - 1);
      StepKeepsSending(h, st[n - 1], run[n - 1], t, id);
    }
  }

  /** The error answer to a failed send ends in the channel of the lane that waits for the batch if and
      only if the first job of the batch names the lane and there is room. */
  lemma FailureReceivedIffReachable(h: HashFn, run: seq<Event>, st: seq<System>, n: nat, t: Topic)
    requires IsRun(h, run, st) && n < |run| && ApiChecked(run) && st[n].issued < ID_SPACE
    requires run[n].SendFails? && st[n].sending.Some? && Owns(st[n].lanes, t, st[n].sending.value.id)
    ensures t in st[n + 1].lanes
    ensures var id := st[n].sending.value.id;
      st[n + 1].lanes[t].responses == st[n].lanes[t].responses + [Response(id, Error, run[n].error, [])]
      <==> Reachable(st[n], t, id)
  {
    var failed := st[n].sending.value;
    RunKeepsSending(h, run, st, n, t, failed.id);
    assert StepAt(h, run, st, n);
    PushEffect(Close(st[n], failed.id).(sending := None, routes := st[n].routes - {failed.id}), failed.topic, t,
               Response(failed.id, Error, run[n].error, []));
  }

  // ------------------------------------------------------------------ lost answers

  /** Lane `t` waits for batch `id`, but the route is gone and no answer to it is on its way. */
  ghost predicate Lost(s: System, t: Topic, id: uint32) {
    && Owns(s.lanes, t, id) && id in s.lanes[t].buffer.waiting
    && id in s.closed && id !in s.routes
    && (s.sending.Some? ==> s.sending.value.id != id)
    && (forall k :: 0 <= k < |s.forwards| && s.forwards[k].stage == Located ==> s.forwards[k].resp.requestId != id)
    && (forall k :: 0 <= k < |s.lanes[t].responses| ==> s.lanes[t].responses[k].requestId != id)
  }

  /** The lane part of it. */
  ghost predicate Unanswered(l: Lane, id: uint32) {
    && id in l.spans && id in l.buffer.waiting
    && forall k :: 0 <= k < |l.responses| ==> l.responses[k].requestId != id
  }

  lemma LaneEventKeepsUnanswered(h: HashFn, s: System, e: Event, t: Topic, id: uint32)
    requires OfLane(e) && t in s.lanes && Unanswered(s.lanes[t], id)
    requires s.issued + 1 < ID_SPACE ==> id != s.issued + 1
    requires Step(h, s, e).issued < ID_SPACE
    ensures t in Step(h, s, e).lanes && Unanswered(Step(h, s, e).lanes[t], id)
  {
  }

  lemma PushKeepsUnanswered(s: System, t': Topic, resp: Response, t: Topic, id: uint32)
    requires t in s.lanes && Unanswered(s.lanes[t], id) && resp.requestId != id
    ensures t in Push(s, t', resp).lanes && Unanswered(Push(s, t', resp).lanes[t], id)
  {
  }

  lemma RegisterKeepsLost(h: HashFn, s: System, t: Topic, id: uint32)
    requires Inv(h, s) && Lost(s, t, id)
    ensures Lost(Registers(s), t, id)
  {
  }

  /** Finished sends, arrivals, cleanups and the AddTopic table. */
  lemma QuietKeepsLost(h: HashFn, s: System, e: Event, t: Topic, id: uint32)
    requires Lost(s, t, id)
    requires e.SendSucceeds? || e.ResponseArrives? || e.HandlerCleans? || e.TopicRequested? || e.TopicFailed?
    ensures Lost(Step(h, s, e), t, id)
  {
  }

  lemma LaneEventKeepsLost(h: HashFn, s: System, e: Event, t: Topic, id: uint32)
    requires Inv(h, s) && Lost(s, t, id) && OfLane(e) && Step(h, s, e).issued < ID_SPACE
    ensures Lost(Step(h, s, e), t, id)
  {
    assert Unanswered(s.lanes[t], id);
    LaneEventKeepsUnanswered(h, s, e, t, id);
  }

  lemma FailKeepsLost(h: HashFn, s: System, error: string, t: Topic, id: uint32)
    requires Lost(s, t, id)
    ensures Lost(Fails(s, error), t, id)
  {
    if s.sending.Some? {
      var failed := s.sending.value;
      assert Unanswered(s.lanes[t], id);
      PushKeepsUnanswered(Close(s, failed.id).(sending := None, routes := s.routes - {failed.id}), failed.topic,
                          Response(failed.id, Error, error, []), t, id);
    }
  }

  lemma PushesKeepsLost(s: System, i: nat, t: Topic, id: uint32)
    requires Lost(s, t, id)
    ensures Lost(Pushes(s, i), t, id)
  {
    if i < |s.forwards| && s.forwards[i].stage == Located {
      assert Unanswered(s.lanes[t], id);
      PushKeepsUnanswered(Moved(s, i, Pushed), s.forwards[i].topic, s.forwards[i].resp, t, id);
    }
  }

  /** The sender and the handlers. */
  lemma RelayKeepsLost(h: HashFn, s: System, e: Event, t: Topic, id: uint32)
    requires Inv(h, s) && Lost(s, t, id) && OfRelay(e)
    ensures Lost(Step(h, s, e), t, id)
  {
    match e
    case SenderRegisters => RegisterKeepsLost(h, s, t, id);
    case SendFails(error) => FailKeepsLost(h, s, error, t, id);
    case HandlerPushes(i) => PushesKeepsLost(s, i, t, id);
    case _ => QuietKeepsLost(h, s, e, t, id);
  }

  lemma StepKeepsLost(h: HashFn, s: System, e: Event, t: Topic, id: uint32)
    requires Inv(h, s) && Lost(s, t, id) && Step(h, s, e).issued < ID_SPACE
    ensures Lost(Step(h, s, e), t, id)
  {
    if OfLane(e) {
      LaneEventKeepsLost(h, s, e, t, id);
    } else if OfRelay(e) {
      RelayKeepsLost(h, s, e, t, id);
    } else {
      QuietKeepsLost(h, s, e, t, id);
    }
  }

  /** A batch that is lost stays lost: in every continuation it goes on waiting, and no producer of it
      is ever answered. */
  lemma {:induction false} LostIsForever(h: HashFn, run: seq<Event>, st: seq<System>, m: nat, n: nat, t: Topic,
                                         id: uint32)
    requires IsRun(h, run, st) && m <= n < |st| && ApiChecked(run) && st[n].issued < ID_SPACE
    requires Lost(st[m], t, id)
    ensures Lost(st[n], t, id)
    ensures var l := st[n].lanes[t];
      forall i: nat :: i < |l.batchOf| && l.batchOf[i] == id ==> !Answered(l.log, i)
    decreases n
  {
    RunKeepsInv(h, run, st, n);
    if m < n {
      assert StepAt(h, run, st, n - 1);
      IssuedNeverFalls(h, st[n - 1], run[n - 1]);
      LostIsForever(h, run, st, m, n - 1, t, id);
      RunKeepsInv(h, run, st, n - 1);
      StepKeepsLost(h, st[n - 1], run[n - 1], t, id);
    }
    WaitingIsUnanswered(h, t, st[n].lanes[t], id);
  }

  lemma WaitingIsUnanswered(h: HashFn, t: Topic, l: Lane, id: uint32)
    requires LaneOk(h, t, l) && id in l.buffer.waiting
    ensures forall i: nat :: i < |l.batchOf| && l.batchOf[i] == id ==> !Answered(l.log, i)
  {
    forall i: nat | i < |l.batchOf| && l.batchOf[i] == id
      ensures !Answered(l.log, i)
    {
      AnsweredExactlyWhenDone(h, t, l, i);
    }
  }

  /** No other handler, and not the sender, holds an answer to `id`. */
  ghost predicate OnlyHandler(s: System, i: nat, id: uint32) {
    && (s.sending.Some? ==> s.sending.value.id != id)
    && forall k :: 0 <= k < |s.forwards| && k != i && s.forwards[k].stage == Located ==>
         s.forwards[k].resp.requestId != id
  }

  /** A response that is sent to another lane, or to a full channel, loses its batch, once its handler
      has cleaned up and unless another answer is on its way. */
  lemma DropLoses(h: HashFn, s: System, t: Topic, i: nat)
    requires Inv(h, s) && i < |s.forwards| && s.forwards[i].stage == Located
    requires var id := s.forwards[i].resp.requestId;
      OnlyHandler(s, i, id) && t in s.lanes && Unanswered(s.lanes[t], id)
    requires s.forwards[i].topic != t || |s.lanes[t].responses| >= RESPONSE_CAPACITY
    ensures Lost(Cleans(Pushes(s, i), i), t, s.forwards[i].resp.requestId)
  {
    PushEffect(Moved(s, i, Pushed), s.forwards[i].topic, t, s.forwards[i].resp);
  }

  /** So does a failed send whose error answer goes to another lane or to a full channel. */
  lemma FailureLoses(h: HashFn, s: System, t: Topic, error: string)
    requires Inv(h, s) && s.sending.Some?
    requires var id := s.sending.value.id;
      t in s.lanes && Unanswered(s.lanes[t], id)
      && forall k :: 0 <= k < |s.forwards| && s.forwards[k].stage == Located ==> s.forwards[k].resp.requestId != id
    requires s.sending.value.topic != t || |s.lanes[t].responses| >= RESPONSE_CAPACITY
    ensures Lost(Fails(s, error), t, s.sending.value.id)
  {
    var id := s.sending.value.id;
    PushEffect(Close(s, id).(sending := None, routes := s.routes - {id}), s.sending.value.topic, t,
               Response(id, Error, error, []));
  }

  // ------------------------------------------------------------------ a run that loses a batch

  const TOPIC := Topic("t")

  /** The lane is at its select with this store, and waits for batches 1 up to `k`. */
  ghost predicate Waits(l: Lane, store: seq<Request>, k: nat) {
    && l.input == [] && Idle(l) && l.buffer.store == store && l.responses == []
    && forall id: uint32 :: 1 <= id <= k ==> Unanswered(l, id)
  }

  lemma WaitsOn(l: Lane, store: seq<Request>, l': Lane, k: nat, k': nat)
    requires Waits(l, store, k) && l'.input == [] && Idle(l') && l'.responses == []
    requires k <= k' && forall id: uint32 :: (id in l.spans && id in l.buffer.waiting) || k < id <= k' ==>
               id in l'.spans && id in l'.buffer.waiting
    ensures Waits(l', l'.buffer.store, k')
  {
    forall id: uint32 | 1 <= id <= k'
      ensures Unanswered(l', id)
    {
      if id <= k {
        assert Unanswered(l, id);
      }
    }
  }

  /** Batches 1 up to `k` have routes, the others have none. */
  ghost predicate RoutedUpTo(routes: map<uint32, Topic>, k: nat) {
    forall id: uint32 :: (id in routes <==> 1 <= id <= k) && (id in routes ==> routes[id] == TOPIC)
  }

  ghost predicate Calm(s: System) {
    s.sending.None? && s.forwards == [] && s.addTopics == {}
  }

  /** Batches 1 up to `k` of the one lane were sent, no answer has arrived. */
  ghost predicate Issued(s: System, k: nat) {
    && Calm(s) && s.issued == k && s.sendCh == [] && RoutedUpTo(s.routes, k)
    && (k > 0 ==> TOPIC in s.lanes) && Waits(LaneOf(s.lanes, TOPIC), [], k)
  }

  /** A request is stored. */
  ghost predicate Filed(s: System, k: nat, r: Request) {
    && Calm(s) && s.issued == k && s.sendCh == [] && RoutedUpTo(s.routes, k)
    && TOPIC in s.lanes && Waits(s.lanes[TOPIC], [r], k)
  }

  /** Its batch is on its way to the sender. */
  ghost predicate OnItsWay(s: System, k: nat, r: Request) {
    && Calm(s) && s.issued == k + 1 && RoutedUpTo(s.routes, k)
    && TOPIC in s.lanes && Waits(s.lanes[TOPIC], [], k + 1)
    && |s.sendCh| == 1 && s.sendCh[0].id == k + 1 && s.sendCh[0].jobs == r.jobs
  }

  lemma FileOne(h: HashFn, run: seq<Event>, st: seq<System>, k: nat, jobs: seq<Job>)
    returns (run': seq<Event>, st': seq<System>, r: Request)
    requires IsRun(h, run, st) && ApiChecked(run) && Issued(st[|run|], k) && jobs != []
    ensures IsRun(h, run', st') && ApiChecked(run') && Filed(st'[|run'|], k, r) && r.jobs == jobs
  {
    run', st' := Runs.Extend(StepOf(h), INITIAL, run, st, ProducerSubmits(TOPIC, 0, true, jobs));
    r := st'[|run'|].lanes[TOPIC].input[0];
    run', st' := Runs.Extend(StepOf(h), INITIAL, run', st', LaneTakes(TOPIC));
    WaitsOn(LaneOf(st[|run|].lanes, TOPIC), [], st'[|run'|].lanes[TOPIC], k, k);
  }

  lemma DrainOne(h: HashFn, run: seq<Event>, st: seq<System>, k: nat, r: Request)
    returns (run': seq<Event>, st': seq<System>)
    requires IsRun(h, run, st) && ApiChecked(run) && Filed(st[|run|], k, r) && k + 1 < ID_SPACE
    ensures IsRun(h, run', st') && ApiChecked(run') && OnItsWay(st'[|run'|], k, r)
  {
    assert JobsUpTo([r], 1) == JobsUpTo([r], 0) + r.jobs;
    run', st' := Runs.Extend(StepOf(h), INITIAL, run, st, LaneDrains(TOPIC));
    run', st' := Runs.Extend(StepOf(h), INITIAL, run', st', LaneEmits(TOPIC));
    WaitsOn(st[|run|].lanes[TOPIC], [r], st'[|run'|].lanes[TOPIC], k, k + 1);
  }

  lemma SendOne(h: HashFn, run: seq<Event>, st: seq<System>, k: nat, r: Request)
    returns (run': seq<Event>, st': seq<System>)
    requires IsRun(h, run, st) && ApiChecked(run) && OnItsWay(st[|run|], k, r) && k + 1 < ID_SPACE
    requires r.jobs != [] && r.jobs[0].topic == TOPIC
    ensures IsRun(h, run', st') && ApiChecked(run') && Issued(st'[|run'|], k + 1)
  {
    run', st' := Runs.Extend(StepOf(h), INITIAL, run, st, SenderRegisters);
    run', st' := Runs.Extend(StepOf(h), INITIAL, run', st', SendSucceeds);
  }

  /** One request goes all the way to the leader. */
  lemma IssueOne(h: HashFn, run: seq<Event>, st: seq<System>, k: nat) returns (run': seq<Event>, st': seq<System>)
    requires IsRun(h, run, st) && ApiChecked(run) && Issued(st[|run|], k) && k + 1 < ID_SPACE
    ensures IsRun(h, run', st') && ApiChecked(run') && Issued(st'[|run'|], k + 1)
  {
    var r;
    run', st', r := FileOne(h, run, st, k, [Job("job", TOPIC, [])]);
    run', st' := DrainOne(h, run', st', k, r);
    run', st' := SendOne(h, run', st', k, r);
  }

  /** The only response is pushed to another topic: the lane's channel and the AddTopic table stay. */
  lemma DropEffect(s: System, t: Topic, i: nat)
    requires i < |s.forwards| && s.forwards[i].stage == Located && s.forwards[i].topic != t && t in s.lanes
    ensures var s' := Cleans(Pushes(s, i), i);
      && s'.addTopics == s.addTopics && s'.issued == s.issued
      && t in s'.lanes && s'.lanes[t].responses == s.lanes[t].responses
  {
    PushEffect(Moved(s, i, Pushed), s.forwards[i].topic, t, s.forwards[i].resp);
  }

  const OTHER := Topic("u")

  lemma SendToOther(h: HashFn, run: seq<Event>, st: seq<System>, r: Request)
    returns (run': seq<Event>, st': seq<System>)
    requires IsRun(h, run, st) && ApiChecked(run) && OnItsWay(st[|run|], 0, r)
    requires r.jobs != [] && r.jobs[0].topic == OTHER
    ensures IsRun(h, run', st') && ApiChecked(run')
    ensures var s := st'[|run'|];
      && Calm(s) && s.issued == 1 && 1 in s.routes && s.routes[1] == OTHER
      && TOPIC in s.lanes && Waits(s.lanes[TOPIC], [], 1)
  {
    run', st' := Runs.Extend(StepOf(h), INITIAL, run, st, SenderRegisters);
    run', st' := Runs.Extend(StepOf(h), INITIAL, run', st', SendSucceeds);
  }

  /** Batch 1 waits in its lane; its answer was located at another topic's route. */
  lemma Misrouted(h: HashFn) returns (run: seq<Event>, st: seq<System>)
    ensures IsRun(h, run, st) && ApiChecked(run) && st[|run|].issued == 1
    ensures var s := st[|run|];
      && s.forwards == [Forward(Answer(1), OTHER, Located)] && s.sending.None? && s.addTopics == {}
      && TOPIC in s.lanes && Unanswered(s.lanes[TOPIC], 1) && s.lanes[TOPIC].responses == []
  {
    var r;
    run, st, r := FileOne(h, [], [INITIAL], 0, [Job("job", OTHER, [])]);
    run, st := DrainOne(h, run, st, 0, r);
    run, st := SendToOther(h, run, st, r);
    run, st := Runs.Extend(StepOf(h), INITIAL, run, st, ResponseArrives(Answer(1)));
  }

  /** It happens: with every channel empty and no AddTopic request pending, one job of another topic at
      the head of a batch loses the batch. */
  lemma MisrouteHappens(h: HashFn) returns (run: seq<Event>, st: seq<System>)
    ensures IsRun(h, run, st) && ApiChecked(run) && st[|run|].issued < ID_SPACE && Lost(st[|run|], TOPIC, 1)
    ensures st[|run|].addTopics == {} && st[|run|].lanes[TOPIC].responses == []
  {
    run, st := Misrouted(h);
    RunKeepsInv(h, run, st, |run|);
    var s := st[|run|];
    DropLoses(h, s, TOPIC, 0);
    DropEffect(s, TOPIC, 0);
    run, st := Runs.Extend(StepOf(h), INITIAL, run, st, HandlerPushes(0));
    run, st := Runs.Extend(StepOf(h), INITIAL, run, st, HandlerCleans(0));
  }

  function Answer(id: uint32): Response {
    Response(id, Success, "", [])
  }

  /** The first batch's answer arrived `k` times, and each copy waits in the lane's channel. */
  ghost predicate Crowded(s: System, k: nat) {
    && s.sending.None? && s.addTopics == {} && s.sendCh == [] && s.issued == 2 && RoutedUpTo(s.routes, 2)
    && |s.forwards| == k && (forall j :: 0 <= j < k ==> s.forwards[j].stage == Pushed)
    && TOPIC in s.lanes && Unanswered(s.lanes[TOPIC], 2)
    && |s.lanes[TOPIC].responses| == k
  }

  lemma {:induction false} Crowd(h: HashFn, k: nat) returns (run: seq<Event>, st: seq<System>)
    requires k <= RESPONSE_CAPACITY
    ensures IsRun(h, run, st) && ApiChecked(run) && Crowded(st[|run|], k)
  {
    if k == 0 {
      run, st := IssueOne(h, [], [INITIAL], 0);
      run, st := IssueOne(h, run, st, 1);
    } else {
      run, st := Crowd(h, k - 1);
      run, st := Runs.Extend(StepOf(h), INITIAL, run, st, ResponseArrives(Answer(1)));
      run, st := Runs.Extend(StepOf(h), INITIAL, run, st, HandlerPushes(k - 1));
    }
  }

  /** The only answer to batch 2 was located and is about to find the channel full. */
  lemma CrowdedOut(h: HashFn) returns (run: seq<Event>, st: seq<System>)
    ensures IsRun(h, run, st) && ApiChecked(run) && st[|run|].issued == 2
    ensures var s, i := st[|run|], RESPONSE_CAPACITY;
      && |s.forwards| == i + 1 && s.forwards[i] == Forward(Answer(2), TOPIC, Located) && OnlyHandler(s, i, 2)
      && TOPIC in s.lanes && Unanswered(s.lanes[TOPIC], 2) && |s.lanes[TOPIC].responses| == RESPONSE_CAPACITY
  {
    run, st := Crowd(h, RESPONSE_CAPACITY);
    run, st := Runs.Extend(StepOf(h), INITIAL, run, st, ResponseArrives(Answer(2)));
  }

  /** It happens: copies of one answer fill the lane's channel, the only answer to the next batch is
      dropped, and that batch is lost. */
  lemma LossHappens(h: HashFn) returns (run: seq<Event>, st: seq<System>)
    ensures IsRun(h, run, st) && ApiChecked(run) && st[|run|].issued < ID_SPACE && Lost(st[|run|], TOPIC, 2)
  {
    run, st := CrowdedOut(h);
    RunKeepsInv(h, run, st, |run|);
    var s := st[|run|];
    run, st := Runs.Extend(StepOf(h), INITIAL, run, st, HandlerPushes(RESPONSE_CAPACITY));
    run, st := Runs.Extend(StepOf(h), INITIAL, run, st, HandlerCleans(RESPONSE_CAPACITY));
    DropLoses(h, s, TOPIC, RESPONSE_CAPACITY);
  }

  // ------------------------------------------------------------------ a full store

  lemma StepKeepsStuck(h: HashFn, s: System, e: Event, t: Topic)
    requires t in s.lanes && s.lanes[t].held.Some?
    ensures t in Step(h, s, e).lanes
    ensures var l, l' := s.lanes[t], Step(h, s, e).lanes[t];
      l'.held == l.held && l'.buffer == l.buffer && l'.log == l.log && l'.settled == l.settled
  {
  }

  /** A lane that takes a request while its store is full never proceeds: whatever happens next,
      it drains nothing more and answers no producer any more. */
  lemma {:induction false} FullStoreIsForever(h: HashFn, run: seq<Event>, st: seq<System>, m: nat, n: nat, t: Topic)
    requires IsRun(h, run, st) && m <= n < |st| && t in st[m].lanes && st[m].lanes[t].held.Some?
    ensures t in st[n].lanes
    ensures var l, l' := st[m].lanes[t], st[n].lanes[t];
      l'.held == l.held && l'.buffer == l.buffer && l'.log == l.log && l'.settled == l.settled
    decreases n
  {
    if m < n {
      FullStoreIsForever(h, run, st, m, n - 1, t);
      assert StepAt(h, run, st, n - 1);
      StepKeepsStuck(h, st[n - 1], run[n - 1], t);
    }
  }

  /** The lane takes a request although its store is full. */
  ghost predicate OvertakesAt(run: seq<Event>, st: seq<System>, m: nat, t: Topic) {
    && m < |run| && m < |st| && run[m] == LaneTakes(t) && t in st[m].lanes
    && var l := st[m].lanes[t];
    Idle(l) && l.input != [] && |l.buffer.store| >= 1024
  }

  lemma StepAndHeld(h: HashFn, s: System, e: Event, t: Topic)
    requires t in Step(h, s, e).lanes
    ensures Step(h, s, e).lanes[t].held.Some? <==>
            t in s.lanes && (|| s.lanes[t].held.Some?
                             || (&& e == LaneTakes(t) && Idle(s.lanes[t]) && s.lanes[t].input != []
                                 && |s.lanes[t].buffer.store| >= STORE_CAPACITY))
  {
  }

  /** A lane is stuck exactly when, at some step of the run, it took a request while 1024 were stored. */
  lemma {:induction false} StuckIffTookWhileFull(h: HashFn, run: seq<Event>, st: seq<System>, n: nat, t: Topic)
    requires IsRun(h, run, st) && n < |st|
    ensures t in st[n].lanes && st[n].lanes[t].held.Some? <==> exists m: nat :: m < n && OvertakesAt(run, st, m, t)
  {
    if n > 0 {
      StuckIffTookWhileFull(h, run, st, n - 1, t);
      assert StepAt(h, run, st, n - 1);
      if t in st[n - 1].lanes {
        StepKeepsLane(h, st[n - 1], run[n - 1], t);
      }
      if t in st[n].lanes {
        StepAndHeld(h, st[n - 1], run[n - 1], t);
      }
      assert OvertakesAt(run, st, n - 1, t) ==> n - 1 < n;
    }
  }

  /** A lane that has taken `k` requests, none of them drained yet. */
  ghost predicate Stacked(s: System, k: nat) {
    var l := LaneOf(s.lanes, TOPIC);
    (k > 0 ==> TOPIC in s.lanes) && l.input == [] && Idle(l) && |l.buffer.store| == k
  }

  lemma {:induction false} StackUp(h: HashFn, k: nat) returns (run: seq<Event>, st: seq<System>)
    requires k <= STORE_CAPACITY
    ensures IsRun(h, run, st) && ApiChecked(run) && Stacked(st[|run|], k)
  {
    if k == 0 {
      run, st := [], [INITIAL];
    } else {
      run, st := StackUp(h, k - 1);
      run, st := Runs.Extend(StepOf(h), INITIAL, run, st, ProducerSubmits(TOPIC, 0, true, [Job("job", TOPIC, [])]));
      run, st := Runs.Extend(StepOf(h), INITIAL, run, st, LaneTakes(TOPIC));
    }
  }

  /** It happens: the lane takes 1025 requests before it drains. */
  lemma StuckHappens(h: HashFn) returns (run: seq<Event>, st: seq<System>)
    ensures IsRun(h, run, st) && ApiChecked(run) && |run| == |st| - 1
    ensures TOPIC in st[|run|].lanes && st[|run|].lanes[TOPIC].held.Some?
  {
    run, st := StackUp(h, STORE_CAPACITY);
    run, st := Runs.Extend(StepOf(h), INITIAL, run, st, ProducerSubmits(TOPIC, 0, true, [Job("job", TOPIC, [])]));
    run, st := Runs.Extend(StepOf(h), INITIAL, run, st, LaneTakes(TOPIC));
  }
}
