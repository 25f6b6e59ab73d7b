/** The producer side as a whole: any number of topic lanes, the shared batch counter, the sender
    goroutine, the routing maps and concurrent response handlers.  A run is a sequence of atomic
    blocks, in any order; an event whose guard does not hold leaves the state as it is.  Responses
    may arrive at any time, late, repeated, or for IDs that were never sent. */
module Producers {
  import opened Common
  import opened Batching
  import opened Lanes
  import Runs

  const SEND_CAPACITY := 128
  const ID_SPACE := 0x1_0000_0000

  /** A response handler that found a route: it pushes the response to the lane, then cleans up. */
  datatype Forward = Forward(resp: Response, topic: Topic, stage: Stage)

  datatype Stage = Located | Pushed | Cleaned

  datatype Sending = Sending(id: uint32, topic: Topic)

  datatype System = System(
    lanes: map<Topic, Lane>,        // topicJobBuffers
    issued: nat,                    // batches issued; the counter is this modulo 2^32
    sendCh: seq<Batch>,             // sendJobsCh
    sending: Option<Sending>,       // the sender goroutine, registered but send not finished
    routes: map<uint32, Topic>,     // requestIdToTopic
    addTopics: set<uint32>,         // keys of requestMap
    forwards: seq<Forward>,         // response handlers that found a route, in order of arrival
    open: set<uint32>,              // history: registered, neither failed nor answered yet
    closed: set<uint32>)            // history: send failed, or a first response was handled

  const INITIAL := System(map[], 0, [], None, map[], {}, [], {}, {})

  datatype Event =
    | ProducerSubmits(topic: Topic, id: uint32, listening: bool, jobs: seq<Job>)
    | LaneTakes(topic: Topic)
    | LaneDrains(topic: Topic)
    | LaneEmits(topic: Topic)
    | LaneDispatches(topic: Topic)
    | SenderRegisters
    | SendSucceeds
    | SendFails(error: string)
    | ResponseArrives(resp: Response)
    | HandlerPushes(handler: nat)
    | HandlerCleans(handler: nat)
    | TopicRequested(id: uint32)
    | TopicFailed(id: uint32)
    | ProducerReads(topic: Topic, ticket: nat)

  // ------------------------------------------------------------------ steps

  function LaneOf(lanes: map<Topic, Lane>, t: Topic): Lane {
    if t in lanes then lanes[t] else NewLane(t)
  }

  function SetLane(s: System, t: Topic, l: Lane): System {
    s.(lanes := s.lanes[t := l])
  }

  /** Forward a response to the lane of `t`, if there is one. */
  function Push(s: System, t: Topic, resp: Response): System {
    if t in s.lanes then SetLane(s, t, PushResponse(s.lanes[t], resp)) else s
  }

  function Drains(h: HashFn, s: System, t: Topic): System {
    if t in s.lanes && CanCollect(s.lanes[t]) then
      var id := (s.issued + 1) % ID_SPACE;
      SetLane(s, t, Collect(h, s.lanes[t], id)).(issued := s.issued + 1)
    else s
  }

  function Emits(s: System, t: Topic): System {
    if t in s.lanes && s.lanes[t].outgoing.Some? && |s.sendCh| < SEND_CAPACITY then
      SetLane(s, t, Emit(s.lanes[t])).(sendCh := s.sendCh + [s.lanes[t].outgoing.value])
    else s
  }

  /** The route is taken from the first job, not from the batch. */
  function Registers(s: System): System {
    if s.sending.None? && s.sendCh != [] && s.sendCh[0].jobs != [] then
      var b := s.sendCh[0];
      s.(sendCh := s.sendCh[1..],
         sending := Some(Sending(b.id, b.jobs[0].topic)),
         routes := s.routes[b.id := b.jobs[0].topic],
         open := s.open + {b.id})
    else s
  }

  function Close(s: System, id: uint32): System {
    s.(open := s.open - {id}, closed := s.closed + {id})
  }

  function Fails(s: System, error: string): System {
    if s.sending.Some? then
      var id, t := s.sending.value.id, s.sending.value.topic;
      Push(Close(s, id).(sending := None, routes := s.routes - {id}), t, Response(id, Error, error, []))
    else s
  }

  /** AddTopic requests are looked up first; then the routing map. */
  function Arrives(s: System, resp: Response): System {
    if resp.requestId in s.addTopics then s.(addTopics := s.addTopics - {resp.requestId})
    else if resp.requestId in s.routes then
      Close(s, resp.requestId).(forwards := s.forwards + [Forward(resp, s.routes[resp.requestId], Located)])
    else s
  }

  function Moved(s: System, i: nat, stage: Stage): System
    requires i < |s.forwards|
  {
    s.(forwards := s.forwards[i := s.forwards[i].(stage := stage)])
  }

  function Pushes(s: System, i: nat): System {
    if i < |s.forwards| && s.forwards[i].stage == Located then
      Push(Moved(s, i, Pushed), s.forwards[i].topic, s.forwards[i].resp)
    else s
  }

  function Cleans(s: System, i: nat): System {
    if i < |s.forwards| && s.forwards[i].stage == Pushed then
      Moved(s, i, Cleaned).(routes := s.routes - {s.forwards[i].resp.requestId})
    else s
  }

  function Step(h: HashFn, s: System, e: Event): System {
    match e
    case ProducerSubmits(t, id, listening, jobs) =>
      if t.name == "" then s else SetLane(s, t, Submit(LaneOf(s.lanes, t), id, listening, t, jobs))
    case LaneTakes(t) => if t in s.lanes then SetLane(s, t, Intake(s.lanes[t])) else s
    case LaneDrains(t) => Drains(h, s, t)
    case LaneEmits(t) => Emits(s, t)
    case LaneDispatches(t) => if t in s.lanes then SetLane(s, t, Dispatch(s.lanes[t])) else s
    case SenderRegisters => Registers(s)
    case SendSucceeds => s.(sending := None)
    case SendFails(error) => Fails(s, error)
    case ResponseArrives(resp) => Arrives(s, resp)
    case HandlerPushes(i) => Pushes(s, i)
    case HandlerCleans(i) => Cleans(s, i)
    case TopicRequested(id) => s.(addTopics := s.addTopics + {id})
    case TopicFailed(id) => s.(addTopics := s.addTopics - {id})
    case ProducerReads(t, ticket) => if t in s.lanes then SetLane(s, t, Read(s.lanes[t], ticket)) else s
  }

  function StepOf(h: HashFn): (System, Event) -> System {
    (s: System, e: Event) => Step(h, s, e)
  }

  ghost predicate StepAt(h: HashFn, run: seq<Event>, st: seq<System>, i: nat) {
    Runs.StepAt(StepOf(h), run, st, i)
  }

  /** `st` are the states a run goes through. */
  ghost predicate IsRun(h: HashFn, run: seq<Event>, st: seq<System>) {
    Runs.IsRun(StepOf(h), INITIAL, run, st)
  }

  /** What the HTTP handler checks before a request enters: it has at least one job. */
  ghost predicate ApiChecked(run: seq<Event>) {
    forall i :: 0 <= i < |run| && run[i].ProducerSubmits? ==> run[i].jobs != []
  }

  /** Producers put the payload's topic on every job. */
  ghost predicate TopicsMatch(run: seq<Event>) {
    forall i, k :: 0 <= i < |run| && run[i].ProducerSubmits? && 0 <= k < |run[i].jobs| ==>
      run[i].jobs[k].topic == run[i].topic
  }

  // ------------------------------------------------------------------ invariant

  ghost predicate LanesOk(h: HashFn, lanes: map<Topic, Lane>) {
    forall t {:trigger LaneOk(h, t, lanes[t])} :: t in lanes ==> LaneOk(h, t, lanes[t])
  }

  /** Batch `id` was drained from lane `t`. */
  ghost predicate Owns(lanes: map<Topic, Lane>, t: Topic, id: uint32) {
    t in lanes && id in lanes[t].spans
  }

  /** Batch IDs are fresh and belong to one lane each. */
  ghost predicate IdsOk(lanes: map<Topic, Lane>, issued: nat) {
    && (forall t, id: uint32 :: Owns(lanes, t, id) ==> 1 <= id <= issued)
    && (forall t, t', id: uint32 :: Owns(lanes, t, id) && Owns(lanes, t', id) ==> t == t')
  }

  /** Only closed batches have responses on their way or dispatched. */
  ghost predicate ResponsesOk(l: Lane, closed: set<uint32>) {
    && l.settled <= closed
    && forall k :: 0 <= k < |l.responses| ==> l.responses[k].requestId in closed
  }

  /** The closed batches are those a first response or a send failure was seen for. */
  ghost predicate TrafficOk(s: System) {
    && (forall t :: t in s.lanes ==> ResponsesOk(s.lanes[t], s.closed))
    && (forall k :: 0 <= k < |s.forwards| ==> s.forwards[k].resp.requestId in s.closed)
    && s.open !! s.closed
    && (forall id :: id in s.open || id in s.closed ==> 1 <= id <= s.issued)
  }

  /** Unregistered batches: faithful to their lane, distinct, not yet open. */
  ghost predicate PendingOk(lanes: map<Topic, Lane>, sendCh: seq<Batch>, open: set<uint32>, closed: set<uint32>) {
    && (forall k :: 0 <= k < |sendCh| ==>
          && sendCh[k].topic in lanes
          && BatchOk(sendCh[k].topic, lanes[sendCh[k].topic].arrivals, lanes[sendCh[k].topic].spans, sendCh[k])
          && sendCh[k].id !in open && sendCh[k].id !in closed)
    && (forall j, k :: 0 <= j < k < |sendCh| ==> sendCh[j].id != sendCh[k].id)
    && (forall t :: t in lanes && lanes[t].outgoing.Some? ==>
          && lanes[t].outgoing.value.id !in open && lanes[t].outgoing.value.id !in closed
          && forall k :: 0 <= k < |sendCh| ==> sendCh[k].id != lanes[t].outgoing.value.id)
  }

  ghost predicate Inv(h: HashFn, s: System) {
    LanesOk(h, s.lanes) && IdsOk(s.lanes, s.issued) && TrafficOk(s) && PendingOk(s.lanes, s.sendCh, s.open, s.closed)
  }

  // ------------------------------------------------------------------ steps keep it

  lemma SetLaneKeepsLanes(h: HashFn, lanes: map<Topic, Lane>, t: Topic, l': Lane)
    requires LanesOk(h, lanes) && LaneOk(h, t, l')
    ensures LanesOk(h, lanes[t := l'])
  {
  }

  lemma SetLaneKeepsPending(lanes: map<Topic, Lane>, sendCh: seq<Batch>, open: set<uint32>, closed: set<uint32>,
                            t: Topic, l': Lane)
    requires PendingOk(lanes, sendCh, open, closed)
    requires var l := LaneOf(lanes, t);
      l'.spans == l.spans && l.arrivals <= l'.arrivals && l'.outgoing == l.outgoing
    ensures PendingOk(lanes[t := l'], sendCh, open, closed)
  {
    var l := LaneOf(lanes, t);
    forall k | 0 <= k < |sendCh| && sendCh[k].topic == t
      ensures BatchOk(t, l'.arrivals, l'.spans, sendCh[k])
    {
      assert l'.arrivals == l.arrivals + l'.arrivals[|l.arrivals|..];
      BatchStays(t, l.arrivals, l.spans, l'.arrivals[|l.arrivals|..], l'.spans, sendCh[k]);
    }
  }

  lemma SetLaneKeepsTraffic(s: System, t: Topic, l': Lane)
    requires IdsOk(s.lanes, s.issued) && TrafficOk(s)
    requires l'.spans == LaneOf(s.lanes, t).spans && ResponsesOk(l', s.closed)
    ensures IdsOk(SetLane(s, t, l').lanes, s.issued) && TrafficOk(SetLane(s, t, l'))
  {
    var lanes' := SetLane(s, t, l').lanes;
    assert forall t', id: uint32 :: Owns(lanes', t', id) ==> Owns(s.lanes, t', id);
  }

  /** A lane may change in any way that keeps its batches and respects `closed`. */
  lemma SetLaneKeeps(h: HashFn, s: System, t: Topic, l': Lane)
    requires Inv(h, s) && LaneOk(h, t, l')
    requires var l := LaneOf(s.lanes, t);
      l'.spans == l.spans && l.arrivals <= l'.arrivals && l'.outgoing == l.outgoing
    requires ResponsesOk(l', s.closed)
    ensures Inv(h, SetLane(s, t, l'))
  {
    SetLaneKeepsLanes(h, s.lanes, t, l');
    SetLaneKeepsPending(s.lanes, s.sendCh, s.open, s.closed, t, l');
    SetLaneKeepsTraffic(s, t, l');
  }

  lemma LaneOfOk(h: HashFn, s: System, t: Topic)
    requires Inv(h, s)
    ensures LaneOk(h, t, LaneOf(s.lanes, t)) && ResponsesOk(LaneOf(s.lanes, t), s.closed)
  {
    if t !in s.lanes {
      NewLaneOk(h, t);
    }
  }

  lemma SubmitStep(h: HashFn, s: System, t: Topic, id: uint32, listening: bool, jobs: seq<Job>)
    requires Inv(h, s) && jobs != []
    ensures Inv(h, SetLane(s, t, Submit(LaneOf(s.lanes, t), id, listening, t, jobs)))
  {
    var l := LaneOf(s.lanes, t);
    LaneOfOk(h, s, t);
    SubmitKeeps(h, t, l, id, listening, jobs);
    SetLaneKeeps(h, s, t, Submit(l, id, listening, t, jobs));
  }

  lemma IntakeStep(h: HashFn, s: System, t: Topic)
    requires Inv(h, s) && t in s.lanes
    ensures Inv(h, SetLane(s, t, Intake(s.lanes[t])))
  {
    IntakeKeeps(h, t, s.lanes[t]);
    SetLaneKeeps(h, s, t, Intake(s.lanes[t]));
  }

  lemma DispatchStep(h: HashFn, s: System, t: Topic)
    requires Inv(h, s) && t in s.lanes
    ensures Inv(h, SetLane(s, t, Dispatch(s.lanes[t])))
  {
    LaneOfOk(h, s, t);
    DispatchKeeps(h, t, s.lanes[t]);
    SetLaneKeeps(h, s, t, Dispatch(s.lanes[t]));
  }

  lemma ReadStep(h: HashFn, s: System, t: Topic, ticket: nat)
    requires Inv(h, s) && t in s.lanes
    ensures Inv(h, SetLane(s, t, Read(s.lanes[t], ticket)))
  {
    ReadKeeps(h, t, s.lanes[t], ticket);
    SetLaneKeeps(h, s, t, Read(s.lanes[t], ticket));
  }

  lemma PushStep(h: HashFn, s: System, t: Topic, resp: Response)
    requires Inv(h, s) && resp.requestId in s.closed
    ensures Inv(h, Push(s, t, resp))
  {
    if t in s.lanes {
      PushResponseKeeps(h, t, s.lanes[t], resp);
      SetLaneKeeps(h, s, t, PushResponse(s.lanes[t], resp));
    }
  }

  lemma DrainKeepsPending(h: HashFn, s: System, t: Topic, id: uint32)
    requires IdsOk(s.lanes, s.issued) && PendingOk(s.lanes, s.sendCh, s.open, s.closed) && TrafficOk(s)
    requires t in s.lanes && CanCollect(s.lanes[t]) && id == s.issued + 1
    ensures PendingOk(s.lanes[t := Collect(h, s.lanes[t], id)], s.sendCh, s.open, s.closed)
  {
    var l := s.lanes[t];
    var l' := Collect(h, l, id);
    forall k | 0 <= k < |s.sendCh|
      ensures s.sendCh[k].id != id
      ensures s.sendCh[k].topic == t ==> BatchOk(t, l'.arrivals, l'.spans, s.sendCh[k])
    {
      assert Owns(s.lanes, s.sendCh[k].topic, s.sendCh[k].id);
      if s.sendCh[k].topic == t {
        BatchStays(t, l.arrivals, l.spans, [], l'.spans, s.sendCh[k]);
        assert l.arrivals + [] == l'.arrivals;
      }
    }
  }

  lemma DrainKeepsLanes(h: HashFn, lanes: map<Topic, Lane>, t: Topic, id: uint32)
    requires LanesOk(h, lanes) && t in lanes && CanCollect(lanes[t]) && id !in lanes[t].spans
    ensures LanesOk(h, lanes[t := Collect(h, lanes[t], id)])
  {
    CollectKeeps(h, t, lanes[t], id);
    SetLaneKeepsLanes(h, lanes, t, Collect(h, lanes[t], id));
  }

  lemma DrainKeepsTraffic(h: HashFn, s: System, t: Topic)
    requires IdsOk(s.lanes, s.issued) && TrafficOk(s) && s.issued + 1 < ID_SPACE
    requires t in s.lanes && CanCollect(s.lanes[t])
    ensures IdsOk(Drains(h, s, t).lanes, s.issued + 1) && TrafficOk(Drains(h, s, t))
  {
    assert forall t', id: uint32 :: Owns(Drains(h, s, t).lanes, t', id) ==>
      Owns(s.lanes, t', id) || (t' == t && id == s.issued + 1);
  }

  lemma NextIdIsFree(s: System, t: Topic)
    requires IdsOk(s.lanes, s.issued) && s.issued + 1 < ID_SPACE && t in s.lanes
    ensures s.issued + 1 !in s.lanes[t].spans
  {
    var id: uint32 := s.issued + 1;
    assert !Owns(s.lanes, t, id);
  }

  /** Before the counter wraps, a drain uses the next number. */
  lemma DrainUsesNextId(h: HashFn, s: System, t: Topic)
    requires s.issued + 1 < ID_SPACE && t in s.lanes && CanCollect(s.lanes[t])
    ensures Drains(h, s, t) ==
            s.(lanes := s.lanes[t := Collect(h, s.lanes[t], s.issued + 1)], issued := s.issued + 1)
  {
  }

  lemma DrainStep(h: HashFn, s: System, t: Topic)
    requires Inv(h, s) && s.issued + 1 < ID_SPACE
    requires t in s.lanes && CanCollect(s.lanes[t])
    ensures Inv(h, Drains(h, s, t))
  {
    DrainUsesNextId(h, s, t);
    NextIdIsFree(s, t);
    DrainKeepsLanes(h, s.lanes, t, s.issued + 1);
    DrainKeepsTraffic(h, s, t);
    DrainKeepsPending(h, s, t, s.issued + 1);
  }

  lemma EmitKeepsPending(h: HashFn, s: System, t: Topic)
    requires Inv(h, s) && t in s.lanes && s.lanes[t].outgoing.Some?
    ensures PendingOk(s.lanes[t := Emit(s.lanes[t])], s.sendCh + [s.lanes[t].outgoing.value], s.open, s.closed)
  {
    var b := s.lanes[t].outgoing.value;
    assert LaneOk(h, t, s.lanes[t]);
    assert b.topic == t && Owns(s.lanes, t, b.id);
    forall t' | t' in s.lanes && t' != t && s.lanes[t'].outgoing.Some?
      ensures s.lanes[t'].outgoing.value.id != b.id
    {
      assert LaneOk(h, t', s.lanes[t']);
      assert Owns(s.lanes, t', s.lanes[t'].outgoing.value.id);
    }
  }

  lemma EmitKeepsLanes(h: HashFn, lanes: map<Topic, Lane>, t: Topic)
    requires LanesOk(h, lanes) && t in lanes
    ensures LanesOk(h, lanes[t := Emit(lanes[t])])
  {
    EmitKeeps(h, t, lanes[t]);
    SetLaneKeepsLanes(h, lanes, t, Emit(lanes[t]));
  }

  lemma EmitStep(h: HashFn, s: System, t: Topic)
    requires Inv(h, s)
    requires t in s.lanes && s.lanes[t].outgoing.Some? && |s.sendCh| < SEND_CAPACITY
    ensures Inv(h, Emits(s, t))
  {
    EmitKeepsLanes(h, s.lanes, t);
    SetLaneKeepsTraffic(s, t, Emit(s.lanes[t]));
    EmitKeepsPending(h, s, t);
  }

  lemma RegisterStep(h: HashFn, s: System)
    requires Inv(h, s)
    ensures Inv(h, Registers(s))
  {
    if s.sending.None? && s.sendCh != [] && s.sendCh[0].jobs != [] {
      var b := s.sendCh[0];
      assert BatchOk(b.topic, s.lanes[b.topic].arrivals, s.lanes[b.topic].spans, b);
      assert Owns(s.lanes, b.topic, b.id);
    }
  }

  lemma CloseStep(h: HashFn, s: System, id: uint32, routes: map<uint32, Topic>, sending: Option<Sending>,
                  forwards: seq<Forward>)
    requires Inv(h, s) && (id in s.open || id in s.closed)
    requires forall k :: 0 <= k < |forwards| ==> forwards[k].resp.requestId in s.closed + {id}
    ensures Inv(h, Close(s, id).(routes := routes, sending := sending, forwards := forwards))
  {
  }

  /** The sender and the routing map only ever hold registered batches. */
  ghost predicate Registered(s: System) {
    && (s.sending.Some? ==> s.sending.value.id in s.open || s.sending.value.id in s.closed)
    && (forall id :: id in s.routes ==> id in s.open || id in s.closed)
  }

  lemma StepKeepsRegistered(h: HashFn, s: System, e: Event)
    requires Registered(s)
    ensures Registered(Step(h, s, e))
  {
  }

  lemma FailStep(h: HashFn, s: System, error: string)
    requires Inv(h, s) && Registered(s)
    ensures Inv(h, Fails(s, error))
  {
    if s.sending.Some? {
      var id := s.sending.value.id;
      CloseStep(h, s, id, s.routes - {id}, None, s.forwards);
      PushStep(h, Close(s, id).(routes := s.routes - {id}, sending := None, forwards := s.forwards),
               s.sending.value.topic, Response(id, Error, error, []));
    }
  }

  lemma ArriveStep(h: HashFn, s: System, resp: Response)
    requires Inv(h, s) && Registered(s)
    ensures Inv(h, Arrives(s, resp))
  {
    if resp.requestId !in s.addTopics && resp.requestId in s.routes {
      CloseStep(h, s, resp.requestId, s.routes, s.sending,
                s.forwards + [Forward(resp, s.routes[resp.requestId], Located)]);
    }
  }

  lemma HandlerStep(h: HashFn, s: System, i: nat)
    requires Inv(h, s)
    ensures Inv(h, Pushes(s, i))
  {
    if i < |s.forwards| && s.forwards[i].stage == Located {
      PushStep(h, Moved(s, i, Pushed), s.forwards[i].topic, s.forwards[i].resp);
    }
  }

  /** The blocks of the lanes and of their producers. */
  ghost predicate OfLane(e: Event) {
    e.ProducerSubmits? || e.LaneTakes? || e.LaneDrains? || e.LaneEmits? || e.LaneDispatches? || e.ProducerReads?
  }

  lemma LaneStepKeepsInv(h: HashFn, s: System, e: Event)
    requires Inv(h, s) && OfLane(e)
    requires e.ProducerSubmits? ==> e.jobs != []
    requires Step(h, s, e).issued < ID_SPACE
    ensures Inv(h, Step(h, s, e))
  {
    match e
    case ProducerSubmits(t, id, listening, jobs) => SubmitStep(h, s, t, id, listening, jobs);
    case LaneTakes(t) => if t in s.lanes { IntakeStep(h, s, t); }
    case LaneDrains(t) =>
      if t in s.lanes && CanCollect(s.lanes[t]) {
        DrainStep(h, s, t);
      }
    case LaneEmits(t) =>
      if t in s.lanes && s.lanes[t].outgoing.Some? && |s.sendCh| < SEND_CAPACITY {
        EmitStep(h, s, t);
      }
    case LaneDispatches(t) => if t in s.lanes { DispatchStep(h, s, t); }
    case ProducerReads(t, ticket) => if t in s.lanes { ReadStep(h, s, t, ticket); }
  }

  /** Cleaning up, a finished send and the AddTopic table touch none of what the invariant is about. */
  lemma QuietStep(h: HashFn, s: System, e: Event)
    requires Inv(h, s) && (e.HandlerCleans? || e.SendSucceeds? || e.TopicRequested? || e.TopicFailed?)
    ensures Inv(h, Step(h, s, e))
  {
  }

  /** The blocks of the sender and of the response handlers. */
  ghost predicate OfRelay(e: Event) {
    e.SenderRegisters? || e.SendFails? || e.ResponseArrives? || e.HandlerPushes?
  }

  lemma RelayStepKeepsInv(h: HashFn, s: System, e: Event)
    requires Inv(h, s) && Registered(s) && OfRelay(e)
    ensures Inv(h, Step(h, s, e))
  {
    match e
    case SenderRegisters => RegisterStep(h, s);
    case SendFails(error) => FailStep(h, s, error);
    case ResponseArrives(resp) => ArriveStep(h, s, resp);
    case HandlerPushes(i) => HandlerStep(h, s, i);
  }

  lemma StepKeepsInv(h: HashFn, s: System, e: Event)
    requires Inv(h, s) && Registered(s)
    requires e.ProducerSubmits? ==> e.jobs != []
    requires Step(h, s, e).issued < ID_SPACE
    ensures Inv(h, Step(h, s, e))
  {
    if OfLane(e) {
      LaneStepKeepsInv(h, s, e);
    } else if OfRelay(e) {
      RelayStepKeepsInv(h, s, e);
    } else {
      QuietStep(h, s, e);
    }
  }

  lemma IssuedNeverFalls(h: HashFn, s: System, e: Event)
    ensures s.issued <= Step(h, s, e).issued
  {
  }

  /** Every state of every run satisfies the invariant, as long as the counter has not wrapped. */
  lemma {:induction false} RunKeepsInv(h: HashFn, run: seq<Event>, st: seq<System>, n: nat)
    requires IsRun(h, run, st) && n < |st| && ApiChecked(run) && st[n].issued < ID_SPACE
    ensures Inv(h, st[n]) && Registered(st[n])
  {
    if n > 0 {
      var s, e := st[n - 1], run[n - 1];
      assert StepAt(h, run, st, n - 1);
      IssuedNeverFalls(h, s, e);
      RunKeepsInv(h, run, st, n - 1);
      StepKeepsRegistered(h, s, e);
      StepKeepsInv(h, s, e);
    }
  }

  // ------------------------------------------------------------------ theorems about runs

  /** Every request a lane ever accepted is in exactly one place; its channel gets exactly one
      message if and when its batch is settled, and no message is lost to a full channel. */
  lemma EveryRequestIsAccountedFor(h: HashFn, run: seq<Event>, st: seq<System>, n: nat, t: Topic, i: nat)
    requires IsRun(h, run, st) && n < |st| && ApiChecked(run) && st[n].issued < ID_SPACE
    requires t in st[n].lanes && i < |st[n].lanes[t].arrivals|
    ensures var l := st[n].lanes[t];
      && Bit(Among(l.input, i)) + Bit(Among(Opt(l.held), i)) + Bit(Among(l.buffer.store, i))
         + Bit(IsWaiting(l, i)) + Bit(IsDone(l, i)) == 1
      && (Answered(l.log, i) <==> IsDone(l, i) && l.arrivals[i].listening)
      && (forall j, k :: 0 <= j < k < |l.log| ==> l.log[j].waiter.ticket != l.log[k].waiter.ticket)
      && l.dropped == []
  {
    RunKeepsInv(h, run, st, n);
    var l := st[n].lanes[t];
    ExactlyOnePlace(h, t, l, i);
    AnsweredExactlyWhenDone(h, t, l, i);
  }

  /** The answer a producer gets stems from a response that carries its batch's ID.  It goes under the
      producer's own request ID and is what attributing that response's failures by job ID would give,
      unless a reported failure collides with the producer's jobs. */
  lemma EveryAnswerIsTrue(h: HashFn, run: seq<Event>, st: seq<System>, n: nat, t: Topic, k: nat)
    requires IsRun(h, run, st) && n < |st| && ApiChecked(run) && st[n].issued < ID_SPACE
    requires t in st[n].lanes && k < |st[n].lanes[t].log|
    ensures var l := st[n].lanes[t];
      var i, cause := l.log[k].waiter.ticket, l.log[k].cause;
      && i < |l.batchOf| <= |l.arrivals| && l.batchOf[i] == cause.requestId
      && var r, answer := l.arrivals[i], Reply(h, l.log[k].waiter, cause);
      && answer.requestId == r.id
      && (answer.status == Success && cause.status != Success ==>
            forall f :: f in cause.failures ==> !Names(r.jobs, f.jobId))
      && ((forall f :: f in cause.failures ==> !Collides(h, r.jobs, f)) ==> answer == IdReply(r, cause))
  {
    RunKeepsInv(h, run, st, n);
    AnswersAreTrue(h, t, st[n].lanes[t], k);
  }

  /** No two lanes wait for the same batch, so a response that reaches the wrong lane answers no one. */
  lemma WaitingMapsDisjoint(h: HashFn, run: seq<Event>, st: seq<System>, n: nat, t: Topic, t': Topic)
    requires IsRun(h, run, st) && n < |st| && ApiChecked(run) && st[n].issued < ID_SPACE
    requires t in st[n].lanes && t' in st[n].lanes && t != t'
    ensures st[n].lanes[t].buffer.waiting.Keys !! st[n].lanes[t'].buffer.waiting.Keys
  {
    RunKeepsInv(h, run, st, n);
    var lanes := st[n].lanes;
    assert LaneOk(h, t, lanes[t]) && LaneOk(h, t', lanes[t']);
    assert forall id :: id in lanes[t].buffer.waiting ==> Owns(lanes, t, id);
    assert forall id :: id in lanes[t'].buffer.waiting ==> Owns(lanes, t', id);
  }

  /** A batch under way holds, in order, exactly the jobs of the requests waiting for it, and is
      not empty, so registering it may look at its first job. */
  lemma BatchesAreFaithful(h: HashFn, run: seq<Event>, st: seq<System>, n: nat, k: nat)
    requires IsRun(h, run, st) && n < |st| && ApiChecked(run) && st[n].issued < ID_SPACE
    requires k < |st[n].sendCh|
    ensures var s := st[n];
      var b := s.sendCh[k];
      && b.jobs != [] && b.topic in s.lanes
      && var l := s.lanes[b.topic];
      && b.id in l.buffer.waiting && b.id in l.spans && l.spans[b.id].lo < l.spans[b.id].hi <= |l.arrivals|
      && b.jobs == AllJobs(l.arrivals[l.spans[b.id].lo..l.spans[b.id].hi])
      && MembersAre(h, l.arrivals, l.spans[b.id], l.buffer.waiting[b.id])
  {
    RunKeepsInv(h, run, st, n);
    var s := st[n];
    var b := s.sendCh[k];
    var l := s.lanes[b.topic];
    assert LaneOk(h, b.topic, l) && ResponsesOk(l, s.closed);
    assert BatchOk(b.topic, l.arrivals, l.spans, b);
    assert b.id in l.buffer.waiting;
  }

  // ------------------------------------------------------------------ routing

  /** The first job of lane `t`'s batch `id` names `topic`. */
  ghost predicate LeadsIn(lanes: map<Topic, Lane>, t: Topic, id: uint32, topic: Topic) {
    t in lanes && Leads(lanes[t].arrivals, lanes[t].spans, id, topic)
  }

  /** An open batch is routed to the topic its first job names. */
  ghost predicate RoutesOk(lanes: map<Topic, Lane>, open: set<uint32>, routes: map<uint32, Topic>) {
    forall t, id: uint32 :: Owns(lanes, t, id) && id in open ==> id in routes && LeadsIn(lanes, t, id, routes[id])
  }

  ghost predicate Routed(s: System) {
    RoutesOk(s.lanes, s.open, s.routes)
  }

  lemma BatchLeads(h: HashFn, s: System, t: Topic)
    requires Inv(h, s) && s.sendCh != [] && s.sendCh[0].jobs != [] && Owns(s.lanes, t, s.sendCh[0].id)
    ensures LeadsIn(s.lanes, t, s.sendCh[0].id, s.sendCh[0].jobs[0].topic)
  {
    var b := s.sendCh[0];
    assert BatchOk(b.topic, s.lanes[b.topic].arrivals, s.lanes[b.topic].spans, b);
    assert Owns(s.lanes, b.topic, b.id);
  }

  lemma RegisterKeepsRoutes(h: HashFn, s: System)
    requires Inv(h, s) && Routed(s)
    ensures Routed(Registers(s))
  {
    if s.sending.None? && s.sendCh != [] && s.sendCh[0].jobs != [] {
      forall t | Owns(s.lanes, t, s.sendCh[0].id)
        ensures LeadsIn(s.lanes, t, s.sendCh[0].id, s.sendCh[0].jobs[0].topic)
      {
        BatchLeads(h, s, t);
      }
    }
  }

  /** A lane only adds arrivals and batches, so what a batch is routed by stays. */
  lemma LaneEventKeepsLeads(h: HashFn, s: System, e: Event, t: Topic, id: uint32, topic: Topic)
    requires OfLane(e) && LeadsIn(s.lanes, t, id, topic)
    requires s.issued + 1 < ID_SPACE ==> id != s.issued + 1
    requires Step(h, s, e).issued < ID_SPACE
    ensures LeadsIn(Step(h, s, e).lanes, t, id, topic)
  {
  }

  lemma PushKeepsRoutes(s: System, t: Topic, resp: Response)
    requires Routed(s)
    ensures Routed(Push(s, t, resp))
  {
    var lanes' := Push(s, t, resp).lanes;
    forall t', id: uint32 | Owns(lanes', t', id) && id in s.open
      ensures id in s.routes && LeadsIn(lanes', t', id, s.routes[id])
    {
      assert Owns(s.lanes, t', id);
    }
  }

  /** Batches are only ever added to a lane by a drain, under the next ID. */
  lemma StepOwns(h: HashFn, s: System, e: Event, t: Topic, id: uint32)
    requires Owns(Step(h, s, e).lanes, t, id) && !Owns(s.lanes, t, id)
    ensures e.LaneDrains? && id == (s.issued + 1) % ID_SPACE
  {
  }

  lemma LaneEventKeepsRoutes(h: HashFn, s: System, e: Event)
    requires TrafficOk(s) && Routed(s) && Step(h, s, e).issued < ID_SPACE
    requires OfLane(e)
    ensures Routed(Step(h, s, e))
  {
    var s' := Step(h, s, e);
    LaneEventRoutes(h, s, e);
    forall t, id: uint32 | Owns(s'.lanes, t, id) && id in s.open
      ensures id in s.routes && LeadsIn(s'.lanes, t, id, s.routes[id])
    {
      if !Owns(s.lanes, t, id) {
        StepOwns(h, s, e, t, id);
      }
      LaneEventKeepsLeads(h, s, e, t, id, s.routes[id]);
    }
  }

  lemma LaneEventRoutes(h: HashFn, s: System, e: Event)
    requires OfLane(e)
    ensures Step(h, s, e).routes == s.routes && Step(h, s, e).open == s.open
  {
  }

  lemma RelayStepKeepsRoutes(h: HashFn, s: System, e: Event)
    requires Inv(h, s) && Routed(s) && OfRelay(e)
    ensures Routed(Step(h, s, e))
  {
    match e
    case SenderRegisters => RegisterKeepsRoutes(h, s);
    case SendFails(error) =>
      if s.sending.Some? {
        var id := s.sending.value.id;
        PushKeepsRoutes(Close(s, id).(sending := None, routes := s.routes - {id}),
                        s.sending.value.topic, Response(id, Error, error, []));
      }
    case ResponseArrives(resp) =>
    case HandlerPushes(i) =>
      if i < |s.forwards| && s.forwards[i].stage == Located {
        PushKeepsRoutes(Moved(s, i, Pushed), s.forwards[i].topic, s.forwards[i].resp);
      }
  }

  /** Cleaning up removes routes of closed batches only. */
  lemma QuietStepKeepsRoutes(h: HashFn, s: System, e: Event)
    requires TrafficOk(s) && Routed(s) && !OfLane(e) && !OfRelay(e)
    ensures Routed(Step(h, s, e))
  {
    if e.HandlerCleans? && e.handler < |s.forwards| {
      assert s.forwards[e.handler].resp.requestId in s.closed;
    }
  }

  lemma StepKeepsRoutes(h: HashFn, s: System, e: Event)
    requires Inv(h, s) && Routed(s)
    requires Step(h, s, e).issued < ID_SPACE
    ensures Routed(Step(h, s, e))
  {
    if OfLane(e) {
      LaneEventKeepsRoutes(h, s, e);
    } else if OfRelay(e) {
      RelayStepKeepsRoutes(h, s, e);
    } else {
      QuietStepKeepsRoutes(h, s, e);
    }
  }

  lemma {:induction false} RunKeepsRoutes(h: HashFn, run: seq<Event>, st: seq<System>, n: nat)
    requires IsRun(h, run, st) && n < |st| && ApiChecked(run) && st[n].issued < ID_SPACE
    ensures Routed(st[n])
  {
    if n > 0 {
      var s, e := st[n - 1], run[n - 1];
      assert StepAt(h, run, st, n - 1);
      IssuedNeverFalls(h, s, e);
      RunKeepsInv(h, run, st, n - 1);
      RunKeepsRoutes(h, run, st, n - 1);
      StepKeepsRoutes(h, s, e);
    }
  }

  /** Routing-index agreement, exactly: from registration until the send fails or a first response is
      handled, a batch has a route, a lane waits for it, and the route leads to that lane if and only
      if the first job of the batch names the lane's topic. */
  lemma RoutingAgrees(h: HashFn, run: seq<Event>, st: seq<System>, n: nat, t: Topic, id: uint32)
    requires IsRun(h, run, st) && n < |st| && ApiChecked(run) && st[n].issued < ID_SPACE
    requires t in st[n].lanes && id in st[n].lanes[t].spans
    requires id in st[n].open
    ensures id in st[n].lanes[t].buffer.waiting
    ensures id in st[n].routes && LeadsIn(st[n].lanes, t, id, st[n].routes[id])
    ensures st[n].routes[id] == t <==> LeadsIn(st[n].lanes, t, id, t)
  {
    RunKeepsInv(h, run, st, n);
    RunKeepsRoutes(h, run, st, n);
    assert Owns(st[n].lanes, t, id);
    OpenIsWaiting(h, st[n], t, id);
  }

  lemma OpenIsWaiting(h: HashFn, s: System, t: Topic, id: uint32)
    requires Inv(h, s) && t in s.lanes && id in s.lanes[t].spans && id in s.open
    ensures id in s.lanes[t].buffer.waiting
  {
    assert LaneOk(h, t, s.lanes[t]) && ResponsesOk(s.lanes[t], s.closed);
  }

  /** Every job of every arrival names the topic of its lane. */
  ghost predicate Matched(lanes: map<Topic, Lane>) {
    forall t, i, k :: t in lanes && 0 <= i < |lanes[t].arrivals| && 0 <= k < |lanes[t].arrivals[i].jobs| ==>
      lanes[t].arrivals[i].jobs[k].topic == t
  }

  lemma StepKeepsMatched(h: HashFn, s: System, e: Event)
    requires Matched(s.lanes)
    requires e.ProducerSubmits? ==> forall k :: 0 <= k < |e.jobs| ==> e.jobs[k].topic == e.topic
    ensures Matched(Step(h, s, e).lanes)
  {
  }

  lemma {:induction false} RunKeepsMatched(h: HashFn, run: seq<Event>, st: seq<System>, n: nat)
    requires IsRun(h, run, st) && n < |st| && TopicsMatch(run)
    ensures Matched(st[n].lanes)
  {
    if n > 0 {
      RunKeepsMatched(h, run, st, n - 1);
      assert StepAt(h, run, st, n - 1);
      StepKeepsMatched(h, st[n - 1], run[n - 1]);
    }
  }

  /** Producers that put the payload's topic on every job have every batch routed to its lane. */
  lemma MatchingTopicsLead(h: HashFn, run: seq<Event>, st: seq<System>, n: nat, t: Topic, id: uint32)
    requires IsRun(h, run, st) && n < |st| && ApiChecked(run) && TopicsMatch(run) && st[n].issued < ID_SPACE
    requires t in st[n].lanes && id in st[n].lanes[t].spans
    ensures LeadsIn(st[n].lanes, t, id, t)
  {
    RunKeepsInv(h, run, st, n);
    RunKeepsMatched(h, run, st, n);
    var l := st[n].lanes[t];
    assert LaneOk(h, t, l);
    assert l.arrivals[l.spans[id].lo].jobs != [];
  }

  /** The first response to an open batch finds the route to the lane that waits for it if and only
      if no AddTopic request with the same ID is pending and the batch's first job names the lane. */
  lemma LocatedIffFreeAndLeading(h: HashFn, run: seq<Event>, st: seq<System>, n: nat, t: Topic, resp: Response)
    requires IsRun(h, run, st) && n < |st| && ApiChecked(run) && st[n].issued < ID_SPACE
    requires t in st[n].lanes && resp.requestId in st[n].lanes[t].spans
    requires resp.requestId in st[n].open
    ensures var s := st[n];
      Arrives(s, resp).forwards == s.forwards + [Forward(resp, t, Located)]
      <==> resp.requestId !in s.addTopics && LeadsIn(s.lanes, t, resp.requestId, t)
  {
    RoutingAgrees(h, run, st, n, t, resp.requestId);
    var fs, fs' := st[n].forwards, Arrives(st[n], resp).forwards;
    assert fs' == fs + [Forward(resp, t, Located)] ==> fs'[|fs|].topic == t;
  }

  /** A response is tied to its batch by the ID alone: with an AddTopic request of the same ID pending,
      a response is taken for that request; once the request was given up, the same response is taken
      for the batch, although it may be the late answer to the request. */
  lemma LateAddTopicAnswerIsTaken(h: HashFn, run: seq<Event>, st: seq<System>, n: nat, t: Topic, resp: Response)
    requires IsRun(h, run, st) && n < |st| && ApiChecked(run) && st[n].issued < ID_SPACE
    requires resp.requestId in st[n].open && resp.requestId in st[n].addTopics
    requires LeadsIn(st[n].lanes, t, resp.requestId, t)
    ensures var s, after := st[n], Step(h, st[n], TopicFailed(resp.requestId));
      && Arrives(s, resp).forwards == s.forwards
      && Arrives(after, resp).forwards == s.forwards + [Forward(resp, t, Located)]
  {
    RoutingAgrees(h, run, st, n, t, resp.requestId);
  }

  // ------------------------------------------------------------------ the routing tables

  /** The agent's routing state: the AddTopic requests waiting for an answer, the batch routes, and
      every lane's response channel. */
  class RoutingTables {
    var requestMap: set<uint32>
    var requestIdToTopic: map<uint32, Topic>
    var responseInput: map<Topic, seq<Response>>

    /** The tables are those of `s`. */
    ghost predicate Shows(s: System)
      reads this
    {
      && s.addTopics == requestMap && s.routes == requestIdToTopic
      && s.lanes.Keys == responseInput.Keys
      && forall t :: t in s.lanes ==> s.lanes[t].responses == responseInput[t]
    }

    constructor ()
      ensures Shows(INITIAL)
    {
      requestMap, requestIdToTopic, responseInput := {}, map[], map[];
    }

    /** A non-blocking send to a lane, if there is one. */
    method Forward(topic: Topic, resp: Response, ghost s: System)
      requires Shows(s)
      modifies this`responseInput
      ensures Shows(Push(s, topic, resp))
    {
      if topic in responseInput {
        if |responseInput[topic]| < RESPONSE_CAPACITY {
          responseInput := responseInput[topic := responseInput[topic] + [resp]];
        }
      }
    }

    /** An uninterrupted handling of a response: three steps of the machine. */
    method HandleResponse(resp: Response, ghost s: System)
      requires Shows(s)
      modifies this
      ensures var i := |s.forwards|; Shows(Cleans(Pushes(Arrives(s, resp), i), i))
    {
      if resp.requestId in requestMap {
        requestMap := requestMap - {resp.requestId};
        return;
      }
      if resp.requestId !in requestIdToTopic {
        return;
      }
      var topic := requestIdToTopic[resp.requestId];
      Forward(topic, resp, Moved(Arrives(s, resp), |s.forwards|, Pushed));
      requestIdToTopic := requestIdToTopic - {resp.requestId};
    }

    /** Registers a batch, and takes the route back and answers with the error if the send fails. */
    method HandleSendJobs(request: Batch, failure: Option<string>, ghost s: System)
      requires Shows(s) && s.sending.None? && s.sendCh != [] && s.sendCh[0] == request
      requires request.jobs != []
      modifies this
      ensures Shows(if failure.Some? then Fails(Registers(s), failure.value) else Registers(s).(sending := None))
    {
      var topic := request.jobs[0].topic;
      requestIdToTopic := requestIdToTopic[request.id := topic];
      if failure.Some? {
        requestIdToTopic := requestIdToTopic - {request.id};
        Forward(topic, Response(request.id, Error, failure.value, []),
                Close(Registers(s), request.id).(sending := None, routes := Registers(s).routes - {request.id}));
      }
    }
  }
}
