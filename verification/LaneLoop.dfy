/** The job buffer's goroutine: each turn of its loop takes a request, a response or a tick, and is the
    lane machine's step on the object it owns. */
module LaneLoop {
  import opened Common
  import opened Batching
  import opened Lanes
  import opened Producers

  /** What the select statement received. */
  datatype Choice = GotRequest(request: Request) | GotResponse(response: Response) | Tick

  /** The object is the buffer of lane `t`, at its select, and shares the system's counter. */
  ghost predicate Represents(b: JobBuffer, s: System, t: Topic)
    reads b, b.counter
  {
    && b.Valid() && t in s.lanes && Idle(s.lanes[t])
    && b.View() == s.lanes[t].buffer && b.counter.value == s.issued % ID_SPACE
  }

  /** The choice is open to the lane: the request or response is the oldest in its channel.  A request is
      a whole turn only if the store has room for it. */
  ghost predicate Offered(c: Choice, l: Lane) {
    match c
    case GotRequest(r) => l.input != [] && l.input[0] == r && |l.buffer.store| < STORE_CAPACITY
    case GotResponse(resp) => l.responses != [] && l.responses[0] == resp
    case Tick => true
  }

  ghost function EventOf(c: Choice, t: Topic): Event {
    match c
    case GotRequest(r) => LaneTakes(t)
    case GotResponse(resp) => LaneDispatches(t)
    case Tick => LaneDrains(t)
  }

  /** One turn of the loop is one step of the machine: the buffer, the counter, the batch handed to the
      sender and the messages sent are those of the step. */
  method Turn(b: JobBuffer, c: Choice, ghost s: System, ghost t: Topic)
    returns (batch: Option<Batch>, sends: seq<Send>)
    requires Represents(b, s, t) && Offered(c, s.lanes[t])
    modifies b, b.counter
    ensures b.Valid()
    ensures var s' := Step(b.hash, s, EventOf(c, t));
      && t in s'.lanes && b.View() == s'.lanes[t].buffer && b.counter.value == s'.issued % ID_SPACE
      && batch == s'.lanes[t].outgoing
      && s.lanes[t].log <= s'.lanes[t].log
      && |sends| == |s'.lanes[t].log| - |s.lanes[t].log|
      && (c.GotResponse? ==> AreSends(b.hash, s'.lanes[t].log[|s.lanes[t].log|..], sends, c.response))
  {
    batch, sends := None, [];
    match c {
      case GotRequest(request) =>
        b.Store(request);
      case GotResponse(response) =>
        DispatchIsTheMethods(b.hash, s.lanes[t]);
        sends := b.DispatchResponse(response);
      case Tick =>
        batch := b.Drain();
    }
  }

  /** A drain never writes over a batch that waits in any lane, as long as the counter has not wrapped:
      its number is fresh. */
  lemma DrainUsesFreshId(h: HashFn, run: seq<Event>, st: seq<System>, n: nat, t: Topic)
    requires IsRun(h, run, st) && n < |run| && ApiChecked(run) && st[n + 1].issued < ID_SPACE
    requires run[n] == LaneDrains(t) && t in st[n].lanes && CanCollect(st[n].lanes[t])
    ensures st[n + 1].issued == st[n].issued + 1
    ensures forall u :: u in st[n].lanes ==>
              st[n + 1].issued !in st[n].lanes[u].buffer.waiting && st[n + 1].issued !in st[n].lanes[u].spans
    ensures t in st[n + 1].lanes && st[n + 1].lanes[t].outgoing.Some?
    ensures st[n + 1].lanes[t].outgoing.value.id == st[n + 1].issued
    ensures st[n + 1].issued in st[n + 1].lanes[t].buffer.waiting
  {
    assert StepAt(h, run, st, n);
    RunKeepsInv(h, run, st, n);
    DrainUsesNextId(h, st[n], t);
    forall u | u in st[n].lanes
      ensures st[n].issued + 1 !in st[n].lanes[u].buffer.waiting && st[n].issued + 1 !in st[n].lanes[u].spans
    {
      NextIdIsFree(st[n], u);
      assert LaneOk(h, u, st[n].lanes[u]);
    }
  }
}
