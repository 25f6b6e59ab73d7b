/** One topic's lane: the job buffer together with the channels around it, advanced one atomic
    block at a time, and histories of what arrived, which batch each arrival went into and what
    was answered.

    `LaneOk` ties every container to those histories; each operation keeps it, and it implies
    that every accepted request is in exactly one place and is answered at most once. */
module Lanes {
  import opened Common
  import opened Batching

  const INPUT_CAPACITY := 1024
  const RESPONSE_CAPACITY := 1024

  /** Arrivals `lo` up to, not including, `hi`. */
  datatype Span = Span(lo: nat, hi: nat)

  /** A send of `Reply(waiter, cause)` on the response channel of arrival `waiter.ticket`. */
  datatype Sent = Sent(waiter: Waiting, cause: Response)

  datatype Lane = Lane(
    input: seq<Request>,        // apiInputCh
    buffer: Buffer,
    held: Option<Request>,      // taken from apiInputCh, waiting for room in the store
    outgoing: Option<Batch>,    // drained, waiting for room in sendJobsCh
    responses: seq<Response>,   // responseInputCh
    mailboxes: set<nat>,        // response channels that hold an unread answer
    arrivals: seq<Request>,     // history: every accepted request, in order
    batchOf: seq<uint32>,       // history: the batch each drained arrival went into
    spans: map<uint32, Span>,   // history: the arrivals of each batch
    settled: set<uint32>,       // history: the batches whose response was dispatched
    log: seq<Sent>,             // history: every attempted send
    dropped: seq<Sent>)         // history: sends that found the channel full

  function NewLane(topic: Topic): Lane {
    Lane([], Buffer(topic, [], 0, 0, map[]), None, None, [], {}, [], [], map[], {}, [], [])
  }

  // ------------------------------------------------------------------ operations

  function Submit(l: Lane, id: uint32, listening: bool, topic: Topic, jobs: seq<Job>): Lane {
    if |l.input| < INPUT_CAPACITY then
      var r := Request(|l.arrivals|, id, listening, topic, jobs);
      l.(input := l.input + [r], arrivals := l.arrivals + [r])
    else l
  }

  /** The lane's goroutine is back at its select statement. */
  predicate Idle(l: Lane) {
    l.held.None? && l.outgoing.None?
  }

  function Intake(l: Lane): Lane {
    if !Idle(l) || l.input == [] then l
    else if |l.buffer.store| < STORE_CAPACITY then
      l.(input := l.input[1..], buffer := Stored(l.buffer, l.input[0]))
    else
      l.(input := l.input[1..], held := Some(l.input[0]))
  }

  predicate CanCollect(l: Lane) {
    Idle(l) && l.buffer.store != []
  }

  function Repeat(id: uint32, n: nat): (s: seq<uint32>)
    ensures |s| == n && forall k :: 0 <= k < n ==> s[k] == id
  {
    if n == 0 then [] else Repeat(id, n - 1) + [id]
  }

  function Collect(h: HashFn, l: Lane, id: uint32): Lane
    requires CanCollect(l)
  {
    var n := |l.buffer.store|;
    l.(buffer := Collected(h, l.buffer, id),
       outgoing := Some(BatchOf(l.buffer, id)),
       batchOf := l.batchOf + Repeat(id, n),
       spans := l.spans[id := Span(|l.batchOf|, |l.batchOf| + n)])
  }

  function Emit(l: Lane): Lane {
    l.(outgoing := None)
  }

  function PushResponse(l: Lane, resp: Response): Lane {
    if |l.responses| < RESPONSE_CAPACITY then l.(responses := l.responses + [resp]) else l
  }

  function Attempts(ws: seq<Waiting>, resp: Response): (es: seq<Sent>)
    ensures |es| == |ws|
  {
    seq(|ws|, k requires 0 <= k < |ws| => Sent(ws[k], resp))
  }

  /** Non-blocking sends into capacity-one channels: a full channel drops the message. */
  function Deliver(mail: set<nat>, es: seq<Sent>, n: nat): (set<nat>, seq<Sent>)
    requires n <= |es|
  {
    if n == 0 then (mail, [])
    else
      var (m, d) := Deliver(mail, es, n - 1);
      if es[n - 1].waiter.ticket in m then (m, d + [es[n - 1]]) else (m + {es[n - 1].waiter.ticket}, d)
  }

  function Dispatch(l: Lane): Lane {
    if !Idle(l) || l.responses == [] then l
    else
      var resp := l.responses[0];
      var es := Attempts(Audience(l.buffer, resp), resp);
      var (mail, lost) := Deliver(l.mailboxes, es, |es|);
      l.(responses := l.responses[1..],
         buffer := Settled(l.buffer, resp.requestId),
         settled := if resp.requestId in l.buffer.waiting then l.settled + {resp.requestId} else l.settled,
         mailboxes := mail,
         log := l.log + es,
         dropped := l.dropped + lost)
  }

  /** The messages of `es` are the sends. */
  ghost predicate AreSends(h: HashFn, es: seq<Sent>, sends: seq<Send>, resp: Response) {
    && |es| == |sends|
    && forall k :: 0 <= k < |es| ==>
         es[k].cause == resp && sends[k] == Send(es[k].waiter.ticket, Reply(h, es[k].waiter, resp))
  }

  /** The attempts logged by `Dispatch` are the sends the job buffer makes. */
  lemma AttemptsAreSends(h: HashFn, b: Buffer, resp: Response)
    ensures AreSends(h, Attempts(Audience(b, resp), resp), Sends(h, b, resp), resp)
  {
  }

  function Read(l: Lane, ticket: nat): Lane {
    l.(mailboxes := l.mailboxes - {ticket})
  }

  // ------------------------------------------------------------------ invariant

  function Opt<T>(o: Option<T>): seq<T> {
    if o.Some? then [o.value] else []
  }

  ghost predicate ArrivalsOk(topic: Topic, arrivals: seq<Request>) {
    forall i :: 0 <= i < |arrivals| ==>
      arrivals[i].ticket == i && arrivals[i].topic == topic && arrivals[i].jobs != []
  }

  /** What is not yet drained lies, in arrival order, in the store, in hand, in the input. */
  ghost predicate PipeOk(arrivals: seq<Request>, drained: nat, store: seq<Request>, held: Option<Request>,
                         input: seq<Request>) {
    && drained <= |arrivals|
    && arrivals[drained..] == store + Opt(held) + input
    && |store| <= STORE_CAPACITY
    && (held.Some? ==> |store| == STORE_CAPACITY)
  }

  /** Batches are the maximal runs of equal entries in `batchOf`. */
  ghost predicate SpansOk(batchOf: seq<uint32>, spans: map<uint32, Span>) {
    && (forall i :: 0 <= i < |batchOf| ==>
          batchOf[i] in spans && spans[batchOf[i]].lo <= i < spans[batchOf[i]].hi)
    && (forall id :: id in spans ==> spans[id].lo < spans[id].hi <= |batchOf|)
    && (forall id, i :: id in spans && spans[id].lo <= i < spans[id].hi ==> batchOf[i] == id)
  }

  ghost predicate MembersAre(h: HashFn, arrivals: seq<Request>, span: Span, ws: seq<Waiting>) {
    && span.lo <= span.hi <= |arrivals| && |ws| == span.hi - span.lo
    && forall k :: 0 <= k < |ws| ==> ws[k] == WaitingFor(h, arrivals[span.lo + k])
  }

  /** The waiting map holds exactly the unsettled batches, each with its members. */
  ghost predicate WaitingOk(h: HashFn, arrivals: seq<Request>, spans: map<uint32, Span>, settled: set<uint32>,
                            waiting: map<uint32, seq<Waiting>>) {
    && (forall id :: id in settled ==> id in spans)
    && (forall id :: id in waiting <==> id in spans && id !in settled)
    && forall id {:trigger waiting[id]} :: id in waiting && id in spans ==>
         MembersAre(h, arrivals, spans[id], waiting[id])
  }

  /** A logged send went to a listening member of the batch the response was for. */
  ghost predicate SentOk(h: HashFn, arrivals: seq<Request>, batchOf: seq<uint32>, settled: set<uint32>, e: Sent) {
    var i := e.waiter.ticket;
    && i < |batchOf| <= |arrivals|
    && batchOf[i] == e.cause.requestId && e.cause.requestId in settled
    && e.waiter.listening && e.waiter == WaitingFor(h, arrivals[i])
  }

  ghost predicate Answered(log: seq<Sent>, ticket: nat) {
    exists k :: 0 <= k < |log| && log[k].waiter.ticket == ticket
  }

  ghost predicate LogOk(h: HashFn, arrivals: seq<Request>, batchOf: seq<uint32>, settled: set<uint32>, log: seq<Sent>) {
    && (forall k :: 0 <= k < |log| ==> SentOk(h, arrivals, batchOf, settled, log[k]))
    && (forall j, k :: 0 <= j < k < |log| ==> log[j].waiter.ticket != log[k].waiter.ticket)
  }

  /** Every listening member of a settled batch was answered. */
  ghost predicate LogComplete(arrivals: seq<Request>, batchOf: seq<uint32>, settled: set<uint32>, log: seq<Sent>) {
    && |batchOf| <= |arrivals|
    && forall i: nat :: i < |batchOf| && batchOf[i] in settled && arrivals[i].listening ==> Answered(log, i)
  }

  /** The histories of batches and answers. */
  ghost predicate HistoryOk(h: HashFn, arrivals: seq<Request>, batchOf: seq<uint32>, spans: map<uint32, Span>,
                            settled: set<uint32>, log: seq<Sent>) {
    && SpansOk(batchOf, spans) && LogOk(h, arrivals, batchOf, settled, log)
    && LogComplete(arrivals, batchOf, settled, log)
  }

  ghost predicate MailOk(log: seq<Sent>, mailboxes: set<nat>) {
    forall i :: i in mailboxes ==> Answered(log, i)
  }

  /** A batch carries, in order, exactly the jobs of its members. */
  ghost predicate BatchOk(topic: Topic, arrivals: seq<Request>, spans: map<uint32, Span>, b: Batch) {
    && b.id in spans && b.topic == topic
    && spans[b.id].lo < spans[b.id].hi <= |arrivals|
    && b.jobs == AllJobs(arrivals[spans[b.id].lo..spans[b.id].hi])
    && b.jobs != [] && arrivals[spans[b.id].lo].jobs != [] && b.jobs[0] == arrivals[spans[b.id].lo].jobs[0]
  }

  /** The first job of the batch, which the sender routes by, names `topic`. */
  ghost predicate Leads(arrivals: seq<Request>, spans: map<uint32, Span>, id: uint32, topic: Topic) {
    && id in spans && spans[id].lo < |arrivals|
    && arrivals[spans[id].lo].jobs != [] && arrivals[spans[id].lo].jobs[0].topic == topic
  }

  ghost predicate LaneOk(h: HashFn, topic: Topic, l: Lane) {
    && ArrivalsOk(topic, l.arrivals)
    && PipeOk(l.arrivals, |l.batchOf|, l.buffer.store, l.held, l.input)
    && Counted(l.buffer) && l.buffer.topic == topic
    && HistoryOk(h, l.arrivals, l.batchOf, l.spans, l.settled, l.log)
    && WaitingOk(h, l.arrivals, l.spans, l.settled, l.buffer.waiting)
    && MailOk(l.log, l.mailboxes) && l.dropped == []
    && (l.outgoing.Some? ==> BatchOk(topic, l.arrivals, l.spans, l.outgoing.value))
  }

  // ------------------------------------------------------------------ operations keep it

  lemma NewLaneOk(h: HashFn, topic: Topic)
    ensures LaneOk(h, topic, NewLane(topic))
  {
  }

  /** A batch stays what it was as arrivals and batches are added. */
  lemma BatchStays(topic: Topic, arrivals: seq<Request>, spans: map<uint32, Span>, more: seq<Request>,
                   spans': map<uint32, Span>, b: Batch)
    requires BatchOk(topic, arrivals, spans, b)
    requires b.id in spans' && spans'[b.id] == spans[b.id]
    ensures BatchOk(topic, arrivals + more, spans', b)
  {
    var span := spans[b.id];
    assert (arrivals + more)[span.lo..span.hi] == arrivals[span.lo..span.hi];
  }

  lemma SubmitKeeps(h: HashFn, topic: Topic, l: Lane, id: uint32, listening: bool, jobs: seq<Job>)
    requires LaneOk(h, topic, l) && jobs != []
    ensures LaneOk(h, topic, Submit(l, id, listening, topic, jobs))
  {
    var l' := Submit(l, id, listening, topic, jobs);
    if |l.input| < INPUT_CAPACITY {
      var r := Request(|l.arrivals|, id, listening, topic, jobs);
      assert l'.arrivals == l.arrivals + [r];
      assert l'.arrivals[|l.batchOf|..] == l.arrivals[|l.batchOf|..] + [r];
      if l.outgoing.Some? {
        BatchStays(topic, l.arrivals, l.spans, [r], l.spans, l.outgoing.value);
      }
    }
  }

  lemma IntakeKeeps(h: HashFn, topic: Topic, l: Lane)
    requires LaneOk(h, topic, l)
    ensures LaneOk(h, topic, Intake(l))
  {
    if Idle(l) && l.input != [] {
      CountersStayExact(l.buffer, l.input[0]);
      assert l.arrivals[|l.batchOf|..] == (l.buffer.store + [l.input[0]]) + l.input[1..];
    }
  }

  lemma CollectKeeps(h: HashFn, topic: Topic, l: Lane, id: uint32)
    requires LaneOk(h, topic, l) && CanCollect(l) && id !in l.spans
    ensures LaneOk(h, topic, Collect(h, l, id))
  {
    var d, n, l' := |l.batchOf|, |l.buffer.store|, Collect(h, l, id);
    assert l'.batchOf == l.batchOf + Repeat(id, n) && l'.spans == l.spans[id := Span(d, d + n)];
    assert l'.buffer == Collected(h, l.buffer, id) && l'.outgoing == Some(BatchOf(l.buffer, id));
    CollectMovesStore(h, topic, l.arrivals, l.spans, l.settled, l.buffer, l.input, d, id);
    CollectKeepsHistory(h, l.arrivals, l.batchOf, l.spans, l.settled, l.log, Repeat(id, n), id);
  }

  lemma CollectKeepsHistory(h: HashFn, arrivals: seq<Request>, batchOf: seq<uint32>, spans: map<uint32, Span>,
                            settled: set<uint32>, log: seq<Sent>, more: seq<uint32>, id: uint32)
    requires HistoryOk(h, arrivals, batchOf, spans, settled, log) && id !in spans && id !in settled
    requires more != [] && |batchOf| + |more| <= |arrivals| && forall k :: 0 <= k < |more| ==> more[k] == id
    ensures HistoryOk(h, arrivals, batchOf + more, spans[id := Span(|batchOf|, |batchOf| + |more|)], settled, log)
  {
    CollectKeepsSpans(batchOf, spans, more, id);
    CollectKeepsLog(h, arrivals, batchOf, settled, log, more, id);
  }

  /** The stored requests leave as a batch and become its waiters. */
  lemma CollectMovesStore(h: HashFn, topic: Topic, arrivals: seq<Request>, spans: map<uint32, Span>,
                          settled: set<uint32>, b: Buffer, input: seq<Request>, d: nat, id: uint32)
    requires ArrivalsOk(topic, arrivals) && PipeOk(arrivals, d, b.store, None, input)
    requires WaitingOk(h, arrivals, spans, settled, b.waiting)
    requires b.topic == topic && b.store != [] && id !in spans
    ensures var b', d', spans' := Collected(h, b, id), d + |b.store|, spans[id := Span(d, d + |b.store|)];
      && PipeOk(arrivals, d', b'.store, None, input) && Counted(b')
      && WaitingOk(h, arrivals, spans', settled, b'.waiting)
      && BatchOk(topic, arrivals, spans', BatchOf(b, id))
  {
    CollectKeepsPipe(arrivals, d, b.store, input);
    DrainResetsCounters(h, b, id);
    CollectKeepsWaiting(h, arrivals, spans, settled, b, Span(d, d + |b.store|), id);
    CollectedBatchOk(topic, arrivals, spans, b, Span(d, d + |b.store|), id);
  }

  lemma CollectKeepsPipe(arrivals: seq<Request>, d: nat, store: seq<Request>, input: seq<Request>)
    requires PipeOk(arrivals, d, store, None, input)
    ensures d + |store| <= |arrivals| && arrivals[d..d + |store|] == store
    ensures PipeOk(arrivals, d + |store|, [], None, input)
  {
    var n := |store|;
    assert arrivals[d + n..] == arrivals[d..][n..] == input;
    assert arrivals[d..d + n] == arrivals[d..][..n] == store;
  }

  lemma CollectedBatchOk(topic: Topic, arrivals: seq<Request>, spans: map<uint32, Span>, b: Buffer, span: Span,
                         id: uint32)
    requires ArrivalsOk(topic, arrivals) && b.topic == topic
    requires span.lo < span.hi <= |arrivals| && arrivals[span.lo..span.hi] == b.store
    ensures BatchOk(topic, arrivals, spans[id := span], BatchOf(b, id))
  {
    assert b.store[0] == arrivals[span.lo];
    JobsUpToNonempty(b.store, |b.store|);
  }

  lemma CollectKeepsSpans(batchOf: seq<uint32>, spans: map<uint32, Span>, more: seq<uint32>, id: uint32)
    requires SpansOk(batchOf, spans) && id !in spans
    requires more != [] && forall k :: 0 <= k < |more| ==> more[k] == id
    ensures SpansOk(batchOf + more, spans[id := Span(|batchOf|, |batchOf| + |more|)])
  {
  }

  lemma CollectKeepsWaiting(h: HashFn, arrivals: seq<Request>, spans: map<uint32, Span>, settled: set<uint32>,
                            b: Buffer, span: Span, id: uint32)
    requires WaitingOk(h, arrivals, spans, settled, b.waiting) && id !in spans
    requires span.lo <= span.hi <= |arrivals| && arrivals[span.lo..span.hi] == b.store
    ensures WaitingOk(h, arrivals, spans[id := span], settled, Collected(h, b, id).waiting)
  {
    assert MembersAre(h, arrivals, span, WaitingList(h, b.store));
  }

  lemma CollectKeepsLog(h: HashFn, arrivals: seq<Request>, batchOf: seq<uint32>, settled: set<uint32>, log: seq<Sent>,
                        more: seq<uint32>, id: uint32)
    requires LogOk(h, arrivals, batchOf, settled, log) && LogComplete(arrivals, batchOf, settled, log)
    requires |batchOf| + |more| <= |arrivals| && id !in settled
    requires forall k :: 0 <= k < |more| ==> more[k] == id
    ensures LogOk(h, arrivals, batchOf + more, settled, log) && LogComplete(arrivals, batchOf + more, settled, log)
  {
    assert forall k :: 0 <= k < |log| ==> SentOk(h, arrivals, batchOf, settled, log[k]);
  }

  /** `ls` are listening members of a batch with tickets `lo`, `lo + 1`, ..., in ticket order. */
  ghost predicate InTicketOrder(ws: seq<Waiting>, lo: nat, n: nat, ls: seq<Waiting>) {
    && (forall k :: 0 <= k < |ls| ==> ls[k].listening && lo <= ls[k].ticket < lo + n && ls[k] in ws)
    && (forall j, k :: 0 <= j < k < |ls| ==> ls[j].ticket < ls[k].ticket)
  }

  lemma {:induction false} ListenersShape(ws: seq<Waiting>, lo: nat, n: nat)
    requires n <= |ws| && forall i :: 0 <= i < |ws| ==> ws[i].ticket == lo + i
    ensures InTicketOrder(ws, lo, n, Listeners(ws, n))
  {
    if n > 0 {
      ListenersShape(ws, lo, n - 1);
    }
  }

  lemma {:induction false} ListenersComplete(ws: seq<Waiting>, n: nat, i: nat)
    requires i < n <= |ws| && ws[i].listening
    ensures ws[i] in Listeners(ws, n)
  {
    if i < n - 1 {
      ListenersComplete(ws, n - 1, i);
    }
  }

  lemma {:induction false} DeliverFresh(mail: set<nat>, es: seq<Sent>, n: nat)
    requires n <= |es|
    requires forall j, k :: 0 <= j < k < |es| ==> es[j].waiter.ticket != es[k].waiter.ticket
    requires forall k :: 0 <= k < |es| ==> es[k].waiter.ticket !in mail
    ensures Deliver(mail, es, n).1 == []
    ensures forall i :: i in Deliver(mail, es, n).0 <==> i in mail || exists k :: 0 <= k < n && es[k].waiter.ticket == i
  {
    if n > 0 {
      DeliverFresh(mail, es, n - 1);
      var m := Deliver(mail, es, n - 1).0;
      assert es[n - 1].waiter.ticket !in m;
      assert Deliver(mail, es, n).0 == m + {es[n - 1].waiter.ticket};
    }
  }

  /** A listener of a batch is the waiter of one of its arrivals. */
  lemma ListenerIsMember(h: HashFn, arrivals: seq<Request>, span: Span, ws: seq<Waiting>, k: nat)
    requires forall i :: 0 <= i < |arrivals| ==> arrivals[i].ticket == i
    requires MembersAre(h, arrivals, span, ws) && k < |Listeners(ws, |ws|)|
    ensures var w := Listeners(ws, |ws|)[k];
      span.lo <= w.ticket < span.hi <= |arrivals| && w.listening && w == WaitingFor(h, arrivals[w.ticket])
  {
    ListenersShape(ws, span.lo, |ws|);
    var w := Listeners(ws, |ws|)[k];
    assert w in ws;
    var i :| 0 <= i < |ws| && ws[i] == w;
  }

  /** A listening arrival of a batch is among its listeners. */
  lemma MemberIsListener(h: HashFn, arrivals: seq<Request>, span: Span, ws: seq<Waiting>, i: nat) returns (k: nat)
    requires forall i :: 0 <= i < |arrivals| ==> arrivals[i].ticket == i
    requires MembersAre(h, arrivals, span, ws) && span.lo <= i < span.hi && arrivals[i].listening
    ensures k < |Listeners(ws, |ws|)| && Listeners(ws, |ws|)[k].ticket == i
  {
    ListenersComplete(ws, |ws|, i - span.lo);
    k :| 0 <= k < |Listeners(ws, |ws|)| && Listeners(ws, |ws|)[k] == ws[i - span.lo];
  }

  /** Only members of settled batches were answered. */
  lemma UnsettledIsUnanswered(h: HashFn, arrivals: seq<Request>, batchOf: seq<uint32>, settled: set<uint32>,
                              log: seq<Sent>, i: nat)
    requires LogOk(h, arrivals, batchOf, settled, log) && i < |batchOf| && batchOf[i] !in settled
    ensures !Answered(log, i)
  {
    assert forall k :: 0 <= k < |log| ==> SentOk(h, arrivals, batchOf, settled, log[k]);
  }

  /** What a response to an unsettled batch adds to the log. */
  lemma DispatchAdds(h: HashFn, l: Lane, ws: seq<Waiting>, resp: Response) returns (es: seq<Sent>)
    requires SpansOk(l.batchOf, l.spans) && LogOk(h, l.arrivals, l.batchOf, l.settled, l.log)
    requires |l.batchOf| <= |l.arrivals| && forall i :: 0 <= i < |l.arrivals| ==> l.arrivals[i].ticket == i
    requires resp.requestId in l.spans && resp.requestId !in l.settled
    requires MembersAre(h, l.arrivals, l.spans[resp.requestId], ws)
    ensures es == Attempts(Listeners(ws, |ws|), resp)
    ensures forall k :: 0 <= k < |es| ==>
              && SentOk(h, l.arrivals, l.batchOf, l.settled + {resp.requestId}, es[k])
              && !Answered(l.log, es[k].waiter.ticket)
    ensures forall j, k :: 0 <= j < k < |es| ==> es[j].waiter.ticket != es[k].waiter.ticket
    ensures forall i: nat :: i < |l.batchOf| && l.batchOf[i] == resp.requestId && l.arrivals[i].listening ==>
              Answered(es, i)
  {
    var id, span := resp.requestId, l.spans[resp.requestId];
    es := Attempts(Listeners(ws, |ws|), resp);
    ListenersShape(ws, span.lo, |ws|);
    forall k | 0 <= k < |es|
      ensures SentOk(h, l.arrivals, l.batchOf, l.settled + {id}, es[k]) && !Answered(l.log, es[k].waiter.ticket)
    {
      ListenerIsMember(h, l.arrivals, span, ws, k);
      assert l.batchOf[es[k].waiter.ticket] == id;
      UnsettledIsUnanswered(h, l.arrivals, l.batchOf, l.settled, l.log, es[k].waiter.ticket);
    }
    forall i: nat | i < |l.batchOf| && l.batchOf[i] == id && l.arrivals[i].listening
      ensures Answered(es, i)
    {
      var k := MemberIsListener(h, l.arrivals, span, ws, i);
      assert es[k].waiter.ticket == i;
    }
  }

  lemma LogGrows(h: HashFn, arrivals: seq<Request>, batchOf: seq<uint32>, settled: set<uint32>, log: seq<Sent>,
                 id: uint32, es: seq<Sent>)
    requires LogOk(h, arrivals, batchOf, settled, log) && LogComplete(arrivals, batchOf, settled, log)
    requires forall k :: 0 <= k < |es| ==>
               SentOk(h, arrivals, batchOf, settled + {id}, es[k]) && !Answered(log, es[k].waiter.ticket)
    requires forall j, k :: 0 <= j < k < |es| ==> es[j].waiter.ticket != es[k].waiter.ticket
    requires forall i: nat :: i < |batchOf| && batchOf[i] == id && arrivals[i].listening ==> Answered(es, i)
    ensures LogOk(h, arrivals, batchOf, settled + {id}, log + es)
    ensures LogComplete(arrivals, batchOf, settled + {id}, log + es)
  {
    forall i | Answered(log, i) || Answered(es, i)
      ensures Answered(log + es, i)
    {
      AnsweredIn(log, es, i);
    }
    assert forall k :: 0 <= k < |log| ==> SentOk(h, arrivals, batchOf, settled, log[k]);
  }

  lemma AnsweredIn(log: seq<Sent>, es: seq<Sent>, i: nat)
    ensures Answered(log + es, i) <==> Answered(log, i) || Answered(es, i)
  {
    if Answered(log, i) {
      var k :| 0 <= k < |log| && log[k].waiter.ticket == i;
      assert (log + es)[k].waiter.ticket == i;
    } else if Answered(es, i) {
      var k :| 0 <= k < |es| && es[k].waiter.ticket == i;
      assert (log + es)[|log| + k].waiter.ticket == i;
    }
  }

  lemma DispatchKeeps(h: HashFn, topic: Topic, l: Lane)
    requires LaneOk(h, topic, l)
    ensures LaneOk(h, topic, Dispatch(l))
  {
    if Idle(l) && l.responses != [] {
      var resp, l' := l.responses[0], Dispatch(l);
      if resp.requestId in l.buffer.waiting {
        var es := DispatchAdds(h, l, l.buffer.waiting[resp.requestId], resp);
        LogGrows(h, l.arrivals, l.batchOf, l.settled, l.log, resp.requestId, es);
        DeliverFresh(l.mailboxes, es, |es|);
        forall i | i in l'.mailboxes
          ensures Answered(l'.log, i)
        {
          AnsweredIn(l.log, es, i);
        }
      } else {
        assert l'.buffer.waiting == l.buffer.waiting;
        assert l'.log == l.log;
      }
    }
  }

  // ------------------------------------------------------------------ what a dispatch does

  /** The one message to arrival `i` was caused by `resp`. */
  ghost predicate AnsweredOnceBy(log: seq<Sent>, i: nat, resp: Response) {
    exists k :: 0 <= k < |log| && log[k].waiter.ticket == i && log[k].cause == resp
                && forall j :: 0 <= j < |log| && j != k ==> log[j].waiter.ticket != i
  }

  /** Every listening arrival of the span has exactly one message, caused by `resp`, in its channel. */
  ghost predicate AllAnswered(arrivals: seq<Request>, span: Span, mailboxes: set<nat>, log: seq<Sent>, resp: Response) {
    forall i: nat {:trigger AnsweredOnceBy(log, i, resp)} ::
      span.lo <= i < span.hi && i < |arrivals| && arrivals[i].listening ==>
        i in mailboxes && AnsweredOnceBy(log, i, resp)
  }

  /** Batch `id` is waited for no more, every other batch as before. */
  ghost predicate OnlySettles(waiting: map<uint32, seq<Waiting>>, waiting': map<uint32, seq<Waiting>>, id: uint32) {
    && id !in waiting'
    && forall b :: b != id ==>
         (b in waiting' <==> b in waiting) && (b in waiting ==> waiting'[b] == waiting[b])
  }

  /** A dispatched response settles its batch: it is waited for no more, every listening producer of it
      has exactly one message, caused by this response, in its channel, and every other batch still
      waits.  A response no batch waits for changes nothing but the channel it came from. */
  lemma DispatchAnswers(h: HashFn, topic: Topic, l: Lane)
    requires LaneOk(h, topic, l) && Idle(l) && l.responses != []
    ensures var resp, l' := l.responses[0], Dispatch(l);
      if resp.requestId in l.buffer.waiting then
        && resp.requestId in l.spans && resp.requestId in l'.settled
        && OnlySettles(l.buffer.waiting, l'.buffer.waiting, resp.requestId)
        && AllAnswered(l.arrivals, l.spans[resp.requestId], l'.mailboxes, l'.log, resp)
      else l' == l.(responses := l.responses[1..])
  {
    var resp, l' := l.responses[0], Dispatch(l);
    if resp.requestId in l.buffer.waiting {
      var es := DispatchAdds(h, l, l.buffer.waiting[resp.requestId], resp);
      DeliverFresh(l.mailboxes, es, |es|);
      NewMembersAnswered(h, l, es, resp, l'.mailboxes);
    } else {
      assert l'.buffer.waiting == l.buffer.waiting && l'.log == l.log && l'.dropped == l.dropped;
    }
  }

  lemma NewMembersAnswered(h: HashFn, l: Lane, es: seq<Sent>, resp: Response, mailboxes: set<nat>)
    requires SpansOk(l.batchOf, l.spans) && LogOk(h, l.arrivals, l.batchOf, l.settled, l.log)
    requires resp.requestId in l.spans && resp.requestId !in l.settled
    requires forall k :: 0 <= k < |es| ==> es[k].cause == resp && es[k].waiter.ticket in mailboxes
    requires forall j, k :: 0 <= j < k < |es| ==> es[j].waiter.ticket != es[k].waiter.ticket
    requires |l.batchOf| <= |l.arrivals|
    requires forall i: nat :: i < |l.batchOf| && l.batchOf[i] == resp.requestId && l.arrivals[i].listening ==>
               Answered(es, i)
    ensures AllAnswered(l.arrivals, l.spans[resp.requestId], mailboxes, l.log + es, resp)
  {
    var span := l.spans[resp.requestId];
    forall i: nat | span.lo <= i < span.hi && l.arrivals[i].listening
      ensures i in mailboxes && AnsweredOnceBy(l.log + es, i, resp)
    {
      assert l.batchOf[i] == resp.requestId;
      UnsettledIsUnanswered(h, l.arrivals, l.batchOf, l.settled, l.log, i);
      MemberIsAnsweredOnce(l.log, es, i, resp);
    }
  }

  /** Whatever else it does, a dispatch takes the oldest response and leaves the other containers alone. */
  lemma DispatchTakesOldest(l: Lane)
    requires Idle(l) && l.responses != []
    ensures var l' := Dispatch(l);
      && l.responses == [l.responses[0]] + l'.responses && l.log <= l'.log
      && l'.input == l.input && l'.held == l.held && l'.outgoing == l.outgoing && l'.buffer.store == l.buffer.store
      && l'.arrivals == l.arrivals && l'.batchOf == l.batchOf && l'.spans == l.spans
  {
  }

  lemma MemberIsAnsweredOnce(log: seq<Sent>, es: seq<Sent>, i: nat, resp: Response)
    requires Answered(es, i) && !Answered(log, i) && forall k :: 0 <= k < |es| ==> es[k].cause == resp
    requires forall j, k :: 0 <= j < k < |es| ==> es[j].waiter.ticket != es[k].waiter.ticket
    ensures AnsweredOnceBy(log + es, i, resp) && exists k :: 0 <= k < |es| && es[k].waiter.ticket == i
  {
    var k :| 0 <= k < |es| && es[k].waiter.ticket == i;
    var all := log + es;
    assert all[|log| + k] == es[k];
    forall j | 0 <= j < |all| && j != |log| + k
      ensures all[j].waiter.ticket != i
    {
      if j >= |log| {
        assert all[j] == es[j - |log|];
      }
    }
  }

  /** A dispatch is the job buffer's: what it adds to the log are the method's sends, and what it makes of
      the buffer is what the method leaves. */
  lemma DispatchIsTheMethods(h: HashFn, l: Lane)
    requires Idle(l) && l.responses != []
    ensures var resp, l' := l.responses[0], Dispatch(l);
      && l'.buffer == Settled(l.buffer, resp.requestId)
      && l.log <= l'.log && AreSends(h, l'.log[|l.log|..], Sends(h, l.buffer, resp), resp)
  {
    var resp := l.responses[0];
    var es := Attempts(Audience(l.buffer, resp), resp);
    AttemptsAreSends(h, l.buffer, resp);
    assert Dispatch(l).log[|l.log|..] == es;
  }

  lemma EmitKeeps(h: HashFn, topic: Topic, l: Lane)
    requires LaneOk(h, topic, l)
    ensures LaneOk(h, topic, Emit(l))
  {
  }

  lemma PushResponseKeeps(h: HashFn, topic: Topic, l: Lane, resp: Response)
    requires LaneOk(h, topic, l)
    ensures LaneOk(h, topic, PushResponse(l, resp))
  {
  }

  lemma ReadKeeps(h: HashFn, topic: Topic, l: Lane, ticket: nat)
    requires LaneOk(h, topic, l)
    ensures LaneOk(h, topic, Read(l, ticket))
  {
  }

  // ------------------------------------------------------------------ consequences

  ghost predicate WaitsAt(l: Lane, i: nat, id: uint32, k: nat) {
    id in l.buffer.waiting && k < |l.buffer.waiting[id]| && l.buffer.waiting[id][k].ticket == i
  }

  ghost predicate Among(reqs: seq<Request>, i: nat) {
    exists k :: 0 <= k < |reqs| && reqs[k].ticket == i
  }

  ghost predicate IsWaiting(l: Lane, i: nat) {
    exists id: uint32, k: nat :: WaitsAt(l, i, id, k)
  }

  /** The response to its batch has been dispatched. */
  ghost predicate IsDone(l: Lane, i: nat) {
    i < |l.batchOf| && l.batchOf[i] in l.settled
  }

  lemma AmongIff(reqs: seq<Request>, lo: nat, i: nat)
    requires forall k :: 0 <= k < |reqs| ==> reqs[k].ticket == lo + k
    ensures Among(reqs, i) <==> lo <= i < lo + |reqs|
  {
    if lo <= i < lo + |reqs| {
      assert reqs[i - lo].ticket == i;
    }
  }

  /** Tickets number the undrained arrivals in order. */
  lemma TicketsOf(arrivals: seq<Request>, d: nat, store: seq<Request>, held: seq<Request>, input: seq<Request>)
    requires d <= |arrivals| && arrivals[d..] == store + held + input
    requires forall i :: 0 <= i < |arrivals| ==> arrivals[i].ticket == i
    ensures |arrivals| == d + |store| + |held| + |input|
    ensures forall k :: 0 <= k < |store| ==> store[k].ticket == d + k
    ensures forall k :: 0 <= k < |held| ==> held[k].ticket == d + |store| + k
    ensures forall k :: 0 <= k < |input| ==> input[k].ticket == d + |store| + |held| + k
  {
    var rest := arrivals[d..];
    assert forall k :: 0 <= k < |rest| ==> rest[k].ticket == d + k;
    assert forall k :: 0 <= k < |store| ==> store[k] == rest[k];
    assert forall k :: 0 <= k < |held| ==> held[k] == rest[|store| + k];
    assert forall k :: 0 <= k < |input| ==> input[k] == rest[|store| + |held| + k];
  }

  /** Where an arrival that is not drained yet lies, by position. */
  lemma Whereabouts(h: HashFn, topic: Topic, l: Lane, i: nat)
    requires LaneOk(h, topic, l) && i < |l.arrivals|
    ensures var d, n, m := |l.batchOf|, |l.buffer.store|, |Opt(l.held)|;
      && (Among(l.buffer.store, i) <==> d <= i < d + n)
      && (Among(Opt(l.held), i) <==> d + n <= i < d + n + m)
      && (Among(l.input, i) <==> d + n + m <= i)
  {
    var d, n, m := |l.batchOf|, |l.buffer.store|, |Opt(l.held)|;
    TicketsOf(l.arrivals, d, l.buffer.store, Opt(l.held), l.input);
    AmongIff(l.buffer.store, d, i);
    AmongIff(Opt(l.held), d + n, i);
    AmongIff(l.input, d + n + m, i);
  }

  lemma WaitingIffUnsettled(h: HashFn, topic: Topic, l: Lane, i: nat)
    requires LaneOk(h, topic, l) && i < |l.arrivals|
    ensures IsWaiting(l, i) <==> i < |l.batchOf| && l.batchOf[i] !in l.settled
    ensures forall id: uint32, k: nat :: WaitsAt(l, i, id, k) ==>
              i < |l.batchOf| && id == l.batchOf[i] && k == i - l.spans[id].lo
  {
    forall id: uint32, k: nat | WaitsAt(l, i, id, k)
      ensures i < |l.batchOf| && id == l.batchOf[i] && id !in l.settled && k == i - l.spans[id].lo
    {
      assert MembersAre(h, l.arrivals, l.spans[id], l.buffer.waiting[id]);
    }
    if i < |l.batchOf| && l.batchOf[i] !in l.settled {
      var id := l.batchOf[i];
      assert MembersAre(h, l.arrivals, l.spans[id], l.buffer.waiting[id]);
      assert WaitsAt(l, i, id, i - l.spans[id].lo);
    }
  }

  /** Conservation: an accepted request is in exactly one of the input channel, the lane's hand,
      the store, one entry of the waiting map, or answered. */
  lemma ExactlyOnePlace(h: HashFn, topic: Topic, l: Lane, i: nat)
    requires LaneOk(h, topic, l) && i < |l.arrivals|
    ensures Bit(Among(l.input, i)) + Bit(Among(Opt(l.held), i)) + Bit(Among(l.buffer.store, i))
            + Bit(IsWaiting(l, i)) + Bit(IsDone(l, i)) == 1
    ensures forall id, k, id', k' :: WaitsAt(l, i, id, k) && WaitsAt(l, i, id', k') ==> id == id' && k == k'
  {
    Whereabouts(h, topic, l, i);
    WaitingIffUnsettled(h, topic, l, i);
  }

  /** Why batch IDs must be fresh: draining under an ID that is still waiting leaves the earlier
      batch's producers in no container at all, and unanswered. */
  lemma ReusedIdStrandsWaiters(h: HashFn, topic: Topic, l: Lane, id: uint32, i: nat)
    requires LaneOk(h, topic, l) && CanCollect(l) && id in l.buffer.waiting
    requires l.spans[id].lo <= i < l.spans[id].hi
    ensures var l' := Collect(h, l, id);
      !Among(l'.input, i) && !Among(Opt(l'.held), i) && !Among(l'.buffer.store, i)
      && !IsWaiting(l', i) && !Answered(l'.log, i)
  {
    var l' := Collect(h, l, id);
    Whereabouts(h, topic, l, i);
    AnsweredExactlyWhenDone(h, topic, l, i);
    WaitingIffUnsettled(h, topic, l, i);
    assert forall k :: 0 <= k < |l.buffer.store| ==> l'.buffer.waiting[id][k].ticket == l.buffer.store[k].ticket != i;
    assert forall id': uint32, k: nat :: id' != id ==> (WaitsAt(l', i, id', k) <==> WaitsAt(l, i, id', k));
  }

  /** At most one answer: a listening producer's channel gets exactly one message once its batch
      is settled, none before, and no message ever found a channel full. */
  lemma AnsweredExactlyWhenDone(h: HashFn, topic: Topic, l: Lane, i: nat)
    requires LaneOk(h, topic, l) && i < |l.arrivals|
    ensures Answered(l.log, i) <==> IsDone(l, i) && l.arrivals[i].listening
    ensures forall j, k :: 0 <= j < k < |l.log| ==> l.log[j].waiter.ticket != l.log[k].waiter.ticket
    ensures l.dropped == []
  {
    if Answered(l.log, i) {
      var k :| 0 <= k < |l.log| && l.log[k].waiter.ticket == i;
      assert SentOk(h, l.arrivals, l.batchOf, l.settled, l.log[k]);
    }
  }

  /** Every answer stems from a response with the ID of the producer's batch, carries the producer's own
      request ID, hides no failure of its jobs and, when no reported failure collides with one of them,
      is the answer ID attribution gives. */
  lemma AnswersAreTrue(h: HashFn, topic: Topic, l: Lane, k: nat)
    requires LaneOk(h, topic, l) && k < |l.log|
    ensures l.log[k].waiter.ticket < |l.batchOf| <= |l.arrivals|
    ensures l.batchOf[l.log[k].waiter.ticket] == l.log[k].cause.requestId
    ensures var cause, r := l.log[k].cause, l.arrivals[l.log[k].waiter.ticket];
      var answer := Reply(h, l.log[k].waiter, cause);
      && answer.requestId == r.id
      && (answer.status == Success && cause.status != Success ==>
            forall f :: f in cause.failures ==> !Names(r.jobs, f.jobId))
      && ((forall f :: f in cause.failures ==> !Collides(h, r.jobs, f)) ==> answer == IdReply(r, cause))
  {
    assert SentOk(h, l.arrivals, l.batchOf, l.settled, l.log[k]);
    var cause, r := l.log[k].cause, l.arrivals[l.log[k].waiter.ticket];
    if Reply(h, WaitingFor(h, r), cause).status == Success && cause.status != Success {
      forall f | f in cause.failures && Names(r.jobs, f.jobId)
        ensures false
      {
        var i :| 0 <= i < |cause.failures| && cause.failures[i] == f;
        NeverFalseSuccess(h, r, cause, i);
      }
    }
    if forall f :: f in cause.failures ==> !Collides(h, r.jobs, f) {
      ReplyRefinesIdReply(h, r, cause);
    }
  }
}
