/** One incarnation of a topic on the consumer side: the bounded queue, its dispatcher, the
    consumers it serves, and the drain when the last consumer leaves.

    The dispatcher is modelled block by block, so offers, acknowledgements, the write loops and
    even the drain may happen between any two of its steps.  `fates` records what became of each
    accepted job, by its position in acceptance order. */
module TopicQueue {
  import opened Common
  import FC = FlowControl
  import Runs

  datatype ConsumerId = ConsumerId(name: string)

  const QUEUE_CAPACITY := 25_000
  const BATCH_SIZE := 8
  const JOB_TTL: Time := 5000

  datatype QueuedJob = QueuedJob(id: JobId, firstSeen: Time)

  datatype Fate =
    | Pushed(to: ConsumerId, seqId: int)
    | Expired
    | Unmarshalled
    | ChannelFull
    | Discarded

  /** Where the dispatcher is: `i` counts the turns of its batch loop, `n` is the accepted job it
      has taken out of the queue. */
  datatype Phase =
    | Idle
    | Serving(to: ConsumerId, i: nat)
    | Cleared(to: ConsumerId, i: nat)
    | Holding(to: ConsumerId, i: nat, n: nat)
    | Stamped(to: ConsumerId, i: nat, n: nat)

  datatype PushRecord = PushRecord(to: ConsumerId, seqId: int, n: nat)

  datatype State = State(
    queue: seq<QueuedJob>,
    lines: map<ConsumerId, FC.Line>,
    phase: Phase,
    closed: bool,
    accepted: seq<QueuedJob>,      // history: jobs accepted into the queue
    popped: nat,                   // history: how many were taken out again
    fates: map<nat, Fate>,         // history: what became of them
    pushes: seq<PushRecord>)       // history: successful pushes, in order

  const INITIAL := State([], map[], Idle, false, [], 0, map[], [])

  datatype Event =
    | Offer(job: JobId, now: Time)
    | Joins(consumer: ConsumerId, max: nat)
    | Chooses(consumer: ConsumerId)
    | Checks
    | Pops
    | Decides(now: Time)
    | MarshalFails
    | Sends
    | ConsumerAcks(consumer: ConsumerId, upTo: int)
    | WriterTakes(consumer: ConsumerId)
    | Greets(consumer: ConsumerId)
    | Closes
    | DrainPops

  // ------------------------------------------------------------------ steps

  /** A step of consumer `c`'s line, and a new phase of the dispatcher. */
  function Move(s: State, c: ConsumerId, e: FC.Event, p: Phase): State
    requires c in s.lines
  {
    s.(lines := s.lines[c := FC.Step(1, s.lines[c], e)], phase := p)
  }

  function Settle(s: State, n: nat, f: Fate): State {
    s.(fates := s.fates[n := f])
  }

  function Offers(s: State, j: QueuedJob): State {
    if |s.queue| < QUEUE_CAPACITY then s.(queue := s.queue + [j], accepted := s.accepted + [j]) else s
  }

  /** Any consumer with a free slot may be chosen; the source picks one with most free slots. */
  function DoChoose(s: State, c: ConsumerId): State {
    if s.phase.Idle? && c in s.lines && FC.FreeSlots(s.lines[c].c) > 0 then s.(phase := Serving(c, 0)) else s
  }

  function DoCheck(s: State): State {
    if s.phase.Serving? && s.phase.to in s.lines then
      if s.phase.i < BATCH_SIZE && FC.FreeSlots(s.lines[s.phase.to].c) > 0
      then Move(s, s.phase.to, FC.Check, Cleared(s.phase.to, s.phase.i))
      else s.(phase := Idle)
    else s
  }

  function DoPop(s: State): State {
    if s.phase.Cleared? && s.phase.to in s.lines then
      if s.queue == [] then Move(s, s.phase.to, FC.GiveUp, Idle)
      else s.(queue := s.queue[1..], popped := s.popped + 1, phase := Holding(s.phase.to, s.phase.i, s.popped))
    else s
  }

  function DoDecide(s: State, now: Time): State {
    if s.phase.Holding? && s.phase.to in s.lines && s.phase.n < |s.accepted| then
      var c, i, n := s.phase.to, s.phase.i, s.phase.n;
      if now - s.accepted[n].firstSeen > JOB_TTL
      then Settle(Move(s, c, FC.GiveUp, Serving(c, i + 1)), n, Expired)
      else Move(s, c, FC.StampJob(n), Stamped(c, i, n))
    else s
  }

  function DoMarshalFail(s: State): State {
    if s.phase.Stamped? && s.phase.to in s.lines then
      var c, i, n := s.phase.to, s.phase.i, s.phase.n;
      Settle(Move(s, c, FC.MarshalFails(0), Serving(c, i + 1)), n, Unmarshalled)
    else s
  }

  function DoSend(s: State): State {
    if s.phase.Stamped? && s.phase.to in s.lines then
      var c, i, n := s.phase.to, s.phase.i, s.phase.n;
      var l := s.lines[c];
      if FC.HasRoom(l.c) then
        Settle(Move(s, c, FC.Push(0), Serving(c, i + 1)), n, Pushed(c, l.c.lastSent))
          .(pushes := s.pushes + [PushRecord(c, l.c.lastSent, n)])
      else Settle(Move(s, c, FC.Push(0), Idle), n, ChannelFull)
    else s
  }

  function DoDrain(s: State): State {
    if s.closed && s.queue != []
    then Settle(s, s.popped, Discarded).(queue := s.queue[1..], popped := s.popped + 1)
    else s
  }

  function OnLine(s: State, c: ConsumerId, e: FC.Event): State {
    if c in s.lines then Move(s, c, e, s.phase) else s
  }

  function Step(s: State, e: Event): State {
    match e
    case Offer(id, now) => Offers(s, QueuedJob(id, now))
    case Joins(c, max) => if c in s.lines then s else s.(lines := s.lines[c := FC.Start(max)])
    case Chooses(c) => DoChoose(s, c)
    case Checks => DoCheck(s)
    case Pops => DoPop(s)
    case Decides(now) => DoDecide(s, now)
    case MarshalFails => DoMarshalFail(s)
    case Sends => DoSend(s)
    case ConsumerAcks(c, id) => OnLine(s, c, FC.Ack(id))
    case WriterTakes(c) => OnLine(s, c, FC.Write)
    case Greets(c) => OnLine(s, c, FC.Greet)
    case Closes => s.(closed := true)
    case DrainPops => DoDrain(s)
  }

  ghost predicate StepAt(run: seq<Event>, st: seq<State>, i: nat) {
    Runs.StepAt(Step, run, st, i)
  }

  /** `st` are the states a run goes through. */
  ghost predicate IsRun(run: seq<Event>, st: seq<State>) {
    Runs.IsRun(Step, INITIAL, run, st)
  }

  // ------------------------------------------------------------------ invariant

  /** The accepted job the dispatcher has in hand, if any. */
  function HandOf(p: Phase): Option<nat> {
    match p
    case Holding(_, _, n) => Some(n)
    case Stamped(_, _, n) => Some(n)
    case _ => None
  }

  /** What the dispatcher's phase means for one consumer's line. */
  datatype Duty = Off | Committed | Carrying(n: nat)

  function DutyOf(p: Phase, c: ConsumerId): Duty {
    match p
    case Cleared(to, _) => if to == c then Committed else Off
    case Holding(to, _, _) => if to == c then Committed else Off
    case Stamped(to, _, n) => if to == c then Carrying(n) else Off
    case _ => Off
  }

  ghost predicate QueueOk(accepted: seq<QueuedJob>, popped: nat, queue: seq<QueuedJob>) {
    popped <= |accepted| && accepted[popped..] == queue && |queue| <= QUEUE_CAPACITY
  }

  /** Exactly the jobs taken out and not in hand have met a fate. */
  ghost predicate FatesOk(fates: map<nat, Fate>, popped: nat, hand: Option<nat>) {
    && (hand.Some? ==> hand.value < popped)
    && forall n: nat :: n in fates <==> n < popped && hand != Some(n)
  }

  /** The push history is in acceptance order and agrees with the fates. */
  ghost predicate PushesOk(pushes: seq<PushRecord>, fates: map<nat, Fate>, popped: nat, hand: Option<nat>) {
    && (forall k :: 0 <= k < |pushes| ==>
          && pushes[k].n < popped && pushes[k].n in fates
          && fates[pushes[k].n] == Pushed(pushes[k].to, pushes[k].seqId)
          && (hand.Some? ==> pushes[k].n < hand.value))
    && (forall j, k :: 0 <= j < k < |pushes| ==> pushes[j].n < pushes[k].n)
    && (forall n: nat :: n in fates && fates[n].Pushed? ==> exists k :: 0 <= k < |pushes| && pushes[k].n == n)
  }

  ghost predicate LineOk(d: Duty, l: FC.Line) {
    && FC.InOrder(l)
    && l.cleared == (if d.Committed? then 1 else 0)
    && l.inHand == (if d.Carrying? then [FC.Delivery(l.c.lastSent, d.n)] else [])
  }

  /** The deliveries among the first `n` frames. */
  ghost function Deliveries(fs: seq<FC.Frame>, n: nat): seq<FC.Frame>
    requires n <= |fs|
  {
    if n == 0 then []
    else if fs[n - 1].Delivery? then Deliveries(fs, n - 1) + [fs[n - 1]]
    else Deliveries(fs, n - 1)
  }

  /** The pushes to `c` among the first `k`, as frames. */
  ghost function PushesTo(pushes: seq<PushRecord>, c: ConsumerId, k: nat): seq<FC.Frame>
    requires k <= |pushes|
  {
    if k == 0 then []
    else if pushes[k - 1].to == c then PushesTo(pushes, c, k - 1) + [FC.Delivery(pushes[k - 1].seqId, pushes[k - 1].n)]
    else PushesTo(pushes, c, k - 1)
  }

  ghost function Queued(c: FC.Consumer): seq<FC.Frame> {
    c.written + c.writeCh
  }

  /** What ever went into a consumer's channel is exactly what the history says was pushed to it. */
  ghost predicate StreamOk(pushes: seq<PushRecord>, c: ConsumerId, l: FC.Line) {
    Deliveries(Queued(l.c), |Queued(l.c)|) == PushesTo(pushes, c, |pushes|)
  }

  ghost predicate LinesOk(lines: map<ConsumerId, FC.Line>, phase: Phase) {
    && (phase.Idle? || phase.to in lines)
    && forall c {:trigger LineOk(DutyOf(phase, c), lines[c])} :: c in lines ==> LineOk(DutyOf(phase, c), lines[c])
  }

  ghost predicate StreamsOk(lines: map<ConsumerId, FC.Line>, pushes: seq<PushRecord>) {
    forall c {:trigger StreamOk(pushes, c, lines[c])} :: c in lines ==> StreamOk(pushes, c, lines[c])
  }

  /** No push was to a consumer that had not joined. */
  ghost predicate PushedToKnown(lines: map<ConsumerId, FC.Line>, pushes: seq<PushRecord>) {
    forall k :: 0 <= k < |pushes| ==> pushes[k].to in lines
  }

  ghost predicate Inv(s: State) {
    && QueueOk(s.accepted, s.popped, s.queue)
    && FatesOk(s.fates, s.popped, HandOf(s.phase))
    && PushesOk(s.pushes, s.fates, s.popped, HandOf(s.phase))
    && LinesOk(s.lines, s.phase) && StreamsOk(s.lines, s.pushes) && PushedToKnown(s.lines, s.pushes)
  }

  // ------------------------------------------------------------------ steps keep it

  lemma MoveKeepsLines(lines: map<ConsumerId, FC.Line>, c: ConsumerId, e: FC.Event, p: Phase, p': Phase)
    requires LinesOk(lines, p) && c in lines
    requires p'.Idle? || p'.to in lines
    requires forall c' :: c' != c ==> DutyOf(p', c') == DutyOf(p, c')
    requires LineOk(DutyOf(p', c), FC.Step(1, lines[c], e))
    ensures LinesOk(lines[c := FC.Step(1, lines[c], e)], p')
  {
    var lines' := lines[c := FC.Step(1, lines[c], e)];
    forall c' | c' in lines'
      ensures LineOk(DutyOf(p', c'), lines'[c'])
    {
      if c' != c {
        assert LineOk(DutyOf(p, c'), lines[c']);
      }
    }
  }

  lemma {:induction false} DeliveriesPrefix(fs: seq<FC.Frame>, f: FC.Frame, n: nat)
    requires n <= |fs|
    ensures Deliveries(fs + [f], n) == Deliveries(fs, n)
  {
    if n > 0 {
      DeliveriesPrefix(fs, f, n - 1);
    }
  }

  lemma {:induction false} PushesToPrefix(pushes: seq<PushRecord>, p: PushRecord, c: ConsumerId, k: nat)
    requires k <= |pushes|
    ensures PushesTo(pushes + [p], c, k) == PushesTo(pushes, c, k)
  {
    if k > 0 {
      PushesToPrefix(pushes, p, c, k - 1);
    }
  }

  lemma {:induction false} NoPushesTo(pushes: seq<PushRecord>, c: ConsumerId, k: nat)
    requires k <= |pushes| && forall j :: 0 <= j < |pushes| ==> pushes[j].to != c
    ensures PushesTo(pushes, c, k) == []
  {
    if k > 0 {
      NoPushesTo(pushes, c, k - 1);
    }
  }

  /** A line's stream changes only by a push that finds room. */
  lemma StreamAfter(l: FC.Line, e: FC.Event)
    ensures var fs, fs' := Queued(l.c), Queued(FC.Step(1, l, e).c);
      Deliveries(fs', |fs'|) == Deliveries(fs, |fs|) +
        if e.Push? && e.i < |l.inHand| && FC.HasRoom(l.c) && l.inHand[e.i].Delivery? then [l.inHand[e.i]] else []
  {
    var fs, fs' := Queued(l.c), Queued(FC.Step(1, l, e).c);
    if e.Push? && e.i < |l.inHand| && FC.HasRoom(l.c) {
      assert fs' == fs + [l.inHand[e.i]];
      DeliveriesPrefix(fs, l.inHand[e.i], |fs|);
    } else if e.Greet? && !l.greeted && FC.HasRoom(l.c) {
      assert fs' == fs + [FC.Accepted];
      DeliveriesPrefix(fs, FC.Accepted, |fs|);
    } else {
      assert fs' == fs;
    }
  }

  lemma MoveKeepsStreams(lines: map<ConsumerId, FC.Line>, pushes: seq<PushRecord>, c: ConsumerId, e: FC.Event)
    requires StreamsOk(lines, pushes) && c in lines
    requires e.Push? && e.i < |lines[c].inHand| ==> !FC.HasRoom(lines[c].c)
    ensures StreamsOk(lines[c := FC.Step(1, lines[c], e)], pushes)
  {
    assert StreamOk(pushes, c, lines[c]);
    StreamAfter(lines[c], e);
  }

  lemma PushKeepsStreams(lines: map<ConsumerId, FC.Line>, pushes: seq<PushRecord>, c: ConsumerId, n: nat)
    requires StreamsOk(lines, pushes) && c in lines && FC.HasRoom(lines[c].c)
    requires lines[c].inHand == [FC.Delivery(lines[c].c.lastSent, n)]
    ensures StreamsOk(lines[c := FC.Step(1, lines[c], FC.Push(0))], pushes + [PushRecord(c, lines[c].c.lastSent, n)])
  {
    var p := PushRecord(c, lines[c].c.lastSent, n);
    var lines' := lines[c := FC.Step(1, lines[c], FC.Push(0))];
    forall c' | c' in lines'
      ensures StreamOk(pushes + [p], c', lines'[c'])
    {
      assert StreamOk(pushes, c', lines[c']);
      PushesToPrefix(pushes, p, c', |pushes|);
      if c' == c {
        StreamAfter(lines[c], FC.Push(0));
      }
    }
  }

  lemma CheckStep(s: State)
    requires Inv(s)
    ensures Inv(DoCheck(s))
  {
    if s.phase.Serving? {
      var c, i := s.phase.to, s.phase.i;
      if i < BATCH_SIZE && FC.FreeSlots(s.lines[c].c) > 0 {
        assert LineOk(DutyOf(s.phase, c), s.lines[c]);
        FC.StepKeepsInOrder(s.lines[c], FC.Check);
        MoveKeepsLines(s.lines, c, FC.Check, s.phase, Cleared(c, i));
        MoveKeepsStreams(s.lines, s.pushes, c, FC.Check);
      } else {
        RephaseKeepsLines(s.lines, s.phase, Idle);
      }
    }
  }

  lemma RephaseKeepsLines(lines: map<ConsumerId, FC.Line>, p: Phase, p': Phase)
    requires LinesOk(lines, p) && (p'.Idle? || p'.to in lines)
    requires forall c :: DutyOf(p', c) == DutyOf(p, c)
    ensures LinesOk(lines, p')
  {
    forall c | c in lines
      ensures LineOk(DutyOf(p', c), lines[c])
    {
      assert LineOk(DutyOf(p, c), lines[c]);
    }
  }

  lemma ChooseStep(s: State, c: ConsumerId)
    requires Inv(s)
    ensures Inv(DoChoose(s, c))
  {
    if s.phase.Idle? && c in s.lines {
      RephaseKeepsLines(s.lines, s.phase, Serving(c, 0));
    }
  }

  lemma PopStep(s: State)
    requires Inv(s)
    ensures Inv(DoPop(s))
  {
    if s.phase.Cleared? {
      var c, i := s.phase.to, s.phase.i;
      if s.queue == [] {
        assert LineOk(DutyOf(s.phase, c), s.lines[c]);
        FC.StepKeepsInOrder(s.lines[c], FC.GiveUp);
        MoveKeepsLines(s.lines, c, FC.GiveUp, s.phase, Idle);
        MoveKeepsStreams(s.lines, s.pushes, c, FC.GiveUp);
      } else {
        assert s.accepted[s.popped + 1..] == s.accepted[s.popped..][1..];
        RephaseKeepsLines(s.lines, s.phase, Holding(c, i, s.popped));
      }
    }
  }

  lemma SettleKeepsFates(fates: map<nat, Fate>, pushes: seq<PushRecord>, popped: nat, n: nat, f: Fate)
    requires FatesOk(fates, popped, Some(n)) && PushesOk(pushes, fates, popped, Some(n)) && !f.Pushed?
    ensures FatesOk(fates[n := f], popped, None) && PushesOk(pushes, fates[n := f], popped, None)
  {
  }

  lemma DecideStep(s: State, now: Time)
    requires Inv(s)
    ensures Inv(DoDecide(s, now))
  {
    if s.phase.Holding? && s.phase.n < |s.accepted| {
      var c, i, n := s.phase.to, s.phase.i, s.phase.n;
      assert LineOk(DutyOf(s.phase, c), s.lines[c]);
      if now - s.accepted[n].firstSeen > JOB_TTL {
        FC.StepKeepsInOrder(s.lines[c], FC.GiveUp);
        MoveKeepsLines(s.lines, c, FC.GiveUp, s.phase, Serving(c, i + 1));
        MoveKeepsStreams(s.lines, s.pushes, c, FC.GiveUp);
        SettleKeepsFates(s.fates, s.pushes, s.popped, n, Expired);
      } else {
        FC.StepKeepsInOrder(s.lines[c], FC.StampJob(n));
        MoveKeepsLines(s.lines, c, FC.StampJob(n), s.phase, Stamped(c, i, n));
        MoveKeepsStreams(s.lines, s.pushes, c, FC.StampJob(n));
      }
    }
  }

  lemma MarshalFailStep(s: State)
    requires Inv(s)
    ensures Inv(DoMarshalFail(s))
  {
    if s.phase.Stamped? {
      var c, i, n := s.phase.to, s.phase.i, s.phase.n;
      assert LineOk(DutyOf(s.phase, c), s.lines[c]);
      FC.StepKeepsInOrder(s.lines[c], FC.MarshalFails(0));
      MoveKeepsLines(s.lines, c, FC.MarshalFails(0), s.phase, Serving(c, i + 1));
      MoveKeepsStreams(s.lines, s.pushes, c, FC.MarshalFails(0));
      SettleKeepsFates(s.fates, s.pushes, s.popped, n, Unmarshalled);
    }
  }

  lemma PushKeepsPushes(fates: map<nat, Fate>, pushes: seq<PushRecord>, popped: nat, p: PushRecord)
    requires FatesOk(fates, popped, Some(p.n)) && PushesOk(pushes, fates, popped, Some(p.n))
    ensures FatesOk(fates[p.n := Pushed(p.to, p.seqId)], popped, None)
    ensures PushesOk(pushes + [p], fates[p.n := Pushed(p.to, p.seqId)], popped, None)
  {
    var pushes', fates' := pushes + [p], fates[p.n := Pushed(p.to, p.seqId)];
    forall n: nat | n in fates' && fates'[n].Pushed?
      ensures exists k :: 0 <= k < |pushes'| && pushes'[k].n == n
    {
      if n == p.n {
        assert pushes'[|pushes|].n == n;
      } else {
        var k :| 0 <= k < |pushes| && pushes[k].n == n;
        assert pushes'[k].n == n;
      }
    }
  }

  lemma SendStep(s: State)
    requires Inv(s)
    ensures Inv(DoSend(s))
  {
    if s.phase.Stamped? {
      var c, i, n := s.phase.to, s.phase.i, s.phase.n;
      var l := s.lines[c];
      assert LineOk(DutyOf(s.phase, c), l);
      FC.StepKeepsInOrder(l, FC.Push(0));
      if FC.HasRoom(l.c) {
        MoveKeepsLines(s.lines, c, FC.Push(0), s.phase, Serving(c, i + 1));
        PushKeepsStreams(s.lines, s.pushes, c, n);
        PushKeepsPushes(s.fates, s.pushes, s.popped, PushRecord(c, l.c.lastSent, n));
      } else {
        MoveKeepsLines(s.lines, c, FC.Push(0), s.phase, Idle);
        MoveKeepsStreams(s.lines, s.pushes, c, FC.Push(0));
        SettleKeepsFates(s.fates, s.pushes, s.popped, n, ChannelFull);
      }
    }
  }

  lemma LineStep(s: State, c: ConsumerId, e: FC.Event)
    requires Inv(s) && (e.Ack? || e.Write? || e.Greet?)
    ensures Inv(OnLine(s, c, e))
  {
    if c in s.lines {
      assert LineOk(DutyOf(s.phase, c), s.lines[c]);
      FC.StepKeepsInOrder(s.lines[c], e);
      MoveKeepsLines(s.lines, c, e, s.phase, s.phase);
      MoveKeepsStreams(s.lines, s.pushes, c, e);
    }
  }

  lemma JoinStep(s: State, c: ConsumerId, max: nat)
    requires Inv(s) && c !in s.lines
    ensures Inv(s.(lines := s.lines[c := FC.Start(max)]))
  {
    var lines' := s.lines[c := FC.Start(max)];
    NoPushesTo(s.pushes, c, |s.pushes|);
    forall c' | c' in lines'
      ensures LineOk(DutyOf(s.phase, c'), lines'[c']) && StreamOk(s.pushes, c', lines'[c'])
    {
      if c' != c {
        assert LineOk(DutyOf(s.phase, c'), s.lines[c']) && StreamOk(s.pushes, c', s.lines[c']);
      }
    }
  }

  lemma DrainStep(s: State)
    requires Inv(s)
    ensures Inv(DoDrain(s))
  {
    if s.queue != [] {
      assert s.accepted[s.popped + 1..] == s.accepted[s.popped..][1..];
    }
  }

  lemma OfferStep(s: State, j: QueuedJob)
    requires Inv(s)
    ensures Inv(Offers(s, j))
  {
    assert (s.accepted + [j])[s.popped..] == s.accepted[s.popped..] + [j];
  }

  /** The dispatcher's own blocks. */
  ghost predicate OfDispatcher(e: Event) {
    e.Chooses? || e.Checks? || e.Pops? || e.Decides? || e.MarshalFails? || e.Sends?
  }

  lemma DispatcherStep(s: State, e: Event)
    requires Inv(s) && OfDispatcher(e)
    ensures Inv(Step(s, e))
  {
    match e
    case Chooses(c) => ChooseStep(s, c);
    case Checks => CheckStep(s);
    case Pops => PopStep(s);
    case Decides(now) => DecideStep(s, now);
    case MarshalFails => MarshalFailStep(s);
    case Sends => SendStep(s);
  }

  lemma OtherStep(s: State, e: Event)
    requires Inv(s) && !OfDispatcher(e)
    ensures Inv(Step(s, e))
  {
    match e
    case Offer(id, now) => OfferStep(s, QueuedJob(id, now));
    case Joins(c, max) => if c !in s.lines { JoinStep(s, c, max); }
    case ConsumerAcks(c, id) => LineStep(s, c, FC.Ack(id));
    case WriterTakes(c) => LineStep(s, c, FC.Write);
    case Greets(c) => LineStep(s, c, FC.Greet);
    case Closes =>
    case DrainPops => DrainStep(s);
  }

  lemma StepKeepsInv(s: State, e: Event)
    requires Inv(s)
    ensures Inv(Step(s, e))
  {
    if OfDispatcher(e) {
      DispatcherStep(s, e);
    } else {
      OtherStep(s, e);
    }
  }

  lemma {:induction false} RunKeepsInv(run: seq<Event>, st: seq<State>, n: nat)
    requires IsRun(run, st) && n < |st|
    ensures Inv(st[n])
  {
    if n > 0 {
      RunKeepsInv(run, st, n - 1);
      assert StepAt(run, st, n - 1);
      StepKeepsInv(st[n - 1], run[n - 1]);
    }
  }

  // ------------------------------------------------------------------ theorems about runs

  /** Conservation: every accepted job is in the queue, at its place in line, or in the dispatcher's
      hand, or has met exactly one fate. */
  lemma EveryJobIsAccountedFor(run: seq<Event>, st: seq<State>, n: nat, j: nat)
    requires IsRun(run, st) && n < |st| && j < |st[n].accepted|
    ensures var s := st[n];
      && Bit(j >= s.popped) + Bit(HandOf(s.phase) == Some(j)) + Bit(j in s.fates) == 1
      && (j >= s.popped ==> j - s.popped < |s.queue| && s.queue[j - s.popped] == s.accepted[j])
      && |s.queue| == |s.accepted| - s.popped <= QUEUE_CAPACITY
  {
    RunKeepsInv(run, st, n);
    var s := st[n];
    if j >= s.popped {
      assert s.queue[j - s.popped] == s.accepted[s.popped..][j - s.popped];
    }
  }

  lemma StepKeepsFates(s: State, e: Event, j: nat)
    requires Inv(s) && j in s.fates
    ensures j in Step(s, e).fates && Step(s, e).fates[j] == s.fates[j]
  {
  }

  /** A fate, once met, never changes: no job is delivered and also dropped, or delivered twice. */
  lemma {:induction false} FateIsFinal(run: seq<Event>, st: seq<State>, m: nat, n: nat, j: nat)
    requires IsRun(run, st) && m <= n < |st| && j in st[m].fates
    ensures j in st[n].fates && st[n].fates[j] == st[m].fates[j]
    decreases n
  {
    if m < n {
      FateIsFinal(run, st, m, n - 1, j);
      RunKeepsInv(run, st, n - 1);
      assert StepAt(run, st, n - 1);
      StepKeepsFates(st[n - 1], run[n - 1], j);
    }
  }

  /** Pushes happen in acceptance order, and are exactly the jobs whose fate is to be pushed. */
  lemma PushesInAcceptanceOrder(run: seq<Event>, st: seq<State>, n: nat)
    requires IsRun(run, st) && n < |st|
    ensures var s := st[n];
      && (forall j, k :: 0 <= j < k < |s.pushes| ==> s.pushes[j].n < s.pushes[k].n)
      && (forall k :: 0 <= k < |s.pushes| ==>
            s.pushes[k].n in s.fates && s.fates[s.pushes[k].n] == Pushed(s.pushes[k].to, s.pushes[k].seqId))
      && (forall j: nat :: j in s.fates && s.fates[j].Pushed? ==> exists k :: 0 <= k < |s.pushes| && s.pushes[k].n == j)
  {
    RunKeepsInv(run, st, n);
  }

  /** What a consumer was and will be written is exactly, in order, what was pushed to it, under
      strictly increasing sequence IDs. */
  lemma ConsumerStreamIsItsPushes(run: seq<Event>, st: seq<State>, n: nat, c: ConsumerId)
    requires IsRun(run, st) && n < |st| && c in st[n].lines
    ensures var s := st[n];
      var fs := Queued(s.lines[c].c);
      Deliveries(fs, |fs|) == PushesTo(s.pushes, c, |s.pushes|) && FC.Increasing(fs)
  {
    RunKeepsInv(run, st, n);
    var s := st[n];
    var fs, all := Queued(s.lines[c].c), FC.Stream(s.lines[c]);
    assert StreamOk(s.pushes, c, s.lines[c]) && LineOk(DutyOf(s.phase, c), s.lines[c]);
    assert forall i :: 0 <= i < |fs| ==> fs[i] == all[i];
  }

  // ------------------------------------------------------------------ how a job meets its fate

  /** A job is accepted, as it was offered, exactly while fewer than 25,000 are queued. */
  lemma OfferIsAcceptedIffRoom(s: State, id: JobId, now: Time)
    ensures var s' := Step(s, Offer(id, now));
      if |s.queue| < 25000
      then s'.queue == s.queue + [QueuedJob(id, now)] && s'.accepted == s.accepted + [QueuedJob(id, now)]
      else s' == s
  {
  }

  lemma StepKeepsAccepted(s: State, e: Event)
    ensures s.accepted <= Step(s, e).accepted
    ensures Step(s, e).accepted != s.accepted ==>
              e.Offer? && |s.queue| < 25000 && Step(s, e).accepted == s.accepted + [QueuedJob(e.job, e.now)]
  {
  }

  /** An accepted job was offered at some step, and stamped with the clock read there. */
  lemma {:induction false} AcceptedWasOffered(run: seq<Event>, st: seq<State>, n: nat, j: nat) returns (o: nat)
    requires IsRun(run, st) && n < |st| && j < |st[n].accepted|
    ensures o < n && run[o] == Offer(st[n].accepted[j].id, st[n].accepted[j].firstSeen)
    ensures |st[o].accepted| == j && |st[o].queue| < 25000
  {
    assert StepAt(run, st, n - 1);
    StepKeepsAccepted(st[n - 1], run[n - 1]);
    if j < |st[n - 1].accepted| {
      o := AcceptedWasOffered(run, st, n - 1, j);
    } else {
      o := n - 1;
    }
  }

  /** The step that settles a job, and what it makes of it. */
  lemma NewFate(s: State, e: Event, j: nat)
    requires Inv(s) && j !in s.fates && j in Step(s, e).fates
    ensures match Step(s, e).fates[j]
      case Expired =>
        e.Decides? && s.phase.Holding? && s.phase.n == j && j < |s.accepted| && e.now - s.accepted[j].firstSeen > 5000
      case Unmarshalled => e.MarshalFails? && s.phase.Stamped? && s.phase.n == j
      case Pushed(to, seqId) =>
        && e.Sends? && s.phase.Stamped? && s.phase.n == j && s.phase.to == to && to in s.lines
        && |s.lines[to].c.writeCh| < 256 && seqId == s.lines[to].c.lastSent
      case ChannelFull =>
        && e.Sends? && s.phase.Stamped? && s.phase.n == j && s.phase.to in s.lines
        && |s.lines[s.phase.to].c.writeCh| >= 256
      case Discarded => e.DrainPops? && s.closed && s.queue != [] && j == s.popped
  {
  }

  /** At step `m` the dispatcher looks at the age of job `j`. */
  ghost predicate DecidedAt(run: seq<Event>, st: seq<State>, m: nat, j: nat) {
    m < |run| && m < |st| && run[m].Decides? && st[m].phase.Holding? && st[m].phase.n == j && j < |st[m].accepted|
  }

  ghost function AgeAt(run: seq<Event>, st: seq<State>, m: nat, j: nat): int
    requires DecidedAt(run, st, m, j)
  {
    run[m].now - st[m].accepted[j].firstSeen
  }

  lemma StepStamps(s: State, e: Event)
    requires Inv(s) && Step(s, e).phase.Stamped?
    ensures s.phase == Step(s, e).phase ||
            (&& e.Decides? && s.phase.Holding? && s.phase.n == Step(s, e).phase.n && s.phase.n < |s.accepted|
             && e.now - s.accepted[s.phase.n].firstSeen <= 5000)
  {
  }

  lemma {:induction false} StampedWasYoung(run: seq<Event>, st: seq<State>, n: nat) returns (m: nat)
    requires IsRun(run, st) && n < |st| && st[n].phase.Stamped?
    ensures m < n && DecidedAt(run, st, m, st[n].phase.n) && AgeAt(run, st, m, st[n].phase.n) <= 5000
  {
    if n > 0 {
      RunKeepsInv(run, st, n - 1);
      assert StepAt(run, st, n - 1);
      StepStamps(st[n - 1], run[n - 1]);
      if st[n - 1].phase == st[n].phase {
        m := StampedWasYoung(run, st, n - 1);
      } else {
        m := n - 1;
      }
    }
  }

  /** Expiry, exactly: every job that a drain did not discard was looked at once it was taken, and expired
      if and only if it was more than five seconds old then. */
  lemma {:induction false} ExpiredIffOld(run: seq<Event>, st: seq<State>, n: nat, j: nat) returns (m: nat)
    requires IsRun(run, st) && n < |st| && j in st[n].fates && st[n].fates[j] != Discarded
    ensures m < n && DecidedAt(run, st, m, j)
    ensures st[n].fates[j] == Expired <==> AgeAt(run, st, m, j) > 5000
  {
    if n > 0 {
      RunKeepsInv(run, st, n - 1);
      assert StepAt(run, st, n - 1);
      if j in st[n - 1].fates {
        StepKeepsFates(st[n - 1], run[n - 1], j);
        m := ExpiredIffOld(run, st, n - 1, j);
      } else {
        NewFate(st[n - 1], run[n - 1], j);
        if st[n].fates[j] == Expired {
          m := n - 1;
        } else {
          m := StampedWasYoung(run, st, n - 1);
        }
      }
    }
  }

  // ------------------------------------------------------------------ nothing lost at the channel

  /** The event asks each line only for what honest consumers do. */
  ghost predicate HonestStep(s: State, e: Event) {
    && (e.ConsumerAcks? && e.consumer in s.lines ==> FC.HonestAck(s.lines[e.consumer], FC.Ack(e.upTo)))
    && (e.Joins? ==> e.max < FC.WRITE_CAPACITY)
  }

  ghost predicate AllSafe(s: State) {
    && (forall c {:trigger FC.Safe(s.lines[c])} :: c in s.lines ==> FC.Safe(s.lines[c]))
    && forall j: nat :: j in s.fates ==> s.fates[j] != ChannelFull
  }

  lemma MoveKeepsSafe(s: State, c: ConsumerId, e: FC.Event, p: Phase)
    requires AllSafe(s) && c in s.lines && FC.HonestAck(s.lines[c], e)
    ensures AllSafe(Move(s, c, e, p))
  {
    assert FC.Safe(s.lines[c]);
    FC.StepKeepsSafe(s.lines[c], e);
    var s' := Move(s, c, e, p);
    forall c' | c' in s'.lines
      ensures FC.Safe(s'.lines[c'])
    {
      if c' != c {
        assert FC.Safe(s.lines[c']);
      }
    }
  }

  lemma SettleKeepsSafe(s: State, n: nat, f: Fate)
    requires AllSafe(s) && f != ChannelFull
    ensures AllSafe(Settle(s, n, f))
  {
    forall c | c in s.lines
      ensures FC.Safe(Settle(s, n, f).lines[c])
    {
      assert FC.Safe(s.lines[c]);
    }
  }

  lemma SendKeepsSafe(s: State)
    requires Inv(s) && AllSafe(s) && s.phase.Stamped?
    ensures AllSafe(DoSend(s))
  {
    var c, i, n := s.phase.to, s.phase.i, s.phase.n;
    var l := s.lines[c];
    assert LineOk(DutyOf(s.phase, c), l) && FC.Safe(l);
    FC.RoomForJobInHand(l);
    MoveKeepsSafe(s, c, FC.Push(0), Serving(c, i + 1));
    var s' := Move(s, c, FC.Push(0), Serving(c, i + 1));
    SettleKeepsSafe(s', n, Pushed(c, l.c.lastSent));
    SameLinesSafe(Settle(s', n, Pushed(c, l.c.lastSent)), DoSend(s));
  }

  lemma SameLinesSafe(s: State, s': State)
    requires AllSafe(s) && s'.lines == s.lines && s'.fates == s.fates
    ensures AllSafe(s')
  {
    forall c | c in s'.lines
      ensures FC.Safe(s'.lines[c])
    {
      assert FC.Safe(s.lines[c]);
    }
  }

  lemma JoinKeepsSafe(s: State, c: ConsumerId, max: nat)
    requires AllSafe(s) && c !in s.lines && max < FC.WRITE_CAPACITY
    ensures AllSafe(s.(lines := s.lines[c := FC.Start(max)]))
  {
    var s' := s.(lines := s.lines[c := FC.Start(max)]);
    forall c' | c' in s'.lines
      ensures FC.Safe(s'.lines[c'])
    {
      if c' != c {
        assert FC.Safe(s.lines[c']);
      }
    }
  }

  lemma DecideKeepsSafe(s: State, now: Time)
    requires AllSafe(s) && s.phase.Holding? && s.phase.to in s.lines && s.phase.n < |s.accepted|
    ensures AllSafe(DoDecide(s, now))
  {
    var c, i, n := s.phase.to, s.phase.i, s.phase.n;
    if now - s.accepted[n].firstSeen > JOB_TTL {
      MoveKeepsSafe(s, c, FC.GiveUp, Serving(c, i + 1));
      SettleKeepsSafe(Move(s, c, FC.GiveUp, Serving(c, i + 1)), n, Expired);
    } else {
      MoveKeepsSafe(s, c, FC.StampJob(n), Stamped(c, i, n));
    }
  }

  lemma StepKeepsSafe(s: State, e: Event)
    requires Inv(s) && AllSafe(s) && HonestStep(s, e)
    ensures AllSafe(Step(s, e))
  {
    match e
    case Joins(c, max) => if c !in s.lines { JoinKeepsSafe(s, c, max); }
    case Checks =>
      if s.phase.Serving? {
        MoveKeepsSafe(s, s.phase.to, FC.Check, Cleared(s.phase.to, s.phase.i));
        SameLinesSafe(s, s.(phase := Idle));
      }
    case Pops =>
      if s.phase.Cleared? {
        MoveKeepsSafe(s, s.phase.to, FC.GiveUp, Idle);
        if s.queue != [] {
          SameLinesSafe(s, DoPop(s));
        }
      }
    case Decides(now) =>
      if s.phase.Holding? && s.phase.n < |s.accepted| {
        DecideKeepsSafe(s, now);
      }
    case MarshalFails =>
      if s.phase.Stamped? {
        var c, p := s.phase.to, Serving(s.phase.to, s.phase.i + 1);
        MoveKeepsSafe(s, c, FC.MarshalFails(0), p);
        SettleKeepsSafe(Move(s, c, FC.MarshalFails(0), p), s.phase.n, Unmarshalled);
      }
    case Sends => if s.phase.Stamped? { SendKeepsSafe(s); }
    case ConsumerAcks(c, id) => if c in s.lines { MoveKeepsSafe(s, c, FC.Ack(id), s.phase); }
    case WriterTakes(c) => if c in s.lines { MoveKeepsSafe(s, c, FC.Write, s.phase); }
    case Greets(c) => if c in s.lines { MoveKeepsSafe(s, c, FC.Greet, s.phase); }
    case DrainPops =>
      SettleKeepsSafe(s, s.popped, Discarded);
      if s.closed && s.queue != [] {
        SameLinesSafe(Settle(s, s.popped, Discarded), DoDrain(s));
      }
    case _ => SameLinesSafe(s, Step(s, e));
  }

  /** With MaxInflights at most 255 and consumers that acknowledge only what they were sent, no job
      is ever lost to a full write channel, under any interleaving. */
  lemma {:induction false} NoJobLostAtChannel(run: seq<Event>, st: seq<State>, n: nat, j: nat)
    requires IsRun(run, st) && n < |st|
    requires forall i :: 0 <= i < |run| ==> HonestStep(st[i], run[i])
    ensures AllSafe(st[n])
    ensures j in st[n].fates ==> st[n].fates[j] != ChannelFull
  {
    if n > 0 {
      NoJobLostAtChannel(run, st, n - 1, j);
      RunKeepsInv(run, st, n - 1);
      assert StepAt(run, st, n - 1);
      StepKeepsSafe(st[n - 1], run[n - 1]);
    }
  }

  // ------------------------------------------------------------------ the dispatcher's batch loop

  /** A consumer being served from a queue: `fates` are those of the jobs taken so far. */
  datatype Round = Round(c: FC.Consumer, queue: seq<QueuedJob>, fates: seq<Fate>)

  /** What one turn does with job number `n`: the consumer afterwards, and the job's fate. */
  function Attempt(c: FC.Consumer, to: ConsumerId, n: nat, job: QueuedJob, now: Time,
                   marshals: bool): (FC.Consumer, Fate) {
    if now - job.firstSeen > JOB_TTL then (c, Expired)
    else
      var c' := FC.Stamped(c);
      if !marshals then (c', Unmarshalled)
      else if FC.HasRoom(c') then (FC.TrySend(c', FC.Delivery(c'.lastSent, n)), Pushed(to, c'.lastSent))
      else (c', ChannelFull)
  }

  /** One turn on a nonempty queue; `b` is the number of the first job of the round. */
  function Turn(r: Round, to: ConsumerId, b: nat, now: Time, marshals: bool): (r': Round)
    requires r.queue != []
    ensures |r'.fates| == |r.fates| + 1
  {
    var (c, fate) := Attempt(r.c, to, b + |r.fates|, r.queue[0], now, marshals);
    Round(c, r.queue[1..], r.fates + [fate])
  }

  /** A clock reading and the outcome of marshalling, for each turn of the loop. */
  datatype Chance = Chance(clock: nat -> Time, marshals: nat -> bool)

  /** The batch loop from turn `i` on, with nothing else happening meanwhile. */
  function Serve(r: Round, to: ConsumerId, b: nat, i: nat, ch: Chance): Round
    decreases BATCH_SIZE - i
  {
    if i >= BATCH_SIZE || FC.FreeSlots(r.c) <= 0 || r.queue == [] then r
    else
      var r' := Turn(r, to, b, ch.clock(i), ch.marshals(i));
      if r'.fates[|r.fates|] == ChannelFull then r' else Serve(r', to, b, i + 1, ch)
  }

  /** Sending one job to a consumer. */
  method SendOne(consumer: FC.ConsumerConn, to: ConsumerId, n: nat, job: QueuedJob, now: Time, marshals: bool)
    returns (fate: Fate)
    modifies consumer
    ensures (consumer.View(), fate) == Attempt(old(consumer.View()), to, n, job, now, marshals)
  {
    if now - job.firstSeen > JOB_TTL {
      return Expired;
    }
    var seqId := consumer.OnJobSent();
    if !marshals {
      return Unmarshalled;
    }
    var ok := consumer.TryWrite(FC.Delivery(seqId, n));
    fate := if ok then Pushed(to, seqId) else ChannelFull;
  }

  /** What turn `i` does to the loop: it ends it with round `r'`, or leaves `r'` to the next turn. */
  ghost predicate TurnDoes(r: Round, r': Round, done: bool, to: ConsumerId, b: nat, i: nat, ch: Chance) {
    if FC.FreeSlots(r.c) <= 0 || r.queue == [] then done && r' == r
    else r' == Turn(r, to, b, ch.clock(i), ch.marshals(i)) && (done <==> r'.fates[|r.fates|] == ChannelFull)
  }

  lemma TurnServes(r: Round, r': Round, done: bool, to: ConsumerId, b: nat, i: nat, ch: Chance)
    requires i < BATCH_SIZE && TurnDoes(r, r', done, to, b, i, ch)
    ensures Serve(r, to, b, i, ch) == if done then r' else Serve(r', to, b, i + 1, ch)
  {
  }

  /** The body of the loop: no credit or no job ends it, and so does a full channel. */
  method TakeTurn(consumer: FC.ConsumerConn, to: ConsumerId, queue: seq<QueuedJob>, fates: seq<Fate>, b: nat,
                  i: nat, ch: Chance)
    returns (rest: seq<QueuedJob>, more: seq<Fate>, done: bool)
    modifies consumer
    ensures TurnDoes(Round(old(consumer.View()), queue, fates), Round(consumer.View(), rest, more), done, to, b, i, ch)
  {
    if consumer.GetFreeSlots() <= 0 || queue == [] {
      return queue, fates, true;
    }
    var fate := SendOne(consumer, to, b + |fates|, queue[0], ch.clock(i), ch.marshals(i));
    rest, more, done := queue[1..], fates + [fate], fate == ChannelFull;
  }

  /** The batch loop; `b` numbers the job at the head of the queue. */
  method SendBatch(consumer: FC.ConsumerConn, to: ConsumerId, queue: seq<QueuedJob>, b: nat, ch: Chance)
    returns (rest: seq<QueuedJob>, fates: seq<Fate>)
    modifies consumer
    ensures Round(consumer.View(), rest, fates) == Serve(Round(old(consumer.View()), queue, []), to, b, 0, ch)
  {
    rest, fates := queue, [];
    ghost var result := Serve(Round(consumer.View(), rest, fates), to, b, 0, ch);
    var i, done := 0, false;
    while i < BATCH_SIZE && !done
      invariant 0 <= i <= BATCH_SIZE
      invariant var r := Round(consumer.View(), rest, fates);
        result == if done then r else Serve(r, to, b, i, ch)
    {
      ghost var r := Round(consumer.View(), rest, fates);
      rest, fates, done := TakeTurn(consumer, to, rest, fates, b, i, ch);
      TurnServes(r, Round(consumer.View(), rest, fates), done, to, b, i, ch);
      i := i + 1;
    }
  }

  /** `taken` jobs went from the head of the queue, each to a fate. */
  ghost predicate Took(r: Round, r': Round, taken: nat) {
    taken <= |r.queue| && r'.queue == r.queue[taken..] && |r'.fates| == |r.fates| + taken
  }

  ghost predicate WithinCredit(c: FC.Consumer) {
    c.lastSent <= c.lastAck + c.max
  }

  /** From `r` to `r'` the loop took `taken` jobs, and sent no more than these, within the credit. */
  ghost predicate Bounded(r: Round, r': Round, taken: nat) {
    && Took(r, r', taken) && WithinCredit(r'.c) && r'.c.lastSent <= r.c.lastSent + taken
    && r'.c.lastAck == r.c.lastAck && r'.c.max == r.c.max
  }

  lemma TurnBounds(r: Round, r': Round, done: bool, to: ConsumerId, b: nat, i: nat, ch: Chance) returns (taken: nat)
    requires TurnDoes(r, r', done, to, b, i, ch) && WithinCredit(r.c)
    ensures Bounded(r, r', taken) && taken <= 1
  {
    taken := |r'.fates| - |r.fates|;
  }

  lemma BoundedTwice(r: Round, r': Round, r'': Round, m: nat, n: nat)
    requires Bounded(r, r', m) && Bounded(r', r'', n)
    ensures Bounded(r, r'', m + n)
  {
    assert r.queue[m..][n..] == r.queue[m + n..];
  }

  /** An uninterrupted loop takes the queue's head in order, at most one job a turn, and never sends
      beyond the credit. */
  lemma {:induction false} ServeBounds(r: Round, to: ConsumerId, b: nat, i: nat, ch: Chance) returns (taken: nat)
    requires i <= BATCH_SIZE && WithinCredit(r.c)
    ensures Bounded(r, Serve(r, to, b, i, ch), taken) && taken <= 8 - i
    decreases BATCH_SIZE - i
  {
    if i < BATCH_SIZE && FC.FreeSlots(r.c) > 0 && r.queue != [] {
      var r' := Turn(r, to, b, ch.clock(i), ch.marshals(i));
      var done := r'.fates[|r.fates|] == ChannelFull;
      taken := TurnBounds(r, r', done, to, b, i, ch);
      TurnServes(r, r', done, to, b, i, ch);
      if !done {
        var more := ServeBounds(r', to, b, i + 1, ch);
        BoundedTwice(r, r', Serve(r', to, b, i + 1, ch), taken, more);
        taken := taken + more;
      }
    } else {
      taken := 0;
    }
  }

  /** The machine's state and a round that began with job `b` agree. */
  ghost predicate Shows(s: State, r: Round, to: ConsumerId, b: nat) {
    && to in s.lines && s.lines[to].c == r.c && s.queue == r.queue
    && s.popped == b + |r.fates|
    && forall j :: 0 <= j < |r.fates| ==> b + j in s.fates && s.fates[b + j] == r.fates[j]
  }

  /** The check and the pop: the head of the queue is in hand, and nothing else has changed. */
  lemma TakeIsSteps(s: State, to: ConsumerId, i: nat)
    requires Inv(s) && s.phase == Serving(to, i)
    requires i < BATCH_SIZE && FC.FreeSlots(s.lines[to].c) > 0 && s.queue != []
    ensures var s2, l := DoPop(DoCheck(s)), s.lines[to];
      && s2.phase == Holding(to, i, s.popped) && to in s2.lines
      && l.inHand == [] && l.cleared == 0 && s2.lines[to] == l.(cleared := 1)
      && s2.queue == s.queue[1..] && s2.popped == s.popped + 1
      && s2.accepted == s.accepted && s.popped < |s.accepted| && s.accepted[s.popped] == s.queue[0]
      && s2.fates == s.fates
  {
    assert LineOk(DutyOf(s.phase, to), s.lines[to]);
    assert s.accepted[s.popped..][0] == s.queue[0];
  }

  /** The job in hand expires, fails to marshal, or is sent. */
  function Finish(s: State, now: Time, marshals: bool): State {
    Step(Step(s, Decides(now)), if marshals then Sends else MarshalFails)
  }

  /** A stamped job meets its fate. */
  lemma SettleStamped(s: State, to: ConsumerId, i: nat, n: nat, marshals: bool)
    requires s.phase == Stamped(to, i, n) && to in s.lines
    requires s.lines[to].inHand == [FC.Delivery(s.lines[to].c.lastSent, n)]
    ensures var c, s' := s.lines[to].c, if marshals then DoSend(s) else DoMarshalFail(s);
      && to in s'.lines && s'.queue == s.queue && s'.popped == s.popped
      && s'.lines[to].c == (if marshals then FC.TrySend(c, FC.Delivery(c.lastSent, n)) else c)
      && s'.fates == s.fates[n := if !marshals then Unmarshalled
                                  else if FC.HasRoom(c) then Pushed(to, c.lastSent)
                                  else ChannelFull]
      && s'.phase == if marshals && !FC.HasRoom(c) then Idle else Serving(to, i + 1)
  {
  }

  lemma FinishIsSteps(s: State, l: FC.Line, to: ConsumerId, i: nat, n: nat, job: QueuedJob, now: Time, marshals: bool)
    requires s.phase == Holding(to, i, n) && to in s.lines && s.lines[to] == l.(cleared := 1)
    requires l.inHand == [] && l.cleared == 0 && n < |s.accepted| && s.accepted[n] == job
    ensures var (c, fate) := Attempt(l.c, to, n, job, now, marshals);
      var s' := Finish(s, now, marshals);
      && to in s'.lines && s'.lines[to].c == c && s'.queue == s.queue && s'.popped == s.popped
      && s'.fates == s.fates[n := fate]
      && s'.phase == if fate == ChannelFull then Idle else Serving(to, i + 1)
  {
    var s3 := DoDecide(s, now);
    if now - job.firstSeen <= JOB_TTL {
      assert s3.lines[to] == l.(c := FC.Stamped(l.c), inHand := [FC.Delivery(l.c.lastSent + 1, n)]);
      SettleStamped(s3, to, i, n, marshals);
    }
  }

  /** One turn of the loop is four steps of the machine, the last one idle if the job expired. */
  lemma TurnIsSteps(s: State, r: Round, to: ConsumerId, b: nat, i: nat, now: Time, marshals: bool)
    requires Inv(s) && Shows(s, r, to, b) && s.phase == Serving(to, i)
    requires i < BATCH_SIZE && FC.FreeSlots(r.c) > 0 && r.queue != []
    ensures var r', s' := Turn(r, to, b, now, marshals), Finish(DoPop(DoCheck(s)), now, marshals);
      && Shows(s', r', to, b)
      && s'.phase == if r'.fates[|r.fates|] == ChannelFull then Idle else Serving(to, i + 1)
  {
    TakeIsSteps(s, to, i);
    FinishIsSteps(DoPop(DoCheck(s)), s.lines[to], to, i, s.popped, s.queue[0], now, marshals);
  }

  /** The check, or the pop after it, ends the loop. */
  lemma LoopEnds(s: State, r: Round, to: ConsumerId, b: nat, i: nat)
    requires Inv(s) && Shows(s, r, to, b) && s.phase == Serving(to, i)
    requires i >= BATCH_SIZE || FC.FreeSlots(r.c) <= 0 || r.queue == []
    ensures var s' := Step(Step(s, Checks), Pops);
      Shows(s', r, to, b) && s'.phase == Idle
  {
    assert LineOk(DutyOf(s.phase, to), s.lines[to]);
  }

  /** An uninterrupted batch loop is a run of the machine: from any reachable state at one of its
      checks, the machine can go on to the state the loop leaves behind, where every job the loop
      took has met the fate the loop gave it. */
  lemma {:induction false} ServeIsRun(run: seq<Event>, st: seq<State>, r: Round, to: ConsumerId, b: nat, i: nat,
                                      ch: Chance)
    returns (run': seq<Event>, st': seq<State>)
    requires IsRun(run, st) && Shows(st[|run|], r, to, b) && st[|run|].phase == Serving(to, i)
    ensures IsRun(run', st') && run <= run'
    ensures Shows(st'[|run'|], Serve(r, to, b, i, ch), to, b) && st'[|run'|].phase == Idle
    decreases BATCH_SIZE - i
  {
    RunKeepsInv(run, st, |run|);
    if i < BATCH_SIZE && FC.FreeSlots(r.c) > 0 && r.queue != [] {
      var now, marshals := ch.clock(i), ch.marshals(i);
      TurnIsSteps(st[|run|], r, to, b, i, now, marshals);
      run', st' := ExtendByTurn(run, st, now, marshals);
      var r' := Turn(r, to, b, now, marshals);
      if r'.fates[|r.fates|] != ChannelFull {
        run', st' := ServeIsRun(run', st', r', to, b, i + 1, ch);
      }
    } else {
      LoopEnds(st[|run|], r, to, b, i);
      run', st' := Runs.Extend(Step, INITIAL, run, st, Checks);
      run', st' := Runs.Extend(Step, INITIAL, run', st', Pops);
    }
  }

  lemma ExtendByTurn(run: seq<Event>, st: seq<State>, now: Time, marshals: bool)
    returns (run': seq<Event>, st': seq<State>)
    requires IsRun(run, st)
    ensures IsRun(run', st') && run <= run'
    ensures st'[|run'|] == Finish(DoPop(DoCheck(st[|run|])), now, marshals)
  {
    run', st' := Runs.Extend(Step, INITIAL, run, st, Checks);
    run', st' := Runs.Extend(Step, INITIAL, run', st', Pops);
    run', st' := Runs.Extend(Step, INITIAL, run', st', Decides(now));
    run', st' := Runs.Extend(Step, INITIAL, run', st', if marshals then Sends else MarshalFails);
  }

  // ------------------------------------------------------------------ progress

  /** Another consumer's line is not touched. */
  ghost predicate OnlyLine(s: State, s': State, c: ConsumerId) {
    && (forall d :: d in s.lines && d != c ==> d in s'.lines && s'.lines[d] == s.lines[d])
    && c in s'.lines && s'.queue == s.queue && s'.fates == s.fates && s'.pushes == s.pushes && s'.phase == s.phase
  }

  /** A consumer joins with its full credit and an empty channel. */
  lemma ConsumerJoins(s: State, c: ConsumerId, max: nat)
    requires c !in s.lines
    ensures var s' := Step(s, Joins(c, max));
      && OnlyLine(s, s', c) && FC.FreeSlots(s'.lines[c].c) == max
      && s'.lines[c].c.lastSent == 0 && s'.lines[c].c.writeCh == [] && !s'.lines[c].greeted
  {
  }

  /** An acknowledgement raises the acknowledged ID, and concerns this consumer alone. */
  lemma ConsumerAcknowledges(s: State, c: ConsumerId, upTo: int)
    requires c in s.lines
    ensures var s', l := Step(s, ConsumerAcks(c, upTo)), s.lines[c].c;
      && OnlyLine(s, s', c) && s'.lines[c].c.lastSent == l.lastSent && s'.lines[c].c.writeCh == l.writeCh
      && s'.lines[c].c.lastAck == if upTo > l.lastAck then upTo else l.lastAck
  {
  }

  /** The write loop takes the oldest frame. */
  lemma OldestFrameIsWritten(s: State, c: ConsumerId)
    requires c in s.lines && s.lines[c].c.writeCh != []
    ensures var s', l := Step(s, WriterTakes(c)), s.lines[c].c;
      && OnlyLine(s, s', c) && s'.lines[c].c.written == l.written + [l.writeCh[0]]
      && l.writeCh == [l.writeCh[0]] + s'.lines[c].c.writeCh
  {
  }

  /** The greeting is queued once, if there is room. */
  lemma GreetingIsQueued(s: State, c: ConsumerId)
    requires c in s.lines
    ensures var s', l := Step(s, Greets(c)), s.lines[c];
      && OnlyLine(s, s', c)
      && if !l.greeted && |l.c.writeCh| < 256
         then s'.lines[c].greeted && s'.lines[c].c.writeCh == l.c.writeCh + [FC.Accepted]
         else s'.lines[c] == l
  {
  }

  /** `s'` is `s` after its oldest job was pushed to `c`. */
  ghost predicate Delivered(s: State, s': State, c: ConsumerId) {
    && s.queue != [] && s'.queue == s.queue[1..] && c in s.lines && c in s'.lines
    && s'.pushes == s.pushes + [PushRecord(c, s.lines[c].c.lastSent + 1, s.popped)]
    && s'.lines[c].c.lastSent == s.lines[c].c.lastSent + 1
    && s'.lines[c].c.writeCh == s.lines[c].c.writeCh + [FC.Delivery(s.lines[c].c.lastSent + 1, s.popped)]
  }

  /** A young job at the head of the queue can be delivered to any consumer with credit and room: from any
      reachable state between two batches the machine goes on to push exactly this job, under the next
      sequence ID, behind the frames already queued. */
  lemma HeadCanBeDelivered(run: seq<Event>, st: seq<State>, c: ConsumerId, now: Time)
    returns (run': seq<Event>, st': seq<State>)
    requires IsRun(run, st) && st[|run|].phase == Idle && c in st[|run|].lines && st[|run|].queue != []
    requires var l := st[|run|].lines[c].c; l.lastSent - l.lastAck < l.max && |l.writeCh| < 256
    requires now - st[|run|].queue[0].firstSeen <= 5000
    ensures IsRun(run', st') && run <= run' && Delivered(st[|run|], st'[|run'|], c)
  {
    RunKeepsInv(run, st, |run|);
    HeadIsDelivered(st[|run|], c, now);
    run', st' := Runs.Extend(Step, INITIAL, run, st, Chooses(c));
    run', st' := ExtendByTurn(run', st', now, true);
  }

  lemma HeadIsDelivered(s: State, c: ConsumerId, now: Time)
    requires Inv(s) && s.phase == Idle && c in s.lines && s.queue != [] && now - s.queue[0].firstSeen <= 5000
    requires s.lines[c].c.lastSent - s.lines[c].c.lastAck < s.lines[c].c.max && |s.lines[c].c.writeCh| < 256
    ensures Delivered(s, Finish(DoPop(DoCheck(DoChoose(s, c))), now, true), c)
  {
    ChooseStep(s, c);
    TakeIsSteps(DoChoose(s, c), c, 0);
    DeliverStep(DoPop(DoCheck(DoChoose(s, c))), s.lines[c], c, s.popped, s.queue[0], now);
  }

  lemma DeliverStep(s: State, l: FC.Line, to: ConsumerId, n: nat, job: QueuedJob, now: Time)
    requires s.phase == Holding(to, 0, n) && to in s.lines && s.lines[to] == l.(cleared := 1)
    requires l.inHand == [] && l.cleared == 0 && n < |s.accepted| && s.accepted[n] == job
    requires now - job.firstSeen <= 5000 && |l.c.writeCh| < 256
    ensures var s' := DoSend(DoDecide(s, now));
      && to in s'.lines && s'.queue == s.queue
      && s'.pushes == s.pushes + [PushRecord(to, l.c.lastSent + 1, n)]
      && s'.lines[to].c.lastSent == l.c.lastSent + 1
      && s'.lines[to].c.writeCh == l.c.writeCh + [FC.Delivery(l.c.lastSent + 1, n)]
  {
    assert DoDecide(s, now).lines[to] == l.(c := FC.Stamped(l.c), inHand := [FC.Delivery(l.c.lastSent + 1, n)]);
  }

  /** A drain empties the queue: from any reachable state the machine can go on until nothing is queued,
      every job that was queued having been discarded. */
  lemma {:induction false} DrainEmpties(run: seq<Event>, st: seq<State>) returns (run': seq<Event>, st': seq<State>)
    requires IsRun(run, st)
    ensures IsRun(run', st') && run <= run' && st <= st' && st'[|run'|].queue == []
    ensures var s, s' := st[|run|], st'[|run'|];
      && s'.popped == s.popped + |s.queue| && s'.lines == s.lines && s'.pushes == s.pushes
      && forall j: nat :: s.popped <= j < s'.popped ==> j in s'.fates && s'.fates[j] == Discarded
    decreases |st[|run|].queue|
  {
    var s := st[|run|];
    if s.queue == [] {
      run', st' := run, st;
    } else {
      run', st' := Runs.Extend(Step, INITIAL, run, st, Closes);
      run', st' := Runs.Extend(Step, INITIAL, run', st', DrainPops);
      var m, s1 := |run'|, st'[|run'|];
      run', st' := DrainEmpties(run', st');
      assert st'[m] == s1;
      FateIsFinal(run', st', m, |run'|, s.popped);
    }
  }
}
