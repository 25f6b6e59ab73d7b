/** Credit-based flow control towards one consumer: sequence IDs are handed out as jobs are sent,
    cumulative acknowledgements give the credit back, and frames pass through a 256-slot channel
    to the write loop.

    `Line` interleaves the atomic blocks of up to `k` dispatchers, the write loop, the read loop
    (acknowledgements) and the one "accepted" message. */
module FlowControl {
  import Runs
  const WRITE_CAPACITY := 256

  /** `job` is the job's position in the order its queue accepted jobs. */
  datatype Frame = Accepted | Delivery(seqId: int, job: nat)

  datatype Consumer = Consumer(
    max: int, lastSent: int, lastAck: int, writeCh: seq<Frame>,
    written: seq<Frame>) // history: frames the write loop took out

  function FreeSlots(c: Consumer): int {
    var slots := c.max - (c.lastSent - c.lastAck);
    if slots < 0 then 0 else slots
  }

  function Stamped(c: Consumer): Consumer {
    c.(lastSent := c.lastSent + 1)
  }

  function Acked(c: Consumer, id: int): Consumer {
    if id > c.lastAck then c.(lastAck := id) else c
  }

  predicate HasRoom(c: Consumer) {
    |c.writeCh| < WRITE_CAPACITY
  }

  /** A non-blocking send: dropped when the channel is full. */
  function TrySend(c: Consumer, f: Frame): Consumer {
    if HasRoom(c) then c.(writeCh := c.writeCh + [f]) else c
  }

  function WriteOut(c: Consumer): Consumer {
    if c.writeCh == [] then c else c.(writeCh := c.writeCh[1..], written := c.written + [c.writeCh[0]])
  }

  // ------------------------------------------------------------------ the object

  class ConsumerConn {
    const max: int
    var lastSentId: int
    var lastDeliveryAckId: int
    var writeCh: seq<Frame>
    ghost var written: seq<Frame>

    ghost function View(): Consumer
      reads this
    {
      Consumer(max, lastSentId, lastDeliveryAckId, writeCh, written)
    }

    constructor (max: int)
      ensures View() == Consumer(max, 0, 0, [], [])
    {
      this.max := max;
      lastSentId, lastDeliveryAckId, writeCh, written := 0, 0, [], [];
    }

    function GetFreeSlots(): (free: int)
      reads this
      ensures free == FreeSlots(View()) >= 0
      ensures free > 0 <==> lastSentId < lastDeliveryAckId + max
    {
      var slots := max - (lastSentId - lastDeliveryAckId);
      if slots < 0 then 0 else slots
    }

    method OnJobSent() returns (seqId: int)
      modifies this
      ensures View() == Stamped(old(View()))
      ensures seqId == lastSentId == old(lastSentId) + 1
    {
      lastSentId := lastSentId + 1;
      seqId := lastSentId;
    }

    method UpdateDeliveryAck(lastAckId: int)
      modifies this
      ensures View() == Acked(old(View()), lastAckId)
      ensures lastDeliveryAckId >= lastAckId && lastDeliveryAckId >= old(lastDeliveryAckId)
      ensures lastDeliveryAckId == lastAckId || lastDeliveryAckId == old(lastDeliveryAckId)
      ensures lastSentId == old(lastSentId) && writeCh == old(writeCh)
    {
      if lastAckId > lastDeliveryAckId {
        lastDeliveryAckId := lastAckId;
      }
    }

    method TryWrite(f: Frame) returns (ok: bool)
      modifies this
      ensures View() == TrySend(old(View()), f)
      ensures ok <==> |old(writeCh)| < 256
      ensures writeCh == if ok then old(writeCh) + [f] else old(writeCh)
    {
      ok := |writeCh| < WRITE_CAPACITY;
      if ok {
        writeCh := writeCh + [f];
      }
    }

    /** One turn of the write loop. */
    method WriteOne() returns (f: Frame)
      requires writeCh != []
      modifies this
      ensures View() == WriteOut(old(View()))
      ensures old(writeCh) == [f] + writeCh && written == old(written) + [f]
    {
      f := writeCh[0];
      writeCh := writeCh[1..];
      written := written + [f];
    }
  }

  // ------------------------------------------------------------------ interleavings

  datatype Line = Line(
    c: Consumer,
    cleared: nat,         // dispatchers that saw a free slot and have not stamped a job yet
    inHand: seq<Frame>,   // stamped, not yet sent to the channel
    greeted: bool,        // the "accepted" message was queued
    dropped: seq<Frame>)  // history: frames lost to a full channel

  datatype Event =
    | Check
    | GiveUp
    | StampJob(job: nat)
    | MarshalFails(i: nat)
    | Push(i: nat)
    | Ack(id: int)
    | Write
    | Greet

  function Without<T>(s: seq<T>, i: nat): seq<T>
    requires i < |s|
  {
    s[..i] + s[i + 1..]
  }

  function Step(k: nat, l: Line, e: Event): Line {
    match e
    case Check =>
      if l.cleared + |l.inHand| < k && FreeSlots(l.c) > 0 then l.(cleared := l.cleared + 1) else l
    case GiveUp => if l.cleared > 0 then l.(cleared := l.cleared - 1) else l
    case StampJob(job) =>
      if l.cleared > 0 then
        l.(c := Stamped(l.c), cleared := l.cleared - 1, inHand := l.inHand + [Delivery(l.c.lastSent + 1, job)])
      else l
    case MarshalFails(i) => if i < |l.inHand| then l.(inHand := Without(l.inHand, i)) else l
    case Push(i) =>
      if i < |l.inHand| then
        l.(c := TrySend(l.c, l.inHand[i]),
           inHand := Without(l.inHand, i),
           dropped := if HasRoom(l.c) then l.dropped else l.dropped + [l.inHand[i]])
      else l
    case Ack(id) => l.(c := Acked(l.c, id))
    case Write => l.(c := WriteOut(l.c))
    case Greet =>
      if !l.greeted && HasRoom(l.c) then l.(c := TrySend(l.c, Accepted), greeted := true) else l
  }

  function Start(max: int): Line {
    Line(Consumer(max, 0, 0, [], []), 0, [], false, [])
  }

  function StepOf(k: nat): (Line, Event) -> Line {
    (l: Line, e: Event) => Step(k, l, e)
  }

  ghost function StateAt(k: nat, max: int, run: seq<Event>, n: nat): Line
    requires n <= |run|
  {
    Runs.StateAt(StepOf(k), Start(max), run, n)
  }

  // ------------------------------------------------------------------ credit

  ghost predicate Credited(k: nat, l: Line) {
    l.cleared + |l.inHand| <= k && l.c.lastSent + l.cleared <= l.c.lastAck + l.c.max + k - 1
  }

  lemma StepKeepsCredit(k: nat, l: Line, e: Event)
    requires k > 0 && Credited(k, l)
    ensures Credited(k, Step(k, l, e)) && Step(k, l, e).c.max == l.c.max
  {
  }

  /** Credit bound: with `k` dispatchers on one consumer, whatever is acknowledged and when, never
      more than `max + k - 1` jobs are outstanding; with one dispatcher, never more than `max`. */
  lemma {:induction false} CreditBound(k: nat, max: nat, run: seq<Event>, n: nat)
    requires k > 0 && n <= |run|
    ensures Credited(k, StateAt(k, max, run, n)) && StateAt(k, max, run, n).c.max == max
    ensures StateAt(k, max, run, n).c.lastSent <= StateAt(k, max, run, n).c.lastAck + max + k - 1
  {
    if n > 0 {
      CreditBound(k, max, run, n - 1);
      StepKeepsCredit(k, StateAt(k, max, run, n - 1), run[n - 1]);
    }
  }

  ghost predicate AcksOnlySent(k: nat, max: int, run: seq<Event>) {
    forall n: nat :: n < |run| && run[n].Ack? ==> run[n].id <= StateAt(k, max, run, n).c.lastSent
  }

  lemma {:induction false} AckNeverAhead(k: nat, max: nat, run: seq<Event>, n: nat)
    requires n <= |run| && AcksOnlySent(k, max, run)
    ensures StateAt(k, max, run, n).c.lastAck <= StateAt(k, max, run, n).c.lastSent
  {
    if n > 0 {
      AckNeverAhead(k, max, run, n - 1);
    }
  }

  /** With one dispatcher and acknowledgements of sent IDs only, the free slots are exactly the
      unused credit, between none and all of it. */
  lemma FreeSlotsInRange(max: nat, run: seq<Event>, n: nat)
    requires n <= |run| && AcksOnlySent(1, max, run)
    ensures var c := StateAt(1, max, run, n).c;
      0 <= FreeSlots(c) <= max && FreeSlots(c) == max - (c.lastSent - c.lastAck)
  {
    CreditBound(1, max, run, n);
    AckNeverAhead(1, max, run, n);
  }

  /** The acknowledged ID is the greatest of 0 and all IDs acknowledged so far. */
  lemma {:induction false} LastAckIsMaximum(k: nat, max: int, run: seq<Event>, n: nat)
    requires n <= |run|
    ensures var last := StateAt(k, max, run, n).c.lastAck;
      && last >= 0 && (forall m: nat :: m < n && run[m].Ack? ==> last >= run[m].id)
      && (last == 0 || exists m: nat :: m < n && run[m].Ack? && run[m].id == last)
  {
    if n > 0 {
      LastAckIsMaximum(k, max, run, n - 1);
      assert StateAt(k, max, run, n) == Step(k, StateAt(k, max, run, n - 1), run[n - 1]);
      AckIsMaximum(k, StateAt(k, max, run, n - 1), run[n - 1]);
    }
  }

  lemma AckIsMaximum(k: nat, l: Line, e: Event)
    ensures Step(k, l, e).c.lastAck == if e.Ack? && e.id > l.c.lastAck then e.id else l.c.lastAck
  {
  }

  /** Acknowledgements return credit: the free slots are `max` less what was sent beyond the greatest
      acknowledged ID, so all of them once the last sent ID is acknowledged. */
  lemma AckRestoresCredit(k: nat, max: nat, run: seq<Event>, n: nat)
    requires n < |run| && run[n].Ack? && AcksOnlySent(k, max, run) && k > 0
    ensures var c := StateAt(k, max, run, n + 1).c;
      && c.lastSent == StateAt(k, max, run, n).c.lastSent
      && (run[n].id == c.lastSent ==> FreeSlots(c) == max)
      && FreeSlots(c) == if c.lastSent - c.lastAck <= max then max - (c.lastSent - c.lastAck) else 0
  {
    LastAckIsMaximum(k, max, run, n + 1);
    AckNeverAhead(k, max, run, n + 1);
    CreditBound(k, max, run, n + 1);
    assert StateAt(k, max, run, n + 1) == Step(k, StateAt(k, max, run, n), run[n]);
  }

  /** `n` turns of the write loop write the oldest `n` frames out, in order. */
  lemma {:induction false} WritesFlush(k: nat, max: int, run: seq<Event>, m: nat, n: nat)
    requires m + n <= |run| && n <= |StateAt(k, max, run, m).c.writeCh|
    requires forall i :: m <= i < m + n ==> run[i] == Write
    ensures var before, after := StateAt(k, max, run, m).c, StateAt(k, max, run, m + n).c;
      && after.written == before.written + before.writeCh[..n] && after.writeCh == before.writeCh[n..]
      && after.lastSent == before.lastSent && after.lastAck == before.lastAck
  {
    if n > 0 {
      WritesFlush(k, max, run, m, n - 1);
      assert StateAt(k, max, run, m + n) == Step(k, StateAt(k, max, run, m + n - 1), Write);
    }
  }

  // ------------------------------------------------------------------ the channel never fills up

  /** Sequence IDs of deliveries, skipping the "accepted" message, strictly increase. */
  ghost predicate Increasing(fs: seq<Frame>) {
    forall i, j :: 0 <= i < j < |fs| && fs[i].Delivery? && fs[j].Delivery? ==> fs[i].seqId < fs[j].seqId
  }

  ghost predicate Within(fs: seq<Frame>, lo: int, hi: int) {
    forall i :: 0 <= i < |fs| && fs[i].Delivery? ==> lo < fs[i].seqId <= hi
  }

  ghost function Greetings(fs: seq<Frame>, n: nat): nat
    requires n <= |fs|
  {
    if n == 0 then 0 else Greetings(fs, n - 1) + if fs[n - 1].Accepted? then 1 else 0
  }

  lemma {:induction false} GreetingsAfter(fs: seq<Frame>, f: Frame, n: nat)
    requires n <= |fs|
    ensures Greetings(fs + [f], n) == Greetings(fs, n)
  {
    if n > 0 {
      GreetingsAfter(fs, f, n - 1);
    }
  }

  lemma {:induction false} GreetingsTail(fs: seq<Frame>, n: nat)
    requires 0 < n <= |fs|
    ensures Greetings(fs[1..], n - 1) <= Greetings(fs, n)
  {
    if n > 1 {
      GreetingsTail(fs, n - 1);
    }
  }

  /** Strictly increasing IDs out of an interval are no more than the interval has room for. */
  lemma {:induction false} FramesFit(fs: seq<Frame>, n: nat, lo: int, hi: int)
    requires n <= |fs| && lo <= hi && Increasing(fs) && Within(fs[..n], lo, hi)
    ensures n <= hi - lo + Greetings(fs, n)
  {
    if n > 0 {
      assert forall i :: 0 <= i < n ==> fs[..n][i] == fs[i];
      assert forall i :: 0 <= i < n - 1 ==> fs[..n - 1][i] == fs[i];
      match fs[n - 1]
      case Accepted => FramesFit(fs, n - 1, lo, hi);
      case Delivery(x, _) => FramesFit(fs, n - 1, lo, x - 1);
    }
  }

  /** Everything ever queued or in hand, oldest first. */
  ghost function Stream(l: Line): seq<Frame> {
    l.c.written + l.c.writeCh + l.inHand
  }

  /** `id` has gone out to the consumer, or lies below an ID that has. */
  ghost predicate GoneOut(c: Consumer, id: int) {
    id <= 0 || exists j :: 0 <= j < |c.written| && c.written[j].Delivery? && id <= c.written[j].seqId
  }

  /** With one dispatcher: IDs leave in order, and a job in hand carries the newest ID. */
  ghost predicate InOrder(l: Line) {
    && l.cleared + |l.inHand| <= 1 && l.c.lastSent >= 0
    && (l.inHand != [] ==> l.inHand[0].Delivery? && l.inHand[0].seqId == l.c.lastSent)
    && Increasing(Stream(l)) && Within(Stream(l), 0, l.c.lastSent)
  }

  /** Moreover acknowledged IDs have gone out, and the greeting is queued at most once. */
  ghost predicate Ordered(l: Line) {
    && InOrder(l)
    && GoneOut(l.c, l.c.lastAck)
    && Greetings(l.c.writeCh, |l.c.writeCh|) <= (if l.greeted then 1 else 0)
  }

  /** What the consumer promises: it acknowledges only what it was sent. */
  ghost predicate HonestAck(l: Line, e: Event) {
    e.Ack? ==> GoneOut(l.c, e.id)
  }

  lemma InsertGreeting(a: seq<Frame>, b: seq<Frame>, hi: int)
    requires Increasing(a + b) && Within(a + b, 0, hi)
    ensures Increasing(a + [Accepted] + b) && Within(a + [Accepted] + b, 0, hi)
  {
    var without, greeted := a + b, a + [Accepted] + b;
    forall i | 0 <= i < |greeted| && i != |a|
      ensures greeted[i] == without[if i < |a| then i else i - 1]
    {
    }
  }

  lemma AppendDelivery(fs: seq<Frame>, hi: int, job: nat)
    requires Increasing(fs) && Within(fs, 0, hi) && hi >= 0
    ensures Increasing(fs + [Delivery(hi + 1, job)]) && Within(fs + [Delivery(hi + 1, job)], 0, hi + 1)
  {
  }

  lemma StampKeepsInOrder(l: Line, job: nat)
    requires InOrder(l) && l.cleared > 0
    ensures InOrder(Step(1, l, StampJob(job)))
  {
    AppendDelivery(Stream(l), l.c.lastSent, job);
    assert Stream(Step(1, l, StampJob(job))) == Stream(l) + [Delivery(l.c.lastSent + 1, job)];
  }

  lemma PutDownKeepsInOrder(l: Line, e: Event)
    requires InOrder(l) && l.inHand != [] && (e == MarshalFails(0) || e == Push(0))
    ensures InOrder(Step(1, l, e))
  {
    var fs := Stream(l);
    assert Stream(Step(1, l, e)) == if e.Push? && HasRoom(l.c) then fs else fs[..|fs| - 1];
  }

  lemma GreetKeepsInOrder(l: Line)
    requires InOrder(l) && !l.greeted && HasRoom(l.c)
    ensures InOrder(Step(1, l, Greet))
  {
    InsertGreeting(l.c.written + l.c.writeCh, l.inHand, l.c.lastSent);
    assert Stream(Step(1, l, Greet)) == l.c.written + l.c.writeCh + [Accepted] + l.inHand;
  }

  lemma WriteKeepsInOrder(l: Line)
    requires InOrder(l)
    ensures InOrder(Step(1, l, Write))
  {
    assert Stream(Step(1, l, Write)) == Stream(l);
  }

  /** Order needs nothing of the consumer. */
  lemma StepKeepsInOrder(l: Line, e: Event)
    requires InOrder(l)
    ensures InOrder(Step(1, l, e))
  {
    match e
    case StampJob(job) => if l.cleared > 0 { StampKeepsInOrder(l, job); }
    case MarshalFails(i) => if i < |l.inHand| { PutDownKeepsInOrder(l, e); }
    case Push(i) => if i < |l.inHand| { PutDownKeepsInOrder(l, e); }
    case Write => WriteKeepsInOrder(l);
    case Greet => if !l.greeted && HasRoom(l.c) { GreetKeepsInOrder(l); }
    case _ => assert Stream(Step(1, l, e)) == Stream(l);
  }

  lemma StepKeepsOrdered(l: Line, e: Event)
    requires Ordered(l) && HonestAck(l, e)
    ensures Ordered(Step(1, l, e))
  {
    StepKeepsInOrder(l, e);
    match e
    case Push(i) => if i < |l.inHand| { GreetingsAfter(l.c.writeCh, l.inHand[i], |l.c.writeCh|); }
    case Greet => GreetingsAfter(l.c.writeCh, Accepted, |l.c.writeCh|);
    case Write =>
      if l.c.writeCh != [] {
        GreetingsTail(l.c.writeCh, |l.c.writeCh|);
        GoneOutStays(l.c, l.c.lastAck);
      }
    case _ =>
  }

  lemma GoneOutStays(c: Consumer, id: int)
    requires GoneOut(c, id)
    ensures GoneOut(WriteOut(c), id)
  {
    if id > 0 {
      var j :| 0 <= j < |c.written| && c.written[j].Delivery? && id <= c.written[j].seqId;
      assert WriteOut(c).written[j] == c.written[j];
    }
  }

  /** A job in hand always finds room, if `max` leaves a slot for the "accepted" message. */
  lemma RoomForJobInHand(l: Line)
    requires Ordered(l) && Credited(1, l) && l.inHand != [] && l.c.max < WRITE_CAPACITY
    ensures HasRoom(l.c)
  {
    var fs, hi := l.c.writeCh, l.c.lastSent - 1;
    var w := |l.c.written|;
    assert forall i :: 0 <= i < |fs| ==> Stream(l)[w + i] == fs[i];
    assert Stream(l)[w + |fs|] == l.inHand[0];
    assert fs[..|fs|] == fs;
    var lo := if l.c.lastAck > 0 then l.c.lastAck else 0;
    if l.c.lastAck > 0 {
      var j :| 0 <= j < w && l.c.written[j].Delivery? && l.c.lastAck <= l.c.written[j].seqId;
      assert Stream(l)[j] == l.c.written[j];
    }
    assert Increasing(fs) && Within(fs, lo, hi);
    FramesFit(fs, |fs|, lo, hi);
  }

  /** In order, within credit, and nothing dropped. */
  ghost predicate Safe(l: Line) {
    Ordered(l) && Credited(1, l) && l.c.max < WRITE_CAPACITY && l.dropped == []
  }

  lemma StepKeepsSafe(l: Line, e: Event)
    requires Safe(l) && HonestAck(l, e)
    ensures Safe(Step(1, l, e))
  {
    StepKeepsOrdered(l, e);
    StepKeepsCredit(1, l, e);
    if e.Push? && e.i < |l.inHand| {
      RoomForJobInHand(l);
    }
  }

  ghost predicate HonestAt(max: int, run: seq<Event>, n: nat) {
    n < |run| && HonestAck(StateAt(1, max, run, n), run[n])
  }

  ghost predicate HonestRun(max: int, run: seq<Event>) {
    forall n: nat :: n < |run| ==> HonestAt(max, run, n)
  }

  lemma {:induction false} NothingDropped(max: nat, run: seq<Event>, n: nat)
    requires max < WRITE_CAPACITY && n <= |run| && HonestRun(max, run)
    ensures Safe(StateAt(1, max, run, n))
  {
    if n > 0 {
      NothingDropped(max, run, n - 1);
      assert HonestAt(max, run, n - 1);
      StepKeepsSafe(StateAt(1, max, run, n - 1), run[n - 1]);
    }
  }

  // ------------------------------------------------------------------ and 255 is the limit

  lemma Extend(k: nat, max: int, run: seq<Event>, e: Event)
    ensures StateAt(k, max, run + [e], |run| + 1) == Step(k, StateAt(k, max, run, |run|), e)
  {
    Runs.StatePrefix(StepOf(k), Start(max), run, [e], |run|);
  }

  /** One uninterrupted turn of the dispatcher. */
  lemma ServeOne(l: Line, job: nat)
    requires l.cleared == 0 && l.inHand == [] && FreeSlots(l.c) > 0
    ensures var f := Delivery(l.c.lastSent + 1, job);
      Step(1, Step(1, Step(1, l, Check), StampJob(job)), Push(0)) ==
        l.(c := TrySend(Stamped(l.c), f), dropped := if HasRoom(l.c) then l.dropped else l.dropped + [f])
  {
    var stamped := Step(1, Step(1, l, Check), StampJob(job));
    assert stamped == l.(c := Stamped(l.c), inHand := [Delivery(l.c.lastSent + 1, job)]);
  }

  lemma ExtendByTurn(max: int, run: seq<Event>) returns (longer: seq<Event>)
    ensures longer == run + [Check] + [StampJob(0)] + [Push(0)]
    ensures StateAt(1, max, longer, |longer|) ==
              Step(1, Step(1, Step(1, StateAt(1, max, run, |run|), Check), StampJob(0)), Push(0))
  {
    Extend(1, max, run, Check);
    Extend(1, max, run + [Check], StampJob(0));
    Extend(1, max, run + [Check] + [StampJob(0)], Push(0));
    longer := run + [Check] + [StampJob(0)] + [Push(0)];
  }

  ghost predicate NoAcks(run: seq<Event>) {
    forall i :: 0 <= i < |run| ==> !run[i].Ack?
  }

  /** A run in which the write loop never gets a turn: the greeting, then `m` jobs queued. */
  lemma {:induction false} QueueUp(max: nat, m: nat) returns (run: seq<Event>)
    requires m < WRITE_CAPACITY && m <= max
    ensures NoAcks(run)
    ensures var l := StateAt(1, max, run, |run|);
      && l.c.max == max && l.c.lastSent == m && l.c.lastAck == 0 && |l.c.writeCh| == m + 1
      && l.cleared == 0 && l.inHand == [] && l.dropped == []
  {
    if m == 0 {
      run := [Greet];
      assert StateAt(1, max, run, 0) == Start(max);
    } else {
      var r := QueueUp(max, m - 1);
      run := ExtendByTurn(max, r);
      ServeOne(StateAt(1, max, r, |r|), 0);
    }
  }

  lemma DropIsPossible(max: nat) returns (run: seq<Event>)
    requires max >= WRITE_CAPACITY
    ensures NoAcks(run) && StateAt(1, max, run, |run|).dropped != []
  {
    var r := QueueUp(max, WRITE_CAPACITY - 1);
    run := ExtendByTurn(max, r);
    ServeOne(StateAt(1, max, r, |r|), 0);
  }

  ghost predicate MayDrop(max: nat) {
    exists run :: HonestRun(max, run) && StateAt(1, max, run, |run|).dropped != []
  }

  /** With one dispatcher and honest acknowledgements, some interleaving drops a job at the write
      channel if and only if MaxInflights exceeds 255. */
  lemma DropIffMoreThan255(max: nat)
    ensures MayDrop(max) <==> max > 255
  {
    if max > 255 {
      var run := DropIsPossible(max);
      assert forall n: nat :: n < |run| ==> HonestAt(max, run, n);
      assert HonestRun(max, run);
    } else {
      forall run | HonestRun(max, run)
        ensures StateAt(1, max, run, |run|).dropped == []
      {
        NothingDropped(max, run, |run|);
      }
    }
  }

  /** A turn whose marshalling fails costs a credit and queues nothing. */
  lemma WasteOne(k: nat, l: Line)
    requires k > 0 && l.cleared == 0 && l.inHand == [] && FreeSlots(l.c) > 0
    ensures Step(k, Step(k, Step(k, l, Check), StampJob(0)), MarshalFails(0)) == l.(c := Stamped(l.c))
  {
    var stamped := Step(k, Step(k, l, Check), StampJob(0));
    assert stamped == l.(c := Stamped(l.c), inHand := [Delivery(l.c.lastSent + 1, 0)]);
  }

  /** A run that uses up `m` credits. */
  lemma {:induction false} UseUp(k: nat, max: nat, m: nat) returns (run: seq<Event>)
    requires k > 0 && m <= max
    ensures StateAt(k, max, run, |run|) == Start(max).(c := Consumer(max, m, 0, [], []))
  {
    if m == 0 {
      run := [];
    } else {
      var r := UseUp(k, max, m - 1);
      Extend(k, max, r, Check);
      Extend(k, max, r + [Check], StampJob(0));
      Extend(k, max, r + [Check] + [StampJob(0)], MarshalFails(0));
      run := r + [Check] + [StampJob(0)] + [MarshalFails(0)];
      WasteOne(k, StateAt(k, max, r, |r|));
    }
  }

  /** The one-dispatcher assumption matters: `k` dispatchers that check together all see the last
      free slot. */
  lemma {:induction false} CheckTogether(max: nat, k: nat, m: nat) returns (run: seq<Event>)
    requires max > 0 && k > 0 && m <= k
    ensures StateAt(k, max, run, |run|) == Start(max).(c := Consumer(max, max - 1, 0, [], []), cleared := m)
  {
    if m == 0 {
      run := UseUp(k, max, max - 1);
    } else {
      var r := CheckTogether(max, k, m - 1);
      run := r + [Check];
      Extend(k, max, r, Check);
    }
  }

  lemma {:induction false} StampTogether(max: nat, k: nat, m: nat) returns (run: seq<Event>)
    requires max > 0 && k > 0 && m <= k
    ensures var l := StateAt(k, max, run, |run|);
      l.c == Consumer(max, max - 1 + m, 0, [], []) && l.cleared == k - m && |l.inHand| == m
  {
    if m == 0 {
      run := CheckTogether(max, k, k);
    } else {
      var r := StampTogether(max, k, m - 1);
      run := r + [StampJob(0)];
      Extend(k, max, r, StampJob(0));
    }
  }

  /** The credit bound is attained for every MaxInflights and every number of dispatchers. */
  lemma CreditBoundIsTight(k: nat, max: nat) returns (run: seq<Event>)
    requires k > 0 && max > 0
    ensures var c := StateAt(k, max, run, |run|).c;
      c.lastAck == 0 && c.lastSent == c.lastAck + max + k - 1
  {
    run := StampTogether(max, k, k);
  }
}
