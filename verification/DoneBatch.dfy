/** Batching of Done commands: acknowledged job IDs are collected per topic and flushed together.
    A flush takes a copy, empties the topic, sends, and on failure puts the copy back only if the
    topic is still empty.  New IDs may arrive between the copy and the outcome of the send. */
module DoneBatch {
  import opened Common
  import Runs

  datatype Flush = Flush(topic: Topic, ids: seq<JobId>)

  /** How a copy left the batcher. */
  datatype Block = Sent(ids: seq<JobId>) | Discarded(ids: seq<JobId>)

  /** History of one topic: everything submitted, and every copy that left, in order. */
  datatype Ledger = Ledger(submitted: seq<JobId>, blocks: seq<Block>)

  datatype State = State(pending: map<Topic, seq<JobId>>, inFlight: Option<Flush>, ledgers: map<Topic, Ledger>)

  const INITIAL := State(map[], None, map[])

  datatype Event =
    | DoneArrives(topic: Topic, ids: seq<JobId>)
    | FlushBegins(topic: Topic)
    | SendSucceeds
    | SendFails

  // ------------------------------------------------------------------ steps

  function PendingOf(pending: map<Topic, seq<JobId>>, t: Topic): seq<JobId> {
    if t in pending then pending[t] else []
  }

  function LedgerOf(s: State, t: Topic): Ledger {
    if t in s.ledgers then s.ledgers[t] else Ledger([], [])
  }

  function Appended(pending: map<Topic, seq<JobId>>, t: Topic, ids: seq<JobId>): map<Topic, seq<JobId>> {
    pending[t := PendingOf(pending, t) + ids]
  }

  function Restored(pending: map<Topic, seq<JobId>>, t: Topic, copy: seq<JobId>): map<Topic, seq<JobId>> {
    if PendingOf(pending, t) == [] then pending[t := copy] else pending
  }

  function Leave(s: State, t: Topic, b: Block): State {
    var l := LedgerOf(s, t);
    s.(inFlight := None, ledgers := s.ledgers[t := l.(blocks := l.blocks + [b])])
  }

  function Step(s: State, e: Event): State {
    match e
    case DoneArrives(t, ids) =>
      var l := LedgerOf(s, t);
      s.(pending := Appended(s.pending, t, ids), ledgers := s.ledgers[t := l.(submitted := l.submitted + ids)])
    case FlushBegins(t) =>
      if s.inFlight.None? && PendingOf(s.pending, t) != []
      then s.(pending := s.pending[t := []], inFlight := Some(Flush(t, s.pending[t])))
      else s
    case SendSucceeds =>
      if s.inFlight.Some? then Leave(s, s.inFlight.value.topic, Sent(s.inFlight.value.ids)) else s
    case SendFails =>
      if s.inFlight.Some? then
        var t, copy := s.inFlight.value.topic, s.inFlight.value.ids;
        if PendingOf(s.pending, t) == []
        then s.(pending := Restored(s.pending, t, copy), inFlight := None)
        else Leave(s, t, Discarded(copy))
      else s
  }

  ghost function StateAt(run: seq<Event>, n: nat): State
    requires n <= |run|
  {
    Runs.StateAt(Step, INITIAL, run, n)
  }

  // ------------------------------------------------------------------ the object

  class DoneBatcher {
    var buffer: map<Topic, seq<JobId>>

    constructor ()
      ensures buffer == INITIAL.pending
    {
      buffer := map[];
    }

    method HandleDone(done: Option<Flush>)
      modifies this
      ensures buffer == if done.Some? then Appended(old(buffer), done.value.topic, done.value.ids) else old(buffer)
    {
      if done.Some? {
        var topic := done.value.topic;
        if topic !in buffer {
          buffer := buffer[topic := []];
        }
        buffer := buffer[topic := buffer[topic] + done.value.ids];
      }
    }

    /** The locked part of a flush before the send. */
    method BeginFlush(topic: Topic) returns (request: Option<Flush>)
      modifies this
      ensures PendingOf(old(buffer), topic) == [] ==> request.None? && buffer == old(buffer)
      ensures PendingOf(old(buffer), topic) != [] ==>
                request == Some(Flush(topic, old(buffer)[topic])) && buffer == old(buffer)[topic := []]
    {
      if topic !in buffer || buffer[topic] == [] {
        return None;
      }
      request := Some(Flush(topic, buffer[topic]));
      buffer := buffer[topic := []];
    }

    /** The locked part of a flush after a failed send. */
    method Restore(request: Flush)
      modifies this
      ensures buffer == Restored(old(buffer), request.topic, request.ids)
    {
      if request.topic !in buffer || buffer[request.topic] == [] {
        buffer := buffer[request.topic := request.ids];
      }
    }

    /** One flush with nothing arriving meanwhile is two steps of the machine. */
    method FlushTopic(topic: Topic, fails: bool, ghost s: State) returns (request: Option<Flush>)
      requires buffer == s.pending && s.inFlight.None?
      modifies this
      ensures buffer == Step(Step(s, FlushBegins(topic)), if fails then SendFails else SendSucceeds).pending
      ensures request == Step(s, FlushBegins(topic)).inFlight
      ensures request.Some? <==> PendingOf(old(buffer), topic) != []
      ensures request.Some? ==> request.value == Flush(topic, old(buffer)[topic])
      ensures buffer == if request.Some? && !fails then old(buffer)[topic := []] else old(buffer)
    {
      request := BeginFlush(topic);
      if request.Some? && fails {
        Restore(request.value);
      }
    }

    /** A round of flushes with nothing arriving meanwhile, sends to topics in `failing` failing:
        the others are sent whole and emptied, the failing ones are left exactly as they were. */
    method FlushAllTopics(failing: set<Topic>) returns (sent: map<Topic, seq<JobId>>)
      modifies this
      ensures buffer.Keys == old(buffer).Keys
      ensures forall t :: t in buffer ==> buffer[t] == if t in failing then old(buffer)[t] else []
      ensures forall t :: t in sent <==> t in old(buffer) && t !in failing && old(buffer)[t] != []
      ensures forall t :: t in sent ==> sent[t] == old(buffer)[t]
    {
      sent := map[];
      var topics := buffer.Keys;
      while topics != {}
        invariant topics <= buffer.Keys == old(buffer).Keys
        invariant forall t :: t in buffer ==>
                    buffer[t] == if t in failing || t in topics then old(buffer)[t] else []
        invariant forall t :: t in sent <==> t in old(buffer) && t !in topics && t !in failing && old(buffer)[t] != []
        invariant forall t :: t in sent ==> sent[t] == old(buffer)[t]
        decreases |topics|
      {
        var topic :| topic in topics;
        topics := topics - {topic};
        var request := FlushTopic(topic, topic in failing, State(buffer, None, map[]));
        if request.Some? && topic !in failing {
          sent := sent[topic := request.value.ids];
        }
      }
    }
  }

  // ------------------------------------------------------------------ conservation

  /** The IDs of all blocks, in order. */
  ghost function Concat(blocks: seq<Block>, n: nat): seq<JobId>
    requires n <= |blocks|
  {
    if n == 0 then [] else Concat(blocks, n - 1) + blocks[n - 1].ids
  }

  lemma {:induction false} ConcatPrefix(blocks: seq<Block>, b: Block, n: nat)
    requires n <= |blocks|
    ensures Concat(blocks + [b], n) == Concat(blocks, n)
  {
    if n > 0 {
      ConcatPrefix(blocks, b, n - 1);
    }
  }

  ghost function InFlightOf(s: State, t: Topic): seq<JobId> {
    if s.inFlight.Some? && s.inFlight.value.topic == t then s.inFlight.value.ids else []
  }

  /** What was submitted is, in order, what left, what is in flight and what is pending. */
  ghost predicate Balanced(s: State, t: Topic) {
    var l := LedgerOf(s, t);
    l.submitted == Concat(l.blocks, |l.blocks|) + InFlightOf(s, t) + PendingOf(s.pending, t)
  }

  lemma DoneKeepsBalanced(s: State, u: Topic, ids: seq<JobId>, t: Topic)
    requires Balanced(s, t)
    ensures Balanced(Step(s, DoneArrives(u, ids)), t)
  {
    var l := LedgerOf(s, t);
    assert (Concat(l.blocks, |l.blocks|) + InFlightOf(s, t) + PendingOf(s.pending, t)) + ids
        == Concat(l.blocks, |l.blocks|) + InFlightOf(s, t) + (PendingOf(s.pending, t) + ids);
  }

  lemma LeaveKeepsBalanced(s: State, b: Block, t: Topic)
    requires Balanced(s, t) && s.inFlight.Some? && b.ids == s.inFlight.value.ids
    ensures Balanced(Leave(s, s.inFlight.value.topic, b), t)
  {
    ConcatPrefix(LedgerOf(s, t).blocks, b, |LedgerOf(s, t).blocks|);
  }

  lemma StepKeepsBalanced(s: State, e: Event, t: Topic)
    requires Balanced(s, t)
    ensures Balanced(Step(s, e), t)
  {
    match e
    case DoneArrives(u, ids) => DoneKeepsBalanced(s, u, ids, t);
    case FlushBegins(u) =>
    case SendSucceeds => if s.inFlight.Some? { LeaveKeepsBalanced(s, Sent(s.inFlight.value.ids), t); }
    case SendFails => if s.inFlight.Some? { LeaveKeepsBalanced(s, Discarded(s.inFlight.value.ids), t); }
  }

  lemma InitialIsBalanced(t: Topic)
    ensures Balanced(INITIAL, t)
  {
  }

  /** In every state of every run, for every topic, the submitted IDs are exactly the sent and
      discarded blocks, then the copy in flight, then the pending list: in submission order. */
  lemma {:induction false} NothingLostInOrder(run: seq<Event>, n: nat, t: Topic)
    requires n <= |run|
    ensures Balanced(StateAt(run, n), t)
  {
    if n == 0 {
      InitialIsBalanced(t);
    } else {
      NothingLostInOrder(run, n - 1, t);
      StepKeepsBalanced(StateAt(run, n - 1), run[n - 1], t);
      assert StateAt(run, n) == Step(StateAt(run, n - 1), run[n - 1]);
    }
  }

  /** The IDs of the first `n` events' Done requests for a topic, in order. */
  ghost function Arrived(run: seq<Event>, t: Topic, n: nat): seq<JobId>
    requires n <= |run|
  {
    if n == 0 then []
    else Arrived(run, t, n - 1) + if run[n - 1].DoneArrives? && run[n - 1].topic == t then run[n - 1].ids else []
  }

  /** So whatever the batcher is asked to report is, in submission order, sent or discarded, in flight or
      pending. */
  lemma {:induction false} EverythingArrivedIsAccountedFor(run: seq<Event>, n: nat, t: Topic)
    requires n <= |run|
    ensures var s := StateAt(run, n);
      var l := LedgerOf(s, t);
      && l.submitted == Arrived(run, t, n)
      && Arrived(run, t, n) == Concat(l.blocks, |l.blocks|) + InFlightOf(s, t) + PendingOf(s.pending, t)
  {
    NothingLostInOrder(run, n, t);
    if n > 0 {
      EverythingArrivedIsAccountedFor(run, n - 1, t);
      StepSubmits(StateAt(run, n - 1), run[n - 1], t);
      assert StateAt(run, n) == Step(StateAt(run, n - 1), run[n - 1]);
    }
  }

  lemma StepSubmits(s: State, e: Event, t: Topic)
    ensures LedgerOf(Step(s, e), t).submitted ==
            LedgerOf(s, t).submitted + if e.DoneArrives? && e.topic == t then e.ids else []
  {
  }

  ghost function SentIds(blocks: seq<Block>, n: nat): multiset<JobId>
    requires n <= |blocks|
  {
    if n == 0 then multiset{}
    else SentIds(blocks, n - 1) + if blocks[n - 1].Sent? then multiset(blocks[n - 1].ids) else multiset{}
  }

  ghost function DiscardedIds(blocks: seq<Block>, n: nat): multiset<JobId>
    requires n <= |blocks|
  {
    if n == 0 then multiset{}
    else DiscardedIds(blocks, n - 1) + if blocks[n - 1].Discarded? then multiset(blocks[n - 1].ids) else multiset{}
  }

  lemma {:induction false} BlocksAreSentOrDiscarded(blocks: seq<Block>, n: nat)
    requires n <= |blocks|
    ensures multiset(Concat(blocks, n)) == SentIds(blocks, n) + DiscardedIds(blocks, n)
  {
    if n > 0 {
      BlocksAreSentOrDiscarded(blocks, n - 1);
    }
  }

  /** Conservation as multisets: submitted = pending + in flight + sent + discarded. */
  lemma DoneIdsConserved(run: seq<Event>, n: nat, t: Topic)
    requires n <= |run|
    ensures var s := StateAt(run, n);
      var l := LedgerOf(s, t);
      multiset(l.submitted) ==
        multiset(PendingOf(s.pending, t)) + multiset(InFlightOf(s, t))
        + SentIds(l.blocks, |l.blocks|) + DiscardedIds(l.blocks, |l.blocks|)
  {
    NothingLostInOrder(run, n, t);
    var s := StateAt(run, n);
    var l := LedgerOf(s, t);
    BlocksAreSentOrDiscarded(l.blocks, |l.blocks|);
  }

  // ------------------------------------------------------------------ a failed flush

  /** The copies that leave, exactly: a copy is discarded only by a failed send that finds new IDs
      pending for its topic. */
  lemma WhatLeaves(s: State, e: Event, t: Topic)
    ensures LedgerOf(Step(s, e), t).blocks == LedgerOf(s, t).blocks +
              if s.inFlight.None? || s.inFlight.value.topic != t then []
              else if e.SendSucceeds? then [Sent(s.inFlight.value.ids)]
              else if e.SendFails? && PendingOf(s.pending, t) != [] then [Discarded(s.inFlight.value.ids)]
              else []
  {
  }

  ghost predicate ArrivesAt(run: seq<Event>, t: Topic, j: nat) {
    j < |run| && run[j].DoneArrives? && run[j].topic == t && run[j].ids != []
  }

  /** A copy in flight was taken by a flush at some point `b` of the run, and its topic has pending
      IDs exactly if some arrived since. */
  lemma {:induction false} InFlightSince(run: seq<Event>, n: nat) returns (b: nat)
    requires n <= |run| && StateAt(run, n).inFlight.Some?
    ensures var f := StateAt(run, n).inFlight.value;
      && b < n && run[b] == FlushBegins(f.topic)
      && StateAt(run, b).inFlight.None? && PendingOf(StateAt(run, b).pending, f.topic) == f.ids
      && (PendingOf(StateAt(run, n).pending, f.topic) != []
          <==> exists j: nat :: b < j < n && ArrivesAt(run, f.topic, j))
  {
    var s, e := StateAt(run, n - 1), run[n - 1];
    assert StateAt(run, n) == Step(s, e);
    if s.inFlight.None? {
      b := n - 1;
    } else {
      b := InFlightSince(run, n - 1);
      var t := s.inFlight.value.topic;
      if ArrivesAt(run, t, n - 1) {
        assert b < n - 1 < n;
      } else {
        assert forall j: nat :: b < j < n && ArrivesAt(run, t, j) ==> j < n - 1;
      }
    }
  }

  /** A failed send discards its copy if and only if a Done with IDs for that topic arrived between
      the moment `b` the copy was taken and the failure; otherwise the copy becomes the pending
      list again. */
  lemma DiscardIffArrivalInBetween(run: seq<Event>, n: nat) returns (b: nat)
    requires n < |run| && run[n].SendFails? && StateAt(run, n).inFlight.Some?
    ensures var f := StateAt(run, n).inFlight.value;
      && b < n && run[b] == FlushBegins(f.topic) && PendingOf(StateAt(run, b).pending, f.topic) == f.ids
      && var arrived := exists j: nat :: b < j < n && ArrivesAt(run, f.topic, j);
      var before, after := StateAt(run, n), StateAt(run, n + 1);
      if arrived then
        && LedgerOf(after, f.topic).blocks == LedgerOf(before, f.topic).blocks + [Discarded(f.ids)]
        && after.pending == before.pending
      else
        && LedgerOf(after, f.topic).blocks == LedgerOf(before, f.topic).blocks
        && PendingOf(after.pending, f.topic) == f.ids
  {
    b := InFlightSince(run, n);
    WhatLeaves(StateAt(run, n), run[n], StateAt(run, n).inFlight.value.topic);
  }
}
