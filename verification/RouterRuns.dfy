/** Runs of the consumer router: the locked blocks of all callers, and enqueue calls in flight.

    An enqueue call looks its topic's channel up once and then offers its jobs one by one without
    a lock, so the topic may meanwhile be drained and created again under a new channel.  Channels
    are numbered in the order they are made; `inc` gives the current one of each topic. */
module RouterRuns {
  import opened Common
  import opened Router
  import TQ = TopicQueue
  import Runs

  datatype Phase = Offering | Owing | Returned

  /** A call of EnqueueJobs: the channel it found, the next job to offer, how many were refused, and
      whether it is about to offer, owes the mark of a refusal, or has returned `rejected`. */
  datatype Call = Call(topic: Topic, ch: Option<nat>, jobs: seq<JobId>, next: nat, rejected: nat, phase: Phase)

  /** Job `k` of call `call` entered a channel. */
  datatype Put = Put(call: nat, k: nat, job: TQ.QueuedJob)

  /** How a job left a channel: a dispatcher took it, or the removal of the topic drained it. */
  datatype Exit = Took(job: TQ.QueuedJob) | Drained(job: TQ.QueuedJob)

  datatype Net = Net(
    x: Index,
    inc: map<Topic, nat>,
    former: map<nat, seq<TQ.QueuedJob>>,   // channels of earlier incarnations
    calls: seq<Call>,
    report: seq<TopicCapacity>,         // the last report built
    puts: seq<seq<Put>>,                // history: what ever entered each channel, in order
    gone: seq<seq<Exit>>,               // history: what ever left it, in order
    rejectedAt: map<Topic, Time>)       // history: last mark in the topic's current incarnation

  const INITIAL := Net(EMPTY, map[], map[], [], [], [], [], map[])

  datatype Event =
    | Adds(topic: Topic, consumer: TQ.ConsumerId, now: Time)
    | Removes(topic: Topic, consumer: TQ.ConsumerId, now: Time)
    | Begins(topic: Topic, jobs: seq<JobId>, now: Time)
    | Offers(call: nat, now: Time)
    | Marks(call: nat, now: Time)
    | Returns(call: nat, now: Time)
    | Takes(topic: Topic, now: Time)
    | TakesOld(ch: nat, now: Time)
    | Reports(order: seq<Topic>, free: map<Topic, map<TQ.ConsumerId, int>>, now: Time)

  // ------------------------------------------------------------------ steps

  function DoAdd(s: Net, t: Topic, c: TQ.ConsumerId, now: Time): Net {
    if t in s.x.members then s.(x := Added(s.x, t, c, now))
    else
      s.(x := Added(s.x, t, c, now), inc := s.inc[t := |s.puts|], puts := s.puts + [[]], gone := s.gone + [[]])
  }

  function DrainedAll(q: seq<TQ.QueuedJob>): (exits: seq<Exit>)
    ensures |exits| == |q| && forall i :: 0 <= i < |q| ==> exits[i] == Drained(q[i])
  {
    seq(|q|, i requires 0 <= i < |q| => Drained(q[i]))
  }

  /** These left channel `ch`. */
  function Leave(gone: seq<seq<Exit>>, ch: nat, exits: seq<Exit>): seq<seq<Exit>> {
    if ch < |gone| then gone[ch := gone[ch] + exits] else gone
  }

  /** With the last consumer the topic's channel is emptied; calls that found it still hold it. */
  function DoRemove(s: Net, t: Topic, c: TQ.ConsumerId): Net {
    if t in s.inc && t !in Removed(s.x, t, c).members then
      s.(x := Removed(s.x, t, c), inc := s.inc - {t}, former := s.former[s.inc[t] := []],
         gone := Leave(s.gone, s.inc[t], DrainedAll(if t in s.x.chans then s.x.chans[t] else [])),
         rejectedAt := s.rejectedAt - {t})
    else s.(x := Removed(s.x, t, c))
  }

  function NewCall(s: Net, t: Topic, jobs: seq<JobId>): Call {
    if t in s.inc then Call(t, Some(s.inc[t]), jobs, 0, 0, Offering)
    else Call(t, None, jobs, |jobs|, |jobs|, Returned)
  }

  /** Channel `ch` is the topic's current one. */
  predicate Current(s: Net, t: Topic, ch: nat) {
    t in s.inc && s.inc[t] == ch && t in s.x.chans
  }

  function Contents(s: Net, t: Topic, ch: nat): seq<TQ.QueuedJob> {
    if Current(s, t, ch) then s.x.chans[t] else if ch in s.former then s.former[ch] else []
  }

  /** The call is about to offer a job. */
  predicate CanOffer(s: Net, c: nat) {
    && c < |s.calls| && s.calls[c].phase == Offering && s.calls[c].next < |s.calls[c].jobs|
    && s.calls[c].ch.Some? && s.calls[c].ch.value < |s.puts|
  }

  predicate FindsRoom(s: Net, c: nat)
    requires CanOffer(s, c)
  {
    |Contents(s, s.calls[c].topic, s.calls[c].ch.value)| < TQ.QUEUE_CAPACITY
  }

  function Accepts(s: Net, c: nat, now: Time): Net
    requires CanOffer(s, c)
  {
    var call := s.calls[c];
    var t, ch, j := call.topic, call.ch.value, TQ.QueuedJob(call.jobs[call.next], now);
    s.(x := if Current(s, t, ch) then Offered(s.x, t, j) else s.x,
       former := if Current(s, t, ch) then s.former else s.former[ch := Contents(s, t, ch) + [j]],
       calls := s.calls[c := call.(next := call.next + 1)],
       puts := s.puts[ch := s.puts[ch] + [Put(c, call.next, j)]])
  }

  function Refuses(s: Net, c: nat): Net
    requires CanOffer(s, c)
  {
    var call := s.calls[c];
    s.(calls := s.calls[c := call.(next := call.next + 1, rejected := call.rejected + 1, phase := Owing)])
  }

  /** Marking looks the topic up by name. */
  function MarkByName(s: Net, t: Topic, now: Time): Net {
    s.(x := Marked(s.x, t, now), rejectedAt := if t in s.x.pressure then s.rejectedAt[t := now] else s.rejectedAt)
  }

  /** The call is about to mark its topic because its last offer was refused. */
  predicate CanMark(s: Net, c: nat) {
    c < |s.calls| && s.calls[c].phase == Owing
  }

  function DoMark(s: Net, c: nat, now: Time): Net
    requires CanMark(s, c)
  {
    MarkByName(s, s.calls[c].topic, now).(calls := s.calls[c := s.calls[c].(phase := Offering)])
  }

  /** The call has offered everything and is about to return, after a last mark if any offer was
      refused. */
  predicate CanReturn(s: Net, c: nat) {
    c < |s.calls| && s.calls[c].phase == Offering && s.calls[c].next == |s.calls[c].jobs|
  }

  function DoReturn(s: Net, c: nat, now: Time): Net
    requires CanReturn(s, c)
  {
    var call := s.calls[c];
    var done := s.calls[c := call.(phase := Returned)];
    if call.rejected > 0 then MarkByName(s, call.topic, now).(calls := done) else s.(calls := done)
  }

  /** The topic's dispatcher has a job to take. */
  predicate CanTake(s: Net, t: Topic) {
    t in s.inc && t in s.x.chans && s.x.chans[t] != []
  }

  function DoTake(s: Net, t: Topic): Net
    requires CanTake(s, t)
  {
    s.(x := Taken(s.x, t), gone := Leave(s.gone, s.inc[t], [Took(s.x.chans[t][0])]))
  }

  /** The dispatcher of a former incarnation takes a last job. */
  function DoTakeOld(s: Net, ch: nat): Net
    requires ch in s.former && s.former[ch] != []
  {
    s.(former := s.former[ch := s.former[ch][1..]], gone := Leave(s.gone, ch, [Took(s.former[ch][0])]))
  }

  /** The loop over the topics visits each live topic once, and reads the free slots of its consumers. */
  ghost predicate Visits(x: Index, order: seq<Topic>, free: map<Topic, map<TQ.ConsumerId, int>>) {
    && (forall t :: t in order <==> t in x.members)
    && (forall i, j :: 0 <= i < j < |order| ==> order[i] != order[j])
    && (forall t :: t in x.members ==> t in x.pressure && t in free && free[t].Keys == x.members[t])
  }

  ghost function ReportIn(order: seq<Topic>, x: Index,
                          free: map<Topic, map<TQ.ConsumerId, int>>): (report: seq<TopicCapacity>)
    requires Visits(x, order, free)
    ensures |report| == |order|
  {
    seq(|order|, i requires 0 <= i < |order| =>
      assert order[i] in x.members; TopicCapacity(order[i], Score(x.pressure[order[i]], free[order[i]])))
  }

  ghost function Step(s: Net, e: Event): Net {
    match e
    case Adds(t, c, now) => DoAdd(s, t, c, now)
    case Removes(t, c, now) => DoRemove(s, t, c)
    case Begins(t, jobs, now) => s.(calls := s.calls + [NewCall(s, t, jobs)])
    case Offers(c, now) =>
      if !CanOffer(s, c) then s else if FindsRoom(s, c) then Accepts(s, c, now) else Refuses(s, c)
    case Marks(c, now) => if CanMark(s, c) then DoMark(s, c, now) else s
    case Returns(c, now) => if CanReturn(s, c) then DoReturn(s, c, now) else s
    case Takes(t, now) => if CanTake(s, t) then DoTake(s, t) else s
    case TakesOld(ch, now) => if ch in s.former && s.former[ch] != [] then DoTakeOld(s, ch) else s
    case Reports(order, free, now) =>
      if Visits(s.x, order, free) then
        s.(x := Reported(s.x, now), report := ReportIn(order, Reported(s.x, now), free))
      else s
  }

  ghost predicate StepAt(run: seq<Event>, st: seq<Net>, i: nat) {
    Runs.StepAt(Step, run, st, i)
  }

  /** `st` are the states a run goes through. */
  ghost predicate IsRun(run: seq<Event>, st: seq<Net>) {
    Runs.IsRun(Step, INITIAL, run, st)
  }

  /** The clock never runs backwards. */
  ghost predicate Monotone(run: seq<Event>) {
    forall i, j :: 0 <= i <= j < |run| ==> run[i].now <= run[j].now
  }

  // ------------------------------------------------------------------ index consistency

  lemma StepKeepsConsistent(s: Net, e: Event)
    requires Consistent(s.x)
    ensures Consistent(Step(s, e).x)
  {
    match e
    case Adds(t, c, now) => AddedConsistent(s.x, t, c, now);
    case Removes(t, c, now) => RemovedConsistent(s.x, t, c);
    case Offers(c, now) =>
      if CanOffer(s, c) {
        var call := s.calls[c];
        OfferedConsistent(s.x, call.topic, TQ.QueuedJob(call.jobs[call.next], now));
      }
    case Marks(c, now) => if CanMark(s, c) { MarkedConsistent(s.x, s.calls[c].topic, now); }
    case Returns(c, now) => if CanReturn(s, c) { MarkedConsistent(s.x, s.calls[c].topic, now); }
    case Takes(t, now) => TakenConsistent(s.x, t);
    case Reports(order, free, now) => ReportedConsistent(s.x, now);
    case _ =>
  }

  /** After every interleaving of calls the four maps list the same topics, each with a consumer, and
      no queue exceeds its capacity: the report's skip of a topic without consumers is never taken. */
  lemma {:induction false} IndexesAgree(run: seq<Event>, st: seq<Net>, n: nat)
    requires IsRun(run, st) && n < |st|
    ensures Consistent(st[n].x)
  {
    if n > 0 {
      IndexesAgree(run, st, n - 1);
      assert StepAt(run, st, n - 1);
      StepKeepsConsistent(st[n - 1], run[n - 1]);
    }
  }

  // ------------------------------------------------------------------ channels and calls

  /** The live topics have channels of their own; the other channels in use are former ones. */
  ghost predicate ChannelsOk(members: map<Topic, set<TQ.ConsumerId>>, inc: map<Topic, nat>,
                             former: map<nat, seq<TQ.QueuedJob>>, made: nat) {
    && (forall t :: t in inc <==> t in members)
    && (forall t :: t in inc ==> inc[t] < made && inc[t] !in former)
    && (forall t, t' :: t in inc && t' in inc && inc[t] == inc[t'] ==> t == t')
    && (forall ch :: ch in former ==> ch < made)
  }

  /** The channel is its topic's current one or a former one. */
  ghost predicate InUse(t: Topic, ch: nat, inc: map<Topic, nat>, former: map<nat, seq<TQ.QueuedJob>>) {
    ch in former || (t in inc && inc[t] == ch)
  }

  ghost predicate CallOk(call: Call) {
    && call.rejected <= call.next <= |call.jobs|
    && (call.phase == Owing ==> call.rejected > 0) && (call.phase == Returned ==> call.next == |call.jobs|)
    && (call.ch.None? ==> call.phase == Returned && call.rejected == |call.jobs|)
  }

  ghost predicate CallsOk(calls: seq<Call>) {
    forall c: nat {:trigger CallOk(calls[c])} :: c < |calls| ==> CallOk(calls[c])
  }

  ghost predicate CallsInUse(calls: seq<Call>, inc: map<Topic, nat>, former: map<nat, seq<TQ.QueuedJob>>) {
    forall c: nat :: c < |calls| && calls[c].ch.Some? ==> InUse(calls[c].topic, calls[c].ch.value, inc, former)
  }

  /** What entered a channel is, in order, what left it and then what is in it. */
  ghost predicate Splits(g: seq<Exit>, q: seq<TQ.QueuedJob>, ps: seq<Put>) {
    && |ps| == |g| + |q|
    && (forall i :: 0 <= i < |g| ==> g[i].job == ps[i].job)
    && (forall i :: 0 <= i < |q| ==> q[i] == ps[|g| + i].job)
  }

  ghost predicate OnlyTaken(g: seq<Exit>) {
    forall i :: 0 <= i < |g| ==> g[i].Took?
  }

  /** From the channel of a live topic jobs have left only to the dispatcher. */
  ghost predicate Conserved(chans: map<Topic, seq<TQ.QueuedJob>>, inc: map<Topic, nat>,
                            former: map<nat, seq<TQ.QueuedJob>>, gone: seq<seq<Exit>>, puts: seq<seq<Put>>) {
    && |gone| == |puts|
    && (forall t {:trigger chans[t]} :: t in chans && t in inc && inc[t] < |puts| ==>
          Splits(gone[inc[t]], chans[t], puts[inc[t]]) && OnlyTaken(gone[inc[t]]))
    && (forall ch {:trigger former[ch]} :: ch in former && ch < |puts| ==> Splits(gone[ch], former[ch], puts[ch]))
  }

  /** An entry of channel `ch` is a job its call has offered to that channel. */
  ghost predicate PutOk(p: Put, calls: seq<Call>, ch: nat) {
    && p.call < |calls| && calls[p.call].ch == Some(ch)
    && p.k < calls[p.call].next && p.k < |calls[p.call].jobs| && p.job.id == calls[p.call].jobs[p.k]
  }

  /** The entries of each call are in the order of its jobs. */
  ghost predicate ChannelPutsOk(ps: seq<Put>, calls: seq<Call>, ch: nat) {
    && (forall i {:trigger ps[i]} :: 0 <= i < |ps| ==> PutOk(ps[i], calls, ch))
    && (forall i, j :: 0 <= i < j < |ps| && ps[i].call == ps[j].call ==> ps[i].k < ps[j].k)
  }

  ghost predicate PutsOk(puts: seq<seq<Put>>, calls: seq<Call>) {
    forall ch: nat {:trigger ChannelPutsOk(puts[ch], calls, ch)} :: ch < |puts| ==> ChannelPutsOk(puts[ch], calls, ch)
  }

  /** The jobs of call `c` that entered a channel. */
  ghost function EnteredBy(ps: seq<Put>, c: nat): set<nat> {
    set i | 0 <= i < |ps| && ps[i].call == c :: ps[i].k
  }

  /** Of the jobs the call has offered, those that did not enter its channel were counted as rejected. */
  ghost predicate CountOk(puts: seq<seq<Put>>, call: Call, c: nat) {
    call.ch.Some? ==> call.ch.value < |puts| && |EnteredBy(puts[call.ch.value], c)| == call.next - call.rejected
  }

  ghost predicate CountsOk(puts: seq<seq<Put>>, calls: seq<Call>) {
    forall c: nat {:trigger CountOk(puts, calls[c], c)} :: c < |calls| ==> CountOk(puts, calls[c], c)
  }

  ghost predicate Inv(s: Net) {
    && Consistent(s.x) && ChannelsOk(s.x.members, s.inc, s.former, |s.puts|)
    && CallsOk(s.calls) && CallsInUse(s.calls, s.inc, s.former)
    && Conserved(s.x.chans, s.inc, s.former, s.gone, s.puts)
    && PutsOk(s.puts, s.calls) && CountsOk(s.puts, s.calls)
  }

  // ------------------------------------------------------------------ steps keep it

  lemma NewChannelKeepsPuts(puts: seq<seq<Put>>, calls: seq<Call>)
    requires PutsOk(puts, calls) && CountsOk(puts, calls)
    ensures PutsOk(puts + [[]], calls) && CountsOk(puts + [[]], calls)
  {
    var puts' := puts + [[]];
    forall ch: nat | ch < |puts'|
      ensures ChannelPutsOk(puts'[ch], calls, ch)
    {
      if ch < |puts| {
        assert ChannelPutsOk(puts[ch], calls, ch);
      }
    }
    forall c: nat | c < |calls|
      ensures CountOk(puts', calls[c], c)
    {
      assert CountOk(puts, calls[c], c);
    }
  }

  lemma AddKeepsChannels(members: map<Topic, set<TQ.ConsumerId>>, inc: map<Topic, nat>,
                         former: map<nat, seq<TQ.QueuedJob>>, made: nat, t: Topic, cs: set<TQ.ConsumerId>)
    requires ChannelsOk(members, inc, former, made)
    ensures t in members ==> ChannelsOk(members[t := cs], inc, former, made)
    ensures t !in members ==> ChannelsOk(members[t := cs], inc[t := made], former, made + 1)
  {
  }

  lemma AddKeepsConserved(chans: map<Topic, seq<TQ.QueuedJob>>, inc: map<Topic, nat>,
                          former: map<nat, seq<TQ.QueuedJob>>, gone: seq<seq<Exit>>, puts: seq<seq<Put>>, t: Topic)
    requires Conserved(chans, inc, former, gone, puts)
    requires (forall t :: t in inc ==> inc[t] < |puts|) && (forall ch :: ch in former ==> ch < |puts|)
    ensures Conserved(chans[t := []], inc[t := |puts|], former, gone + [[]], puts + [[]])
  {
  }

  lemma AddKeepsInUse(calls: seq<Call>, inc: map<Topic, nat>, former: map<nat, seq<TQ.QueuedJob>>, t: Topic, ch: nat)
    requires CallsInUse(calls, inc, former) && t !in inc
    ensures CallsInUse(calls, inc[t := ch], former)
  {
  }

  lemma AddStep(s: Net, t: Topic, c: TQ.ConsumerId, now: Time)
    requires Inv(s)
    ensures Inv(DoAdd(s, t, c, now))
  {
    AddedConsistent(s.x, t, c, now);
    AddKeepsChannels(s.x.members, s.inc, s.former, |s.puts|, t, Added(s.x, t, c, now).members[t]);
    if t !in s.x.members {
      NewChannelKeepsPuts(s.puts, s.calls);
      AddKeepsConserved(s.x.chans, s.inc, s.former, s.gone, s.puts, t);
      AddKeepsInUse(s.calls, s.inc, s.former, t, |s.puts|);
    }
  }

  lemma RemoveKeepsChannels(members: map<Topic, set<TQ.ConsumerId>>, inc: map<Topic, nat>,
                            former: map<nat, seq<TQ.QueuedJob>>, made: nat, t: Topic)
    requires ChannelsOk(members, inc, former, made) && t in inc
    ensures ChannelsOk(members - {t}, inc - {t}, former[inc[t] := []], made)
  {
  }

  lemma DrainSplits(g: seq<Exit>, q: seq<TQ.QueuedJob>, ps: seq<Put>)
    requires Splits(g, q, ps)
    ensures Splits(g + DrainedAll(q), [], ps)
  {
  }

  lemma RemoveKeepsConserved(chans: map<Topic, seq<TQ.QueuedJob>>, inc: map<Topic, nat>,
                             former: map<nat, seq<TQ.QueuedJob>>, gone: seq<seq<Exit>>, puts: seq<seq<Put>>, t: Topic)
    requires Conserved(chans, inc, former, gone, puts) && t in inc && t in chans && inc[t] < |puts| && inc[t] !in former
    requires forall t' :: t' in inc && inc[t'] == inc[t] ==> t' == t
    ensures Conserved(chans - {t}, inc - {t}, former[inc[t] := []], Leave(gone, inc[t], DrainedAll(chans[t])), puts)
  {
    DrainSplits(gone[inc[t]], chans[t], puts[inc[t]]);
  }

  lemma RemoveKeepsInUse(calls: seq<Call>, inc: map<Topic, nat>, former: map<nat, seq<TQ.QueuedJob>>, t: Topic)
    requires CallsInUse(calls, inc, former) && t in inc
    ensures CallsInUse(calls, inc - {t}, former[inc[t] := []])
  {
  }

  lemma RemoveStep(s: Net, t: Topic, c: TQ.ConsumerId)
    requires Inv(s)
    ensures Inv(DoRemove(s, t, c))
  {
    RemovedConsistent(s.x, t, c);
    if t in s.x.members {
      RemoveKeepsChannels(s.x.members, s.inc, s.former, |s.puts|, t);
      RemoveKeepsConserved(s.x.chans, s.inc, s.former, s.gone, s.puts, t);
      RemoveKeepsInUse(s.calls, s.inc, s.former, t);
    }
  }

  /** A call that goes on without offering successfully. */
  lemma CallMovesOn(puts: seq<seq<Put>>, calls: seq<Call>, c: nat, call': Call)
    requires PutsOk(puts, calls) && CountsOk(puts, calls) && CallsOk(calls) && c < |calls| && CallOk(call')
    requires call'.ch == calls[c].ch && call'.jobs == calls[c].jobs && call'.next >= calls[c].next
    requires call'.next - call'.rejected == calls[c].next - calls[c].rejected
    ensures var calls' := calls[c := call']; PutsOk(puts, calls') && CountsOk(puts, calls') && CallsOk(calls')
  {
    var calls' := calls[c := call'];
    forall ch: nat | ch < |puts|
      ensures ChannelPutsOk(puts[ch], calls', ch)
    {
      assert ChannelPutsOk(puts[ch], calls, ch);
      assert forall i :: 0 <= i < |puts[ch]| ==> PutOk(puts[ch][i], calls, ch);
    }
    forall d: nat | d < |calls'|
      ensures CountOk(puts, calls'[d], d) && CallOk(calls'[d])
    {
      assert CountOk(puts, calls[d], d) && CallOk(calls[d]);
    }
  }

  lemma NewCallKeepsPuts(puts: seq<seq<Put>>, calls: seq<Call>, call: Call)
    requires PutsOk(puts, calls) && CountsOk(puts, calls) && CallsOk(calls) && CallOk(call)
    requires call.next == call.rejected && (call.ch.Some? ==> call.ch.value < |puts|)
    ensures var calls' := calls + [call]; PutsOk(puts, calls') && CountsOk(puts, calls') && CallsOk(calls')
  {
    var calls' := calls + [call];
    forall ch: nat | ch < |puts|
      ensures ChannelPutsOk(puts[ch], calls', ch)
    {
      assert ChannelPutsOk(puts[ch], calls, ch);
      assert forall i :: 0 <= i < |puts[ch]| ==> PutOk(puts[ch][i], calls, ch);
    }
    forall d: nat | d < |calls'|
      ensures CountOk(puts, calls'[d], d) && CallOk(calls'[d])
    {
      if d < |calls| {
        assert CountOk(puts, calls[d], d) && CallOk(calls[d]);
      } else if call.ch.Some? {
        assert ChannelPutsOk(puts[call.ch.value], calls, call.ch.value);
        assert EnteredBy(puts[call.ch.value], d) == {};
      }
    }
  }

  lemma BeginStep(s: Net, t: Topic, jobs: seq<JobId>)
    requires Inv(s)
    ensures Inv(s.(calls := s.calls + [NewCall(s, t, jobs)]))
  {
    NewCallKeepsPuts(s.puts, s.calls, NewCall(s, t, jobs));
  }

  lemma EnteredOneMore(ps: seq<Put>, p: Put, c: nat)
    ensures EnteredBy(ps + [p], c) == EnteredBy(ps, c) + if p.call == c then {p.k} else {}
  {
    assert forall i :: 0 <= i < |ps| ==> (ps + [p])[i] == ps[i];
    assert (ps + [p])[|ps|] == p;
  }

  /** A call whose offer is accepted. */
  lemma PutKeepsPuts(puts: seq<seq<Put>>, calls: seq<Call>, c: nat, ch: nat, now: Time)
    requires PutsOk(puts, calls) && CallsOk(calls) && c < |calls| && ch < |puts|
    requires calls[c].ch == Some(ch) && calls[c].next < |calls[c].jobs|
    ensures var call := calls[c];
      var p := Put(c, call.next, TQ.QueuedJob(call.jobs[call.next], now));
      PutsOk(puts[ch := puts[ch] + [p]], calls[c := call.(next := call.next + 1)])
  {
    var call := calls[c];
    var calls' := calls[c := call.(next := call.next + 1)];
    var puts' := puts[ch := puts[ch] + [Put(c, call.next, TQ.QueuedJob(call.jobs[call.next], now))]];
    forall ch': nat | ch' < |puts'|
      ensures ChannelPutsOk(puts'[ch'], calls', ch')
    {
      assert ChannelPutsOk(puts[ch'], calls, ch');
      assert forall i :: 0 <= i < |puts[ch']| ==> PutOk(puts[ch'][i], calls, ch');
    }
  }

  lemma PutKeepsCounts(puts: seq<seq<Put>>, calls: seq<Call>, c: nat, ch: nat, now: Time)
    requires PutsOk(puts, calls) && CountsOk(puts, calls) && c < |calls| && ch < |puts|
    requires calls[c].ch == Some(ch) && calls[c].next < |calls[c].jobs|
    ensures var call := calls[c];
      var p := Put(c, call.next, TQ.QueuedJob(call.jobs[call.next], now));
      CountsOk(puts[ch := puts[ch] + [p]], calls[c := call.(next := call.next + 1)])
  {
    var call := calls[c];
    var p := Put(c, call.next, TQ.QueuedJob(call.jobs[call.next], now));
    var calls' := calls[c := call.(next := call.next + 1)];
    var puts' := puts[ch := puts[ch] + [p]];
    assert ChannelPutsOk(puts[ch], calls, ch);
    forall d: nat | d < |calls'|
      ensures CountOk(puts', calls'[d], d)
    {
      assert CountOk(puts, calls[d], d);
      EnteredOneMore(puts[ch], p, d);
      if d == c {
        assert forall i :: 0 <= i < |puts[ch]| ==> PutOk(puts[ch][i], calls, ch);
        assert call.next !in EnteredBy(puts[ch], c);
      }
    }
  }

  lemma PutSplits(g: seq<Exit>, q: seq<TQ.QueuedJob>, ps: seq<Put>, p: Put)
    requires Splits(g, q, ps)
    ensures Splits(g, q + [p.job], ps + [p])
  {
  }

  /** A put into the current channel of topic `t`. */
  lemma PutCurrentConserved(chans: map<Topic, seq<TQ.QueuedJob>>, inc: map<Topic, nat>,
                            former: map<nat, seq<TQ.QueuedJob>>, gone: seq<seq<Exit>>, puts: seq<seq<Put>>,
                            t: Topic, p: Put)
    requires Conserved(chans, inc, former, gone, puts) && t in chans && t in inc && inc[t] < |puts| && inc[t] !in former
    requires forall t' :: t' in inc && inc[t'] == inc[t] ==> t' == t
    ensures Conserved(chans[t := chans[t] + [p.job]], inc, former, gone, puts[inc[t] := puts[inc[t]] + [p]])
  {
    PutSplits(gone[inc[t]], chans[t], puts[inc[t]], p);
  }

  /** A put into a former channel. */
  lemma PutFormerConserved(chans: map<Topic, seq<TQ.QueuedJob>>, inc: map<Topic, nat>,
                           former: map<nat, seq<TQ.QueuedJob>>, gone: seq<seq<Exit>>, puts: seq<seq<Put>>,
                           ch: nat, p: Put)
    requires Conserved(chans, inc, former, gone, puts) && ch in former && ch < |puts|
    requires forall t :: t in inc ==> inc[t] != ch
    ensures Conserved(chans, inc, former[ch := former[ch] + [p.job]], gone, puts[ch := puts[ch] + [p]])
  {
    PutSplits(gone[ch], former[ch], puts[ch], p);
  }

  lemma UpdateKeepsChannels(s: Net, ch: nat, q: seq<TQ.QueuedJob>)
    requires ChannelsOk(s.x.members, s.inc, s.former, |s.puts|) && ch in s.former
    ensures ChannelsOk(s.x.members, s.inc, s.former[ch := q], |s.puts|)
    ensures CallsInUse(s.calls, s.inc, s.former) ==> CallsInUse(s.calls, s.inc, s.former[ch := q])
  {
  }

  lemma NextKeepsCalls(s: Net, c: nat, call': Call)
    requires CallsOk(s.calls) && CallsInUse(s.calls, s.inc, s.former) && c < |s.calls| && CallOk(call')
    requires call'.topic == s.calls[c].topic && call'.ch == s.calls[c].ch
    ensures CallsOk(s.calls[c := call']) && CallsInUse(s.calls[c := call'], s.inc, s.former)
  {
    var calls' := s.calls[c := call'];
    forall d: nat | d < |calls'|
      ensures CallOk(calls'[d])
    {
      assert CallOk(s.calls[d]);
    }
  }

  /** The call's own channel is its topic's current one. */
  lemma AcceptCurrent(s: Net, s': Net, t: Topic, ch: nat, p: Put)
    requires Inv(s) && Current(s, t, ch) && ch < |s.puts| && |s.x.chans[t]| < TQ.QUEUE_CAPACITY
    requires s'.x == Offered(s.x, t, p.job) && s'.inc == s.inc && s'.former == s.former && s'.gone == s.gone
    requires s'.puts == s.puts[ch := s.puts[ch] + [p]] && PutsOk(s'.puts, s'.calls) && CountsOk(s'.puts, s'.calls)
    requires CallsOk(s'.calls) && CallsInUse(s'.calls, s.inc, s.former)
    ensures Inv(s')
  {
    OfferedConsistent(s.x, t, p.job);
    PutCurrentConserved(s.x.chans, s.inc, s.former, s.gone, s.puts, t, p);
  }

  /** It is a former one. */
  lemma AcceptFormer(s: Net, s': Net, t: Topic, ch: nat, p: Put)
    requires Inv(s) && !Current(s, t, ch) && ch in s.former && |s.former[ch]| < TQ.QUEUE_CAPACITY
    requires s'.x == s.x && s'.inc == s.inc && s'.former == s.former[ch := s.former[ch] + [p.job]] && s'.gone == s.gone
    requires s'.puts == s.puts[ch := s.puts[ch] + [p]] && PutsOk(s'.puts, s'.calls) && CountsOk(s'.puts, s'.calls)
    requires CallsOk(s'.calls) && CallsInUse(s'.calls, s.inc, s.former)
    ensures Inv(s')
  {
    UpdateKeepsChannels(s.(calls := s'.calls), ch, s.former[ch] + [p.job]);
    PutFormerConserved(s.x.chans, s.inc, s.former, s.gone, s.puts, ch, p);
  }

  /** What an accepted offer does to the calls and the entries. */
  lemma AcceptKeepsCalls(s: Net, c: nat, now: Time)
    requires Inv(s) && CanOffer(s, c) && FindsRoom(s, c)
    ensures InUse(s.calls[c].topic, s.calls[c].ch.value, s.inc, s.former)
    ensures var s' := Accepts(s, c, now);
      && PutsOk(s'.puts, s'.calls) && CountsOk(s'.puts, s'.calls)
      && CallsOk(s'.calls) && CallsInUse(s'.calls, s.inc, s.former)
  {
    var call := s.calls[c];
    var call', ch := call.(next := call.next + 1), call.ch.value;
    var p := Put(c, call.next, TQ.QueuedJob(call.jobs[call.next], now));
    assert Accepts(s, c, now).calls == s.calls[c := call'];
    assert Accepts(s, c, now).puts == s.puts[ch := s.puts[ch] + [p]];
    assert CallOk(call);
    PutKeepsPuts(s.puts, s.calls, c, ch, now);
    PutKeepsCounts(s.puts, s.calls, c, ch, now);
    NextKeepsCalls(s, c, call');
  }

  lemma AcceptStep(s: Net, c: nat, now: Time)
    requires Inv(s) && CanOffer(s, c) && FindsRoom(s, c)
    ensures Inv(Accepts(s, c, now))
  {
    var call := s.calls[c];
    var t, ch := call.topic, call.ch.value;
    var p := Put(c, call.next, TQ.QueuedJob(call.jobs[call.next], now));
    AcceptKeepsCalls(s, c, now);
    if Current(s, t, ch) {
      AcceptCurrent(s, Accepts(s, c, now), t, ch, p);
    } else {
      AcceptFormer(s, Accepts(s, c, now), t, ch, p);
    }
  }

  lemma CallStep(s: Net, c: nat, call': Call, s': Net)
    requires Inv(s) && c < |s.calls| && CallOk(call') && s' == s.(calls := s.calls[c := call'])
    requires call'.topic == s.calls[c].topic && call'.ch == s.calls[c].ch && call'.jobs == s.calls[c].jobs
    requires call'.next >= s.calls[c].next
    requires call'.next - call'.rejected == s.calls[c].next - s.calls[c].rejected
    ensures Inv(s')
  {
    CallMovesOn(s.puts, s.calls, c, call');
    NextKeepsCalls(s, c, call');
  }

  lemma MarkByNameStep(s: Net, t: Topic, now: Time)
    requires Inv(s)
    ensures Inv(MarkByName(s, t, now))
  {
    MarkedConsistent(s.x, t, now);
  }

  lemma ReturnStep(s: Net, c: nat, now: Time)
    requires Inv(s) && CanReturn(s, c)
    ensures Inv(DoReturn(s, c, now))
  {
    var call := s.calls[c];
    assert CallOk(call);
    MarkByNameStep(s, call.topic, now);
    var marked := if call.rejected > 0 then MarkByName(s, call.topic, now) else s;
    CallStep(marked, c, call.(phase := Returned), DoReturn(s, c, now));
  }

  lemma MarkStep(s: Net, c: nat, now: Time)
    requires Inv(s) && CanMark(s, c)
    ensures Inv(DoMark(s, c, now))
  {
    var call := s.calls[c];
    assert CallOk(call);
    MarkByNameStep(s, call.topic, now);
    CallStep(MarkByName(s, call.topic, now), c, call.(phase := Offering), DoMark(s, c, now));
  }

  lemma RefuseStep(s: Net, c: nat)
    requires Inv(s) && CanOffer(s, c)
    ensures Inv(Refuses(s, c))
  {
    var call := s.calls[c];
    assert CallOk(call);
    CallStep(s, c, call.(next := call.next + 1, rejected := call.rejected + 1, phase := Owing), Refuses(s, c));
  }

  lemma TakeSplits(g: seq<Exit>, q: seq<TQ.QueuedJob>, ps: seq<Put>)
    requires Splits(g, q, ps) && q != []
    ensures Splits(g + [Took(q[0])], q[1..], ps)
  {
  }

  lemma TakeKeepsConserved(chans: map<Topic, seq<TQ.QueuedJob>>, inc: map<Topic, nat>,
                           former: map<nat, seq<TQ.QueuedJob>>, gone: seq<seq<Exit>>, puts: seq<seq<Put>>, t: Topic)
    requires Conserved(chans, inc, former, gone, puts) && t in chans && chans[t] != []
    requires t in inc && inc[t] < |puts| && inc[t] !in former
    requires forall t' :: t' in inc && inc[t'] == inc[t] ==> t' == t
    ensures Conserved(chans[t := chans[t][1..]], inc, former, Leave(gone, inc[t], [Took(chans[t][0])]), puts)
  {
    TakeSplits(gone[inc[t]], chans[t], puts[inc[t]]);
  }

  lemma TakeStep(s: Net, t: Topic)
    requires Inv(s) && CanTake(s, t)
    ensures Inv(DoTake(s, t))
  {
    TakenConsistent(s.x, t);
    TakeKeepsConserved(s.x.chans, s.inc, s.former, s.gone, s.puts, t);
  }

  lemma TakeOldKeepsConserved(chans: map<Topic, seq<TQ.QueuedJob>>, inc: map<Topic, nat>,
                              former: map<nat, seq<TQ.QueuedJob>>, gone: seq<seq<Exit>>, puts: seq<seq<Put>>, ch: nat)
    requires Conserved(chans, inc, former, gone, puts) && ch in former && former[ch] != [] && ch < |puts|
    requires forall t :: t in inc ==> inc[t] != ch
    ensures Conserved(chans, inc, former[ch := former[ch][1..]], Leave(gone, ch, [Took(former[ch][0])]), puts)
  {
    TakeSplits(gone[ch], former[ch], puts[ch]);
  }

  lemma TakeOldStep(s: Net, ch: nat)
    requires Inv(s) && ch in s.former && s.former[ch] != []
    ensures Inv(DoTakeOld(s, ch))
  {
    UpdateKeepsChannels(s, ch, s.former[ch][1..]);
    TakeOldKeepsConserved(s.x.chans, s.inc, s.former, s.gone, s.puts, ch);
  }

  lemma OfferStep(s: Net, c: nat, now: Time)
    requires Inv(s) && CanOffer(s, c)
    ensures Inv(if FindsRoom(s, c) then Accepts(s, c, now) else Refuses(s, c))
  {
    if FindsRoom(s, c) {
      AcceptStep(s, c, now);
    } else {
      RefuseStep(s, c);
    }
  }

  /** The blocks of enqueue calls. */
  ghost predicate OfCall(e: Event) {
    e.Begins? || e.Offers? || e.Marks? || e.Returns?
  }

  lemma CallBlockStep(s: Net, e: Event)
    requires Inv(s) && OfCall(e)
    ensures Inv(Step(s, e))
  {
    match e
    case Begins(t, jobs, now) => BeginStep(s, t, jobs);
    case Offers(c, now) => if CanOffer(s, c) { OfferStep(s, c, now); }
    case Marks(c, now) => if CanMark(s, c) { MarkStep(s, c, now); }
    case Returns(c, now) => if CanReturn(s, c) { ReturnStep(s, c, now); }
  }

  lemma OtherStep(s: Net, e: Event)
    requires Inv(s) && !OfCall(e)
    ensures Inv(Step(s, e))
  {
    match e
    case Adds(t, c, now) => AddStep(s, t, c, now);
    case Removes(t, c, now) => RemoveStep(s, t, c);
    case Takes(t, now) => if CanTake(s, t) { TakeStep(s, t); }
    case TakesOld(ch, now) => if ch in s.former && s.former[ch] != [] { TakeOldStep(s, ch); }
    case Reports(order, free, now) => ReportedConsistent(s.x, now);
  }

  lemma StepKeepsInv(s: Net, e: Event)
    requires Inv(s)
    ensures Inv(Step(s, e))
  {
    if OfCall(e) {
      CallBlockStep(s, e);
    } else {
      OtherStep(s, e);
    }
  }

  lemma {:induction false} RunKeepsInv(run: seq<Event>, st: seq<Net>, n: nat)
    requires IsRun(run, st) && n < |st|
    ensures Inv(st[n])
  {
    if n > 0 {
      RunKeepsInv(run, st, n - 1);
      assert StepAt(run, st, n - 1);
      StepKeepsInv(st[n - 1], run[n - 1]);
    }
  }

  // ------------------------------------------------------------------ what a call returns

  /** Job `k` of call `c` entered a channel, at entry `i` of channel `ch`. */
  ghost predicate EnteredAt(puts: seq<seq<Put>>, c: nat, k: nat, ch: nat, i: nat) {
    ch < |puts| && i < |puts[ch]| && puts[ch][i].call == c && puts[ch][i].k == k
  }

  ghost predicate Entered(puts: seq<seq<Put>>, c: nat, k: nat) {
    exists ch: nat, i: nat :: EnteredAt(puts, c, k, ch, i)
  }

  lemma EnteredInOwnChannel(s: Net, c: nat, k: nat)
    requires Inv(s) && c < |s.calls|
    ensures Entered(s.puts, c, k) <==> s.calls[c].ch.Some? && k in EnteredBy(s.puts[s.calls[c].ch.value], c)
    ensures Entered(s.puts, c, k) ==> k < |s.calls[c].jobs|
  {
    assert CountOk(s.puts, s.calls[c], c);
    if ch: nat, i: nat :| EnteredAt(s.puts, c, k, ch, i) {
      assert ChannelPutsOk(s.puts[ch], s.calls, ch);
      assert PutOk(s.puts[ch][i], s.calls, ch);
    } else if s.calls[c].ch.Some? && k in EnteredBy(s.puts[s.calls[c].ch.value], c) {
      var ch := s.calls[c].ch.value;
      var i :| 0 <= i < |s.puts[ch]| && s.puts[ch][i].call == c && s.puts[ch][i].k == k;
      assert EnteredAt(s.puts, c, k, ch, i);
    }
  }

  /** Whatever is interleaved with a call, the number it has counted as rejected is the number of jobs
      it offered that never entered a channel; so the number it returns is exactly the number of its
      jobs that were not accepted. */
  lemma RejectedIsTheRest(run: seq<Event>, st: seq<Net>, n: nat, c: nat)
    requires IsRun(run, st) && n < |st| && c < |st[n].calls|
    ensures var call := st[n].calls[c];
      var accepted := set k: nat | k < |call.jobs| && Entered(st[n].puts, c, k);
      && call.rejected == call.next - |accepted|
      && (call.phase == Returned ==> call.rejected == |call.jobs| - |accepted|)
  {
    RunKeepsInv(run, st, n);
    var s, call := st[n], st[n].calls[c];
    var accepted := set k: nat | k < |call.jobs| && Entered(s.puts, c, k);
    assert CallOk(call) && CountOk(s.puts, call, c);
    forall k: nat | k < |call.jobs|
      ensures Entered(s.puts, c, k) <==> call.ch.Some? && k in EnteredBy(s.puts[call.ch.value], c)
    {
      EnteredInOwnChannel(s, c, k);
    }
    if call.ch.Some? {
      forall k | k in EnteredBy(s.puts[call.ch.value], c)
        ensures k in accepted
      {
        EnteredInOwnChannel(s, c, k);
      }
      assert accepted == EnteredBy(s.puts[call.ch.value], c);
    } else {
      assert accepted == {};
    }
  }

  /** No job enters twice, and those of one call enter in order. */
  lemma EnteredOnceInOrder(run: seq<Event>, st: seq<Net>, n: nat, c: nat, k: nat, k': nat, ch: nat, i: nat, ch': nat,
                           i': nat)
    requires IsRun(run, st) && n < |st| && c < |st[n].calls|
    requires EnteredAt(st[n].puts, c, k, ch, i) && EnteredAt(st[n].puts, c, k', ch', i')
    ensures ch == ch' && (i < i' <==> k < k')
  {
    RunKeepsInv(run, st, n);
    var s := st[n];
    assert ChannelPutsOk(s.puts[ch], s.calls, ch) && ChannelPutsOk(s.puts[ch'], s.calls, ch');
    assert PutOk(s.puts[ch][i], s.calls, ch) && PutOk(s.puts[ch'][i'], s.calls, ch');
  }

  /** Conservation: what entered a live topic's channel is, in order, what its dispatcher took and then
      what is queued; nothing was drained from it. */
  lemma QueueIsConserved(run: seq<Event>, st: seq<Net>, n: nat, t: Topic)
    requires IsRun(run, st) && n < |st| && t in st[n].x.chans
    ensures t in st[n].inc && st[n].inc[t] < |st[n].puts| && st[n].inc[t] < |st[n].gone|
    ensures Splits(st[n].gone[st[n].inc[t]], st[n].x.chans[t], st[n].puts[st[n].inc[t]])
    ensures OnlyTaken(st[n].gone[st[n].inc[t]])
  {
    RunKeepsInv(run, st, n);
  }

  /** The same for the channel of a former incarnation, of which the removal drained a part. */
  lemma FormerIsConserved(run: seq<Event>, st: seq<Net>, n: nat, ch: nat)
    requires IsRun(run, st) && n < |st| && ch in st[n].former
    ensures ch < |st[n].puts| && ch < |st[n].gone| && Splits(st[n].gone[ch], st[n].former[ch], st[n].puts[ch])
  {
    RunKeepsInv(run, st, n);
  }

  /** What a step may do to the queue of a topic that stays: an offer of a call that found this channel
      appends its job if there is room, the dispatcher takes the oldest, and nothing else happens to it. */
  ghost predicate QueueStep(s: Net, e: Event, t: Topic, before: seq<TQ.QueuedJob>, after: seq<TQ.QueuedJob>) {
    if e.Takes? && e.topic == t then after == if before == [] then [] else before[1..]
    else if && e.Offers? && CanOffer(s, e.call) && s.calls[e.call].topic == t && |before| < 25000
            && t in s.inc && s.calls[e.call].ch == Some(s.inc[t])
    then after == before + [TQ.QueuedJob(s.calls[e.call].jobs[s.calls[e.call].next], e.now)]
    else after == before
  }

  /** These jobs left the channel at the end of what had left it before, drained. */
  ghost predicate DrainsInto(before: seq<Exit>, after: seq<Exit>, q: seq<TQ.QueuedJob>) {
    && before <= after && |after| == |before| + |q|
    && forall i :: 0 <= i < |q| ==> after[|before| + i] == Drained(q[i])
  }

  /** When a topic goes, its queue is drained: every job in it is recorded as drained, in order, and the
      channel, which calls may still hold, is empty. */
  lemma RemovalDrains(run: seq<Event>, st: seq<Net>, n: nat, t: Topic)
    requires IsRun(run, st) && n < |run| && t in st[n].inc && t !in st[n + 1].inc
    ensures run[n].Removes? && run[n].topic == t && t in st[n].x.chans
    ensures var s, s', ch := st[n], st[n + 1], st[n].inc[t];
      && ch in s'.former && s'.former[ch] == [] && ch < |s.gone| == |s'.gone|
      && DrainsInto(s.gone[ch], s'.gone[ch], s.x.chans[t])
  {
    assert StepAt(run, st, n);
    ChansAt(run, st, n, t);
    QueueIsConserved(run, st, n, t);
    StepDrains(st[n], run[n], t);
  }

  lemma StepDrains(s: Net, e: Event, t: Topic)
    requires t in s.inc && t in s.x.chans && s.inc[t] < |s.gone| && t !in Step(s, e).inc
    ensures e.Removes? && e.topic == t
    ensures var s', ch := Step(s, e), s.inc[t];
      ch in s'.former && s'.former[ch] == [] && |s'.gone| == |s.gone| && DrainsInto(s.gone[ch], s'.gone[ch], s.x.chans[t])
  {
  }

  /** The same for a channel of a former incarnation. */
  lemma FormerChangesOnlyBy(s: Net, e: Event, ch: nat)
    requires ch in s.former && ch in Step(s, e).former && forall t :: t in s.inc ==> s.inc[t] != ch
    ensures var before, after := s.former[ch], Step(s, e).former[ch];
      if e.TakesOld? && e.ch == ch then after == if before == [] then [] else before[1..]
      else if e.Offers? && CanOffer(s, e.call) && s.calls[e.call].ch == Some(ch) && |before| < 25000
      then after == before + [TQ.QueuedJob(s.calls[e.call].jobs[s.calls[e.call].next], e.now)]
      else after == before
  {
  }

  lemma QueueChangesOnlyBy(run: seq<Event>, st: seq<Net>, n: nat, t: Topic)
    requires IsRun(run, st) && n < |run| && t in st[n].x.chans && t in st[n + 1].x.chans
    ensures QueueStep(st[n], run[n], t, st[n].x.chans[t], st[n + 1].x.chans[t])
  {
    assert StepAt(run, st, n);
    KeysAt(run, st, n, t);
    ChansAt(run, st, n, t);
    StepChangesQueue(st[n], run[n], t);
  }

  lemma StepChangesQueue(s: Net, e: Event, t: Topic)
    requires t in s.x.chans && t in s.inc && t in s.x.members && t in Step(s, e).x.chans
    ensures QueueStep(s, e, t, s.x.chans[t], Step(s, e).x.chans[t])
  {
    if e.Offers? {
      OfferChangesQueue(s, e.call, e.now, t);
    } else {
      OtherChangesQueue(s, e, t);
    }
  }

  lemma OfferChangesQueue(s: Net, c: nat, now: Time, t: Topic)
    requires t in s.x.chans && t in s.inc
    ensures var s' := Step(s, Offers(c, now));
      t in s'.x.chans && QueueStep(s, Offers(c, now), t, s.x.chans[t], s'.x.chans[t])
  {
  }

  lemma OtherChangesQueue(s: Net, e: Event, t: Topic)
    requires t in s.x.chans && t in s.inc && t in s.x.members && t in Step(s, e).x.chans && !e.Offers?
    ensures QueueStep(s, e, t, s.x.chans[t], Step(s, e).x.chans[t])
  {
  }

  // ------------------------------------------------------------------ incarnations

  lemma StepKeepsCallId(s: Net, e: Event, c: nat)
    requires c < |s.calls|
    ensures |s.calls| <= |Step(s, e).calls|
    ensures var call, call' := s.calls[c], Step(s, e).calls[c];
      call'.topic == call.topic && call'.ch == call.ch && call'.jobs == call.jobs
  {
  }

  /** A call's topic, jobs and channel stay what they were when it began. */
  lemma {:induction false} CallIdStays(run: seq<Event>, st: seq<Net>, m: nat, n: nat, c: nat)
    requires IsRun(run, st) && m <= n < |st| && c < |st[m].calls|
    ensures c < |st[n].calls|
    ensures var call, call' := st[m].calls[c], st[n].calls[c];
      call'.topic == call.topic && call'.ch == call.ch && call'.jobs == call.jobs
    decreases n
  {
    if m < n {
      CallIdStays(run, st, m, n - 1, c);
      assert StepAt(run, st, n - 1);
      StepKeepsCallId(st[n - 1], run[n - 1], c);
    }
  }

  /** Where a call began, and the channel it found there. */
  lemma {:induction false} CallBegan(run: seq<Event>, st: seq<Net>, n: nat, c: nat) returns (b: nat)
    requires IsRun(run, st) && n < |st| && c < |st[n].calls|
    ensures b < n && run[b].Begins? && |st[b].calls| == c
    ensures st[n].calls[c].topic == run[b].topic && st[n].calls[c].jobs == run[b].jobs
    ensures st[n].calls[c].ch == if run[b].topic in st[b].inc then Some(st[b].inc[run[b].topic]) else None
  {
    assert StepAt(run, st, n - 1);
    if c < |st[n - 1].calls| {
      b := CallBegan(run, st, n - 1, c);
      StepKeepsCallId(st[n - 1], run[n - 1], c);
    } else {
      b := n - 1;
      CallsOneMore(st[b], run[b]);
    }
  }

  lemma CallsOneMore(s: Net, e: Event)
    requires |Step(s, e).calls| != |s.calls|
    ensures e.Begins? && Step(s, e).calls == s.calls + [NewCall(s, e.topic, e.jobs)]
  {
  }

  ghost predicate KeysOk(x: Index, inc: map<Topic, nat>, t: Topic) {
    && (t in x.members <==> t in inc) && (t in x.members <==> t in x.pressure)
  }

  lemma KeysAt(run: seq<Event>, st: seq<Net>, n: nat, t: Topic)
    requires IsRun(run, st) && n < |st|
    ensures KeysOk(st[n].x, st[n].inc, t)
  {
    RunKeepsInv(run, st, n);
  }

  /** One step keeps a topic's channel, removes the topic, or makes a new channel for it. */
  lemma StepAndChannel(s: Net, e: Event, t: Topic)
    requires t in s.inc <==> t in s.x.members
    ensures |s.puts| <= |Step(s, e).puts|
    ensures t in Step(s, e).inc ==> Step(s, e).inc[t] == if t in s.inc then s.inc[t] else |s.puts|
  {
  }

  /** The same along a run. */
  lemma ChannelAfter(run: seq<Event>, st: seq<Net>, n: nat, t: Topic)
    requires IsRun(run, st) && 0 < n < |st|
    ensures |st[n - 1].puts| <= |st[n].puts|
    ensures t in st[n].inc ==> st[n].inc[t] == if t in st[n - 1].inc then st[n - 1].inc[t] else |st[n - 1].puts|
  {
    KeysAt(run, st, n - 1, t);
    assert StepAt(run, st, n - 1);
    StepAndChannel(st[n - 1], run[n - 1], t);
  }

  lemma ChannelIsMade(run: seq<Event>, st: seq<Net>, n: nat, t: Topic)
    requires IsRun(run, st) && n < |st| && t in st[n].inc
    ensures st[n].inc[t] < |st[n].puts|
  {
    RunKeepsInv(run, st, n);
  }

  lemma {:induction false} MadeNeverFalls(run: seq<Event>, st: seq<Net>, m: nat, n: nat)
    requires IsRun(run, st) && m <= n < |st|
    ensures |st[m].puts| <= |st[n].puts|
    decreases n
  {
    if m < n {
      MadeNeverFalls(run, st, m, n - 1);
      ChannelAfter(run, st, n, Topic(""));
    }
  }

  /** The topic has been live without a break. */
  ghost predicate LiveThroughout(st: seq<Net>, m: nat, n: nat, t: Topic) {
    forall j: nat :: m <= j <= n && j < |st| ==> t in st[j].inc
  }

  /** A topic that is live at two points has the same channel there if and only if it was live in
      between: a channel is never used again once its topic was removed. */
  lemma {:induction false} SameChannelIffLiveThroughout(run: seq<Event>, st: seq<Net>, m: nat, n: nat, t: Topic)
    requires IsRun(run, st) && m <= n < |st| && t in st[m].inc && t in st[n].inc
    ensures st[m].inc[t] == st[n].inc[t] <==> LiveThroughout(st, m, n, t)
    ensures st[m].inc[t] <= st[n].inc[t]
    decreases n
  {
    if m < n {
      ChannelAfter(run, st, n, t);
      if t in st[n - 1].inc {
        SameChannelIffLiveThroughout(run, st, m, n - 1, t);
      } else {
        ChannelIsMade(run, st, m, t);
        MadeNeverFalls(run, st, m, n - 1);
      }
    }
  }

  // ------------------------------------------------------------------ rejections and marks

  /** At step `q` an offer of call `c` is refused: the channel it found is full. */
  ghost predicate RefusedAt(run: seq<Event>, st: seq<Net>, q: nat, c: nat) {
    q < |run| && q < |st| && run[q].Offers? && run[q].call == c && CanOffer(st[q], c) && !FindsRoom(st[q], c)
  }

  /** At step `m` call `c` marks a topic, if there is one of that name. */
  ghost predicate MarksBy(run: seq<Event>, st: seq<Net>, m: nat, c: nat) {
    m < |run| && m < |st| &&
    (|| (run[m].Marks? && run[m].call == c && CanMark(st[m], c))
     || (run[m].Returns? && run[m].call == c && CanReturn(st[m], c) && st[m].calls[c].rejected > 0))
  }

  lemma StepRefuses(s: Net, e: Event, c: nat)
    requires c < |s.calls| && Step(s, e).calls[c].rejected > s.calls[c].rejected
    ensures e.Offers? && e.call == c && CanOffer(s, c) && !FindsRoom(s, c)
  {
  }

  /** Behind every counted rejection is a refused offer. */
  lemma {:induction false} RejectionWasRefused(run: seq<Event>, st: seq<Net>, n: nat, c: nat) returns (q: nat)
    requires IsRun(run, st) && n < |st| && c < |st[n].calls|
    requires st[n].calls[c].ch.Some? && st[n].calls[c].rejected > 0
    ensures q < n && RefusedAt(run, st, q, c)
  {
    assert StepAt(run, st, n - 1);
    var s, e := st[n - 1], run[n - 1];
    if c < |s.calls| {
      StepKeepsCallId(s, e, c);
      if s.calls[c].rejected > 0 {
        q := RejectionWasRefused(run, st, n - 1, c);
      } else {
        q := n - 1;
        StepRefuses(s, e, c);
      }
    } else {
      CallsOneMore(s, e);
    }
  }

  /** Only a call with a refused offer behind it marks: no mark without a rejection. */
  lemma MarkHasRejection(run: seq<Event>, st: seq<Net>, m: nat, c: nat) returns (q: nat)
    requires IsRun(run, st) && MarksBy(run, st, m, c)
    ensures q < m && RefusedAt(run, st, q, c)
  {
    RunKeepsInv(run, st, m);
    assert CallOk(st[m].calls[c]);
    q := RejectionWasRefused(run, st, m, c);
  }

  /** A refused offer is marked before the call does anything else: no rejection without a mark, but
      for the one a call is about to make. */
  lemma {:induction false} RejectionIsMarked(run: seq<Event>, st: seq<Net>, q: nat, n: nat, c: nat)
    requires IsRun(run, st) && q < n < |st| && RefusedAt(run, st, q, c)
    ensures CanMark(st[n], c) || exists m: nat :: q < m < n && MarksBy(run, st, m, c)
    decreases n
  {
    assert StepAt(run, st, n - 1);
    if q < n - 1 {
      RejectionIsMarked(run, st, q, n - 1, c);
      if CanMark(st[n - 1], c) && !CanMark(st[n], c) {
        StepMarks(st[n - 1], run[n - 1], c);
        assert MarksBy(run, st, n - 1, c);
      }
    }
  }

  lemma StepMarks(s: Net, e: Event, c: nat)
    requires CanMark(s, c) && !CanMark(Step(s, e), c)
    ensures e.Marks? && e.call == c
  {
  }

  // ------------------------------------------------------------------ the backpressure window

  /** At step `m` a call marks topic `t`, which is live. */
  ghost predicate TopicMarkedAt(run: seq<Event>, st: seq<Net>, m: nat, t: Topic) {
    && m < |run| && m < |st| && (run[m].Marks? || run[m].Returns?)
    && MarksBy(run, st, m, run[m].call) && st[m].calls[run[m].call].topic == t && t in st[m].inc
  }

  /** Some call marked the topic, in its current incarnation, at most two seconds ago. */
  ghost predicate RecentlyRejected(run: seq<Event>, st: seq<Net>, n: nat, t: Topic, now: Time) {
    exists m: nat :: m < n && TopicMarkedAt(run, st, m, t) && LiveThroughout(st, m, n, t)
                     && now - run[m].now <= 2000
  }

  /** A topic's mark is that of its last rejection, dropped at the earliest when the window after
      it has passed; without a rejection there is no mark. */
  ghost predicate Remembered(x: Index, rejectedAt: map<Topic, Time>, clock: Time, t: Topic) {
    && (t in rejectedAt ==> t in x.members)
    && (t in x.pressure && t !in rejectedAt ==> !x.pressure[t].saturated)
    && (t in x.pressure && t in rejectedAt ==>
          && x.pressure[t].lastUpdated == rejectedAt[t]
          && (x.pressure[t].saturated || clock - rejectedAt[t] > SATURATION_WINDOW))
  }

  lemma MarkRemembers(s: Net, clock: Time, t': Topic, now: Time, t: Topic)
    requires KeysOk(s.x, s.inc, t) && Remembered(s.x, s.rejectedAt, clock, t) && clock <= now
    ensures Remembered(MarkByName(s, t', now).x, MarkByName(s, t', now).rejectedAt, now, t)
    ensures Remembered(s.x, s.rejectedAt, now, t)
  {
  }

  lemma ReportRemembers(s: Net, clock: Time, now: Time, t: Topic)
    requires KeysOk(s.x, s.inc, t) && Remembered(s.x, s.rejectedAt, clock, t) && clock <= now
    ensures Remembered(Reported(s.x, now), s.rejectedAt, now, t)
  {
  }

  lemma TurnoverRemembers(s: Net, clock: Time, e: Event, t: Topic)
    requires KeysOk(s.x, s.inc, t) && Remembered(s.x, s.rejectedAt, clock, t) && clock <= e.now
    requires e.Adds? || e.Removes?
    ensures Remembered(Step(s, e).x, Step(s, e).rejectedAt, e.now, t)
  {
  }

  lemma StepRemembers(s: Net, clock: Time, e: Event, t: Topic)
    requires KeysOk(s.x, s.inc, t) && Remembered(s.x, s.rejectedAt, clock, t) && clock <= e.now
    ensures Remembered(Step(s, e).x, Step(s, e).rejectedAt, e.now, t)
  {
    match e
    case Adds(t', c, now) => TurnoverRemembers(s, clock, e, t);
    case Removes(t', c, now) => TurnoverRemembers(s, clock, e, t);
    case Marks(c, now) => if CanMark(s, c) { MarkRemembers(s, clock, s.calls[c].topic, now, t); }
    case Returns(c, now) => if CanReturn(s, c) { MarkRemembers(s, clock, s.calls[c].topic, now, t); }
    case Reports(order, free, now) => ReportRemembers(s, clock, now, t);
    case _ =>
  }

  ghost function ClockAt(run: seq<Event>, n: nat): Time
    requires n <= |run|
  {
    if n == 0 then 0 else run[n - 1].now
  }

  lemma {:induction false} RejectionsRemembered(run: seq<Event>, st: seq<Net>, n: nat, t: Topic)
    requires IsRun(run, st) && n < |st| && Monotone(run)
    ensures Remembered(st[n].x, st[n].rejectedAt, ClockAt(run, n), t)
  {
    if n > 0 {
      RejectionsRemembered(run, st, n - 1, t);
      KeysAt(run, st, n - 1, t);
      assert StepAt(run, st, n - 1);
      StepRemembers(st[n - 1], ClockAt(run, n - 1), run[n - 1], t);
    }
  }

  /** One step's effect on the last rejection of a topic that is live afterwards. */
  lemma StepRejects(run: seq<Event>, st: seq<Net>, n: nat, t: Topic)
    requires IsRun(run, st) && 0 < n < |st| && t in st[n].inc && KeysOk(st[n - 1].x, st[n - 1].inc, t)
    ensures var before, after := st[n - 1].rejectedAt, st[n].rejectedAt;
      if TopicMarkedAt(run, st, n - 1, t) then t in after && after[t] == run[n - 1].now
      else (t in after <==> t in before) && (t in after ==> after[t] == before[t])
  {
    assert StepAt(run, st, n - 1);
  }

  /** `rejectedAt` is the time of the last mark in the topic's current incarnation. */
  lemma {:induction false} LastMark(run: seq<Event>, st: seq<Net>, n: nat, t: Topic)
    requires IsRun(run, st) && n < |st| && Monotone(run) && t in st[n].inc
    ensures t in st[n].rejectedAt ==>
              exists m: nat :: m < n && TopicMarkedAt(run, st, m, t) && LiveThroughout(st, m, n, t)
                               && run[m].now == st[n].rejectedAt[t]
    ensures forall m: nat :: m < n && TopicMarkedAt(run, st, m, t) && LiveThroughout(st, m, n, t) ==>
              t in st[n].rejectedAt && run[m].now <= st[n].rejectedAt[t]
  {
    if n > 0 {
      KeysAt(run, st, n - 1, t);
      StepRejects(run, st, n, t);
      assert forall m: nat :: m < n && LiveThroughout(st, m, n, t) ==> LiveThroughout(st, m, n - 1, t);
      if t in st[n - 1].inc {
        LastMark(run, st, n - 1, t);
        assert forall m: nat :: m < n && LiveThroughout(st, m, n - 1, t) ==> LiveThroughout(st, m, n, t);
      } else {
        RejectionsRemembered(run, st, n - 1, t);
      }
    }
  }

  /** Backpressure window, exactly: a report finds a topic saturated if and only if a call marked a
      rejection in the topic's current incarnation at most two seconds before. */
  lemma SaturatedIffRecentlyRejected(run: seq<Event>, st: seq<Net>, n: nat, t: Topic)
    requires IsRun(run, st) && n < |run| && Monotone(run)
    requires run[n].Reports? && Visits(st[n].x, run[n].order, run[n].free)
    requires t in st[n].x.members
    ensures t in st[n + 1].x.pressure
    ensures st[n + 1].x.pressure[t].saturated <==> RecentlyRejected(run, st, n, t, run[n].now)
  {
    assert StepAt(run, st, n);
    KeysAt(run, st, n, t);
    RejectionsRemembered(run, st, n, t);
    LastMark(run, st, n, t);
  }

  /** The same from the rejection: a topic that refused an offer at most two seconds ago and was not
      removed since is found saturated, unless the call still owes the mark. */
  lemma RefusalIsReported(run: seq<Event>, st: seq<Net>, q: nat, n: nat, c: nat, t: Topic)
    requires IsRun(run, st) && q < n < |run| && Monotone(run)
    requires run[n].Reports? && Visits(st[n].x, run[n].order, run[n].free)
    requires RefusedAt(run, st, q, c) && st[q].calls[c].topic == t && LiveThroughout(st, q, n, t)
    requires run[n].now - run[q].now <= 2000
    ensures CanMark(st[n], c) || (t in st[n + 1].x.pressure && st[n + 1].x.pressure[t].saturated)
  {
    if !CanMark(st[n], c) {
      RejectionIsMarked(run, st, q, n, c);
      var m: nat :| q < m < n && MarksBy(run, st, m, c);
      CallIdStays(run, st, q, m, c);
      KeysAt(run, st, n, t);
      assert TopicMarkedAt(run, st, m, t) && LiveThroughout(st, m, n, t);
      SaturatedIffRecentlyRejected(run, st, n, t);
    }
  }

  /** The entry's score is 0 if its topic was recently rejected, and otherwise the number of the topic's
      consumers that have a free slot. */
  ghost predicate EntryIsDue(run: seq<Event>, st: seq<Net>, n: nat, c: TopicCapacity,
                             free: map<Topic, map<TQ.ConsumerId, int>>)
    requires n < |run|
  {
    && c.topic in free
    && c.score == if RecentlyRejected(run, st, n, c.topic, run[n].now) then 0 else |Ready(free[c.topic])|
  }

  /** So the report lists each live topic exactly once, with the score that is due. */
  lemma ReportShowsRejections(run: seq<Event>, st: seq<Net>, n: nat)
    requires IsRun(run, st) && n < |run| && Monotone(run)
    requires run[n].Reports? && Visits(st[n].x, run[n].order, run[n].free)
    ensures Lists(st[n + 1].report, st[n].x.members.Keys)
    ensures forall c :: c in st[n + 1].report ==> EntryIsDue(run, st, n, c, run[n].free)
  {
    assert StepAt(run, st, n);
    var report := st[n + 1].report;
    forall t | t in st[n].x.members
      ensures exists i :: 0 <= i < |report| && report[i].topic == t
    {
      var i :| 0 <= i < |run[n].order| && run[n].order[i] == t;
      assert report[i].topic == t;
    }
    forall i | 0 <= i < |report|
      ensures report[i].topic in st[n].x.members
      ensures st[n + 1].x.pressure[report[i].topic].saturated
              <==> RecentlyRejected(run, st, n, report[i].topic, run[n].now)
    {
      assert run[n].order[i] in st[n].x.members;
      SaturatedIffRecentlyRejected(run, st, n, report[i].topic);
    }
  }

  lemma TopicsOf(report: seq<TopicCapacity>, topics: set<Topic>) returns (order: seq<Topic>)
    requires Lists(report, topics)
    ensures |order| == |report| && forall i :: 0 <= i < |order| ==> order[i] == report[i].topic
    ensures forall i, j :: 0 <= i < j < |order| ==> order[i] != order[j]
    ensures forall t :: t in order <==> t in topics
  {
    order := seq(|report|, i requires 0 <= i < |report| => report[i].topic);
    forall t | t in topics
      ensures t in order
    {
      var i :| 0 <= i < |report| && report[i].topic == t;
      assert order[i] == t;
    }
  }

  /** The step builds what the router's method builds: any report meeting the method's contract is the
      step's report for some order of the topics. */
  lemma BuiltReportIsStep(x: Index, now: Time, report: seq<TopicCapacity>, free: map<Topic, map<TQ.ConsumerId, int>>)
    returns (order: seq<Topic>)
    requires Consistent(x) && forall t :: t in x.members ==> t in free && free[t].Keys == x.members[t]
    requires ReportOk(report, x.members.Keys, Reported(x, now).pressure, free)
    ensures Visits(x, order, free) && report == ReportIn(order, Reported(x, now), free)
  {
    order := TopicsOf(report, x.members.Keys);
    assert report == ReportIn(order, Reported(x, now), free);
  }

  // ------------------------------------------------------------------ marks from an earlier incarnation

  /** The rejection behind a mark came from an earlier incarnation exactly when the topic was removed,
      and so created again, between the call's lookup at step `b` and the mark: the channel that
      refused is then not the one that is marked. */
  lemma MarkIsStaleIffTopicWasRemoved(run: seq<Event>, st: seq<Net>, m: nat, t: Topic) returns (b: nat)
    requires IsRun(run, st) && TopicMarkedAt(run, st, m, t)
    ensures b < m && run[b].Begins? && run[b].topic == t && |st[b].calls| == run[m].call && t in st[b].inc
    ensures st[m].calls[run[m].call].ch == Some(st[b].inc[t])
    ensures st[m].inc[t] != st[b].inc[t] <==> exists j: nat :: b < j < m && t !in st[j].inc
  {
    var c := run[m].call;
    RunKeepsInv(run, st, m);
    assert CallOk(st[m].calls[c]);
    b := CallBegan(run, st, m, c);
    SameChannelIffLiveThroughout(run, st, b, m, t);
  }

  /** A job accepted at step `n` enters its topic's current queue exactly when the topic stayed since the
      call's lookup at step `b`; otherwise it enters a channel that no dispatcher serves any more. */
  lemma AcceptedIntoCurrentIffTopicStayed(run: seq<Event>, st: seq<Net>, n: nat) returns (b: nat)
    requires IsRun(run, st) && n < |run| && run[n].Offers?
    requires CanOffer(st[n], run[n].call) && FindsRoom(st[n], run[n].call)
    ensures var call := st[n].calls[run[n].call];
      && b < n && run[b].Begins? && run[b].topic == call.topic && |st[b].calls| == run[n].call
      && call.topic in st[b].inc && call.ch == Some(st[b].inc[call.topic])
      && (Current(st[n], call.topic, call.ch.value) <==> LiveThroughout(st, b, n, call.topic))
      && if Current(st[n], call.topic, call.ch.value)
         then st[n + 1].x == Offered(st[n].x, call.topic, TQ.QueuedJob(call.jobs[call.next], run[n].now))
         else st[n + 1].x == st[n].x
  {
    var c := run[n].call;
    var t := st[n].calls[c].topic;
    b := CallBegan(run, st, n, c);
    assert StepAt(run, st, n);
    KeysAt(run, st, n, t);
    ChansAt(run, st, n, t);
    if t in st[n].inc {
      SameChannelIffLiveThroughout(run, st, b, n, t);
    }
  }

  lemma ChansAt(run: seq<Event>, st: seq<Net>, n: nat, t: Topic)
    requires IsRun(run, st) && n < |st|
    ensures t in st[n].inc <==> t in st[n].x.chans
  {
    RunKeepsInv(run, st, n);
  }
}
