/** Runs of the router built from whole enqueue calls: an uninterrupted call is a run with the effect
    the router's method has, and a call that is interrupted can mark a topic that never refused it. */
module EnqueueCalls {
  import opened Common
  import opened Router
  import opened RouterRuns
  import TQ = TopicQueue
  import Runs

  // ------------------------------------------------------------------ an uninterrupted call

  /** How many of the first `i` jobs a queue of length `len` refuses. */
  function Refused(len: nat, i: nat): nat {
    i - Fits(len, i)
  }

  /** The router after the first `i` offers of a call that found it as `x`. */
  function AfterOffers(x: Index, t: Topic, jobs: seq<JobId>, times: seq<Time>, i: nat): Index
    requires t in x.chans && t in x.pressure && i <= |jobs| < |times|
  {
    var len := |x.chans[t]|;
    x.(chans := x.chans[t := x.chans[t] + Stamp(jobs, times, Fits(len, i))],
       pressure := if Refused(len, i) > 0 then x.pressure[t := Pressure(true, times[i - 1])] else x.pressure)
  }

  /** Call `c` has made `i` offers since it found the router as `x`, and nothing else has happened. */
  ghost predicate InCall(s: Net, x: Index, t: Topic, jobs: seq<JobId>, times: seq<Time>, c: nat, i: nat) {
    && i <= |jobs| < |times| && c < |s.calls|
    && t in x.chans && t in x.pressure && |x.chans[t]| <= TQ.QUEUE_CAPACITY
    && t in s.inc && s.inc[t] < |s.puts| && s.x == AfterOffers(x, t, jobs, times, i)
    && s.calls[c] == Call(t, Some(s.inc[t]), jobs, i, Refused(|x.chans[t]|, i), Offering)
  }

  lemma AfterAccepted(x: Index, t: Topic, jobs: seq<JobId>, times: seq<Time>, i: nat)
    requires t in x.chans && t in x.pressure && i < |jobs| < |times|
    requires |x.chans[t]| + Fits(|x.chans[t]|, i) < TQ.QUEUE_CAPACITY
    ensures Refused(|x.chans[t]|, i) == Refused(|x.chans[t]|, i + 1) == 0
    ensures AfterOffers(x, t, jobs, times, i + 1)
            == Offered(AfterOffers(x, t, jobs, times, i), t, TQ.QueuedJob(jobs[i], times[i]))
  {
    FitsOneMore(|x.chans[t]|, i);
    assert Stamp(jobs, times, i + 1) == Stamp(jobs, times, i) + [TQ.QueuedJob(jobs[i], times[i])];
    assert x.chans[t] + Stamp(jobs, times, i + 1)
        == (x.chans[t] + Stamp(jobs, times, i)) + [TQ.QueuedJob(jobs[i], times[i])];
  }

  lemma AfterRefused(x: Index, t: Topic, jobs: seq<JobId>, times: seq<Time>, i: nat)
    requires t in x.chans && t in x.pressure && i < |jobs| < |times| && |x.chans[t]| <= TQ.QUEUE_CAPACITY
    requires |x.chans[t]| + Fits(|x.chans[t]|, i) >= TQ.QUEUE_CAPACITY
    ensures Refused(|x.chans[t]|, i + 1) == Refused(|x.chans[t]|, i) + 1
    ensures AfterOffers(x, t, jobs, times, i + 1) == Marked(AfterOffers(x, t, jobs, times, i), t, times[i])
  {
    FitsOneMore(|x.chans[t]|, i);
  }

  /** One more offer is one step, or two if it is refused. */
  lemma OfferOne(run: seq<Event>, st: seq<Net>, x: Index, t: Topic, jobs: seq<JobId>, times: seq<Time>, c: nat, i: nat)
    returns (run': seq<Event>, st': seq<Net>)
    requires IsRun(run, st) && InCall(st[|run|], x, t, jobs, times, c, i) && i < |jobs|
    ensures IsRun(run', st') && run <= run' && InCall(st'[|run'|], x, t, jobs, times, c, i + 1)
  {
    run', st' := Runs.Extend(Step, INITIAL, run, st, Offers(c, times[i]));
    if |x.chans[t]| + Fits(|x.chans[t]|, i) < TQ.QUEUE_CAPACITY {
      AfterAccepted(x, t, jobs, times, i);
    } else {
      AfterRefused(x, t, jobs, times, i);
      run', st' := Runs.Extend(Step, INITIAL, run', st', Marks(c, times[i]));
    }
  }

  lemma {:induction false} OfferRest(run: seq<Event>, st: seq<Net>, x: Index, t: Topic, jobs: seq<JobId>,
                                     times: seq<Time>, c: nat, i: nat)
    returns (run': seq<Event>, st': seq<Net>)
    requires IsRun(run, st) && InCall(st[|run|], x, t, jobs, times, c, i)
    ensures IsRun(run', st') && run <= run' && InCall(st'[|run'|], x, t, jobs, times, c, |jobs|)
    decreases |jobs| - i
  {
    if i == |jobs| {
      run', st' := run, st;
    } else {
      run', st' := OfferOne(run, st, x, t, jobs, times, c, i);
      run', st' := OfferRest(run', st', x, t, jobs, times, c, i + 1);
    }
  }

  /** An uninterrupted call is a run: from any reachable state the machine can go on to one where a new
      call has returned, the router is as the method leaves it, and the number is the method's. */
  lemma EnqueueIsRun(run: seq<Event>, st: seq<Net>, t: Topic, jobs: seq<JobId>, times: seq<Time>)
    returns (run': seq<Event>, st': seq<Net>)
    requires IsRun(run, st) && |times| == |jobs| + 1
    ensures IsRun(run', st') && run <= run'
    ensures var x, c, s' := st[|run|].x, |st[|run|].calls|, st'[|run'|];
      && s'.x == Enqueued(x, t, jobs, times)
      && c < |s'.calls| && s'.calls[c].topic == t && s'.calls[c].jobs == jobs && s'.calls[c].phase == Returned
      && s'.calls[c].rejected == |jobs| - if t in x.chans then Fits(|x.chans[t]|, |jobs|) else 0
  {
    var s := st[|run|];
    var x, c := s.x, |s.calls|;
    CallCanBegin(run, st, t);
    run', st' := Runs.Extend(Step, INITIAL, run, st, Begins(t, jobs, times[0]));
    if t in x.chans {
      assert Stamp(jobs, times, 0) == [];
      assert x.chans[t] + [] == x.chans[t];
      run', st' := OfferRest(run', st', x, t, jobs, times, c, 0);
      run', st' := Runs.Extend(Step, INITIAL, run', st', Returns(c, times[|jobs|]));
    }
  }

  lemma CallCanBegin(run: seq<Event>, st: seq<Net>, t: Topic)
    requires IsRun(run, st)
    ensures var s := st[|run|];
      && (t in s.inc <==> t in s.x.chans)
      && (t in s.x.chans ==> t in s.x.pressure && |s.x.chans[t]| <= TQ.QUEUE_CAPACITY && s.inc[t] < |s.puts|)
  {
    RunKeepsInv(run, st, |run|);
  }

  // ------------------------------------------------------------------ a mark from an earlier incarnation

  const TOPIC := Topic("t")
  const CONSUMER := TQ.ConsumerId("c")

  /** One job more than a queue holds. */
  function TooMany(): (jobs: seq<JobId>)
    ensures |jobs| == TQ.QUEUE_CAPACITY + 1
  {
    seq(TQ.QUEUE_CAPACITY + 1, i => "job")
  }

  /** A call has filled the topic's only queue with `k` jobs. */
  ghost predicate Filled(s: Net, k: nat) {
    && s.x.members == map[TOPIC := {CONSUMER}] && s.x.pressure == map[TOPIC := Pressure(false, 0)]
    && s.x.chans.Keys == {TOPIC} && |s.x.chans[TOPIC]| == k
    && s.inc == map[TOPIC := 0] && |s.puts| == 1 && s.former == map[]
    && k <= TQ.QUEUE_CAPACITY && s.calls == [Call(TOPIC, Some(0), TooMany(), k, 0, Offering)]
  }

  lemma {:induction false} FillUp(k: nat) returns (run: seq<Event>, st: seq<Net>)
    requires k <= TQ.QUEUE_CAPACITY
    ensures IsRun(run, st) && Filled(st[|run|], k)
    ensures forall i :: 0 <= i < |run| ==> run[i].now == 0
  {
    if k == 0 {
      run, st := Runs.Extend(Step, INITIAL, [], [INITIAL], Adds(TOPIC, CONSUMER, 0));
      run, st := Runs.Extend(Step, INITIAL, run, st, Begins(TOPIC, TooMany(), 0));
    } else {
      run, st := FillUp(k - 1);
      run, st := Runs.Extend(Step, INITIAL, run, st, Offers(0, 0));
    }
  }

  /** The topic was created again and is empty, but the call owes it the mark of a refusal by the
      channel it had before. */
  ghost predicate Recreated(s: Net) {
    && s.x.members == map[TOPIC := {CONSUMER}] && s.x.chans == map[TOPIC := []]
    && s.x.pressure == map[TOPIC := Pressure(false, 0)]
    && s.inc == map[TOPIC := 1] && |s.puts| == 2 && s.puts[1] == []
    && |s.calls| == 1 && s.calls[0].topic == TOPIC && s.calls[0].ch == Some(0) && s.calls[0].phase == Owing
  }

  lemma RecreatedRun() returns (run: seq<Event>, st: seq<Net>)
    ensures IsRun(run, st) && Recreated(st[|run|])
    ensures forall i :: 0 <= i < |run| ==> run[i].now == 0
  {
    run, st := FillUp(TQ.QUEUE_CAPACITY);
    run, st := Runs.Extend(Step, INITIAL, run, st, Offers(0, 0));
    assert st[|run|].x.members[TOPIC] - {CONSUMER} == {};
    run, st := Runs.Extend(Step, INITIAL, run, st, Removes(TOPIC, CONSUMER, 0));
    run, st := Runs.Extend(Step, INITIAL, run, st, Adds(TOPIC, CONSUMER, 0));
  }

  /** It happens: a topic to whose queue nothing was ever offered, with a consumer that has a free slot,
      is reported with score 0 because of a refusal by the queue it had before. */
  lemma StaleMarkHappens() returns (run: seq<Event>, st: seq<Net>)
    ensures IsRun(run, st) && Monotone(run) && |run| > 1 && TopicMarkedAt(run, st, |run| - 2, TOPIC)
    ensures var s := st[|run|];
      && TOPIC in s.x.chans && s.x.chans[TOPIC] == [] && TOPIC in s.inc
      && s.inc[TOPIC] < |s.puts| && s.puts[s.inc[TOPIC]] == []
      && s.report == [TopicCapacity(TOPIC, 0)]
    ensures run[|run| - 1].Reports? && run[|run| - 1].free == map[TOPIC := map[CONSUMER := 1]]
  {
    run, st := RecreatedRun();
    run, st := Runs.Extend(Step, INITIAL, run, st, Marks(0, 0));
    run, st := Runs.Extend(Step, INITIAL, run, st, Reports([TOPIC], map[TOPIC := map[CONSUMER := 1]], 0));
  }

  // ------------------------------------------------------------------ between refusal and mark

  /** A report that comes between a refusal and its mark still shows the topic's ready consumer. */
  lemma ReportBeforeMark() returns (run: seq<Event>, st: seq<Net>)
    ensures IsRun(run, st) && Monotone(run) && |run| > 1
    ensures RefusedAt(run, st, |run| - 2, 0) && CanMark(st[|run|], 0) && LiveThroughout(st, |run| - 2, |run|, TOPIC)
    ensures run[|run| - 1].Reports? && run[|run| - 1].now == run[|run| - 2].now
    ensures st[|run|].report == [TopicCapacity(TOPIC, 1)]
  {
    run, st := FillUp(TQ.QUEUE_CAPACITY);
    run, st := Runs.Extend(Step, INITIAL, run, st, Offers(0, 0));
    run, st := Runs.Extend(Step, INITIAL, run, st, Reports([TOPIC], map[TOPIC := map[CONSUMER := 1]], 0));
    assert Ready(map[CONSUMER := 1]) == {CONSUMER};
  }

  // ------------------------------------------------------------------ a job in a former channel

  /** A call found a topic that is gone since. */
  ghost predicate Orphaned(s: Net, job: JobId) {
    && s.x.members == map[] && s.x.chans == map[] && s.inc == map[] && s.former == map[0 := []]
    && |s.puts| == 1 && s.calls == [Call(TOPIC, Some(0), [job], 0, 0, Offering)]
  }

  lemma OrphanedRun(job: JobId) returns (run: seq<Event>, st: seq<Net>)
    ensures IsRun(run, st) && Orphaned(st[|run|], job)
  {
    run, st := Runs.Extend(Step, INITIAL, [], [INITIAL], Adds(TOPIC, CONSUMER, 0));
    run, st := Runs.Extend(Step, INITIAL, run, st, Begins(TOPIC, [job], 0));
    assert st[|run|].x.members[TOPIC] - {CONSUMER} == {};
    run, st := Runs.Extend(Step, INITIAL, run, st, Removes(TOPIC, CONSUMER, 0));
  }

  /** A call whose topic is removed after its lookup has its job accepted by the former channel: it
      returns 0, although no topic is left that could deliver the job. */
  lemma OrphanHappens(job: JobId) returns (run: seq<Event>, st: seq<Net>)
    ensures IsRun(run, st)
    ensures var s := st[|run|];
      && s.x.members == map[] && s.x.chans == map[]
      && |s.calls| == 1 && s.calls[0].phase == Returned && s.calls[0].rejected == 0 && s.calls[0].jobs == [job]
      && 0 in s.former && |s.former[0]| == 1 && s.former[0][0].id == job
  {
    run, st := OrphanedRun(job);
    run, st := Runs.Extend(Step, INITIAL, run, st, Offers(0, 0));
    run, st := Runs.Extend(Step, INITIAL, run, st, Returns(0, 0));
  }
}
