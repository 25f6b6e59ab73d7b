/** The consumer router: which consumers and which queue each topic has, how jobs are offered to a
    queue, and the capacity report sent to the leader.

    `Index` is the router's state up to the consumers' own counters; the functions say what one block
    does to it, and `DefaultRouter` does it in place. */
module Router {
  import opened Common
  import opened TopicQueue
  import FC = FlowControl

  const SATURATION_WINDOW: Time := 2000

  datatype Pressure = Pressure(saturated: bool, lastUpdated: Time)

  datatype TopicCapacity = TopicCapacity(topic: Topic, score: nat)

  datatype Index = Index(
    members: map<Topic, set<ConsumerId>>,
    chans: map<Topic, seq<QueuedJob>>,
    pressure: map<Topic, Pressure>,
    dispatchers: set<Topic>)

  const EMPTY := Index(map[], map[], map[], {})

  // ------------------------------------------------------------------ blocks

  function Added(x: Index, t: Topic, c: ConsumerId, now: Time): Index {
    if t in x.members then x.(members := x.members[t := x.members[t] + {c}])
    else Index(x.members[t := {c}], x.chans[t := []], x.pressure[t := Pressure(false, now)], x.dispatchers + {t})
  }

  function Removed(x: Index, t: Topic, c: ConsumerId): Index {
    if t !in x.members then x
    else if x.members[t] - {c} == {} then
      Index(x.members - {t}, x.chans - {t}, x.pressure - {t}, x.dispatchers - {t})
    else x.(members := x.members[t := x.members[t] - {c}])
  }

  function MarkedAt(pressure: map<Topic, Pressure>, t: Topic, now: Time): map<Topic, Pressure> {
    if t in pressure then pressure[t := Pressure(true, now)] else pressure
  }

  function Marked(x: Index, t: Topic, now: Time): Index {
    x.(pressure := MarkedAt(x.pressure, t, now))
  }

  function Offered(x: Index, t: Topic, j: QueuedJob): Index {
    if t in x.chans && |x.chans[t]| < QUEUE_CAPACITY then x.(chans := x.chans[t := x.chans[t] + [j]]) else x
  }

  function Relaxed(p: Pressure, now: Time): Pressure {
    if p.saturated && now - p.lastUpdated > SATURATION_WINDOW then p.(saturated := false) else p
  }

  /** The report's effect on the router: stale saturation marks are dropped. */
  function Reported(x: Index, now: Time): Index {
    x.(pressure := map t | t in x.pressure :: if t in x.members then Relaxed(x.pressure[t], now) else x.pressure[t])
  }

  /** The four maps list the same topics, each with at least one consumer, no queue overfull. */
  ghost predicate Consistent(x: Index) {
    && (forall t :: t in x.members <==> t in x.chans)
    && (forall t :: t in x.members <==> t in x.pressure)
    && (forall t :: t in x.members <==> t in x.dispatchers)
    && (forall t :: t in x.members ==> x.members[t] != {})
    && (forall t :: t in x.chans ==> |x.chans[t]| <= QUEUE_CAPACITY)
  }

  /** How many of `n` offered jobs a queue of length `len` takes. */
  function Fits(len: nat, n: nat): (k: nat)
    ensures k <= n
    ensures len <= QUEUE_CAPACITY ==> len + k <= QUEUE_CAPACITY && (k < n ==> len + k == QUEUE_CAPACITY)
  {
    if len + n <= QUEUE_CAPACITY then n else if len <= QUEUE_CAPACITY then QUEUE_CAPACITY - len else 0
  }

  lemma FitsOneMore(len: nat, n: nat)
    requires len <= QUEUE_CAPACITY
    ensures Fits(len, n + 1) == if len + Fits(len, n) < QUEUE_CAPACITY then n + 1 else Fits(len, n)
    ensures len + Fits(len, n) < QUEUE_CAPACITY ==> Fits(len, n) == n
  {
  }

  function Stamp(jobs: seq<JobId>, times: seq<Time>, k: nat): (q: seq<QueuedJob>)
    requires k <= |jobs| && k <= |times|
    ensures |q| == k && forall i :: 0 <= i < k ==> q[i] == QueuedJob(jobs[i], times[i])
  {
    seq(k, i requires 0 <= i < k => QueuedJob(jobs[i], times[i]))
  }

  /** A whole enqueue call that is not interrupted: the prefix that fits is accepted, in order; if
      anything was rejected the topic is marked at the end. */
  function Enqueued(x: Index, t: Topic, jobs: seq<JobId>, times: seq<Time>): Index
    requires |times| == |jobs| + 1
  {
    if t !in x.chans then x
    else
      var y := x.(chans := ChansAfter(x.chans, t, jobs, times));
      if Fits(|x.chans[t]|, |jobs|) < |jobs| then Marked(y, t, times[|jobs|]) else y
  }

  function ChansAfter(chans: map<Topic, seq<QueuedJob>>, t: Topic, jobs: seq<JobId>,
                      times: seq<Time>): map<Topic, seq<QueuedJob>>
    requires t in chans && |times| >= |jobs|
  {
    chans[t := chans[t] + Stamp(jobs, times, Fits(|chans[t]|, |jobs|))]
  }

  // ------------------------------------------------------------------ the object

  type Consumers = map<ConsumerId, FC.ConsumerConn>

  /** The free slots of each consumer, as the loops read them. */
  function FreeOf(cs: Consumers): (free: map<ConsumerId, int>)
    reads set c | c in cs :: cs[c]
    ensures free.Keys == cs.Keys && forall c :: c in cs ==> free[c] == cs[c].GetFreeSlots() >= 0
  {
    map c | c in cs :: cs[c].GetFreeSlots()
  }

  function FreeByTopic(tc: map<Topic, Consumers>): (free: map<Topic, map<ConsumerId, int>>)
    reads set t, c | t in tc && c in tc[t] :: tc[t][c]
    ensures free.Keys == tc.Keys && forall t :: t in tc ==> free[t] == FreeOf(tc[t])
  {
    map t | t in tc :: FreeOf(tc[t])
  }

  ghost function Ready(free: map<ConsumerId, int>): set<ConsumerId> {
    set c | c in free && free[c] > 0
  }

  /** `best` has as many free slots as any. */
  ghost predicate IsBest(free: map<ConsumerId, int>, best: ConsumerId) {
    best in free && forall c :: c in free ==> free[c] <= free[best]
  }

  ghost function Score(p: Pressure, free: map<ConsumerId, int>): nat {
    if p.saturated then 0 else |Ready(free)|
  }

  /** The report agrees with dispatch: a topic scores 0 if and only if it is saturated or the
      consumer that dispatch would choose has no free slot. */
  lemma ZeroScoreIffDispatchBlocked(p: Pressure, free: map<ConsumerId, int>, best: ConsumerId)
    requires IsBest(free, best)
    ensures Score(p, free) == 0 <==> p.saturated || free[best] <= 0
  {
    if free[best] > 0 {
      assert best in Ready(free);
    } else {
      assert Ready(free) == {};
    }
  }

  /** The topics of a report are exactly `topics`, each once. */
  ghost predicate Lists(report: seq<TopicCapacity>, topics: set<Topic>) {
    && (forall i :: 0 <= i < |report| ==> report[i].topic in topics)
    && (forall i, j :: 0 <= i < j < |report| ==> report[i].topic != report[j].topic)
    && (forall t :: t in topics ==> exists i :: 0 <= i < |report| && report[i].topic == t)
  }

  lemma ListsOneMore(report: seq<TopicCapacity>, topics: set<Topic>, c: TopicCapacity)
    requires Lists(report, topics) && c.topic !in topics
    ensures Lists(report + [c], topics + {c.topic})
  {
    var longer := report + [c];
    forall t | t in topics + {c.topic}
      ensures exists i :: 0 <= i < |longer| && longer[i].topic == t
    {
      if t == c.topic {
        assert longer[|report|].topic == t;
      } else {
        var i :| 0 <= i < |report| && report[i].topic == t;
        assert longer[i].topic == t;
      }
    }
  }

  method CountReady(free: map<ConsumerId, int>) returns (active: nat)
    ensures active == |Ready(free)|
  {
    active := 0;
    ghost var ready := Ready(free);
    var todo := free.Keys;
    while todo != {}
      invariant todo <= free.Keys && active == |ready - todo|
      decreases |todo|
    {
      var c :| c in todo;
      CountStep(ready, todo, c);
      if free[c] > 0 {
        active := active + 1;
      }
      todo := todo - {c};
    }
    assert ready - todo == ready;
  }

  /** One turn of the report's loop: the reset, then the score. */
  method ReportTopic(topic: Topic, pressure: Pressure, free: map<ConsumerId, int>, now: Time)
    returns (entry: TopicCapacity, relaxed: Pressure)
    ensures relaxed == Relaxed(pressure, now) && entry == TopicCapacity(topic, Score(relaxed, free))
  {
    relaxed := pressure;
    if relaxed.saturated && now - relaxed.lastUpdated > SATURATION_WINDOW {
      relaxed := relaxed.(saturated := false);
    }
    if relaxed.saturated {
      return TopicCapacity(topic, 0), relaxed;
    }
    var active := CountReady(free);
    entry := TopicCapacity(topic, active);
  }

  /** A report over `topics`: each exactly once, scored by its mark and its free slots. */
  ghost predicate ReportOk(report: seq<TopicCapacity>, topics: set<Topic>, pressure: map<Topic, Pressure>,
                           free: map<Topic, map<ConsumerId, int>>) {
    && Lists(report, topics) && topics <= pressure.Keys && topics <= free.Keys
    && forall i :: 0 <= i < |report| ==> report[i].score == Score(pressure[report[i].topic], free[report[i].topic])
  }

  lemma ReportOneMore(report: seq<TopicCapacity>, topics: set<Topic>, pressure: map<Topic, Pressure>,
                      free: map<Topic, map<ConsumerId, int>>, t: Topic, p: Pressure)
    requires ReportOk(report, topics, pressure, free) && t !in topics && t in free
    ensures ReportOk(report + [TopicCapacity(t, Score(p, free[t]))], topics + {t}, pressure[t := p], free)
  {
    ListsOneMore(report, topics, TopicCapacity(t, Score(p, free[t])));
  }

  /** Topics outside `todo` have had their stale marks dropped. */
  ghost predicate RelaxedOk(relaxed: map<Topic, Pressure>, pressure: map<Topic, Pressure>, todo: set<Topic>,
                            now: Time) {
    && relaxed.Keys == pressure.Keys
    && forall t :: t in relaxed ==> relaxed[t] == if t in todo then pressure[t] else Relaxed(pressure[t], now)
  }

  lemma RelaxOneMore(relaxed: map<Topic, Pressure>, pressure: map<Topic, Pressure>, todo: set<Topic>, now: Time,
                     t: Topic)
    requires RelaxedOk(relaxed, pressure, todo, now) && t in todo && t in relaxed
    ensures RelaxedOk(relaxed[t := Relaxed(relaxed[t], now)], pressure, todo - {t}, now)
  {
  }

  /** The loop over all topics. */
  method ReportAll(free: map<Topic, map<ConsumerId, int>>, pressure: map<Topic, Pressure>, now: Time)
    returns (report: seq<TopicCapacity>, relaxed: map<Topic, Pressure>)
    requires free.Keys == pressure.Keys
    ensures RelaxedOk(relaxed, pressure, {}, now)
    ensures ReportOk(report, free.Keys, relaxed, free)
  {
    report, relaxed := [], pressure;
    var todo := free.Keys;
    ghost var done: set<Topic> := {};
    while todo != {}
      invariant forall t :: t in free <==> t in todo || t in done
      invariant forall t :: t in todo ==> t !in done
      invariant RelaxedOk(relaxed, pressure, todo, now)
      invariant ReportOk(report, done, relaxed, free)
      decreases |todo|
    {
      var topic :| topic in todo;
      var entry, p := ReportTopic(topic, relaxed[topic], free[topic], now);
      ReportOneMore(report, done, relaxed, free, topic, p);
      RelaxOneMore(relaxed, pressure, todo, now, topic);
      relaxed := relaxed[topic := p];
      report := report + [entry];
      todo, done := todo - {topic}, done + {topic};
    }
    assert done == free.Keys;
  }

  /** The loop over the offered jobs: exactly the prefix that fits is accepted, in order; each
      rejection marks the topic. */
  method OfferAll(ch: seq<QueuedJob>, pressure: Pressure, jobs: seq<JobId>, times: seq<Time>)
    returns (longer: seq<QueuedJob>, marked: Pressure, rejected: nat)
    requires |ch| <= QUEUE_CAPACITY && |times| >= |jobs|
    ensures rejected == |jobs| - Fits(|ch|, |jobs|)
    ensures longer == ch + Stamp(jobs, times, |jobs| - rejected)
    ensures marked == if rejected == 0 then pressure else Pressure(true, times[|jobs| - 1])
  {
    longer, marked, rejected := ch, pressure, 0;
    for i := 0 to |jobs|
      invariant rejected == i - Fits(|ch|, i) && longer == ch + Stamp(jobs, times, i - rejected)
      invariant marked == if rejected == 0 then pressure else Pressure(true, times[i - 1])
    {
      FitsOneMore(|ch|, i);
      if |longer| < QUEUE_CAPACITY {
        assert Stamp(jobs, times, i + 1) == Stamp(jobs, times, i) + [QueuedJob(jobs[i], times[i])];
        longer := longer + [QueuedJob(jobs[i], times[i])];
      } else {
        rejected := rejected + 1;
        marked := Pressure(true, times[i]);
      }
    }
  }

  function ConsumersOf(tc: map<Topic, Consumers>, t: Topic): Consumers {
    if t in tc then tc[t] else map[]
  }

  ghost function MembersOf(tc: map<Topic, Consumers>): map<Topic, set<ConsumerId>> {
    map t | t in tc :: tc[t].Keys
  }

  lemma MembersOfUpdate(tc: map<Topic, Consumers>, t: Topic, cs: Consumers)
    ensures MembersOf(tc[t := cs]) == MembersOf(tc)[t := cs.Keys]
    ensures MembersOf(tc - {t}) == MembersOf(tc) - {t}
  {
  }

  /** The consumers of all topics after `id` left topic `t`. */
  function Without(tc: map<Topic, Consumers>, t: Topic, id: ConsumerId): map<Topic, Consumers> {
    if t !in tc then tc
    else if tc[t] - {id} == map[] then tc - {t}
    else tc[t := tc[t] - {id}]
  }

  lemma JoinedMembers(tc: map<Topic, Consumers>, t: Topic, id: ConsumerId, consumer: FC.ConsumerConn)
    ensures var joined: Consumers := ConsumersOf(tc, t)[id := consumer];
      MembersOf(tc[t := joined]) == MembersOf(tc)[t := if t in tc then MembersOf(tc)[t] + {id} else {id}]
  {
    var joined: Consumers := ConsumersOf(tc, t)[id := consumer];
    assert joined.Keys == if t in tc then MembersOf(tc)[t] + {id} else {id};
    MembersOfUpdate(tc, t, joined);
  }

  lemma LeftMembers(tc: map<Topic, Consumers>, t: Topic, id: ConsumerId)
    requires t in tc
    ensures var left := MembersOf(tc)[t] - {id};
      && (|tc[t] - {id}| == 0 <==> left == {}) && (tc[t] - {id} == map[] <==> left == {})
      && MembersOf(tc - {t}) == MembersOf(tc) - {t}
      && MembersOf(tc[t := tc[t] - {id}]) == MembersOf(tc)[t := left]
  {
    var cs := tc[t] - {id};
    assert cs.Keys == MembersOf(tc)[t] - {id};
    assert |cs| == 0 ==> cs == map[];
    MembersOfUpdate(tc, t, cs);
  }

  lemma QueueIsKnown(x: Index, t: Topic)
    requires Consistent(x)
    ensures t in x.chans ==> t in x.pressure && |x.chans[t]| <= QUEUE_CAPACITY
  {
  }

  class DefaultRouter {
    var topicConsumers: map<Topic, Consumers>
    var mainChans: map<Topic, seq<QueuedJob>>
    var dispatchCancel: set<Topic>
    var topicPressure: map<Topic, Pressure>

    ghost function View(): Index
      reads this
    {
      Index(MembersOf(topicConsumers), mainChans, topicPressure, dispatchCancel)
    }

    constructor ()
      ensures View() == EMPTY
    {
      topicConsumers, mainChans, dispatchCancel, topicPressure := map[], map[], {}, map[];
    }

    method AddConsumer(topic: Topic, id: ConsumerId, consumer: FC.ConsumerConn, now: Time)
      requires Consistent(View())
      modifies this
      ensures Consistent(View()) && View() == Added(old(View()), topic, id, now)
      ensures topicConsumers == old(topicConsumers)[topic := ConsumersOf(old(topicConsumers), topic)[id := consumer]]
      ensures topic in old(topicConsumers) ==>
                && mainChans == old(mainChans) && topicPressure == old(topicPressure)
                && dispatchCancel == old(dispatchCancel)
      ensures topic !in old(topicConsumers) ==>
                && mainChans == old(mainChans)[topic := []] && dispatchCancel == old(dispatchCancel) + {topic}
                && topicPressure == old(topicPressure)[topic := Pressure(false, now)]
    {
      AddedConsistent(View(), topic, id, now);
      Join(topic, id, consumer, now);
    }

    method Join(topic: Topic, id: ConsumerId, consumer: FC.ConsumerConn, now: Time)
      modifies this
      ensures View() == Added(old(View()), topic, id, now)
      ensures topicConsumers == old(topicConsumers)[topic := ConsumersOf(old(topicConsumers), topic)[id := consumer]]
      ensures topic in old(topicConsumers) ==>
                && mainChans == old(mainChans) && topicPressure == old(topicPressure)
                && dispatchCancel == old(dispatchCancel)
      ensures topic !in old(topicConsumers) ==>
                && mainChans == old(mainChans)[topic := []] && dispatchCancel == old(dispatchCancel) + {topic}
                && topicPressure == old(topicPressure)[topic := Pressure(false, now)]
    {
      JoinedMembers(topicConsumers, topic, id, consumer);
      var consumers := ConsumersOf(topicConsumers, topic);
      if topic !in topicConsumers {
        OpenTopic(topic, now);
      }
      topicConsumers := topicConsumers[topic := consumers[id := consumer]];
    }

    /** Queue, pressure and dispatcher of a new topic. */
    method OpenTopic(topic: Topic, now: Time)
      modifies this`mainChans, this`topicPressure, this`dispatchCancel
      ensures mainChans == old(mainChans)[topic := []] && dispatchCancel == old(dispatchCancel) + {topic}
      ensures topicPressure == old(topicPressure)[topic := Pressure(false, now)]
    {
      mainChans := mainChans[topic := []];
      topicPressure := topicPressure[topic := Pressure(false, now)];
      dispatchCancel := dispatchCancel + {topic};
    }

    method RemoveConsumer(topic: Topic, id: ConsumerId)
      requires Consistent(View())
      modifies this
      ensures Consistent(View()) && View() == Removed(old(View()), topic, id)
      ensures topicConsumers == Without(old(topicConsumers), topic, id)
      ensures topic in topicConsumers || topic !in old(topicConsumers) ==>
                && mainChans == old(mainChans) && topicPressure == old(topicPressure)
                && dispatchCancel == old(dispatchCancel)
      ensures topic !in topicConsumers && topic in old(topicConsumers) ==>
                && mainChans == old(mainChans) - {topic} && topicPressure == old(topicPressure) - {topic}
                && dispatchCancel == old(dispatchCancel) - {topic}
    {
      RemovedConsistent(View(), topic, id);
      Leave(topic, id);
    }

    method Leave(topic: Topic, id: ConsumerId)
      modifies this
      ensures View() == Removed(old(View()), topic, id)
      ensures topicConsumers == Without(old(topicConsumers), topic, id)
      ensures topic in topicConsumers || topic !in old(topicConsumers) ==>
                && mainChans == old(mainChans) && topicPressure == old(topicPressure)
                && dispatchCancel == old(dispatchCancel)
      ensures topic !in topicConsumers && topic in old(topicConsumers) ==>
                && mainChans == old(mainChans) - {topic} && topicPressure == old(topicPressure) - {topic}
                && dispatchCancel == old(dispatchCancel) - {topic}
    {
      if topic in topicConsumers {
        var consumers := topicConsumers[topic] - {id};
        LeftMembers(topicConsumers, topic, id);
        if |consumers| == 0 {
          DrainAndStopTopic(topic);
        } else {
          topicConsumers := topicConsumers[topic := consumers];
        }
      }
    }

    /** Stops the dispatcher, empties the queue and forgets the topic. */
    method DrainAndStopTopic(topic: Topic)
      modifies this
      ensures topicConsumers == old(topicConsumers) - {topic} && mainChans == old(mainChans) - {topic}
      ensures topicPressure == old(topicPressure) - {topic} && dispatchCancel == old(dispatchCancel) - {topic}
    {
      dispatchCancel := dispatchCancel - {topic};
      if topic in mainChans {
        while |mainChans[topic]| > 0
          invariant topic in mainChans && mainChans - {topic} == old(mainChans) - {topic}
          invariant topicConsumers == old(topicConsumers) && topicPressure == old(topicPressure)
          invariant dispatchCancel == old(dispatchCancel) - {topic}
          decreases |mainChans[topic]|
        {
          mainChans := mainChans[topic := mainChans[topic][1..]];
        }
      }
      topicConsumers := topicConsumers - {topic};
      mainChans := mainChans - {topic};
      topicPressure := topicPressure - {topic};
    }

    method MarkSaturated(topic: Topic, now: Time)
      modifies this`topicPressure
      ensures topicPressure == MarkedAt(old(topicPressure), topic, now)
      ensures topic in old(topicPressure) ==> topicPressure == old(topicPressure)[topic := Pressure(true, now)]
      ensures topic !in old(topicPressure) ==> topicPressure == old(topicPressure)
    {
      if topic in topicPressure {
        topicPressure := topicPressure[topic := Pressure(true, now)];
      }
    }

    /** An uninterrupted call: `times` are the clock readings, the last one for the final mark.
        The number returned is exactly the number of jobs not accepted. */
    method EnqueueJobs(topic: Topic, jobs: seq<JobId>, times: seq<Time>) returns (rejected: nat)
      requires Consistent(View()) && |times| == |jobs| + 1
      modifies this`mainChans, this`topicPressure
      ensures Consistent(View()) && View() == Enqueued(old(View()), topic, jobs, times)
      ensures rejected == |jobs| - if topic in old(mainChans) then Fits(|old(mainChans)[topic]|, |jobs|) else 0
    {
      EnqueuedConsistent(View(), topic, jobs, times);
      QueueIsKnown(View(), topic);
      if topic !in mainChans {
        return |jobs|;
      }
      rejected := EnqueueKnown(topic, jobs, times);
    }

    /** The call for a topic that has a queue. */
    method EnqueueKnown(topic: Topic, jobs: seq<JobId>, times: seq<Time>) returns (rejected: nat)
      requires topic in mainChans && |mainChans[topic]| <= QUEUE_CAPACITY && |times| == |jobs| + 1
      requires topic in topicPressure
      modifies this`mainChans, this`topicPressure
      ensures View() == Enqueued(old(View()), topic, jobs, times)
      ensures rejected == |jobs| - Fits(|old(mainChans)[topic]|, |jobs|)
    {
      ghost var x := View();
      var ch, pressure;
      ch, pressure, rejected := OfferAll(mainChans[topic], topicPressure[topic], jobs, times);
      mainChans := mainChans[topic := ch];
      if rejected > 0 {
        topicPressure := topicPressure[topic := pressure];
        MarkSaturated(topic, times[|jobs|]);
      }
      EnqueuedIs(x, topic, jobs, times, mainChans, topicPressure);
    }

    /** A consumer with most free slots, null exactly when the topic has none. */
    method GetNextConsumer(topic: Topic) returns (best: FC.ConsumerConn?, ghost id: ConsumerId)
      requires Consistent(View())
      ensures best == null <==> topic !in topicConsumers
      ensures best != null ==>
                && IsBest(FreeOf(topicConsumers[topic]), id)
                && best == topicConsumers[topic][id]
    {
      best, id := null, ConsumerId("");
      if topic !in topicConsumers {
        return;
      }
      var cs := topicConsumers[topic];
      assert View().members[topic] == cs.Keys;
      var bestFree := -1;
      var todo := cs.Keys;
      while todo != {}
        invariant todo <= cs.Keys
        invariant best == null ==> todo == cs.Keys && bestFree == -1
        invariant best != null ==> id in cs && best == cs[id] && bestFree == best.GetFreeSlots()
        invariant forall c :: c in cs && c !in todo ==> cs[c].GetFreeSlots() <= bestFree
        decreases |todo|
      {
        var c :| c in todo;
        todo := todo - {c};
        var free := cs[c].GetFreeSlots();
        if free > bestFree {
          best, bestFree, id := cs[c], free, c;
        }
      }
    }

    /** The capacity report: each live topic once, its score by saturation and free slots. */
    method BuildHeartbeatReport(now: Time) returns (report: seq<TopicCapacity>)
      requires Consistent(View())
      modifies this`topicPressure
      ensures Consistent(View()) && View() == Reported(old(View()), now)
      ensures ReportOk(report, topicConsumers.Keys, topicPressure, old(FreeByTopic(topicConsumers)))
    {
      KeysAgree(topicConsumers, topicPressure, View());
      var free := FreeByTopic(topicConsumers);
      var relaxed;
      report, relaxed := ReportAll(free, topicPressure, now);
      ReportedIs(View(), relaxed, now);
      topicPressure := relaxed;
    }
  }

  lemma KeysAgree(tc: map<Topic, Consumers>, pressure: map<Topic, Pressure>, x: Index)
    requires Consistent(x) && x.members == MembersOf(tc) && x.pressure == pressure
    ensures tc.Keys == pressure.Keys
  {
    assert forall t :: t in tc <==> t in x.members;
  }

  lemma EnqueuedIs(x: Index, t: Topic, jobs: seq<JobId>, times: seq<Time>, chans: map<Topic, seq<QueuedJob>>,
                   pressure: map<Topic, Pressure>)
    requires |times| == |jobs| + 1 && t in x.chans && chans == ChansAfter(x.chans, t, jobs, times)
    requires pressure ==
               if Fits(|x.chans[t]|, |jobs|) < |jobs| then MarkedAt(x.pressure, t, times[|jobs|]) else x.pressure
    ensures Enqueued(x, t, jobs, times) == x.(chans := chans, pressure := pressure)
  {
  }

  lemma EnqueuedConsistent(x: Index, t: Topic, jobs: seq<JobId>, times: seq<Time>)
    requires Consistent(x) && |times| == |jobs| + 1
    ensures Consistent(Enqueued(x, t, jobs, times))
  {
  }

  lemma ReportedIs(x: Index, pressure: map<Topic, Pressure>, now: Time)
    requires Consistent(x) && RelaxedOk(pressure, x.pressure, {}, now)
    ensures x.(pressure := pressure) == Reported(x, now) && Consistent(Reported(x, now))
  {
    assert Reported(x, now).pressure == pressure;
  }

  lemma AddedConsistent(x: Index, t: Topic, c: ConsumerId, now: Time)
    requires Consistent(x)
    ensures Consistent(Added(x, t, c, now))
  {
    if t in x.members {
      assert c in x.members[t] + {c};
    }
  }

  lemma RemovedConsistent(x: Index, t: Topic, c: ConsumerId)
    requires Consistent(x)
    ensures Consistent(Removed(x, t, c))
  {
  }

  lemma MarkedConsistent(x: Index, t: Topic, now: Time)
    requires Consistent(x)
    ensures Consistent(Marked(x, t, now))
  {
  }

  lemma OfferedConsistent(x: Index, t: Topic, j: QueuedJob)
    requires Consistent(x)
    ensures Consistent(Offered(x, t, j))
  {
  }

  /** A dispatcher takes the job at the head of a queue. */
  function Taken(x: Index, t: Topic): Index {
    if t in x.chans && x.chans[t] != [] then x.(chans := x.chans[t := x.chans[t][1..]]) else x
  }

  lemma TakenConsistent(x: Index, t: Topic)
    requires Consistent(x)
    ensures Consistent(Taken(x, t))
  {
  }

  lemma ReportedConsistent(x: Index, now: Time)
    requires Consistent(x)
    ensures Consistent(Reported(x, now))
  {
  }
}
