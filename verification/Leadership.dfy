/** Leader tracking: the proxy listens to heartbeats of all cluster nodes and
    decides, by counting agreeing senders, which node to send writes to.

    `Tracker` is the state, `Receive` the effect of one heartbeat on it, and
    `LeaderTracker` the object that updates the same state in place.  The theorems
    are about `st[n]`, the state after the first `n` heartbeats of an arbitrary
    trace. */
module Leadership {
  import opened Common
  import Runs

  datatype NodeId = NodeId(name: string)

  const NOBODY := NodeId("")

  const STALE_AFTER: Time := 5000

  datatype Status = LeaderActive | FollowerActive | Unavailable | OtherStatus

  datatype Heartbeat = Heartbeat(
    status: Status, leader: NodeId, term: nat, voters: seq<NodeId>, learners: seq<NodeId>)

  datatype Info = Info(claimed: NodeId, term: nat, lastSeen: Time, status: Status)

  /** A heartbeat together with the clock readings made while handling it: when the
      sender's entry is stamped, when stale entries are swept, when votes are counted. */
  datatype Arrival = Arrival(sender: NodeId, hb: Heartbeat, seen: Time, swept: Time, judged: Time)

  datatype Tracker = Tracker(
    leader: NodeId,
    term: nat,
    voters: seq<NodeId>,
    learners: seq<NodeId>,
    lastUpdate: Time,
    heartbeats: map<NodeId, Info>,
    currentLeader: NodeId,
    available: bool)

  const INITIAL := Tracker(NOBODY, 0, [], [], 0, map[], NOBODY, false)

  // ------------------------------------------------------------------ one heartbeat

  predicate Fresh(info: Info, now: Time) {
    now - info.lastSeen <= STALE_AFTER
  }

  function InfoOf(a: Arrival): Info {
    Info(a.hb.leader, a.hb.term, a.seen, a.hb.status)
  }

  function Sweep(hbs: map<NodeId, Info>, now: Time): map<NodeId, Info> {
    map id | id in hbs && Fresh(hbs[id], now) :: hbs[id]
  }

  function Active(hbs: map<NodeId, Info>, now: Time): set<NodeId> {
    set id | id in hbs && Fresh(hbs[id], now)
  }

  /** The fresh senders whose entry carries exactly this leader and term. */
  function Backers(hbs: map<NodeId, Info>, leader: NodeId, term: nat, now: Time): set<NodeId> {
    set id | id in hbs && Fresh(hbs[id], now) && hbs[id].claimed == leader && hbs[id].term == term
  }

  function Quorum(voters: seq<NodeId>): nat {
    |voters| / 2 + 1
  }

  predicate Supersedes(s: Tracker, claimed: NodeId, term: nat) {
    term > s.term || (term == s.term && claimed != s.currentLeader)
  }

  function Judge(s: Tracker, claimed: NodeId, hb: Heartbeat, now: Time): Tracker {
    if Active(s.heartbeats, now) == {} then s
    else if |Backers(s.heartbeats, claimed, hb.term, now)| >= Quorum(s.voters) then
      if Supersedes(s, claimed, hb.term) then
        s.(leader := claimed, term := hb.term, voters := hb.voters, learners := hb.learners,
           lastUpdate := now, currentLeader := claimed, available := true)
      else s
    else if claimed == s.currentLeader then s.(available := false)
    else s
  }

  /** The sender's entry is written, then stale entries are swept. */
  function Noted(s: Tracker, a: Arrival): Tracker {
    s.(heartbeats := Sweep(s.heartbeats[a.sender := InfoOf(a)], a.swept))
  }

  function Receive(s: Tracker, a: Arrival): Tracker {
    var noted := Noted(s, a);
    match a.hb.status
    case LeaderActive => Judge(noted, a.sender, a.hb, a.judged)
    case Unavailable =>
      var heard := if a.sender == noted.currentLeader then noted.(available := false) else noted;
      heard.(heartbeats := heard.heartbeats - {a.sender})
    case FollowerActive =>
      if a.hb.leader != NOBODY && a.hb.leader != a.sender
      then Judge(noted, a.hb.leader, a.hb, a.judged)
      else noted
    case OtherStatus => noted
  }

  /** What the voter comparison of HTTP discovery computes. */
  predicate VotersChanged(current: seq<NodeId>, reported: seq<NodeId>) {
    |current| != |reported| || exists v :: v in reported && v !in current
  }

  // ------------------------------------------------------------------ the object

  /** How many of `all` the loop has been through when `todo` are left. */
  ghost function Visited(all: set<NodeId>, todo: set<NodeId>): nat {
    |all - todo|
  }

  lemma VoteStep(hbs: map<NodeId, Info>, claimed: NodeId, term: nat, now: Time, todo: set<NodeId>, id: NodeId)
    requires id in todo && id in hbs
    ensures Visited(Active(hbs, now), todo - {id}) == Visited(Active(hbs, now), todo) + Bit(Fresh(hbs[id], now))
    ensures Visited(Backers(hbs, claimed, term, now), todo - {id})
            == Visited(Backers(hbs, claimed, term, now), todo)
               + Bit(Fresh(hbs[id], now) && hbs[id].claimed == claimed && hbs[id].term == term)
  {
    CountStep(Active(hbs, now), todo, id);
    CountStep(Backers(hbs, claimed, term, now), todo, id);
  }

  lemma AllCounted(hbs: map<NodeId, Info>, claimed: NodeId, term: nat, now: Time)
    ensures Visited(Active(hbs, now), hbs.Keys) == 0 == Visited(Backers(hbs, claimed, term, now), hbs.Keys)
    ensures Visited(Active(hbs, now), {}) == |Active(hbs, now)|
    ensures Visited(Backers(hbs, claimed, term, now), {}) == |Backers(hbs, claimed, term, now)|
  {
    assert Active(hbs, now) - hbs.Keys == {} == Backers(hbs, claimed, term, now) - hbs.Keys;
    assert Active(hbs, now) - {} == Active(hbs, now);
    assert Backers(hbs, claimed, term, now) - {} == Backers(hbs, claimed, term, now);
  }

  class LeaderTracker {
    var leader: NodeId
    var term: nat
    var voters: seq<NodeId>
    var learners: seq<NodeId>
    var lastUpdate: Time
    var heartbeats: map<NodeId, Info>
    var currentLeader: NodeId
    var available: bool
    const httpDiscovery: bool

    ghost function View(): Tracker
      reads this
    {
      Tracker(leader, term, voters, learners, lastUpdate, heartbeats, currentLeader, available)
    }

    constructor (httpDiscovery: bool)
      ensures View() == INITIAL && this.httpDiscovery == httpDiscovery
    {
      leader, term, voters, learners, lastUpdate := NOBODY, 0, [], [], 0;
      heartbeats, currentLeader, available := map[], NOBODY, false;
      this.httpDiscovery := httpDiscovery;
    }

    method HandleHeartbeat(a: Arrival) returns (rediscover: bool)
      modifies this
      ensures View() == Receive(old(View()), a)
      ensures rediscover <==>
                httpDiscovery && Adopts(old(View()), a) && VotersChanged(old(voters), a.hb.voters)
    {
      heartbeats := heartbeats[a.sender := InfoOf(a)];
      heartbeats := SweepStale(heartbeats, a.swept);
      assert View() == Noted(old(View()), a);

      rediscover := false;
      match a.hb.status {
        case LeaderActive =>
          rediscover := EvaluateLeadership(a.sender, a.hb, a.judged);
        case Unavailable =>
          if a.sender == currentLeader {
            available := false;
          }
          heartbeats := heartbeats - {a.sender};
        case FollowerActive =>
          if a.hb.leader != NOBODY && a.hb.leader != a.sender {
            rediscover := EvaluateLeadership(a.hb.leader, a.hb, a.judged);
          }
        case OtherStatus =>
      }
    }

    static method SweepStale(hbs: map<NodeId, Info>, now: Time) returns (kept: map<NodeId, Info>)
      ensures kept == Sweep(hbs, now)
    {
      kept := hbs;
      var todo := hbs.Keys;
      while todo != {}
        invariant todo <= hbs.Keys
        invariant kept == map id | id in hbs && (id in todo || Fresh(hbs[id], now)) :: hbs[id]
        decreases |todo|
      {
        var id :| id in todo;
        if !Fresh(kept[id], now) {
          kept := kept - {id};
        }
        todo := todo - {id};
      }
    }

    method EvaluateLeadership(claimed: NodeId, hb: Heartbeat, now: Time) returns (rediscover: bool)
      modifies this
      ensures View() == Judge(old(View()), claimed, hb, now)
      ensures rediscover <==>
                && httpDiscovery
                && |Backers(old(heartbeats), claimed, hb.term, now)| >= Quorum(old(voters))
                && Supersedes(old(View()), claimed, hb.term)
                && VotersChanged(old(voters), hb.voters)
    {
      rediscover := false;
      var activeNodes, agreement := CountVotes(heartbeats, claimed, hb.term, now);
      if activeNodes == 0 {
        return;
      }

      var quorum := |voters| / 2 + 1;
      if agreement >= quorum {
        if hb.term > term || (hb.term == term && claimed != currentLeader) {
          if httpDiscovery {
            rediscover := CompareVoters(voters, hb.voters);
          }
          leader, term := claimed, hb.term;
          voters, learners, lastUpdate := hb.voters, hb.learners, now;
          currentLeader, available := claimed, true;
        }
      } else if claimed == currentLeader {
        available := false;
      }
    }

    /** Fresh entries, and those among them that agree with the claim. */
    static method CountVotes(hbs: map<NodeId, Info>, claimed: NodeId, term: nat, now: Time)
      returns (activeNodes: nat, agreement: nat)
      ensures activeNodes == |Active(hbs, now)| && agreement == |Backers(hbs, claimed, term, now)|
      ensures agreement <= activeNodes
    {
      activeNodes, agreement := 0, 0;
      var todo := hbs.Keys;
      AllCounted(hbs, claimed, term, now);
      while todo != {}
        invariant todo <= hbs.Keys
        invariant agreement <= activeNodes
        invariant activeNodes == Visited(Active(hbs, now), todo)
        invariant agreement == Visited(Backers(hbs, claimed, term, now), todo)
        decreases |todo|
      {
        var id :| id in todo;
        VoteStep(hbs, claimed, term, now, todo, id);
        if Fresh(hbs[id], now) {
          activeNodes := activeNodes + 1;
          if hbs[id].claimed == claimed && hbs[id].term == term {
            agreement := agreement + 1;
          }
        }
        todo := todo - {id};
      }
    }

    /** The length check followed by the one-sided membership loop. */
    static method CompareVoters(current: seq<NodeId>, reported: seq<NodeId>) returns (updated: bool)
      ensures updated <==> VotersChanged(current, reported)
    {
      updated := false;
      if |current| != |reported| {
        updated := true;
      } else {
        var known := set v | v in current;
        var i := 0;
        while i < |reported| && !updated
          invariant 0 <= i <= |reported|
          invariant updated <==> exists v :: v in reported[..i] && v !in current
        {
          if reported[i] !in known {
            updated := true;
          }
          i := i + 1;
        }
      }
    }
  }

  // ------------------------------------------------------------------ traces

  ghost predicate StepAt(trace: seq<Arrival>, st: seq<Tracker>, i: nat) {
    Runs.StepAt(Receive, trace, st, i)
  }

  /** `st` are the states a heartbeat trace leads through. */
  ghost predicate IsRun(trace: seq<Arrival>, st: seq<Tracker>) {
    Runs.IsRun(Receive, INITIAL, trace, st)
  }

  /** Whose leadership a heartbeat puts to the vote, if anyone's. */
  function Candidate(a: Arrival): Option<NodeId> {
    match a.hb.status
    case LeaderActive => Some(a.sender)
    case FollowerActive => if a.hb.leader != NOBODY && a.hb.leader != a.sender then Some(a.hb.leader) else None
    case _ => None
  }

  ghost function Support(s: Tracker, a: Arrival): set<NodeId>
    requires Candidate(a).Some?
  {
    Backers(Noted(s, a).heartbeats, Candidate(a).value, a.hb.term, a.judged)
  }

  /** The heartbeat makes the proxy (re)adopt a leader. */
  ghost predicate Adopts(s: Tracker, a: Arrival) {
    Candidate(a).Some? && |Support(s, a)| >= Quorum(s.voters) && Supersedes(s, Candidate(a).value, a.hb.term)
  }

  /** The heartbeat takes the current leader's availability away: it resigned, or a vote
      on it found fewer than a quorum of supporters. */
  ghost predicate Loses(s: Tracker, a: Arrival) {
    || (a.hb.status.Unavailable? && a.sender == s.currentLeader)
    || (&& Candidate(a) == Some(s.currentLeader)
        && Active(Noted(s, a).heartbeats, a.judged) != {}
        && |Support(s, a)| < Quorum(s.voters))
  }

  ghost predicate AdoptionAt(trace: seq<Arrival>, st: seq<Tracker>, i: nat)
    requires i < |trace| < |st|
  {
    Adopts(st[i], trace[i])
  }

  ghost predicate LossAt(trace: seq<Arrival>, st: seq<Tracker>, i: nat)
    requires i < |trace| < |st|
  {
    Loses(st[i], trace[i])
  }

  /** Some heartbeat among the first `n` names `l` as leader of term `t`. */
  ghost predicate Named(trace: seq<Arrival>, n: nat, l: NodeId, t: nat)
    requires n <= |trace|
  {
    exists k: nat :: k < n && trace[k].hb.leader == l && trace[k].hb.term == t
  }

  /** Election Safety (section 5.2 of the Raft paper) as seen through heartbeats. */
  ghost predicate ElectionSafe(trace: seq<Arrival>) {
    forall i: nat, j: nat ::
      i < |trace| && j < |trace| && trace[i].hb.term == trace[j].hb.term
      && trace[i].hb.leader != NOBODY && trace[j].hb.leader != NOBODY
      ==> trace[i].hb.leader == trace[j].hb.leader
  }

  ghost predicate SendersNamed(trace: seq<Arrival>) {
    forall i: nat :: i < |trace| ==> trace[i].sender != NOBODY
  }

  /** Position of the last heartbeat from `id` among the first `n`, or -1. */
  ghost function Latest(trace: seq<Arrival>, n: nat, id: NodeId): (k: int)
    requires n <= |trace|
    ensures -1 <= k < n
    ensures k >= 0 ==> trace[k].sender == id
    ensures forall j: nat :: k < j < n ==> trace[j].sender != id
  {
    if n == 0 then -1
    else if trace[n - 1].sender == id then n - 1
    else Latest(trace, n - 1, id)
  }

  /** The exact effect of one heartbeat on leader, term and availability. */
  lemma ReceiveEffect(s: Tracker, a: Arrival)
    ensures !(Adopts(s, a) && Loses(s, a))
    ensures var r := Receive(s, a);
      if Adopts(s, a) then
        && r.leader == r.currentLeader == Candidate(a).value
        && r.term == a.hb.term && r.voters == a.hb.voters && r.available
        && Supersedes(s, r.currentLeader, r.term)
      else
        && r.leader == s.leader && r.currentLeader == s.currentLeader
        && r.term == s.term && r.voters == s.voters
        && r.available == (s.available && !Loses(s, a))
  {
    if Candidate(a).Some? {
      assert Support(s, a) <= Active(Noted(s, a).heartbeats, a.judged);
    }
  }

  /** Step `n` of a trace, in terms of the verdict reached there. */
  lemma StepEffect(trace: seq<Arrival>, st: seq<Tracker>, n: nat)
    requires IsRun(trace, st) && n < |trace|
    ensures !(AdoptionAt(trace, st, n) && LossAt(trace, st, n))
    ensures var s, r := st[n], st[n + 1];
      if AdoptionAt(trace, st, n) then
        && r.leader == r.currentLeader && r.available && Supersedes(s, r.currentLeader, r.term)
        && Some(r.currentLeader) == Candidate(trace[n])
      else
        && r.leader == s.leader && r.currentLeader == s.currentLeader && r.term == s.term
        && r.available == (s.available && !LossAt(trace, st, n))
  {
    assert StepAt(trace, st, n);
    ReceiveEffect(st[n], trace[n]);
  }

  /** A heartbeat writes its sender's entry; every other entry is kept or swept. */
  lemma EntriesAfter(s: Tracker, a: Arrival, id: NodeId)
    requires id in Receive(s, a).heartbeats
    ensures Receive(s, a).heartbeats[id] == if id == a.sender then InfoOf(a) else s.heartbeats[id]
    ensures id != a.sender ==> id in s.heartbeats
  {
  }

  /** Every tracked entry is its sender's latest heartbeat. */
  lemma {:induction false} EntryIsLatest(trace: seq<Arrival>, st: seq<Tracker>, n: nat, id: NodeId)
    requires IsRun(trace, st) && n <= |trace| && id in st[n].heartbeats
    ensures Latest(trace, n, id) >= 0
    ensures st[n].heartbeats[id] == InfoOf(trace[Latest(trace, n, id)])
    ensures var a, info := trace[Latest(trace, n, id)], st[n].heartbeats[id];
      info.claimed == a.hb.leader && info.term == a.hb.term && info.lastSeen == a.seen && info.status == a.hb.status
  {
    assert StepAt(trace, st, n - 1);
    EntriesAfter(st[n - 1], trace[n - 1], id);
    if id != trace[n - 1].sender {
      EntryIsLatest(trace, st, n - 1, id);
    }
  }

  /** The sender's last heartbeat, number `k`, still counts after `n` heartbeats: it did not withdraw, and
      every sweep since found it at most five seconds old. */
  ghost predicate StillTracked(trace: seq<Arrival>, k: nat, n: nat)
    requires k < n <= |trace|
  {
    !trace[k].hb.status.Unavailable? && forall j :: k <= j < n ==> trace[j].swept - trace[k].seen <= 5000
  }

  lemma StepTracks(s: Tracker, a: Arrival, id: NodeId)
    ensures id in Receive(s, a).heartbeats <==>
            if id == a.sender then !a.hb.status.Unavailable? && a.swept - a.seen <= 5000
            else id in s.heartbeats && a.swept - s.heartbeats[id].lastSeen <= 5000
  {
  }

  /** The table, exactly: a sender is tracked if and only if its latest heartbeat still counts. */
  lemma {:induction false} TrackedIff(trace: seq<Arrival>, st: seq<Tracker>, n: nat, id: NodeId)
    requires IsRun(trace, st) && n <= |trace|
    ensures id in st[n].heartbeats <==> var k := Latest(trace, n, id); k >= 0 && StillTracked(trace, k, n)
  {
    if n > 0 {
      TrackedIff(trace, st, n - 1, id);
      assert StepAt(trace, st, n - 1);
      StepTracks(st[n - 1], trace[n - 1], id);
      if id in st[n - 1].heartbeats {
        EntryIsLatest(trace, st, n - 1, id);
      }
    }
  }

  // ------------------------------------------------------------------ the decision, in plain terms

  /** The heartbeat proposes `c`: the sender itself if it is an active leader, or the other node that
      an active follower names. */
  ghost predicate Proposes(a: Arrival, c: NodeId) {
    || (a.hb.status.LeaderActive? && c == a.sender)
    || (a.hb.status.FollowerActive? && c == a.hb.leader && c.name != "" && c != a.sender)
  }

  /** The tracked senders whose heartbeat is at most five seconds old. */
  ghost function Voting(hbs: map<NodeId, Info>, now: Time): set<NodeId> {
    set id | id in hbs && now - hbs[id].lastSeen <= 5000
  }

  /** Those of them that name `c` as leader of `term`. */
  ghost function Supporters(hbs: map<NodeId, Info>, c: NodeId, term: nat, now: Time): set<NodeId> {
    set id | id in hbs && now - hbs[id].lastSeen <= 5000 && hbs[id].claimed == c && hbs[id].term == term
  }

  /** What a vote on `c` makes of the leader: nothing if no sender is fresh; if a majority of the known
      voters' number supports it, `c` takes over for a higher term, or in the current term if it is not
      the leader already; short of that, the current leader loses its availability. */
  ghost predicate Decided(s: Tracker, r: Tracker, a: Arrival, c: NodeId) {
    var support := |Supporters(r.heartbeats, c, a.hb.term, a.judged)|;
    var majority := 2 * support > |s.voters|;
    if majority && (a.hb.term > s.term || (a.hb.term == s.term && c != s.currentLeader)) then
      && r.leader == c && r.currentLeader == c && r.term == a.hb.term && r.available
      && r.voters == a.hb.voters && r.learners == a.hb.learners && r.lastUpdate == a.judged
    else
      && Undecided(s, r)
      && r.available == (s.available && !(Voting(r.heartbeats, a.judged) != {} && !majority && c == s.currentLeader))
  }

  /** Leader, term, voters and learners are as before. */
  ghost predicate Undecided(s: Tracker, r: Tracker) {
    && r.leader == s.leader && r.currentLeader == s.currentLeader && r.term == s.term
    && r.voters == s.voters && r.learners == s.learners && r.lastUpdate == s.lastUpdate
  }

  lemma VoteDecides(s: Tracker, a: Arrival, c: NodeId)
    requires Proposes(a, c)
    ensures Decided(s, Receive(s, a), a, c)
  {
    var noted := Noted(s, a);
    assert Voting(noted.heartbeats, a.judged) == Active(noted.heartbeats, a.judged);
    assert Supporters(noted.heartbeats, c, a.hb.term, a.judged) == Backers(noted.heartbeats, c, a.hb.term, a.judged);
    assert Supporters(noted.heartbeats, c, a.hb.term, a.judged) <= Voting(noted.heartbeats, a.judged);
  }

  /** The decision on every step of every trace: a proposed node is voted on among the senders tracked
      then; without a proposal nothing changes, except that the leader may resign. */
  lemma EveryStepIsDecided(trace: seq<Arrival>, st: seq<Tracker>, i: nat)
    requires IsRun(trace, st) && i < |trace|
    ensures forall c :: Proposes(trace[i], c) ==> Decided(st[i], st[i + 1], trace[i], c)
    ensures (forall c :: !Proposes(trace[i], c)) ==>
              && Undecided(st[i], st[i + 1])
              && st[i + 1].available ==
                 (st[i].available && !(trace[i].hb.status.Unavailable? && trace[i].sender == st[i].currentLeader))
  {
    assert StepAt(trace, st, i);
    forall c | Proposes(trace[i], c)
      ensures Decided(st[i], st[i + 1], trace[i], c)
    {
      VoteDecides(st[i], trace[i], c);
    }
    if forall c :: !Proposes(trace[i], c) {
      assert !Proposes(trace[i], trace[i].sender) && !Proposes(trace[i], trace[i].hb.leader);
    }
  }

  /** Every adoption is backed by a quorum of distinct senders, each of whose latest heartbeat
      is fresh and carries the adopted leader and term. */
  lemma AdoptionIsBacked(trace: seq<Arrival>, st: seq<Tracker>, i: nat) returns (backers: set<NodeId>)
    requires IsRun(trace, st) && i < |trace| && AdoptionAt(trace, st, i)
    ensures |backers| >= |st[i].voters| / 2 + 1
    ensures forall id :: id in backers ==>
              var k := Latest(trace, i + 1, id);
              && k >= 0
              && trace[k].hb.leader == st[i + 1].currentLeader
              && trace[k].hb.term == st[i + 1].term
              && trace[i].judged - trace[k].seen <= STALE_AFTER
  {
    var s, a := st[i], trace[i];
    assert StepAt(trace, st, i);
    ReceiveEffect(s, a);
    backers := Support(s, a);
    forall id | id in backers && id != a.sender
      ensures Latest(trace, i + 1, id) >= 0
      ensures Noted(s, a).heartbeats[id] == InfoOf(trace[Latest(trace, i + 1, id)])
    {
      EntryIsLatest(trace, st, i, id);
    }
  }

  lemma AdoptionIsNamed(trace: seq<Arrival>, st: seq<Tracker>, i: nat)
    requires IsRun(trace, st) && i < |trace| && AdoptionAt(trace, st, i) && SendersNamed(trace)
    ensures st[i + 1].currentLeader != NOBODY
    ensures Named(trace, i + 1, st[i + 1].currentLeader, st[i + 1].term)
  {
    StepEffect(trace, st, i);
    var backers := AdoptionIsBacked(trace, st, i);
    var id :| id in backers;
    assert trace[Latest(trace, i + 1, id)].hb.leader == st[i + 1].currentLeader;
  }

  lemma NamedGrows(trace: seq<Arrival>, m: nat, n: nat, l: NodeId, t: nat)
    requires m <= n <= |trace| && Named(trace, m, l, t)
    ensures Named(trace, n, l, t)
  {
    var k: nat :| k < m && trace[k].hb.leader == l && trace[k].hb.term == t;
  }

  /** `currentLeader` and the topology's leader never disagree, and once a leader is known
      some heartbeat named it for the current term. */
  lemma {:induction false} LeaderIsNamed(trace: seq<Arrival>, st: seq<Tracker>, n: nat)
    requires IsRun(trace, st) && n <= |trace| && SendersNamed(trace)
    ensures st[n].currentLeader == st[n].leader
    ensures var s := st[n];
      if s.currentLeader == NOBODY then s.term == 0 && !s.available
      else Named(trace, n, s.currentLeader, s.term)
  {
    if n > 0 {
      StepEffect(trace, st, n - 1);
      if AdoptionAt(trace, st, n - 1) {
        AdoptionIsNamed(trace, st, n - 1);
      } else {
        LeaderIsNamed(trace, st, n - 1);
        var s := st[n - 1];
        if s.currentLeader != NOBODY {
          NamedGrows(trace, n - 1, n, s.currentLeader, s.term);
        }
      }
    }
  }

  /** Under Election Safety the proxy's leader is the leader of its term: every heartbeat of
      that term, past or future, that names anyone names it. */
  lemma LeaderIsTrue(trace: seq<Arrival>, st: seq<Tracker>, n: nat)
    requires IsRun(trace, st) && n <= |trace| && SendersNamed(trace) && ElectionSafe(trace)
    requires st[n].currentLeader != NOBODY
    ensures forall k: nat ::
      k < |trace| && trace[k].hb.term == st[n].term && trace[k].hb.leader != NOBODY
      ==> trace[k].hb.leader == st[n].currentLeader == st[n].leader
  {
    LeaderIsNamed(trace, st, n);
  }

  /** Under Election Safety an adoption after the first one always raises the term. */
  lemma AdoptionRaisesTerm(trace: seq<Arrival>, st: seq<Tracker>, i: nat)
    requires IsRun(trace, st) && i < |trace| && SendersNamed(trace) && ElectionSafe(trace)
    requires AdoptionAt(trace, st, i) && st[i].currentLeader != NOBODY
    ensures st[i + 1].term > st[i].term
  {
    StepEffect(trace, st, i);
    AdoptionIsNamed(trace, st, i);
    LeaderIsTrue(trace, st, i);
  }

  lemma {:induction false} TermNeverFalls(trace: seq<Arrival>, st: seq<Tracker>, i: nat, j: nat)
    requires IsRun(trace, st) && i <= j <= |trace| && SendersNamed(trace)
    ensures st[i].term <= st[j].term
    ensures st[i].currentLeader != NOBODY ==> st[j].currentLeader != NOBODY
    decreases j
  {
    if i < j {
      TermNeverFalls(trace, st, i, j - 1);
      StepEffect(trace, st, j - 1);
      if AdoptionAt(trace, st, j - 1) {
        AdoptionIsNamed(trace, st, j - 1);
      }
    }
  }

  lemma AdoptionPersists(trace: seq<Arrival>, st: seq<Tracker>, i: nat, j: nat)
    requires IsRun(trace, st) && i < j <= |trace| && SendersNamed(trace) && AdoptionAt(trace, st, i)
    ensures st[j].currentLeader != NOBODY && st[j].term >= st[i + 1].term
  {
    AdoptionIsNamed(trace, st, i);
    TermNeverFalls(trace, st, i + 1, j);
  }

  /** The adopted (leader, term) pairs of a trace have strictly increasing terms, hence one
      leader per term. */
  lemma AdoptedTermsIncrease(trace: seq<Arrival>, st: seq<Tracker>, i: nat, j: nat)
    requires IsRun(trace, st) && i < j < |trace| && SendersNamed(trace) && ElectionSafe(trace)
    requires AdoptionAt(trace, st, i) && AdoptionAt(trace, st, j)
    ensures st[i + 1].term < st[j + 1].term
  {
    AdoptionPersists(trace, st, i, j);
    AdoptionRaisesTerm(trace, st, j);
  }

  /** The leader was adopted at step `i`, and no step up to `n` took it away. */
  ghost predicate HeldSince(trace: seq<Arrival>, st: seq<Tracker>, i: nat, n: nat)
    requires i < n <= |trace| < |st|
  {
    AdoptionAt(trace, st, i) && forall j: nat :: i < j < n ==> !LossAt(trace, st, j)
  }

  /** Availability history: the leader counts as available exactly when, of all adoptions and
      losses so far, the latest is an adoption. */
  lemma {:induction false} AvailableIffLatestVerdictIsAdoption(trace: seq<Arrival>, st: seq<Tracker>, n: nat)
    requires IsRun(trace, st) && n <= |trace|
    ensures st[n].available <==> exists i: nat :: i < n && HeldSince(trace, st, i, n)
  {
    if n > 0 {
      AvailableIffLatestVerdictIsAdoption(trace, st, n - 1);
      StepEffect(trace, st, n - 1);
      if AdoptionAt(trace, st, n - 1) {
        assert HeldSince(trace, st, n - 1, n);
      } else if st[n].available {
        var i: nat :| i < n - 1 && HeldSince(trace, st, i, n - 1);
        assert HeldSince(trace, st, i, n);
      } else if i: nat :| i < n && HeldSince(trace, st, i, n) {
        assert HeldSince(trace, st, i, n - 1);
      }
    }
  }

  /** Under Election Safety, a step that ends in an available leader either raised the term or
      found the leader available already. */
  lemma AvailableNeedsNewTerm(trace: seq<Arrival>, st: seq<Tracker>, i: nat)
    requires IsRun(trace, st) && i < |trace| && SendersNamed(trace) && ElectionSafe(trace)
    requires st[i].currentLeader != NOBODY && st[i + 1].available
    ensures st[i].available || st[i + 1].term > st[i].term
  {
    StepEffect(trace, st, i);
    if AdoptionAt(trace, st, i) {
      AdoptionRaisesTerm(trace, st, i);
    }
  }

  /** Once a known leader is unavailable, only a strictly higher term makes it available again:
      the same leader confirmed again in the same term does not. */
  lemma {:induction false} LostUntilNewTerm(trace: seq<Arrival>, st: seq<Tracker>, i: nat, j: nat)
    requires IsRun(trace, st) && i <= j <= |trace| && SendersNamed(trace) && ElectionSafe(trace)
    requires st[i].currentLeader != NOBODY && !st[i].available
    requires st[j].available
    ensures st[j].term > st[i].term
    decreases j
  {
    TermNeverFalls(trace, st, i, j - 1);
    AvailableNeedsNewTerm(trace, st, j - 1);
    if st[j - 1].available {
      LostUntilNewTerm(trace, st, i, j - 1);
      TermNeverFalls(trace, st, j - 1, j);
    }
  }

  const LEADER := NodeId("a")
  const CLAIM := Arrival(LEADER, Heartbeat(LeaderActive, LEADER, 1, [LEADER], []), 0, 0, 0)

  /** A leader is adopted and resigns. */
  lemma ResignationTrace() returns (trace: seq<Arrival>, st: seq<Tracker>)
    ensures IsRun(trace, st) && trace == [CLAIM, CLAIM.(hb := CLAIM.hb.(status := Unavailable))]
    ensures AdoptionAt(trace, st, 0) && LossAt(trace, st, 1) && st[1].currentLeader == LEADER
    ensures st[1].term == st[2].term == 1 && st[2].currentLeader == LEADER && st[2].voters == [LEADER]
    ensures !st[2].available && st[2].heartbeats == map[]
  {
    trace := [CLAIM, CLAIM.(hb := CLAIM.hb.(status := Unavailable))];
    st := Runs.RunExists(Receive, INITIAL, trace);
    assert StepAt(trace, st, 0) && StepAt(trace, st, 1);
    OwnSupport(st[0], trace[0]);
    ReceiveEffect(st[0], trace[0]);
    ReceiveEffect(st[1], trace[1]);
  }

  /** The same leader confirmed in the same term does not help: it is adopted, resigns, and is
      confirmed by a quorum, but stays unavailable. */
  lemma ConfirmationDoesNotHelp() returns (trace: seq<Arrival>, st: seq<Tracker>)
    ensures IsRun(trace, st) && |trace| == 3 && SendersNamed(trace) && ElectionSafe(trace)
    ensures AdoptionAt(trace, st, 0) && LossAt(trace, st, 1)
    ensures Candidate(trace[2]) == Some(st[1].currentLeader) && trace[2].hb.term == st[1].term
    ensures |Support(st[2], trace[2])| >= Quorum(st[2].voters) && !st[2].available && !st[3].available
  {
    trace, st := ResignationTrace();
    trace, st := Runs.Extend(Receive, INITIAL, trace, st, CLAIM);
    OwnSupport(st[2], CLAIM);
    ReceiveEffect(st[2], CLAIM);
  }

  /** A higher term does: the same leader is adopted, resigns, is elected again, and is available. */
  lemma ReelectionHelps() returns (trace: seq<Arrival>, st: seq<Tracker>)
    ensures IsRun(trace, st) && |trace| == 3 && SendersNamed(trace) && ElectionSafe(trace)
    ensures AdoptionAt(trace, st, 0) && LossAt(trace, st, 1) && !st[2].available
    ensures st[3].currentLeader == st[2].currentLeader && st[3].term > st[2].term && st[3].available
  {
    trace, st := ResignationTrace();
    var again := CLAIM.(hb := CLAIM.hb.(term := 2));
    trace, st := Runs.Extend(Receive, INITIAL, trace, st, again);
    OwnSupport(st[2], again);
    ReceiveEffect(st[2], again);
  }

  /** With no other sender tracked, a timely self-proclaimed leader has itself for support. */
  lemma OwnSupport(s: Tracker, a: Arrival)
    requires a.hb.status == LeaderActive && a.hb.leader == a.sender && a.seen == a.swept == a.judged
    requires s.heartbeats.Keys <= {a.sender}
    ensures Support(s, a) == {a.sender}
  {
  }

  /** Election Safety is needed: two self-proclaimed leaders of one term are both adopted. */
  lemma SplitTermFlaps() returns (trace: seq<Arrival>, st: seq<Tracker>)
    ensures IsRun(trace, st) && |trace| == 2 && SendersNamed(trace) && !ElectionSafe(trace)
    ensures AdoptionAt(trace, st, 0) && AdoptionAt(trace, st, 1)
    ensures st[1].term == st[2].term == 1 && st[1].currentLeader != st[2].currentLeader
  {
    var a, b := NodeId("a"), NodeId("b");
    trace := [Arrival(a, Heartbeat(LeaderActive, a, 1, [], []), 0, 0, 0),
              Arrival(b, Heartbeat(LeaderActive, b, 1, [], []), 0, 0, 0)];
    st := Runs.RunExists(Receive, INITIAL, trace);
    assert trace[0].hb.leader != trace[1].hb.leader;
    assert a in Support(INITIAL, trace[0]);
    assert StepAt(trace, st, 0);
    ReceiveEffect(st[0], trace[0]);
    assert b in Support(st[1], trace[1]);
    assert StepAt(trace, st, 1);
    ReceiveEffect(st[1], trace[1]);
  }

  // ------------------------------------------------------------------ quorums

  datatype Claim = Claim(leader: NodeId, term: nat)

  ghost predicate Quorate(hbs: map<NodeId, Info>, c: Claim, voters: seq<NodeId>, now: Time) {
    |Backers(hbs, c.leader, c.term, now)| >= Quorum(voters)
  }

  ghost predicate Split(hbs: map<NodeId, Info>, voters: seq<NodeId>, now: Time) {
    exists a, b :: a != b && Quorate(hbs, a, voters, now) && Quorate(hbs, b, voters, now)
  }

  /** Two different claims can both reach quorum only when enough senders are tracked. */
  lemma SplitNeedsSenders(hbs: map<NodeId, Info>, voters: seq<NodeId>, now: Time)
    requires Split(hbs, voters, now)
    ensures |hbs| >= 2 * Quorum(voters) > |voters|
  {
    var a, b :| a != b && Quorate(hbs, a, voters, now) && Quorate(hbs, b, voters, now);
    var backA, backB := Backers(hbs, a.leader, a.term, now), Backers(hbs, b.leader, b.term, now);
    assert backA !! backB;
    SubsetSize(backA + backB, hbs.Keys);
  }

  const CLAIMS := (Claim(NodeId("a"), 1), Claim(NodeId("b"), 2))

  /** Of `n` followers the first `q` name leader a of term 1, the others leader b of term 2. */
  ghost function ClaimOf(i: nat, q: nat): Claim {
    if i < q then CLAIMS.0 else CLAIMS.1
  }

  ghost function Report(i: nat, q: nat, voters: seq<NodeId>): Arrival {
    var c := ClaimOf(i, q);
    Arrival(Name(i), Heartbeat(FollowerActive, c.leader, c.term, voters, []), 0, 0, 0)
  }

  /** Each of `n` followers reports once. */
  ghost function Reports(n: nat, q: nat, voters: seq<NodeId>): (trace: seq<Arrival>)
    ensures |trace| == n && forall i: nat :: i < n ==> trace[i] == Report(i, q, voters)
  {
    seq(n, i requires 0 <= i < n => Report(i, q, voters))
  }

  ghost predicate TableOf(hbs: map<NodeId, Info>, n: nat, q: nat) {
    && (forall id :: id in hbs <==> exists i: nat :: i < n && id == Name(i))
    && forall i: nat :: i < n ==> hbs[Name(i)] == InfoOf(Report(i, q, []))
  }

  /** After `k` reports the tracker knows `k` senders; the voters are those reported. */
  lemma {:induction false} ReportsAreTracked(st: seq<Tracker>, n: nat, q: nat, voters: seq<NodeId>, k: nat)
    requires IsRun(Reports(n, q, voters), st) && k <= n
    ensures TableOf(st[k].heartbeats, k, q)
    ensures k > 0 ==> st[k].voters == voters
  {
    var trace := Reports(n, q, voters);
    if k > 0 {
      ReportsAreTracked(st, n, q, voters, k - 1);
      assert StepAt(trace, st, k - 1);
      TableOneMore(st[k - 1].heartbeats, k - 1, q, voters);
      ReportIsNoted(st[k - 1], k - 1, q, voters);
      if k == 1 {
        FirstReportIsAdopted(q, voters);
      }
    }
  }

  lemma ReportIsNoted(s: Tracker, i: nat, q: nat, voters: seq<NodeId>)
    ensures var a := Report(i, q, voters);
      Receive(s, a).heartbeats == Noted(s, a).heartbeats && (s.voters == voters ==> Receive(s, a).voters == voters)
  {
  }

  /** While no voters are known one report is a quorum, and brings the voters with it. */
  lemma FirstReportIsAdopted(q: nat, voters: seq<NodeId>)
    ensures Receive(INITIAL, Report(0, q, voters)).voters == voters
  {
    var a := Report(0, q, voters);
    assert Support(INITIAL, a) == {a.sender};
    ReceiveEffect(INITIAL, a);
  }

  lemma TableOneMore(hbs: map<NodeId, Info>, k: nat, q: nat, voters: seq<NodeId>)
    requires TableOf(hbs, k, q)
    ensures var a := Report(k, q, voters); TableOf(Sweep(hbs[a.sender := InfoOf(a)], a.swept), k + 1, q)
  {
    var a := Report(k, q, voters);
    var hbs' := Sweep(hbs[a.sender := InfoOf(a)], a.swept);
    forall id
      ensures id in hbs' <==> exists i: nat :: i < k + 1 && id == Name(i)
    {
      if id in hbs && id != Name(k) {
        var i: nat :| i < k && id == Name(i);
      }
    }
  }

  ghost function Name(i: nat): (id: NodeId)
    ensures |id.name| == i + 1 && id.name[0] == 'n'
  {
    NodeId(seq(i + 1, _ => 'n'))
  }

  lemma {:induction false} NamesCount(lo: nat, hi: nat)
    requires lo <= hi
    ensures |set i | lo <= i < hi :: Name(i)| == hi - lo
    decreases hi
  {
    var names := set i | lo <= i < hi :: Name(i);
    if lo == hi {
      assert names == {};
    } else {
      NamesCount(lo, hi - 1);
      var fewer := set i | lo <= i < hi - 1 :: Name(i);
      assert Name(hi - 1) !in fewer;
      assert names == fewer + {Name(hi - 1)};
    }
  }

  lemma TableCount(hbs: map<NodeId, Info>, n: nat, q: nat)
    requires TableOf(hbs, n, q)
    ensures |hbs| == n
  {
    NamesCount(0, n);
    assert hbs.Keys == set i | 0 <= i < n :: Name(i);
  }

  /** The followers from `lo` up to `hi` back their common claim. */
  lemma TableBackers(hbs: map<NodeId, Info>, n: nat, q: nat, lo: nat, hi: nat, c: Claim)
    requires TableOf(hbs, n, q) && lo <= hi <= n
    requires forall i: nat :: lo <= i < hi ==> ClaimOf(i, q) == c
    ensures |Backers(hbs, c.leader, c.term, 0)| >= hi - lo
  {
    NamesCount(lo, hi);
    SubsetSize(set i | lo <= i < hi :: Name(i), Backers(hbs, c.leader, c.term, 0));
  }

  /** A trace of honest, timely heartbeats after which two claims are quorate. */
  lemma SplitIsPossible(n: nat, voters: seq<NodeId>) returns (trace: seq<Arrival>, st: seq<Tracker>)
    requires n >= 2 * Quorum(voters)
    ensures SplitTrace(trace, st, n, voters, 0)
  {
    var q := Quorum(voters);
    trace := Reports(n, q, voters);
    st := Runs.RunExists(Receive, INITIAL, trace);
    ReportsAreTracked(st, n, q, voters, n);
    var hbs := st[n].heartbeats;
    TableCount(hbs, n, q);
    TableBackers(hbs, n, q, 0, q, CLAIMS.0);
    TableBackers(hbs, n, q, q, n, CLAIMS.1);
    assert Quorate(hbs, CLAIMS.0, voters, 0) && Quorate(hbs, CLAIMS.1, voters, 0);
  }

  /** A trace under Election Safety that leads to `n` tracked senders, these voters and a split. */
  ghost predicate SplitTrace(trace: seq<Arrival>, st: seq<Tracker>, n: nat, voters: seq<NodeId>, now: Time) {
    && IsRun(trace, st) && SendersNamed(trace) && ElectionSafe(trace)
    && var s := st[|trace|];
    |s.heartbeats| == n && s.voters == voters && Split(s.heartbeats, voters, now)
  }

  /** Quorum exclusion, exactly: heartbeats can lead to a state where two claims are quorate if and
      only if at least two quorums' worth of senders are tracked, so never while senders do not
      outnumber voters. */
  lemma QuorumExclusion(n: nat, voters: seq<NodeId>)
    ensures (exists trace, st, now :: SplitTrace(trace, st, n, voters, now)) <==> n >= 2 * Quorum(voters)
    ensures n <= |voters| ==> forall hbs, now :: |hbs| == n ==> !Split(hbs, voters, now)
  {
    forall hbs, now | |hbs| == n && Split(hbs, voters, now)
      ensures n >= 2 * Quorum(voters) > |voters|
    {
      SplitNeedsSenders(hbs, voters, now);
    }
    if n >= 2 * Quorum(voters) {
      var trace, st := SplitIsPossible(n, voters);
    }
  }

  // ------------------------------------------------------------------ voter changes

  ghost predicate Distinct<T>(s: seq<T>) {
    forall i, j :: 0 <= i < j < |s| ==> s[i] != s[j]
  }

  ghost function Elements<T>(s: seq<T>): set<T> {
    set x | x in s
  }

  lemma {:induction false} DistinctCount<T>(s: seq<T>)
    requires Distinct(s)
    ensures |Elements(s)| == |s|
  {
    if s != [] {
      var rest := s[..|s| - 1];
      DistinctCount(rest);
      assert s == rest + [s[|s| - 1]];
      assert Elements(s) == Elements(rest) + {s[|s| - 1]};
    }
  }

  /** The length check plus the one-sided membership loop detects exactly the changes of the
      voter set, for duplicate-free lists. */
  lemma VotersChangedIffSetsDiffer(current: seq<NodeId>, reported: seq<NodeId>)
    requires Distinct(current) && Distinct(reported)
    ensures VotersChanged(current, reported) <==> Elements(current) != Elements(reported)
  {
    DistinctCount(current);
    DistinctCount(reported);
    if !VotersChanged(current, reported) {
      SubsetSize(Elements(reported), Elements(current));
    } else if |current| == |reported| {
      var v :| v in reported && v !in current;
      assert v in Elements(reported) && v !in Elements(current);
    }
  }

  /** For any lists, exactly: the check is right if and only if a reported voter is new, or the lengths
      agree just when the numbers of distinct voters do. */
  lemma VotersChangedIsRightIff(current: seq<NodeId>, reported: seq<NodeId>)
    ensures (VotersChanged(current, reported) <==> Elements(current) != Elements(reported))
            <==> || (exists v :: v in reported && v !in current)
                 || (|current| == |reported| <==> |Elements(current)| == |Elements(reported)|)
  {
    if v :| v in reported && v !in current {
      assert v in Elements(reported) && v !in Elements(current);
    } else {
      SubsetSize(Elements(reported), Elements(current));
    }
  }

  /** With duplicates the check misses a removed voter and invents a change. */
  lemma VotersChangedNeedsDistinct()
    ensures var a, b := NodeId("a"), NodeId("b");
      && !VotersChanged([a, b], [a, a]) && Elements([a, b]) != Elements([a, a])
      && VotersChanged([a, a], [a]) && Elements([a, a]) == Elements([a])
  {
    var a, b := NodeId("a"), NodeId("b");
    assert [a, b][1] in Elements([a, b]) && b !in Elements([a, a]);
    assert [a][0] in Elements([a]) && [a, a][0] in Elements([a, a]);
    assert Elements([a]) == {a} == Elements([a, a]);
  }
}
