/** The per-topic job buffer: producer requests are stored, merged into one batch under a
    fresh ID, and the single response to the batch is split back to the producers, failures
    being attributed through 64-bit hashes of job IDs.

    The functions say what one call does; `JobBuffer` does it in place. */
module Batching {
  import opened Common

  type uint32 = n: nat | n < 0x1_0000_0000
  newtype Hash = n: int | 0 <= n < 0x1_0000_0000_0000_0000
  type HashFn = JobId -> Hash

  const STORE_CAPACITY := 1024

  datatype Job = Job(id: JobId, topic: Topic, data: seq<bv8>)

  /** `ticket` is the identity of the request's capacity-one response channel, which is
      absent when `listening` is false. */
  datatype Request = Request(ticket: nat, id: uint32, listening: bool, topic: Topic, jobs: seq<Job>)

  datatype Waiting = Waiting(ticket: nat, apiReqId: uint32, listening: bool, hashes: seq<Hash>)

  datatype Batch = Batch(id: uint32, topic: Topic, jobs: seq<Job>)

  datatype Status = Success | Error | OtherStatus

  datatype Failure = Failure(jobId: JobId, reason: int)

  datatype Response = Response(requestId: uint32, status: Status, error: string, failures: seq<Failure>)

  /** One non-blocking send on a response channel. */
  datatype Send = Send(ticket: nat, response: Response)

  datatype Buffer = Buffer(
    topic: Topic,
    store: seq<Request>,
    bufferedCount: int,
    bufferedJobs: int,
    waiting: map<uint32, seq<Waiting>>)

  // ------------------------------------------------------------------ storing and draining

  /** The jobs of the first `n` requests, in order. */
  function JobsUpTo(reqs: seq<Request>, n: nat): seq<Job>
    requires n <= |reqs|
  {
    if n == 0 then [] else JobsUpTo(reqs, n - 1) + reqs[n - 1].jobs
  }

  function AllJobs(reqs: seq<Request>): seq<Job> {
    JobsUpTo(reqs, |reqs|)
  }

  function Hashes(h: HashFn, jobs: seq<Job>): (hs: seq<Hash>)
    ensures |hs| == |jobs|
  {
    seq(|jobs|, i requires 0 <= i < |jobs| => h(jobs[i].id))
  }

  function WaitingFor(h: HashFn, r: Request): Waiting {
    Waiting(r.ticket, r.id, r.listening, Hashes(h, r.jobs))
  }

  function WaitingList(h: HashFn, reqs: seq<Request>): (ws: seq<Waiting>)
    ensures |ws| == |reqs|
  {
    seq(|reqs|, i requires 0 <= i < |reqs| => WaitingFor(h, reqs[i]))
  }

  ghost predicate Counted(b: Buffer) {
    b.bufferedCount == |b.store| && b.bufferedJobs == |AllJobs(b.store)|
  }

  function Stored(b: Buffer, r: Request): Buffer {
    b.(store := b.store + [r], bufferedCount := b.bufferedCount + 1, bufferedJobs := b.bufferedJobs + |r.jobs|)
  }

  function Collected(h: HashFn, b: Buffer, id: uint32): Buffer {
    b.(store := [], bufferedCount := 0, bufferedJobs := 0, waiting := b.waiting[id := WaitingList(h, b.store)])
  }

  function BatchOf(b: Buffer, id: uint32): Batch {
    Batch(id, b.topic, AllJobs(b.store))
  }

  /** The counter after `n` further increments. */
  function Counted32(start: uint32, n: nat): uint32 {
    if n == 0 then start else (Counted32(start, n - 1) + 1) % 0x1_0000_0000
  }

  lemma SuccessorWraps(a: nat)
    ensures (a % 0x1_0000_0000 + 1) % 0x1_0000_0000 == (a + 1) % 0x1_0000_0000
  {
    var m := 0x1_0000_0000;
    var q, r := a / m, a % m;
    assert a + 1 == m * q + (r + 1);
    if r + 1 == m {
      assert a + 1 == m * (q + 1);
    }
  }

  lemma {:induction false} CounterWraps(start: uint32, n: nat)
    ensures Counted32(start, n) == (start + n) % 0x1_0000_0000
  {
    if n > 0 {
      CounterWraps(start, n - 1);
      SuccessorWraps(start + n - 1);
    }
  }

  /** Numbers less than 2^32 apart differ in their remainders. */
  lemma RemaindersDiffer(a: nat, b: nat)
    requires a < b < a + 0x1_0000_0000
    ensures a % 0x1_0000_0000 != b % 0x1_0000_0000
  {
    var m := 0x1_0000_0000;
    var d := b / m - a / m;
    assert b % m - a % m == (b - a) - m * d;
    assert d <= 0 || d >= 1;
  }

  /** Fewer than 2^32 consecutive increments give distinct IDs. */
  lemma ConsecutiveIdsDiffer(start: uint32, i: nat, j: nat)
    requires i < j < i + 0x1_0000_0000
    ensures Counted32(start, i) != Counted32(start, j)
  {
    CounterWraps(start, i);
    CounterWraps(start, j);
    RemaindersDiffer(start + i, start + j);
  }

  lemma {:induction false} JobsUpToPrefix(reqs: seq<Request>, more: seq<Request>, n: nat)
    requires n <= |reqs|
    ensures JobsUpTo(reqs + more, n) == JobsUpTo(reqs, n)
  {
    if n > 0 {
      JobsUpToPrefix(reqs, more, n - 1);
    }
  }

  /** The counters stay exact, so a drain that trusts them never waits on an empty store. */
  lemma CountersStayExact(b: Buffer, r: Request)
    requires Counted(b)
    ensures Counted(Stored(b, r)) && AllJobs(Stored(b, r).store) == AllJobs(b.store) + r.jobs
  {
    JobsUpToPrefix(b.store, [r], |b.store|);
  }

  lemma DrainResetsCounters(h: HashFn, b: Buffer, id: uint32)
    ensures Counted(Collected(h, b, id))
  {
  }

  lemma {:induction false} JobsUpToNonempty(reqs: seq<Request>, n: nat)
    requires 0 < n <= |reqs| && reqs[0].jobs != []
    ensures JobsUpTo(reqs, n) != [] && JobsUpTo(reqs, n)[0] == reqs[0].jobs[0]
  {
    if n > 1 {
      JobsUpToNonempty(reqs, n - 1);
    }
  }

  // ------------------------------------------------------------------ attribution by hash

  /** The failures among the first `n` whose hash is one of `hashes`, in order. */
  function Mine(h: HashFn, hashes: seq<Hash>, failures: seq<Failure>, n: nat): seq<Failure>
    requires n <= |failures|
  {
    if n == 0 then []
    else
      var before := Mine(h, hashes, failures, n - 1);
      if h(failures[n - 1].jobId) in hashes then before + [failures[n - 1]] else before
  }

  /** What the producer behind `w` is told about a response to its batch. */
  function Reply(h: HashFn, w: Waiting, resp: Response): Response {
    if resp.status == Success then
      Response(w.apiReqId, Success, "", [])
    else if resp.status == Error && |resp.failures| == 0 then
      Response(w.apiReqId, Error, resp.error, [])
    else
      var mine := Mine(h, w.hashes, resp.failures, |resp.failures|);
      if |mine| > 0 then Response(w.apiReqId, Error, resp.error, mine)
      else Response(w.apiReqId, Success, "", [])
  }

  /** The waiters among the first `n` that have a response channel, in order. */
  function Listeners(ws: seq<Waiting>, n: nat): seq<Waiting>
    requires n <= |ws|
  {
    if n == 0 then []
    else if ws[n - 1].listening then Listeners(ws, n - 1) + [ws[n - 1]]
    else Listeners(ws, n - 1)
  }

  /** The producers a response is for: those of its batch, if that batch is waiting here. */
  function Audience(b: Buffer, resp: Response): seq<Waiting> {
    if resp.requestId in b.waiting
    then Listeners(b.waiting[resp.requestId], |b.waiting[resp.requestId]|)
    else []
  }

  function SendTo(h: HashFn, ws: seq<Waiting>, resp: Response): (sends: seq<Send>)
    ensures |sends| == |ws|
  {
    seq(|ws|, i requires 0 <= i < |ws| => Send(ws[i].ticket, Reply(h, ws[i], resp)))
  }

  /** The sends a response causes. */
  function Sends(h: HashFn, b: Buffer, resp: Response): seq<Send> {
    SendTo(h, Audience(b, resp), resp)
  }

  function Settled(b: Buffer, id: uint32): Buffer {
    b.(waiting := b.waiting - {id})
  }

  // ------------------------------------------------------------------ the object

  class SharedCounter {
    var value: uint32

    constructor ()
      ensures value == 0
    {
      value := 0;
    }

    method Add() returns (id: uint32)
      modifies this
      ensures value == id == (old(value) + 1) % 0x1_0000_0000
    {
      value := (value + 1) % 0x1_0000_0000;
      id := value;
    }
  }

  class JobBuffer {
    const topic: Topic
    const hash: HashFn
    const counter: SharedCounter
    var store: seq<Request>
    var bufferedCount: int
    var bufferedJobsCount: int
    var waitingMap: map<uint32, seq<Waiting>>

    ghost function View(): Buffer
      reads this
    {
      Buffer(topic, store, bufferedCount, bufferedJobsCount, waitingMap)
    }

    ghost predicate Valid()
      reads this
    {
      Counted(View()) && |store| <= STORE_CAPACITY
    }

    constructor (topic: Topic, hash: HashFn, counter: SharedCounter)
      ensures Valid() && View() == Buffer(topic, [], 0, 0, map[])
      ensures this.hash == hash && this.counter == counter
    {
      this.topic, this.hash, this.counter := topic, hash, counter;
      store, bufferedCount, bufferedJobsCount, waitingMap := [], 0, 0, map[];
    }

    /** Storing waits while the store is full; this is the call once it may proceed. */
    method Store(r: Request)
      requires Valid() && |store| < STORE_CAPACITY
      modifies this
      ensures Valid() && View() == Stored(old(View()), r)
    {
      CountersStayExact(View(), r);
      store := store + [r];
      bufferedCount := bufferedCount + 1;
      bufferedJobsCount := bufferedJobsCount + |r.jobs|;
    }

    /** Empties the store into one batch under a fresh ID; nothing happens on an empty store. */
    method Drain() returns (batch: Option<Batch>)
      requires Valid()
      modifies this, counter
      ensures Valid()
      ensures old(store) == [] ==>
                batch.None? && View() == old(View()) && counter.value == old(counter.value)
      ensures old(store) != [] ==>
                && counter.value == (old(counter.value) + 1) % 0x1_0000_0000
                && batch == Some(BatchOf(old(View()), counter.value))
                && View() == Collected(hash, old(View()), counter.value)
    {
      if |store| == 0 {
        return None;
      }
      ghost var reqs := store;
      var count := bufferedCount;
      var allJobs: seq<Job>, waitingList: seq<Waiting> := [], [];
      var i := 0;
      while i < count
        invariant 0 <= i <= count == |reqs| && store == reqs[i..]
        invariant allJobs == JobsUpTo(reqs, i)
        invariant |waitingList| == i && forall k :: 0 <= k < i ==> waitingList[k] == WaitingFor(hash, reqs[k])
        invariant waitingMap == old(waitingMap) && counter.value == old(counter.value)
      {
        var req := store[0];
        store := store[1..];
        var jobHashes := CollectHashes(req.jobs);
        allJobs := allJobs + req.jobs;
        waitingList := waitingList + [Waiting(req.ticket, req.id, req.listening, jobHashes)];
        i := i + 1;
      }
      bufferedCount, bufferedJobsCount := 0, 0;
      var id := counter.Add();
      assert waitingList == WaitingList(hash, reqs);
      waitingMap := waitingMap[id := waitingList];
      batch := Some(Batch(id, topic, allJobs));
    }

    method CollectHashes(jobs: seq<Job>) returns (jobHashes: seq<Hash>)
      ensures jobHashes == Hashes(hash, jobs)
    {
      jobHashes := [];
      for j := 0 to |jobs|
        invariant |jobHashes| == j && forall k :: 0 <= k < j ==> jobHashes[k] == hash(jobs[k].id)
      {
        jobHashes := jobHashes + [hash(jobs[j].id)];
      }
    }

    /** `sends` are the non-blocking sends made, in order. */
    method DispatchResponse(resp: Response) returns (sends: seq<Send>)
      requires Valid()
      modifies this
      ensures Valid()
      ensures sends == Sends(hash, old(View()), resp)
      ensures View() == Settled(old(View()), resp.requestId)
    {
      sends := [];
      if resp.requestId !in waitingMap {
        return;
      }
      var waitingList := waitingMap[resp.requestId];
      for i := 0 to |waitingList|
        invariant View() == old(View())
        invariant sends == SendTo(hash, Listeners(waitingList, i), resp)
      {
        var call := waitingList[i];
        if call.listening {
          if resp.status == Success {
            sends := sends + [Send(call.ticket, Response(call.apiReqId, Success, "", []))];
          } else if resp.status == Error && |resp.failures| == 0 {
            sends := sends + [Send(call.ticket, Response(call.apiReqId, Error, resp.error, []))];
          } else {
            var mine := ClientFailures(call.hashes, resp.failures);
            if |mine| > 0 {
              sends := sends + [Send(call.ticket, Response(call.apiReqId, Error, resp.error, mine))];
            } else {
              sends := sends + [Send(call.ticket, Response(call.apiReqId, Success, "", []))];
            }
          }
        }
      }
      waitingMap := waitingMap - {resp.requestId};
    }

    method ClientFailures(hashes: seq<Hash>, failures: seq<Failure>) returns (mine: seq<Failure>)
      ensures mine == Mine(hash, hashes, failures, |failures|)
    {
      mine := [];
      for i := 0 to |failures|
        invariant mine == Mine(hash, hashes, failures, i)
      {
        if hash(failures[i].jobId) in hashes {
          mine := mine + [failures[i]];
        }
      }
    }
  }

  // ------------------------------------------------------------------ attribution by ID

  ghost predicate Names(jobs: seq<Job>, id: JobId) {
    exists k :: 0 <= k < |jobs| && jobs[k].id == id
  }

  /** The failures among the first `n` that name one of `jobs`, in order. */
  ghost function Own(jobs: seq<Job>, failures: seq<Failure>, n: nat): seq<Failure>
    requires n <= |failures|
  {
    if n == 0 then []
    else
      var before := Own(jobs, failures, n - 1);
      if Names(jobs, failures[n - 1].jobId) then before + [failures[n - 1]] else before
  }

  /** The reference: failures attributed by job ID, without hashes. */
  ghost function IdReply(r: Request, resp: Response): Response {
    if resp.status == Success then Response(r.id, Success, "", [])
    else if resp.status == Error && resp.failures == [] then Response(r.id, Error, resp.error, [])
    else
      var own := Own(r.jobs, resp.failures, |resp.failures|);
      if own == [] then Response(r.id, Success, "", []) else Response(r.id, Error, resp.error, own)
  }

  /** A failure that does not name one of the jobs but shares a hash with one. */
  ghost predicate Collides(h: HashFn, jobs: seq<Job>, f: Failure) {
    h(f.jobId) in Hashes(h, jobs) && !Names(jobs, f.jobId)
  }

  lemma NamedIsHashed(h: HashFn, jobs: seq<Job>, id: JobId)
    requires Names(jobs, id)
    ensures h(id) in Hashes(h, jobs)
  {
    var k :| 0 <= k < |jobs| && jobs[k].id == id;
    assert Hashes(h, jobs)[k] == h(id);
  }

  lemma {:induction false} HashedVersusNamed(h: HashFn, jobs: seq<Job>, failures: seq<Failure>, n: nat)
    requires n <= |failures|
    ensures var mine, own := Mine(h, Hashes(h, jobs), failures, n), Own(jobs, failures, n);
      && |own| <= |mine|
      && (forall f :: f in own ==> f in mine)
      && (mine == own <==> forall i :: 0 <= i < n ==> !Collides(h, jobs, failures[i]))
      && (|mine| == |own| ==> mine == own)
  {
    if n > 0 {
      HashedVersusNamed(h, jobs, failures, n - 1);
      if Names(jobs, failures[n - 1].jobId) {
        NamedIsHashed(h, jobs, failures[n - 1].jobId);
      }
    }
  }

  /** Hash attribution equals ID attribution for a producer exactly when no reported failure
      collides with one of its jobs. */
  lemma HashedEqualsNamedIffNoCollision(h: HashFn, jobs: seq<Job>, failures: seq<Failure>)
    ensures Mine(h, Hashes(h, jobs), failures, |failures|) == Own(jobs, failures, |failures|)
            <==> forall f :: f in failures ==> !Collides(h, jobs, f)
  {
    HashedVersusNamed(h, jobs, failures, |failures|);
  }

  /** `sel` are the failures at positions `pos`: those for which `mine` holds, each once, in order. */
  ghost predicate Selects(sel: seq<Failure>, pos: seq<nat>, failures: seq<Failure>, mine: Failure -> bool) {
    && |sel| == |pos|
    && (forall k :: 0 <= k < |pos| ==> pos[k] < |failures| && sel[k] == failures[pos[k]] && mine(sel[k]))
    && (forall j, k :: 0 <= j < k < |pos| ==> pos[j] < pos[k])
    && (forall i: nat :: i < |failures| && mine(failures[i]) ==> i in pos)
  }

  lemma SelectsOneMore(sel: seq<Failure>, pos: seq<nat>, failures: seq<Failure>, f: Failure, mine: Failure -> bool)
    requires Selects(sel, pos, failures, mine)
    ensures if mine(f) then Selects(sel + [f], pos + [|failures|], failures + [f], mine)
            else Selects(sel, pos, failures + [f], mine)
  {
    var pos' := pos + [|failures|];
    assert forall i :: i in pos ==> i in pos';
    assert pos'[|pos|] == |failures|;
  }

  function HashedTo(h: HashFn, hashes: seq<Hash>): Failure -> bool {
    (f: Failure) => h(f.jobId) in hashes
  }

  /** What a producer is told of a partial failure: exactly the failures whose hash is the hash of one of
      its jobs, each once, in the order reported. */
  lemma {:induction false} MineSelects(h: HashFn, hashes: seq<Hash>, failures: seq<Failure>, n: nat)
    returns (pos: seq<nat>)
    requires n <= |failures|
    ensures Selects(Mine(h, hashes, failures, n), pos, failures[..n], HashedTo(h, hashes))
  {
    if n == 0 {
      pos := [];
    } else {
      pos := MineSelects(h, hashes, failures, n - 1);
      var mine := HashedTo(h, hashes);
      SelectsOneMore(Mine(h, hashes, failures, n - 1), pos, failures[..n - 1], failures[n - 1], mine);
      assert failures[..n] == failures[..n - 1] + [failures[n - 1]];
      if mine(failures[n - 1]) {
        pos := pos + [|failures[..n - 1]|];
      }
    }
  }

  /** Every reply, whatever the response: under the producer's request ID; a success says nothing more;
      an error passes the response's error text on, with the producer's failures if any were reported. */
  lemma ReplyShape(h: HashFn, w: Waiting, resp: Response)
    ensures var r := Reply(h, w, resp);
      && r.requestId == w.apiReqId && (r.status == Success || r.status == Error)
      && (r.status == Success ==> r.error == "" && r.failures == [])
      && (r.status == Error ==>
            r.error == resp.error && r.failures == Mine(h, w.hashes, resp.failures, |resp.failures|))
  {
  }

  lemma {:induction false} OwnIsComplete(jobs: seq<Job>, failures: seq<Failure>, n: nat, i: nat)
    requires i < n <= |failures| && Names(jobs, failures[i].jobId)
    ensures failures[i] in Own(jobs, failures, n)
  {
    if i < n - 1 {
      OwnIsComplete(jobs, failures, n - 1, i);
    }
  }

  /** Whatever the collisions, a producer one of whose jobs is reported failed is told so: the
      reply is an error that lists every failure naming its jobs. */
  lemma NeverFalseSuccess(h: HashFn, r: Request, resp: Response, i: nat)
    requires resp.status != Success
    requires i < |resp.failures| && Names(r.jobs, resp.failures[i].jobId)
    ensures Reply(h, WaitingFor(h, r), resp).status == Error
    ensures Reply(h, WaitingFor(h, r), resp).requestId == r.id
    ensures resp.failures[i] in Reply(h, WaitingFor(h, r), resp).failures
  {
    OwnIsComplete(r.jobs, resp.failures, |resp.failures|, i);
    HashedVersusNamed(h, r.jobs, resp.failures, |resp.failures|);
  }

  /** The fast form refines the simple one for every producer none of whose jobs collides with
      a reported failure; a hash injective on the IDs involved is enough. */
  lemma ReplyRefinesIdReply(h: HashFn, r: Request, resp: Response)
    requires forall f :: f in resp.failures ==> !Collides(h, r.jobs, f)
    ensures Reply(h, WaitingFor(h, r), resp) == IdReply(r, resp)
  {
    HashedEqualsNamedIffNoCollision(h, r.jobs, resp.failures);
  }

  ghost predicate InjectiveOn(h: HashFn, ids: set<JobId>) {
    forall x, y :: x in ids && y in ids && h(x) == h(y) ==> x == y
  }

  ghost function IdsOf(jobs: seq<Job>): set<JobId> {
    set k | 0 <= k < |jobs| :: jobs[k].id
  }

  ghost function FailedIds(failures: seq<Failure>): set<JobId> {
    set k | 0 <= k < |failures| :: failures[k].jobId
  }

  lemma InjectiveHashesDoNotCollide(h: HashFn, jobs: seq<Job>, failures: seq<Failure>)
    requires InjectiveOn(h, IdsOf(jobs) + FailedIds(failures))
    ensures forall f :: f in failures ==> !Collides(h, jobs, f)
  {
    forall f | f in failures && h(f.jobId) in Hashes(h, jobs)
      ensures Names(jobs, f.jobId)
    {
      var i :| 0 <= i < |failures| && failures[i] == f;
      var k :| 0 <= k < |jobs| && Hashes(h, jobs)[k] == h(f.jobId);
      assert failures[i].jobId in FailedIds(failures) && jobs[k].id in IdsOf(jobs);
    }
  }

  /** When a producer is told success, exactly. The last disjunct includes a response that
      carries neither known status and no failures. */
  lemma ToldSuccessIff(h: HashFn, r: Request, resp: Response)
    ensures Reply(h, WaitingFor(h, r), resp).status == Success <==>
            || resp.status == Success
            || (&& !(resp.status == Error && resp.failures == [])
                && forall f :: f in resp.failures ==> h(f.jobId) !in Hashes(h, r.jobs))
  {
    MineEmptyIff(h, Hashes(h, r.jobs), resp.failures, |resp.failures|);
  }

  lemma {:induction false} MineEmptyIff(h: HashFn, hashes: seq<Hash>, failures: seq<Failure>, n: nat)
    requires n <= |failures|
    ensures Mine(h, hashes, failures, n) == [] <==> forall i :: 0 <= i < n ==> h(failures[i].jobId) !in hashes
  {
    if n > 0 {
      MineEmptyIff(h, hashes, failures, n - 1);
    }
  }

  /** A bystander, none of whose jobs failed, is blamed exactly when a failure collides: it is told
      of an error although attribution by ID reports success. */
  lemma CollisionBlamesBystander(h: HashFn, r: Request, resp: Response)
    requires resp.status != Success && (resp.status == Error ==> resp.failures != [])
    requires forall f :: f in resp.failures ==> !Names(r.jobs, f.jobId)
    ensures Reply(h, WaitingFor(h, r), resp).status == Error
            <==> exists f :: f in resp.failures && Collides(h, r.jobs, f)
    ensures IdReply(r, resp) == Response(r.id, Success, "", [])
  {
    OwnEmptyIff(r.jobs, resp.failures, |resp.failures|);
    HashedVersusNamed(h, r.jobs, resp.failures, |resp.failures|);
  }

  lemma {:induction false} OwnEmptyIff(jobs: seq<Job>, failures: seq<Failure>, n: nat)
    requires n <= |failures|
    ensures Own(jobs, failures, n) == [] <==> forall i :: 0 <= i < n ==> !Names(jobs, failures[i].jobId)
  {
    if n > 0 {
      OwnEmptyIff(jobs, failures, n - 1);
    }
  }
}
