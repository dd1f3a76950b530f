/** What each operation of the in-process job queue does to the queue's whole state.
    `J` is the kind of job handle: heap objects for the queue manager itself, plain ids for the
    machines that run many operations. */
module QueueSpec {
  import opened Basics
  import opened OrderedDict

  datatype Flight<J> = Flight(job: J, started: real)

  datatype PutOutcome = Accepted | RefusedClosed | RefusedFull
  datatype NackOutcome = Requeued | GaveUp | NackFull | NackUnderflow
  datatype GiveBackOutcome = Back | NoRoom | Underflow
  datatype RecoverOutcome = Recovered(count: nat) | RecoverFull(requeued: nat) | RecoverUnderflow

  datatype QueueState<J> = QueueState(
    maxsize: int,
    closed: bool,
    pending: seq<J>,
    unfinished: nat,
    flights: Dict<JobId, Flight<J>>)
  {
    ghost predicate Valid() {
      && flights.Valid()
      && (maxsize > 0 ==> |pending| <= maxsize)
    }

    /** asyncio.Queue.full: a queue with maxsize <= 0 is never full. */
    predicate Full() {
      maxsize > 0 && |pending| >= maxsize
    }

    function Put(job: J): QueueState<J>
      requires !Full()
    {
      this.(pending := pending + [job], unfinished := unfinished + 1)
    }

    /** How far the task counter is from the jobs the queue still knows. */
    function Drift(): int {
      unfinished - |pending| - |flights.keys|
    }

    function Land(id: JobId): QueueState<J> {
      this.(flights := flights.Pop(id))
    }
  }

  function NewQueue<J>(maxsize: int): QueueState<J> {
    QueueState(maxsize, false, [], 0, Empty())
  }

  function Enqueue<J>(q: QueueState<J>, job: J): (QueueState<J>, PutOutcome) {
    if q.closed then (q, RefusedClosed)
    else if q.Full() then (q, RefusedFull)
    else (q.Put(job), Accepted)
  }

  function Dequeue<J>(q: QueueState<J>, id: JobId, now: real): QueueState<J>
    requires q.pending != []
  {
    q.(pending := q.pending[1..], flights := q.flights.Put(id, Flight(q.pending[0], now)))
  }

  /** The flag is false when task_done raises because every counted job is already done. */
  function Acknowledge<J>(q: QueueState<J>, id: JobId): (QueueState<J>, bool) {
    if q.unfinished == 0 then (q.Land(id), false)
    else (q.Land(id).(unfinished := q.unfinished - 1), true)
  }

  /** `attempts` is the job's counter before the call. */
  function Nack<J>(q: QueueState<J>, job: J, id: JobId, attempts: int, maxAttempts: int): (QueueState<J>, NackOutcome) {
    var (done, ok) := Acknowledge(q, id);
    if !ok then (done, NackUnderflow)
    else if attempts + 1 >= maxAttempts || q.closed then (done, GaveUp)
    else if done.Full() then (done, NackFull)
    else (done.Put(job), Requeued)
  }

  /** The attempt counter after a nack that ended with `r`. */
  function BumpedAttempts(attempts: int, r: NackOutcome): int {
    if r == NackUnderflow then attempts else attempts + 1
  }

  predicate Stale<J>(f: Flight<J>, now: real, staleAfter: real) {
    now - f.started > staleAfter
  }

  /** The ids among `keys` whose flight is stale, in table order. */
  function StaleIds<J>(keys: seq<JobId>, vals: map<JobId, Flight<J>>, now: real, staleAfter: real): (r: seq<JobId>)
    requires forall k :: k in keys ==> k in vals
    ensures forall k :: k in r <==> k in keys && Stale(vals[k], now, staleAfter)
    ensures Distinct(keys) ==> Distinct(r)
  {
    if keys == [] then []
    else
      var rest := StaleIds(keys[1..], vals, now, staleAfter);
      if Stale(vals[keys[0]], now, staleAfter) then [keys[0]] + rest else rest
  }

  lemma {:induction false} StaleIdsSnoc<J>(keys: seq<JobId>, last: JobId, vals: map<JobId, Flight<J>>, now: real,
                                           staleAfter: real)
    requires forall k :: k in keys + [last] ==> k in vals
    ensures var before := StaleIds(keys, vals, now, staleAfter);
      StaleIds(keys + [last], vals, now, staleAfter)
        == if Stale(vals[last], now, staleAfter) then before + [last] else before
  {
    var more := keys + [last];
    if keys == [] {
      assert more[1..] == [];
    } else {
      StaleIdsSnoc(keys[1..], last, vals, now, staleAfter);
      var rest := StaleIds(keys[1..], vals, now, staleAfter);
      assert more[0] == keys[0] && more[1..] == keys[1..] + [last];
      assert [keys[0]] + (rest + [last]) == [keys[0]] + rest + [last];
    }
  }

  function Ids(ids: seq<JobId>): (r: set<JobId>)
    ensures forall k :: k in r <==> k in ids
  {
    set k | k in ids
  }

  lemma SweepStep<J>(flights: Dict<JobId, Flight<J>>, stale: seq<JobId>, jid: JobId)
    ensures flights.Minus(Ids(stale)).Pop(jid) == flights.Minus(Ids(stale + [jid]))
  {
    flights.MinusTwice(Ids(stale), {jid});
    assert Ids(stale + [jid]) == Ids(stale) + {jid};
  }

  /** The stale ids among the first `n` of the table, and the table without them. */
  function SweptAfter<J>(flights: Dict<JobId, Flight<J>>, n: nat, now: real, staleAfter: real): (seq<JobId>,
                         Dict<JobId, Flight<J>>)
    requires flights.Valid() && n <= |flights.keys|
  {
    var stale := StaleIds(flights.keys[..n], flights.vals, now, staleAfter);
    (stale, flights.Minus(Ids(stale)))
  }

  lemma SweptNothing<J>(flights: Dict<JobId, Flight<J>>, now: real, staleAfter: real)
    requires flights.Valid()
    ensures SweptAfter(flights, 0, now, staleAfter) == ([], flights)
  {
    flights.MinusNothing();
    assert Ids([]) == {};
  }

  lemma SweptNext<J>(flights: Dict<JobId, Flight<J>>, n: nat, now: real, staleAfter: real)
    requires flights.Valid() && n < |flights.keys|
    ensures var (stale, left) := SweptAfter(flights, n, now, staleAfter);
      var jid := flights.keys[n];
      SweptAfter(flights, n + 1, now, staleAfter)
        == if Stale(flights.vals[jid], now, staleAfter) then (stale + [jid], left.Pop(jid)) else (stale, left)
  {
    var stale := SweptAfter(flights, n, now, staleAfter).0;
    var jid := flights.keys[n];
    assert flights.keys[..n + 1] == flights.keys[..n] + [jid];
    StaleIdsSnoc(flights.keys[..n], jid, flights.vals, now, staleAfter);
    SweepStep(flights, stale, jid);
  }

  /** One swept job given back to the pending queue, or refiled as in flight when there is no room. */
  function GiveBack<J>(q: QueueState<J>, job: J, id: JobId, later: real): (QueueState<J>, GiveBackOutcome) {
    if q.unfinished == 0 then (q, Underflow)
    else
      var done := q.(unfinished := q.unfinished - 1);
      if done.Full() then (done.(flights := done.flights.Put(id, Flight(job, later))), NoRoom)
      else (done.Put(job), Back)
  }

  /** The second half of a recovery: give each swept job back, until one does not fit. */
  function RequeueAll<J>(q: QueueState<J>, ids: seq<JobId>, vals: map<JobId, Flight<J>>, count: nat, later: real)
    : (QueueState<J>, RecoverOutcome)
    requires forall k :: k in ids ==> k in vals
    decreases |ids|
  {
    if ids == [] || q.closed then (q, Recovered(count))
    else
      var (q', r) := GiveBack(q, vals[ids[0]].job, ids[0], later);
      match r
      case Underflow => (q', RecoverUnderflow)
      case NoRoom => (q', RecoverFull(count))
      case Back => RequeueAll(q', ids[1..], vals, count + 1, later)
  }

  function SweptTable<J>(q: QueueState<J>, stale: seq<JobId>): QueueState<J> {
    q.(flights := q.flights.Minus(Ids(stale)))
  }

  /** `now` is the clock at the start, `later` the clock when an overflow puts a job back in flight. */
  function Recover<J>(q: QueueState<J>, now: real, later: real, staleAfter: real): (QueueState<J>, RecoverOutcome)
    requires q.flights.Valid()
  {
    var stale := StaleIds(q.flights.keys, q.flights.vals, now, staleAfter);
    RequeueAll(SweptTable(q, stale), stale, q.flights.vals, 0, later)
  }

  lemma RequeueGrows<J>(q: QueueState<J>, ids: seq<JobId>, vals: map<JobId, Flight<J>>, count: nat, later: real)
    requires forall k :: k in ids ==> k in vals
    ensures q.pending <= RequeueAll(q, ids, vals, count, later).0.pending
    decreases |ids|
  {
  }

  /** The jobs a recovery gave back to the pending queue. */
  function GivenBack<J>(q: QueueState<J>, now: real, later: real, staleAfter: real): seq<J>
    requires q.flights.Valid()
  {
    var stale := StaleIds(q.flights.keys, q.flights.vals, now, staleAfter);
    RequeueGrows(SweptTable(q, stale), stale, q.flights.vals, 0, later);
    Recover(q, now, later, staleAfter).0.pending[|q.pending|..]
  }

  function IndexOf(ids: seq<JobId>, id: JobId): (i: nat)
    ensures id in ids ==> i < |ids| && ids[i] == id
  {
    if ids == [] || ids[0] == id then 0 else 1 + IndexOf(ids[1..], id)
  }

  /** What a recovery is going to do with an id, told from the state before it. */
  datatype Fate = Untouched | GoesBack | Refiled | IsLost

  function FateOf<J>(q: QueueState<J>, now: real, staleAfter: real, id: JobId): Fate
    requires q.flights.Valid()
  {
    var stale := StaleIds(q.flights.keys, q.flights.vals, now, staleAfter);
    var i, k := IndexOf(stale, id), Room(q, |stale|);
    if id !in stale then Untouched
    else if q.closed || q.unfinished == 0 || i > k then IsLost
    else if i == k then Refiled
    else GoesBack
  }

  function Jobs<J>(ids: seq<JobId>, vals: map<JobId, Flight<J>>): (r: seq<J>)
    requires forall k :: k in ids ==> k in vals
    ensures |r| == |ids|
    ensures forall i :: 0 <= i < |r| ==> r[i] == vals[ids[i]].job
  {
    seq(|ids|, i requires 0 <= i < |ids| => vals[ids[i]].job)
  }

  /** How many jobs a bounded queue still takes before it is full. */
  function Room<J>(q: QueueState<J>, wanted: nat): (r: nat)
    ensures r <= wanted
  {
    if q.maxsize <= 0 || q.maxsize - |q.pending| >= wanted then wanted
    else if q.maxsize <= |q.pending| then 0
    else q.maxsize - |q.pending|
  }

  /** While there is room, each requeued job leaves the task counter as it found it. */
  lemma {:induction false} RequeuePrefix<J>(q: QueueState<J>, ids: seq<JobId>, vals: map<JobId, Flight<J>>, k: nat,
                                            later: real)
    requires forall i :: i in ids ==> i in vals
    requires !q.closed && q.unfinished > 0 && k <= Room(q, |ids|)
    ensures RequeueAll(q, ids, vals, 0, later)
         == RequeueAll(q.(pending := q.pending + Jobs(ids[..k], vals)), ids[k..], vals, k, later)
    decreases k
  {
    if k == 0 {
      assert q.pending + Jobs(ids[..0], vals) == q.pending;
      assert ids[0..] == ids;
    } else {
      RequeuePrefix(q, ids, vals, k - 1, later);
      var before := q.(pending := q.pending + Jobs(ids[..k - 1], vals));
      assert ids[k - 1..][1..] == ids[k..];
      assert before.pending + [vals[ids[k - 1]].job] == q.pending + Jobs(ids[..k], vals);
    }
  }

  /** Every one of the jobs went back to the pending queue. */
  function AllBack<J>(q: QueueState<J>, ids: seq<JobId>, vals: map<JobId, Flight<J>>): (QueueState<J>, RecoverOutcome)
    requires forall i :: i in ids ==> i in vals
  {
    (q.(pending := q.pending + Jobs(ids, vals)), Recovered(|ids|))
  }

  /** The first `k` went back, the next one is in flight again, and the task counter went down once
      too often. */
  function Overflowed<J>(q: QueueState<J>, ids: seq<JobId>, vals: map<JobId, Flight<J>>, k: nat, later: real)
    : (QueueState<J>, RecoverOutcome)
    requires k < |ids| && q.unfinished > 0 && forall i :: i in ids ==> i in vals
  {
    (q.(pending := q.pending + Jobs(ids[..k], vals), unfinished := q.unfinished - 1,
        flights := q.flights.Put(ids[k], Flight(vals[ids[k]].job, later))),
     RecoverFull(k))
  }

  lemma RequeueFits<J>(q: QueueState<J>, ids: seq<JobId>, vals: map<JobId, Flight<J>>, later: real)
    requires forall i :: i in ids ==> i in vals
    requires !q.closed && q.unfinished > 0 && Room(q, |ids|) == |ids|
    ensures RequeueAll(q, ids, vals, 0, later) == AllBack(q, ids, vals)
  {
    RequeuePrefix(q, ids, vals, |ids|, later);
    assert ids[..|ids|] == ids && ids[|ids|..] == [];
  }

  lemma RequeueOverflows<J>(q: QueueState<J>, ids: seq<JobId>, vals: map<JobId, Flight<J>>, later: real)
    requires forall i :: i in ids ==> i in vals
    requires !q.closed && q.unfinished > 0 && Room(q, |ids|) < |ids|
    ensures RequeueAll(q, ids, vals, 0, later) == Overflowed(q, ids, vals, Room(q, |ids|), later)
  {
    var k := Room(q, |ids|);
    RequeuePrefix(q, ids, vals, k, later);
    assert ids[k..][0] == ids[k];
  }

  lemma {:induction false} DistinctCount(s: seq<JobId>)
    requires Distinct(s)
    ensures |Ids(s)| == |s|
  {
    if s != [] {
      DistinctCount(s[1..]);
      assert Ids(s) == Ids(s[1..]) + {s[0]};
    }
  }

  lemma SweepSize<J>(q: QueueState<J>, now: real, staleAfter: real)
    requires q.flights.Valid()
    ensures var stale := StaleIds(q.flights.keys, q.flights.vals, now, staleAfter);
      var swept := q.flights.Minus(Ids(stale));
      && swept.Valid()
      && |swept.keys| == |q.flights.keys| - |stale|
      && (stale == [] ==> swept == q.flights)
  {
    hide StaleIds;
    var stale := StaleIds(q.flights.keys, q.flights.vals, now, staleAfter);
    DistinctCount(stale);
    WithoutSize(q.flights.keys, Ids(stale));
    if stale == [] {
      WithoutNothing(q.flights.keys, Ids(stale));
      assert q.flights.vals - Ids(stale) == q.flights.vals;
    }
  }

  /** What a recovery of n stale flights does when it cannot finish or has nothing to do. On a
      closed queue, or with the task counter already at zero, all n jobs are lost. */
  lemma RecoverLosesAll<J>(q: QueueState<J>, now: real, later: real, staleAfter: real)
    requires q.flights.Valid()
    ensures var n := |StaleIds(q.flights.keys, q.flights.vals, now, staleAfter)|;
      var (q', r) := Recover(q, now, later, staleAfter);
      && (n == 0 ==> q' == q && r == Recovered(0))
      && (n > 0 && (q.closed || q.unfinished == 0) ==>
            && r == (if q.closed then Recovered(0) else RecoverUnderflow)
            && q'.pending == q.pending
            && q'.Drift() == q.Drift() + n)
  {
    SweepSize(q, now, staleAfter);
  }

  lemma RecoverFits<J>(q: QueueState<J>, now: real, later: real, staleAfter: real)
    requires q.flights.Valid() && !q.closed && q.unfinished > 0
    requires var n := |StaleIds(q.flights.keys, q.flights.vals, now, staleAfter)|; Room(q, n) == n
    ensures var stale := StaleIds(q.flights.keys, q.flights.vals, now, staleAfter);
      Recover(q, now, later, staleAfter) == AllBack(SweptTable(q, stale), stale, q.flights.vals)
  {
    var stale := StaleIds(q.flights.keys, q.flights.vals, now, staleAfter);
    RequeueFits(SweptTable(q, stale), stale, q.flights.vals, later);
  }

  lemma RecoverOverflows<J>(q: QueueState<J>, now: real, later: real, staleAfter: real)
    requires q.flights.Valid() && !q.closed && q.unfinished > 0
    requires var n := |StaleIds(q.flights.keys, q.flights.vals, now, staleAfter)|; Room(q, n) < n
    ensures var stale := StaleIds(q.flights.keys, q.flights.vals, now, staleAfter);
      Recover(q, now, later, staleAfter)
        == Overflowed(SweptTable(q, stale), stale, q.flights.vals, Room(q, |stale|), later)
  {
    var stale := StaleIds(q.flights.keys, q.flights.vals, now, staleAfter);
    RequeueOverflows(SweptTable(q, stale), stale, q.flights.vals, later);
  }

  /** With room for all n stale jobs a recovery returns every one of them, in table order, and
      leaves the counter in step. When the queue fills up after k of them, the job it fails on goes
      back in flight, the n - k - 1 after it are lost, and the counter drifts by n - k - 2. */
  lemma RecoverDrift<J>(q: QueueState<J>, now: real, later: real, staleAfter: real)
    requires q.flights.Valid() && !q.closed && q.unfinished > 0
    ensures var stale := StaleIds(q.flights.keys, q.flights.vals, now, staleAfter);
      var (q', r) := Recover(q, now, later, staleAfter);
      var n := |stale|;
      var k := Room(q, n);
      && q'.pending == q.pending + Jobs(stale[..k], q.flights.vals)
      && (k == n ==> r == Recovered(n) && q'.Drift() == q.Drift())
      && (k < n ==>
            && r == RecoverFull(k)
            && q'.Drift() == q.Drift() + n - k - 2
            && forall id :: id in q'.flights.keys <==> id == stale[k] || (id in q.flights.keys && id !in stale))
  {
    SweepSize(q, now, staleAfter);
    var stale := StaleIds(q.flights.keys, q.flights.vals, now, staleAfter);
    if Room(q, |stale|) == |stale| {
      RecoverFits(q, now, later, staleAfter);
      assert stale[..|stale|] == stale;
    } else {
      RecoverOverflows(q, now, later, staleAfter);
    }
  }

  /** Exactly when a recovery of n stale flights leaves the counter as far from the jobs as it was: there
      is nothing to do, or it is able to and either all n fit or all but two do. */
  lemma DriftKeptExactly<J>(q: QueueState<J>, now: real, later: real, staleAfter: real)
    requires q.flights.Valid()
    ensures var n := |StaleIds(q.flights.keys, q.flights.vals, now, staleAfter)|;
      Recover(q, now, later, staleAfter).0.Drift() == q.Drift() <==>
        n == 0 || (!q.closed && q.unfinished > 0 && (Room(q, n) == n || Room(q, n) == n - 2))
  {
    RecoverLosesAll(q, now, later, staleAfter);
    if !q.closed && q.unfinished > 0 {
      RecoverDrift(q, now, later, staleAfter);
    }
  }

  /** Settling a flight keeps the counter in step, unless the counter is already at zero. */
  lemma SettleDrift<J>(q: QueueState<J>, job: J, id: JobId, attempts: int, maxAttempts: int)
    requires q.flights.Valid() && id in q.flights.keys
    ensures Acknowledge(q, id).0.Drift() == q.Drift() + if q.unfinished == 0 then 1 else 0
    ensures var (q', r) := Nack(q, job, id, attempts, maxAttempts);
      && q'.Drift() == q.Drift() + (if q.unfinished == 0 then 1 else 0)
      && (r == NackUnderflow <==> q.unfinished == 0)
  {
    q.flights.PopSize(id);
  }
}
