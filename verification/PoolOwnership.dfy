/** Mutual exclusion per resource, for any recoveries that give no held download back. The cache is
    shared. */
module PoolOwnership {
  import opened Basics
  import opened OrderedDict
  import opened QueueSpec
  import opened QueueRuns
  import opened Results
  import opened Pool
  import D = DedupeSpec
  import PoolPlaces
  import PoolWaiters

  /** The reservation of its key names the job. */
  predicate Owns(s: State, info: JobId -> JobInfo, job: JobId) {
    info(job).Pipeline? && info(job).key in s.cache.reserved && s.cache.reserved[info(job).key] == job
  }

  /** Every download that is live or in the hands of a worker holds the reservation of its key, and
      every reservation names a download of that key. */
  ghost predicate Owned(s: State, info: JobId -> JobInfo) {
    && s.cache.Valid()
    && (forall j :: j in s.ledger.q.pending && info(j).Pipeline? ==> Owns(s, info, j))
    && (forall j :: j in s.ledger.q.flights.keys && info(j).Pipeline? ==> Owns(s, info, j))
    && (forall i :: 0 <= i < |s.hands| && s.hands[i].Busy? && info(s.hands[i].job).Pipeline? ==>
          Owns(s, info, s.hands[i].job))
    && (forall k :: k in s.cache.reserved ==>
          s.cache.reserved[k] in s.known && info(s.cache.reserved[k]) == Pipeline(k))
  }

  /** A download is queued once, apart from its flight, or in one hand. Nothing is said of other jobs,
      which a recovery may copy, nor of flights that a recovery lost. */
  ghost predicate Single(s: State, info: JobId -> JobInfo) {
    && (forall i, k :: 0 <= i < k < |s.ledger.q.pending| && info(s.ledger.q.pending[i]).Pipeline? ==>
          s.ledger.q.pending[i] != s.ledger.q.pending[k])
    && (forall i, k :: 0 <= i < k < |s.hands| && s.hands[i].Busy? && info(s.hands[i].job).Pipeline? ==>
          s.hands[i] != s.hands[k])
    && (forall j :: j in s.ledger.q.pending && info(j).Pipeline? ==> j !in s.ledger.q.flights.keys)
    && (forall i :: 0 <= i < |s.hands| && s.hands[i].Busy? && info(s.hands[i].job).Pipeline? ==>
          s.hands[i].job !in s.ledger.q.pending)
  }

  ghost predicate Exclusive(s: State, info: JobId -> JobInfo) {
    Owned(s, info) && Single(s, info)
  }

  ghost predicate Inv(s: State, info: JobId -> JobInfo) {
    PoolWaiters.Inv(s, info) && Exclusive(s, info)
  }

  /** Queued, in flight, or in the hands of a worker. */
  predicate Current(s: State, job: JobId) {
    s.Live(job) || s.Held(job)
  }

  lemma CurrentOwns(s: State, info: JobId -> JobInfo, job: JobId)
    requires Exclusive(s, info) && Current(s, job) && info(job).Pipeline?
    ensures Owns(s, info, job)
  {
  }

  lemma SubmitMoves(s: State, job: JobId, key: string, readFails: bool)
    ensures var s' := DoSubmit(s, job, key, readFails);
      var (c, granted) := D.TryReserve(s.cache, key, job, readFails);
      && s'.known == s.known + {job}
      && s'.Q().flights == s.Q().flights && s'.hands == s.hands
      && (!granted ==> s'.ledger == s.ledger && s'.cache == c)
      && (granted && s.Q().closed ==> s'.ledger == s.ledger && s'.cache == c)
      && (granted && !s.Q().closed && s.Q().Full() ==> s'.ledger == s.ledger && s'.cache == D.Abort(c, key))
      && (granted && !s.Q().closed && !s.Q().Full() ==>
            s'.cache == c && s'.Q().pending == s.Q().pending + [job] && s'.ledger.puts == s.ledger.puts + [job])
  {
  }

  lemma NewReservation(s: State, info: JobId -> JobInfo, job: JobId, readFails: bool)
    requires Owned(s, info) && job !in s.known && info(job).Pipeline?
    ensures var key := info(job).key;
      var (c, granted) := D.TryReserve(s.cache, key, job, readFails);
      && c.Valid()
      && (granted ==> key !in s.cache.reserved && c.reserved == s.cache.reserved[key := job])
      && (granted ==> D.Abort(c, key).Valid() && D.Abort(c, key).reserved == s.cache.reserved)
      && (!granted ==> c.reserved == s.cache.reserved)
  {
  }

  lemma AckMoves(s: State, i: nat, job: JobId)
    requires i < |s.hands|
    ensures var s' := DoAck(s, i, job);
      && s'.known == s.known && s'.cache == s.cache && s'.ledger.puts == s.ledger.puts
      && s'.Q().pending == s.Q().pending
      && (forall j :: j in s'.Q().flights.keys <==> j in s.Q().flights.keys && j != job)
      && |s'.hands| == |s.hands| && s'.hands == s.hands[i := s'.hands[i]] && !s'.hands[i].Busy?
  {
  }

  lemma RetryMoves(s: State, info: JobId -> JobInfo, i: nat, job: JobId)
    requires i < |s.hands|
    ensures var s' := DoRetry(s, info, i, job);
      && s'.known == s.known && s'.cache == s.cache
      && ((s'.Q().pending == s.Q().pending && s'.ledger.puts == s.ledger.puts)
          || (s'.Q().pending == s.Q().pending + [job] && s'.ledger.puts == s.ledger.puts + [job]))
      && (forall j :: j in s'.Q().flights.keys <==> j in s.Q().flights.keys && j != job)
      && |s'.hands| == |s.hands| && s'.hands == s.hands[i := s'.hands[i]] && !s'.hands[i].Busy?
  {
  }

  lemma FinishMoves(s: State, info: JobId -> JobInfo, i: nat, outcome: Outcome, append: D.AppendOutcome)
    requires i < |s.hands| && s.hands[i].Busy?
    ensures var s' := DoFinish(s, info, i, outcome, append);
      var job := s.hands[i].job;
      && s'.known == s.known
      && s'.cache == Pool.Settle(s.cache, info(job), outcome, append)
      && ((s'.Q().pending == s.Q().pending && s'.ledger.puts == s.ledger.puts)
          || (info(job).Plain? && s'.Q().pending == s.Q().pending + [job] && s'.ledger.puts == s.ledger.puts + [job]))
      && (forall j :: j in s'.Q().flights.keys <==> j in s.Q().flights.keys && j != job)
      && |s'.hands| == |s.hands| && s'.hands == s.hands[i := s'.hands[i]] && !s'.hands[i].Busy?
  {
    var job := s.hands[i].job;
    var published := Publish(s.(cache := Pool.Settle(s.cache, info(job), outcome, append)), ResultFor(job, outcome));
    AckMoves(published, i, job);
    RetryMoves(published, info, i, job);
  }

  /** What settling a key does to the cache. */
  lemma SettleEffect(c: D.CacheState, info: JobInfo, outcome: Outcome, append: D.AppendOutcome)
    requires c.Valid()
    ensures var c' := Pool.Settle(c, info, outcome, append);
      && c'.Valid()
      && (info.Plain? || !outcome.Returned? ==> c' == c)
      && (info.Pipeline? && outcome.Returned? ==>
            && c'.reserved == c.reserved - {info.key}
            && c'.completed == c.completed + if outcome.status == COMPLETED then {info.key} else {})
  {
  }

  /** A step that grants `job` its key and may queue it, or changes no reservation. */
  lemma GrantKeeps(s: State, s': State, info: JobId -> JobInfo, job: JobId)
    requires PoolWaiters.Grounded(s) && Exclusive(s, info)
    requires job !in s.known && info(job).Pipeline? && s'.cache.Valid()
    requires s'.known == s.known + {job} && s'.Q().flights == s.Q().flights && s'.hands == s.hands
    requires
      || (s'.cache.reserved == s.cache.reserved && s'.Q().pending == s.Q().pending)
      || (info(job).key !in s.cache.reserved && s'.cache.reserved == s.cache.reserved[info(job).key := job]
          && (s'.Q().pending == s.Q().pending || s'.Q().pending == s.Q().pending + [job]))
    ensures Exclusive(s', info)
  {
  }

  lemma SubmitExclusive(s: State, info: JobId -> JobInfo, step: Step)
    requires Inv(s, info) && Allowed(s, info, step, NoCopies) && step.Submit?
    ensures Exclusive(Apply(s, info, step), info)
  {
    SubmitMoves(s, step.job, info(step.job).key, step.readFails);
    NewReservation(s, info, step.job, step.readFails);
    GrantKeeps(s, Apply(s, info, step), info, step.job);
  }

  lemma RequestExclusive(s: State, info: JobId -> JobInfo, step: Step)
    requires Inv(s, info) && Allowed(s, info, step, NoCopies) && step.Request?
    ensures Exclusive(Apply(s, info, step), info)
  {
    RequestMoves(s, step.job);
    PlainKeeps(s, Apply(s, info, step), info, step.job);
  }

  lemma RequestMoves(s: State, job: JobId)
    ensures var s' := EnqueueAndWait(s, job).0;
      && s'.known == s.known + {job} && s'.cache == s.cache
      && s'.Q().flights == s.Q().flights && s'.hands == s.hands
      && (s'.Q().pending == s.Q().pending || s'.Q().pending == s.Q().pending + [job])
  {
  }

  lemma PlainKeeps(s: State, s': State, info: JobId -> JobInfo, job: JobId)
    requires Exclusive(s, info) && info(job).Plain?
    requires s'.known == s.known + {job} && s'.cache == s.cache
    requires s'.Q().flights == s.Q().flights && s'.hands == s.hands
    requires s'.Q().pending == s.Q().pending || s'.Q().pending == s.Q().pending + [job]
    ensures Exclusive(s', info)
  {
  }

  lemma TakeExclusive(s: State, info: JobId -> JobInfo, step: Step)
    requires Inv(s, info) && Allowed(s, info, step, NoCopies) && step.Take?
    ensures Exclusive(Apply(s, info, step), info)
  {
    TakeMoves(s, step.worker, step.now);
    TakenExclusive(s, Apply(s, info, step), info, step.worker);
  }

  lemma TakeMoves(s: State, i: nat, now: real)
    requires s.Q().Valid() && i < |s.hands| && s.Q().pending != []
    ensures var s' := DoTake(s, i, now);
      && s'.known == s.known && s'.cache == s.cache && s'.ledger.puts == s.ledger.puts
      && s'.Q().pending == s.Q().pending[1..]
      && s'.hands == s.hands[i := Busy(s.Q().pending[0])]
      && (forall j :: j in s'.Q().flights.keys <==> j == s.Q().pending[0] || j in s.Q().flights.keys)
  {
  }

  lemma TakenExclusive(s: State, s': State, info: JobId -> JobInfo, i: nat)
    requires Exclusive(s, info) && i < |s.hands| && s.Q().pending != []
    requires s'.known == s.known && s'.cache == s.cache && s'.Q().pending == s.Q().pending[1..]
    requires s'.hands == s.hands[i := Busy(s.Q().pending[0])]
    requires forall j :: j in s'.Q().flights.keys <==> j == s.Q().pending[0] || j in s.Q().flights.keys
    ensures Exclusive(s', info)
  {
    assert s.Q().pending[0] in s.Q().pending;
    assert forall j :: j in s'.Q().pending ==> j in s.Q().pending;
  }

  lemma FinishExclusive(s: State, info: JobId -> JobInfo, step: Step)
    requires Inv(s, info) && Allowed(s, info, step, NoCopies) && step.Finish?
    ensures Exclusive(Apply(s, info, step), info)
  {
    var job, s' := s.hands[step.worker].job, Apply(s, info, step);
    FinishMoves(s, info, step.worker, step.outcome, step.append);
    SettleEffect(s.cache, info(job), step.outcome, step.append);
    FinishedOwned(s, s', info, step.worker, job);
    FinishedSingle(s, s', info, step.worker, job);
  }

  /** A hand puts its job down; if it is a download its reservation may go, and no other changes. */
  lemma FinishedOwned(s: State, s': State, info: JobId -> JobInfo, i: nat, job: JobId)
    requires Exclusive(s, info) && i < |s.hands| && s.hands[i] == Busy(job)
    requires s'.known == s.known && s'.cache.Valid()
    requires
      || s'.cache.reserved == s.cache.reserved
      || (info(job).Pipeline? && s'.cache.reserved == s.cache.reserved - {info(job).key})
    requires |s'.hands| == |s.hands| && s'.hands == s.hands[i := s'.hands[i]] && !s'.hands[i].Busy?
    requires forall j :: j in s'.Q().pending ==> j in s.Q().pending || (j == job && info(job).Plain?)
    requires forall j :: j in s'.Q().flights.keys ==> j in s.Q().flights.keys && j != job
    ensures Owned(s', info)
  {
    assert info(job).Pipeline? ==> Owns(s, info, s.hands[i].job);
    forall j | Current(s', j) && info(j).Pipeline?
      ensures Owns(s', info, j)
    {
      assert Current(s, j) && j != job;
      CurrentOwns(s, info, j);
    }
  }

  lemma FinishedSingle(s: State, s': State, info: JobId -> JobInfo, i: nat, job: JobId)
    requires Exclusive(s, info) && i < |s.hands| && s.hands[i] == Busy(job)
    requires |s'.hands| == |s.hands| && s'.hands == s.hands[i := s'.hands[i]] && !s'.hands[i].Busy?
    requires s'.Q().pending == s.Q().pending || (info(job).Plain? && s'.Q().pending == s.Q().pending + [job])
    requires forall j :: j in s'.Q().flights.keys ==> j in s.Q().flights.keys && j != job
    ensures Single(s', info)
  {
  }

  lemma RecoverExclusive(s: State, info: JobId -> JobInfo, step: Step)
    requires Inv(s, info) && Allowed(s, info, step, NoCopies) && step.Recover?
    ensures Exclusive(Apply(s, info, step), info)
  {
    var back := GivenBack(s.Q(), step.now, step.later, step.staleAfter);
    RecoverAppends(s, step.now, step.later, step.staleAfter);
    forall j
      ensures j in back <==> FateIn(s, step.now, step.staleAfter, j) == GoesBack
      ensures Apply(s, info, step).InFlight(j) ==> s.InFlight(j) && j !in back
      ensures j in back ==> s.InFlight(j)
    {
      RecoverFlights(s, step.now, step.later, step.staleAfter, j);
    }
    RecoveredExclusive(s, Apply(s, info, step), info, back);
  }

  /** Some flights are given back, none of them a download that is in the hands of a worker. */
  lemma RecoveredExclusive(s: State, s': State, info: JobId -> JobInfo, back: seq<JobId>)
    requires Exclusive(s, info) && s'.known == s.known && s'.cache == s.cache && s'.hands == s.hands
    requires s'.Q().pending == s.Q().pending + back && Distinct(back)
    requires forall j :: j in back ==> j in s.Q().flights.keys
    requires forall j :: j in s'.Q().flights.keys ==> j in s.Q().flights.keys && j !in back
    requires forall i :: 0 <= i < |s.hands| && s.hands[i].Busy? && info(s.hands[i].job).Pipeline? ==>
      s.hands[i].job !in back
    ensures Exclusive(s', info)
  {
    forall i, k | 0 <= i < k < |s.Q().pending + back| && info((s.Q().pending + back)[i]).Pipeline?
      ensures (s.Q().pending + back)[i] != (s.Q().pending + back)[k]
    {
      if i < |s.Q().pending| <= k {
        assert s.Q().pending[i] in s.Q().pending && back[k - |s.Q().pending|] in back;
      }
    }
  }

  lemma RestExclusive(s: State, info: JobId -> JobInfo, step: Step)
    requires Inv(s, info) && Allowed(s, info, step, NoCopies) && Quiet(step)
    ensures Exclusive(Apply(s, info, step), info)
  {
    QuietFrames(s, info, step);
    FramedExclusive(s, Apply(s, info, step), info);
  }

  lemma FramedExclusive(s: State, s': State, info: JobId -> JobInfo)
    requires Exclusive(s, info) && Framed(s, s')
    ensures Exclusive(s', info)
  {
  }

  lemma StepExclusive(s: State, info: JobId -> JobInfo, step: Step)
    requires Inv(s, info) && Allowed(s, info, step, NoCopies)
    ensures Exclusive(Apply(s, info, step), info)
  {
    hide *;
    QuietCases(step);
    match step
    case Submit(_, _) => SubmitExclusive(s, info, step);
    case Request(_) => RequestExclusive(s, info, step);
    case Take(_, _) => TakeExclusive(s, info, step);
    case Finish(_, _, _) => FinishExclusive(s, info, step);
    case Recover(_, _, _) => RecoverExclusive(s, info, step);
    case _ => RestExclusive(s, info, step);
  }

  lemma StepKeeps(s: State, info: JobId -> JobInfo, step: Step)
    requires Inv(s, info) && Allowed(s, info, step, NoCopies)
    ensures Inv(Apply(s, info, step), info)
  {
    PoolWaiters.StepKeeps(s, info, step);
    StepExclusive(s, info, step);
  }

  lemma {:induction false} RunKeeps(s: State, info: JobId -> JobInfo, steps: seq<Step>, rule: Rule, end: State)
    requires Inv(s, info) && Reaches(s, info, steps, rule, end) && rule != Anything
    ensures Inv(end, info)
    decreases |steps|
  {
    if steps == [] {
      RunNowhere(s, info, rule, end);
    } else {
      RunFirst(s, info, steps, rule, end);
      WeakestRule(s, info, steps[0], rule);
      StepKeeps(s, info, steps[0]);
      RunKeeps(Apply(s, info, steps[0]), info, steps[1..], rule, end);
    }
  }

  lemma RunFromStart(maxsize: int, hasIndex: bool, index: set<string>, info: JobId -> JobInfo, steps: seq<Step>,
                     rule: Rule, end: State)
    requires Reaches(Init(maxsize, D.NewCache(hasIndex, index)), info, steps, rule, end) && rule != Anything
    ensures Inv(end, info)
  {
    PoolPlaces.InitInv(maxsize, D.NewCache(hasIndex, index), info);
    RunKeeps(Init(maxsize, D.NewCache(hasIndex, index)), info, steps, rule, end);
  }

  ghost predicate OnePerKey(s: State, info: JobId -> JobInfo) {
    forall a, b ::
      Current(s, a) && Current(s, b) && info(a).Pipeline? && info(b).Pipeline? && info(a).key == info(b).key ==> a == b
  }

  lemma ExclusiveIsOnePerKey(s: State, info: JobId -> JobInfo)
    requires Exclusive(s, info)
    ensures OnePerKey(s, info)
  {
    forall a, b | Current(s, a) && Current(s, b) && info(a).Pipeline? && info(b).Pipeline? && info(a).key == info(b).key
      ensures a == b
    {
      CurrentOwns(s, info, a);
      CurrentOwns(s, info, b);
    }
  }

  lemma {:induction false} OccursOnce<T>(s: seq<T>, x: T)
    requires forall i, k :: 0 <= i < k < |s| && s[i] == x ==> s[k] != x
    ensures multiset(s)[x] == if x in s then 1 else 0
  {
    if s != [] {
      assert s == [s[0]] + s[1..];
      if s[0] == x {
        assert x !in s[1..];
      } else {
        OccursOnce(s[1..], x);
      }
    }
  }

  lemma CountsOfOne(s: State, info: JobId -> JobInfo, a: JobId)
    requires Single(s, info) && info(a).Pipeline?
    ensures multiset(s.Q().pending)[a] == (if a in s.Q().pending then 1 else 0)
    ensures multiset(s.hands)[Busy(a)] == (if s.Held(a) then 1 else 0)
    ensures a in s.Q().pending ==> !s.InFlight(a) && !s.Held(a)
  {
    OccursOnce(s.Q().pending, a);
    OccursOnce(s.hands, Busy(a));
  }

  /** In every state reached without giving a held download back, at most one download per key is
      queued or being processed, in one place only; the reservation map names it, and no key is both
      reserved and completed. When recoveries also leave held flights in the table, it is queued or
      in flight exactly once. */
  lemma MutualExclusion(maxsize: int, hasIndex: bool, index: set<string>, info: JobId -> JobInfo, steps: seq<Step>,
                        rule: Rule, end: State, a: JobId, b: JobId)
    requires Reaches(Init(maxsize, D.NewCache(hasIndex, index)), info, steps, rule, end) && rule != Anything
    requires Current(end, a) && Current(end, b) && info(a).Pipeline? && info(b).Pipeline? && info(a).key == info(b).key
    ensures a == b
    ensures info(a).key in end.cache.reserved && end.cache.reserved[info(a).key] == a
    ensures end.cache.completed !! end.cache.reserved.Keys
    ensures multiset(end.Q().pending)[a] + multiset(end.hands)[Busy(a)] <= 1
    ensures var times := multiset(end.Q().pending)[a] + (if end.InFlight(a) then 1 else 0);
      times <= 1 && (Sparing(rule) ==> times == 1)
  {
    RunFromStart(maxsize, hasIndex, index, info, steps, rule, end);
    CurrentOwns(end, info, a);
    CurrentOwns(end, info, b);
    CountsOfOne(end, info, a);
    if Sparing(rule) {
      PoolPlaces.InitInv(maxsize, D.NewCache(hasIndex, index), info);
      PoolPlaces.RunKeeps(Init(maxsize, D.NewCache(hasIndex, index)), info, steps, rule, end);
      PoolPlaces.HeldIsInFlight(end, a);
    }
  }

  /** Commit and abort take no job id, yet they release only the caller's own reservation. */
  lemma ReleasesOnlyItsOwn(maxsize: int, hasIndex: bool, index: set<string>, info: JobId -> JobInfo, steps: seq<Step>,
                           rule: Rule, end: State, i: nat, outcome: Outcome, append: D.AppendOutcome)
    requires Reaches(Init(maxsize, D.NewCache(hasIndex, index)), info, steps, rule, end) && rule != Anything
    requires Enabled(end, info, Finish(i, outcome, append))
    ensures var after := Apply(end, info, Finish(i, outcome, append));
      var job := end.hands[i].job;
      && (forall k :: k in end.cache.reserved && end.cache.reserved[k] != job ==>
            k in after.cache.reserved && after.cache.reserved[k] == end.cache.reserved[k])
      && (info(job).Pipeline? && outcome.Returned? ==>
            Owns(end, info, job)
            && info(job).key !in after.cache.reserved
            && (info(job).key in after.cache.completed <==> outcome.status == COMPLETED))
  {
    RunFromStart(maxsize, hasIndex, index, info, steps, rule, end);
    var job := end.hands[i].job;
    FinishMoves(end, info, i, outcome, append);
    SettleEffect(end.cache, info(job), outcome, append);
  }

  // ---- Exactly which recoveries keep mutual exclusion ----

  /** A download `a` that worker `i` still holds is back in the open queue. */
  ghost predicate Copied(s: State, info: JobId -> JobInfo, i: nat, a: JobId) {
    && PoolWaiters.Inv(s, info) && Owned(s, info)
    && i < |s.hands| && s.hands[i] == Busy(a) && info(a).Pipeline?
    && a in s.Q().pending && !s.Q().closed
  }

  lemma RecoverKeepsOwned(s: State, info: JobId -> JobInfo, now: real, later: real, staleAfter: real)
    requires s.Q().Valid() && OwnIds(s.Q()) && Owned(s, info)
    ensures Owned(DoRecover(s, now, later, staleAfter), info)
  {
    RecoverMoves(s, now, later, staleAfter);
  }

  lemma CopyIsQueued(s: State, now: real, later: real, staleAfter: real, a: JobId)
    requires s.Q().Valid() && OwnIds(s.Q()) && FateIn(s, now, staleAfter, a) == GoesBack
    ensures var s' := DoRecover(s, now, later, staleAfter);
      a in s'.Q().pending && !s'.Q().closed && s'.hands == s.hands && s'.known == s.known
  {
    SweepEffect(s.Q(), now, later, staleAfter);
    RecoverMoves(s, now, later, staleAfter);
  }

  lemma GivesBackACopy(s: State, info: JobId -> JobInfo, now: real, later: real, staleAfter: real, i: nat)
    requires Inv(s, info) && i < |s.hands| && s.hands[i].Busy? && info(s.hands[i].job).Pipeline?
    requires FateIn(s, now, staleAfter, s.hands[i].job) == GoesBack
    ensures var s' := DoRecover(s, now, later, staleAfter); Copied(s', info, i, s.hands[i].job) && s'.known == s.known
  {
    PoolWaiters.StepKeeps(s, info, Recover(now, later, staleAfter));
    RecoverKeepsOwned(s, info, now, later, staleAfter);
    CopyIsQueued(s, now, later, staleAfter, s.hands[i].job);
    var s' := DoRecover(s, now, later, staleAfter);
    assert s' == Apply(s, info, Recover(now, later, staleAfter));
    assert s'.hands[i] == Busy(s.hands[i].job);
    hide PoolWaiters.Inv;
    hide Owned;
    hide Single;
    hide FateIn;
    hide DoRecover;
    hide Apply;
  }

  /** The first copy fails: its key is free again while the other copy is queued. */
  ghost predicate Released(s: State, info: JobId -> JobInfo, a: JobId) {
    && PoolWaiters.Inv(s, info) && info(a).Pipeline?
    && info(a).key !in s.cache.reserved && info(a).key !in s.cache.completed
    && a in s.known && !s.Q().closed
  }

  lemma FailEffect(s: State, info: JobId -> JobInfo, i: nat, a: JobId)
    requires Owned(s, info) && i < |s.hands| && s.hands[i] == Busy(a) && info(a).Pipeline?
    ensures var s' := DoFinish(s, info, i, Returned(a, FAILED), D.Appended);
      && info(a).key !in s'.cache.reserved && info(a).key !in s'.cache.completed
      && s'.known == s.known && s'.Q().pending == s.Q().pending && s'.Q().closed == s.Q().closed
  {
    assert Owns(s, info, s.hands[i].job);
    FinishMoves(s, info, i, Returned(a, FAILED), D.Appended);
    SettleEffect(s.cache, info(a), Returned(a, FAILED), D.Appended);
  }

  lemma FailReleases(s: State, info: JobId -> JobInfo, i: nat, a: JobId)
    requires Copied(s, info, i, a)
    ensures var s' := Apply(s, info, Finish(i, Returned(a, FAILED), D.Appended));
      Released(s', info, a) && a in s'.Q().pending && s'.known == s.known
  {
    PoolWaiters.StepKeeps(s, info, Finish(i, Returned(a, FAILED), D.Appended));
    FailEffect(s, info, i, a);
    assert a in s.known;
    hide PoolWaiters.Inv;
    hide Owned;
    hide DoFinish;
  }

  lemma StartsOne(s: State, info: JobId -> JobInfo, a: JobId)
    requires Released(s, info, a) && a in s.Q().pending
    ensures var s' := Apply(s, info, Start(1));
      && Released(s', info, a) && a in s'.Q().pending && s'.known == s.known
      && Enabled(s', info, Take(|s.hands|, 0.0))
  {
    PoolWaiters.StepKeeps(s, info, Start(1));
  }

  /** Taking a job makes room. */
  lemma TakeMakesRoom(s: State, info: JobId -> JobInfo, i: nat, a: JobId)
    requires Released(s, info, a) && a in s.Q().pending && Enabled(s, info, Take(i, 0.0))
    ensures var s' := Apply(s, info, Take(i, 0.0));
      Released(s', info, a) && Current(s', a) && s'.known == s.known && !s'.Q().Full()
  {
    PoolWaiters.StepKeeps(s, info, Take(i, 0.0));
    TakeMoves(s, i, 0.0);
    var s' := DoTake(s, i, 0.0);
    if s.Q().pending[0] == a {
      assert s'.hands[i] == Busy(a);
    }
  }

  lemma SecondIsQueued(s: State, info: JobId -> JobInfo, a: JobId, b: JobId)
    requires Released(s, info, a) && Current(s, a) && !s.Q().Full()
    requires b !in s.known && info(b) == info(a)
    ensures var s' := Apply(s, info, Submit(b, true)); Current(s', a) && Current(s', b)
  {
    SubmitMoves(s, b, info(b).key, true);
  }

  lemma FourSteps(s0: State, info: JobId -> JobInfo, x0: Step, x1: Step, x2: Step, x3: Step)
    requires !x0.Recover? && !x1.Recover? && !x2.Recover? && !x3.Recover?
    requires Enabled(s0, info, x0)
    requires Enabled(Apply(s0, info, x0), info, x1)
    requires Enabled(Apply(Apply(s0, info, x0), info, x1), info, x2)
    requires Enabled(Apply(Apply(Apply(s0, info, x0), info, x1), info, x2), info, x3)
    ensures Reaches(s0, info, [x0, x1, x2, x3], NoCopies,
                    Apply(Apply(Apply(Apply(s0, info, x0), info, x1), info, x2), info, x3))
  {
    hide Apply;
    hide Enabled;
    var s1 := Apply(s0, info, x0);
    var s2 := Apply(s1, info, x1);
    var s3 := Apply(s2, info, x2);
    assert Passes([s0, s1, s2, s3, Apply(s3, info, x3)], info, [x0, x1, x2, x3], NoCopies);
  }

  /** A recovery that gives a held download back breaks mutual exclusion within four steps, none of
      them a recovery: the holder fails and releases the key, and a new job reserves it. */
  lemma CopyBreaks(s: State, info: JobId -> JobInfo, now: real, later: real, staleAfter: real, i: nat, b: JobId)
    returns (steps: seq<Step>, end: State)
    requires Inv(s, info) && i < |s.hands| && s.hands[i].Busy? && info(s.hands[i].job).Pipeline?
    requires FateIn(s, now, staleAfter, s.hands[i].job) == GoesBack
    requires b !in s.known && info(b) == info(s.hands[i].job)
    ensures Reaches(DoRecover(s, now, later, staleAfter), info, steps, NoCopies, end)
    ensures s.hands[i].job != b && Current(end, s.hands[i].job) && Current(end, b)
  {
    var a, s0 := s.hands[i].job, DoRecover(s, now, later, staleAfter);
    GivesBackACopy(s, info, now, later, staleAfter, i);
    FailReleases(s0, info, i, a);
    var fail, submit := Finish(i, Returned(a, FAILED), D.Appended), Submit(b, true);
    var s1 := Apply(s0, info, fail);
    StartsOne(s1, info, a);
    var s2, take := Apply(s1, info, Start(1)), Take(|s1.hands|, 0.0);
    TakeMakesRoom(s2, info, |s1.hands|, a);
    var s3 := Apply(s2, info, take);
    SecondIsQueued(s3, info, a, b);
    FourSteps(s0, info, fail, Start(1), take, submit);
    steps, end := [fail, Start(1), take, submit], Apply(s3, info, submit);
  }

  lemma CopyIsBreakable(s: State, info: JobId -> JobInfo, now: real, later: real, staleAfter: real)
    returns (more: seq<Step>, end: State)
    requires Inv(s, info) && !CopiesNothing(s, info, now, staleAfter)
    requires forall key :: exists job :: job !in s.known && info(job) == Pipeline(key)
    ensures Reaches(DoRecover(s, now, later, staleAfter), info, more, NoCopies, end) && !OnePerKey(end, info)
  {
    var i: nat :| i < |s.hands| && s.hands[i].Busy? && info(s.hands[i].job).Pipeline?
      && FateIn(s, now, staleAfter, s.hands[i].job) == GoesBack;
    var b :| b !in s.known && info(b) == Pipeline(info(s.hands[i].job).key);
    more, end := CopyBreaks(s, info, now, later, staleAfter, i, b);
  }

  lemma RecoverKeepsInv(s: State, info: JobId -> JobInfo, now: real, later: real, staleAfter: real)
    requires Inv(s, info) && CopiesNothing(s, info, now, staleAfter)
    ensures Inv(DoRecover(s, now, later, staleAfter), info)
  {
    var step := Recover(now, later, staleAfter);
    assert Allowed(s, info, step, NoCopies) && Apply(s, info, step) == DoRecover(s, now, later, staleAfter);
    hide *;
    StepKeeps(s, info, step);
  }

  lemma InvIsOnePerKey(s: State, info: JobId -> JobInfo)
    requires Inv(s, info)
    ensures OnePerKey(s, info)
  {
    ExclusiveIsOnePerKey(s, info);
  }

  lemma KeepsOnePerKey(s: State, info: JobId -> JobInfo, now: real, later: real, staleAfter: real, more: seq<Step>,
                       end: State)
    requires Inv(s, info) && CopiesNothing(s, info, now, staleAfter)
    requires Reaches(DoRecover(s, now, later, staleAfter), info, more, NoCopies, end)
    ensures OnePerKey(end, info)
  {
    var s' := DoRecover(s, now, later, staleAfter);
    RecoverKeepsInv(s, info, now, later, staleAfter);
    hide *;
    RunKeeps(s', info, more, NoCopies, end);
    InvIsOnePerKey(end, info);
  }

  /** What mutual exclusion asks of a recovery, exactly. From a state reached with such recoveries, and
      with ids nobody used yet, a recovery gives no held download back if and only if every run that
      goes on from it, again with such recoveries, keeps at most one current download per key. */
  lemma ExclusionExactly(maxsize: int, hasIndex: bool, index: set<string>, info: JobId -> JobInfo, steps: seq<Step>,
                         rule: Rule, s: State, now: real, later: real, staleAfter: real)
    requires Reaches(Init(maxsize, D.NewCache(hasIndex, index)), info, steps, rule, s) && rule != Anything
    requires forall key :: exists job :: job !in s.known && info(job) == Pipeline(key)
    ensures s.Q().flights.Valid()
    ensures CopiesNothing(s, info, now, staleAfter) <==>
      forall more, end :: Reaches(DoRecover(s, now, later, staleAfter), info, more, NoCopies, end) ==>
        OnePerKey(end, info)
  {
    RunFromStart(maxsize, hasIndex, index, info, steps, rule, s);
    if CopiesNothing(s, info, now, staleAfter) {
      forall more, end | Reaches(DoRecover(s, now, later, staleAfter), info, more, NoCopies, end)
        ensures OnePerKey(end, info)
      {
        KeepsOnePerKey(s, info, now, later, staleAfter, more, end);
      }
    } else {
      var more, end := CopyIsBreakable(s, info, now, later, staleAfter);
    }
  }
}
