/** Two runs of the pool in which its promises end. */
module PoolRuns {
  import opened Basics
  import opened OrderedDict
  import opened QueueSpec
  import opened QueueRuns
  import opened Results
  import opened Pool
  import opened PoolOwnership
  import opened PoolReservations

  function BothForOneKey(job: JobId): JobInfo {
    Pipeline("k")
  }

  lemma StaleAlone(flights: Dict<JobId, Flight<JobId>>, job: JobId)
    requires flights.Valid() && flights.keys == [job] && flights.vals[job] == Flight(job, 0.0)
    ensures StaleIds(flights.keys, flights.vals, 100.0, 10.0) == [job]
  {
  }

  function EmptyPool(): State {
    Init(0, D.NewCache(false, {}))
  }

  /** An orphan: a submit reserves its key and then meets the closed queue. */
  lemma OrphanedOnce() returns (s: State, steps: seq<Step>)
    ensures Reaches(EmptyPool(), BothForOneKey, steps, SparingHeldWithRoom, s)
    ensures Orphan(s, "k") && s.cache.reserved == map["k" := "a"]
  {
    var closed := Apply(EmptyPool(), BothForOneKey, Close);
    RunNowhere(EmptyPool(), BothForOneKey, SparingHeldWithRoom, EmptyPool());
    RunSnoc(EmptyPool(), BothForOneKey, [], SparingHeldWithRoom, EmptyPool(), Close);
    RunSnoc(EmptyPool(), BothForOneKey, [] + [Close], SparingHeldWithRoom, closed, Submit("a", false));
    s, steps := Apply(closed, BothForOneKey, Submit("a", false)), [] + [Close] + [Submit("a", false)];
  }

  lemma SubmittedOnce() returns (s: State, steps: seq<Step>)
    ensures Reaches(EmptyPool(), BothForOneKey, steps, Anything, s)
    ensures s.hands == [Free, Free] && s.known == {"a"}
    ensures s.ledger.q == QueueState(0, false, ["a"], 1, Empty())
    ensures s.cache == D.CacheState({}, map["k" := "a"], {}, false, false)
  {
    var started := Apply(EmptyPool(), BothForOneKey, Start(2));
    RunNowhere(EmptyPool(), BothForOneKey, Anything, EmptyPool());
    RunSnoc(EmptyPool(), BothForOneKey, [], Anything, EmptyPool(), Start(2));
    assert [] + [Start(2)] == [Start(2)];
    RunSnoc(EmptyPool(), BothForOneKey, [Start(2)], Anything, started, Submit("a", false));
    s, steps := Apply(started, BothForOneKey, Submit("a", false)), [Start(2)] + [Submit("a", false)];
    assert s.Q().pending == ["a"];
  }

  /** The queue whose only job was taken at the start. */
  function OneFlight(): QueueState<JobId> {
    QueueState(0, false, [], 1, Dict(["a"], map["a" := Flight("a", 0.0)]))
  }

  lemma FirstTake(mid: State) returns (s: State)
    requires mid.hands == [Free, Free] && mid.ledger.q == QueueState(0, false, ["a"], 1, Empty())
    ensures Allowed(mid, BothForOneKey, Take(0, 0.0), Anything)
    ensures s == Apply(mid, BothForOneKey, Take(0, 0.0))
    ensures s.hands == [Busy("a"), Free] && s.known == mid.known && s.cache == mid.cache
    ensures s.ledger.q == OneFlight()
  {
    s := Apply(mid, BothForOneKey, Take(0, 0.0));
  }

  /** Two workers run; the first takes the download "a". */
  lemma TakenOnce() returns (s: State, steps: seq<Step>)
    ensures Reaches(EmptyPool(), BothForOneKey, steps, Anything, s)
    ensures s.hands == [Busy("a"), Free] && s.known == {"a"}
    ensures s.ledger.q == OneFlight()
    ensures s.cache == D.CacheState({}, map["k" := "a"], {}, false, false)
  {
    hide *;
    var mid, start := SubmittedOnce();
    s := FirstTake(mid);
    RunSnoc(EmptyPool(), BothForOneKey, start, Anything, mid, Take(0, 0.0));
    steps := start + [Take(0, 0.0)];
  }

  lemma FlightGoesBack()
    ensures QueueSpec.Recover(OneFlight(), 100.0, 100.0, 10.0).0 == QueueState(0, false, ["a"], 1, Empty())
  {
    var q := OneFlight();
    StaleAlone(q.flights, "a");
    RecoverFits(q, 100.0, 100.0, 10.0);
    assert SweptTable(q, ["a"]).flights == Empty();
    assert Jobs(["a"], q.flights.vals) == ["a"];
    assert [] + ["a"] == ["a"];
  }

  lemma RecoveredOnce(mid: State) returns (s: State)
    requires mid.hands == [Busy("a"), Free] && mid.known == {"a"} && mid.ledger.q == OneFlight()
    ensures Allowed(mid, BothForOneKey, Pool.Recover(100.0, 100.0, 10.0), Anything)
    ensures s == Apply(mid, BothForOneKey, Pool.Recover(100.0, 100.0, 10.0))
    ensures s.hands == mid.hands && s.known == mid.known && s.cache == mid.cache
    ensures s.ledger.q == QueueState(0, false, ["a"], 1, Empty())
  {
    FlightGoesBack();
    hide QueueSpec.Recover;
    hide Lost;
    hide CopiesNothing;
    hide SparesHeld;
    s := Apply(mid, BothForOneKey, Pool.Recover(100.0, 100.0, 10.0));
  }

  lemma SecondTake(mid: State) returns (s: State)
    requires mid.hands == [Busy("a"), Free] && mid.known == {"a"}
    requires mid.ledger.q == QueueState(0, false, ["a"], 1, Empty())
    ensures Allowed(mid, BothForOneKey, Take(1, 100.0), Anything)
    ensures s == Apply(mid, BothForOneKey, Take(1, 100.0))
    ensures s.hands == [Busy("a"), Busy("a")] && s.known == mid.known && s.cache == mid.cache
    ensures s.ledger.q == QueueState(0, false, [], 1, Dict(["a"], map["a" := Flight("a", 100.0)]))
  {
    s := Apply(mid, BothForOneKey, Take(1, 100.0));
  }

  /** The flight of "a" goes stale and is recovered, so the second worker takes "a" as well. */
  lemma TakenTwice() returns (s: State, steps: seq<Step>)
    ensures Reaches(EmptyPool(), BothForOneKey, steps, Anything, s)
    ensures s.hands == [Busy("a"), Busy("a")] && s.known == {"a"}
    ensures s.ledger.q == QueueState(0, false, [], 1, Dict(["a"], map["a" := Flight("a", 100.0)]))
    ensures s.cache == D.CacheState({}, map["k" := "a"], {}, false, false)
  {
    var info := BothForOneKey;
    hide *;
    var mid, start := TakenOnce();
    var recover, take := Recover(100.0, 100.0, 10.0), Take(1, 100.0);
    var recovered := RecoveredOnce(mid);
    s := SecondTake(recovered);
    RunSnoc(EmptyPool(), BothForOneKey, start, Anything, mid, recover);
    RunSnoc(EmptyPool(), BothForOneKey, start + [recover], Anything, recovered, take);
    steps := start + [recover] + [take];
  }

  /** The first copy of "a" fails and releases the key. */
  lemma ReleasedOnce() returns (s: State, steps: seq<Step>)
    ensures Reaches(EmptyPool(), BothForOneKey, steps, Anything, s)
    ensures s.hands == [Free, Busy("a")] && s.known == {"a"} && s.cache == D.NewCache(false, {})
    ensures s.ledger.q == QueueState(0, false, [], 0, Empty())
  {
    var mid, start := TakenTwice();
    var fail := Finish(0, Returned("a", FAILED), D.Appended);
    RunSnoc(EmptyPool(), BothForOneKey, start, Anything, mid, fail);
    s, steps := Apply(mid, BothForOneKey, fail), start + [fail];
    assert s.Q().flights == Empty();
    assert s.cache.reserved == map[];
  }

  /** "b" reserves the key while the second copy of "a" runs. */
  lemma ReservedTwice() returns (s: State, steps: seq<Step>)
    ensures Reaches(EmptyPool(), BothForOneKey, steps, Anything, s)
    ensures s.hands == [Free, Busy("a")] && s.Q().pending == ["b"] && s.cache.Valid()
    ensures s.cache.reserved == map["k" := "b"]
  {
    var mid, start := ReleasedOnce();
    RunSnoc(EmptyPool(), BothForOneKey, start, Anything, mid, Submit("b", false));
    s, steps := Apply(mid, BothForOneKey, Submit("b", false)), start + [Submit("b", false)];
  }

  /** A recovery that gives back a download whose worker is alive breaks mutual exclusion: two downloads
      of one key are under way, and the older one then releases the reservation of the newer. */
  lemma RecoveryMustSpareLiveWorkers() returns (s: State, steps: seq<Step>)
    ensures Reaches(EmptyPool(), BothForOneKey, steps, Anything, s)
    ensures Current(s, "a") && Current(s, "b")
    ensures s.cache.reserved == map["k" := "b"]
    ensures Enabled(s, BothForOneKey, Finish(1, Returned("a", FAILED), D.Appended))
    ensures var after := Apply(s, BothForOneKey, Finish(1, Returned("a", FAILED), D.Appended));
      "k" !in after.cache.reserved && after.Live("b")
  {
    s, steps := ReservedTwice();
    assert s.Q().pending[0] == "b" && s.hands[1] == Busy("a");
    FinishMoves(s, BothForOneKey, 1, Returned("a", FAILED), D.Appended);
    SettleEffect(s.cache, Pipeline("k"), Returned("a", FAILED), D.Appended);
  }
}
