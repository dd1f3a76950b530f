/** The reservation protocol of the download cache, and what its two levels mean together. */
module DedupeSpec {
  import opened Basics

  /** `index` is the set of keys the disk index answers for; `hasIndex` says a path was given. */
  datatype CacheState = CacheState(
    completed: set<Key>,
    reserved: map<Key, JobId>,
    index: set<Key>,
    hasIndex: bool,
    diskEnabled: bool)
  {
    predicate OnDisk() {
      hasIndex && diskEnabled
    }

    /** The keys the cache answers "duplicate" for, read as one set. */
    function Known(): set<Key> {
      completed + reserved.Keys + if OnDisk() then index else {}
    }

    ghost predicate Valid() {
      completed !! reserved.Keys
    }
  }

  /** How an append to the index ends. A failed append may or may not have reached the file. */
  datatype AppendOutcome = Appended | FailedBefore | FailedAfter

  function NewCache(hasIndex: bool, index: set<Key>): CacheState {
    CacheState({}, map[], index, hasIndex, hasIndex)
  }

  /** A look at the disk index for a key that memory does not know: the flag is the answer. */
  function LookUp(c: CacheState, key: Key, readFails: bool): (CacheState, bool) {
    if !c.OnDisk() then (c, false)
    else if readFails then (c.(diskEnabled := false), false)
    else if key in c.index then (c.(completed := c.completed + {key}), true)
    else (c, false)
  }

  function IsDuplicate(c: CacheState, key: Key, readFails: bool): (CacheState, bool) {
    if key in c.completed || key in c.reserved then (c, true) else LookUp(c, key, readFails)
  }

  /** The flag says whether `job` now holds the reservation. */
  function TryReserve(c: CacheState, key: Key, job: JobId, readFails: bool): (CacheState, bool) {
    if key in c.completed then (c, false)
    else if key in c.reserved then (c, c.reserved[key] == job)
    else
      var (c', hit) := LookUp(c, key, readFails);
      if hit then (c', false) else (c'.(reserved := c'.reserved[key := job]), true)
  }

  function Commit(c: CacheState, key: Key, append: AppendOutcome): CacheState {
    var done := c.(reserved := c.reserved - {key}, completed := c.completed + {key});
    if !c.OnDisk() then done
    else done.(index := if append == FailedBefore then c.index else c.index + {key},
               diskEnabled := append == Appended)
  }

  function Abort(c: CacheState, key: Key): CacheState {
    c.(reserved := c.reserved - {key})
  }

  function ResetMemory(c: CacheState): CacheState {
    c.(completed := {}, reserved := map[])
  }

  /** Two levels answer as one set: without a read error the answer is membership in `Known`, and
      copying a disk hit into memory changes no later answer. */
  lemma AnswersAsOneSet(c: CacheState, key: Key, readFails: bool)
    ensures var (c', dup) := IsDuplicate(c, key, readFails);
      && (!readFails ==> dup == (key in c.Known()) && c'.Known() == c.Known())
      && (dup ==> key in c.Known())
      && (c.Valid() ==> c'.Valid())
  {
  }

  /** Exactly when asking about a key changes no later answer: there is no read error, or no disk to
      read, or memory answers, or memory knows all the keys that the disk would have answered for. */
  lemma AskingIsReadOnly(c: CacheState, key: Key, readFails: bool)
    ensures IsDuplicate(c, key, readFails).0.Known() == c.Known() <==>
      || !readFails || !c.OnDisk()
      || key in c.completed || key in c.reserved
      || c.index <= c.completed + c.reserved.Keys
  {
  }

  /** Asking about one key, with a read error, forgets another that the disk knows. */
  lemma AskingForgets()
    ensures var c := NewCache(true, {"known"});
      var (c', dup) := IsDuplicate(c, "asked", true);
      && !dup && IsDuplicate(c, "known", false).1 && !IsDuplicate(c', "known", false).1
  {
  }

  /** A reservation is refused exactly when the key counts as a duplicate and its holder is another
      job; granting one adds the key to what the cache knows and nothing else. */
  lemma ReserveVersusDuplicate(c: CacheState, key: Key, job: JobId, readFails: bool)
    requires c.Valid()
    ensures var (c', granted) := TryReserve(c, key, job, readFails);
      var dup := IsDuplicate(c, key, readFails).1;
      && (!granted <==> dup && !(key in c.reserved && c.reserved[key] == job))
      && (granted ==> key in c'.reserved && c'.reserved[key] == job)
      && c'.Valid()
      && (!readFails ==> c'.Known() == c.Known() + {key})
  {
  }

  /** What `reset_memory` leaves: the answers of the disk alone. */
  lemma ResetLeavesTheDisk(c: CacheState, key: Key)
    ensures var c' := ResetMemory(c);
      && (IsDuplicate(c', key, false).1 <==> c.hasIndex && c.diskEnabled && key in c.index)
      && c'.reserved == map[] && (c'.index, c'.hasIndex, c'.diskEnabled) == (c.index, c.hasIndex, c.diskEnabled)
  {
  }

  datatype CacheOp =
    | Query(key: Key, readFails: bool)
    | Reserve(key: Key, job: JobId, readFails: bool)
    | Finish(key: Key, append: AppendOutcome)
    | Release(key: Key)
    | Foreign(index: set<Key>)   // other processes write to the shared index

  function Apply(c: CacheState, op: CacheOp): CacheState {
    match op
    case Query(key, fails) => IsDuplicate(c, key, fails).0
    case Reserve(key, job, fails) => TryReserve(c, key, job, fails).0
    case Finish(key, append) => Commit(c, key, append)
    case Release(key) => Abort(c, key)
    case Foreign(index) => c.(index := index)
  }

  function ApplyAll(c: CacheState, ops: seq<CacheOp>): CacheState
    decreases |ops|
  {
    if ops == [] then c else ApplyAll(Apply(c, ops[0]), ops[1..])
  }

  /** A committed key is never forgotten, whatever fails afterwards, as long as nobody resets the
      memory; and no key is ever both reserved and completed. */
  lemma {:induction false} CommittedForever(c: CacheState, ops: seq<CacheOp>, key: Key, job: JobId, fails: bool)
    requires c.Valid()
    ensures ApplyAll(c, ops).Valid()
    ensures c.completed <= ApplyAll(c, ops).completed
    ensures key in c.completed ==>
      IsDuplicate(ApplyAll(c, ops), key, fails).1 && !TryReserve(ApplyAll(c, ops), key, job, fails).1
    ensures !c.diskEnabled ==> !ApplyAll(c, ops).diskEnabled
    decreases |ops|
  {
    if ops != [] {
      CommittedForever(Apply(c, ops[0]), ops[1..], key, job, fails);
    }
  }

  /** A hit on the disk is remembered: whatever is appended, read or fails afterwards, the key stays a
      duplicate. */
  lemma HitsAreRemembered(c: CacheState, key: Key, ops: seq<CacheOp>, job: JobId, fails: bool)
    requires c.Valid() && key !in c.reserved && IsDuplicate(c, key, false).1
    ensures var later := ApplyAll(IsDuplicate(c, key, false).0, ops);
      IsDuplicate(later, key, fails).1 && !TryReserve(later, key, job, fails).1
  {
    CommittedForever(IsDuplicate(c, key, false).0, ops, key, job, fails);
  }

  /** A committed key that reached the disk is a duplicate for a process that starts later; and once an
      append failed, a process answers from its memory alone, whatever happens later. */
  lemma CommitsAreShared(c: CacheState, key: Key, append: AppendOutcome, ops: seq<CacheOp>, other: Key, fails: bool)
    requires c.Valid() && c.OnDisk()
    ensures var c' := Commit(c, key, append);
      && (append != FailedBefore ==> IsDuplicate(NewCache(true, c'.index), key, false).1)
      && (append == FailedBefore ==> c'.index == c.index)
      && (append == Appended ==> c'.OnDisk())
    ensures append != Appended ==>
      var later := ApplyAll(Commit(c, key, append), ops);
      IsDuplicate(later, other, fails) == (later, other in later.completed || other in later.reserved)
  {
    CommittedForever(Commit(c, key, append), ops, key, "", fails);
  }
}
