/** The blob cache over a file system of names and inodes. A put stages its file under a temporary
    name, by hard link or else by copying, and moves it into place; every step may be the last. */
module FileCache {
  import opened BlobNames

  type Bytes = seq<bv8>
  type Inode = nat

  /** The paths that matter: blobs and staging files under the cache root, and the files of work
      directories, which lie elsewhere. */
  datatype Path = Blob(name: string) | Temp(id: nat) | Work(name: string)

  datatype FS = FS(names: map<Path, Inode>, data: map<Inode, Bytes>, next: Inode)
  {
    ghost predicate Valid() {
      && (forall p :: p in names ==> names[p] in data)
      && (forall i :: i in data ==> i < next)
    }

    predicate Holds(p: Path) {
      p in names && names[p] in data
    }

    function Read(p: Path): Bytes
      requires Holds(p)
    {
      data[names[p]]
    }

    function Link(src: Path, dest: Path): FS
      requires src in names
    {
      this.(names := names[dest := names[src]])
    }

    /** A new file under this name; an older file of that name loses it. */
    function Create(p: Path, bytes: Bytes): FS {
      FS(names[p := next], data[next := bytes], next + 1)
    }

    function Append(i: Inode, bytes: Bytes): FS
      requires i in data
    {
      this.(data := data[i := data[i] + bytes])
    }

    /** Writing a file in place: every name of the inode shows the new bytes. */
    function Write(i: Inode, bytes: Bytes): FS
      requires i in data
    {
      this.(data := data[i := bytes])
    }

    /** os.replace, which does nothing when both are names of one inode. */
    function Rename(src: Path, dest: Path): FS
      requires src in names && src != dest
    {
      if dest in names && names[dest] == names[src] then this else this.(names := (names - {src})[dest := names[src]])
    }

    function Unlink(p: Path): FS {
      this.(names := names - {p})
    }
  }

  datatype Stage =
    | Begun
    | Copying(from: Inode, to: Inode, done: nat)
    | Staged(copied: bool)
    | Over

  datatype Put = Put(name: string, src: string, stage: Stage)

  datatype State = State(fs: FS, puts: seq<Put>, offered: map<string, set<Bytes>>)
  {
    predicate Offered(name: string, bytes: Bytes) {
      name in offered && bytes in offered[name]
    }

    function Offer(name: string, bytes: Bytes): map<string, set<Bytes>> {
      offered[name := (if name in offered then offered[name] else {}) + {bytes}]
    }
  }

  datatype Step =
    | Begin(name: string, src: string)
    | LinkSource(i: nat)
    | OpenCopy(i: nat)                       // the link failed; start copying
    | CopySome(i: nat, n: nat)
    | CopyEnd(i: nat)
    | Move(i: nat)
    | Fail(i: nat)                           // an exception: the staging file is unlinked
    | Crash(i: nat)                          // the process dies and leaves the staging file
    | Deliver(src: string, bytes: Bytes)     // a download finishes a file in a work directory
    | WriteSource(src: string, bytes: Bytes) // someone overwrites a file of a work directory in place
    | RemoveWork(src: string)                // a file of a work directory is removed
    | Evict(name: string)

  predicate Running(s: State, i: nat) {
    i < |s.puts| && !s.puts[i].stage.Over?
  }

  ghost predicate Enabled(s: State, step: Step) {
    match step
    case Begin(_, src) => s.fs.Holds(Work(src))
    case LinkSource(i) => Running(s, i) && s.puts[i].stage.Begun? && s.fs.Holds(Work(s.puts[i].src))
    case OpenCopy(i) => Running(s, i) && s.puts[i].stage.Begun? && s.fs.Holds(Work(s.puts[i].src))
    case CopySome(i, n) => Running(s, i) && s.puts[i].stage.Copying?
      && s.puts[i].stage.from in s.fs.data && s.puts[i].stage.to in s.fs.data
      && s.puts[i].stage.done + n <= |s.fs.data[s.puts[i].stage.from]|
    case CopyEnd(i) => Running(s, i) && s.puts[i].stage.Copying?
      && s.puts[i].stage.from in s.fs.data && s.puts[i].stage.done >= |s.fs.data[s.puts[i].stage.from]|
    case Move(i) => Running(s, i) && s.puts[i].stage.Staged? && Temp(i) in s.fs.names
    case Fail(i) => Running(s, i)
    case Crash(i) => Running(s, i)
    case WriteSource(src, _) => s.fs.Holds(Work(src))
    case _ => true
  }

  function At(s: State, i: nat, stage: Stage): seq<Put>
    requires i < |s.puts|
  {
    s.puts[i := s.puts[i].(stage := stage)]
  }

  ghost function Apply(s: State, step: Step): State
    requires Enabled(s, step)
  {
    match step
    case Begin(name, src) =>
      // a present blob is answered as it is
      if Blob(name) in s.fs.names then s else s.(puts := s.puts + [Put(name, src, Begun)])
    case LinkSource(i) =>
      var src := Work(s.puts[i].src);
      State(s.fs.Link(src, Temp(i)), At(s, i, Staged(false)), s.Offer(s.puts[i].name, s.fs.Read(src)))
    case OpenCopy(i) =>
      var src := Work(s.puts[i].src);
      State(s.fs.Create(Temp(i), []), At(s, i, Copying(s.fs.names[src], s.fs.next, 0)),
            s.Offer(s.puts[i].name, s.fs.Read(src)))
    case CopySome(i, n) =>
      var c := s.puts[i].stage;
      s.(fs := s.fs.Append(c.to, s.fs.data[c.from][c.done..c.done + n]), puts := At(s, i, c.(done := c.done + n)))
    case CopyEnd(i) => s.(puts := At(s, i, Staged(true)))
    case Move(i) => s.(fs := s.fs.Rename(Temp(i), Blob(s.puts[i].name)), puts := At(s, i, Over))
    case Fail(i) => s.(fs := s.fs.Unlink(Temp(i)), puts := At(s, i, Over))
    case Crash(i) => s.(puts := At(s, i, Over))
    case Deliver(src, bytes) => s.(fs := s.fs.Create(Work(src), bytes))
    case WriteSource(src, bytes) => s.(fs := s.fs.Write(s.fs.names[Work(src)], bytes))
    case RemoveWork(src) => s.(fs := s.fs.Unlink(Work(src)))
    case Evict(name) => s.(fs := s.fs.Unlink(Blob(name)))
  }

  // ---- Names and inodes ----

  ghost predicate OnlyName(s: State, p: Path) {
    p in s.fs.names && forall q :: q in s.fs.names && s.fs.names[q] == s.fs.names[p] ==> q == p
  }

  /** What a running put has in the file system: a copy is visible under its staging name only. */
  ghost predicate Footing(s: State, i: nat)
    requires i < |s.puts|
  {
    var stage := s.puts[i].stage;
    && (stage.Copying? ==>
          && stage.from in s.fs.data && stage.to in s.fs.data
          && OnlyName(s, Temp(i)) && s.fs.names[Temp(i)] == stage.to)
    && (stage.Staged? ==> s.fs.Holds(Temp(i)) && (stage.copied ==> OnlyName(s, Temp(i))))
  }

  ghost predicate CopiesApart(s: State) {
    forall i, k :: 0 <= i < |s.puts| && 0 <= k < |s.puts| && s.puts[i].stage.Copying? && s.puts[k].stage.Copying? ==>
      s.puts[i].stage.from != s.puts[k].stage.to && (i != k ==> s.puts[i].stage.to != s.puts[k].stage.to)
  }

  ghost predicate TempsKnown(s: State) {
    forall k: nat :: Temp(k) in s.fs.names ==> k < |s.puts| && !s.puts[k].stage.Begun?
  }

  /** This holds in every run, whatever is written. */
  ghost predicate Shape(s: State) {
    && s.fs.Valid() && CopiesApart(s) && TempsKnown(s)
    && (forall i :: 0 <= i < |s.puts| ==> Footing(s, i))
  }

  lemma LinkShapes(s: State, i: nat)
    requires Shape(s) && Enabled(s, LinkSource(i))
    ensures Shape(Apply(s, LinkSource(i)))
  {
    var s' := Apply(s, LinkSource(i));
    forall k | 0 <= k < |s'.puts|
      ensures Footing(s', k)
    {
      assert Footing(s, k);
    }
  }

  lemma OpenShapes(s: State, i: nat)
    requires Shape(s) && Enabled(s, OpenCopy(i))
    ensures Shape(Apply(s, OpenCopy(i)))
  {
    var s' := Apply(s, OpenCopy(i));
    forall k | 0 <= k < |s.puts| && s.puts[k].stage.Copying?
      ensures s.puts[k].stage.to != s.fs.names[Work(s.puts[i].src)]
      ensures s.puts[k].stage.to < s.fs.next && s.puts[k].stage.from < s.fs.next
    {
      assert Footing(s, k);
    }
    forall k | 0 <= k < |s'.puts|
      ensures Footing(s', k)
    {
      assert Footing(s, k);
    }
  }

  lemma MoveShapes(s: State, i: nat)
    requires Shape(s) && Enabled(s, Move(i))
    ensures Shape(Apply(s, Move(i)))
  {
    var s' := Apply(s, Move(i));
    assert Footing(s, i);
    forall k | 0 <= k < |s'.puts|
      ensures Footing(s', k)
    {
      assert Footing(s, k);
    }
  }

  lemma RestShapes(s: State, step: Step)
    requires Shape(s) && Enabled(s, step) && !step.LinkSource? && !step.OpenCopy? && !step.Move?
    ensures Shape(Apply(s, step))
  {
    var s' := Apply(s, step);
    forall k | 0 <= k < |s'.puts|
      ensures Footing(s', k)
    {
      if k < |s.puts| {
        assert Footing(s, k);
      }
    }
  }

  lemma StepShapes(s: State, step: Step)
    requires Shape(s) && Enabled(s, step)
    ensures Shape(Apply(s, step))
  {
    match step
    case LinkSource(i) => LinkShapes(s, i);
    case OpenCopy(i) => OpenShapes(s, i);
    case Move(i) => MoveShapes(s, i);
    case _ => RestShapes(s, step);
  }

  // ---- No partial blob is ever visible ----

  /** What a copy still reads of a source, when `done` bytes were read before. */
  function Unread(source: Bytes, done: nat): Bytes {
    if done <= |source| then source[done..] else []
  }

  /** What a copy under way is going to hold was offered. */
  ghost predicate CopyOk(s: State, i: nat)
    requires i < |s.puts|
  {
    var c := s.puts[i].stage;
    c.Copying? ==>
      && c.from in s.fs.data && c.to in s.fs.data
      && s.Offered(s.puts[i].name, s.fs.data[c.to] + Unread(s.fs.data[c.from], c.done))
  }

  ghost predicate StagedOk(s: State, i: nat)
    requires i < |s.puts|
  {
    s.puts[i].stage.Staged? ==> s.fs.Holds(Temp(i)) && s.Offered(s.puts[i].name, s.fs.Read(Temp(i)))
  }

  ghost predicate BlobsOk(s: State) {
    forall n :: Blob(n) in s.fs.names ==> s.fs.Holds(Blob(n)) && s.Offered(n, s.fs.Read(Blob(n)))
  }

  ghost predicate Inv(s: State) {
    && Shape(s) && BlobsOk(s)
    && (forall i :: 0 <= i < |s.puts| ==> CopyOk(s, i) && StagedOk(s, i))
  }

  /** The staged file of this put is a link to the inode. */
  predicate StagedFrom(s: State, k: nat, i: Inode) {
    k < |s.puts| && s.puts[k].stage.Staged? && Temp(k) in s.fs.names && s.fs.names[Temp(k)] == i
  }

  /** Writing these bytes into a file is harmless for what the cache shows now or later: they were offered
      under the name of every blob and of every staged put that is a link to the file, and what each copy
      of the file that is under way is then going to hold was offered too. */
  ghost predicate WriteFits(s: State, i: Inode, bytes: Bytes) {
    && (forall n :: Blob(n) in s.fs.names && s.fs.names[Blob(n)] == i ==> s.Offered(n, bytes))
    && (forall k: nat :: StagedFrom(s, k, i) ==> s.Offered(s.puts[k].name, bytes))
    && (forall k :: 0 <= k < |s.puts| && s.puts[k].stage.Copying? && s.puts[k].stage.from == i ==>
          s.puts[k].stage.to in s.fs.data
          && s.Offered(s.puts[k].name, s.fs.data[s.puts[k].stage.to] + Unread(bytes, s.puts[k].stage.done)))
  }

  /** The cache uses an inode when it has a name under the cache root or is being copied from. */
  ghost predicate InUse(s: State, i: Inode) {
    || (exists p :: p in s.fs.names && !p.Work? && s.fs.names[p] == i)
    || (exists k :: 0 <= k < |s.puts| && s.puts[k].stage.Copying? && s.puts[k].stage.from == i)
  }

  lemma LinkKeeps(s: State, i: nat)
    requires Inv(s) && Enabled(s, LinkSource(i))
    ensures Inv(Apply(s, LinkSource(i)))
  {
    LinkShapes(s, i);
    var s' := Apply(s, LinkSource(i));
    forall k | 0 <= k < |s'.puts|
      ensures CopyOk(s', k) && StagedOk(s', k)
    {
      assert CopyOk(s, k) && StagedOk(s, k);
    }
  }

  lemma OpenKeeps(s: State, i: nat)
    requires Inv(s) && Enabled(s, OpenCopy(i))
    ensures Inv(Apply(s, OpenCopy(i)))
  {
    OpenShapes(s, i);
    var s' := Apply(s, OpenCopy(i));
    var source := s.fs.Read(Work(s.puts[i].src));
    assert [] + Unread(source, 0) == source;
    forall k | 0 <= k < |s'.puts|
      ensures CopyOk(s', k) && StagedOk(s', k)
    {
      assert Footing(s, k) && CopyOk(s, k) && StagedOk(s, k);
    }
  }

  lemma CopyKeeps(s: State, i: nat, n: nat)
    requires Inv(s) && Enabled(s, CopySome(i, n))
    ensures Inv(Apply(s, CopySome(i, n)))
  {
    RestShapes(s, CopySome(i, n));
    var s' := Apply(s, CopySome(i, n));
    var c := s.puts[i].stage;
    assert CopyOk(s, i) && Footing(s, i);
    assert s.fs.data[c.to] + s.fs.data[c.from][c.done..c.done + n] + Unread(s.fs.data[c.from], c.done + n)
      == s.fs.data[c.to] + Unread(s.fs.data[c.from], c.done);
    assert forall p :: p in s.fs.names && p != Temp(i) ==> s'.fs.data[s.fs.names[p]] == s.fs.data[s.fs.names[p]];
    forall k | 0 <= k < |s'.puts|
      ensures CopyOk(s', k) && StagedOk(s', k)
    {
      assert Footing(s, k) && CopyOk(s, k) && StagedOk(s, k);
    }
  }

  lemma MoveKeeps(s: State, i: nat)
    requires Inv(s) && Enabled(s, Move(i))
    ensures Inv(Apply(s, Move(i)))
  {
    MoveShapes(s, i);
    var s' := Apply(s, Move(i));
    assert StagedOk(s, i);
    forall k | 0 <= k < |s'.puts|
      ensures CopyOk(s', k) && StagedOk(s', k)
    {
      assert CopyOk(s, k) && StagedOk(s, k);
    }
  }

  lemma WriteKeeps(s: State, src: string, bytes: Bytes)
    requires Inv(s) && Enabled(s, WriteSource(src, bytes)) && WriteFits(s, s.fs.names[Work(src)], bytes)
    ensures Inv(Apply(s, WriteSource(src, bytes)))
  {
    RestShapes(s, WriteSource(src, bytes));
    var s' := Apply(s, WriteSource(src, bytes));
    forall k | 0 <= k < |s'.puts|
      ensures CopyOk(s', k) && StagedOk(s', k)
    {
      assert Footing(s, k) && CopyOk(s, k) && StagedOk(s, k);
    }
  }

  lemma RestKeeps(s: State, step: Step)
    requires Inv(s) && Enabled(s, step)
    requires step.Begin? || step.CopyEnd? || step.Fail? || step.Crash?
      || step.Deliver? || step.RemoveWork? || step.Evict?
    ensures Inv(Apply(s, step))
  {
    RestShapes(s, step);
    var s' := Apply(s, step);
    forall k | 0 <= k < |s'.puts|
      ensures CopyOk(s', k) && StagedOk(s', k)
    {
      if k < |s.puts| {
        assert Footing(s, k) && CopyOk(s, k) && StagedOk(s, k);
        if step == CopyEnd(k) {
          var c := s.puts[k].stage;
          assert s.fs.data[c.to] + Unread(s.fs.data[c.from], c.done) == s.fs.data[c.to];
        }
      }
    }
  }

  lemma StepKeeps(s: State, step: Step)
    requires Inv(s) && Enabled(s, step)
    requires step.WriteSource? ==> WriteFits(s, s.fs.names[Work(step.src)], step.bytes)
    ensures Inv(Apply(s, step))
  {
    match step
    case LinkSource(i) => LinkKeeps(s, i);
    case OpenCopy(i) => OpenKeeps(s, i);
    case CopySome(i, n) => CopyKeeps(s, i, n);
    case Move(i) => MoveKeeps(s, i);
    case WriteSource(src, bytes) => WriteKeeps(s, src, bytes);
    case _ => RestKeeps(s, step);
  }

  // ---- Runs ----

  /** Which files of work directories may be overwritten in place. */
  datatype Writes = Any | SparingBlob(name: string) | Fitting | SparingCache

  /** `locked` says that puts are of one process, which takes its lock for the whole of each. */
  datatype Rule = Rule(locked: bool, writes: Writes)

  ghost predicate Allowed(s: State, step: Step, rule: Rule) {
    && Enabled(s, step)
    && (rule.locked && step.Begin? ==> forall i :: 0 <= i < |s.puts| ==> s.puts[i].stage.Over?)
    && (step.WriteSource? ==>
          var i := s.fs.names[Work(step.src)];
          match rule.writes
          case Any => true
          case SparingBlob(name) => Blob(name) in s.fs.names ==> s.fs.names[Blob(name)] != i
          case Fitting => WriteFits(s, i, step.bytes)
          case SparingCache => !InUse(s, i))
  }

  /** A put that fails leaves no staging file and no other change in the names; a process that dies leaves
      all names; an eviction removes that one blob; and a put for a blob that is there changes nothing. */
  lemma WhatStays(s: State, step: Step, p: Path)
    requires Shape(s) && Enabled(s, step)
    ensures var fs, fs' := s.fs, Apply(s, step).fs;
      && (step.Fail? ==> fs'.data == fs.data && fs'.names == fs.names - {Temp(step.i)})
      && (step.Crash? ==> fs' == fs && !Running(Apply(s, step), step.i))
      && (step.Evict? ==> fs'.data == fs.data && fs'.names == fs.names - {Blob(step.name)})
      && (step.Begin? && Blob(step.name) in fs.names ==> Apply(s, step) == s)
      && (step.Move? ==>
            && Blob(s.puts[step.i].name) in fs'.names
            && fs'.Read(Blob(s.puts[step.i].name)) == fs.Read(Temp(step.i))
            && (p != Temp(step.i) && p != Blob(s.puts[step.i].name) ==>
                  (p in fs'.names <==> p in fs.names) && (p in fs.names ==> fs'.names[p] == fs.names[p])))
  {
  }

  lemma UnusedFits(s: State, i: Inode, bytes: Bytes)
    requires !InUse(s, i)
    ensures WriteFits(s, i, bytes)
  {
  }

  ghost predicate Reaches(s: State, steps: seq<Step>, rule: Rule, end: State)
    decreases |steps|
  {
    if steps == [] then s == end
    else Allowed(s, steps[0], rule) && Reaches(Apply(s, steps[0]), steps[1..], rule, end)
  }

  lemma {:induction false} RunKeeps(s: State, steps: seq<Step>, rule: Rule, end: State)
    requires Inv(s) && Reaches(s, steps, rule, end) && (rule.writes.Fitting? || rule.writes.SparingCache?)
    ensures Inv(end)
    decreases |steps|
  {
    if steps != [] {
      if rule.writes.SparingCache? && steps[0].WriteSource? {
        UnusedFits(s, s.fs.names[Work(steps[0].src)], steps[0].bytes);
      }
      StepKeeps(s, steps[0]);
      RunKeeps(Apply(s, steps[0]), steps[1..], rule, end);
    }
  }

  function Start(): State {
    State(FS(map[], map[], 0), [], map[])
  }

  /** While overwriting fits what was offered, as it does for files the cache does not use: in every
      reachable state, between any two steps of any number of puts, a blob is absent or holds the
      complete bytes of a source put under its name. */
  lemma NoPartialBlob(steps: seq<Step>, rule: Rule, end: State, name: string)
    requires Reaches(Start(), steps, rule, end) && (rule.writes.Fitting? || rule.writes.SparingCache?)
    requires Blob(name) in end.fs.names
    ensures end.fs.Holds(Blob(name)) && end.Offered(name, end.fs.Read(Blob(name)))
  {
    RunKeeps(Start(), steps, rule, end);
  }

  // ---- Exactly which writes can show bytes nobody put ----

  lemma StagedShows(s: State, k: nat, rule: Rule) returns (steps: seq<Step>, end: State)
    requires s.fs.Valid() && k < |s.puts| && s.puts[k].stage.Staged? && Temp(k) in s.fs.names
    requires !s.Offered(s.puts[k].name, s.fs.Read(Temp(k)))
    ensures Reaches(s, steps, rule, end) && !BlobsOk(end)
  {
    steps, end := [Move(k)], Apply(s, Move(k));
    assert steps[1..] == [];
    assert Blob(s.puts[k].name) in end.fs.names;
  }

  lemma CopiedShows(s: State, k: nat, rule: Rule) returns (steps: seq<Step>, end: State)
    requires Shape(s) && k < |s.puts| && s.puts[k].stage.Copying?
    requires s.puts[k].stage.from in s.fs.data && s.puts[k].stage.done >= |s.fs.data[s.puts[k].stage.from]|
    requires s.puts[k].stage.to in s.fs.data && !s.Offered(s.puts[k].name, s.fs.data[s.puts[k].stage.to])
    ensures Reaches(s, steps, rule, end) && !BlobsOk(end)
  {
    assert Footing(s, k);
    var more;
    more, end := StagedShows(Apply(s, CopyEnd(k)), k, rule);
    steps := [CopyEnd(k)] + more;
    assert steps[1..] == more;
  }

  /** A copy that is going to hold bytes nobody put can run to its end. */
  lemma CopyShows(s: State, k: nat, rule: Rule) returns (steps: seq<Step>, end: State)
    requires Shape(s) && k < |s.puts| && s.puts[k].stage.Copying?
    requires !CopyOk(s, k)
    ensures Reaches(s, steps, rule, end) && !BlobsOk(end)
  {
    assert Footing(s, k);
    var c := s.puts[k].stage;
    var source := s.fs.data[c.from];
    if c.done <= |source| {
      var step := CopySome(k, |source| - c.done);
      RestShapes(s, step);
      var s' := Apply(s, step);
      assert source[c.done..|source|] == Unread(source, c.done);
      var more;
      more, end := CopiedShows(s', k, rule);
      steps := [step] + more;
      assert steps[1..] == more;
    } else {
      assert s.fs.data[c.to] + Unread(source, c.done) == s.fs.data[c.to];
      steps, end := CopiedShows(s, k, rule);
    }
  }

  lemma UnfittingShows(s: State, src: string, bytes: Bytes, rule: Rule) returns (steps: seq<Step>, end: State)
    requires Inv(s) && Enabled(s, WriteSource(src, bytes)) && !WriteFits(s, s.fs.names[Work(src)], bytes)
    ensures Reaches(Apply(s, WriteSource(src, bytes)), steps, rule, end) && !BlobsOk(end)
  {
    var s', i := Apply(s, WriteSource(src, bytes)), s.fs.names[Work(src)];
    RestShapes(s, WriteSource(src, bytes));
    if n :| Blob(n) in s.fs.names && s.fs.names[Blob(n)] == i && !s.Offered(n, bytes) {
      steps, end := [], s';
      assert s'.fs.Read(Blob(n)) == bytes;
    } else if k: nat :| StagedFrom(s, k, i) && !s.Offered(s.puts[k].name, bytes) {
      steps, end := StagedShows(s', k, rule);
    } else {
      var k: nat :| k < |s.puts| && s.puts[k].stage.Copying? && s.puts[k].stage.from == i
        && (s.puts[k].stage.to in s.fs.data ==>
              !s.Offered(s.puts[k].name, s.fs.data[s.puts[k].stage.to] + Unread(bytes, s.puts[k].stage.done)));
      assert Footing(s, k);
      steps, end := CopyShows(s', k, rule);
    }
  }

  lemma FittingKeeps(s: State, src: string, bytes: Bytes, locked: bool, steps: seq<Step>, end: State)
    requires Inv(s) && Enabled(s, WriteSource(src, bytes)) && WriteFits(s, s.fs.names[Work(src)], bytes)
    requires Reaches(Apply(s, WriteSource(src, bytes)), steps, Rule(locked, Fitting), end)
    ensures BlobsOk(end)
  {
    WriteKeeps(s, src, bytes);
    RunKeeps(Apply(s, WriteSource(src, bytes)), steps, Rule(locked, Fitting), end);
  }

  /** In every run that goes on from here every blob holds bytes that were put under its name. */
  ghost predicate StaysWhole(s: State, rule: Rule) {
    forall more, end :: Reaches(s, more, rule, end) ==> BlobsOk(end)
  }

  lemma NotWhole(s: State, more: seq<Step>, rule: Rule, end: State)
    requires Reaches(s, more, rule, end) && !BlobsOk(end)
    ensures !StaysWhole(s, rule)
  {
  }

  /** Exactly which writes can ever show bytes nobody put: from a state reached by writes that fit,
      another one fits if and only if in every run that goes on from it, again with such writes, every
      blob holds bytes that were put under its name. */
  lemma WritesExactly(before: seq<Step>, locked: bool, s: State, src: string, bytes: Bytes)
    requires Reaches(Start(), before, Rule(locked, Fitting), s) && Enabled(s, WriteSource(src, bytes))
    ensures WriteFits(s, s.fs.names[Work(src)], bytes) <==>
      StaysWhole(Apply(s, WriteSource(src, bytes)), Rule(locked, Fitting))
  {
    RunKeeps(Start(), before, Rule(locked, Fitting), s);
    var s' := Apply(s, WriteSource(src, bytes));
    if WriteFits(s, s.fs.names[Work(src)], bytes) {
      forall more, end | Reaches(s', more, Rule(locked, Fitting), end)
        ensures BlobsOk(end)
      {
        FittingKeeps(s, src, bytes, locked, more, end);
      }
    } else {
      var more, end := UnfittingShows(s, src, bytes, Rule(locked, Fitting));
      NotWhole(s', more, Rule(locked, Fitting), end);
    }
  }

  // ---- The first put wins ----

  /** With one put at a time, a running put found its blob absent, and it still is. */
  ghost predicate OneAtATime(s: State) {
    && (forall i :: 0 <= i < |s.puts| && !s.puts[i].stage.Over? ==> i == |s.puts| - 1)
    && (forall i :: 0 <= i < |s.puts| && !s.puts[i].stage.Over? ==> Blob(s.puts[i].name) !in s.fs.names)
  }

  /** No file of a work directory is the same inode as the blob. */
  ghost predicate Private(s: State, name: string) {
    forall w :: Work(w) in s.fs.names && Blob(name) in s.fs.names ==> s.fs.names[Work(w)] != s.fs.names[Blob(name)]
  }

  ghost predicate SameBlob(s: State, s': State, name: string) {
    && s.fs.Holds(Blob(name)) && s'.fs.Holds(Blob(name))
    && s'.fs.names[Blob(name)] == s.fs.names[Blob(name)] && s'.fs.Read(Blob(name)) == s.fs.Read(Blob(name))
  }

  lemma StepStable(s: State, step: Step, rule: Rule, name: string)
    requires Shape(s) && OneAtATime(s) && Allowed(s, step, rule) && rule.locked
    ensures OneAtATime(Apply(s, step))
    ensures Blob(name) in s.fs.names && step != Evict(name) && !step.WriteSource? ==> SameBlob(s, Apply(s, step), name)
    ensures Blob(name) in s.fs.names && step != Evict(name) && Private(s, name) ==> Private(Apply(s, step), name)
  {
    if step.CopySome? {
      assert Footing(s, step.i);
    }
  }

  /** Exactly which writes show: overwriting a file with other bytes changes a blob if and only if the
      blob is a link to that very file. */
  lemma WriteShows(s: State, src: string, bytes: Bytes, name: string)
    requires Shape(s) && Blob(name) in s.fs.names
    requires Enabled(s, WriteSource(src, bytes)) && bytes != s.fs.Read(Work(src))
    ensures SameBlob(s, Apply(s, WriteSource(src, bytes)), name) <==> s.fs.names[Blob(name)] != s.fs.names[Work(src)]
  {
  }

  /** Everything under the cache root, and every file being copied, holds the same bytes as before. */
  ghost predicate Undisturbed(s: State, s': State) {
    && (forall p :: p in s.fs.names && !p.Work? ==>
          s.fs.Holds(p) && s'.fs.Holds(p) && s'.fs.Read(p) == s.fs.Read(p))
    && (forall k :: 0 <= k < |s.puts| && s.puts[k].stage.Copying? ==>
          var from := s.puts[k].stage.from;
          from in s.fs.data && from in s'.fs.data && s'.fs.data[from] == s.fs.data[from])
  }

  /** Overwriting a file with other bytes leaves the cache undisturbed if and only if the cache does not
      use the file. */
  lemma WriteDisturbs(s: State, src: string, bytes: Bytes)
    requires Shape(s) && Enabled(s, WriteSource(src, bytes)) && bytes != s.fs.Read(Work(src))
    ensures Undisturbed(s, Apply(s, WriteSource(src, bytes))) <==> !InUse(s, s.fs.names[Work(src)])
  {
    var s', i := Apply(s, WriteSource(src, bytes)), s.fs.names[Work(src)];
    if p :| p in s.fs.names && !p.Work? && s.fs.names[p] == i {
      assert s'.fs.Read(p) != s.fs.Read(p);
    } else if k :| 0 <= k < |s.puts| && s.puts[k].stage.Copying? && s.puts[k].stage.from == i {
      assert s'.fs.data[i] != s.fs.data[i];
    } else {
      forall p | p in s.fs.names && !p.Work?
        ensures s.fs.Holds(p) && s'.fs.Holds(p) && s'.fs.Read(p) == s.fs.Read(p)
      {
        assert s.fs.names[p] != i;
      }
      forall k | 0 <= k < |s.puts| && s.puts[k].stage.Copying?
        ensures s.puts[k].stage.from in s.fs.data && s.puts[k].stage.from != i
      {
        assert Footing(s, k);
      }
    }
  }

  lemma {:induction false} BlobStays(s: State, steps: seq<Step>, rule: Rule, end: State, name: string)
    requires Shape(s) && OneAtATime(s) && Reaches(s, steps, rule, end) && rule.locked
    ensures Shape(end) && OneAtATime(end)
    ensures (Blob(name) in s.fs.names && Evict(name) !in steps
             && (rule.writes == SparingBlob(name) || Private(s, name))) ==>
      SameBlob(s, end, name)
    decreases |steps|
  {
    if steps != [] {
      assert steps[0] in steps;
      assert forall t :: t in steps[1..] ==> t in steps;
      StepShapes(s, steps[0]);
      StepStable(s, steps[0], rule, name);
      BlobStays(Apply(s, steps[0]), steps[1..], rule, end, name);
    }
  }

  /** The first put of a key wins: until the key is deleted its blob never changes, whatever is put later,
      whatever happens to the work directory it came from, and whatever is written, unless the write
      hits a file that the blob is a link to. */
  lemma FirstPutWins(before: seq<Step>, mid: State, after: seq<Step>, end: State, name: string)
    requires Reaches(Start(), before, Rule(true, Any), mid)
    requires Reaches(mid, after, Rule(true, SparingBlob(name)), end)
    requires Blob(name) in mid.fs.names && Evict(name) !in after
    ensures mid.fs.Holds(Blob(name)) && end.fs.Holds(Blob(name))
    ensures end.fs.Read(Blob(name)) == mid.fs.Read(Blob(name))
  {
    BlobStays(Start(), before, Rule(true, Any), mid, name);
    BlobStays(mid, after, Rule(true, SparingBlob(name)), end, name);
  }

  /** A blob that was copied survives every write, to its source too. */
  lemma CopiedBlobIsImmutable(before: seq<Step>, mid: State, i: nat, after: seq<Step>, end: State)
    requires Reaches(Start(), before, Rule(true, Any), mid)
    requires Enabled(mid, Move(i)) && mid.puts[i].stage == Staged(true)
    requires Reaches(Apply(mid, Move(i)), after, Rule(true, Any), end) && Evict(mid.puts[i].name) !in after
    ensures mid.fs.Holds(Temp(i)) && end.fs.Holds(Blob(mid.puts[i].name))
    ensures end.fs.Read(Blob(mid.puts[i].name)) == mid.fs.Read(Temp(i))
  {
    var name := mid.puts[i].name;
    BlobStays(Start(), before, Rule(true, Any), mid, name);
    assert Footing(mid, i);
    var moved := Apply(mid, Move(i));
    MoveShapes(mid, i);
    StepStable(mid, Move(i), Rule(true, Any), name);
    assert Private(moved, name);
    BlobStays(moved, after, Rule(true, Any), end, name);
  }

  // ---- Writes that show ----

  lemma {:induction false} RunSnoc(s: State, steps: seq<Step>, rule: Rule, mid: State, step: Step)
    requires Reaches(s, steps, rule, mid) && Allowed(mid, step, rule)
    ensures Reaches(s, steps + [step], rule, Apply(mid, step))
    decreases |steps|
  {
    var more := steps + [step];
    if steps == [] {
      assert more[1..] == [];
    } else {
      RunSnoc(Apply(s, steps[0]), steps[1..], rule, mid, step);
      assert more[1..] == steps[1..] + [step];
    }
  }

  const FREELY := Rule(true, Any)

  /** A file is delivered, and a put of it begins. */
  lemma PutBegun(bytes: Bytes) returns (steps: seq<Step>, end: State)
    ensures Reaches(Start(), steps, FREELY, end)
    ensures end == State(FS(map[Work("f") := 0], map[0 := bytes], 1), [Put("k", "f", Begun)], map[])
  {
    var delivered := Apply(Start(), Deliver("f", bytes));
    RunSnoc(Start(), [], FREELY, Start(), Deliver("f", bytes));
    RunSnoc(Start(), [] + [Deliver("f", bytes)], FREELY, delivered, Begin("k", "f"));
    steps, end := [] + [Deliver("f", bytes)] + [Begin("k", "f")], Apply(delivered, Begin("k", "f"));
  }

  lemma LinkedOnce() returns (steps: seq<Step>, end: State)
    ensures Reaches(Start(), steps, FREELY, end)
    ensures end.fs == FS(map[Work("f") := 0, Blob("k") := 0], map[0 := []], 1) && end.offered == map["k" := {[]}]
  {
    var start, begun := PutBegun([]);
    var linked := Apply(begun, LinkSource(0));
    RunSnoc(Start(), start, FREELY, begun, LinkSource(0));
    RunSnoc(Start(), start + [LinkSource(0)], FREELY, linked, Move(0));
    steps, end := start + [LinkSource(0)] + [Move(0)], Apply(linked, Move(0));
    var none: set<Bytes> := {};
    assert none + {[]} == {[]};
    assert linked.offered == map["k" := {[]}];
    assert end.fs.names == map[Work("f") := 0, Blob("k") := 0];
  }

  /** A run in which overwriting the source of a hard-linked blob shows through: the blob holds bytes
      nobody put. */
  lemma WrittenSourceShowsThrough() returns (steps: seq<Step>, end: State)
    ensures Reaches(Start(), steps, FREELY, end)
    ensures end.fs.Holds(Blob("k")) && !end.Offered("k", end.fs.Read(Blob("k")))
  {
    var start, linked := LinkedOnce();
    var write := WriteSource("f", [7]);
    RunSnoc(Start(), start, FREELY, linked, write);
    steps, end := start + [write], Apply(linked, write);
    assert end.fs.Read(Blob("k")) == [7];
  }

  lemma HalfCopied() returns (steps: seq<Step>, end: State)
    ensures Reaches(Start(), steps, FREELY, end)
    ensures end.fs == FS(map[Work("f") := 0, Temp(0) := 1], map[0 := [1, 1], 1 := [1]], 2)
    ensures end.puts == [Put("k", "f", Copying(0, 1, 1))] && end.offered == map["k" := {[1, 1]}]
  {
    var start, begun := PutBegun([1, 1]);
    var open := Apply(begun, OpenCopy(0));
    RunSnoc(Start(), start, FREELY, begun, OpenCopy(0));
    RunSnoc(Start(), start + [OpenCopy(0)], FREELY, open, CopySome(0, 1));
    steps, end := start + [OpenCopy(0)] + [CopySome(0, 1)], Apply(open, CopySome(0, 1));
    var none: set<Bytes> := {};
    assert none + {[1, 1]} == {[1, 1]};
    assert open.offered == map["k" := {[1, 1]}];
    var nothing: Bytes := [];
    assert nothing + open.fs.data[0][0..1] == [1];
    assert end.fs.data == map[0 := [1, 1], 1 := [1]];
  }

  lemma MixedCopy() returns (steps: seq<Step>, end: State)
    ensures Reaches(Start(), steps, FREELY, end)
    ensures end.fs == FS(map[Work("f") := 0, Temp(0) := 1], map[0 := [2, 2], 1 := [1, 2]], 2)
    ensures end.puts == [Put("k", "f", Copying(0, 1, 2))] && end.offered == map["k" := {[1, 1]}]
  {
    var start, half := HalfCopied();
    var write := WriteSource("f", [2, 2]);
    var written := Apply(half, write);
    RunSnoc(Start(), start, FREELY, half, write);
    RunSnoc(Start(), start + [write], FREELY, written, CopySome(0, 1));
    steps, end := start + [write] + [CopySome(0, 1)], Apply(written, CopySome(0, 1));
    assert written.fs.data[1] + written.fs.data[0][1..2] == [1, 2];
    assert end.fs.data == map[0 := [2, 2], 1 := [1, 2]];
  }

  /** A run in which the source is overwritten while it is copied: the blob is a mixture. */
  lemma WriteDuringCopyMixes() returns (steps: seq<Step>, end: State)
    ensures Reaches(Start(), steps, FREELY, end)
    ensures end.fs.Holds(Blob("k")) && !end.Offered("k", end.fs.Read(Blob("k")))
  {
    var start, mixed := MixedCopy();
    var copied := Apply(mixed, CopyEnd(0));
    RunSnoc(Start(), start, FREELY, mixed, CopyEnd(0));
    RunSnoc(Start(), start + [CopyEnd(0)], FREELY, copied, Move(0));
    steps, end := start + [CopyEnd(0)] + [Move(0)], Apply(copied, Move(0));
    assert end.fs.Read(Blob("k")) == [1, 2];
    assert [1, 2][1] != [1, 1][1];
  }

  // ---- The store ----

  class Disk {
    var fs: FS
  }

  class FileCacheStore {
    const disk: Disk

    constructor (disk: Disk)
      ensures this.disk == disk
    {
      this.disk := disk;
    }

    /** The size of a key's blob, if there is one. */
    method Get(key: string) returns (size: int)
      requires disk.fs.Valid()
      ensures size == if Blob(BlobName(key)) in disk.fs.names then |disk.fs.Read(Blob(BlobName(key)))| else -1
    {
      size := -1;
      if Blob(BlobName(key)) in disk.fs.names {
        size := |disk.fs.data[disk.fs.names[Blob(BlobName(key))]]|;
      }
    }

    /** shutil.copy2 in chunks; false when it fails after `stop` bytes. */
    method CopyFile(src: Path, dest: Path, chunk: nat, stop: nat) returns (ok: bool)
      requires disk.fs.Valid() && disk.fs.Holds(src) && dest !in disk.fs.names && chunk > 0
      modifies disk
      ensures disk.fs.Valid() && disk.fs.names == old(disk.fs).names[dest := old(disk.fs).next]
      ensures forall i :: i in old(disk.fs).data ==> i in disk.fs.data && disk.fs.data[i] == old(disk.fs).data[i]
      ensures ok ==> disk.fs.Read(dest) == old(disk.fs).Read(src)
      ensures !ok ==> stop < |old(disk.fs).Read(src)|
    {
      ghost var fs0 := disk.fs;
      var from, to := disk.fs.names[src], disk.fs.next;
      disk.fs := disk.fs.Create(dest, []);
      var total := |disk.fs.data[from]|;
      var done := 0;
      while done < total
        invariant done <= total == |fs0.data[from]| && disk.fs.Valid()
        invariant disk.fs.names == fs0.names[dest := to] && disk.fs.next == to + 1
        invariant to in disk.fs.data && disk.fs.data[to] == fs0.data[from][..done]
        invariant forall i :: i in fs0.data ==> i in disk.fs.data && disk.fs.data[i] == fs0.data[i]
      {
        if done >= stop {
          return false;
        }
        var n := if done + chunk <= total then chunk else total - done;
        assert fs0.data[from][..done] + fs0.data[from][done..done + n] == fs0.data[from][..done + n];
        disk.fs := disk.fs.Append(to, disk.fs.data[from][done..done + n]);
        done := done + n;
      }
      assert fs0.data[from][..total] == fs0.data[from];
      ok := true;
    }

    /** put_from_path. The size of the key's blob, or -1 after an exception; `temp` is fresh. Nothing
        but the key's own blob changes, and that only from absent to the source's bytes. */
    method PutFromPath(key: string, src: string, temp: nat, linkOk: bool, chunk: nat, stop: nat,
                       moveOk: bool) returns (size: int)
      requires disk.fs.Valid() && Temp(temp) !in disk.fs.names && chunk > 0
      modifies disk
      ensures disk.fs.Valid()
      ensures forall i :: i in old(disk.fs).data ==> i in disk.fs.data && disk.fs.data[i] == old(disk.fs).data[i]
      ensures var blob := Blob(BlobName(key));
        && (Work(src) !in old(disk.fs).names || blob in old(disk.fs).names || size < 0 ==>
              disk.fs.names == old(disk.fs).names)
        && (Work(src) !in old(disk.fs).names ==> size == -1)
        && (Work(src) in old(disk.fs).names && blob in old(disk.fs).names ==> size == |old(disk.fs).Read(blob)|)
        && (Work(src) in old(disk.fs).names && blob !in old(disk.fs).names && size >= 0 ==>
              && blob in disk.fs.names
              && disk.fs.names == old(disk.fs).names[blob := disk.fs.names[blob]]
              && disk.fs.Read(blob) == old(disk.fs).Read(Work(src))
              && size == |old(disk.fs).Read(Work(src))|)
      ensures linkOk && moveOk && Work(src) in old(disk.fs).names ==> size >= 0
    {
      var blob := Blob(BlobName(key));
      if Work(src) !in disk.fs.names {
        return -1;
      }
      if blob in disk.fs.names {
        return |disk.fs.data[disk.fs.names[blob]]|;
      }
      ghost var names := disk.fs.names;
      var ok := true;
      if linkOk {
        disk.fs := disk.fs.Link(Work(src), Temp(temp));
      } else {
        ok := CopyFile(Work(src), Temp(temp), chunk, stop);
      }
      if ok && moveOk {
        disk.fs := disk.fs.Rename(Temp(temp), blob);
        assert disk.fs.names - {blob} == names;
        size := |disk.fs.data[disk.fs.names[blob]]|;
      } else {
        disk.fs := disk.fs.Unlink(Temp(temp));
        assert disk.fs.names == names;
        size := -1;
      }
    }
  }
}
