/** The control flow of the worker's message handler, `wrapped` around `handle`, as a machine over
    the effects it has. Every await that can fail or be cancelled is an event with its outcome. */
module Handler {
  import opened Basics
  import opened JobSpec

  datatype Validation = Valid | Invalid | ValidationRaised
  datatype Lookup = Hit | Miss | LookupRaised
  datatype Fetched = Items | NoItems | TimedOut | Transient | Fatal | FetchRaised

  datatype Event =
    | Unknown                            // no record for the message's job
    | Seen(status: Status)               // the record's status when the handler looks
    | Validated(v: Validation)
    | LookedUp(hit: Lookup)
    | Wrote(status: Status, code: string)
    | Published
    | MadeDir(ok: bool)
    | Downloaded(r: Fetched)
    | Stored(ok: bool)
    | Notified(ok: bool)
    | RemovedDir
    | Interrupted                        // CancelledError at a suspension point

  /** Where an exception would be caught: nowhere in `handle`, in its try around the work directory,
      or already in the last resort of `wrapped`. */
  datatype Scope = Plain | InDir | Outer

  datatype Exit = ToDone | ToCrash | ToDead

  datatype Pc =
    | Start | Checking | Looking | HitRunning | MissRunning | Making
    | Fetching(again: bool)              // the flag is transient_attempted
    | Storing
    | Marking(status: Status, code: string, scope: Scope)
    | Publishing(scope: Scope)
    | Notifying(scope: Scope)
    | Cleaning(exit: Exit)
    | Done
    | Dead                               // the exception or cancellation leaves `wrapped`

  /** Where an exception goes. */
  function Crash(scope: Scope): Pc {
    match scope
    case Plain => Marking(Failed, "INTERNAL", Outer)
    case InDir => Cleaning(ToCrash)
    case Outer => Dead
  }

  function Finished(scope: Scope): Pc {
    if scope == InDir then Cleaning(ToDone) else Done
  }

  function Killed(scope: Scope): Pc {
    if scope == InDir then Cleaning(ToDead) else Dead
  }

  /** The next control state, when the event is one the code can produce here. */
  function Next(pc: Pc, ev: Event): Option<Pc> {
    match (pc, ev)
    case (Start, Unknown) => Some(Done)
    case (Start, Seen(st)) => Some(if Terminal(st) then Done else Checking)
    case (Checking, Validated(Valid)) => Some(Looking)
    case (Checking, Validated(Invalid)) => Some(Marking(Failed, "UNSUPPORTED", Plain))
    case (Checking, Validated(ValidationRaised)) => Some(Crash(Plain))
    case (Looking, LookedUp(Hit)) => Some(HitRunning)
    case (Looking, LookedUp(Miss)) => Some(MissRunning)
    case (Looking, LookedUp(LookupRaised)) => Some(Crash(Plain))
    case (HitRunning, Wrote(RunningNow, _)) => Some(Marking(Succeeded, "", Plain))
    case (MissRunning, Wrote(RunningNow, _)) => Some(Making)
    case (Making, MadeDir(ok)) => Some(if ok then Fetching(false) else Crash(Plain))
    case (Fetching(again), Downloaded(r)) => Some(AfterFetch(again, r))
    case (Fetching(_), Interrupted) => Some(Killed(InDir))
    case (Storing, Stored(ok)) => Some(if ok then Marking(Succeeded, "", InDir) else Crash(InDir))
    case (Marking(st, code, scope), Wrote(st', code')) =>
      if st' == st && code' == code then Some(Publishing(scope)) else None
    case (Publishing(scope), Published) => Some(Notifying(scope))
    case (Notifying(scope), Notified(ok)) => Some(if ok then Finished(scope) else Crash(scope))
    case (Notifying(scope), Interrupted) => Some(Killed(scope))
    case (Cleaning(exit), RemovedDir) =>
      Some(match exit case ToDone => Done case ToCrash => Crash(Plain) case ToDead => Dead)
    case _ => None
  }

  function AfterFetch(again: bool, r: Fetched): Pc {
    match r
    case Items => Storing
    case NoItems => Crash(InDir)
    case TimedOut => Marking(Failed, "TIMEOUT", InDir)
    case Transient => if again then Marking(Failed, "DOWNLOADER_ERROR", InDir) else Fetching(true)
    case Fatal => Marking(Failed, "UNSUPPORTED", InDir)
    case FetchRaised => Crash(InDir)
  }

  function Follow(pc: Pc, trace: seq<Event>): Option<Pc>
    decreases |trace|
  {
    if trace == [] then Some(pc)
    else
      var next := Next(pc, trace[0]);
      if next.None? then None else Follow(next.value, trace[1..])
  }

  function Count(trace: seq<Event>, p: Event -> bool): nat {
    if trace == [] then 0 else (if p(trace[0]) then 1 else 0) + Count(trace[1..], p)
  }

  function TerminalWrites(trace: seq<Event>): nat {
    Count(trace, (e: Event) => e.Wrote? && Terminal(e.status))
  }

  function Publishes(trace: seq<Event>): nat {
    Count(trace, (e: Event) => e.Published?)
  }

  function Notices(trace: seq<Event>): nat {
    Count(trace, (e: Event) => e.Notified?)
  }

  function Downloads(trace: seq<Event>): nat {
    Count(trace, (e: Event) => e.Downloaded?)
  }

  function DirsMade(trace: seq<Event>): nat {
    Count(trace, (e: Event) => e == MadeDir(true))
  }

  function DirsRemoved(trace: seq<Event>): nat {
    Count(trace, (e: Event) => e.RemovedDir?)
  }

  /** The statuses a trace writes into the job's record, in order. */
  function Writes(trace: seq<Event>): seq<Status> {
    if trace == [] then []
    else if trace[0].Wrote? then [trace[0].status] + Writes(trace[1..])
    else Writes(trace[1..])
  }

  predicate Over(pc: Pc) {
    pc.Done? || pc.Dead?
  }

  predicate NeverInterrupted(trace: seq<Event>) {
    Interrupted !in trace
  }

  predicate NotifierWorks(trace: seq<Event>) {
    Notified(false) !in trace
  }

  predicate HoldsDir(pc: Pc) {
    match pc
    case Fetching(_) => true
    case Storing => true
    case Marking(_, _, scope) => scope == InDir
    case Publishing(scope) => scope == InDir
    case Notifying(scope) => scope == InDir
    case Cleaning(_) => true
    case _ => false
  }

  function DownloadsLeft(pc: Pc): nat {
    match pc
    case Fetching(again) => if again then 1 else 2
    case Storing => 0
    case Marking(_, _, _) => 0
    case Publishing(_) => 0
    case Notifying(_) => 0
    case Cleaning(_) => 0
    case Done => 0
    case Dead => 0
    case _ => 2
  }

  function One(b: bool): nat {
    if b then 1 else 0
  }

  lemma NextCleans(pc: Pc, ev: Event)
    requires Next(pc, ev).Some?
    ensures var next := Next(pc, ev).value;
      && One(ev.RemovedDir?) + One(HoldsDir(next)) == One(ev == MadeDir(true)) + One(HoldsDir(pc))
      && One(ev.Downloaded?) + DownloadsLeft(next) <= DownloadsLeft(pc)
  {
  }

  lemma CountsHead(trace: seq<Event>)
    requires trace != []
    ensures TerminalWrites(trace) == One(trace[0].Wrote? && Terminal(trace[0].status)) + TerminalWrites(trace[1..])
    ensures Publishes(trace) == One(trace[0].Published?) + Publishes(trace[1..])
    ensures Notices(trace) == One(trace[0].Notified?) + Notices(trace[1..])
    ensures Downloads(trace) == One(trace[0].Downloaded?) + Downloads(trace[1..])
    ensures DirsMade(trace) == One(trace[0] == MadeDir(true)) + DirsMade(trace[1..])
    ensures DirsRemoved(trace) == One(trace[0].RemovedDir?) + DirsRemoved(trace[1..])
  {
  }

  /** However the handler ends, it removed every work directory it made, and asked the downloader at
      most twice. */
  lemma {:induction false} CleansUp(pc: Pc, trace: seq<Event>)
    requires var end := Follow(pc, trace); end.Some? && Over(end.value)
    ensures DirsRemoved(trace) == DirsMade(trace) + if HoldsDir(pc) then 1 else 0
    ensures Downloads(trace) <= DownloadsLeft(pc)
    decreases |trace|
  {
    if trace != [] {
      NextCleans(pc, trace[0]);
      CountsHead(trace);
      CleansUp(Next(pc, trace[0]).value, trace[1..]);
    }
  }

  /** The states in which the terminal write of the message's own outcome is still to come. */
  predicate BeforeWrite(pc: Pc) {
    match pc
    case Publishing(_) => false
    case Notifying(_) => false
    case Cleaning(exit) => exit == ToCrash
    case Done => false
    case Dead => false
    case _ => true
  }

  predicate BeforePublish(pc: Pc) {
    BeforeWrite(pc) || pc.Publishing?
  }

  predicate BeforeNotice(pc: Pc) {
    BeforePublish(pc) || pc.Notifying?
  }

  /** The handler only ever plans terminal writes, and INTERNAL ones in its last resort. */
  predicate Proper(pc: Pc) {
    pc.Marking? ==> Terminal(pc.status) && (pc.scope == Outer ==> pc.status == Failed && pc.code == "INTERNAL")
  }

  predicate InLastResort(pc: Pc) {
    match pc
    case Marking(_, _, scope) => scope == Outer
    case Publishing(scope) => scope == Outer
    case Notifying(scope) => scope == Outer
    case Cleaning(exit) => exit == ToCrash
    case _ => false
  }

  /** A state of a handler that passed the guard and was not interrupted. */
  ghost predicate OnCourse(pc: Pc) {
    pc != Start && Proper(pc) && !(pc.Cleaning? && pc.exit == ToDead)
  }

  /** A failed notice outside the last resort makes `wrapped` write once more. */
  predicate Rescues(pc: Pc, ev: Event) {
    ev == Notified(false) && !InLastResort(pc)
  }

  /** What one event does to the terminal write that is still to come. */
  lemma NextWrites(pc: Pc, ev: Event)
    requires OnCourse(pc) && ev != Interrupted && Next(pc, ev).Some?
    ensures var next := Next(pc, ev).value;
      && OnCourse(next)
      && (Rescues(pc, ev) ==> InLastResort(next) && BeforeWrite(next) && !BeforeWrite(pc))
      && (!Rescues(pc, ev) ==>
            One(BeforeWrite(pc)) == One(ev.Wrote? && Terminal(ev.status)) + One(BeforeWrite(next)))
  {
  }

  lemma NextNotices(pc: Pc, ev: Event)
    requires OnCourse(pc) && ev != Interrupted && ev != Notified(false) && Next(pc, ev).Some?
    ensures var next := Next(pc, ev).value;
      && One(BeforePublish(pc)) == One(ev.Published?) + One(BeforePublish(next))
      && One(BeforeNotice(pc)) == One(ev.Notified?) + One(BeforeNotice(next))
  {
  }

  lemma {:induction false} OneOutcome(pc: Pc, trace: seq<Event>)
    requires OnCourse(pc)
    requires var end := Follow(pc, trace); end.Some? && Over(end.value)
    requires NeverInterrupted(trace) && NotifierWorks(trace)
    ensures TerminalWrites(trace) == One(BeforeWrite(pc))
    ensures Publishes(trace) == One(BeforePublish(pc))
    ensures Notices(trace) == One(BeforeNotice(pc))
    decreases |trace|
  {
    if trace != [] {
      assert trace[0] in trace;
      assert forall e :: e in trace[1..] ==> e in trace;
      NextWrites(pc, trace[0]);
      NextNotices(pc, trace[0]);
      CountsHead(trace);
      OneOutcome(Next(pc, trace[0]).value, trace[1..]);
    }
  }

  /** The writes still possible from a state, when nothing interferes. */
  predicate WritesFrom(pc: Pc, w: seq<Status>) {
    match pc
    case Start => w == []
    case Checking => w == [Failed] || w == [RunningNow, Succeeded] || w == [RunningNow, Failed]
    case Looking => w == [Failed] || w == [RunningNow, Succeeded] || w == [RunningNow, Failed]
    case HitRunning => w == [RunningNow, Succeeded]
    case MissRunning => w == [RunningNow, Succeeded] || w == [RunningNow, Failed]
    case Marking(status, _, _) => w == [status]
    case Publishing(_) => w == []
    case Notifying(_) => w == []
    case Cleaning(exit) => w == if exit == ToCrash then [Failed] else []
    case Done => w == []
    case Dead => w == []
    case _ => w == [Succeeded] || w == [Failed]
  }

  lemma NextTrace(pc: Pc, ev: Event, w: seq<Status>)
    requires OnCourse(pc) && ev != Interrupted && ev != Notified(false) && Next(pc, ev).Some?
    requires WritesFrom(Next(pc, ev).value, w)
    ensures WritesFrom(pc, if ev.Wrote? then [ev.status] + w else w)
  {
  }

  lemma {:induction false} WritesFromHere(pc: Pc, trace: seq<Event>)
    requires OnCourse(pc)
    requires var end := Follow(pc, trace); end.Some? && Over(end.value)
    requires NeverInterrupted(trace) && NotifierWorks(trace)
    ensures WritesFrom(pc, Writes(trace))
    decreases |trace|
  {
    if trace != [] {
      assert trace[0] in trace;
      assert forall e :: e in trace[1..] ==> e in trace;
      NextWrites(pc, trace[0]);
      WritesFromHere(Next(pc, trace[0]).value, trace[1..]);
      NextTrace(pc, trace[0], Writes(trace[1..]));
      assert Writes(trace) == if trace[0].Wrote? then [trace[0].status] + Writes(trace[1..]) else Writes(trace[1..]);
    }
  }

  /** For a known, unfinished job, with a notifier that works and no cancellation, the handler ends
      normally with one terminal write, one publish and one notice, having moved the record straight
      to failed, or through running to succeeded or failed. */
  lemma HandlerOutcome(trace: seq<Event>, status: Status)
    requires trace != [] && trace[0] == Seen(status) && !Terminal(status)
    requires var end := Follow(Start, trace); end.Some? && Over(end.value)
    requires NeverInterrupted(trace) && NotifierWorks(trace)
    ensures TerminalWrites(trace) == 1 && Publishes(trace) == 1 && Notices(trace) == 1
    ensures var w := Writes(trace); w == [Failed] || w == [RunningNow, Succeeded] || w == [RunningNow, Failed]
    ensures Downloads(trace) <= 2 && DirsRemoved(trace) == DirsMade(trace)
    ensures Follow(Start, trace) == Some(Done)
  {
    var rest := trace[1..];
    assert forall e :: e in rest ==> e in trace;
    assert Follow(Start, trace) == Follow(Checking, rest);
    CountsHead(trace);
    assert Writes(trace) == Writes(rest);
    OneOutcome(Checking, rest);
    WritesFromHere(Checking, rest);
    CleansUp(Checking, rest);
    EndsWell(Checking, rest);
  }

  lemma {:induction false} EndsWell(pc: Pc, trace: seq<Event>)
    requires var end := Follow(pc, trace); end.Some? && Over(end.value)
    requires NeverInterrupted(trace) && NotifierWorks(trace)
    requires pc != Dead && !(pc.Cleaning? && pc.exit == ToDead)
    ensures Follow(pc, trace) == Some(Done)
    decreases |trace|
  {
    if trace != [] {
      assert trace[0] in trace;
      assert forall e :: e in trace[1..] ==> e in trace;
      EndsWell(Next(pc, trace[0]).value, trace[1..]);
    }
  }

  /** Redelivery of a finished or unknown job has no effect at all. */
  lemma RedeliveryIsSilent(trace: seq<Event>)
    requires trace != [] && (trace[0] == Unknown || (trace[0].Seen? && Terminal(trace[0].status)))
    requires Follow(Start, trace).Some?
    ensures |trace| == 1 && Follow(Start, trace) == Some(Done)
  {
  }

  // ---- A notifier that raises ----

  /** The failed notices that make `wrapped` write once more: those outside its last resort. */
  function Rescued(pc: Pc, trace: seq<Event>): nat
    decreases |trace|
  {
    if trace == [] || Next(pc, trace[0]).None? then 0
    else One(Rescues(pc, trace[0])) + Rescued(Next(pc, trace[0]).value, trace[1..])
  }

  function WriteEvents(trace: seq<Event>): seq<Event> {
    if trace == [] then []
    else if trace[0].Wrote? then [trace[0]] + WriteEvents(trace[1..])
    else WriteEvents(trace[1..])
  }

  /** From the last resort on, exactly one more write is possible: failed with code INTERNAL. */
  lemma {:induction false} LastResort(pc: Pc, trace: seq<Event>)
    requires InLastResort(pc) || Over(pc)
    requires Proper(pc)
    requires var end := Follow(pc, trace); end.Some? && Over(end.value)
    requires NeverInterrupted(trace)
    ensures WriteEvents(trace) == if BeforeWrite(pc) then [Wrote(Failed, "INTERNAL")] else []
    ensures Rescued(pc, trace) == 0
    decreases |trace|
  {
    if trace != [] {
      assert trace[0] in trace;
      assert forall e :: e in trace[1..] ==> e in trace;
      LastResort(Next(pc, trace[0]).value, trace[1..]);
    }
  }

  lemma RescuedHead(pc: Pc, trace: seq<Event>)
    requires trace != [] && Next(pc, trace[0]).Some?
    ensures Rescued(pc, trace) == One(Rescues(pc, trace[0])) + Rescued(Next(pc, trace[0]).value, trace[1..])
    ensures WriteEvents(trace) ==
      if trace[0].Wrote? then [trace[0]] + WriteEvents(trace[1..]) else WriteEvents(trace[1..])
  {
  }

  /** One event of a handler whose notifier may raise, given what the rest of the trace does. */
  lemma RaisingStep(pc: Pc, trace: seq<Event>)
    requires OnCourse(pc) && trace != [] && NeverInterrupted(trace) && Next(pc, trace[0]).Some?
    requires var end := Follow(pc, trace); end.Some? && Over(end.value)
    requires var next, rest := Next(pc, trace[0]).value, trace[1..];
      TerminalWrites(rest) == One(BeforeWrite(next)) + Rescued(next, rest) && Rescued(next, rest) <= 1
    ensures TerminalWrites(trace) == One(BeforeWrite(pc)) + Rescued(pc, trace) && Rescued(pc, trace) <= 1
    ensures Rescues(pc, trace[0]) ==> WriteEvents(trace) == [Wrote(Failed, "INTERNAL")]
  {
    var next, rest := Next(pc, trace[0]).value, trace[1..];
    assert trace[0] in trace;
    assert forall e :: e in rest ==> e in trace;
    NextWrites(pc, trace[0]);
    CountsHead(trace);
    RescuedHead(pc, trace);
    if Rescues(pc, trace[0]) {
      LastResort(next, rest);
    }
  }

  /** When the notifier raises, the only extra transition is terminal to failed/INTERNAL: the terminal
      writes are the message's own one, followed by that one exactly when a notice of the handler
      itself raised. */
  lemma {:induction false} RaisingNotifier(pc: Pc, trace: seq<Event>)
    requires OnCourse(pc)
    requires var end := Follow(pc, trace); end.Some? && Over(end.value)
    requires NeverInterrupted(trace)
    ensures TerminalWrites(trace) == One(BeforeWrite(pc)) + Rescued(pc, trace)
    ensures Rescued(pc, trace) <= 1
    ensures Rescued(pc, trace) == 1 ==>
      var w := WriteEvents(trace); w != [] && w[|w| - 1] == Wrote(Failed, "INTERNAL")
    decreases |trace|
  {
    if trace != [] {
      var next, rest := Next(pc, trace[0]).value, trace[1..];
      assert OnCourse(next) && NeverInterrupted(rest) by {
        assert trace[0] in trace;
        assert forall e :: e in rest ==> e in trace;
        NextWrites(pc, trace[0]);
      }
      RaisingNotifier(next, rest);
      RaisingStep(pc, trace);
      RescuedHead(pc, trace);
    }
  }

  lemma {:induction false} WritesMatch(trace: seq<Event>)
    ensures |Writes(trace)| == |WriteEvents(trace)|
    ensures forall i :: 0 <= i < |Writes(trace)| ==>
      WriteEvents(trace)[i].Wrote? && WriteEvents(trace)[i].status == Writes(trace)[i]
  {
    if trace != [] {
      WritesMatch(trace[1..]);
    }
  }

  /** What is written once a notice raised: failed with code INTERNAL, if the notice was the handler's
      own, and nothing if it was the one of the last resort. */
  lemma WritesAfterRaise(pc: Pc, trace: seq<Event>)
    requires OnCourse(pc) && trace != [] && trace[0] == Notified(false) && NeverInterrupted(trace)
    requires var end := Follow(pc, trace); end.Some? && Over(end.value)
    ensures Writes(trace) == if Rescues(pc, trace[0]) then [Failed] else []
    ensures Rescued(pc, trace) == One(Rescues(pc, trace[0]))
  {
    var next, rest := Next(pc, trace[0]).value, trace[1..];
    assert forall e :: e in rest ==> e in trace;
    NextWrites(pc, trace[0]);
    RescuedHead(pc, trace);
    LastResort(next, rest);
    WritesMatch(rest);
    assert Writes(trace) == Writes(rest);
    if Rescues(pc, trace[0]) {
      assert Writes(rest) == [Failed];
    } else {
      assert next == Dead;
    }
  }

  /** The whole sequence of writes with a notifier that may raise: one that is possible without, and then
      failed once more if the handler's own notice raised. */
  lemma {:induction false} RaisingWrites(pc: Pc, trace: seq<Event>) returns (own: seq<Status>)
    requires OnCourse(pc)
    requires var end := Follow(pc, trace); end.Some? && Over(end.value)
    requires NeverInterrupted(trace)
    ensures WritesFrom(pc, own)
    ensures Writes(trace) == if Rescued(pc, trace) == 1 then own + [Failed] else own
    decreases |trace|
  {
    if trace == [] {
      own := [];
    } else if trace[0] == Notified(false) {
      WritesAfterRaise(pc, trace);
      own := [];
      assert own + [Failed] == [Failed];
    } else {
      var next, rest := Next(pc, trace[0]).value, trace[1..];
      assert OnCourse(next) && NeverInterrupted(rest) && trace[0] != Interrupted by {
        assert trace[0] in trace;
        assert forall e :: e in rest ==> e in trace;
        NextWrites(pc, trace[0]);
      }
      var later := RaisingWrites(next, rest);
      NextTrace(pc, trace[0], later);
      RescuedHead(pc, trace);
      own := if trace[0].Wrote? then [trace[0].status] + later else later;
      assert trace[0].Wrote? ==> [trace[0].status] + (later + [Failed]) == own + [Failed];
    }
  }

  lemma RaisingSequence(trace: seq<Event>, status: Status)
    requires trace != [] && trace[0] == Seen(status) && !Terminal(status)
    requires var end := Follow(Start, trace); end.Some? && Over(end.value)
    requires NeverInterrupted(trace)
    ensures Rescued(Start, trace) != 1 ==>
      Writes(trace) in {[Failed], [RunningNow, Succeeded], [RunningNow, Failed]}
    ensures Rescued(Start, trace) == 1 ==>
      Writes(trace) in {[Failed, Failed], [RunningNow, Succeeded, Failed], [RunningNow, Failed, Failed]}
  {
    var rest := trace[1..];
    assert NeverInterrupted(rest) by {
      assert forall e :: e in rest ==> e in trace;
    }
    RescuedHead(Start, trace);
    var own := RaisingWrites(Checking, rest);
    assert Writes(trace) == Writes(rest);
    assert [Failed] + [Failed] == [Failed, Failed];
    assert [RunningNow, Succeeded] + [Failed] == [RunningNow, Succeeded, Failed];
    assert [RunningNow, Failed] + [Failed] == [RunningNow, Failed, Failed];
  }

  /** The same for a whole message: the writes are failed, or running and then succeeded or failed; and
      failed with code INTERNAL after them exactly when the handler's own notice raised. */
  lemma RaisingOutcome(trace: seq<Event>, status: Status)
    requires trace != [] && trace[0] == Seen(status) && !Terminal(status)
    requires var end := Follow(Start, trace); end.Some? && Over(end.value)
    requires NeverInterrupted(trace)
    ensures Rescued(Start, trace) <= 1
    ensures Rescued(Start, trace) == 0 ==>
      Writes(trace) in {[Failed], [RunningNow, Succeeded], [RunningNow, Failed]}
    ensures Rescued(Start, trace) == 1 ==>
      && Writes(trace) in {[Failed, Failed], [RunningNow, Succeeded, Failed], [RunningNow, Failed, Failed]}
      && var w := WriteEvents(trace); w != [] && w[|w| - 1] == Wrote(Failed, "INTERNAL")
    ensures TerminalWrites(trace) == 1 + Rescued(Start, trace)
    ensures Downloads(trace) <= 2 && DirsRemoved(trace) == DirsMade(trace)
  {
    var rest := trace[1..];
    RaisingSequence(trace, status);
    assert NeverInterrupted(rest) by {
      assert forall e :: e in rest ==> e in trace;
    }
    CountsHead(trace);
    RescuedHead(Start, trace);
    RaisingNotifier(Checking, rest);
    CleansUp(Checking, rest);
  }

  lemma Leads(pc: Pc, ev: Event, rest: seq<Event>)
    requires Next(pc, ev).Some? && ev != Interrupted
    ensures Follow(pc, [ev] + rest) == Follow(Next(pc, ev).value, rest)
    ensures WriteEvents([ev] + rest) == if ev.Wrote? then [ev] + WriteEvents(rest) else WriteEvents(rest)
    ensures NeverInterrupted(rest) ==> NeverInterrupted([ev] + rest)
  {
    assert ([ev] + rest)[1..] == rest;
  }

  lemma NoTrace(pc: Pc)
    ensures Follow(pc, []) == Some(pc) && WriteEvents([]) == [] && NeverInterrupted([])
  {
  }

  lemma LastResortTrace() returns (trace: seq<Event>)
    ensures Follow(Notifying(Plain), trace) == Some(Done) && NeverInterrupted(trace)
    ensures WriteEvents(trace) == [Wrote(Failed, "INTERNAL")]
  {
    hide Follow;
    hide WriteEvents;
    hide NeverInterrupted;
    NoTrace(Done);
    var told := [Notified(true)] + [];
    Leads(Notifying(Outer), Notified(true), []);
    var published := [Published] + told;
    Leads(Publishing(Outer), Published, told);
    var failed := [Wrote(Failed, "INTERNAL")] + published;
    Leads(Marking(Failed, "INTERNAL", Outer), Wrote(Failed, "INTERNAL"), published);
    trace := [Notified(false)] + failed;
    Leads(Notifying(Plain), Notified(false), failed);
  }

  lemma HitTrace() returns (trace: seq<Event>)
    ensures Follow(HitRunning, trace) == Some(Done) && NeverInterrupted(trace)
    ensures WriteEvents(trace) == [Wrote(RunningNow, ""), Wrote(Succeeded, ""), Wrote(Failed, "INTERNAL")]
  {
    hide Follow;
    hide WriteEvents;
    hide NeverInterrupted;
    var raised := LastResortTrace();
    var published := [Published] + raised;
    Leads(Publishing(Plain), Published, raised);
    var succeeded := [Wrote(Succeeded, "")] + published;
    Leads(Marking(Succeeded, "", Plain), Wrote(Succeeded, ""), published);
    trace := [Wrote(RunningNow, "")] + succeeded;
    Leads(HitRunning, Wrote(RunningNow, ""), succeeded);
  }

  /** A message whose job is served from the cache and marked succeeded; its notice raises, and the job is
      marked failed. */
  lemma SucceededThenFailed() returns (trace: seq<Event>)
    ensures trace != [] && trace[0] == Seen(Queued) && NeverInterrupted(trace) && Follow(Start, trace) == Some(Done)
    ensures WriteEvents(trace) == [Wrote(RunningNow, ""), Wrote(Succeeded, ""), Wrote(Failed, "INTERNAL")]
  {
    hide Follow;
    hide WriteEvents;
    hide NeverInterrupted;
    var served := HitTrace();
    var found := [LookedUp(Hit)] + served;
    Leads(Looking, LookedUp(Hit), served);
    var checked := [Validated(Valid)] + found;
    Leads(Checking, Validated(Valid), found);
    trace := [Seen(Queued)] + checked;
    Leads(Start, Seen(Queued), checked);
  }

  // ---- When the consumer dies ----

  /** The task is cancelled, or the notice of the last resort raises. */
  predicate Kills(pc: Pc, ev: Event) {
    ev == Interrupted || (ev == Notified(false) && pc == Notifying(Outer))
  }

  predicate KilledIn(pc: Pc, trace: seq<Event>)
    decreases |trace|
  {
    && trace != []
    && (Kills(pc, trace[0]) || (Next(pc, trace[0]).Some? && KilledIn(Next(pc, trace[0]).value, trace[1..])))
  }

  predicate Dying(pc: Pc) {
    pc == Dead || pc == Cleaning(ToDead)
  }

  lemma NextDies(pc: Pc, ev: Event)
    requires !Dying(pc) && Next(pc, ev).Some?
    ensures Dying(Next(pc, ev).value) <==> Kills(pc, ev)
  {
  }

  lemma {:induction false} DyingDies(pc: Pc, trace: seq<Event>)
    requires Dying(pc)
    requires var end := Follow(pc, trace); end.Some? && Over(end.value)
    ensures Follow(pc, trace) == Some(Dead)
    decreases |trace|
  {
    if trace != [] {
      DyingDies(Next(pc, trace[0]).value, trace[1..]);
    }
  }

  /** Exactly when an exception or a cancellation leaves `wrapped` and ends the consumer: the task was
      cancelled at one of its awaits, or the notice of the last resort raised. */
  lemma {:induction false} DiesExactly(pc: Pc, trace: seq<Event>)
    requires !Dying(pc)
    requires var end := Follow(pc, trace); end.Some? && Over(end.value)
    ensures Follow(pc, trace) == Some(Dead) <==> KilledIn(pc, trace)
    decreases |trace|
  {
    if trace != [] {
      var next := Next(pc, trace[0]).value;
      NextDies(pc, trace[0]);
      if Dying(next) {
        DyingDies(next, trace[1..]);
      } else {
        DiesExactly(next, trace[1..]);
      }
    }
  }

  // ---- What a trace does to the jobs ----

  /** The records, the memory of finished jobs, and the jobs with a registered future. */
  datatype World = World(repo: Repo, memory: OrderedDict.Dict<JobId, JobRecord>, waiting: set<JobId>)

  function Effect(w: World, job: JobId, max: int, ev: Event): World
    requires w.memory.Valid()
  {
    match ev
    case Wrote(status, code) => w.(repo := Save(w.repo, job, status, code))
    case Published =>
      if job in w.repo.vals then w.(memory := Remember(w.memory, w.repo.vals[job], max).0, waiting := w.waiting - {job})
      else w
    case _ => w
  }

  function Replay(w: World, job: JobId, max: int, trace: seq<Event>): (r: World)
    requires w.memory.Valid()
    ensures r.memory.Valid()
    decreases |trace|
  {
    if trace == [] then w
    else
      EffectValid(w, job, max, trace[0]);
      Replay(Effect(w, job, max, trace[0]), job, max, trace[1..])
  }

  lemma EffectValid(w: World, job: JobId, max: int, ev: Event)
    requires w.memory.Valid()
    ensures Effect(w, job, max, ev).memory.Valid()
  {
    if job in w.repo.vals {
      RememberShrinks(w.memory, w.repo.vals[job], max);
    }
  }

  /** The last of the written statuses, or the one before them. */
  function LastWrite(writes: seq<Status>, before: Status): Status {
    if writes == [] then before else writes[|writes| - 1]
  }

  /** The record ends with the last status written, no other record changes, and a publish leaves
      nobody registered for the job. */
  lemma {:induction false} TraceDecides(w: World, job: JobId, max: int, trace: seq<Event>)
    requires w.memory.Valid() && w.repo.Valid() && job in w.repo.vals
    ensures var after := Replay(w, job, max, trace);
      && after.repo.keys == w.repo.keys && after.repo.vals.Keys == w.repo.vals.Keys
      && after.repo.vals[job].status == LastWrite(Writes(trace), w.repo.vals[job].status)
      && (forall k :: k in w.repo.vals && k != job ==> after.repo.vals[k] == w.repo.vals[k])
      && after.waiting == if Publishes(trace) > 0 then w.waiting - {job} else w.waiting
    decreases |trace|
  {
    if trace != [] {
      EffectValid(w, job, max, trace[0]);
      CountsHead(trace);
      var next := Effect(w, job, max, trace[0]);
      TraceDecides(next, job, max, trace[1..]);
      assert Writes(trace) == if trace[0].Wrote? then [trace[0].status] + Writes(trace[1..]) else Writes(trace[1..]);
    }
  }

  /** What a message does to the jobs, with a notifier that works and no cancellation: its unfinished
      job ends finished, whoever was registered for it is woken, and no other record changes. A
      message for a finished or unknown job changes nothing. */
  lemma MessageSettlesItsJob(w: World, job: JobId, max: int, trace: seq<Event>)
    requires w.memory.Valid() && w.repo.Valid() && trace != []
    requires trace[0] == if job in w.repo.vals then Seen(w.repo.vals[job].status) else Unknown
    requires var end := Follow(Start, trace); end.Some? && Over(end.value)
    requires NeverInterrupted(trace) && NotifierWorks(trace)
    ensures var after := Replay(w, job, max, trace);
      if job in w.repo.vals && !Terminal(w.repo.vals[job].status) then
        && after.repo.vals.Keys == w.repo.vals.Keys
        && Terminal(after.repo.vals[job].status)
        && after.waiting == w.waiting - {job}
        && (forall k :: k in w.repo.vals && k != job ==> after.repo.vals[k] == w.repo.vals[k])
      else after == w
  {
    if job in w.repo.vals && !Terminal(w.repo.vals[job].status) {
      HandlerOutcome(trace, w.repo.vals[job].status);
      TraceDecides(w, job, max, trace);
    } else {
      RedeliveryIsSilent(trace);
      NoEffect(w, job, max, trace);
    }
  }

  /** Two stretches of the handler, one after the other. */
  lemma {:induction false} Compose(pc: Pc, mid: Pc, w: World, job: JobId, max: int, a: seq<Event>, b: seq<Event>)
    requires w.memory.Valid() && Follow(pc, a) == Some(mid)
    ensures Follow(pc, a + b) == Follow(mid, b)
    ensures Replay(w, job, max, a + b) == Replay(Replay(w, job, max, a), job, max, b)
    decreases |a|
  {
    if a == [] {
      assert a + b == b;
    } else {
      assert (a + b)[1..] == a[1..] + b;
      EffectValid(w, job, max, a[0]);
      Compose(Next(pc, a[0]).value, mid, Effect(w, job, max, a[0]), job, max, a[1..], b);
    }
  }

  /** A stretch that starts with one event. */
  lemma Prepend(pc: Pc, w: World, job: JobId, max: int, ev: Event, b: seq<Event>)
    requires w.memory.Valid() && Next(pc, ev).Some?
    ensures Follow(pc, [ev] + b) == Follow(Next(pc, ev).value, b)
    ensures Effect(w, job, max, ev).memory.Valid()
    ensures Replay(w, job, max, [ev] + b) == Replay(Effect(w, job, max, ev), job, max, b)
  {
    assert ([ev] + b)[1..] == b;
    EffectValid(w, job, max, ev);
  }

  /** The world after a mark_*: the record saved, then published. */
  function Saved(w: World, job: JobId, max: int, status: Status, code: string): World
    requires w.memory.Valid()
  {
    Effect(Effect(w, job, max, Wrote(status, code)), job, max, Published)
  }

  lemma {:induction false} NoEffect(w: World, job: JobId, max: int, trace: seq<Event>)
    requires w.memory.Valid()
    requires forall e :: e in trace ==> !e.Wrote? && !e.Published?
    ensures Replay(w, job, max, trace) == w
    decreases |trace|
  {
    if trace != [] {
      assert trace[0] in trace;
      assert forall e :: e in trace[1..] ==> e in trace;
      NoEffect(w, job, max, trace[1..]);
    }
  }

  datatype Ending = Returned | Raised | Cancelled

  /** Where the code after a stretch in `scope` goes on. */
  function Leaves(end: Ending, scope: Scope): Pc {
    match end
    case Returned => Finished(scope)
    case Raised => Crash(scope)
    case Cancelled => Killed(scope)
  }

  function NoticeEvent(end: Ending): Event {
    match end
    case Returned => Notified(true)
    case Raised => Notified(false)
    case Cancelled => Interrupted
  }

  lemma NothingDone(pc: Pc, w: World, job: JobId, max: int)
    requires w.memory.Valid()
    ensures Follow(pc, []) == Some(pc) && Replay(w, job, max, []) == w
  {
  }

  /** A mark_* call and its notification. */
  function ConcludeTrace(status: Status, code: string, end: Ending): seq<Event> {
    [Wrote(status, code)] + ([Published] + ([NoticeEvent(end)] + []))
  }

  lemma Append(log: seq<Event>, a: seq<Event>, b: seq<Event>)
    ensures log + a + b == log + (a + b)
  {
  }

  lemma ConcludeAppends(log: seq<Event>, status: Status, code: string, end: Ending)
    ensures log + [Wrote(status, code)] + [Published] + [NoticeEvent(end)] == log + ConcludeTrace(status, code, end)
  {
  }

  lemma ConcludeLeads(w: World, job: JobId, max: int, status: Status, code: string, scope: Scope, end: Ending)
    requires w.memory.Valid()
    ensures Next(Notifying(scope), NoticeEvent(end)) == Some(Leaves(end, scope))
    ensures Next(Publishing(scope), Published) == Some(Notifying(scope))
    ensures Next(Marking(status, code, scope), Wrote(status, code)) == Some(Publishing(scope))
    ensures Effect(w, job, max, Wrote(status, code)).memory.Valid()
    ensures Saved(w, job, max, status, code).memory.Valid()
    ensures Effect(Effect(w, job, max, Wrote(status, code)), job, max, Published) == Saved(w, job, max, status, code)
    ensures Effect(Saved(w, job, max, status, code), job, max, NoticeEvent(end)) == Saved(w, job, max, status, code)
  {
    EffectValid(w, job, max, Wrote(status, code));
    EffectValid(Effect(w, job, max, Wrote(status, code)), job, max, Published);
  }

  lemma ConcludeStretch(w: World, job: JobId, max: int, status: Status, code: string, scope: Scope, end: Ending)
    requires w.memory.Valid()
    ensures var trace := ConcludeTrace(status, code, end);
      && Follow(Marking(status, code, scope), trace) == Some(Leaves(end, scope))
      && Replay(w, job, max, trace) == Saved(w, job, max, status, code)
  {
    hide Follow;
    hide Replay;
    hide Next;
    hide Effect;
    hide Saved;
    hide Leaves;
    hide NoticeEvent;
    var marked, after := Effect(w, job, max, Wrote(status, code)), Saved(w, job, max, status, code);
    ConcludeLeads(w, job, max, status, code, scope, end);
    NothingDone(Leaves(end, scope), after, job, max);
    Prepend(Notifying(scope), after, job, max, NoticeEvent(end), []);
    Prepend(Publishing(scope), marked, job, max, Published, [NoticeEvent(end)] + []);
    Prepend(Marking(status, code, scope), w, job, max, Wrote(status, code), [Published] + ([NoticeEvent(end)] + []));
  }

  /** Where the downloader's answers lead. */
  lemma FetchLeads(again: bool, r: Fetched)
    ensures Next(Fetching(again), Downloaded(r)) == Some(AfterFetch(again, r))
    ensures Next(Fetching(again), Interrupted) == Some(Killed(InDir)) && Killed(InDir) == Cleaning(ToDead)
    ensures !(r.Transient? && !again) ==>
      var pc := AfterFetch(again, r);
      && (pc.Marking? || pc == Storing || pc == Cleaning(ToCrash))
      && (pc.Marking? ==> Terminal(pc.status) && pc.scope == InDir)
  {
  }

  lemma FetchStretch(again: bool, ev: Event)
    requires Next(Fetching(again), ev).Some?
    ensures Follow(Fetching(false), (if again then [Downloaded(Transient)] else []) + [ev]) == Next(Fetching(again), ev)
  {
    var head := if again then [Downloaded(Transient)] else [];
    assert (head + [ev])[|head|..] == [ev];
    assert Follow(Fetching(again), [ev]) == Next(Fetching(again), ev);
    if again {
      assert (head + [ev])[1..] == [ev];
    } else {
      assert head + [ev] == [ev];
    }
  }

  /** The stretch from making the work directory to removing it. */
  lemma DirStretch(w: World, job: JobId, max: int, inside: seq<Event>, end: Ending)
    requires w.memory.Valid() && Follow(Fetching(false), inside) == Some(Leaves(end, InDir))
    ensures var trace := [MadeDir(true)] + (inside + [RemovedDir]);
      && Follow(Making, trace) == Some(Leaves(end, Plain))
      && Replay(w, job, max, trace) == Replay(w, job, max, inside)
  {
    var after := Replay(w, job, max, inside);
    Prepend(Leaves(end, InDir), after, job, max, RemovedDir, []);
    assert [RemovedDir] + [] == [RemovedDir];
    Compose(Fetching(false), Leaves(end, InDir), w, job, max, inside, [RemovedDir]);
    Prepend(Making, w, job, max, MadeDir(true), inside + [RemovedDir]);
  }

  /** One more event at the end. */
  lemma {:induction false} DirsSnoc(trace: seq<Event>, ev: Event)
    ensures DirsMade(trace + [ev]) == DirsMade(trace) + One(ev == MadeDir(true))
    ensures DirsRemoved(trace + [ev]) == DirsRemoved(trace) + One(ev.RemovedDir?)
  {
    var more := trace + [ev];
    CountsHead(more);
    if trace == [] {
      assert more[1..] == [];
    } else {
      CountsHead(trace);
      assert more[1..] == trace[1..] + [ev];
      DirsSnoc(trace[1..], ev);
    }
  }
}
