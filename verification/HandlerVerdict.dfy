/** What becomes of a message, read off the answers the outside world gave. */
module HandlerVerdict {
  import opened Basics
  import opened Handler
  import opened JobSpec

  /** The downloader's last answer, if it was asked. */
  function LastAnswer(trace: seq<Event>): Option<Fetched> {
    if trace == [] then None
    else
      var rest := LastAnswer(trace[1..]);
      if rest.None? && trace[0].Downloaded? then Some(trace[0].r) else rest
  }

  /** The record's final status and error code. */
  function Verdict(trace: seq<Event>): (Status, string) {
    if LookedUp(Hit) in trace then (Succeeded, "")
    else if Validated(Invalid) in trace then (Failed, "UNSUPPORTED")
    else
      match LastAnswer(trace)
      case Some(Items) => if Stored(true) in trace then (Succeeded, "") else (Failed, "INTERNAL")
      case Some(TimedOut) => (Failed, "TIMEOUT")
      case Some(Transient) => (Failed, "DOWNLOADER_ERROR")
      case Some(Fatal) => (Failed, "UNSUPPORTED")
      case _ => (Failed, "INTERNAL")
  }

  /** The last status written, with its code. */
  function FinalWrite(trace: seq<Event>): Option<(Status, string)> {
    if trace == [] then None
    else
      var rest := FinalWrite(trace[1..]);
      if rest.None? && trace[0].Wrote? then Some((trace[0].status, trace[0].code)) else rest
  }

  function Transients(trace: seq<Event>): nat {
    if trace == [] then 0 else Transients(trace[1..]) + One(trace[0] == Downloaded(Transient))
  }

  predicate Ran(trace: seq<Event>) {
    trace != [] && ((trace[0].Wrote? && trace[0].status == RunningNow) || Ran(trace[1..]))
  }

  /** What the rest of a trace decides from each point of the handler. */
  ghost predicate DecidedFrom(pc: Pc, trace: seq<Event>) {
    match pc
    case Checking => FinalWrite(trace) == Some(Verdict(trace))
    case Looking => Validated(Invalid) !in trace && FinalWrite(trace) == Some(Verdict(trace))
    case HitRunning => FinalWrite(trace) == Some((Succeeded, "")) && Answerless(trace)
    case MissRunning => Entered(trace) && FinalWrite(trace) == Some(Verdict(trace))
    case Making => Entered(trace) && FinalWrite(trace) == Some(Verdict(trace))
    case Fetching(_) => Entered(trace) && LastAnswer(trace).Some? && FinalWrite(trace) == Some(Verdict(trace))
    case Storing =>
      Answerless(trace)
      && FinalWrite(trace) == Some(if Stored(true) in trace then (Succeeded, "") else (Failed, "INTERNAL"))
    case Marking(status, code, _) => Idle(trace) && FinalWrite(trace) == Some((status, code))
    case Cleaning(exit) =>
      Idle(trace) && FinalWrite(trace) == if exit == ToCrash then Some((Failed, "INTERNAL")) else None
    case _ => Idle(trace) && FinalWrite(trace) == None
  }

  /** Nothing is validated or looked up any more. */
  ghost predicate Entered(trace: seq<Event>) {
    forall e :: e in trace ==> !e.Validated? && !e.LookedUp?
  }

  ghost predicate Answerless(trace: seq<Event>) {
    Entered(trace) && forall e :: e in trace ==> !e.Downloaded?
  }

  /** Nor is anything stored. */
  ghost predicate Idle(trace: seq<Event>) {
    Answerless(trace) && forall e :: e in trace ==> !e.Stored?
  }

  lemma {:induction false} NoAnswer(trace: seq<Event>)
    requires forall e :: e in trace ==> !e.Downloaded?
    ensures LastAnswer(trace) == None
  {
    if trace != [] {
      assert trace[0] in trace;
      assert forall e :: e in trace[1..] ==> e in trace;
      NoAnswer(trace[1..]);
    }
  }

  /** What one event in front of a trace changes. */
  lemma Heads(ev: Event, rest: seq<Event>)
    ensures var trace := [ev] + rest;
      && (forall e :: e in trace <==> e == ev || e in rest)
      && FinalWrite(trace) ==
           (if FinalWrite(rest).None? && ev.Wrote? then Some((ev.status, ev.code)) else FinalWrite(rest))
      && LastAnswer(trace) == (if LastAnswer(rest).None? && ev.Downloaded? then Some(ev.r) else LastAnswer(rest))
      && Transients(trace) == Transients(rest) + One(ev == Downloaded(Transient))
      && Downloads(trace) == Downloads(rest) + One(ev.Downloaded?)
      && (Ran(trace) <==> (ev.Wrote? && ev.status == RunningNow) || Ran(rest))
  {
    assert ([ev] + rest)[1..] == rest;
    CountsHead([ev] + rest);
  }

  predicate Early(pc: Pc) {
    pc.Checking? || pc.Looking? || pc.HitRunning? || pc.MissRunning? || pc.Making?
  }

  lemma EarlyDecides(pc: Pc, ev: Event, rest: seq<Event>)
    requires Early(pc) && Next(pc, ev).Some? && DecidedFrom(Next(pc, ev).value, rest)
    ensures DecidedFrom(pc, [ev] + rest)
  {
    Heads(ev, rest);
    if forall e :: e in rest ==> !e.Downloaded? {
      NoAnswer(rest);
    }
  }

  lemma FetchDecides(pc: Pc, ev: Event, rest: seq<Event>)
    requires pc.Fetching? && ev != Interrupted && Next(pc, ev).Some? && DecidedFrom(Next(pc, ev).value, rest)
    ensures DecidedFrom(pc, [ev] + rest)
  {
    Heads(ev, rest);
    if forall e :: e in rest ==> !e.Downloaded? {
      NoAnswer(rest);
    }
  }

  lemma LateDecides(pc: Pc, ev: Event, rest: seq<Event>)
    requires !Early(pc) && !pc.Fetching? && OnCourse(pc)
    requires ev != Interrupted && ev != Notified(false) && Next(pc, ev).Some?
    requires DecidedFrom(Next(pc, ev).value, rest)
    ensures DecidedFrom(pc, [ev] + rest)
  {
    Heads(ev, rest);
  }

  lemma NextDecides(pc: Pc, ev: Event, rest: seq<Event>)
    requires OnCourse(pc) && ev != Interrupted && ev != Notified(false) && Next(pc, ev).Some?
    requires DecidedFrom(Next(pc, ev).value, rest)
    ensures DecidedFrom(pc, [ev] + rest)
  {
    hide *;
    if Early(pc) {
      EarlyDecides(pc, ev, rest);
    } else if pc.Fetching? {
      FetchDecides(pc, ev, rest);
    } else {
      LateDecides(pc, ev, rest);
    }
  }

  /** How often the downloader was asked, and whether the job was marked running, from each point of the
      handler. */
  ghost predicate CountedFrom(pc: Pc, trace: seq<Event>) {
    match pc
    case Checking => Asked(trace, 2) && OneReason(trace) && (Ran(trace) <==> Served(trace))
    case Looking => Asked(trace, 2) && OneReason(trace) && (Ran(trace) <==> Served(trace))
    case HitRunning => Unasked(trace) && Ran(trace)
    case MissRunning => Asked(trace, 2) && Ran(trace)
    case Making => Asked(trace, 2) && !Ran(trace)
    case Fetching(again) => Asked(trace, if again then 1 else 2) && LastAnswer(trace).Some? && !Ran(trace)
    case _ => Unasked(trace) && !Ran(trace)
  }

  ghost predicate Unasked(trace: seq<Event>) {
    LastAnswer(trace) == None && Transients(trace) == 0 && Downloads(trace) == 0
  }

  /** With so many tries left, only the last of them ends in a transient error, and a second try follows
      such an error only. */
  ghost predicate Asked(trace: seq<Event>, tries: nat) {
    && (LastAnswer(trace) == Some(Transient) <==> Transients(trace) == tries)
    && Transients(trace) <= tries
    && Downloads(trace) ==
      if LastAnswer(trace).None? then 0
      else if LastAnswer(trace) == Some(Transient) then Transients(trace)
      else Transients(trace) + 1
  }

  ghost predicate Served(trace: seq<Event>) {
    LookedUp(Hit) in trace || LookedUp(Miss) in trace
  }

  /** A cache hit, an invalid request and an answer of the downloader exclude each other. */
  ghost predicate OneReason(trace: seq<Event>) {
    && (LookedUp(Hit) in trace ==> Validated(Invalid) !in trace && LastAnswer(trace) == None)
    && (Validated(Invalid) in trace ==> LastAnswer(trace) == None)
  }

  lemma EarlyCounts(pc: Pc, ev: Event, rest: seq<Event>)
    requires Early(pc) && Next(pc, ev).Some?
    requires DecidedFrom(Next(pc, ev).value, rest) && CountedFrom(Next(pc, ev).value, rest)
    ensures CountedFrom(pc, [ev] + rest)
  {
    Heads(ev, rest);
  }

  lemma LateCounts(pc: Pc, ev: Event, rest: seq<Event>)
    requires !Early(pc) && OnCourse(pc) && ev != Interrupted && ev != Notified(false) && Next(pc, ev).Some?
    requires CountedFrom(Next(pc, ev).value, rest)
    ensures CountedFrom(pc, [ev] + rest)
  {
    Heads(ev, rest);
  }

  lemma NextCounts(pc: Pc, ev: Event, rest: seq<Event>)
    requires OnCourse(pc) && ev != Interrupted && ev != Notified(false) && Next(pc, ev).Some?
    requires DecidedFrom(Next(pc, ev).value, rest) && CountedFrom(Next(pc, ev).value, rest)
    ensures CountedFrom(pc, [ev] + rest)
  {
    hide *;
    if Early(pc) {
      EarlyCounts(pc, ev, rest);
    } else {
      LateCounts(pc, ev, rest);
    }
  }

  lemma {:induction false} Decides(pc: Pc, trace: seq<Event>)
    requires OnCourse(pc)
    requires var end := Follow(pc, trace); end.Some? && Over(end.value)
    requires NeverInterrupted(trace) && NotifierWorks(trace)
    ensures DecidedFrom(pc, trace) && CountedFrom(pc, trace)
    decreases |trace|
  {
    if trace != [] {
      assert trace[0] in trace;
      assert forall e :: e in trace[1..] ==> e in trace;
      NextWrites(pc, trace[0]);
      Decides(Next(pc, trace[0]).value, trace[1..]);
      NextDecides(pc, trace[0], trace[1..]);
      NextCounts(pc, trace[0], trace[1..]);
      assert [trace[0]] + trace[1..] == trace;
    }
  }

  /** Exactly how a message ends whose job was queued or running, with a notifier that works and no
      cancellation. It succeeds if and only if the cache had the file, or the downloader's last answer was
      an item and storing it worked. Otherwise it fails: with TIMEOUT exactly when the last answer was a
      time-out, with DOWNLOADER_ERROR exactly after a second transient error, with UNSUPPORTED exactly for
      an invalid request or a fatal error, and with INTERNAL in all other cases. */
  lemma VerdictExactly(trace: seq<Event>)
    requires trace != [] && trace[0] in {Seen(Queued), Seen(RunningNow)}
    requires var end := Follow(Start, trace); end.Some? && Over(end.value)
    requires NeverInterrupted(trace) && NotifierWorks(trace)
    ensures FinalWrite(trace) == Some(Verdict(trace))
    ensures var (status, code) := Verdict(trace);
      && (status == Succeeded <==>
            LookedUp(Hit) in trace || (LastAnswer(trace) == Some(Items) && Stored(true) in trace))
      && (status != Succeeded ==> status == Failed)
      && ((status, code) == (Failed, "TIMEOUT") <==> LastAnswer(trace) == Some(TimedOut))
      && ((status, code) == (Failed, "DOWNLOADER_ERROR") <==> Transients(trace) == 2)
      && ((status, code) == (Failed, "UNSUPPORTED") <==>
            Validated(Invalid) in trace || LastAnswer(trace) == Some(Fatal))
      && (status == Failed ==> code in {"TIMEOUT", "DOWNLOADER_ERROR", "UNSUPPORTED", "INTERNAL"})
  {
    Passed(trace);
    assert "TIMEOUT"[0] == 'T' && "DOWNLOADER_ERROR"[0] == 'D' && "UNSUPPORTED"[0] == 'U' && "INTERNAL"[0] == 'I';
  }

  /** The guard has let the message pass; seeing the record decides nothing. */
  lemma Passed(trace: seq<Event>)
    requires trace != [] && trace[0] in {Seen(Queued), Seen(RunningNow)}
    requires var end := Follow(Start, trace); end.Some? && Over(end.value)
    requires NeverInterrupted(trace) && NotifierWorks(trace)
    ensures FinalWrite(trace) == Some(Verdict(trace)) && Asked(trace, 2) && OneReason(trace)
    ensures Ran(trace) <==> Served(trace)
  {
    FromChecking(trace);
    hide Follow;
    hide Next;
    SeeingDecidesNothing(trace[0], trace[1..]);
    assert [trace[0]] + trace[1..] == trace;
  }

  lemma SeeingDecidesNothing(ev: Event, rest: seq<Event>)
    requires ev.Seen? && DecidedFrom(Checking, rest) && CountedFrom(Checking, rest)
    ensures var trace := [ev] + rest;
      && FinalWrite(trace) == Some(Verdict(trace)) && Asked(trace, 2) && OneReason(trace)
      && (Ran(trace) <==> Served(trace))
  {
    Heads(ev, rest);
  }

  lemma FromChecking(trace: seq<Event>)
    requires trace != [] && trace[0] in {Seen(Queued), Seen(RunningNow)}
    requires var end := Follow(Start, trace); end.Some? && Over(end.value)
    requires NeverInterrupted(trace) && NotifierWorks(trace)
    ensures DecidedFrom(Checking, trace[1..]) && CountedFrom(Checking, trace[1..])
  {
    var rest := trace[1..];
    assert forall e :: e in rest ==> e in trace;
    assert Follow(Start, trace) == Follow(Checking, rest);
    hide Follow;
    Decides(Checking, rest);
  }

  /** The job is marked running exactly when the cache was asked and answered; and the downloader is asked a
      second time exactly after a transient error. */
  lemma WorkExactly(trace: seq<Event>)
    requires trace != [] && trace[0] in {Seen(Queued), Seen(RunningNow)}
    requires var end := Follow(Start, trace); end.Some? && Over(end.value)
    requires NeverInterrupted(trace) && NotifierWorks(trace)
    ensures Ran(trace) <==> LookedUp(Hit) in trace || LookedUp(Miss) in trace
    ensures Downloads(trace) == (if LastAnswer(trace).None? then 0 else if Transients(trace) > 0 then 2 else 1)
  {
    Passed(trace);
  }

  // ---- What the record says ----

  predicate NeverFails(trace: seq<Event>) {
    forall e :: e in trace && e.Wrote? ==> e.status != Failed
  }

  /** A trace leaves the record with the last status written; a failure brings its code, anything else
      leaves the code as it was. */
  lemma {:induction false} RecordFollows(w: World, job: JobId, max: int, trace: seq<Event>)
    requires w.memory.Valid() && w.repo.Valid() && job in w.repo.vals
    ensures var after, before := Replay(w, job, max, trace), w.repo.vals[job];
      && job in after.repo.vals
      && var rec := after.repo.vals[job];
      && rec.jobId == before.jobId && rec.key == before.key
      && rec.status == (if FinalWrite(trace).Some? then FinalWrite(trace).value.0 else before.status)
      && (FinalWrite(trace).Some? && FinalWrite(trace).value.0 == Failed ==>
            rec.errorCode == FinalWrite(trace).value.1)
      && (NeverFails(trace) ==> rec.errorCode == before.errorCode)
      && (FinalWrite(trace).None? ==> rec == before)
    decreases |trace|
  {
    if trace != [] {
      assert trace[0] in trace;
      assert forall e :: e in trace[1..] ==> e in trace;
      EffectValid(w, job, max, trace[0]);
      RecordFollows(Effect(w, job, max, trace[0]), job, max, trace[1..]);
    }
  }

  lemma {:induction false} SuccessIsTheOnlyEnd(trace: seq<Event>)
    requires TerminalWrites(trace) <= 1
    ensures FinalWrite(trace).Some? && Terminal(FinalWrite(trace).value.0) ==> TerminalWrites(trace) == 1
    ensures FinalWrite(trace).Some? && FinalWrite(trace).value.0 == Succeeded ==> NeverFails(trace)
  {
    if trace != [] {
      CountsHead(trace);
      assert forall e :: e in trace <==> e == trace[0] || e in trace[1..];
      SuccessIsTheOnlyEnd(trace[1..]);
      if TerminalWrites(trace[1..]) == 0 {
        NoTerminalWrite(trace[1..]);
      }
    }
  }

  lemma {:induction false} NoTerminalWrite(trace: seq<Event>)
    requires TerminalWrites(trace) == 0
    ensures NeverFails(trace)
  {
    if trace != [] {
      CountsHead(trace);
      assert forall e :: e in trace <==> e == trace[0] || e in trace[1..];
      NoTerminalWrite(trace[1..]);
    }
  }

  /** What the record of a message's job says in the end, read off the answers of the outside world: the
      verdict's status, and the verdict's code if it failed. */
  lemma MessageVerdict(w: World, job: JobId, max: int, trace: seq<Event>)
    requires w.memory.Valid() && w.repo.Valid() && trace != [] && job in w.repo.vals
    requires trace[0] == Seen(w.repo.vals[job].status) && w.repo.vals[job].status in {Queued, RunningNow}
    requires var end := Follow(Start, trace); end.Some? && Over(end.value)
    requires NeverInterrupted(trace) && NotifierWorks(trace)
    ensures var after, (status, code) := Replay(w, job, max, trace), Verdict(trace);
      && job in after.repo.vals
      && after.repo.vals[job] == w.repo.vals[job].(status := status,
           errorCode := if status == Failed then code else w.repo.vals[job].errorCode)
  {
    RecordFollows(w, job, max, trace);
    VerdictExactly(trace);
    HandlerOutcome(trace, w.repo.vals[job].status);
    SuccessIsTheOnlyEnd(trace);
  }
}
