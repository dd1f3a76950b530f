/** The worker loop's handler, run against the job service and its surroundings. What the outside world
    answers is a plan fixed beforehand. Every operation of the surroundings puts its own event into
    their log, so the log of a message is the trace of what the handler did. */
module WorkerRunners {
  import opened Basics
  import opened Handler
  import opened JobServices
  import opened JobSpec

  /** An awaited call answers, or the task is cancelled while it waits. */
  datatype Answer<T> = Got(value: T) | Cut

  datatype Plan = Plan(
    validation: Validation,
    lookup: Lookup,
    dirOk: bool,
    fetches: (Answer<Fetched>, Answer<Fetched>),   // the downloader's first and second answer
    storeOk: bool,
    notice: Answer<bool>,                          // the handler's own notification
    lastNotice: Answer<bool>)                      // the one of the last resort

  function DownloadEvent(answer: Answer<Fetched>): (r: Event)
    ensures r.Interrupted? || r.Downloaded?
  {
    if answer.Cut? then Interrupted else Downloaded(answer.value)
  }

  /** The validator, the blob cache, the file system, the downloader and the notifier. */
  class Surroundings {
    var workDirs: nat           // work directories that exist
    ghost var log: seq<Event>

    ghost predicate Valid()
      reads this
    {
      workDirs + DirsRemoved(log) == DirsMade(log)
    }

    constructor ()
      ensures Valid() && workDirs == 0 && log == []
    {
      workDirs, log := 0, [];
    }

    /** An event that concerns no work directory. */
    ghost method Note(ev: Event)
      requires Valid() && !ev.MadeDir? && !ev.RemovedDir?
      modifies this`log
      ensures Valid() && log == old(log) + [ev]
    {
      DirsSnoc(log, ev);
      log := log + [ev];
    }

    method Validate(answer: Validation) returns (r: Validation)
      requires Valid()
      modifies this`log
      ensures Valid() && r == answer && log == old(log) + [Validated(r)]
    {
      r := answer;
      Note(Validated(r));
    }

    method LookUp(answer: Lookup) returns (r: Lookup)
      requires Valid()
      modifies this`log
      ensures Valid() && r == answer && log == old(log) + [LookedUp(r)]
    {
      r := answer;
      Note(LookedUp(r));
    }

    /** tempfile.mkdtemp */
    method MakeDir(answer: bool) returns (ok: bool)
      requires Valid()
      modifies this
      ensures Valid() && ok == answer && log == old(log) + [MadeDir(ok)]
      ensures workDirs == old(workDirs) + if ok then 1 else 0
    {
      ok := answer;
      DirsSnoc(log, MadeDir(ok));
      log := log + [MadeDir(ok)];
      if ok {
        workDirs := workDirs + 1;
      }
    }

    /** shutil.rmtree with errors ignored. */
    method RemoveDir()
      requires Valid() && workDirs > 0
      modifies this
      ensures Valid() && log == old(log) + [RemovedDir] && workDirs == old(workDirs) - 1
    {
      DirsSnoc(log, RemovedDir);
      workDirs, log := workDirs - 1, log + [RemovedDir];
    }

    method Download(answer: Answer<Fetched>) returns (r: Answer<Fetched>)
      requires Valid()
      modifies this`log
      ensures Valid() && r == answer && log == old(log) + [DownloadEvent(r)]
    {
      r := answer;
      Note(DownloadEvent(r));
    }

    method Store(answer: bool) returns (ok: bool)
      requires Valid()
      modifies this`log
      ensures Valid() && ok == answer && log == old(log) + [Stored(ok)]
    {
      ok := answer;
      Note(Stored(ok));
    }

    method Notify(answer: Answer<bool>) returns (end: Ending)
      requires Valid()
      modifies this`log
      ensures Valid() && log == old(log) + [NoticeEvent(end)]
      ensures end == match answer case Got(ok) => (if ok then Returned else Raised) case Cut => Cancelled
    {
      end := match answer case Got(ok) => (if ok then Returned else Raised) case Cut => Cancelled;
      Note(NoticeEvent(end));
    }
  }

  class WorkerRunner {
    const jobs: JobService
    const waiter: TerminalWaiter
    const outside: Surroundings

    constructor (jobs: JobService, waiter: TerminalWaiter, outside: Surroundings)
      ensures this.jobs == jobs && this.waiter == waiter && this.outside == outside
    {
      this.jobs, this.waiter, this.outside := jobs, waiter, outside;
    }

    ghost function Now(): World
      reads jobs.repo, waiter
    {
      World(jobs.repo.byId, waiter.terminal, waiter.futures.Keys)
    }

    ghost predicate Able()
      reads jobs, jobs.repo, waiter
    {
      jobs.waiter == waiter && jobs.Valid() && waiter.max >= 0
    }

    ghost predicate Ready(id: JobId)
      reads jobs, jobs.repo, waiter
    {
      Able() && id in jobs.repo.byId.vals
    }

    /** One of the terminal mark_* calls, in the terms of a trace. */
    method MarkTerminal(id: JobId, status: Status, code: string)
      requires Ready(id) && Terminal(status)
      modifies jobs.repo, waiter, if id in waiter.futures then {waiter.futures[id]} else {}
      ensures Ready(id) && Now() == Saved(old(Now()), id, waiter.max, status, code)
      ensures waiter.futures == old(waiter.futures) - {id}
    {
      var ok := jobs.MarkTerminal(id, status, code);
    }

    /** The events of a mark_* call, and the notification. */
    method Tell(ghost status: Status, ghost code: string, notice: Answer<bool>) returns (end: Ending)
      requires outside.Valid()
      modifies outside`log
      ensures outside.Valid() && outside.log == old(outside.log) + ConcludeTrace(status, code, end)
    {
      hide *;
      ghost var log := outside.log;
      outside.Note(Wrote(status, code));
      outside.Note(Published);
      end := outside.Notify(notice);
      ConcludeAppends(log, status, code, end);
    }

    /** One of the terminal mark_* calls, then the notification. */
    method Conclude(id: JobId, status: Status, code: string, notice: Answer<bool>, ghost scope: Scope)
      returns (end: Ending, ghost trace: seq<Event>)
      requires Ready(id) && outside.Valid() && Terminal(status)
      modifies jobs.repo, waiter, outside`log, if id in waiter.futures then {waiter.futures[id]} else {}
      ensures Ready(id) && outside.Valid()
      ensures trace == ConcludeTrace(status, code, end)
      ensures Follow(Marking(status, code, scope), trace) == Some(Leaves(end, scope))
      ensures Now() == Replay(old(Now()), id, waiter.max, trace) && outside.log == old(outside.log) + trace
      ensures waiter.futures == old(waiter.futures) - {id}
    {
      ghost var w := Now();
      assert w.memory.Valid();
      hide *;
      MarkTerminal(id, status, code);
      end := Tell(status, code, notice);
      trace := ConcludeTrace(status, code, end);
      ConcludeStretch(w, id, waiter.max, status, code, scope, end);
    }

    method SetRunning(id: JobId)
      requires Ready(id)
      modifies jobs.repo
      ensures Ready(id) && Now() == Effect(old(Now()), id, waiter.max, Wrote(RunningNow, ""))
    {
      jobs.MarkRunning(id);
    }

    /** mark_running; the one event of that stretch is prepended to what follows. */
    method MarkRunning(id: JobId)
      requires Ready(id) && outside.Valid()
      modifies jobs.repo, outside`log
      ensures Ready(id) && outside.Valid()
      ensures Now() == Effect(old(Now()), id, waiter.max, Wrote(RunningNow, ""))
      ensures outside.log == old(outside.log) + [Wrote(RunningNow, "")]
    {
      hide *;
      SetRunning(id);
      outside.Note(Wrote(RunningNow, ""));
    }

    /** The loop that asks the downloader, a second time after a transient error. It ends with an
        item, or with the state the error leads to. */
    method Fetch(plan: Plan) returns (ghost trace: seq<Event>, pc: Pc)
      requires outside.Valid()
      modifies outside`log
      ensures outside.Valid() && outside.log == old(outside.log) + trace
      ensures Follow(Fetching(false), trace) == Some(pc)
      ensures pc.Marking? ==> Terminal(pc.status) && pc.scope == InDir
      ensures pc.Marking? || pc == Storing || pc == Cleaning(ToCrash) || pc == Cleaning(ToDead)
      ensures forall e :: e in trace ==> !e.Wrote? && !e.Published?
    {
      hide *;
      ghost var log := outside.log;
      var transientAttempted := false;
      trace := [];
      while true
        invariant outside.Valid() && outside.log == log + trace
        invariant trace == if transientAttempted then [Downloaded(Transient)] else []
        decreases !transientAttempted
      {
        var answer := outside.Download(if transientAttempted then plan.fetches.1 else plan.fetches.0);
        ghost var r := if answer.Cut? then NoItems else answer.value;
        DownloadEventIs(answer);
        FetchLeads(transientAttempted, r);
        FetchStretch(transientAttempted, DownloadEvent(answer));
        Append(log, trace, [DownloadEvent(answer)]);
        trace := trace + [DownloadEvent(answer)];
        if answer.Cut? {
          pc := Killed(InDir);
          return;
        }
        if answer.value.Transient? && !transientAttempted {
          transientAttempted := true;
        } else {
          pc := AfterFetch(transientAttempted, answer.value);
          return;
        }
      }
    }

    lemma DownloadEventIs(answer: Answer<Fetched>)
      ensures DownloadEvent(answer) == if answer.Cut? then Interrupted else Downloaded(answer.value)
    {
    }

    lemma StoringLeads(w: World, id: JobId, max: int)
      requires w.memory.Valid()
      ensures Terminal(Succeeded) && Next(Storing, Stored(true)) == Some(Marking(Succeeded, "", InDir))
      ensures Next(Storing, Stored(false)) == Some(Leaves(Raised, InDir))
      ensures forall ok :: Effect(w, id, max, Stored(ok)) == w
      ensures Follow(Leaves(Raised, InDir), []) == Some(Leaves(Raised, InDir)) && Replay(w, id, max, []) == w
    {
    }

    /** Caches the fetched file, and marks the job succeeded if that worked. */
    method StoreAndConclude(id: JobId, plan: Plan) returns (end: Ending, ghost trace: seq<Event>)
      requires Ready(id) && outside.Valid()
      modifies jobs.repo, waiter, outside`log, if id in waiter.futures then {waiter.futures[id]} else {}
      ensures Ready(id) && outside.Valid()
      ensures Follow(Storing, trace) == Some(Leaves(end, InDir))
      ensures Now() == Replay(old(Now()), id, waiter.max, trace) && outside.log == old(outside.log) + trace
      ensures waiter.futures in {old(waiter.futures), old(waiter.futures) - {id}}
    {
      ghost var w, max, log := Now(), waiter.max, outside.log;
      assert w.memory.Valid();
      hide *;
      StoringLeads(w, id, max);
      var ok := outside.Store(plan.storeOk);
      ghost var rest := [];
      end := Raised;
      if ok {
        end, rest := Conclude(id, Succeeded, "", plan.notice, InDir);
      }
      Prepend(Storing, w, id, max, Stored(ok), rest);
      trace := [Stored(ok)] + rest;
      Append(log, [Stored(ok)], rest);
    }

    /** The try around the work directory: fetch, cache the file, conclude. */
    method FetchAndStore(id: JobId, plan: Plan) returns (end: Ending, ghost trace: seq<Event>)
      requires Ready(id) && outside.Valid()
      modifies jobs.repo, waiter, outside`log, if id in waiter.futures then {waiter.futures[id]} else {}
      ensures Ready(id) && outside.Valid()
      ensures Follow(Fetching(false), trace) == Some(Leaves(end, InDir))
      ensures Now() == Replay(old(Now()), id, waiter.max, trace) && outside.log == old(outside.log) + trace
      ensures waiter.futures in {old(waiter.futures), old(waiter.futures) - {id}}
    {
      ghost var w, max, log := Now(), waiter.max, outside.log;
      assert w.memory.Valid();
      assert Leaves(Raised, InDir) == Cleaning(ToCrash) && Leaves(Cancelled, InDir) == Cleaning(ToDead);
      hide *;
      var pc;
      trace, pc := Fetch(plan);
      NoEffect(w, id, max, trace);
      if pc.Cleaning? {
        end := if pc.exit == ToDead then Cancelled else Raised;
        return;
      }
      ghost var rest;
      if pc.Storing? {
        end, rest := StoreAndConclude(id, plan);
      } else {
        end, rest := Conclude(id, pc.status, pc.code, plan.notice, InDir);
      }
      Compose(Fetching(false), pc, w, id, max, trace, rest);
      Append(log, trace, rest);
      trace := trace + rest;
    }

    method ServeHit(id: JobId, plan: Plan) returns (end: Ending, ghost trace: seq<Event>)
      requires Ready(id) && outside.Valid()
      modifies jobs.repo, waiter, outside`log, if id in waiter.futures then {waiter.futures[id]} else {}
      ensures Ready(id) && outside.Valid()
      ensures Follow(HitRunning, trace) == Some(Leaves(end, Plain))
      ensures Now() == Replay(old(Now()), id, waiter.max, trace) && outside.log == old(outside.log) + trace
      ensures waiter.futures in {old(waiter.futures), old(waiter.futures) - {id}}
    {
      ghost var w, max, log := Now(), waiter.max, outside.log;
      assert w.memory.Valid() && Terminal(Succeeded);
      assert Next(HitRunning, Wrote(RunningNow, "")) == Some(Marking(Succeeded, "", Plain));
      hide *;
      MarkRunning(id);
      ghost var rest;
      end, rest := Conclude(id, Succeeded, "", plan.notice, Plain);
      Prepend(HitRunning, w, id, max, Wrote(RunningNow, ""), rest);
      trace := [Wrote(RunningNow, "")] + rest;
      Append(log, [Wrote(RunningNow, "")], rest);
    }

    lemma NoDirLeads(w: World, id: JobId, max: int)
      requires w.memory.Valid()
      ensures Follow(Making, [MadeDir(false)]) == Some(Leaves(Raised, Plain))
      ensures Replay(w, id, max, [MadeDir(false)]) == w
    {
      NothingDone(Leaves(Raised, Plain), w, id, max);
      Prepend(Making, w, id, max, MadeDir(false), []);
      assert [MadeDir(false)] + [] == [MadeDir(false)];
    }

    /** The try and the finally around an existing work directory. */
    method FetchAndRemove(id: JobId, plan: Plan) returns (end: Ending, ghost trace: seq<Event>)
      requires Ready(id) && outside.Valid() && outside.workDirs > 0
      modifies jobs.repo, waiter, outside, if id in waiter.futures then {waiter.futures[id]} else {}
      ensures Ready(id) && outside.Valid() && outside.workDirs == old(outside.workDirs) - 1
      ensures Follow(Making, [MadeDir(true)] + trace) == Some(Leaves(end, Plain))
      ensures Now() == Replay(old(Now()), id, waiter.max, [MadeDir(true)] + trace)
      ensures outside.log == old(outside.log) + trace
      ensures waiter.futures in {old(waiter.futures), old(waiter.futures) - {id}}
    {
      ghost var w, log := Now(), outside.log;
      assert w.memory.Valid();
      hide *;
      ghost var inside;
      end, inside := FetchAndStore(id, plan);
      outside.RemoveDir();
      DirStretch(w, id, waiter.max, inside, end);
      trace := inside + [RemovedDir];
      Append(log, inside, [RemovedDir]);
    }

    /** The work directory, from making it to removing it. */
    method InWorkDir(id: JobId, plan: Plan) returns (end: Ending, ghost trace: seq<Event>)
      requires Ready(id) && outside.Valid()
      modifies jobs.repo, waiter, outside, if id in waiter.futures then {waiter.futures[id]} else {}
      ensures Ready(id) && outside.Valid() && outside.workDirs == old(outside.workDirs)
      ensures Follow(Making, trace) == Some(Leaves(end, Plain))
      ensures Now() == Replay(old(Now()), id, waiter.max, trace) && outside.log == old(outside.log) + trace
      ensures waiter.futures in {old(waiter.futures), old(waiter.futures) - {id}}
    {
      ghost var w, log := Now(), outside.log;
      assert w.memory.Valid();
      hide *;
      var ok := outside.MakeDir(plan.dirOk);
      if !ok {
        NoDirLeads(w, id, waiter.max);
        return Raised, [MadeDir(false)];
      }
      ghost var rest;
      end, rest := FetchAndRemove(id, plan);
      trace := [MadeDir(true)] + rest;
      Append(log, [MadeDir(true)], rest);
    }

    method ServeMiss(id: JobId, plan: Plan) returns (end: Ending, ghost trace: seq<Event>)
      requires Ready(id) && outside.Valid()
      modifies jobs.repo, waiter, outside, if id in waiter.futures then {waiter.futures[id]} else {}
      ensures Ready(id) && outside.Valid() && outside.workDirs == old(outside.workDirs)
      ensures Follow(MissRunning, trace) == Some(Leaves(end, Plain))
      ensures Now() == Replay(old(Now()), id, waiter.max, trace) && outside.log == old(outside.log) + trace
      ensures waiter.futures in {old(waiter.futures), old(waiter.futures) - {id}}
    {
      ghost var w, max, log := Now(), waiter.max, outside.log;
      assert w.memory.Valid() && Next(MissRunning, Wrote(RunningNow, "")) == Some(Making);
      hide *;
      MarkRunning(id);
      ghost var rest;
      end, rest := InWorkDir(id, plan);
      Prepend(MissRunning, w, id, max, Wrote(RunningNow, ""), rest);
      trace := [Wrote(RunningNow, "")] + rest;
      Append(log, [Wrote(RunningNow, "")], rest);
    }

    /** After the validation: look into the blob cache and serve from it, or fetch. */
    method Serve(id: JobId, plan: Plan) returns (end: Ending, ghost trace: seq<Event>)
      requires Ready(id) && outside.Valid()
      modifies jobs.repo, waiter, outside, if id in waiter.futures then {waiter.futures[id]} else {}
      ensures Ready(id) && outside.Valid() && outside.workDirs == old(outside.workDirs)
      ensures Follow(Looking, trace) == Some(Leaves(end, Plain))
      ensures Now() == Replay(old(Now()), id, waiter.max, trace) && outside.log == old(outside.log) + trace
      ensures waiter.futures in {old(waiter.futures), old(waiter.futures) - {id}}
    {
      ghost var w, max, log := Now(), waiter.max, outside.log;
      assert w.memory.Valid();
      hide *;
      LookingLeads(w, id, max);
      var found := outside.LookUp(plan.lookup);
      ghost var rest := [];
      match found {
        case Hit => end, rest := ServeHit(id, plan);
        case Miss => end, rest := ServeMiss(id, plan);
        case LookupRaised => end := Raised;
      }
      Prepend(Looking, w, id, max, LookedUp(found), rest);
      trace := [LookedUp(found)] + rest;
      Append(log, [LookedUp(found)], rest);
    }

    lemma LookingLeads(w: World, id: JobId, max: int)
      requires w.memory.Valid()
      ensures w.memory.Valid()
      ensures Next(Looking, LookedUp(Hit)) == Some(HitRunning) && Next(Looking, LookedUp(Miss)) == Some(MissRunning)
      ensures Next(Looking, LookedUp(LookupRaised)) == Some(Leaves(Raised, Plain))
      ensures forall found :: Effect(w, id, max, LookedUp(found)) == w
      ensures Follow(Leaves(Raised, Plain), []) == Some(Leaves(Raised, Plain)) && Replay(w, id, max, []) == w
    {
    }

    method Handle(id: JobId, plan: Plan) returns (end: Ending, ghost trace: seq<Event>)
      requires Ready(id) && outside.Valid()
      modifies jobs.repo, waiter, outside, if id in waiter.futures then {waiter.futures[id]} else {}
      ensures Ready(id) && outside.Valid() && outside.workDirs == old(outside.workDirs)
      ensures Follow(Checking, trace) == Some(Leaves(end, Plain))
      ensures Now() == Replay(old(Now()), id, waiter.max, trace) && outside.log == old(outside.log) + trace
      ensures waiter.futures in {old(waiter.futures), old(waiter.futures) - {id}}
    {
      ghost var w, max, log := Now(), waiter.max, outside.log;
      assert w.memory.Valid();
      hide *;
      CheckingLeads(w, id, max);
      var checked := outside.Validate(plan.validation);
      ghost var rest := [];
      match checked {
        case Invalid => end, rest := Conclude(id, Failed, "UNSUPPORTED", plan.notice, Plain);
        case ValidationRaised => end := Raised;
        case Valid => end, rest := Serve(id, plan);
      }
      Prepend(Checking, w, id, max, Validated(checked), rest);
      trace := [Validated(checked)] + rest;
      Append(log, [Validated(checked)], rest);
    }

    lemma CheckingLeads(w: World, id: JobId, max: int)
      requires w.memory.Valid()
      ensures w.memory.Valid()
      ensures Terminal(Failed) && Next(Checking, Validated(Validation.Valid)) == Some(Looking)
      ensures Next(Checking, Validated(Invalid)) == Some(Marking(Failed, "UNSUPPORTED", Plain))
      ensures Next(Checking, Validated(ValidationRaised)) == Some(Leaves(Raised, Plain))
      ensures forall checked :: Effect(w, id, max, Validated(checked)) == w
      ensures Follow(Leaves(Raised, Plain), []) == Some(Leaves(Raised, Plain)) && Replay(w, id, max, []) == w
    {
    }

    lemma LastResortLeads(end: Ending)
      ensures Terminal(Failed) && Leaves(Raised, Plain) == Marking(Failed, "INTERNAL", Outer)
      ensures Leaves(end, Outer) == if end.Returned? then Done else Dead
    {
    }

    lemma HandledLeads(end: Ending)
      ensures !end.Raised? ==> Leaves(end, Plain) == if end.Returned? then Done else Dead
    {
    }

    /** The `except Exception` of `wrapped`. */
    method LastResort(id: JobId, plan: Plan) returns (alive: bool, ghost trace: seq<Event>)
      requires Ready(id) && outside.Valid()
      modifies jobs.repo, waiter, outside`log, if id in waiter.futures then {waiter.futures[id]} else {}
      ensures Ready(id) && outside.Valid()
      ensures Follow(Leaves(Raised, Plain), trace) == Some(if alive then Done else Dead)
      ensures Now() == Replay(old(Now()), id, waiter.max, trace) && outside.log == old(outside.log) + trace
    {
      hide *;
      LastResortLeads(Returned);
      var end;
      end, trace := Conclude(id, Failed, "INTERNAL", plan.lastNotice, Outer);
      LastResortLeads(end);
      alive := end.Returned?;
    }

    /** The try of `wrapped` around `handle`, and its last resort. */
    method Rescue(id: JobId, plan: Plan) returns (alive: bool, ghost trace: seq<Event>)
      requires Ready(id) && outside.Valid()
      modifies jobs.repo, waiter, outside, if id in waiter.futures then {waiter.futures[id]} else {}
      ensures Ready(id) && outside.Valid() && outside.workDirs == old(outside.workDirs)
      ensures Follow(Checking, trace) == Some(if alive then Done else Dead)
      ensures Now() == Replay(old(Now()), id, waiter.max, trace) && outside.log == old(outside.log) + trace
    {
      ghost var w, log := Now(), outside.log;
      assert w.memory.Valid();
      hide *;
      var end;
      end, trace := Handle(id, plan);
      alive := end.Returned?;
      HandledLeads(end);
      if end.Raised? {
        ghost var last;
        alive, last := LastResort(id, plan);
        Compose(Checking, Leaves(Raised, Plain), w, id, waiter.max, trace, last);
        Append(log, trace, last);
        trace := trace + last;
      }
    }

    /** `wrapped`: the whole handling of one message. It follows the control flow to its end, the log of
        the surroundings grows by its trace, every work directory is removed again, and the records,
        the memory of finished jobs and the registrations are what the trace makes of them. False when
        an exception or a cancellation ends the consumer loop. */
    method Wrapped(id: JobId, plan: Plan) returns (alive: bool, ghost trace: seq<Event>)
      requires Able() && outside.Valid()
      modifies jobs.repo, waiter, outside, if id in waiter.futures then {waiter.futures[id]} else {}
      ensures Able() && outside.Valid() && outside.workDirs == old(outside.workDirs)
      ensures trace != []
      ensures trace[0] == if id in old(jobs.repo.byId).vals then Seen(old(jobs.repo.byId).vals[id].status) else Unknown
      ensures Follow(Start, trace) == Some(if alive then Done else Dead)
      ensures Now() == Replay(old(Now()), id, waiter.max, trace) && outside.log == old(outside.log) + trace
    {
      ghost var w, max, log := Now(), waiter.max, outside.log;
      var row := jobs.repo.Get(id);
      ghost var looked := if row.None? then Unknown else Seen(row.value.status);
      outside.Note(looked);
      ghost var rest := [];
      alive := true;
      if row.Some? {
        var status := row.value.status;
        if !(status.Succeeded? || status.Failed? || status.Canceled?) {
          alive, rest := Rescue(id, plan);
        }
      }
      Prepend(Start, w, id, max, looked, rest);
      trace := [looked] + rest;
      Append(log, [looked], rest);
    }
  }
}
