/** Runs of the lifecycle that show where its promises end. */
module LifecycleRuns {
  import opened Basics
  import opened Futures
  import opened Handler
  import opened JobSpec
  import opened Lifecycle
  import opened LifecycleSafety
  import opened OrderedDict

  function Record(job: JobId, status: Status, code: string): JobRecord {
    JobRecord(job, "k", status, code)
  }

  /** A new job "a" for key "k", whose submitter has subscribed. */
  function SubscribedState(): State {
    Init(1, 0).(repo := Dict(["a"], map["a" := Record("a", Queued, "")]), futures := map["a" := 0],
                cells := [Cell("a", Waiting)], submitters := [ToNotify("a", true, 0)])
  }

  lemma ArrivedOnce()
    ensures Enabled(Init(1, 0), Arrive("k", "a"))
    ensures Apply(Init(1, 0), Arrive("k", "a"))
      == SubscribedState().(futures := map[], cells := [], submitters := [ToSubscribe("a", true)])
  {
  }

  lemma Subscribed() returns (steps: seq<Step>)
    ensures Reaches(Init(1, 0), steps, SubscribedState())
  {
    var arrived := SubscribedState().(futures := map[], cells := [], submitters := [ToSubscribe("a", true)]);
    ArrivedOnce();
    assert Apply(arrived, Subscribe(0)) == SubscribedState();
    RunNowhere(Init(1, 0), Init(1, 0));
    RunSnoc(Init(1, 0), [], Init(1, 0), Arrive("k", "a"));
    RunSnoc(Init(1, 0), [] + [Arrive("k", "a")], arrived, Subscribe(0));
    steps := [] + [Arrive("k", "a")] + [Subscribe(0)];
  }

  /** A job is stranded: the notice to its submitter raises before the message is enqueued. */
  lemma StrandedOnce() returns (steps: seq<Step>, end: State)
    ensures Reaches(Init(1, 0), steps, end)
    ensures end.stranded == {"a"} && end.repo.vals == map["a" := Record("a", Queued, "")] && end.queue == []
  {
    var start := Subscribed();
    RunSnoc(Init(1, 0), start, SubscribedState(), Notify(0, false));
    steps, end := start + [Notify(0, false)], Apply(SubscribedState(), Notify(0, false));
  }

  /** Its message is queued and its submitter waits. */
  function WaitingState(): State {
    SubscribedState().(submitters := [Waits("a", 0)], queue := ["a"], enqueued := {"a"})
  }

  lemma OneWaits() returns (steps: seq<Step>)
    ensures Reaches(Init(1, 0), steps, WaitingState())
  {
    var start := Subscribed();
    var notified := SubscribedState().(submitters := [ToEnqueue("a", 0)]);
    var entered := SubscribedState().(submitters := [Putting("a", 0)]);
    assert Apply(SubscribedState(), Notify(0, true)) == notified;
    assert Apply(notified, Enter(0)) == entered;
    assert Apply(entered, Put(0)) == WaitingState();
    RunSnoc(Init(1, 0), start, SubscribedState(), Notify(0, true));
    RunSnoc(Init(1, 0), start + [Notify(0, true)], notified, Enter(0));
    RunSnoc(Init(1, 0), start + [Notify(0, true)] + [Enter(0)], entered, Put(0));
    steps := start + [Notify(0, true)] + [Enter(0)] + [Put(0)];
  }

  /** A second caller for the key shares the future. */
  lemma TwoWait() returns (steps: seq<Step>)
    ensures Reaches(Init(1, 0), steps, WaitingState().(submitters := [Waits("a", 0), Waits("a", 0)]))
  {
    var start := OneWaits();
    var arrived := WaitingState().(submitters := [Waits("a", 0), ToSubscribe("a", false)]);
    var subscribed := WaitingState().(submitters := [Waits("a", 0), ToNotify("a", false, 0)]);
    assert Apply(WaitingState(), Arrive("k", "b")) == arrived;
    assert Apply(arrived, Subscribe(1)) == subscribed;
    RunSnoc(Init(1, 0), start, WaitingState(), Arrive("k", "b"));
    RunSnoc(Init(1, 0), start + [Arrive("k", "b")], arrived, Subscribe(1));
    RunSnoc(Init(1, 0), start + [Arrive("k", "b")] + [Subscribe(1)], subscribed, Notify(1, true));
    steps := start + [Arrive("k", "b")] + [Subscribe(1)] + [Notify(1, true)];
  }

  /** The first caller times out, and the second one's wait ends with it, while the job is still
      queued. */
  lemma SharedTimeOut() returns (steps: seq<Step>, end: State)
    ensures Reaches(Init(1, 0), steps, end)
    ensures end.submitters == [Left, Waits("a", 0)] && end.cells == [Cell("a", FutureState.Cancelled)]
    ensures end.queue == ["a"] && end.repo.vals == map["a" := Record("a", Queued, "")]
  {
    var start := TwoWait();
    var waiting := WaitingState().(submitters := [Waits("a", 0), Waits("a", 0)]);
    RunSnoc(Init(1, 0), start, waiting, TimeOut(0));
    steps, end := start + [TimeOut(0)], Apply(waiting, TimeOut(0));
  }

  /** The job failed, and its failure was saved. */
  function FailedState(): State {
    WaitingState().(queue := [], consumer := Handling("a", Publishing(Plain)),
                    repo := Dict(["a"], map["a" := Record("a", Failed, "UNSUPPORTED")]))
  }

  /** The job is being handled, at this point of the handler. */
  function HandlingState(pc: Pc): State {
    WaitingState().(queue := [], consumer := Handling("a", pc))
  }

  lemma Started() returns (steps: seq<Step>)
    ensures Reaches(Init(1, 0), steps, HandlingState(Checking))
  {
    var start := OneWaits();
    assert Apply(WaitingState(), Take) == HandlingState(Start);
    assert Apply(HandlingState(Start), Handle(Seen(Queued))) == HandlingState(Checking);
    RunSnoc(Init(1, 0), start, WaitingState(), Take);
    RunSnoc(Init(1, 0), start + [Take], HandlingState(Start), Handle(Seen(Queued)));
    steps := start + [Take] + [Handle(Seen(Queued))];
  }

  lemma FailedOnce() returns (steps: seq<Step>)
    ensures Reaches(Init(1, 0), steps, FailedState())
  {
    var start := Started();
    var marking := HandlingState(Marking(Failed, "UNSUPPORTED", Plain));
    assert Apply(HandlingState(Checking), Handle(Validated(Invalid))) == marking;
    assert Apply(marking, Handle(Wrote(Failed, "UNSUPPORTED"))) == FailedState();
    RunSnoc(Init(1, 0), start, HandlingState(Checking), Handle(Validated(Invalid)));
    RunSnoc(Init(1, 0), start + [Handle(Validated(Invalid))], marking, Handle(Wrote(Failed, "UNSUPPORTED")));
    steps := start + [Handle(Validated(Invalid))] + [Handle(Wrote(Failed, "UNSUPPORTED"))];
  }

  /** The handler finished with the job, and its caller was woken. */
  function FinishedState(): State {
    var failed := Record("a", Failed, "UNSUPPORTED");
    FailedState().(consumer := Idle, memory := Dict(["a"], map["a" := failed]), log := ["a"], futures := map[],
                   cells := [Cell("a", Value(failed))])
  }

  lemma FinishedOnce() returns (steps: seq<Step>)
    ensures Reaches(Init(1, 0), steps, FinishedState())
  {
    var start := FailedOnce();
    var notifying := FinishedState().(consumer := Handling("a", Notifying(Plain)));
    assert Apply(FailedState(), Handle(Published)) == notifying;
    assert Apply(notifying, Handle(Notified(true))) == FinishedState();
    RunSnoc(Init(1, 0), start, FailedState(), Handle(Published));
    RunSnoc(Init(1, 0), start + [Handle(Published)], notifying, Handle(Notified(true)));
    steps := start + [Handle(Published)] + [Handle(Notified(true))];
  }

  /** A new job "b" for the key. */
  function TwoJobs(): State {
    var records := map["a" := Record("a", Failed, "UNSUPPORTED"), "b" := Record("b", Queued, "")];
    FinishedState().(repo := Dict(["a", "b"], records), submitters := [Waits("a", 0), ToSubscribe("b", true)])
  }

  lemma ArrivedTwice()
    ensures Enabled(FinishedState(), Arrive("k", "b"))
    ensures Apply(FinishedState(), Arrive("k", "b")) == TwoJobs()
  {
    var repo := FinishedState().repo;
    assert "a"[0] != "b"[0];
    assert FindActive(repo.keys, repo.vals, "k") == None by {
      assert repo.keys[1..] == [];
    }
    assert Submit(repo, "k", "b").0 == TwoJobs().repo;
  }

  lemma MarkedRunningAgain()
    ensures !OneActivePerKey(Save(TwoJobs().repo, "a", RunningNow, ""))
  {
    var revived := Save(TwoJobs().repo, "a", RunningNow, "");
    assert Active(revived, "a") && Active(revived, "b");
    assert "a"[0] != "b"[0];
  }

  lemma DeliveredAgain() returns (again: State, end: State)
    ensures Enabled(TwoJobs(), Redeliver("a")) && Apply(TwoJobs(), Redeliver("a")) == again
    ensures Enabled(again, Take) && Apply(again, Take) == end
    ensures end.consumer == Handling("a", Start) && end.repo == TwoJobs().repo
  {
    again := TwoJobs().(queue := ["a"]);
    end := TwoJobs().(consumer := Handling("a", Start));
  }

  /** Behind a queue that delivers at least once the terminal guard is needed: a new job for the key is
      queued when the message of the finished one is delivered again, and marking that one running
      would make two active jobs of one key. */
  lemma GuardIsNeeded() returns (steps: seq<Step>, end: State)
    ensures Reaches(Init(1, 0), steps, end)
    ensures end.consumer == Handling("a", Start)
    ensures !OneActivePerKey(Save(end.repo, "a", RunningNow, ""))
  {
    hide *;
    var start := FinishedOnce();
    ArrivedTwice();
    MarkedRunningAgain();
    var again;
    again, end := DeliveredAgain();
    RunSnoc(Init(1, 0), start, FinishedState(), Arrive("k", "b"));
    RunSnoc(Init(1, 0), start + [Arrive("k", "b")], TwoJobs(), Redeliver("a"));
    RunSnoc(Init(1, 0), start + [Arrive("k", "b")] + [Redeliver("a")], again, Take);
    steps := start + [Arrive("k", "b")] + [Redeliver("a")] + [Take];
  }
}
