/**
 `BookWorkflowApplicationService.execute` itself: its loop and its review, run on
 the row object in an arbitrary world. Everything it does is proved to be a run of
 `BookMachine` whose every choice is `execute`'s own or an answer of the world, so the
 theorems about runs hold of it; and it is proved to end, and when it may fail.
 */
module BookExecute {
  import FiniteSets
  import opened Options
  import opened BookModel
  import opened BookMachine
  import opened BookInvariant
  import opened BookPreservation
  import opened BookTheorems
  import opened BookRows
  import opened BookCauses
  import opened BookPeace
  import opened BookWorld
  import BookOwnership

  /** How a piece of `execute` ends: it goes on, or it leaves. */
  datatype Exit = Continue | LoopDone | Finished | Raised(reason: Reason) | Crashed

  /** Death and errors end `execute` anywhere, requests for control only at its safe points. */
  function Met(fate: Fate, pc: Pc): (exit: Exit)
    ensures exit.Continue? || exit.Crashed? || exit.Raised?
  {
    match fate
    case GoesOn => Continue
    case Dies => Crashed
    case Interrupted(reason) => if reason.ExecutionError? || Interruptible(pc) then Raised(reason) else Continue
  }

  class BookService {
    const world: World
    const row: BookRun
    /** How many questions the world was asked. */
    var clock: nat
    /** Where `execute` stands, and the completions whose usage update is still missing. */
    var pc: Pc
    var lost: nat
    ghost var trace: seq<Sys>
    ghost var script: seq<Action>

    function Now(): Sys
      reads this, row
    {
      Sys(row.Rows(), pc, lost)
    }

    /**
     All that ever happened to the run is a run of the machine, told by a script of
     actions that the world justifies. Once stopped, nothing happens before the handler.
     */
    ghost predicate Valid()
      reads this, row
    {
      && IsRun(trace) && Told(world, trace, script) && Now() == trace[|trace| - 1]
      && (pc.Stopping? ==> |trace| >= 2 && !trace[|trace| - 2].pc.Stopping?)
    }

    /** Where the worker is when a piece of `execute` ends in this way. */
    ghost predicate Left(exit: Exit)
      reads this
    {
      match exit
      case Continue => true
      case LoopDone => pc.Generated?
      case Finished => pc.Returned?
      case Raised(reason) => pc == Stopping(reason)
      case Crashed => pc.Idle? && script != [] && script[|script| - 1].Crash?
    }

    constructor (s: Sys, w: World)
      requires Initial(s)
      ensures Valid() && Now() == s && world == w
    {
      world := w;
      row := new BookRun(s.db);
      clock, pc, lost := 0, s.pc, s.lost;
      trace, script := [s], [];
    }

    /** The rows were changed as action `a` says: note it and move on. */
    method Log(a: Action, p: Pc, l: nat)
      requires IsRun(trace) && Told(world, trace, script) && Justified(world, a)
      requires Fire(trace[|trace| - 1], a) == Some(Sys(row.Rows(), p, l))
      requires p.Stopping? ==> !trace[|trace| - 1].pc.Stopping?
      modifies this`pc, this`lost, this`trace, this`script
      ensures Valid() && pc == p && lost == l && trace == old(trace) + [Now()] && script == old(script) + [a]
    {
      hide Told, Justified;
      ToldNext(world, trace, script, a, Sys(row.Rows(), p, l));
      pc, lost := p, l;
      assert Step(trace[|trace| - 1], Now());
      trace, script := trace + [Now()], script + [a];
    }

    /** The time of a question to the world. */
    method Ask() returns (n: nat)
      requires Valid()
      modifies this`clock
      ensures Valid() && n == old(clock)
    {
      n := clock;
      clock := clock + 1;
    }

    /** The rows others committed become the rows seen from here on. */
    method Adopt(a: Action, t: Sys)
      requires Valid() && Fire(Now(), a) == Some(t) && OthersOnly(Now(), t) && Justified(world, a) && Active(pc)
      modifies row, this`pc, this`lost, this`trace, this`script
      ensures Valid() && old(trace) <= trace && pc == old(pc) && lost == old(lost) && Now() == t
    {
      hide IsRun, Fire, Told, Justified;
      ghost var was := Now();
      row.Reload(t.db);
      assert row.Row() == was.db.run.(status := row.status, caps := row.caps);
      assert row.Rows() == was.db.(run := row.Row(), jobs := row.jobs, workflows := row.workflows,
                                   accepted := row.versions, calls := row.callRows);
      Log(a, pc, lost);
    }

    /** The rows are what others made of those of `was` in the interlude of time `n`. */
    ghost predicate ActedOn(was: Sys, n: nat)
      reads this, row
    {
      row.Rows() == Acted(was, world.interlude(n).actions).db
    }

    /** What happens between two transactions: others act, and then perhaps it ends here. */
    method Interfere() returns (exit: Exit)
      requires Valid() && Active(pc)
      modifies this, row
      ensures Valid() && old(trace) <= trace && Left(exit)
      ensures exit == Met(world.interlude(old(clock)).fate, old(pc))
      ensures exit.Continue? ==> pc == old(pc) && lost == old(lost)
      ensures exit.Continue? ==> ActedOn(old(Now()), old(clock))
      ensures Undisturbed(world) ==> exit.Continue? && row.Rows() == old(row.Rows())
    {
      hide IsRun, Told, Valid, Justified;
      var n := Ask();
      OthersAct(n);
      exit := Fall(n);
    }

    /** The actions of others in their order; those that cannot happen do not. */
    method OthersAct(n: nat)
      requires Valid() && Active(pc)
      modifies row, this`pc, this`lost, this`trace, this`script
      ensures Valid() && old(trace) <= trace && pc == old(pc) && lost == old(lost)
      ensures Now() == Acted(old(Now()), world.interlude(n).actions)
    {
      hide IsRun, Environment, Told, Justified;
      var actions := world.interlude(n).actions;
      for i := 0 to |actions|
        invariant Valid() && old(trace) <= trace && pc == old(pc) && lost == old(lost)
        invariant Now() == Acted(old(Now()), actions[..i])
      {
        assert actions[..i + 1][..i] == actions[..i];
        match Environment(Now(), actions[i]) {
          case Some(t) =>
            EnvironmentFires(Now(), actions[i], t);
            ByOthers(world, n, actions[i], Now(), t);
            Adopt(actions[i], t);
          case None =>
        }
      }
      assert actions[..|actions|] == actions;
    }

    /** How the interlude ends. */
    method Fall(n: nat) returns (exit: Exit)
      requires Valid() && Active(pc)
      modifies this`pc, this`lost, this`trace, this`script
      ensures Valid() && old(trace) <= trace && Left(exit)
      ensures exit == Met(world.interlude(n).fate, old(pc))
      ensures exit.Continue? ==> pc == old(pc) && lost == old(lost)
    {
      hide IsRun, Told, Says, Fire, Justified;
      exit := Continue;
      LeavingFires(Now());
      match world.interlude(n).fate {
        case Dies =>
          DeathSaid(world, n);
          Log(Crash, Idle, lost);
          exit := Crashed;
        case Interrupted(reason) =>
          if reason.ExecutionError? || Interruptible(pc) {
            RaiseSaid(world, n, reason);
            Log(Raise(reason), Stopping(reason), lost);
            exit := Raised(reason);
          }
        case GoesOn =>
      }
    }

    /** An error of the chapter workflow service, raised through `execute`. */
    method Fail() returns (exit: Exit)
      requires Valid() && Active(pc) && Justified(world, Raise(ExecutionError))
      modifies this
      ensures Valid() && old(trace) <= trace && Left(exit)
      ensures exit == Raised(ExecutionError)
    {
      hide IsRun, Told, Justified;
      Log(Raise(ExecutionError), Stopping(ExecutionError), lost);
      exit := Raised(ExecutionError);
    }

    /** A pause or an error that `execute` raises by itself. */
    method GiveUp() returns (exit: Exit)
      requires Valid() && GivenUp(Now()).Some?
      modifies this
      ensures Valid() && old(trace) <= trace && Left(exit)
      ensures exit == Raised(old(GivenUp(Now())).value)
    {
      hide IsRun, Told, Says;
      var reason := GivenUp(Now()).value;
      Log(BookMachine.GiveUp, Stopping(reason), lost);
      exit := Raised(reason);
    }

    /** The chapter workflow in flight: its provider calls, and its end. */
    method RunWorkflow() returns (exit: Exit)
      requires Valid() && pc.Flight?
      modifies this, row
      ensures Valid() && old(trace) <= trace && Left(exit)
      ensures exit.Continue? || exit.Crashed? || exit.Raised?
      ensures exit.Continue? ==>
        pc == Ended(old(pc).chapter, old(pc).workflow, world.course(old(clock)).end, old(pc).mode)
      ensures Undisturbed(world) ==>
        var course := world.course(old(clock));
        && (exit.Continue? <==> !course.end.WorkflowRunning?)
        && row.callRows == old(row.callRows) + CallsOf(old(pc).workflow, course.calls)
    {
      hide Valid, ActedOn, Undisturbed, Justified, CallsOf;
      var n := Ask();
      exit := MakeCalls(n);
      if !exit.Continue? { return; }
      exit := Interfere();
      if !exit.Continue? { return; }
      var course := world.course(n);
      if course.end.WorkflowRunning? {
        RaiseSaid(world, n, ExecutionError);
        exit := Fail();
      } else {
        EndWorkflow(n, course.end, course.version);
      }
    }

    /** The provider calls of the workflow in flight, others acting before each. */
    method MakeCalls(n: nat) returns (exit: Exit)
      requires Valid() && pc.Flight?
      modifies this, row
      ensures Valid() && old(trace) <= trace && Left(exit)
      ensures exit.Continue? || exit.Crashed? || exit.Raised?
      ensures exit.Continue? ==> pc == old(pc)
      ensures Undisturbed(world) ==>
        exit.Continue? && row.callRows == old(row.callRows) + CallsOf(old(pc).workflow, world.course(n).calls)
    {
      hide Valid, ActedOn, Undisturbed, Justified;
      exit := Continue;
      var calls := world.course(n).calls;
      for i := 0 to |calls|
        invariant Valid() && old(trace) <= trace && pc == old(pc) && exit.Continue?
        invariant Undisturbed(world) ==> row.callRows == old(row.callRows) + CallsOf(old(pc).workflow, calls[..i])
      {
        exit := Interfere();
        if !exit.Continue? { return; }
        CallProvider(n, calls[i]);
        assert calls[..i + 1] == calls[..i] + [calls[i]];
        CallsOfNext(pc.workflow, calls[..i], calls[i]);
      }
      assert calls[..|calls|] == calls;
    }

    method CallProvider(n: nat, answer: Answer)
      requires Valid() && pc.Flight? && answer in world.course(n).calls
      modifies row`callRows, this`pc, this`lost, this`trace, this`script
      ensures Valid() && old(trace) <= trace && pc == old(pc) && lost == old(lost)
      ensures row.callRows == old(row.callRows) + [CallOf(pc.workflow, answer)]
    {
      hide IsRun, Told, Says;
      ghost var was := Now();
      row.callRows := row.callRows + [CallOf(pc.workflow, answer)];
      assert row.Row() == was.db.run;
      assert row.Rows() == was.db.(calls := row.callRows);
      CallSaid(world, n, answer);
      Log(ProviderCall(answer.tokens, answer.cost, answer.succeeded), pc, lost);
    }

    /** The workflow settles; completing, it accepts a version in the same transaction. */
    method EndWorkflow(n: nat, end: WorkflowStatus, version: nat)
      requires Valid() && pc.Flight? && !end.WorkflowRunning?
      requires end == world.course(n).end && version == world.course(n).version
      modifies row`workflows, row`versions, this`pc, this`lost, this`trace, this`script
      ensures Valid() && old(trace) <= trace && lost == old(lost)
      ensures pc == Ended(old(pc).chapter, old(pc).workflow, end, old(pc).mode)
    {
      hide IsRun, Told, Says;
      var w := pc.workflow;
      FlightExists(trace);
      EndRowsNow(w, end, version);
      var a := if end.WorkflowCompleted? then Accept(version) else Settle(end);
      EndSaid(world, n);
      Log(a, Ended(pc.chapter, w, end, pc.mode), lost);
    }

    /** The transaction in which a workflow ends. */
    method EndRowsNow(w: nat, end: WorkflowStatus, version: nat)
      requires w in row.workflows
      modifies row`workflows, row`versions
      ensures row.Rows() == if end.WorkflowCompleted? then AcceptVersion(old(row.Rows()), w, version)
                            else WithWorkflowStatus(old(row.Rows()), w, end)
    {
      ghost var was := row.Rows();
      row.workflows := row.workflows[w := row.workflows[w].(status := end)];
      if end.WorkflowCompleted? { row.versions := row.versions[row.workflows[w].chapter := version]; }
      assert row.Row() == was.run;
      assert row.Rows() == was.(workflows := row.workflows, accepted := row.versions);
    }

    // ------------------------------------------------------------- one chapter

    /** Record the ended workflow as a child job, then bring usage up to date. */
    method RecordAndSettle() returns (exit: Exit)
      requires Valid() && Recordable(pc)
      modifies this, row
      ensures Valid() && old(trace) <= trace && Left(exit)
      ensures exit.Continue? || exit.Crashed? || exit.Raised?
      ensures exit.Continue? ==> pc == Settled(old(pc).chapter, old(pc).status, old(pc).mode)
    {
      hide IsRun, Told, Recordable, ActedOn;
      RecordCompletion();
      exit := Interfere();
      if !exit.Continue? { return; }
      RefreshUsage();
    }

    method RecordCompletion()
      requires Valid() && Recordable(pc)
      modifies this, row
      ensures Valid() && old(trace) <= trace
      ensures pc == RecordedPc(old(pc).chapter, old(pc).workflow, old(pc).status, old(pc).mode)
    {
      hide IsRun, Told, Says;
      ReadyRows(trace);
      var j := FiniteSets.NextId(row.jobs.Keys);
      RecordRowsNow(j);
      Log(RecordChapter(j), RecordedPc(pc.chapter, pc.workflow, pc.status, pc.mode), lost + 1);
    }

    /** The transaction of the recording. */
    method RecordRowsNow(j: nat)
      requires pc.Ended? && row.total > 0
      modifies row
      ensures row.Rows() == Record(old(row.Rows()), pc.chapter, pc.workflow, pc.status, j)
    {
      ghost var was := row.Rows();
      var child := ChildRow(j);
      NoteRow(Recorded(pc.status), child);
      assert row.Rows() == was.(run := row.Row(), jobs := row.jobs, keys := row.keys, successes := row.successes);
    }

    method ChildRow(j: nat) returns (child: nat)
      requires pc.Ended?
      modifies row`jobs, row`keys, row`successes
      ensures var key, released := ChildKey(pc.chapter, pc.workflow), SetJobWorkflow(old(row.jobs), row.top, None);
        && child == (if key in old(row.keys) then old(row.keys)[key] else j)
        && row.keys == old(row.keys)[key := child]
        && row.jobs == (if key in old(row.keys) then released
                        else released[j := Job(Some(pc.workflow), true, Some(row.top), Some(pc.chapter))])
        && row.successes == (if key in old(row.keys) then old(row.successes)
                             else old(row.successes)[j := old(row.successes)[j] + 1])
      ensures row.Row() == old(row.Row())
    {
      row.ReleaseTopJob();
      child := row.ChildJob(pc.chapter, pc.workflow, j);
    }

    method NoteRow(end: ChapterState, child: nat)
      requires pc.Ended? && row.total > 0
      modifies row`chapters, row`jobMap, row`workflow, row`completed, row`accepted, row`needsReview, row`progress
      ensures row.Row() == RowRecorded(old(row.Row()), pc.chapter, end, child)
    {
      row.NoteChapter(pc.chapter, end, child);
    }

    method RefreshUsage()
      requires Valid() && pc.RecordedPc?
      modifies this, row
      ensures Valid() && old(trace) <= trace
      ensures pc == Settled(old(pc).chapter, old(pc).status, old(pc).mode)
    {
      hide IsRun, Told, Says;
      ghost var was := Now();
      row.RefreshUsage(pc.workflow);
      assert row.Row() == was.db.run.(usage := Usage(row.calls, row.tokens, row.cost));
      assert row.Rows() == was.db.(run := row.Row());
      Log(SettleUsage, Settled(pc.chapter, pc.status, pc.mode), 0);
    }

    /** Mark the chapter running, and start its workflow or go on with the one in flight. */
    method ExecuteChapter() returns (exit: Exit)
      requires Valid() && pc.Picked?
      modifies this, row
      ensures Valid() && old(trace) <= trace && Left(exit)
      ensures exit.Continue? || exit.Crashed? || exit.Raised?
      ensures exit.Continue? ==> pc.Settled? && pc.chapter == old(pc).chapter && pc.mode.Generation?
    {
      hide Valid, ActedOn, Undisturbed, Now, CallsOf;
      MarkChapterRunning();
      exit := Interfere();
      if !exit.Continue? { return; }
      exit := AttachWorkflow();
      if !exit.Continue? { return; }
      if pc.Flight? {
        exit := RunWorkflow();
        if !exit.Continue? { return; }
      }
      exit := FinishChapter();
    }

    /** A paused workflow pauses the run; any other end is recorded. */
    method FinishChapter() returns (exit: Exit)
      requires Valid() && pc.Ended? && pc.mode.Generation?
      modifies this, row
      ensures Valid() && old(trace) <= trace && Left(exit)
      ensures exit.Continue? || exit.Crashed? || exit.Raised?
      ensures exit.Continue? ==> pc == Settled(old(pc).chapter, old(pc).status, Generation)
      ensures old(pc).status.WorkflowPaused? ==> exit == Raised(PauseRequested)
    {
      hide Valid, ActedOn, Undisturbed;
      if pc.status.WorkflowPaused? {
        exit := GiveUp();
        return;
      }
      exit := Interfere();
      if !exit.Continue? { return; }
      exit := RecordAndSettle();
    }

    method MarkChapterRunning()
      requires Valid() && pc.Picked?
      modifies this, row
      ensures Valid() && old(trace) <= trace && pc == Marked(old(pc).chapter)
    {
      hide IsRun, Told, Says;
      ghost var was := Now();
      row.MarkChapterRunning(pc.chapter);
      assert row.Rows() == was.db.(run := row.Row());
      Log(MarkChapter, Marked(pc.chapter), lost);
    }

    method AttachWorkflow() returns (exit: Exit)
      requires Valid() && pc.Marked?
      modifies this, row
      ensures Valid() && old(trace) <= trace && Left(exit)
      ensures exit.Continue? || exit.Raised?
      ensures exit.Continue? ==> (pc.Flight? || pc.Ended?) && pc.chapter == old(pc).chapter && pc.mode.Generation?
    {
      hide IsRun, Told, Says;
      var c := pc.chapter;
      var current := if row.current == Some(c) then row.workflow else None;
      if current.None? {
        StartWorkflow();
        return Continue;
      }
      var w := current.value;
      if w !in row.workflows {
        Log(Attach(0), Stopping(ExecutionError), lost);
        return Raised(ExecutionError);
      }
      match row.workflows[w].status {
        case WorkflowPaused =>
          ResumeWorkflow(w);
          exit := Continue;
        case WorkflowCompleted =>
          Log(Attach(0), Ended(c, w, WorkflowCompleted, Generation), lost);
          exit := Continue;
        case WorkflowNeedsReview =>
          Log(Attach(0), Ended(c, w, WorkflowNeedsReview, Generation), lost);
          exit := Continue;
        case _ =>
          Log(Attach(0), Stopping(ExecutionError), lost);
          exit := Raised(ExecutionError);
      }
    }

    /** The transaction that inserts a workflow and links it. */
    method LinkRows(c: nat, w: nat)
      modifies row
      ensures row.Rows() == Link(old(row.Rows()), c, w)
    {
      ghost var was := row.Rows();
      row.LinkWorkflow(c, w);
      assert row.Row() == was.run.(workflow := row.workflow);
      assert row.Rows() == was.(run := row.Row(), workflows := row.workflows, jobs := row.jobs);
    }

    method StartWorkflow()
      requires Valid() && pc.Marked? && CurrentWorkflow(row.Row(), pc.chapter).None?
      modifies this, row
      ensures Valid() && old(trace) <= trace && pc.Flight? && pc.chapter == old(pc).chapter && pc.mode.Generation?
    {
      hide IsRun, Told, Says;
      ReadyRows(trace);
      var id := FiniteSets.NextId(row.workflows.Keys);
      LinkRows(pc.chapter, id);
      Log(Attach(id), Flight(pc.chapter, id, Generation), lost);
    }

    method ResumeWorkflow(w: nat)
      requires Valid() && pc.Marked? && CurrentWorkflow(row.Row(), pc.chapter) == Some(w)
      requires w in row.workflows && row.workflows[w].status.WorkflowPaused?
      modifies this, row`workflows
      ensures Valid() && old(trace) <= trace && pc == Flight(old(pc).chapter, w, Generation)
    {
      hide IsRun, Told, Says;
      ghost var was := Now();
      row.workflows := row.workflows[w := row.workflows[w].(status := WorkflowRunning)];
      assert row.Row() == was.db.run;
      assert row.Rows() == was.db.(workflows := row.workflows);
      Log(Attach(0), Flight(pc.chapter, w, Generation), lost);
    }

    // --------------------------------------------------------- one pass of the loop

    method SyncAccepted()
      requires Valid() && pc.Top?
      modifies this, row
      ensures Valid() && old(trace) <= trace && pc == Synced
    {
      hide IsRun, Told, Says;
      ReadyRows(trace);
      SyncRowsNow();
      Log(BookMachine.SyncAccepted, Synced, lost);
    }

    /** The transaction of the synchronisation. */
    method SyncRowsNow()
      requires row.total > 0 && forall c :: c in row.chapters <==> 1 <= c <= row.total
      modifies row
      ensures row.Rows() == Sync(old(row.Rows()))
    {
      ghost var was := row.Rows();
      row.SyncAlreadyAccepted();
      assert row.Row() == RowSynced(was.run, was.accepted);
      assert row.Rows() == was.(run := row.Row());
    }

    /** Resume the chapter in flight, or do what the scheduler decides. */
    method ChooseChapter()
      requires Valid() && pc.Synced?
      modifies this
      ensures Valid() && old(trace) <= trace
      ensures pc.Picked? || pc.Stopping? || pc.FinishingReview? || pc.Generated? || pc.Gate?
    {
      hide IsRun, Told, Says;
      if row.workflow.Some? && row.current.Some? && row.current.value in row.chapters
         && row.chapters[row.current.value] == Running {
        Log(Choose, Picked(row.current.value), lost);
        return;
      }
      match Decide(row.total, row.chapters, row.status == CancelRequested) {
        case CancelRun => Log(Choose, Stopping(CancelAccepted), lost);
        case HumanReview => Log(Choose, FinishingReview, lost);
        case Wait => Log(Choose, Stopping(ExecutionError), lost);
        case AllDone => Log(Choose, Generated, lost);
        case Schedule(c) => Log(Choose, Gate(c), lost);
      }
    }

    method PassBudgetGate()
      requires Valid() && pc.Gate?
      modifies this, row
      ensures Valid() && old(trace) <= trace
      ensures pc == Picked(old(pc).chapter) || pc.Stopping?
    {
      hide IsRun, Told, Says;
      ghost var was := Now();
      var blocked, ok := row.BudgetGate();
      assert row.Row() == was.db.run.(status := row.status);
      assert row.Rows() == was.db.(run := row.Row());
      if !blocked {
        Log(PassGate, Picked(pc.chapter), lost);
      } else if ok {
        Log(PassGate, Stopping(PauseRequested), lost);
      } else {
        Log(PassGate, Stopping(ExecutionError), lost);
      }
    }

    method FinishForReview()
      requires Valid() && (pc.FinishingReview? || (pc.Analysed? && pc.second && !pc.passed))
      modifies this, row
      ensures Valid() && old(trace) <= trace
      ensures pc.Returned? || pc == Stopping(ExecutionError)
      ensures pc.Returned? ==> row.status == CompletedNeedsReview
    {
      hide IsRun, Told, Says, Fire, RowUnreviewed, Justified, Scripted;
      NotCompleted();
      NotAsked(world, FinishReview);
      FinishFires(Now());
      var ok := FinishRowsNow();
      if ok {
        Log(FinishReview, Returned, lost);
      } else {
        Log(FinishReview, Stopping(ExecutionError), lost);
      }
    }

    /** The transaction that leaves the run for review. */
    method FinishRowsNow() returns (ok: bool)
      modifies row`status, row`progress
      ensures var left := RowUnreviewed(old(row.Row()));
        && ok == left.Some?
        && row.Rows() == if ok then old(row.Rows()).(run := left.value) else old(row.Rows())
      ensures ok && old(row.status) != Completed ==> row.status == CompletedNeedsReview
    {
      ghost var was := row.Rows();
      ok := row.FinishUnreviewed();
      assert row.Rows() == was.(run := row.Row());
    }

    lemma NotCompleted()
      requires Valid() && Active(pc)
      ensures row.status != Completed
    {
      hide IsRun, Told, Inv;
      HasHistory();
      RunKeeps(trace, |trace| - 1);
      StatusFacts(Now());
    }

    method DispatchChapter()
      requires Valid() && pc.Settled? && pc.mode.Generation?
      modifies this
      ensures Valid() && old(trace) <= trace
      ensures pc.FinishingReview? || pc.Top? || pc.Checking? || pc.Stopping?
      ensures pc.Top? || pc.Checking? ==> old(pc).status.WorkflowCompleted?
    {
      hide IsRun, Told, Says;
      ReadyRows(trace);
      if pc.status.WorkflowNeedsReview? {
        Log(AfterChapter, FinishingReview, lost);
      } else if !pc.status.WorkflowCompleted? {
        Log(AfterChapter, Stopping(ExecutionError), lost);
      } else if pc.chapter % row.interval == 0 {
        Log(AfterChapter, Checking(pc.chapter), lost);
      } else {
        Log(AfterChapter, Top, lost);
      }
    }

    /** The check after a chapter, before which a pending request stops. */
    method CheckAfterChapter() returns (exit: Exit)
      requires Valid() && pc.Checking?
      modifies this, row
      ensures Valid() && old(trace) <= trace && Left(exit)
      ensures exit.Continue? || exit.Crashed? || exit.Raised?
      ensures exit.Continue? ==> pc.Top? || pc.Stopping?
      ensures forall reason :: Interrupts(world, reason) ==> exit == Raised(reason)
    {
      hide Valid, ActedOn, Undisturbed;
      exit := Interfere();
      if exit.Continue? { CheckPeriod(); }
    }

    /** The world's check: only one that is not critical lets the loop go on. */
    method CheckPeriod()
      requires Valid() && pc.Checking?
      modifies this, row
      ensures Valid() && old(trace) <= trace
      ensures pc.Top? || pc.Stopping?
      ensures pc.Top? <==> !world.critical(old(clock))
    {
      hide IsRun, Told, Says, Fire, Justified;
      var n := Ask();
      var critical := world.critical(n);
      CheckSaid(world, n);
      CheckFires(Now(), critical);
      var ok := CheckRowsNow(critical);
      if !ok {
        Log(CheckPeriodically(critical), Stopping(ExecutionError), lost);
      } else if critical {
        Log(CheckPeriodically(critical), Stopping(PauseRequested), lost);
      } else {
        Log(CheckPeriodically(critical), Top, lost);
      }
    }

    /** The transaction of a periodic check. */
    method CheckRowsNow(critical: bool) returns (ok: bool)
      requires pc.Checking?
      modifies row`checks, row`status
      ensures var checked := RowChecked(old(row.Row()), pc.chapter, critical);
        && ok == checked.Some?
        && row.Rows() == if ok then old(row.Rows()).(run := checked.value) else old(row.Rows())
    {
      ghost var was := row.Rows();
      ok := row.RecordPeriodicCheck(pc.chapter, critical);
      assert row.Rows() == was.(run := row.Row());
    }

    /** How `execute` is left once the program counter has left its loop. */
    method Leave() returns (exit: Exit)
      requires Valid() && (pc.Stopping? || pc.FinishingReview?)
      modifies this, row
      ensures Valid() && old(trace) <= trace && Left(exit)
      ensures exit.Finished? || exit.Crashed? || exit.Raised?
      ensures exit.Finished? ==> row.status == CompletedNeedsReview
    {
      hide Valid, ActedOn;
      if pc.FinishingReview? {
        exit := Interfere();
        if !exit.Continue? { return; }
        FinishForReview();
      }
      exit := if pc.Returned? then Finished else Raised(pc.reason);
    }

    /**
     One turn of the loop; going on, it leaves one more chapter accepted, and returning, a
     run for review. With a request pending it does not go on.
     */
    method Pass() returns (exit: Exit)
      requires Valid() && pc.Top?
      modifies this, row
      ensures Valid() && old(trace) <= trace && Left(exit)
      ensures exit.Continue? ==> pc.Top? && OneMore(old(trace), trace)
      ensures exit.Finished? ==> row.status == CompletedNeedsReview
      ensures forall reason :: Interrupts(world, reason) ==> !exit.Continue?
    {
      hide Valid, ActedOn, OneMore, FinalAccepted, AcceptedSet, Fire, IsRun, Now;
      HasHistory();
      exit := Interfere();
      if !exit.Continue? { return; }
      SyncAccepted();
      exit := Interfere();
      if !exit.Continue? { return; }
      ChooseChapter();
      if pc.Generated? { return LoopDone; }
      if pc.Gate? {
        exit := Interfere();
        if !exit.Continue? { return; }
        PassBudgetGate();
      }
      if !pc.Picked? {
        exit := Leave();
        return;
      }
      ghost var picked := trace;
      exit := RunPicked();
      if exit.Continue? { GainedSince(old(trace), picked); }
    }

    /**
     The second half of a turn: the picked chapter, and what follows from its end. A
     pending request stops it before the chapter.
     */
    method RunPicked() returns (exit: Exit)
      requires Valid() && pc.Picked?
      modifies this, row
      ensures Valid() && old(trace) <= trace && Left(exit)
      ensures exit.Continue? ==> pc.Top? && OneMore(old(trace), trace)
      ensures exit.Finished? ==> row.status == CompletedNeedsReview
      ensures forall reason :: Interrupts(world, reason) ==> exit == Raised(reason)
      ensures !exit.LoopDone?
    {
      hide Valid, ActedOn, OneMore, FinalAccepted, AcceptedSet, Fire, IsRun, Now;
      ghost var picked, c := trace, pc.chapter;
      PickedIsOpen();
      exit := Interfere();
      if !exit.Continue? { return; }
      exit := ExecuteChapter();
      if !exit.Continue? { return; }
      exit := Interfere();
      if !exit.Continue? { return; }
      ghost var settled := trace;
      if pc.status.WorkflowCompleted? { SettledIsAccepted(); }
      DispatchChapter();
      if pc.Checking? {
        exit := CheckAfterChapter();
        if !exit.Continue? { return; }
      }
      if pc.Top? {
        Gained(picked, settled, c);
        exit := Continue;
      } else {
        exit := Leave();
      }
    }

    lemma HasHistory()
      requires Valid()
      ensures trace != [] && Now() == trace[|trace| - 1]
    {}

    lemma PickedIsOpen()
      requires Valid() && pc.Picked?
      ensures trace != [] && pc.chapter !in FinalAccepted(trace)
    {
      hide IsRun, Told, Inv;
      HasHistory();
      RunKeeps(trace, |trace| - 1);
      OpenOrAccepted(Now());
    }

    lemma SettledIsAccepted()
      requires Valid() && pc.Settled? && pc.status.WorkflowCompleted?
      ensures trace != [] && pc.chapter in FinalAccepted(trace)
    {
      hide IsRun, Told, Inv;
      HasHistory();
      RunKeeps(trace, |trace| - 1);
      OpenOrAccepted(Now());
    }

    /** Chapter `c` was accepted after `was`, and nothing is ever undone. */
    lemma Gained(was: seq<Sys>, mid: seq<Sys>, c: nat)
      requires Valid() && was <= mid <= trace && was != []
      requires c !in FinalAccepted(was) && c in FinalAccepted(mid)
      ensures OneMore(was, trace)
    {
      hide Grows, IsRun, Told;
      AcceptedGrows(trace, |was| - 1, |mid| - 1);
      AcceptedGrows(trace, |mid| - 1, |trace| - 1);
      FiniteSets.SubsetSize(FinalAccepted(was) + {c}, FinalAccepted(trace));
    }

    lemma GainedSince(was: seq<Sys>, mid: seq<Sys>)
      requires Valid() && was <= mid <= trace && was != [] && OneMore(mid, trace)
      ensures OneMore(was, trace)
    {
      hide IsRun, Told;
      AcceptedGrows(trace, |was| - 1, |mid| - 1);
      FiniteSets.SubsetSize(FinalAccepted(was), FinalAccepted(mid));
    }

    // ------------------------------------------------------------- global review

    method BeginReview()
      requires Valid() && pc.Generated?
      modifies this, row
      ensures Valid() && old(trace) <= trace && pc == Review(false)
    {
      hide IsRun, Told, Says;
      ghost var was := Now();
      row.MarkGlobalReview();
      assert row.Rows() == was.db.(run := row.Row());
      Log(ReviewBook, Review(false), lost);
    }

    /** Find the snapshot of the current versions, or build one under a fresh id. */
    method Snapshot() returns (exit: Exit)
      requires Valid() && pc.Review?
      modifies this, row
      ensures Valid() && old(trace) <= trace && Left(exit)
      ensures exit == Continue || exit == Raised(ExecutionError)
      ensures exit.Continue? ==> pc.Snapped? && pc.second == old(pc).second
    {
      hide IsRun, Told, Says, Fire, HasEveryVersion, CurrentVersions, FitsSnapshot;
      ghost var was := Now();
      var sid, selected := SnapshotFor();
      SnapshotFires(was, sid);
      if selected.None? {
        Log(BuildSnapshot(sid), Stopping(ExecutionError), lost);
        return Raised(ExecutionError);
      }
      var second := pc.second;
      row.BuildSnapshot(sid, selected.value);
      assert row.Rows() == was.db.(run := row.Row(), snapshots := row.snapshots);
      Log(BuildSnapshot(sid), Snapped(sid, second), lost);
      exit := Continue;
    }

    method SnapshotFor() returns (sid: nat, selected: Option<map<nat, nat>>)
      ensures selected.Some? <==> HasEveryVersion(row.Rows())
      ensures selected.Some? ==> selected.value == CurrentVersions(row.Rows()) && FitsSnapshot(row.Rows(), sid)
    {
      sid := SnapshotId();
      selected := row.SelectedVersions();
      SelectedIsCurrent(row.Rows(), selected);
      if selected.Some? {
        assert forall c :: c in selected.value <==> 1 <= c <= row.total && c in row.versions;
      }
    }

    /** The id of the snapshot that holds the accepted versions, or a fresh one when there is none. */
    method SnapshotId() returns (sid: nat)
      ensures sid in row.snapshots ==>
        forall c :: if 1 <= c <= row.total && c in row.versions
                    then c in row.snapshots[sid] && row.snapshots[sid][c] == row.versions[c]
                    else c !in row.snapshots[sid]
      ensures sid !in row.snapshots ==> forall k | k in row.snapshots :: exists c ::
        if 1 <= c <= row.total && c in row.versions
        then c !in row.snapshots[k] || row.snapshots[k][c] != row.versions[c]
        else c in row.snapshots[k]
    {
      var current := map c | c in row.versions && 1 <= c <= row.total :: row.versions[c];
      var known := set k | k in row.snapshots && row.snapshots[k] == current;
      if known != {} {
        sid :| sid in known;
      } else {
        sid := FiniteSets.NextId(row.snapshots.Keys);
        forall k | k in row.snapshots ensures exists c ::
          if 1 <= c <= row.total && c in row.versions
          then c !in row.snapshots[k] || row.snapshots[k][c] != row.versions[c]
          else c in row.snapshots[k]
        {
          assert k !in known && row.snapshots[k] != current;
        }
      }
    }

    method Analyse() returns (passed: bool)
      requires Valid() && pc.Snapped?
      modifies this, row
      ensures Valid() && old(trace) <= trace
      ensures pc.Analysed? && pc.passed == passed && pc.second == old(pc).second
      ensures Verdict(pc.passed, pc.targeted) == world.verdict(old(clock)) && pc.snapshot == old(pc).snapshot
    {
      hide IsRun, Told, Says, Justified;
      var targeted := world.verdict(clock).targeted;
      passed := world.verdict(clock).passed;
      VerdictSaid(world, clock);
      clock := clock + 1;
      hide Fire;
      AnalyseFires(Now(), passed, targeted);
      EvaluateRowsNow(passed);
      Log(AnalyseBook(passed, targeted), Analysed(pc.snapshot, passed, targeted, pc.second), lost);
    }

    /** The transaction that notes the evaluation. */
    method EvaluateRowsNow(passed: bool)
      requires pc.Snapped?
      modifies row`evaluations
      ensures row.Rows() == BookModel.Analyse(old(row.Rows()), pc.snapshot, passed)
      ensures row.evaluations == old(row.evaluations) + [Evaluation(pc.snapshot, passed)]
    {
      ghost var was := row.Rows();
      row.evaluations := row.evaluations + [Evaluation(pc.snapshot, passed)];
      assert row.Row() == was.run;
      assert row.Rows() == was.(evaluations := row.evaluations);
    }

    method Complete()
      requires Valid() && pc.Analysed? && pc.passed
      modifies this, row
      ensures Valid() && old(trace) <= trace
      ensures pc.Returned? || pc == Stopping(ExecutionError)
    {
      hide IsRun, Told, Says;
      ghost var was := Now();
      var ok := row.FinishReviewed(pc.snapshot);
      assert row.Rows() == was.db.(run := row.Row());
      if ok {
        Log(CompleteBook, Returned, lost);
      } else {
        Log(CompleteBook, Stopping(ExecutionError), lost);
      }
    }

    /**
     Build, analyse, and complete when the book passed. A pending request stops it before
     the first analysis.
     */
    method ReviewOnce() returns (exit: Exit)
      requires Valid() && pc.Review?
      modifies this, row
      ensures Valid() && old(trace) <= trace && Left(exit)
      ensures exit.Continue? || exit.Finished? || exit.Crashed? || exit.Raised?
      ensures exit.Continue? ==> pc.Analysed? && !pc.passed && pc.second == old(pc).second
      ensures forall reason :: Interrupts(world, reason) && !old(pc).second ==>
        exit == Raised(reason) || exit == Raised(ExecutionError)
    {
      hide Valid, ActedOn, Undisturbed, Now;
      exit := Snapshot();
      if !exit.Continue? { return; }
      exit := Interfere();
      if !exit.Continue? { return; }
      var passed := Analyse();
      exit := Interfere();
      if !exit.Continue? { return; }
      if passed {
        Complete();
        exit := if pc.Returned? then Finished else Raised(ExecutionError);
      }
    }

    /** Open a revision round with the chapters of its plan, or leave the book for review. */
    method DecideOnRevision()
      requires Valid() && pc.Analysed? && !pc.passed && !pc.second
      modifies this, row
      ensures Valid() && old(trace) <= trace
      ensures pc == Revising(world.plan(old(clock))) || pc.Returned? || pc == Stopping(ExecutionError)
    {
      hide IsRun, Told, Says;
      var n := Ask();
      var tasks := world.plan(n);
      PlanSaid(world, n);
      hide Fire, Justified, RowRevised, MayRevise;
      DecideFires(Now(), tasks);
      var revise, ok := DecideRowsNow();
      if !ok {
        Log(DecideRevision(tasks), Stopping(ExecutionError), lost);
      } else if revise {
        Log(DecideRevision(tasks), Revising(tasks), lost);
      } else {
        Log(DecideRevision(tasks), Returned, lost);
      }
    }

    /** The transaction of the decision. */
    method DecideRowsNow() returns (revise: bool, ok: bool)
      requires pc.Analysed?
      modifies row`status, row`progress, row`round
      ensures var revised := RowRevised(old(row.Row()), pc.targeted);
        && revise == MayRevise(old(row.Row()), pc.targeted) && ok == revised.Some?
        && row.Rows() == if ok then old(row.Rows()).(run := revised.value) else old(row.Rows())
    {
      ghost var was := row.Rows();
      revise, ok := row.DecideRevision(pc.targeted);
      assert row.Rows() == was.(run := row.Row());
    }

    /** The workflow of one planned chapter; a chapter that is not in the book is an error. */
    method StartRevision() returns (exit: Exit)
      requires Valid() && pc.Revising? && |pc.rest| > 0
      modifies this, row
      ensures Valid() && old(trace) <= trace && Left(exit)
      ensures exit.Continue? || exit.Raised?
      ensures exit.Continue? ==> pc.Flight? && pc.mode == Revision(old(pc).rest[1..])
    {
      hide IsRun, Told, Says;
      var c, rest := pc.rest[0], pc.rest[1..];
      if !(1 <= c <= row.total) {
        exit := GiveUp();
        return;
      }
      var id := FiniteSets.NextId(row.workflows.Keys);
      LinkRows(c, id);
      Log(StartTask(id), Flight(c, id, Revision(rest)), lost);
      exit := Continue;
    }

    method NextTask()
      requires Valid() && pc.Settled? && pc.mode.Revision?
      modifies this
      ensures Valid() && old(trace) <= trace && pc == Revising(old(pc).mode.rest)
    {
      hide IsRun, Told, Says;
      Log(AfterChapter, Revising(pc.mode.rest), lost);
    }

    method ReviseChapter() returns (exit: Exit)
      requires Valid() && pc.Revising? && |pc.rest| > 0
      modifies this, row
      ensures Valid() && old(trace) <= trace && Left(exit)
      ensures exit.Continue? || exit.Crashed? || exit.Raised?
      ensures exit.Continue? ==> pc == Revising(old(pc).rest[1..])
    {
      hide Valid, ActedOn;
      exit := StartRevision();
      if !exit.Continue? { return; }
      exit := RunWorkflow();
      if !exit.Continue? { return; }
      if !pc.status.WorkflowCompleted? {
        exit := GiveUp();
        return;
      }
      exit := Interfere();
      if !exit.Continue? { return; }
      exit := RecordAndSettle();
      if !exit.Continue? { return; }
      NextTask();
    }

    method CloseRevision() returns (exit: Exit)
      requires Valid() && pc == Revising([])
      modifies this, row
      ensures Valid() && old(trace) <= trace && Left(exit)
      ensures exit.Continue? || exit.Raised?
      ensures exit.Continue? ==> pc == Review(true)
    {
      hide IsRun, Told, Says, Fire;
      ghost var was := Now();
      EndFires(was);
      var ok := row.Transition(GlobalReview);
      assert row.Row() == was.db.run.(status := row.status);
      assert row.Rows() == was.db.(run := row.Row());
      if ok {
        Log(EndRevision, Review(true), lost);
        exit := Continue;
      } else {
        Log(EndRevision, Stopping(ExecutionError), lost);
        exit := Raised(ExecutionError);
      }
    }

    /** One revision round and the second review after it. */
    method Revise() returns (exit: Exit)
      requires Valid() && pc.Revising?
      modifies this, row
      ensures Valid() && old(trace) <= trace && Left(exit)
      ensures exit.Finished? || exit.Crashed? || exit.Raised?
    {
      hide Valid, ActedOn, Undisturbed, Now;
      exit := ReviseChapters();
      if !exit.Continue? { return; }
      exit := CloseRevision();
      if !exit.Continue? { return; }
      exit := Interfere();
      if !exit.Continue? { return; }
      exit := ReviewOnce();
      if !exit.Continue? { return; }
      FinishForReview();
      exit := if pc.Returned? then Finished else Raised(ExecutionError);
    }

    /** The planned chapters, one after the other. */
    method ReviseChapters() returns (exit: Exit)
      requires Valid() && pc.Revising?
      modifies this, row
      ensures Valid() && old(trace) <= trace && Left(exit)
      ensures exit.Continue? || exit.Crashed? || exit.Raised?
      ensures exit.Continue? ==> pc == Revising([])
    {
      hide Valid, ActedOn, Undisturbed, Now;
      while pc.rest != []
        invariant Valid() && old(trace) <= trace && pc.Revising?
        decreases |pc.rest|
      {
        exit := Interfere();
        if !exit.Continue? { return; }
        exit := ReviseChapter();
        if !exit.Continue? { return; }
      }
      exit := Interfere();
    }

    /** The global review, before which a pending request stops. */
    method ReviewWholeBook() returns (exit: Exit)
      requires Valid() && pc.Generated?
      modifies this, row
      ensures Valid() && old(trace) <= trace && Left(exit)
      ensures exit.Finished? || exit.Crashed? || exit.Raised?
      ensures forall reason :: Interrupts(world, reason) ==> exit == Raised(reason)
    {
      hide Valid, ActedOn;
      exit := Interfere();
      if !exit.Continue? { return; }
      BeginReview();
      exit := Interfere();
      if !exit.Continue? { return; }
      exit := ReviewOnce();
      if !exit.Continue? { return; }
      DecideOnRevision();
      if pc.Returned? { return Finished; }
      if pc.Stopping? { return Raised(ExecutionError); }
      exit := Revise();
    }

    // ------------------------------------------------------------------ execute()

    method Initialize()
      requires Valid() && pc.Idle?
      modifies this, row
      ensures Valid() && old(trace) <= trace
      ensures pc.Top? || pc == Stopping(ExecutionError)
    {
      hide IsRun, Told, Says;
      ghost var was := Now();
      var ok := row.Initialize();
      assert row.Row() == was.db.run.(status := row.status);
      assert row.Rows() == was.db.(run := row.Row());
      if ok {
        Log(BookMachine.Initialize, Top, lost);
      } else {
        Log(BookMachine.Initialize, Stopping(ExecutionError), lost);
      }
    }

    /**
     `execute` ends in every world. When it returns normally the run is completed or left
     for review. If nothing is raised from outside, it returns normally or stops itself
     for a cause that stands in the rows. With a request pending, it neither generates the
     next chapter nor begins the review. If nobody interferes, all workflows complete, no
     check is critical and the analysis passes, then an execution that starts in peace,
     as that of every fresh book does, completes the run or stops at the budget gate.
     */
    method Execute() returns (exit: Exit)
      requires Valid() && pc.Idle?
      modifies this, row
      ensures Valid() && old(trace) <= trace && Left(exit)
      ensures exit.Finished? || exit.Crashed? || exit.Raised?
      ensures exit.Finished? ==> row.status.Completed? || row.status.CompletedNeedsReview?
      ensures Untroubled(world) ==> exit.Finished? || (exit.Raised? && StoppedItself(trace, exit.reason))
      ensures forall reason :: Interrupts(world, reason) ==> exit.Raised? || row.status == CompletedNeedsReview
      ensures Peaceful(world) && old(Peace(Now())) ==>
        || (exit == Finished && row.status == Completed)
        || (exit == Raised(PauseRequested) && row.status == BudgetBlocked && OverBudget(row.Row()))
    {
      hide Valid, ActedOn, OneMore, Peace, Interrupts, Untroubled, Peaceful, StoppedItself;
      HasHistory();
      Initialize();
      exit := if pc.Stopping? then Raised(ExecutionError) else Continue;
      while exit.Continue?
        invariant Valid() && old(trace) <= trace && trace != [] && Left(exit)
        invariant exit.Continue? ==> pc.Top?
        invariant exit.Finished? ==> row.status == CompletedNeedsReview
        decreases exit.Continue?, OpenChapters(trace)
      {
        ghost var was := trace;
        exit := Pass();
        if exit.Continue? { FewerOpen(was); }
      }
      if exit.LoopDone? { exit := ReviewWholeBook(); }
      if exit.Finished? { ReturnedIsFinished(); }
      forall reason | Interrupts(world, reason) ensures !exit.Crashed? { StillAlive(exit, reason); }
      if Untroubled(world) { OnlyItself(exit); }
      if Peaceful(world) && old(Peace(Now())) { PeaceHeld(old(trace), exit); }
    }

    lemma StillAlive(exit: Exit, reason: Reason)
      requires Valid() && Left(exit) && Interrupts(world, reason)
      ensures !exit.Crashed?
    {
      hide IsRun, Justified, Fire;
      if exit.Crashed? { NobodyDies(world, reason, script[|script| - 1]); }
    }

    /** With nothing raised from outside, what stopped the run is a step of its own, and so has a cause. */
    lemma OnlyItself(exit: Exit)
      requires Valid() && Untroubled(world) && Left(exit) && (exit.Finished? || exit.Crashed? || exit.Raised?)
      ensures !exit.Crashed? && (exit.Raised? ==> StoppedItself(trace, exit.reason))
    {
      hide IsRun, Untroubled, Justified, Fire;
      if exit.Crashed? {
        NothingRaised(world, script[|script| - 1]);
      } else if exit.Raised? {
        var n := |script| - 1;
        assert Fire(trace[n], script[n]) == Some(trace[n + 1]);
        NothingRaised(world, script[n]);
        StoppingIsOwn(trace[n], script[n], trace[n + 1]);
        StopsExactly(trace, n, script[n]);
      }
    }

    /** In a peaceful world the peace that an execution began with is still there at its end. */
    lemma PeaceHeld(was: seq<Sys>, exit: Exit)
      requires Valid() && Peaceful(world) && was != [] && was <= trace && Peace(was[|was| - 1])
      requires Left(exit) && (exit.Finished? || exit.Crashed? || exit.Raised?)
      ensures exit == Finished ==> row.status == Completed
      ensures exit.Raised? ==> exit.reason == PauseRequested && row.status == BudgetBlocked && OverBudget(row.Row())
      ensures !exit.Crashed?
    {
      hide IsRun, Untroubled, Peaceful, Justified, Fire, Smooth, OverBudget, BookOwnership.Owned;
      forall k | |was| - 1 <= k < |trace| - 1 ensures Smooth(script[k]) { PeacefulIsSmooth(world, script[k]); }
      PeaceLasts(trace, script, |was| - 1, |trace| - 1);
      PeacefulIsUntroubled(world);
      OnlyItself(exit);
    }

    lemma FewerOpen(was: seq<Sys>)
      requires Valid() && was <= trace && OneMore(was, trace)
      ensures was != [] && trace != [] && OpenChapters(trace) < OpenChapters(was)
    {
      hide IsRun, Told, AcceptedSet;
      AcceptedInBook(trace, |trace| - 1);
      RunGrows(trace, |was| - 1, |trace| - 1);
    }

    lemma ReturnedIsFinished()
      requires Valid() && pc.Returned?
      ensures row.status.Completed? || row.status.CompletedNeedsReview?
    {
      hide IsRun, Told, Inv;
      HasHistory();
      RunKeeps(trace, |trace| - 1);
      StatusFacts(Now());
    }

    /**
     The job handler: what was raised decides the status the run is left in. In a peaceful
     world a run that begins in peace ends completed, or blocked by its budget.
     */
    method RunBook() returns (exit: Exit)
      requires Valid() && pc.Idle?
      modifies this, row
      ensures Valid() && old(trace) <= trace
      ensures exit.Finished? || exit.Crashed? || exit.Raised?
      ensures exit.Finished? ==> row.status.Completed? || row.status.CompletedNeedsReview?
      ensures exit.Raised? ==> pc.Idle? && Handled(trace, exit.reason, row.status)
      ensures exit.Crashed? ==> Left(exit)
      ensures Peaceful(world) && old(Peace(Now())) ==> row.status == Completed || row.status == BudgetBlocked
    {
      hide Valid, Peace, Untroubled, Peaceful, StoppedItself;
      exit := Execute();
      if exit.Raised? { HandleRaised(); }
    }

    method HandleRaised()
      requires Valid() && pc.Stopping?
      modifies this, row
      ensures Valid() && old(trace) <= trace && pc.Idle? && Handled(trace, old(pc).reason, row.status)
      ensures old(row.status) == BudgetBlocked && old(pc).reason == PauseRequested ==> row.status == BudgetBlocked
    {
      hide IsRun, Told, Says;
      ghost var was := Now();
      row.HandleStop(pc.reason);
      assert row.Row() == was.db.run.(status := row.status);
      assert row.Rows() == was.db.(run := row.Row());
      Log(Handle, Idle, lost);
    }
  }

  /** The row of a provider call of workflow `w`. */
  function CallOf(w: nat, answer: Answer): Call {
    Call(Some(w), answer.succeeded, answer.tokens, answer.cost)
  }

  function CallsOf(w: nat, answers: seq<Answer>): seq<Call> {
    seq(|answers|, i requires 0 <= i < |answers| => CallOf(w, answers[i]))
  }

  lemma CallsOfNext(w: nat, answers: seq<Answer>, answer: Answer)
    ensures CallsOf(w, answers + [answer]) == CallsOf(w, answers) + [CallOf(w, answer)]
  {}

  /** The last step of the history stopped the run with this reason, for a cause that stood in the rows. */
  ghost predicate StoppedItself(t: seq<Sys>, reason: Reason) {
    && |t| >= 2 && t[|t| - 1].pc == Stopping(reason)
    && (Cause(t[|t| - 2], false) == Some(reason) || Cause(t[|t| - 2], true) == Some(reason))
  }

  /** The last step of the history was the handler's, and left the run in this status. */
  ghost predicate Handled(t: seq<Sys>, reason: Reason, now: RunStatus) {
    && |t| >= 2 && t[|t| - 2].pc == Stopping(reason)
    && var was := t[|t| - 2].db.run.status;
       var works := was in {Pending, PlanningValidation, Generating, GlobalReview, GlobalRevision};
       match reason
       case PauseRequested => now == if works then Paused else was
       case CancelAccepted =>
         now == if (works && was != Pending) || was == CancelRequested then Cancelled else was
       case ExecutionError => now == if works then Failed else was
  }

  /** A step into a stop that was neither raised nor a crash is one of `execute`'s own. */
  lemma StoppingIsOwn(s: Sys, a: Action, t: Sys)
    requires Fire(s, a) == Some(t) && !s.pc.Stopping? && t.pc.Stopping? && !a.Raise? && !a.Crash?
    ensures Own(a)
  {
    hide Execute, ReviewStep, WorkflowStep;
    if !Own(a) && !a.Handle? { PlaceStays(s, a, t); }
    if a.Handle? { HandlesStopped(s); }
  }

  lemma HandlesStopped(s: Sys)
    requires Fire(s, Handle).Some?
    ensures s.pc.Stopping?
  {}

  lemma LeavingFires(s: Sys)
    requires Active(s.pc)
    ensures Fire(s, Crash) == Some(s.(pc := Idle))
    ensures forall reason: Reason | reason.ExecutionError? || Interruptible(s.pc) ::
      Fire(s, Raise(reason)) == Some(s.(pc := Stopping(reason)))
  {}

  lemma AnalyseFires(s: Sys, passed: bool, targeted: bool)
    requires s.pc.Snapped?
    ensures Fire(s, AnalyseBook(passed, targeted)) ==
              Some(s.(db := BookModel.Analyse(s.db, s.pc.snapshot, passed),
                      pc := Analysed(s.pc.snapshot, passed, targeted, s.pc.second)))
  {}

  lemma CheckFires(s: Sys, critical: bool)
    requires s.pc.Checking?
    ensures var checked := RowChecked(s.db.run, s.pc.chapter, critical);
      Fire(s, CheckPeriodically(critical)) ==
        Some(if checked.None? then s.(pc := Stopping(ExecutionError))
             else s.(db := s.db.(run := checked.value), pc := if critical then Stopping(PauseRequested) else Top))
  {
    hide RowChecked;
  }

  lemma FinishFires(s: Sys)
    requires s.pc.FinishingReview? || (s.pc.Analysed? && s.pc.second && !s.pc.passed)
    ensures var left := RowUnreviewed(s.db.run);
      Fire(s, FinishReview) ==
        Some(if left.None? then s.(pc := Stopping(ExecutionError))
             else s.(db := s.db.(run := left.value), pc := Returned))
  {
    hide RowUnreviewed;
  }

  lemma EndFires(s: Sys)
    requires s.pc == Revising([])
    ensures Fire(s, EndRevision) ==
              Some(if Move(s.db.run.status, GlobalReview).None? then s.(pc := Stopping(ExecutionError))
                   else s.(db := s.db.(run := s.db.run.(status := GlobalReview)), pc := Review(true)))
  {}

  /** What others do is an answer of the world. */
  lemma ByOthers(w: World, n: nat, a: Action, s: Sys, t: Sys)
    requires Environment(s, a) == Some(t) && a in w.interlude(n).actions
    ensures Justified(w, a)
  {
    assert Says(w, n, a);
  }

  /** The id is that of the snapshot of the accepted versions, or fresh when there is none. */
  predicate FitsSnapshot(d: Db, sid: nat)
    requires HasEveryVersion(d)
  {
    if sid in d.snapshots then d.snapshots[sid] == CurrentVersions(d) else CurrentVersions(d) !in d.snapshots.Values
  }

  lemma SnapshotFires(s: Sys, sid: nat)
    requires s.pc.Review?
    ensures !HasEveryVersion(s.db) ==> Fire(s, BuildSnapshot(sid)) == Some(Stop(s, ExecutionError))
    ensures HasEveryVersion(s.db) && FitsSnapshot(s.db, sid) ==>
              Fire(s, BuildSnapshot(sid)) == Some(s.(db := TakeSnapshot(s.db, sid), pc := Snapped(sid, s.pc.second)))
  {
    hide HasEveryVersion, CurrentVersions;
  }

  lemma DecideFires(s: Sys, tasks: seq<nat>)
    requires s.pc.Analysed? && !s.pc.passed && !s.pc.second && Distinct(tasks)
    ensures var revised := RowRevised(s.db.run, s.pc.targeted);
      Fire(s, DecideRevision(tasks)) ==
        Some(if revised.None? then s.(pc := Stopping(ExecutionError))
             else s.(db := s.db.(run := revised.value),
                     pc := if MayRevise(s.db.run, s.pc.targeted) then Revising(tasks) else Returned))
  {
    hide RowRevised;
  }

  lemma SelectedIsCurrent(d: Db, selected: Option<map<nat, nat>>)
    requires selected.None? <==> exists c :: 1 <= c <= d.run.total && c !in d.accepted
    requires selected.Some? ==>
      && (forall c :: c in selected.value <==> 1 <= c <= d.run.total)
      && (forall c | 1 <= c <= d.run.total :: c in d.accepted && selected.value[c] == d.accepted[c])
    ensures selected.Some? <==> HasEveryVersion(d)
    ensures selected.Some? ==> selected.value == CurrentVersions(d)
  {}

  /** In every state of a run with a workflow in flight its row exists. */
  lemma FlightExists(t: seq<Sys>)
    requires IsRun(t) && t[|t| - 1].pc.Flight?
    ensures t[|t| - 1].pc.workflow in t[|t| - 1].db.workflows
  {
    RunKeeps(t, |t| - 1);
    FlightRow(t[|t| - 1]);
  }

  lemma FlightRow(s: Sys)
    requires Inv(s) && s.pc.Flight?
    ensures s.pc.workflow in s.db.workflows
  {
    hide JobInv, IndexInv, CountInv, TaskInv, CheckInv, SnapshotInv, CompletionInv, ReviewInv, HandInv, CurrentInv;
  }

  /** What a list of actions of others makes of a state; those that cannot happen do not. */
  function Acted(s: Sys, actions: seq<Action>): Sys {
    if actions == [] then s
    else
      var at := Acted(s, actions[..|actions| - 1]);
      match Environment(at, actions[|actions| - 1])
      case Some(t) => t
      case None => at
  }

  /** What others can change: the status, the limits, and rows of the shared tables. */
  predicate OthersOnly(s: Sys, t: Sys) {
    && t.pc == s.pc && t.lost == s.lost
    && t.db.run == s.db.run.(status := t.db.run.status, caps := t.db.run.caps)
    && t.db == s.db.(run := t.db.run, jobs := t.db.jobs, workflows := t.db.workflows,
                     accepted := t.db.accepted, calls := t.db.calls)
  }

  lemma EnvironmentFires(s: Sys, a: Action, t: Sys)
    requires Environment(s, a) == Some(t)
    ensures Fire(s, a) == Some(t) && OthersOnly(s, t)
  {}

  /** What the transactions need of the rows holds in every state of a run. */
  lemma ReadyRows(t: seq<Sys>)
    requires IsRun(t)
    ensures var s := t[|t| - 1];
      && s.db.run.total > 0 && s.db.interval > 0
      && (forall c :: c in s.db.run.chapters <==> 1 <= c <= s.db.run.total)
      && (s.pc.Marked? || s.pc.Gate? ==> InBook(s.db, s.pc.chapter))
  {
    RunKeeps(t, |t| - 1);
    ReadyRow(t[|t| - 1]);
  }

  lemma ReadyRow(s: Sys)
    requires Inv(s)
    ensures s.db.run.total > 0 && s.db.interval > 0
    ensures forall c :: c in s.db.run.chapters <==> 1 <= c <= s.db.run.total
    ensures s.pc.Marked? || s.pc.Gate? ==> InBook(s.db, s.pc.chapter)
  {
    hide JobInv, IndexInv, CountInv, TaskInv, CheckInv, SnapshotInv, CompletionInv, ReviewInv, FlightInv, CurrentInv;
  }

  function FinalAccepted(t: seq<Sys>): set<nat>
    requires t != []
  {
    AcceptedSet(t[|t| - 1].db.run.chapters)
  }

  lemma AcceptedGrows(t: seq<Sys>, i: nat, k: nat)
    requires IsRun(t) && i <= k < |t|
    ensures AcceptedSet(t[i].db.run.chapters) <= AcceptedSet(t[k].db.run.chapters)
  {
    RunGrows(t, i, k);
    forall c | c in AcceptedSet(t[i].db.run.chapters) ensures c in AcceptedSet(t[k].db.run.chapters) {
      assert StateIs(t[i].db.run.chapters, c, Accepted);
    }
  }

  lemma OpenOrAccepted(s: Sys)
    requires Inv(s)
    ensures s.pc.Picked? ==> s.pc.chapter !in AcceptedSet(s.db.run.chapters)
    ensures s.pc.Settled? && s.pc.status.WorkflowCompleted? ==> s.pc.chapter in AcceptedSet(s.db.run.chapters)
  {
    hide DbInv, CheckInv, TaskInv, HandInv;
  }

  /** The last state of the longer run has more chapters accepted than that of the shorter one. */
  ghost predicate OneMore(was: seq<Sys>, now: seq<Sys>) {
    was != [] && now != [] && |FinalAccepted(was)| < |FinalAccepted(now)|
  }

  function OpenChapters(t: seq<Sys>): nat
    requires t != []
  {
    var total, done := t[|t| - 1].db.run.total, |FinalAccepted(t)|;
    if done <= total then total - done else 0
  }

  lemma AcceptedInBook(t: seq<Sys>, n: nat)
    requires IsRun(t) && n < |t|
    ensures |AcceptedSet(t[n].db.run.chapters)| <= t[n].db.run.total
  {
    CountersAgree(t, n);
    FiniteSets.SubsetSize(AcceptedSet(t[n].db.run.chapters), DoneSet(t[n].db.run.chapters));
  }
}
