/**
 Executions in which nothing goes wrong: nobody interferes, every chapter workflow
 completes, no periodic check is critical and the analysis passes. They can only end
 in a completed run, or at the budget gate.
 */
module BookPeace {
  import opened Options
  import opened BookModel
  import opened BookMachine
  import opened BookInvariant
  import opened BookPreservation
  import opened BookTheorems
  import opened BookCauses
  import BookOwnership

  /** A step of such an execution; the handler may come after it. */
  predicate Smooth(a: Action) {
    && (Own(a) || a.Handle?)
    && !a.Settle?
    && (a.CheckPeriodically? ==> !a.critical)
    && (a.AnalyseBook? ==> a.passed)
  }

  /**
   A workflow id on the run row is the paused workflow of the running chapter, which
   has no accepted version yet, unless all chapters are accepted; and a running chapter
   has one.
   */
  predicate Calm(d: Db) {
    var r := d.run;
    && (r.workflow.Some? ==>
          || AllAccepted(r.total, r.chapters)
          || (&& r.workflow.value in d.workflows && d.workflows[r.workflow.value].status.WorkflowPaused?
              && r.current.Some? && StateIs(r.chapters, r.current.value, Running) && r.current.value !in d.accepted))
    && (AnyIn(r.chapters, Running) ==> r.workflow.Some?)
  }

  predicate MayExecute(s: RunStatus) {
    s in {Pending, PlanningValidation, Generating, Paused, BudgetBlocked, GlobalReview}
  }

  /** Where such an execution can be, and how. */
  predicate PeacefulPlace(s: Sys) {
    var d, r := s.db, s.db.run;
    match s.pc
    case Idle => MayExecute(r.status) && Calm(d)
    case Top | Synced => (r.status.Generating? || r.status.GlobalReview?) && Calm(d)
    case Gate(_) | Picked(_) | Checking(_) => r.status.Generating? && Calm(d)
    case Marked(c) =>
      && r.status.Generating?
      && (r.workflow.Some? ==>
            r.workflow.value in d.workflows && d.workflows[r.workflow.value].status.WorkflowPaused?)
    case Flight(c, _, mode) => r.status.Generating? && mode.Generation?
    case Ended(c, _, end, mode) =>
      r.status.Generating? && mode.Generation? && end.WorkflowCompleted? && c in d.accepted
    case RecordedPc(_, _, end, mode) => r.status.Generating? && mode.Generation? && end.WorkflowCompleted? && Calm(d)
    case Settled(_, end, mode) => r.status.Generating? && mode.Generation? && end.WorkflowCompleted? && Calm(d)
    case Generated => r.status.Generating? || r.status.GlobalReview?
    case Review(second) => r.status.GlobalReview? && !second
    case Snapped(_, second) => r.status.GlobalReview? && !second
    case Analysed(_, passed, _, second) => r.status.GlobalReview? && passed && !second
    case Stopping(reason) => reason.PauseRequested? && r.status.BudgetBlocked? && OverBudget(r) && Calm(d)
    case Returned => r.status.Completed?
    case FinishingReview | Revising(_) => false
  }

  ghost predicate Peace(s: Sys) {
    && BookOwnership.Owned(s)
    && NoneIn(s.db.run.chapters, NeedsReview)
    && PeacefulPlace(s)
  }

  /** A fresh book is at peace. */
  lemma InitialPeace(s: Sys)
    requires Initial(s)
    ensures Peace(s)
  {
    BookOwnership.InitialOwned(s);
  }

  // --------------------------------------------------------------- step by step

  /** Steps that leave alone what calm speaks of. */
  lemma CalmStays(d: Db, e: Db)
    requires Calm(d) && BookOwnership.Untouched(d, e)
    ensures Calm(e)
  {}

  lemma EnterPeace(s: Sys, a: Action, t: Sys)
    requires Peace(s) && Execute(s, a) == Some(t) && a.Initialize?
    ensures PeacefulPlace(t) && NoneIn(t.db.run.chapters, NeedsReview)
  {
    hide BookOwnership.Owned;
  }

  lemma SyncPeace(s: Sys, t: Sys)
    requires Covers(s.db.run.chapters, s.db.run.total) && Peace(s) && Execute(s, SyncAccepted) == Some(t)
    ensures PeacefulPlace(t) && NoneIn(t.db.run.chapters, NeedsReview)
    ensures !BookOwnership.OpensWindow(s, t)
  {
    hide BookOwnership.Owned, AcceptedSet, DoneSet, Progress;
  }

  lemma ChoosePeace(s: Sys, t: Sys)
    requires Inv(s) && Peace(s) && Execute(s, Choose) == Some(t)
    ensures PeacefulPlace(t) && NoneIn(t.db.run.chapters, NeedsReview)
  {
    hide BookOwnership.Owned, Chosen, Inv;
    NextChapter(s);
    if s.db.run.status.GlobalReview? { OpenInGeneration(s); }
  }

  lemma GatePeace(s: Sys, t: Sys)
    requires Peace(s) && Execute(s, PassGate) == Some(t)
    ensures PeacefulPlace(t) && NoneIn(t.db.run.chapters, NeedsReview)
  {
    hide BookOwnership.Owned;
  }

  lemma MarkPeace(s: Sys, t: Sys)
    requires Inv(s) && Peace(s) && Execute(s, MarkChapter) == Some(t)
    ensures PeacefulPlace(t) && NoneIn(t.db.run.chapters, NeedsReview)
  {
    hide BookOwnership.Owned, Inv;
    PickedFacts(s);
  }

  lemma PickedFacts(s: Sys)
    requires Inv(s) && s.pc.Picked?
    ensures var r := s.db.run;
      && 1 <= s.pc.chapter <= r.total && s.pc.chapter in r.chapters && r.chapters[s.pc.chapter] != Accepted
      && (|| (StateIs(r.chapters, s.pc.chapter, Planned) && NoneIn(r.chapters, Running))
          || (StateIs(r.chapters, s.pc.chapter, Running) && r.current == Some(s.pc.chapter)))
  {
    hide JobInv, IndexInv, CountInv, TaskInv, CheckInv, SnapshotInv, CompletionInv, ReviewInv, FlightInv, HandInv;
  }

  lemma AttachPeace(s: Sys, id: nat, t: Sys)
    requires Inv(s) && Peace(s) && Execute(s, Attach(id)) == Some(t)
    ensures PeacefulPlace(t) && NoneIn(t.db.run.chapters, NeedsReview)
  {
    hide BookOwnership.Owned, Inv;
    MarkedIsCurrent(s);
  }

  lemma AcceptPeace(s: Sys, a: Action, t: Sys)
    requires Peace(s) && WorkflowStep(s, a) == Some(t) && (a.Accept? || a.ProviderCall?)
    ensures PeacefulPlace(t) && NoneIn(t.db.run.chapters, NeedsReview)
  {}

  lemma RecordPeace(s: Sys, j: nat, t: Sys)
    requires Inv(s) && Peace(s) && Execute(s, RecordChapter(j)) == Some(t)
    ensures PeacefulPlace(t) && NoneIn(t.db.run.chapters, NeedsReview)
  {
    hide BookOwnership.Owned, Inv, AcceptedSet, DoneSet, ReviewSet, Progress;
    EndedIsCurrent(s);
  }

  lemma EndedIsCurrent(s: Sys)
    requires Inv(s) && s.pc.Ended? && s.pc.mode.Generation?
    ensures s.db.run.current == Some(s.pc.chapter)
    ensures forall c | c in s.db.run.chapters && s.db.run.chapters[c] == Running :: c == s.pc.chapter
  {
    hide JobInv, IndexInv, CountInv, TaskInv, CheckInv, SnapshotInv, CompletionInv, ReviewInv, FlightInv, HandInv;
  }

  lemma AfterPeace(s: Sys, a: Action, t: Sys)
    requires Peace(s) && Execute(s, a) == Some(t) && Smooth(a)
    requires a.SettleUsage? || a.AfterChapter? || a.CheckPeriodically? || a.FinishReview?
    ensures PeacefulPlace(t) && NoneIn(t.db.run.chapters, NeedsReview)
  {
    hide BookOwnership.Owned, Spent, Calm;
    if a.SettleUsage? || a.CheckPeriodically? { CalmStays(s.db, t.db); }
  }

  lemma ReviewPeace(s: Sys, a: Action, t: Sys)
    requires Peace(s) && ReviewStep(s, a) == Some(t) && Smooth(a)
    requires a.ReviewBook? || a.AnalyseBook? || a.CompleteBook?
    ensures PeacefulPlace(t) && NoneIn(t.db.run.chapters, NeedsReview)
  {
    hide Calm, BookOwnership.Owned;
  }

  /** There is no revision in peace. */
  lemma NoRevision(s: Sys, a: Action)
    requires Peace(s) && (a.DecideRevision? || a.StartTask? || a.EndRevision?)
    ensures ReviewStep(s, a).None?
  {
    hide Calm, BookOwnership.Owned, Distinct, OpenRevision, Link;
  }

  lemma SnapshotPeace(s: Sys, sid: nat, t: Sys)
    requires Inv(s) && Peace(s) && ReviewStep(s, BuildSnapshot(sid)) == Some(t)
    ensures PeacefulPlace(t) && NoneIn(t.db.run.chapters, NeedsReview)
  {
    hide Inv, CurrentVersions, HasEveryVersion, Calm, BookOwnership.Owned;
    ReviewedIsWritten(s);
  }

  lemma ReviewedIsWritten(s: Sys)
    requires Inv(s) && BookOwnership.Owned(s) && s.pc.Review?
    ensures HasEveryVersion(s.db)
  {
    hide DbInv, TaskInv, CheckInv, HandInv, StatusInv, BookOwnership.FlightOwn, BookOwnership.HandOwn;
  }

  lemma HandlePeace(s: Sys, t: Sys)
    requires Peace(s) && WorkflowStep(s, Handle) == Some(t)
    ensures PeacefulPlace(t) && NoneIn(t.db.run.chapters, NeedsReview)
  {
    hide BookOwnership.Owned, OverBudget;
  }

  lemma GiveUpPeace(s: Sys, t: Sys)
    requires Peace(s)
    ensures WorkflowStep(s, GiveUp) != Some(t)
  {}

  /** Only the synchronisation leads from the top of the loop to the place after it. */
  lemma NotSyncing(s: Sys, a: Action, t: Sys)
    requires Fire(s, a) == Some(t) && BookOwnership.OpensWindow(s, t)
    ensures a.SyncAccepted?
  {
    hide BookOwnership.Separated, Execute, ReviewStep, WorkflowStep, Environment;
    if !a.SyncAccepted? {
      if Execute(s, a) == Some(t) { NoExecution(s, a, t); }
      else if ReviewStep(s, a) == Some(t) { NoReview(s, a, t); }
      else if WorkflowStep(s, a) == Some(t) { NoWorkflow(s, a, t); }
      else { PlaceStays(s, a, t); }
    }
  }

  lemma NoExecution(s: Sys, a: Action, t: Sys)
    requires Execute(s, a) == Some(t) && s.pc.Top?
    ensures a.SyncAccepted?
  {
    hide Sync;
  }

  lemma NoReview(s: Sys, a: Action, t: Sys)
    requires ReviewStep(s, a) == Some(t)
    ensures !s.pc.Top?
  {
    hide HasEveryVersion, CurrentVersions, TakeSnapshot;
  }

  lemma NoWorkflow(s: Sys, a: Action, t: Sys)
    requires WorkflowStep(s, a) == Some(t)
    ensures !t.pc.Synced?
  {}

  lemma PlaceStays(s: Sys, a: Action, t: Sys)
    requires Environment(s, a) == Some(t)
    ensures t.pc == s.pc
  {}

  lemma CoveredMap(s: Sys)
    requires Inv(s)
    ensures Covers(s.db.run.chapters, s.db.run.total)
  {
    hide JobInv, IndexInv, CountInv, TaskInv, CheckInv, SnapshotInv, CompletionInv, ReviewInv, FlightInv, HandInv;
  }

  lemma PlacePeace(s: Sys, a: Action, t: Sys)
    requires Inv(s) && Peace(s) && Fire(s, a) == Some(t) && Smooth(a)
    ensures PeacefulPlace(t) && NoneIn(t.db.run.chapters, NeedsReview)
    ensures !BookOwnership.OpensWindow(s, t)
  {
    hide Inv, Peace, PeacefulPlace, BookOwnership.OpensWindow, Execute, ReviewStep, WorkflowStep, Environment, NoneIn;
    if BookOwnership.OpensWindow(s, t) { NotSyncing(s, a, t); }
    CoveredMap(s);
    match a
    case Initialize => EnterPeace(s, a, t);
    case SyncAccepted => SyncPeace(s, t);
    case Choose => ChoosePeace(s, t);
    case PassGate => GatePeace(s, t);
    case MarkChapter => MarkPeace(s, t);
    case Attach(id) => AttachPeace(s, id, t);
    case RecordChapter(j) => RecordPeace(s, j, t);
    case Accept(_) => AcceptPeace(s, a, t);
    case ProviderCall(_, _, _) => AcceptPeace(s, a, t);
    case Handle => HandlePeace(s, t);
    case GiveUp => GiveUpPeace(s, t);
    case SettleUsage => AfterPeace(s, a, t);
    case AfterChapter => AfterPeace(s, a, t);
    case CheckPeriodically(_) => AfterPeace(s, a, t);
    case FinishReview => AfterPeace(s, a, t);
    case BuildSnapshot(sid) => SnapshotPeace(s, sid, t);
    case DecideRevision(_) => NoRevision(s, a);
    case StartTask(_) => NoRevision(s, a);
    case EndRevision => NoRevision(s, a);
    case _ => ReviewPeace(s, a, t);
  }

  /** A smooth step keeps the peace. */
  lemma PeaceKeeps(s: Sys, a: Action, t: Sys)
    requires Inv(s) && Peace(s) && Fire(s, a) == Some(t) && Smooth(a)
    ensures Peace(t)
  {
    hide Inv, PeacefulPlace, BookOwnership.OpensWindow, BookOwnership.Owned, Fire, NoneIn;
    PlacePeace(s, a, t);
    assert Step(s, t);
    BookOwnership.StepOwned(s, t);
  }

  /** `script` lists the actions of the run `t`, one between any two states. */
  ghost predicate Scripted(t: seq<Sys>, script: seq<Action>) {
    && |t| == |script| + 1
    && forall i | 0 <= i < |script| :: Fire(t[i], script[i]) == Some(t[i + 1])
  }

  /** As long as all steps are smooth the peace lasts. */
  lemma {:induction false} PeaceLasts(t: seq<Sys>, script: seq<Action>, i: nat, n: nat)
    requires IsRun(t) && Scripted(t, script) && i <= n < |t| && Peace(t[i])
    requires forall k | i <= k < n :: Smooth(script[k])
    ensures Peace(t[n])
    decreases n - i
  {
    hide Inv, Peace, Smooth, Fire, Initial, Step;
    if i < n {
      PeaceLasts(t, script, i, n - 1);
      RunKeeps(t, n - 1);
      assert Fire(t[n - 1], script[n - 1]) == Some(t[n - 1 + 1]);
      PeaceKeeps(t[n - 1], script[n - 1], t[n]);
    }
  }
}
