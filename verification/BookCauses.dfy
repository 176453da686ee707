/**
 Why `execute` stops itself. The statuses a run can have at each place of the worker
 leave a pending cancellation as the only reason for a refused status change, and so
 every error and pause that `execute` raises on its own has a cause that can be read
 from the rows before the step.
 */
module BookCauses {
  import opened Options
  import opened BookModel
  import opened BookMachine
  import opened BookInvariant
  import opened BookPreservation
  import opened BookTheorems

  // ------------------------------------------------------------- statuses by place

  predicate Or(s: RunStatus, now: RunStatus) {
    s == now || s.CancelRequested?
  }

  predicate StatusIn(s: RunStatus, mode: Mode) {
    Or(s, if mode.Generation? then Generating else GlobalRevision)
  }

  /** The status of a run while its worker is at `pc`, but for a cancellation requested meanwhile. */
  predicate StatusAt(s: RunStatus, pc: Pc) {
    match pc
    case Top | Synced | Generated | FinishingReview => Or(s, Generating) || Or(s, GlobalReview)
    case Gate(_) | Picked(_) | Marked(_) | Checking(_) => Or(s, Generating)
    case Flight(_, _, mode) => StatusIn(s, mode)
    case Ended(_, _, _, mode) => StatusIn(s, mode)
    case RecordedPc(_, _, _, mode) => StatusIn(s, mode)
    case Settled(_, _, mode) => StatusIn(s, mode)
    case Review(_) | Snapped(_, _) | Analysed(_, _, _, _) => Or(s, GlobalReview)
    case Revising(_) => Or(s, GlobalRevision)
    case _ => true
  }

  lemma ExecuteStatus(s: Sys, a: Action, t: Sys)
    requires StatusAt(s.db.run.status, s.pc) && Execute(s, a) == Some(t) && !a.Choose?
    ensures StatusAt(t.db.run.status, t.pc)
  {
    hide StatusAt, GateResult, AttachResult, AfterResult, CheckResult, InitialStatus, Recordable, UpdateUsage, Record;
    if a.Initialize? || a.SyncAccepted? || a.PassGate? || a.MarkChapter? || a.Attach? { StartStatus(s, a, t); }
    else { FinishStatus(s, a, t); }
  }

  lemma StartStatus(s: Sys, a: Action, t: Sys)
    requires StatusAt(s.db.run.status, s.pc) && Execute(s, a) == Some(t)
    requires a.Initialize? || a.SyncAccepted? || a.PassGate? || a.MarkChapter? || a.Attach?
    ensures StatusAt(t.db.run.status, t.pc)
  {
    hide AcceptedSet, DoneSet, Progress, OverBudget;
  }

  lemma FinishStatus(s: Sys, a: Action, t: Sys)
    requires StatusAt(s.db.run.status, s.pc) && Execute(s, a) == Some(t)
    requires a.RecordChapter? || a.SettleUsage? || a.AfterChapter? || a.CheckPeriodically? || a.FinishReview?
    ensures StatusAt(t.db.run.status, t.pc)
  {
    hide Spent, AcceptedSet, DoneSet, ReviewSet, Progress;
  }

  /** With the review begun no chapter is open, so none is scheduled or resumed. */
  lemma ChooseStatus(s: Sys, t: Sys)
    requires Inv(s) && StatusAt(s.db.run.status, s.pc) && Execute(s, Choose) == Some(t)
    ensures StatusAt(t.db.run.status, t.pc)
  {
    hide Chosen, OverBudget;
    NextChapter(s);
    if s.db.run.status.GlobalReview? { OpenInGeneration(s); }
  }

  lemma OpenInGeneration(s: Sys)
    requires Inv(s) && s.db.run.status.GlobalReview?
    ensures !AnyIn(s.db.run.chapters, Running) && forall c :: !StateIs(s.db.run.chapters, c, Planned)
  {
    hide MapInv, JobInv, IndexInv, CountInv, TaskInv, CheckInv, SnapshotInv, CompletionInv, FlightInv, CurrentInv,
         PlaceInv, HandInv;
  }

  lemma ReviewStatus(s: Sys, a: Action, t: Sys)
    requires StatusAt(s.db.run.status, s.pc) && ReviewStep(s, a) == Some(t)
    ensures StatusAt(t.db.run.status, t.pc)
  {
    hide StatusAt, HasEveryVersion, CurrentVersions, TakeSnapshot, DecideResult, Link, Distinct;
    match a
    case StartTask(_) => TaskStatus(s, a, t);
    case CompleteBook => DecisionStatus(s, a, t);
    case DecideRevision(_) => DecisionStatus(s, a, t);
    case EndRevision => DecisionStatus(s, a, t);
    case _ => AnalysisStatus(s, a, t);
  }

  lemma AnalysisStatus(s: Sys, a: Action, t: Sys)
    requires StatusAt(s.db.run.status, s.pc) && ReviewStep(s, a) == Some(t)
    requires a.ReviewBook? || a.BuildSnapshot? || a.AnalyseBook?
    ensures StatusAt(t.db.run.status, t.pc)
  {
    hide HasEveryVersion, CurrentVersions;
  }

  lemma DecisionStatus(s: Sys, a: Action, t: Sys)
    requires StatusAt(s.db.run.status, s.pc) && ReviewStep(s, a) == Some(t)
    requires a.CompleteBook? || a.DecideRevision? || a.EndRevision?
    ensures StatusAt(t.db.run.status, t.pc)
  {
    hide Distinct;
  }

  lemma TaskStatus(s: Sys, a: Action, t: Sys)
    requires StatusAt(s.db.run.status, s.pc) && ReviewStep(s, a) == Some(t) && a.StartTask?
    ensures StatusAt(t.db.run.status, t.pc)
  {
    hide SetJobWorkflow;
  }

  lemma WorkflowStatusAt(s: Sys, a: Action, t: Sys)
    requires StatusAt(s.db.run.status, s.pc) && WorkflowStep(s, a) == Some(t)
    ensures StatusAt(t.db.run.status, t.pc)
  {}

  lemma EnvironmentStatus(s: Sys, a: Action, t: Sys)
    requires StatusInv(s.db.run.status, s.pc) && StatusAt(s.db.run.status, s.pc) && Environment(s, a) == Some(t)
    ensures StatusAt(t.db.run.status, t.pc)
  {}

  lemma StepStatus(s: Sys, t: Sys)
    requires Inv(s) && StatusAt(s.db.run.status, s.pc) && Step(s, t)
    ensures StatusAt(t.db.run.status, t.pc)
  {
    hide Inv, StatusAt, StatusInv, Execute, ReviewStep, WorkflowStep, Environment;
    var a :| Fire(s, a) == Some(t);
    StatusFacts(s);
    if Execute(s, a) == Some(t) {
      if a.Choose? { ChooseStatus(s, t); } else { ExecuteStatus(s, a, t); }
    }
    else if ReviewStep(s, a) == Some(t) { ReviewStatus(s, a, t); }
    else if WorkflowStep(s, a) == Some(t) { WorkflowStatusAt(s, a, t); }
    else { EnvironmentStatus(s, a, t); }
  }

  /** In every reachable state the status fits the place of the worker, or a cancellation is pending. */
  lemma {:induction false} StatusesByPlace(t: seq<Sys>, n: nat)
    requires IsRun(t) && n < |t|
    ensures StatusAt(t[n].db.run.status, t[n].pc)
    decreases n
  {
    hide Inv, StatusAt, Step, Initial;
    if n == 0 {
      IdleStatus(t[0]);
    } else {
      StatusesByPlace(t, n - 1);
      RunKeeps(t, n - 1);
      assert Step(t[n - 1], t[n - 1 + 1]);
      StepStatus(t[n - 1], t[n]);
    }
  }

  lemma IdleStatus(s: Sys)
    requires Initial(s)
    ensures StatusAt(s.db.run.status, s.pc)
  {}

  // --------------------------------------------------------------------- causes

  /** What `execute` and the workflow it runs do themselves. */
  predicate Own(a: Action) {
    match a
    case Initialize | SyncAccepted | Choose | PassGate | MarkChapter | Attach(_) | RecordChapter(_)
       | SettleUsage | AfterChapter | CheckPeriodically(_) | FinishReview
       | ReviewBook | BuildSnapshot(_) | AnalyseBook(_, _) | CompleteBook | DecideRevision(_)
       | StartTask(_) | EndRevision | ProviderCall(_, _, _) | Accept(_) | Settle(_) | GiveUp => true
    case _ => false
  }

  /** The in-flight workflow of the marked chapter can be gone on with. */
  predicate SafelyResumable(d: Db) {
    d.run.workflow.Some? ==>
      && d.run.workflow.value in d.workflows
      && var now := d.workflows[d.run.workflow.value].status;
         now.WorkflowPaused? || now.WorkflowCompleted? || now.WorkflowNeedsReview?
  }

  function If(condition: bool, reason: Reason): Option<Reason> {
    if condition then Some(reason) else None
  }

  /**
   Why the next step of `execute` stops it, and with what; None when it goes on.
   Idle: the status refuses execution. Synced: no chapter can be resumed, and a
   cancellation is pending or a chapter runs without a workflow. Gate: over budget.
   Marked: a workflow that is not safely resumable. Ended: a paused workflow, or a
   revision that did not complete. Settled: a workflow that ended badly. Checking: a
   critical check. Review: a chapter without an accepted version. Revising: a planned
   chapter outside the book. Wherever a status change is due: a pending cancellation.
   */
  function Cause(s: Sys, critical: bool): Option<Reason> {
    var d, r := s.db, s.db.run;
    var cancelled := r.status.CancelRequested?;
    match s.pc
    case Idle =>
      If(r.status !in {Pending, PlanningValidation, Generating, Paused, BudgetBlocked, GlobalReview}, ExecutionError)
    case Synced =>
      if r.workflow.Some? && AnyIn(r.chapters, Running) then None
      else if cancelled then Some(CancelAccepted)
      else If(AnyIn(r.chapters, Running), ExecutionError)
    case Gate(_) => If(OverBudget(r), if cancelled then ExecutionError else PauseRequested)
    case Marked(_) => If(!SafelyResumable(d), ExecutionError)
    case Ended(_, _, end, Generation) => If(end.WorkflowPaused?, PauseRequested)
    case Ended(_, _, end, Revision(_)) => If(!end.WorkflowCompleted?, ExecutionError)
    case Settled(_, end, Generation) => If(!end.WorkflowCompleted? && !end.WorkflowNeedsReview?, ExecutionError)
    case Checking(_) => If(critical, if cancelled then ExecutionError else PauseRequested)
    case FinishingReview => If(cancelled, ExecutionError)
    case Review(_) => If(exists c :: 1 <= c <= r.total && c !in d.accepted, ExecutionError)
    case Analysed(_, _, _, _) => If(cancelled, ExecutionError)
    case Revising(rest) =>
      If(if |rest| > 0 then !(1 <= rest[0] <= r.total) else cancelled, ExecutionError)
    case _ => None
  }

  /** The step of `execute` from `s` to `t` goes on or stops as the cause has it. */
  predicate AsCaused(s: Sys, a: Action, t: Sys) {
    match Cause(s, a == CheckPeriodically(true))
    case None => !t.pc.Stopping?
    case Some(reason) => t.pc == Stopping(reason)
  }

  lemma EnteringCaused(s: Sys, t: Sys)
    requires Execute(s, Initialize) == Some(t)
    ensures AsCaused(s, Initialize, t)
  {}

  lemma ChoosingCaused(s: Sys, t: Sys)
    requires Inv(s) && Execute(s, Choose) == Some(t)
    ensures AsCaused(s, Choose, t)
  {
    hide Chosen, OverBudget, Inv;
    NextChapter(s);
    RunningIsCurrent(s);
  }

  lemma RunningIsCurrent(s: Sys)
    requires Inv(s)
    ensures AnyIn(s.db.run.chapters, Running) && s.db.run.workflow.None? ==>
              !AllAccepted(s.db.run.total, s.db.run.chapters)
  {
    hide JobInv, IndexInv, CountInv, TaskInv, CheckInv, SnapshotInv, CompletionInv, FlightInv, PlaceInv, HandInv;
  }

  lemma GateCaused(s: Sys, t: Sys)
    requires StatusAt(s.db.run.status, s.pc) && Execute(s, PassGate) == Some(t)
    ensures AsCaused(s, PassGate, t)
  {
    hide OverBudget;
  }

  lemma AttachCaused(s: Sys, id: nat, t: Sys)
    requires s.pc.Marked? && s.db.run.current == Some(s.pc.chapter) && Execute(s, Attach(id)) == Some(t)
    ensures AsCaused(s, Attach(id), t)
  {
    hide Link;
  }

  lemma MarkedIsCurrent(s: Sys)
    requires Inv(s) && s.pc.Marked?
    ensures s.db.run.current == Some(s.pc.chapter)
  {
    hide DbInv, HandInv, CheckInv, TaskInv, StatusInv;
  }

  lemma ExecuteCaused(s: Sys, a: Action, t: Sys)
    requires StatusAt(s.db.run.status, s.pc) && Execute(s, a) == Some(t)
    requires !a.Initialize? && !a.Choose? && !a.PassGate? && !a.Attach?
    ensures AsCaused(s, a, t)
  {
    hide Spent, AcceptedSet, DoneSet, ReviewSet, Progress, OverBudget;
  }

  lemma ReviewCaused(s: Sys, a: Action, t: Sys)
    requires StatusAt(s.db.run.status, s.pc) && ReviewStep(s, a) == Some(t)
    ensures AsCaused(s, a, t)
  {
    hide CurrentVersions, Distinct;
  }

  lemma WorkflowCaused(s: Sys, a: Action, t: Sys)
    requires WorkflowStep(s, a) == Some(t) && Own(a)
    ensures AsCaused(s, a, t)
  {}

  lemma Caused(s: Sys, a: Action, t: Sys)
    requires Inv(s) && StatusAt(s.db.run.status, s.pc) && Fire(s, a) == Some(t) && Own(a)
    ensures AsCaused(s, a, t)
  {
    hide Inv, StatusAt, AsCaused, Execute, ReviewStep, WorkflowStep, Environment;
    if Execute(s, a) == Some(t) {
      match a
      case Initialize => EnteringCaused(s, t);
      case Choose => ChoosingCaused(s, t);
      case PassGate => GateCaused(s, t);
      case Attach(id) =>
        AttachAtMarked(s, id, t);
        MarkedIsCurrent(s);
        AttachCaused(s, id, t);
      case _ => ExecuteCaused(s, a, t);
    }
    else if ReviewStep(s, a) == Some(t) { ReviewCaused(s, a, t); }
    else { WorkflowCaused(s, a, t); }
  }

  lemma AttachAtMarked(s: Sys, id: nat, t: Sys)
    requires Execute(s, Attach(id)) == Some(t)
    ensures s.pc.Marked?
  {}

  /**
   In every reachable state, a step that `execute` takes itself stops it if and only
   if there is a cause, and with the reason of that cause.
   */
  lemma StopsExactly(t: seq<Sys>, n: nat, a: Action)
    requires IsRun(t) && n + 1 < |t| && Fire(t[n], a) == Some(t[n + 1]) && Own(a)
    ensures match Cause(t[n], a == CheckPeriodically(true))
            case None => !t[n + 1].pc.Stopping?
            case Some(reason) => t[n + 1].pc == Stopping(reason)
  {
    hide Inv, StatusAt, Cause, Fire;
    RunKeeps(t, n);
    StatusesByPlace(t, n);
    Caused(t[n], a, t[n + 1]);
  }
}
