/**
 The whole-book run as a state machine: the durable rows, a program counter for
 the worker that executes the run, and one action for every committed
 transaction, every crash and every request from outside. A crash erases the
 program counter and nothing else.
 */
module BookMachine {
  import opened Options
  import opened BookModel

  /** Which loop a chapter workflow runs for; a revision still has `rest` to do. */
  datatype Mode = Generation | Revision(rest: seq<nat>)

  datatype Pc =
    | Idle
    | Top
    | Synced
    | Gate(chapter: nat)
    | Picked(chapter: nat)
    | Marked(chapter: nat)
    | Flight(chapter: nat, workflow: nat, mode: Mode)
    | Ended(chapter: nat, workflow: nat, status: WorkflowStatus, mode: Mode)
    | RecordedPc(chapter: nat, workflow: nat, status: WorkflowStatus, mode: Mode)
    | Settled(chapter: nat, status: WorkflowStatus, mode: Mode)
    | Checking(chapter: nat)
    | FinishingReview
    | Generated
    | Review(second: bool)
    | Snapped(snapshot: nat, second: bool)
    | Analysed(snapshot: nat, passed: bool, targeted: bool, second: bool)
    | Revising(rest: seq<nat>)
    | Stopping(reason: Reason)
    | Returned

  /** `lost` counts completions recorded since usage was last brought up to date. */
  datatype Sys = Sys(db: Db, pc: Pc, lost: nat)

  datatype Action =
    // execute(), in the order of its transactions
    | Initialize
    | SyncAccepted
    | Choose
    | PassGate
    | MarkChapter
    | Attach(id: nat)
    | RecordChapter(job: nat)
    | SettleUsage
    | AfterChapter
    | CheckPeriodically(critical: bool)
    | FinishReview
    | ReviewBook
    | BuildSnapshot(sid: nat)
    | AnalyseBook(passed: bool, targeted: bool)
    | CompleteBook
    | DecideRevision(tasks: seq<nat>)
    | StartTask(id: nat)
    | EndRevision
    // the chapter workflow service
    | ProviderCall(tokens: nat, cost: Option<nat>, succeeded: bool)
    | Accept(version: nat)
    | Settle(end: WorkflowStatus)
    // leaving execute(): by its own decision, by an error or a request from outside, by the handler, by a crash
    | GiveUp
    | Raise(reason: Reason)
    | Handle
    | Crash
    // everybody else
    | RequestCancel
    | ConfirmCancel
    | Resume(target: RunStatus, caps: Usage)
    | PauseIdle
    | RecoverLease
    | OutsideWorkflow(id: nat, chapter: nat, job: nat)
    | OutsideStatus(id: nat, end: WorkflowStatus)
    | OutsideCompletion(id: nat, version: nat)
    | OutsideAcceptance(chapter: nat, version: nat)
    | OutsideCall(call: Call)

  predicate Active(pc: Pc) {
    !pc.Idle? && !pc.Returned? && !pc.Stopping?
  }

  /** Points at which the control callback may interrupt. */
  predicate Interruptible(pc: Pc) {
    pc.Picked? || pc.Checking? || pc.Generated? || (pc.Snapped? && !pc.second)
  }

  predicate Distinct(s: seq<nat>) {
    forall i, j | 0 <= i < j < |s| :: s[i] != s[j]
  }

  predicate InBook(d: Db, c: nat) {
    1 <= c <= d.run.total
  }

  /** A workflow that neither is in flight nor belongs to a child job of the run. */
  predicate Foreign(d: Db, w: nat) {
    d.run.workflow != Some(w) && w !in ChildWorkflows(d.jobs, d.top)
  }

  function Stop(s: Sys, r: Reason): Sys { s.(pc := Stopping(r)) }

  /** Commit `d` and go to `pc`, or stop with an error when the step was refused. */
  function Commit(s: Sys, d: Option<Db>, pc: Pc): Sys {
    match d
    case None => Stop(s, ExecutionError)
    case Some(x) => s.(db := x, pc := pc)
  }

  function Chosen(s: Sys): Pc {
    var r := s.db.run;
    match Resumable(r)
    case Some(c) => Picked(c)
    case None =>
      match Decide(r.total, r.chapters, r.status.CancelRequested?)
      case CancelRun => Stopping(CancelAccepted)
      case HumanReview => FinishingReview
      case Wait => Stopping(ExecutionError)
      case AllDone => Generated
      case Schedule(c) => Gate(c)
  }

  function GateResult(s: Sys): Sys
    requires s.pc.Gate?
  {
    if !OverBudget(s.db.run) then s.(pc := Picked(s.pc.chapter))
    else match Move(s.db.run.status, BudgetBlocked)
      case None => Stop(s, ExecutionError)
      case Some(t) => Stop(s.(db := WithStatus(s.db, t)), PauseRequested)
  }

  /** Start a workflow for the marked chapter, or go on with the one in flight. */
  function AttachResult(s: Sys, id: nat): Option<Sys>
    requires s.pc.Marked?
  {
    var d, c := s.db, s.pc.chapter;
    match CurrentWorkflow(d.run, c)
    case None =>
      if id in d.workflows || !InBook(d, c) then None
      else Some(s.(db := Link(d, c, id), pc := Flight(c, id, Generation)))
    case Some(w) =>
      if w !in d.workflows then Some(Stop(s, ExecutionError))
      else match d.workflows[w].status
        case WorkflowPaused =>
          Some(s.(db := WithWorkflowStatus(d, w, WorkflowRunning), pc := Flight(c, w, Generation)))
        case WorkflowCompleted => Some(s.(pc := Ended(c, w, WorkflowCompleted, Generation)))
        case WorkflowNeedsReview => Some(s.(pc := Ended(c, w, WorkflowNeedsReview, Generation)))
        case _ => Some(Stop(s, ExecutionError))
  }

  /**
   What `execute` raises without a transaction of its own: the pause of a paused
   chapter workflow, and the errors of a revision that did not complete and of a
   planned chapter that is not in the book.
   */
  function GivenUp(s: Sys): Option<Reason> {
    match s.pc
    case Ended(_, _, status, Generation) => if status.WorkflowPaused? then Some(PauseRequested) else None
    case Ended(_, _, status, Revision(_)) => if status.WorkflowCompleted? then None else Some(ExecutionError)
    case Revising(rest) => if |rest| > 0 && !InBook(s.db, rest[0]) then Some(ExecutionError) else None
    case _ => None
  }

  predicate Recordable(pc: Pc) {
    pc.Ended? && (if pc.mode.Generation? then !pc.status.WorkflowPaused? else pc.status.WorkflowCompleted?)
  }

  function AfterResult(s: Sys): Sys
    requires s.pc.Settled?
  {
    match s.pc.mode
    case Revision(rest) => s.(pc := Revising(rest))
    case Generation =>
      match s.pc.status
      case WorkflowNeedsReview => s.(pc := FinishingReview)
      case WorkflowCompleted =>
        if s.db.interval > 0 && s.pc.chapter % s.db.interval == 0
        then s.(pc := Checking(s.pc.chapter)) else s.(pc := Top)
      case _ => Stop(s, ExecutionError)
  }

  function CheckResult(s: Sys, critical: bool): Sys
    requires s.pc.Checking?
  {
    match PeriodicCheck(s.db, s.pc.chapter, critical)
    case None => Stop(s, ExecutionError)
    case Some(d) => s.(db := d, pc := if critical then Stopping(PauseRequested) else Top)
  }

  function DecideResult(s: Sys, tasks: seq<nat>): Sys
    requires s.pc.Analysed?
  {
    Commit(s, OpenRevision(s.db, s.pc.targeted),
           if MayRevise(s.db.run, s.pc.targeted) then Revising(tasks) else Returned)
  }

  /** The steps of execute(). */
  function Execute(s: Sys, a: Action): Option<Sys> {
    match a
    case Initialize =>
      if !s.pc.Idle? then None
      else Some(match InitialStatus(s.db.run)
                case None => Stop(s, ExecutionError)
                case Some(t) => s.(db := WithStatus(s.db, t), pc := Top))
    case SyncAccepted =>
      if s.pc.Top? && s.db.run.total > 0 then Some(s.(db := Sync(s.db), pc := Synced)) else None
    case Choose => if s.pc.Synced? then Some(s.(pc := Chosen(s))) else None
    case PassGate => if s.pc.Gate? then Some(GateResult(s)) else None
    case MarkChapter =>
      if s.pc.Picked? then Some(s.(db := MarkRunning(s.db, s.pc.chapter), pc := Marked(s.pc.chapter))) else None
    case Attach(id) => if s.pc.Marked? then AttachResult(s, id) else None
    case RecordChapter(j) =>
      if Recordable(s.pc) && j !in s.db.jobs && s.db.run.total > 0
      then Some(Sys(Record(s.db, s.pc.chapter, s.pc.workflow, s.pc.status, j),
                    RecordedPc(s.pc.chapter, s.pc.workflow, s.pc.status, s.pc.mode), s.lost + 1))
      else None
    case SettleUsage =>
      if s.pc.RecordedPc?
      then Some(Sys(UpdateUsage(s.db, s.pc.workflow), Settled(s.pc.chapter, s.pc.status, s.pc.mode), 0))
      else None
    case AfterChapter => if s.pc.Settled? then Some(AfterResult(s)) else None
    case CheckPeriodically(critical) => if s.pc.Checking? then Some(CheckResult(s, critical)) else None
    case FinishReview =>
      if s.pc.FinishingReview? || (s.pc.Analysed? && s.pc.second && !s.pc.passed)
      then Some(Commit(s, FinishNeedsReview(s.db), Returned)) else None
    case _ => None
  }

  /** The steps of the global review and of its one revision round. */
  function ReviewStep(s: Sys, a: Action): Option<Sys> {
    match a
    case ReviewBook => if s.pc.Generated? then Some(s.(db := SetGlobalReview(s.db), pc := Review(false))) else None
    case BuildSnapshot(sid) =>
      if !s.pc.Review? then None
      else if !HasEveryVersion(s.db) then Some(Stop(s, ExecutionError))
      else if (if sid in s.db.snapshots then s.db.snapshots[sid] == CurrentVersions(s.db)
               else CurrentVersions(s.db) !in s.db.snapshots.Values)
      then Some(s.(db := TakeSnapshot(s.db, sid), pc := Snapped(sid, s.pc.second)))
      else None
    case AnalyseBook(passed, targeted) =>
      if s.pc.Snapped?
      then Some(s.(db := Analyse(s.db, s.pc.snapshot, passed),
                   pc := Analysed(s.pc.snapshot, passed, targeted, s.pc.second)))
      else None
    case CompleteBook =>
      if s.pc.Analysed? && s.pc.passed
      then Some(Commit(s, FinishCompleted(s.db, s.pc.snapshot), Returned)) else None
    case DecideRevision(tasks) =>
      if s.pc.Analysed? && !s.pc.passed && !s.pc.second && Distinct(tasks)
      then Some(DecideResult(s, tasks)) else None
    case StartTask(id) =>
      if s.pc.Revising? && |s.pc.rest| > 0 && InBook(s.db, s.pc.rest[0]) && id !in s.db.workflows
      then Some(s.(db := Link(s.db, s.pc.rest[0], id), pc := Flight(s.pc.rest[0], id, Revision(s.pc.rest[1..]))))
      else None
    case EndRevision =>
      if s.pc.Revising? && |s.pc.rest| == 0
      then Some(match Move(s.db.run.status, GlobalReview)
                case None => Stop(s, ExecutionError)
                case Some(t) => s.(db := WithStatus(s.db, t), pc := Review(true)))
      else None
    case _ => None
  }

  /** What the chapter workflow in flight does, and how execute() is left. */
  function WorkflowStep(s: Sys, a: Action): Option<Sys> {
    match a
    case ProviderCall(tokens, cost, ok) =>
      if s.pc.Flight?
      then Some(s.(db := s.db.(calls := s.db.calls + [Call(Some(s.pc.workflow), ok, tokens, cost)])))
      else None
    case Accept(v) =>
      if s.pc.Flight? && s.pc.workflow in s.db.workflows
      then Some(s.(db := AcceptVersion(s.db, s.pc.workflow, v),
                   pc := Ended(s.pc.chapter, s.pc.workflow, WorkflowCompleted, s.pc.mode)))
      else None
    case Settle(end) =>
      if s.pc.Flight? && s.pc.workflow in s.db.workflows && !end.WorkflowRunning? && !end.WorkflowCompleted?
      then Some(s.(db := WithWorkflowStatus(s.db, s.pc.workflow, end),
                   pc := Ended(s.pc.chapter, s.pc.workflow, end, s.pc.mode)))
      else None
    case GiveUp =>
      (match GivenUp(s)
       case None => None
       case Some(reason) => Some(Stop(s, reason)))
    case Raise(reason) =>
      if Active(s.pc) && (reason.ExecutionError? || Interruptible(s.pc)) then Some(Stop(s, reason)) else None
    case Handle =>
      if s.pc.Stopping?
      then Some(s.(db := WithStatus(s.db, HandledStatus(s.db.run.status, s.pc.reason)), pc := Idle))
      else None
    case Crash => Some(s.(pc := Idle))
    case _ => None
  }

  /** A new limit is only refused when it is below what is already used. */
  predicate CapsCover(used: Usage, now: Usage, caps: Usage) {
    && (caps.calls == now.calls || caps.calls >= used.calls)
    && (caps.tokens == now.tokens || caps.tokens >= used.tokens)
    && (caps.cost == now.cost || caps.cost >= used.cost)
  }

  predicate MayResume(r: Run, target: RunStatus, caps: Usage) {
    && (r.status.Paused? || r.status.BudgetBlocked?) && target in Allowed(r.status)
    && CapsCover(r.usage, r.caps, caps)
    && (target.PlanningValidation? || target == (if r.completed == r.total then GlobalReview else Generating))
  }

  /** Where a cancellation request takes the run; None when it is refused. */
  function CancellationStatus(s: RunStatus): Option<RunStatus> {
    if s.Paused? || s.BudgetBlocked? then Some(Cancelled) else Move(s, CancelRequested)
  }

  /** The worker has seen its workflow end, and an ended workflow does not move again. */
  predicate HasEnded(pc: Pc) {
    pc.Ended? && !pc.status.WorkflowPaused?
  }

  /**
   A workflow somebody outside the executing worker may move: any that is not
   a child job's, the one in flight too, for which the workflow routes can ask.
   */
  predicate Outside(s: Sys, w: nat) {
    w in s.db.workflows && (Foreign(s.db, w) || (!HasEnded(s.pc) && s.db.run.workflow == Some(w)))
  }

  /** Requests from outside and the work of other jobs. */
  function Environment(s: Sys, a: Action): Option<Sys> {
    var d := s.db;
    match a
    case RequestCancel =>
      (match CancellationStatus(d.run.status)
       case None => None
       case Some(t) => Some(s.(db := WithStatus(d, t))))
    case ConfirmCancel =>
      if s.pc.Idle? && d.run.status.CancelRequested? then
        var cancelled := WithStatus(d, Cancelled);
        if d.run.workflow.Some? && d.run.workflow.value in d.workflows
           && (d.workflows[d.run.workflow.value].status.WorkflowRunning?
               || d.workflows[d.run.workflow.value].status.WorkflowPaused?)
        then Some(s.(db := WithWorkflowStatus(cancelled, d.run.workflow.value, WorkflowCancelled)))
        else Some(s.(db := cancelled))
      else None
    case Resume(target, caps) =>
      if MayResume(d.run, target, caps)
      then Some(s.(db := WithStatus(d.(run := d.run.(caps := caps)), target)))
      else None
    case PauseIdle =>
      if s.pc.Idle? && (d.run.status.PlanningValidation? || d.run.status.Generating?
                        || d.run.status.GlobalReview? || d.run.status.GlobalRevision?)
      then Some(s.(db := WithStatus(d, Paused)))
      else None
    case RecoverLease =>
      if s.pc.Idle? && d.run.workflow.Some? && d.run.workflow.value in d.workflows
         && d.workflows[d.run.workflow.value].status.WorkflowRunning?
      then Some(s.(db := WithWorkflowStatus(d, d.run.workflow.value, WorkflowPaused)))
      else None
    case OutsideWorkflow(id, c, j) =>
      if id !in d.workflows && j !in d.jobs
      then Some(s.(db := d.(workflows := d.workflows[id := Workflow(c, WorkflowRunning)],
                            jobs := d.jobs[j := Job(Some(id), false, None, Some(c))])))
      else None
    case OutsideStatus(id, end) =>
      if Outside(s, id) && !end.WorkflowCompleted? then Some(s.(db := WithWorkflowStatus(d, id, end))) else None
    case OutsideCompletion(id, v) => if Outside(s, id) then Some(s.(db := AcceptVersion(d, id, v))) else None
    case OutsideAcceptance(c, v) => Some(s.(db := d.(accepted := d.accepted[c := v])))
    case OutsideCall(call) =>
      if call.workflow.None? || Outside(s, call.workflow.value)
      then Some(s.(db := d.(calls := d.calls + [call]))) else None
    case _ => None
  }

  /** The state after action `a`, or None when `a` cannot happen in `s`. */
  function Fire(s: Sys, a: Action): Option<Sys> {
    match a
    case Initialize | SyncAccepted | Choose | PassGate | MarkChapter | Attach(_) | RecordChapter(_)
       | SettleUsage | AfterChapter | CheckPeriodically(_) | FinishReview => Execute(s, a)
    case ReviewBook | BuildSnapshot(_) | AnalyseBook(_, _) | CompleteBook | DecideRevision(_)
       | StartTask(_) | EndRevision => ReviewStep(s, a)
    case ProviderCall(_, _, _) | Accept(_) | Settle(_) | GiveUp | Raise(_) | Handle | Crash => WorkflowStep(s, a)
    case _ => Environment(s, a)
  }

  // --------------------------------------------------------------------- runs

  /** What `BookRunService.create` commits: a fresh run and its top job. */
  ghost predicate Initial(s: Sys) {
    var d, r := s.db, s.db.run;
    && s.pc.Idle? && s.lost == 0
    && r.status.Pending? && r.total > 0 && d.interval > 0
    && (forall c :: c in r.chapters <==> 1 <= c <= r.total)
    && (forall c | c in r.chapters :: r.chapters[c] == Planned)
    && r.jobMap == map[] && r.current.None? && r.workflow.None?
    && r.accepted == r.completed == r.needsReview == r.progress == r.round == 0
    && r.snapshot.None? && r.best.None? && r.checks == [] && r.usage == Zero()
    && d.keys == map[] && d.successes == multiset{} && d.snapshots == map[] && d.evaluations == []
    && d.top in d.jobs && d.jobs[d.top] == Job(None, true, None, None)
    && (forall j | j in d.jobs && j != d.top :: !d.jobs[j].ours && d.jobs[j].parent != Some(d.top))
    && (forall j | j in d.jobs && d.jobs[j].workflow.Some? :: d.jobs[j].workflow.value in d.workflows)
    && (forall i, j | i in d.jobs && j in d.jobs && i != j && d.jobs[i].workflow.Some? ::
          d.jobs[i].workflow != d.jobs[j].workflow)
  }

  ghost predicate Step(s: Sys, t: Sys) {
    exists a :: Fire(s, a) == Some(t)
  }

  /** A run: an initial state followed by any interleaving of actions. */
  ghost predicate IsRun(t: seq<Sys>) {
    && |t| > 0
    && Initial(t[0])
    && forall i | 0 <= i < |t| - 1 :: Step(t[i], t[i + 1])
  }
}
