/**
 The durable rows of one whole-book run and the effect of every transaction
 that `BookWorkflowApplicationService` commits on them.

 A chapter number stands for its decimal map key. Money is counted in units of
 1e-8, the scale of the cost columns, so every amount is a natural number.
 */
module BookModel {
  import opened Options

  // ---------------------------------------------------------------- statuses

  datatype RunStatus =
    | Pending | PlanningValidation | Generating | Paused | GlobalReview | GlobalRevision
    | Completed | CompletedNeedsReview | CancelRequested | Cancelled | Failed | BudgetBlocked

  datatype ChapterState = Planned | Running | Accepted | NeedsReview | ChapterFailed

  datatype WorkflowStatus =
    | WorkflowRunning | WorkflowPaused | WorkflowCompleted | WorkflowNeedsReview
    | WorkflowFailed | WorkflowCancelled

  predicate TerminalRun(s: RunStatus) {
    s.Completed? || s.CompletedNeedsReview? || s.Cancelled? || s.Failed?
  }

  /** The legal next statuses of a run. */
  function Allowed(s: RunStatus): set<RunStatus> {
    match s
    case Pending => {PlanningValidation, Paused, Cancelled, Failed}
    case PlanningValidation => {Generating, Paused, CancelRequested, Failed}
    case Generating =>
      {GlobalReview, Paused, CancelRequested, CompletedNeedsReview, BudgetBlocked, Failed}
    case Paused => {PlanningValidation, Generating, GlobalReview, Cancelled}
    case GlobalReview =>
      {GlobalRevision, Completed, CompletedNeedsReview, Paused, CancelRequested, BudgetBlocked, Failed}
    case GlobalRevision =>
      {GlobalReview, CompletedNeedsReview, Paused, CancelRequested, BudgetBlocked, Failed}
    case BudgetBlocked => {Generating, GlobalReview, Cancelled}
    case CancelRequested => {Cancelled}
    case _ => {}
  }

  /** One status change; None is the raised InvalidStateError. */
  function Move(s: RunStatus, target: RunStatus): (r: Option<RunStatus>)
    ensures r.Some? ==> r.value == target
  {
    if s == target || target in Allowed(s) then Some(target) else None
  }

  /** The transition table read by its targets: from where each status can be reached. */
  lemma TableByTarget(s: RunStatus)
    ensures Pending !in Allowed(s)
    ensures PlanningValidation in Allowed(s) <==> s in {Pending, Paused}
    ensures Generating in Allowed(s) <==> s in {PlanningValidation, Paused, BudgetBlocked}
    ensures GlobalReview in Allowed(s) <==> s in {Generating, Paused, GlobalRevision, BudgetBlocked}
    ensures GlobalRevision in Allowed(s) <==> s == GlobalReview
    ensures Completed in Allowed(s) <==> s == GlobalReview
    ensures CompletedNeedsReview in Allowed(s) <==> s in {Generating, GlobalReview, GlobalRevision}
    ensures BudgetBlocked in Allowed(s) <==> s in {Generating, GlobalReview, GlobalRevision}
    ensures Paused in Allowed(s) <==> s in {Pending, PlanningValidation, Generating, GlobalReview, GlobalRevision}
    ensures CancelRequested in Allowed(s) <==> s in {PlanningValidation, Generating, GlobalReview, GlobalRevision}
    ensures Cancelled in Allowed(s) <==> s in {Pending, Paused, BudgetBlocked, CancelRequested}
    ensures Failed in Allowed(s) <==>
              s in {Pending, PlanningValidation, Generating, GlobalReview, GlobalRevision}
    ensures Allowed(s) == {} <==> s in {Completed, CompletedNeedsReview, Cancelled, Failed}
  {
    assert Cancelled in Allowed(s) || Failed in Allowed(s) || Allowed(s) == {};
  }

  // -------------------------------------------------------------------- rows

  datatype Usage = Usage(calls: nat, tokens: nat, cost: nat)

  /** A provider call; an unknown cost is NULL in the table. */
  datatype Call = Call(workflow: Option<nat>, succeeded: bool, tokens: nat, cost: Option<nat>)

  datatype Workflow = Workflow(chapter: nat, status: WorkflowStatus)

  /** A job row: `ours` says that it names this run, `parent` its parent job. */
  datatype Job = Job(workflow: Option<nat>, ours: bool, parent: Option<nat>, chapter: Option<nat>)

  /** What the hashed idempotency key of a child job is made of. */
  datatype ChildKey = ChildKey(chapter: nat, workflow: nat)

  datatype Evaluation = Evaluation(snapshot: nat, passed: bool)

  /** The run row. A periodic check is tagged with the chapter it followed. */
  datatype Run = Run(
    status: RunStatus,
    total: nat,
    chapters: map<nat, ChapterState>,
    jobMap: map<nat, nat>,
    current: Option<nat>,
    workflow: Option<nat>,
    accepted: nat,
    completed: nat,
    needsReview: nat,
    progress: nat,
    round: nat,
    maxRounds: nat,
    snapshot: Option<nat>,
    best: Option<nat>,
    checks: seq<nat>,
    usage: Usage,
    caps: Usage)

  /**
   The tables. `keys` is the unique index on child idempotency keys, `successes`
   the success events by job, `accepted` the accepted version of each chapter
   that has one, `snapshots` the chapter-to-version map of each snapshot of the
   run, and `interval` the configured distance between periodic checks.
   */
  datatype Db = Db(
    run: Run,
    top: nat,
    interval: nat,
    jobs: map<nat, Job>,
    keys: map<ChildKey, nat>,
    successes: multiset<nat>,
    workflows: map<nat, Workflow>,
    accepted: map<nat, nat>,
    calls: seq<Call>,
    snapshots: map<nat, map<nat, nat>>,
    evaluations: seq<Evaluation>)

  // ---------------------------------------------------------- status map sums

  predicate Done(s: ChapterState) {
    s.Accepted? || s.ChapterFailed? || s.NeedsReview?
  }

  function AcceptedSet(m: map<nat, ChapterState>): set<nat> {
    set c | c in m && m[c] == Accepted
  }

  function DoneSet(m: map<nat, ChapterState>): set<nat> {
    set c | c in m && Done(m[c])
  }

  function ReviewSet(m: map<nat, ChapterState>): set<nat> {
    set c | c in m && m[c] == NeedsReview
  }

  /** Python's round() of the exact quotient: ties go to the even neighbour. */
  function RoundHalfEven(numerator: nat, denominator: nat): nat
    requires denominator > 0
  {
    var q, r := numerator / denominator, numerator % denominator;
    if 2 * r < denominator || (2 * r == denominator && q % 2 == 0) then q else q + 1
  }

  function Progress(completed: nat, total: nat): nat
    requires total > 0
  {
    RoundHalfEven(75 * completed, total)
  }

  // -------------------------------------------------------------------- usage

  function Zero(): Usage { Usage(0, 0, 0) }

  function Add(a: Usage, b: Usage): Usage {
    Usage(a.calls + b.calls, a.tokens + b.tokens, a.cost + b.cost)
  }

  predicate AtMost(a: Usage, b: Usage) {
    a.calls <= b.calls && a.tokens <= b.tokens && a.cost <= b.cost
  }

  function CallUsage(c: Call): Usage {
    Usage(1, c.tokens, match c.cost case Some(v) => v case None => 0)
  }

  /** What the succeeded calls of the workflows in `ws` add up to. */
  function Spent(calls: seq<Call>, ws: set<nat>): Usage {
    if |calls| == 0 then Zero()
    else
      var last := calls[|calls| - 1];
      var before := Spent(calls[..|calls| - 1], ws);
      if Counts(last, ws) then Add(before, CallUsage(last)) else before
  }

  predicate Counts(c: Call, ws: set<nat>) {
    c.succeeded && c.workflow.Some? && c.workflow.value in ws
  }

  /** A child job of this run: it names the run and the run's top job. */
  predicate IsChild(job: Job, top: nat) {
    job.ours && job.parent == Some(top)
  }

  /** The workflows of the run's child jobs, which is what usage is summed over. */
  function ChildWorkflows(jobs: map<nat, Job>, top: nat): set<nat> {
    set j | j in jobs && IsChild(jobs[j], top) && jobs[j].workflow.Some? :: jobs[j].workflow.value
  }

  /** The child jobs of one chapter. */
  function Children(jobs: map<nat, Job>, top: nat, c: nat): set<nat> {
    set j | j in jobs && IsChild(jobs[j], top) && jobs[j].chapter == Some(c)
  }

  // ---------------------------------------------------------------- scheduler

  datatype Decision = CancelRun | Wait | AllDone | HumanReview | Schedule(chapter: nat)

  predicate AllAccepted(total: nat, m: map<nat, ChapterState>) {
    forall c | 1 <= c <= total :: c in m && m[c] == Accepted
  }

  predicate AnyIn(m: map<nat, ChapterState>, s: ChapterState) {
    exists c | c in m :: m[c] == s
  }

  /** The first chapter from `c` on that is open and whose predecessor is accepted. */
  function FirstCandidate(total: nat, m: map<nat, ChapterState>, c: nat): Option<nat>
    decreases total + 1 - c
  {
    if c > total then None
    else if !(c in m && m[c] == Accepted) && (c <= 1 || (c - 1 in m && m[c - 1] == Accepted)) then Some(c)
    else FirstCandidate(total, m, c + 1)
  }

  /** `BookChapterScheduler.decide` with the default chain of dependencies. */
  function Decide(total: nat, m: map<nat, ChapterState>, cancel: bool): Decision {
    if cancel then CancelRun
    else if AnyIn(m, Running) then Wait
    else if AllAccepted(total, m) then AllDone
    else if AnyIn(m, NeedsReview) then HumanReview
    else match FirstCandidate(total, m, 1)
      case None => Wait
      case Some(c) => Schedule(c)
  }

  // ----------------------------------------------------- transactions of a run

  /** The status `_initialize` leaves behind; None when it refuses to execute. */
  function InitialStatus(r: Run): Option<RunStatus> {
    match r.status
    case Pending => Some(Generating)
    case PlanningValidation => Some(Generating)
    case Paused => Some(if r.completed == r.total then GlobalReview else Generating)
    case BudgetBlocked => Some(if r.completed == r.total then GlobalReview else Generating)
    case Generating => Some(Generating)
    case GlobalReview => Some(GlobalReview)
    case _ => None
  }

  function WithStatus(d: Db, s: RunStatus): Db {
    d.(run := d.run.(status := s))
  }

  /** What a transaction makes of the run row when it changes nothing else. */
  function OnRun(d: Db, r: Option<Run>): Option<Db> {
    match r
    case None => None
    case Some(x) => Some(d.(run := x))
  }

  function SyncedMap(m: map<nat, ChapterState>, accepted: map<nat, nat>): map<nat, ChapterState> {
    map c | c in m :: if c in accepted then Accepted else m[c]
  }

  /** `_sync_already_accepted`: it recounts all but the needs-review column. */
  function RowSynced(r: Run, accepted: map<nat, nat>): Run
    requires r.total > 0
  {
    var m := SyncedMap(r.chapters, accepted);
    r.(chapters := m,
       accepted := |AcceptedSet(m)|,
       completed := |DoneSet(m)|,
       progress := Progress(|DoneSet(m)|, r.total))
  }

  function Sync(d: Db): Db
    requires d.run.total > 0
  {
    d.(run := RowSynced(d.run, d.accepted))
  }

  /** The chapter `execute` goes on with when a workflow is in flight. */
  function Resumable(r: Run): Option<nat> {
    if r.workflow.Some? && r.current.Some? && r.current.value in r.chapters
       && r.chapters[r.current.value] == Running
    then r.current else None
  }

  const ESTIMATED_CALLS: nat := 5
  const ESTIMATED_TOKENS: nat := 30_000

  predicate OverBudget(r: Run) {
    || r.usage.calls + ESTIMATED_CALLS > r.caps.calls
    || r.usage.tokens + ESTIMATED_TOKENS > r.caps.tokens
    || r.usage.cost > r.caps.cost
  }

  function RowMarked(r: Run, c: nat): Run {
    r.(chapters := r.chapters[c := Running], current := Some(c))
  }

  function MarkRunning(d: Db, c: nat): Db {
    d.(run := RowMarked(d.run, c))
  }

  /** `_current_workflow`: the in-flight workflow, if the run is at chapter `c`. */
  function CurrentWorkflow(r: Run, c: nat): Option<nat> {
    if r.current == Some(c) then r.workflow else None
  }

  function SetJobWorkflow(jobs: map<nat, Job>, top: nat, w: Option<nat>): map<nat, Job> {
    if top in jobs then jobs[top := jobs[top].(workflow := w)] else jobs
  }

  /** A chapter workflow starts: its row, the run and the top job learn its id. */
  function Link(d: Db, c: nat, w: nat): Db {
    d.(workflows := d.workflows[w := Workflow(c, WorkflowRunning)],
       jobs := SetJobWorkflow(d.jobs, d.top, Some(w)),
       run := d.run.(workflow := Some(w)))
  }

  function WithWorkflowStatus(d: Db, w: nat, s: WorkflowStatus): Db
    requires w in d.workflows
  {
    d.(workflows := d.workflows[w := d.workflows[w].(status := s)])
  }

  /** A chapter workflow accepts version `v` of its chapter and completes, in one step. */
  function AcceptVersion(d: Db, w: nat, v: nat): Db
    requires w in d.workflows
  {
    WithWorkflowStatus(d, w, WorkflowCompleted).(accepted := d.accepted[d.workflows[w].chapter := v])
  }

  function Recorded(s: WorkflowStatus): ChapterState {
    if s == WorkflowCompleted then Accepted else NeedsReview
  }

  /** Chapter `c` ended in state `end` and its workflow now belongs to job `child`. */
  function RowRecorded(r: Run, c: nat, end: ChapterState, child: nat): Run
    requires r.total > 0
  {
    var m := r.chapters[c := end];
    r.(chapters := m,
       jobMap := r.jobMap[c := child],
       workflow := None,
       accepted := |AcceptedSet(m)|,
       completed := |DoneSet(m)|,
       needsReview := |ReviewSet(m)|,
       progress := Progress(|DoneSet(m)|, r.total))
  }

  /**
   `_record_chapter_completion`: the top job gives the workflow id back, a child
   job takes it over unless one with the same key exists, and the run is
   recounted. `j` is the id a new job row would get.
   */
  function Record(d: Db, c: nat, w: nat, s: WorkflowStatus, j: nat): Db
    requires d.run.total > 0
  {
    var key := ChildKey(c, w);
    var jobs := SetJobWorkflow(d.jobs, d.top, None);
    var known := key in d.keys;
    var child := if known then d.keys[key] else j;
    d.(jobs := if known then jobs else jobs[j := Job(Some(w), true, Some(d.top), Some(c))],
       keys := d.keys[key := child],
       successes := if known then d.successes else d.successes[j := d.successes[j] + 1],
       run := RowRecorded(d.run, c, Recorded(s), child))
  }

  /** `_update_usage`: a sum over the child jobs' workflows and `w`. */
  function UpdateUsage(d: Db, w: nat): Db {
    d.(run := d.run.(usage := Spent(d.calls, ChildWorkflows(d.jobs, d.top) + {w})))
  }

  /** `_record_periodic_check` after chapter `c`; None when pausing is refused. */
  function RowChecked(r: Run, c: nat, critical: bool): Option<Run> {
    var checked := r.(checks := r.checks + [c]);
    if !critical then Some(checked)
    else match Move(r.status, Paused)
      case None => None
      case Some(s) => Some(checked.(status := s))
  }

  function PeriodicCheck(d: Db, c: nat, critical: bool): Option<Db> {
    OnRun(d, RowChecked(d.run, c, critical))
  }

  /** `_finish_needs_review`; None when the status change is refused. */
  function RowUnreviewed(r: Run): Option<Run> {
    if r.status.Completed? || r.status.CompletedNeedsReview? then Some(r.(progress := 100))
    else match Move(r.status, CompletedNeedsReview)
      case None => None
      case Some(s) => Some(r.(status := s, progress := 100))
  }

  function FinishNeedsReview(d: Db): Option<Db> {
    OnRun(d, RowUnreviewed(d.run))
  }

  function RowReviewing(r: Run): Run {
    r.(status := if r.status.Generating? then GlobalReview else r.status, progress := 80)
  }

  function SetGlobalReview(d: Db): Db {
    d.(run := RowReviewing(d.run))
  }

  predicate HasEveryVersion(d: Db) {
    EveryVersion(d.accepted, d.run.total)
  }

  predicate EveryVersion(accepted: map<nat, nat>, total: nat) {
    forall c | 1 <= c <= total :: c in accepted
  }

  function CurrentVersions(d: Db): map<nat, nat>
    requires HasEveryVersion(d)
  {
    map c | 1 <= c <= d.run.total :: d.accepted[c]
  }

  /** `build_snapshot`: a new snapshot, unless the same versions have one already. */
  function TakeSnapshot(d: Db, sid: nat): Db
    requires HasEveryVersion(d)
  {
    if sid in d.snapshots then d
    else d.(snapshots := d.snapshots[sid := CurrentVersions(d)], run := RowSnapped(d.run, sid))
  }

  function RowSnapped(r: Run, sid: nat): Run {
    r.(snapshot := Some(sid), best := if r.best.None? then Some(sid) else r.best)
  }

  function Analyse(d: Db, sid: nat, passed: bool): Db {
    d.(evaluations := d.evaluations + [Evaluation(sid, passed)])
  }

  /** `_finish_completed`; None when the status change is refused. */
  function RowCompleted(r: Run, sid: nat): Option<Run> {
    match Move(r.status, Completed)
    case None => None
    case Some(s) => Some(r.(status := s, snapshot := Some(sid), best := Some(sid), progress := 100))
  }

  function FinishCompleted(d: Db, sid: nat): Option<Db> {
    OnRun(d, RowCompleted(d.run, sid))
  }

  /** The revision branch is open: it was asked for and a round is left. */
  predicate MayRevise(r: Run, targeted: bool) {
    targeted && r.round < r.maxRounds
  }

  /** First transaction of `_handle_revision_or_review`; None when it is refused. */
  function RowRevised(r: Run, targeted: bool): Option<Run> {
    if MayRevise(r, targeted) then
      match Move(r.status, GlobalRevision)
      case None => None
      case Some(s) => Some(r.(status := s, round := r.round + 1))
    else
      match Move(r.status, CompletedNeedsReview)
      case None => None
      case Some(s) => Some(r.(status := s, progress := 100))
  }

  function OpenRevision(d: Db, targeted: bool): Option<Db> {
    OnRun(d, RowRevised(d.run, targeted))
  }

  // ------------------------------------------------ transactions of the worker

  datatype Reason = PauseRequested | CancelAccepted | ExecutionError

  /** `mark_paused`, `mark_cancelled` and `mark_failed`; a refusal changes nothing. */
  function HandledStatus(s: RunStatus, r: Reason): RunStatus {
    if TerminalRun(s) then s
    else match r
      case PauseRequested =>
        if s.BudgetBlocked? then s else (match Move(s, Paused) case Some(t) => t case None => s)
      case CancelAccepted =>
        (match Move(s, CancelRequested) case Some(_) => Cancelled case None => s)
      case ExecutionError =>
        (match Move(s, Failed) case Some(t) => t case None => s)
  }
}
