/** What every reachable durable state of a run keeps, and why each action keeps it. */
module BookInvariant {
  import FiniteSets
  import opened Options
  import opened BookModel
  import opened BookMachine

  // --------------------------------------------------------------- invariants

  /** The status map covers the chapters and the counters are its sums. */
  ghost predicate MapInv(r: Run) {
    && r.total > 0
    && Covers(r.chapters, r.total)
    && r.accepted == |AcceptedSet(r.chapters)|
    && r.completed == |DoneSet(r.chapters)|
    && ProgressInv(r.status, r.progress)
    && r.round <= r.maxRounds
  }

  /** Every chapter of the book has a state, and "failed" is never written. */
  ghost predicate Covers(m: map<nat, ChapterState>, total: nat) {
    && (forall c :: c in m <==> 1 <= c <= total)
    && NoneIn(m, ChapterFailed)
  }

  predicate ProgressInv(s: RunStatus, progress: nat) {
    if s.Completed? || s.CompletedNeedsReview? then progress == 100 else progress <= 80
  }

  predicate NoneIn(m: map<nat, ChapterState>, s: ChapterState) {
    forall c | c in m :: m[c] != s
  }

  predicate StateIs(m: map<nat, ChapterState>, c: nat, s: ChapterState) {
    c in m && m[c] == s
  }

  /** At most the current chapter runs. */
  ghost predicate CurrentInv(m: map<nat, ChapterState>, current: Option<nat>) {
    && (forall c | c in m && m[c] == Running :: current == Some(c))
    && (current.Some? ==> current.value in m)
  }

  /**
   An in-flight workflow exists; its own chapter is the current one or accepted,
   and the current chapter is running or accepted.
   */
  ghost predicate FlightInv(m: map<nat, ChapterState>, total: nat, current: Option<nat>, workflow: Option<nat>,
                            workflows: map<nat, Workflow>) {
    workflow.Some? ==>
      && workflow.value in workflows
      && (current.None? ==> AllAccepted(total, m))
      && (current.Some? ==> StateIs(m, current.value, Running) || StateIs(m, current.value, Accepted))
      && (current == Some(workflows[workflow.value].chapter) || StateIs(m, workflows[workflow.value].chapter, Accepted))
  }

  ghost predicate UniqueWorkflows(jobs: map<nat, Job>) {
    forall i, j | i in jobs && j in jobs && i != j && jobs[i].workflow.Some? :: jobs[i].workflow != jobs[j].workflow
  }

  /** No two job rows share a workflow id, and the top job carries the in-flight one. */
  ghost predicate JobInv(jobs: map<nat, Job>, top: nat, ids: set<nat>, workflow: Option<nat>) {
    && top in jobs && jobs[top].ours && jobs[top].parent.None? && jobs[top].workflow == workflow
    && (forall j | j in jobs && jobs[j].workflow.Some? :: jobs[j].workflow.value in ids)
    && UniqueWorkflows(jobs)
    && (forall j | j in jobs && IsChild(jobs[j], top) :: jobs[j].workflow.Some? && jobs[j].chapter.Some?)
  }

  predicate ChildFor(jobs: map<nat, Job>, top: nat, j: nat, k: ChildKey) {
    j in jobs && IsChild(jobs[j], top) && jobs[j].chapter == Some(k.chapter) && jobs[j].workflow == Some(k.workflow)
  }

  predicate ChildOf(jobs: map<nat, Job>, top: nat, j: nat, c: nat) {
    j in jobs && IsChild(jobs[j], top) && jobs[j].chapter == Some(c)
  }

  /** Keys, success events and the chapter-to-job map name existing child jobs. */
  ghost predicate IndexInv(jobs: map<nat, Job>, top: nat, keys: map<ChildKey, nat>, successes: multiset<nat>,
                           jobMap: map<nat, nat>) {
    && (forall k | k in keys :: ChildFor(jobs, top, keys[k], k))
    && (forall j | j in jobs && IsChild(jobs[j], top) :: successes[j] == 1)
    && (forall j | j in successes :: j in jobs && IsChild(jobs[j], top))
    && (forall c | c in jobMap :: ChildOf(jobs, top, jobMap[c], c))
  }

  /** Revision tasks not yet recorded. */
  function OpenTasks(pc: Pc): seq<nat> {
    match pc
    case Revising(rest) => rest
    case Flight(c, _, Revision(rest)) => [c] + rest
    case Ended(c, _, _, Revision(rest)) => [c] + rest
    case RecordedPc(_, _, _, Revision(rest)) => rest
    case Settled(_, _, Revision(rest)) => rest
    case _ => []
  }

  /** One generation job a chapter, and at most one more for each revision round. */
  ghost predicate CountInv(jobs: map<nat, Job>, top: nat, m: map<nat, ChapterState>, round: nat) {
    && (forall c :: |Children(jobs, top, c)| <= 1 + round)
    && (forall c | c in m && (m[c] == Planned || m[c] == Running) :: Children(jobs, top, c) == {})
  }

  ghost predicate TaskInv(jobs: map<nat, Job>, top: nat, round: nat, tasks: seq<nat>) {
    && Distinct(tasks)
    && forall c | c in tasks :: |Children(jobs, top, c)| <= round
  }

  /** The chapter whose periodic check may still be due. */
  function CheckDue(pc: Pc): Option<nat> {
    match pc
    case RecordedPc(c, _, _, Generation) => Some(c)
    case Settled(c, _, Generation) => Some(c)
    case Checking(c) => Some(c)
    case _ => None
  }

  /** Periodic checks follow accepted chapters, each at most once. */
  ghost predicate CheckInv(checks: seq<nat>, m: map<nat, ChapterState>, due: Option<nat>) {
    && Distinct(checks)
    && (forall c | c in checks :: StateIs(m, c, Accepted))
    && (due.Some? ==> due.value !in checks)
  }

  ghost predicate LastAnalysis(evaluations: seq<Evaluation>, sid: nat, passed: bool) {
    |evaluations| > 0 && evaluations[|evaluations| - 1] == Evaluation(sid, passed)
  }

  /** A snapshot names a version of every chapter, so every chapter has one. */
  ghost predicate SnapshotInv(snapshots: map<nat, map<nat, nat>>, accepted: map<nat, nat>, total: nat) {
    && (forall sid, c | sid in snapshots :: c in snapshots[sid] <==> 1 <= c <= total)
    && (snapshots != map[] ==> EveryVersion(accepted, total))
  }

  /** A completed run names the snapshot that was analysed last, and it passed. */
  ghost predicate CompletionInv(r: Run, snapshots: map<nat, map<nat, nat>>, evaluations: seq<Evaluation>) {
    r.status.Completed? ==>
      && r.snapshot.Some? && r.best == r.snapshot && r.snapshot.value in snapshots
      && LastAnalysis(evaluations, r.snapshot.value, true)
      && AllAccepted(r.total, r.chapters)
  }

  predicate Working(s: RunStatus) {
    s.Generating? || s.GlobalReview? || s.GlobalRevision? || s.CancelRequested?
  }

  /** Once the review has begun no chapter is open any more. */
  ghost predicate ReviewInv(s: RunStatus, m: map<nat, ChapterState>) {
    s.GlobalReview? || s.GlobalRevision? ==> NoneIn(m, Planned) && NoneIn(m, Running)
  }

  /** While the worker is busy the run is neither paused nor finished. */
  ghost predicate StatusInv(s: RunStatus, pc: Pc) {
    && (Active(pc) ==> Working(s))
    && (pc.Returned? ==> s.Completed? || s.CompletedNeedsReview?)
  }

  /** A generated chapter is the current one and running; when revising, all are accepted. */
  ghost predicate InMode(m: map<nat, ChapterState>, total: nat, current: Option<nat>, c: nat, mode: Mode) {
    match mode
    case Generation => StateIs(m, c, Running) && current == Some(c)
    case Revision(_) => c in m && AllAccepted(total, m)
  }

  /** Where the chapters and the in-flight workflow stand at each step of the worker. */
  ghost predicate PlaceInv(m: map<nat, ChapterState>, total: nat, current: Option<nat>, workflow: Option<nat>, pc: Pc) {
    match pc
    case Gate(c) => StateIs(m, c, Planned) && NoneIn(m, Running)
    case Picked(c) =>
      || (StateIs(m, c, Planned) && NoneIn(m, Running))
      || (StateIs(m, c, Running) && current == Some(c) && workflow.Some?)
    case Marked(c) => StateIs(m, c, Running) && current == Some(c)
    case Flight(c, w, mode) => workflow == Some(w) && InMode(m, total, current, c, mode)
    case Ended(c, w, st, mode) => workflow == Some(w) && InMode(m, total, current, c, mode)
    case RecordedPc(c, w, st, mode) => StateIs(m, c, Recorded(st)) && (mode.Revision? ==> AllAccepted(total, m))
    case Settled(c, st, mode) => StateIs(m, c, Recorded(st)) && (mode.Revision? ==> AllAccepted(total, m))
    case Checking(c) => StateIs(m, c, Accepted)
    case Generated => AllAccepted(total, m)
    case Review(_) => AllAccepted(total, m)
    case Snapped(sid, _) => AllAccepted(total, m)
    case Analysed(sid, passed, _, _) => AllAccepted(total, m)
    case Revising(_) => AllAccepted(total, m)
    case _ => true
  }

  /** What the worker has in hand: the ended workflow, the child job, the snapshot. */
  ghost predicate HandInv(workflows: map<nat, Workflow>, jobs: map<nat, Job>, top: nat,
                          snapshots: map<nat, map<nat, nat>>, evaluations: seq<Evaluation>, pc: Pc) {
    match pc
    case Ended(_, w, st, _) => w in workflows && (HasEnded(pc) ==> st == workflows[w].status)
    case RecordedPc(_, w, _, _) => w in ChildWorkflows(jobs, top)
    case Snapped(sid, _) => sid in snapshots
    case Analysed(sid, passed, _, _) => sid in snapshots && LastAnalysis(evaluations, sid, passed)
    case _ => true
  }

  /** The part of the invariant that only the durable rows matter to. */
  ghost predicate DbInv(d: Db) {
    var r := d.run;
    && MapInv(r)
    && d.interval > 0
    && CurrentInv(r.chapters, r.current)
    && FlightInv(r.chapters, r.total, r.current, r.workflow, d.workflows)
    && JobInv(d.jobs, d.top, d.workflows.Keys, r.workflow)
    && IndexInv(d.jobs, d.top, d.keys, d.successes, r.jobMap)
    && CountInv(d.jobs, d.top, r.chapters, r.round)
    && SnapshotInv(d.snapshots, d.accepted, r.total)
    && CompletionInv(r, d.snapshots, d.evaluations)
    && ReviewInv(r.status, r.chapters)
  }

  ghost predicate Inv(s: Sys) {
    && DbInv(s.db)
    && StatusInv(s.db.run.status, s.pc)
    && PlaceInv(s.db.run.chapters, s.db.run.total, s.db.run.current, s.db.run.workflow, s.pc)
    && HandInv(s.db.workflows, s.db.jobs, s.db.top, s.db.snapshots, s.db.evaluations, s.pc)
    && CheckInv(s.db.run.checks, s.db.run.chapters, CheckDue(s.pc))
    && TaskInv(s.db.jobs, s.db.top, s.db.run.round, OpenTasks(s.pc))
  }

  // ------------------------------------------------------------- arithmetic

  lemma MulMonotone(x: nat, y: nat, b: nat)
    requires x <= y
    ensures x * b <= y * b
  {}

  lemma RoundBounds(a: nat, b: nat, k: nat)
    requires b > 0 && a <= k * b
    ensures RoundHalfEven(a, b) <= k
  {
    var q, r := a / b, a % b;
    assert a == q * b + r;
    if q >= k {
      MulMonotone(k, q, b);
      if q > k { MulMonotone(k + 1, q, b); }
    }
  }

  lemma DoneAtMostTotal(total: nat, m: map<nat, ChapterState>)
    requires forall c :: c in m <==> 1 <= c <= total
    ensures |DoneSet(m)| <= total
    ensures |DoneSet(m)| == total ==> forall c | c in m :: Done(m[c])
  {
    FiniteSets.SubsetSize(DoneSet(m), FiniteSets.UpTo(total));
    if |DoneSet(m)| == total {
      forall c | c in m ensures Done(m[c]) { assert c in FiniteSets.UpTo(total); }
    }
  }

  lemma ProgressBound(total: nat, m: map<nat, ChapterState>)
    requires total > 0 && forall c :: c in m <==> 1 <= c <= total
    ensures Progress(|DoneSet(m)|, total) <= 75
  {
    DoneAtMostTotal(total, m);
    RoundBounds(75 * |DoneSet(m)|, total, 75);
  }
}
