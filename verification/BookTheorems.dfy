/** What every run of the whole-book machine guarantees. */
module BookTheorems {
  import opened Options
  import opened BookModel
  import opened BookMachine
  import opened BookInvariant
  import opened BookPreservation

  // ------------------------------------------------------------- job identity

  /** No two job rows ever carry the same workflow id; the in-flight one is the top job's alone. */
  lemma WorkflowIdsNeverShared(t: seq<Sys>, n: nat)
    requires IsRun(t) && n < |t|
    ensures var d := t[n].db;
      && UniqueWorkflows(d.jobs)
      && d.top in d.jobs && d.jobs[d.top].workflow == d.run.workflow
      && (d.run.workflow.Some? ==> d.run.workflow.value !in ChildWorkflows(d.jobs, d.top))
  {
    RunKeeps(t, n);
    JobFacts(t[n].db);
  }

  lemma JobFacts(d: Db)
    requires DbInv(d)
    ensures UniqueWorkflows(d.jobs) && d.top in d.jobs && d.jobs[d.top].workflow == d.run.workflow
    ensures d.run.workflow.Some? ==> d.run.workflow.value !in ChildWorkflows(d.jobs, d.top)
  {
    hide MapInv, CurrentInv, FlightInv, CountInv, SnapshotInv, CompletionInv, ReviewInv;
    if d.run.workflow.Some? { KeyIsFree(d, 0, d.run.workflow.value); }
  }

  /**
   Recording hands the id from the top job to one new child job in one step: the
   idempotency lookup never finds a row, and no other job changes.
   */
  lemma RecordHandsOver(t: seq<Sys>, n: nat, j: nat)
    requires IsRun(t) && n + 1 < |t| && Fire(t[n], RecordChapter(j)) == Some(t[n + 1])
    ensures var d, e, w := t[n].db, t[n + 1].db, t[n].pc.workflow;
      && ChildKey(t[n].pc.chapter, w) !in d.keys
      && d.top in d.jobs && d.jobs[d.top].workflow == Some(w)
      && j !in d.jobs
      && e.jobs == d.jobs[d.top := d.jobs[d.top].(workflow := None)][j := NewChild(d.top, t[n].pc.chapter, w)]
      && e.run.jobMap == d.run.jobMap[t[n].pc.chapter := j]
      && e.run.workflow.None? && e.successes[j] == 1
      && (forall k | k != j :: e.successes[k] == d.successes[k])
  {
    RunKeeps(t, n);
    var s := t[n];
    EndedFacts(s);
    RecordIsInsert(s.db, s.pc.chapter, s.pc.workflow, s.pc.status, j);
  }

  lemma RecordIsInsert(d: Db, c: nat, w: nat, st: WorkflowStatus, j: nat)
    requires DbInv(d) && d.run.workflow == Some(w) && j !in d.jobs
    ensures d.run.total > 0 && ChildKey(c, w) !in d.keys && d.top in d.jobs && d.jobs[d.top].workflow == Some(w)
    ensures var e := Record(d, c, w, st, j);
      && e.jobs == d.jobs[d.top := d.jobs[d.top].(workflow := None)][j := NewChild(d.top, c, w)]
      && e.successes == d.successes[j := 1]
      && e.run.jobMap == d.run.jobMap[c := j]
  {
    hide CurrentInv, FlightInv, CountInv, SnapshotInv, CompletionInv, ReviewInv;
    KeyIsFree(d, c, w);
    assert j !in d.successes;
  }

  /** At most one generation job a chapter, plus at most one for every revision round. */
  lemma JobsPerChapter(t: seq<Sys>, n: nat, c: nat)
    requires IsRun(t) && n < |t|
    ensures var d := t[n].db;
      && |Children(d.jobs, d.top, c)| <= 1 + d.run.round
      && d.run.round <= d.run.maxRounds
  {
    RunKeeps(t, n);
    assert CountInv(t[n].db.jobs, t[n].db.top, t[n].db.run.chapters, t[n].db.run.round);
  }

  /** Exactly one success event a child job, none for others, and a truthful job map. */
  lemma EventsAndJobMap(t: seq<Sys>, n: nat)
    requires IsRun(t) && n < |t|
    ensures var d := t[n].db;
      && (forall j | j in d.jobs :: d.successes[j] == if IsChild(d.jobs[j], d.top) then 1 else 0)
      && (forall c | c in d.run.jobMap :: ChildOf(d.jobs, d.top, d.run.jobMap[c], c))
  {
    RunKeeps(t, n);
    EventFacts(t[n].db);
  }

  lemma EventFacts(d: Db)
    requires DbInv(d)
    ensures forall j | j in d.jobs :: d.successes[j] == if IsChild(d.jobs[j], d.top) then 1 else 0
    ensures forall c | c in d.run.jobMap :: ChildOf(d.jobs, d.top, d.run.jobMap[c], c)
  {
    hide MapInv, CurrentInv, FlightInv, CountInv, SnapshotInv, CompletionInv, ReviewInv;
    forall j | j in d.jobs ensures d.successes[j] == if IsChild(d.jobs[j], d.top) then 1 else 0 {
      if !IsChild(d.jobs[j], d.top) { assert j !in d.successes; }
    }
  }

  /** Over the whole life of a run a chapter is followed by at most one periodic check. */
  lemma ChecksNeverRepeat(t: seq<Sys>, n: nat)
    requires IsRun(t) && n < |t|
    ensures Distinct(t[n].db.run.checks)
    ensures forall c | c in t[n].db.run.checks :: StateIs(t[n].db.run.chapters, c, Accepted)
  {
    RunKeeps(t, n);
    assert CheckInv(t[n].db.run.checks, t[n].db.run.chapters, CheckDue(t[n].pc));
  }

  // ---------------------------------------------------------- counts, progress

  /** The counters are the sums of the status map, and progress keeps its ranges. */
  lemma CountersAgree(t: seq<Sys>, n: nat)
    requires IsRun(t) && n < |t|
    ensures var r := t[n].db.run;
      && r.accepted == |AcceptedSet(r.chapters)| && r.completed == |DoneSet(r.chapters)| <= r.total
      && r.accepted == |set c | c in r.chapters && r.chapters[c] == Accepted|
      && r.completed == |set c | c in r.chapters && r.chapters[c] in {Accepted, ChapterFailed, NeedsReview}|
      && (if r.status.Completed? || r.status.CompletedNeedsReview? then r.progress == 100 else r.progress <= 80)
  {
    RunKeeps(t, n);
    assert MapInv(t[n].db.run);
    DoneAtMostTotal(t[n].db.run.total, t[n].db.run.chapters);
    SetsSpelledOut(t[n].db.run.chapters);
  }

  lemma SetsSpelledOut(m: map<nat, ChapterState>)
    ensures AcceptedSet(m) == set c | c in m && m[c] == Accepted
    ensures DoneSet(m) == set c | c in m && m[c] in {Accepted, ChapterFailed, NeedsReview}
    ensures ReviewSet(m) == set c | c in m && m[c] == NeedsReview
  {}

  lemma Scaled(x: nat, y: nat, b: nat)
    ensures x <= y ==> x * b <= y * b
  {
    if x <= y { MulMonotone(x, y, b); }
  }

  lemma QuotientMonotone(a: nat, b: nat, d: nat)
    requires d > 0 && a <= b
    ensures a / d < b / d || (a / d == b / d && a % d <= b % d)
  {
    var qa, ra, qb, rb := a / d, a % d, b / d, b % d;
    assert a == qa * d + ra && b == qb * d + rb;
    Scaled(qb + 1, qa, d);
  }

  lemma RoundMonotone(a: nat, b: nat, d: nat)
    requires d > 0 && a <= b
    ensures RoundHalfEven(a, d) <= RoundHalfEven(b, d)
  {
    QuotientMonotone(a, b, d);
  }

  /** Progress of the generation phase grows with the finished chapters and stays at most 75. */
  lemma ProgressMonotone(x: nat, y: nat, total: nat)
    requires total > 0 && x <= y <= total
    ensures Progress(x, total) <= Progress(y, total) <= 75
  {
    RoundMonotone(75 * x, 75 * y, total);
    RoundBounds(75 * y, total, 75);
  }

  // ------------------------------------------------------------ what never undoes

  predicate NothingOpen(m: map<nat, ChapterState>) {
    NoneIn(m, Planned) && NoneIn(m, Running)
  }

  /** What no later step takes back. */
  ghost predicate Grows(d: Db, e: Db) {
    && d.top == e.top && d.interval == e.interval
    && d.run.total == e.run.total && d.run.maxRounds == e.run.maxRounds
    && (forall c | StateIs(d.run.chapters, c, Accepted) :: StateIs(e.run.chapters, c, Accepted))
    && (NothingOpen(d.run.chapters) ==> NothingOpen(e.run.chapters))
    && d.run.round <= e.run.round
    && d.run.checks <= e.run.checks && d.evaluations <= e.evaluations && d.calls <= e.calls
    && d.workflows.Keys <= e.workflows.Keys && d.accepted.Keys <= e.accepted.Keys
    && (forall j | j in d.jobs && IsChild(d.jobs[j], d.top) :: j in e.jobs && e.jobs[j] == d.jobs[j])
    && (TerminalRun(d.run.status) ==> e.run.status == d.run.status)
  }

  lemma GrowsTransitive(a: Db, b: Db, c: Db)
    requires Grows(a, b) && Grows(b, c)
    ensures Grows(a, c)
  {}

  /** Steps that leave the chapter states and the job table alone. */
  predicate Quiet(d: Db, e: Db) {
    && d.top == e.top && d.interval == e.interval && d.jobs == e.jobs
    && d.run.total == e.run.total && d.run.maxRounds == e.run.maxRounds && d.run.chapters == e.run.chapters
    && d.run.round <= e.run.round
    && d.run.checks <= e.run.checks && d.evaluations <= e.evaluations && d.calls <= e.calls
    && d.workflows.Keys <= e.workflows.Keys && d.accepted.Keys <= e.accepted.Keys
  }

  predicate EndStays(d: Db, e: Db) {
    TerminalRun(d.run.status) ==> e.run.status == d.run.status
  }

  lemma QuietGrows(d: Db, e: Db)
    requires Quiet(d, e) && EndStays(d, e)
    ensures Grows(d, e)
  {}

  lemma ExecuteIsQuiet(s: Sys, a: Action, t: Sys)
    requires Execute(s, a) == Some(t)
    requires !a.SyncAccepted? && !a.MarkChapter? && !a.RecordChapter? && !a.Attach?
    ensures Quiet(s.db, t.db)
  {
    hide Quiet;
    if a.Initialize? || a.Choose? || a.PassGate? { StartIsQuiet(s, a, t); } else { FinishIsQuiet(s, a, t); }
  }

  lemma StartIsQuiet(s: Sys, a: Action, t: Sys)
    requires Execute(s, a) == Some(t) && (a.Initialize? || a.Choose? || a.PassGate?)
    ensures Quiet(s.db, t.db)
  {}

  lemma FinishIsQuiet(s: Sys, a: Action, t: Sys)
    requires Execute(s, a) == Some(t) && (a.SettleUsage? || a.AfterChapter? || a.CheckPeriodically? || a.FinishReview?)
    ensures Quiet(s.db, t.db)
  {}

  lemma ReviewIsQuiet(s: Sys, a: Action, t: Sys)
    requires ReviewStep(s, a) == Some(t) && !a.StartTask?
    ensures Quiet(s.db, t.db)
  {
    hide Quiet;
    if a.ReviewBook? || a.BuildSnapshot? || a.AnalyseBook? {
      AnalysisIsQuiet(s, a, t);
    } else {
      DecisionIsQuiet(s, a, t);
    }
  }

  lemma AnalysisIsQuiet(s: Sys, a: Action, t: Sys)
    requires ReviewStep(s, a) == Some(t) && (a.ReviewBook? || a.BuildSnapshot? || a.AnalyseBook?)
    ensures Quiet(s.db, t.db)
  {
    hide HasEveryVersion, CurrentVersions;
  }

  lemma DecisionIsQuiet(s: Sys, a: Action, t: Sys)
    requires ReviewStep(s, a) == Some(t) && (a.CompleteBook? || a.DecideRevision? || a.EndRevision?)
    ensures Quiet(s.db, t.db)
  {
    hide Distinct;
  }

  lemma WorkflowIsQuiet(s: Sys, a: Action, t: Sys)
    requires WorkflowStep(s, a) == Some(t)
    ensures Quiet(s.db, t.db)
  {}

  lemma EnvironmentIsQuiet(s: Sys, a: Action, t: Sys)
    requires Environment(s, a) == Some(t) && !a.OutsideWorkflow?
    ensures Quiet(s.db, t.db)
  {}

  /** A finished, cancelled or failed run keeps its status: the worker is not busy with it. */
  lemma ExecuteKeepsEnd(s: Sys, a: Action, t: Sys)
    requires StatusInv(s.db.run.status, s.pc) && Execute(s, a) == Some(t)
    ensures EndStays(s.db, t.db)
  {}

  lemma ReviewKeepsEnd(s: Sys, a: Action, t: Sys)
    requires StatusInv(s.db.run.status, s.pc) && ReviewStep(s, a) == Some(t)
    ensures EndStays(s.db, t.db)
  {}

  lemma WorkflowKeepsEnd(s: Sys, a: Action, t: Sys)
    requires StatusInv(s.db.run.status, s.pc) && WorkflowStep(s, a) == Some(t)
    ensures EndStays(s.db, t.db)
  {}

  lemma EnvironmentKeepsEnd(s: Sys, a: Action, t: Sys)
    requires StatusInv(s.db.run.status, s.pc) && Environment(s, a) == Some(t)
    ensures EndStays(s.db, t.db)
  {}

  lemma OutsideGrows(s: Sys, a: Action, t: Sys)
    requires Environment(s, a) == Some(t) && a.OutsideWorkflow?
    ensures Grows(s.db, t.db)
  {}

  lemma SyncGrows(d: Db)
    requires d.run.total > 0
    ensures Grows(d, Sync(d))
  {}

  lemma MarkGrows(s: Sys, t: Sys)
    requires Inv(s) && Fire(s, MarkChapter) == Some(t)
    ensures Grows(s.db, t.db)
  {
    hide JobInv, IndexInv, CountInv, TaskInv, CheckInv, SnapshotInv, FlightInv, CompletionInv, ReviewInv;
  }

  lemma LinkGrows(d: Db, c: nat, w: nat)
    requires d.top in d.jobs ==> !IsChild(d.jobs[d.top], d.top)
    ensures Grows(d, Link(d, c, w))
  {}

  lemma TopIsNoChild(d: Db)
    requires DbInv(d)
    ensures d.top in d.jobs && !IsChild(d.jobs[d.top], d.top)
  {
    hide MapInv, CurrentInv, FlightInv, CountInv, SnapshotInv, CompletionInv, ReviewInv, IndexInv, UniqueWorkflows;
  }

  /** A step that links a workflow, or touches the workflow table only. */
  lemma AttachEffect(s: Sys, id: nat, t: Sys)
    requires Execute(s, Attach(id)) == Some(t)
    ensures t.db == Link(s.db, s.pc.chapter, id) || Quiet(s.db, t.db)
    ensures t.db.run.status == s.db.run.status
  {
    hide Link, OverBudget, Decide, Spent;
    assert Link(s.db, s.pc.chapter, id).run.status == s.db.run.status by { LinkStatus(s.db, s.pc.chapter, id); }
  }

  lemma LinkStatus(d: Db, c: nat, w: nat)
    ensures Link(d, c, w).run.status == d.run.status
  {}

  lemma AttachGrows(s: Sys, a: Action, t: Sys)
    requires Inv(s) && Fire(s, a) == Some(t) && (a.Attach? || a.StartTask?)
    ensures Grows(s.db, t.db)
  {
    hide Inv, Grows, Link, Quiet, AttachResult, IsChild;
    InvRows(s);
    TopIsNoChild(s.db);
    match a
    case Attach(id) =>
      AttachEffect(s, id, t);
      LinkGrows(s.db, s.pc.chapter, id);
      if Quiet(s.db, t.db) { QuietGrows(s.db, t.db); }
    case StartTask(id) => LinkGrows(s.db, s.pc.rest[0], id);
  }

  lemma RecordRowsGrow(d: Db, c: nat, w: nat, st: WorkflowStatus, j: nat)
    requires DbInv(d) && d.run.workflow == Some(w) && j !in d.jobs && Working(d.run.status)
    requires || StateIs(d.run.chapters, c, Running)
             || (AllAccepted(d.run.total, d.run.chapters) && c in d.run.chapters && st.WorkflowCompleted?)
    ensures d.run.total > 0 && Grows(d, Record(d, c, w, st, j))
  {
    hide DbInv;
    TopIsNoChild(d);
    RecordIsInsert(d, c, w, st, j);
    assert Recorded(st) == Accepted || Recorded(st) == NeedsReview;
    assert !TerminalRun(d.run.status);
  }

  lemma RecordGrows(s: Sys, j: nat, t: Sys)
    requires Inv(s) && Fire(s, RecordChapter(j)) == Some(t)
    ensures Grows(s.db, t.db)
  {
    hide Inv, Grows;
    EndedFacts(s);
    InvRows(s);
    RecordRowsGrow(s.db, s.pc.chapter, s.pc.workflow, s.pc.status, j);
  }

  lemma InvRows(s: Sys)
    requires Inv(s)
    ensures DbInv(s.db)
  {
    hide DbInv, TaskInv, CheckInv, HandInv, PlaceInv;
  }

  lemma QuietStepGrows(s: Sys, a: Action, t: Sys)
    requires Inv(s) && Fire(s, a) == Some(t)
    requires !a.SyncAccepted? && !a.MarkChapter? && !a.RecordChapter?
    requires !a.Attach? && !a.StartTask? && !a.OutsideWorkflow?
    ensures Grows(s.db, t.db)
  {
    hide Inv, Grows, Quiet, EndStays, StatusInv, Execute, ReviewStep, WorkflowStep, Environment;
    StatusFacts(s);
    if Execute(s, a) == Some(t) { ExecuteIsQuiet(s, a, t); ExecuteKeepsEnd(s, a, t); }
    else if ReviewStep(s, a) == Some(t) { ReviewIsQuiet(s, a, t); ReviewKeepsEnd(s, a, t); }
    else if WorkflowStep(s, a) == Some(t) { WorkflowIsQuiet(s, a, t); WorkflowKeepsEnd(s, a, t); }
    else { EnvironmentIsQuiet(s, a, t); EnvironmentKeepsEnd(s, a, t); }
    QuietGrows(s.db, t.db);
  }

  lemma StepGrows(s: Sys, t: Sys)
    requires Inv(s) && Step(s, t)
    ensures Grows(s.db, t.db)
  {
    hide Inv, Grows;
    var a :| Fire(s, a) == Some(t);
    match a
    case SyncAccepted => SyncGrows(s.db);
    case MarkChapter => MarkGrows(s, t);
    case RecordChapter(j) => RecordGrows(s, j, t);
    case Attach(_) => AttachGrows(s, a, t);
    case StartTask(_) => AttachGrows(s, a, t);
    case OutsideWorkflow(_, _, _) => OutsideGrows(s, a, t);
    case _ => QuietStepGrows(s, a, t);
  }

  lemma GrowsReflexive(d: Db)
    ensures Grows(d, d)
  {}

  /** Between any two states of a run nothing of the above is taken back. */
  lemma {:induction false} RunGrows(t: seq<Sys>, i: nat, k: nat)
    requires IsRun(t) && i <= k < |t|
    ensures Grows(t[i].db, t[k].db)
    decreases k - i
  {
    hide Inv, Grows, Step, Initial;
    if i == k {
      GrowsReflexive(t[i].db);
    } else {
      RunGrows(t, i, k - 1);
      RunKeeps(t, k - 1);
      assert Step(t[k - 1], t[k - 1 + 1]);
      StepGrows(t[k - 1], t[k]);
      GrowsTransitive(t[i].db, t[k - 1].db, t[k].db);
    }
  }

  /** An accepted chapter stays accepted, whatever crashes and re-entries follow. */
  lemma AcceptedForever(t: seq<Sys>, i: nat, k: nat, c: nat)
    requires IsRun(t) && i <= k < |t| && StateIs(t[i].db.run.chapters, c, Accepted)
    ensures StateIs(t[k].db.run.chapters, c, Accepted)
  {
    RunGrows(t, i, k);
  }

  predicate Generating(pc: Pc) {
    || pc.Gate? || pc.Picked? || pc.Marked?
    || (pc.Flight? && pc.mode.Generation?) || (pc.Ended? && pc.mode.Generation?)
  }

  /** Once the run has reached the global review no chapter is generated again. */
  lemma ReviewNeverGenerates(t: seq<Sys>, i: nat, k: nat)
    requires IsRun(t) && i <= k < |t|
    requires t[i].db.run.status.GlobalReview? || t[i].db.run.status.GlobalRevision?
    ensures !Generating(t[k].pc)
  {
    RunKeeps(t, i);
    assert ReviewInv(t[i].db.run.status, t[i].db.run.chapters);
    RunGrows(t, i, k);
    RunKeeps(t, k);
    ClosedPlaces(t[k]);
  }

  lemma ClosedPlaces(s: Sys)
    requires Inv(s) && NothingOpen(s.db.run.chapters)
    ensures !Generating(s.pc)
  {
    hide DbInv, TaskInv, CheckInv, HandInv;
  }

  // ----------------------------------------------------------------- snapshots

  /** The map names for every chapter of the book the version accepted in `d`, and nothing else. */
  ghost predicate VersionsOf(m: map<nat, nat>, d: Db) {
    && (forall c :: c in m <==> 1 <= c <= d.run.total)
    && (forall c | c in m :: c in d.accepted && m[c] == d.accepted[c])
  }

  /** A snapshot that was built or found holds the versions accepted at that moment, chapter by chapter. */
  lemma SnapshotTaken(s: Sys, sid: nat, t: Sys)
    requires Fire(s, BuildSnapshot(sid)) == Some(t) && t.pc.Snapped?
    ensures t.pc.snapshot == sid && sid in t.db.snapshots && VersionsOf(t.db.snapshots[sid], s.db)
    ensures forall k | k in s.db.snapshots :: k in t.db.snapshots && t.db.snapshots[k] == s.db.snapshots[k]
  {}

  /** Apart from that the snapshots of a run never change. */
  lemma SnapshotsStay(s: Sys, a: Action, t: Sys)
    requires Fire(s, a) == Some(t) && !a.BuildSnapshot?
    ensures t.db.snapshots == s.db.snapshots && t.db.run.total == s.db.run.total
  {
    hide Execute, ReviewStep, WorkflowStep, Environment;
    if Execute(s, a) == Some(t) { ExecuteKeepsSnapshots(s, a, t); }
    else if ReviewStep(s, a) == Some(t) { ReviewKeepsSnapshots(s, a, t); }
    else if WorkflowStep(s, a) == Some(t) { WorkflowKeepsSnapshots(s, a, t); }
    else { EnvironmentKeepsSnapshots(s, a, t); }
  }

  lemma ExecuteKeepsSnapshots(s: Sys, a: Action, t: Sys)
    requires Execute(s, a) == Some(t)
    ensures t.db.snapshots == s.db.snapshots && t.db.run.total == s.db.run.total
  {
    hide Spent, AcceptedSet, DoneSet, Progress, Decide, OverBudget;
  }

  lemma ReviewKeepsSnapshots(s: Sys, a: Action, t: Sys)
    requires ReviewStep(s, a) == Some(t) && !a.BuildSnapshot?
    ensures t.db.snapshots == s.db.snapshots && t.db.run.total == s.db.run.total
  {}

  lemma WorkflowKeepsSnapshots(s: Sys, a: Action, t: Sys)
    requires WorkflowStep(s, a) == Some(t)
    ensures t.db.snapshots == s.db.snapshots && t.db.run.total == s.db.run.total
  {}

  lemma EnvironmentKeepsSnapshots(s: Sys, a: Action, t: Sys)
    requires Environment(s, a) == Some(t)
    ensures t.db.snapshots == s.db.snapshots && t.db.run.total == s.db.run.total
  {}

  /**
   Every snapshot of a run holds, for every chapter, the version that was the
   chapter's accepted one in a single earlier state, about to build a snapshot.
   */
  lemma {:induction false} SnapshotsWereAccepted(t: seq<Sys>, n: nat, sid: nat) returns (i: nat)
    requires IsRun(t) && n < |t| && sid in t[n].db.snapshots
    ensures i < n && t[i].pc.Review? && VersionsOf(t[n].db.snapshots[sid], t[i].db)
    decreases n
  {
    hide Fire, Initial, VersionsOf;
    if n == 0 {
      NoSnapshotYet(t[0]);
      assert false;
    } else {
      assert Step(t[n - 1], t[n - 1 + 1]);
      var a :| Fire(t[n - 1], a) == Some(t[n]);
      if a.BuildSnapshot? && sid !in t[n - 1].db.snapshots {
        BuiltJustNow(t[n - 1], a.sid, t[n], sid);
        i := n - 1;
      } else {
        if a.BuildSnapshot? { KeptByBuild(t[n - 1], a.sid, t[n]); } else { SnapshotsStay(t[n - 1], a, t[n]); }
        i := SnapshotsWereAccepted(t, n - 1, sid);
      }
    }
  }

  lemma NoSnapshotYet(s: Sys)
    requires Initial(s)
    ensures s.db.snapshots == map[]
  {}

  lemma BuiltJustNow(s: Sys, sid: nat, t: Sys, k: nat)
    requires Fire(s, BuildSnapshot(sid)) == Some(t) && k in t.db.snapshots && k !in s.db.snapshots
    ensures s.pc.Review? && VersionsOf(t.db.snapshots[k], s.db)
  {}

  lemma KeptByBuild(s: Sys, sid: nat, t: Sys)
    requires Fire(s, BuildSnapshot(sid)) == Some(t)
    ensures forall k | k in s.db.snapshots :: k in t.db.snapshots && t.db.snapshots[k] == s.db.snapshots[k]
  {}

  /**
   In every state in which a snapshot is analysed or was just analysed, it holds the
   versions that were accepted when the worker asked for it, chapter by chapter.
   */
  lemma {:induction false} AnalysedIsAccepted(t: seq<Sys>, n: nat) returns (i: nat)
    requires IsRun(t) && n < |t| && (t[n].pc.Snapped? || t[n].pc.Analysed?)
    ensures i < n && t[i].pc.Review? && t[i].pc.second == t[n].pc.second
    ensures t[n].pc.snapshot in t[n].db.snapshots && VersionsOf(t[n].db.snapshots[t[n].pc.snapshot], t[i].db)
    ensures forall k | i < k <= n ::
      (t[k].pc.Snapped? || t[k].pc.Analysed?) && t[k].pc.snapshot == t[n].pc.snapshot
    decreases n
  {
    hide Fire, Initial, VersionsOf;
    if n == 0 {
      IdleAtFirst(t[0]);
      assert false;
    } else {
      assert Step(t[n - 1], t[n - 1 + 1]);
      var a :| Fire(t[n - 1], a) == Some(t[n]);
      BeforeAnalysis(t[n - 1], a, t[n]);
      if a.BuildSnapshot? {
        SnapshotTaken(t[n - 1], a.sid, t[n]);
        i := n - 1;
      } else {
        SnapshotsStay(t[n - 1], a, t[n]);
        i := AnalysedIsAccepted(t, n - 1);
      }
    }
  }

  lemma IdleAtFirst(s: Sys)
    requires Initial(s)
    ensures s.pc.Idle?
  {}

  lemma BeforeAnalysis(s: Sys, a: Action, t: Sys)
    requires Fire(s, a) == Some(t) && (t.pc.Snapped? || t.pc.Analysed?)
    ensures if a.BuildSnapshot? then s.pc.Review? && t.pc.Snapped? && t.pc.second == s.pc.second
            else (s.pc.Snapped? || s.pc.Analysed?) && s.pc.snapshot == t.pc.snapshot && s.pc.second == t.pc.second
  {
    hide Sync, Record, UpdateUsage, Decide, OverBudget, InitialStatus, Move, PeriodicCheck, FinishNeedsReview;
  }

  // --------------------------------------------------------------- completion

  /**
   A run is COMPLETED only with every chapter marked and really accepted, and
   with both snapshot columns naming a complete snapshot that was analysed last
   and passed; and it stays so. The snapshot holds for every chapter the version that
   was its accepted one when the snapshot was built, in state `b` before the completion.
   */
  lemma CompletionIsSound(t: seq<Sys>, i: nat, k: nat) returns (b: nat)
    requires IsRun(t) && i <= k < |t| && t[i].db.run.status.Completed?
    ensures var d := t[k].db;
      && d.run.status.Completed?
      && AllAccepted(d.run.total, d.run.chapters) && HasEveryVersion(d)
      && d.run.snapshot.Some? && d.run.best == d.run.snapshot
      && d.run.snapshot.value in d.snapshots
      && (forall c :: c in d.snapshots[d.run.snapshot.value] <==> InBook(d, c))
      && b < i && t[b].pc.Review? && VersionsOf(d.snapshots[d.run.snapshot.value], t[b].db)
      && LastAnalysis(d.evaluations, d.run.snapshot.value, true)
      && d.run.progress == 100
  {
    hide Inv, Initial, Step, VersionsOf, LastAnalysis;
    RunGrows(t, i, k);
    RunKeeps(t, k);
    InvRows(t[k]);
    CompletionFacts(t[k].db);
    b := SnapshotsWereAccepted(t, k, t[k].db.run.snapshot.value);
    RunKeeps(t, b);
    StatusFacts(t[b]);
    if i <= b { RunGrows(t, i, b); }
  }

  lemma CompletionFacts(d: Db)
    requires DbInv(d) && d.run.status.Completed?
    ensures AllAccepted(d.run.total, d.run.chapters) && HasEveryVersion(d)
    ensures d.run.snapshot.Some? && d.run.best == d.run.snapshot && d.run.snapshot.value in d.snapshots
    ensures forall c :: c in d.snapshots[d.run.snapshot.value] <==> InBook(d, c)
    ensures LastAnalysis(d.evaluations, d.run.snapshot.value, true) && d.run.progress == 100
  {
    hide JobInv, IndexInv, CountInv, CurrentInv, FlightInv, ReviewInv;
  }

  // ------------------------------------------------------------ the scheduler

  /**
   What the loop does next is settled by the durable row alone: it resumes a
   running chapter with a workflow in flight, and otherwise waits (an error)
   exactly when a chapter runs without one, finishes when all are accepted, asks
   for review when one needs it, and else takes the least chapter not accepted.
   */
  lemma NextChapterExactly(t: seq<Sys>, n: nat)
    requires IsRun(t) && n < |t| && t[n].pc.Synced?
    ensures var r, next := t[n].db.run, Chosen(t[n]);
      && (next.Picked? <==> r.workflow.Some? && AnyIn(r.chapters, Running))
      && (next.Picked? ==> r.current == Some(next.chapter) && StateIs(r.chapters, next.chapter, Running))
      && (!next.Picked? && r.status.CancelRequested? ==> next == Stopping(CancelAccepted))
      && (!next.Picked? && !r.status.CancelRequested? ==>
            && (next == Stopping(ExecutionError) <==> r.workflow.None? && AnyIn(r.chapters, Running))
            && (next.Generated? <==> AllAccepted(r.total, r.chapters))
            && (next.FinishingReview? <==> !AnyIn(r.chapters, Running) && AnyIn(r.chapters, NeedsReview))
            && (next.Gate? <==> NoneIn(r.chapters, Running) && NoneIn(r.chapters, NeedsReview)
                                && !AllAccepted(r.total, r.chapters)))
      && (next.Gate? ==>
            && StateIs(r.chapters, next.chapter, Planned)
            && forall c | 1 <= c < next.chapter :: StateIs(r.chapters, c, Accepted))
  {
    RunKeeps(t, n);
    NextChapter(t[n]);
  }

  lemma NextChapter(s: Sys)
    requires Inv(s) && s.pc.Synced?
    ensures var r, next := s.db.run, Chosen(s);
      && (next.Picked? <==> r.workflow.Some? && AnyIn(r.chapters, Running))
      && (next.Picked? ==> r.current == Some(next.chapter) && StateIs(r.chapters, next.chapter, Running))
      && (!next.Picked? && r.status.CancelRequested? ==> next == Stopping(CancelAccepted))
      && (!next.Picked? && !r.status.CancelRequested? ==>
            && (next == Stopping(ExecutionError) <==> r.workflow.None? && AnyIn(r.chapters, Running))
            && (next.Generated? <==> AllAccepted(r.total, r.chapters))
            && (next.FinishingReview? <==> !AnyIn(r.chapters, Running) && AnyIn(r.chapters, NeedsReview))
            && (next.Gate? <==> NoneIn(r.chapters, Running) && NoneIn(r.chapters, NeedsReview)
                                && !AllAccepted(r.total, r.chapters)))
      && (next.Gate? ==>
            && StateIs(r.chapters, next.chapter, Planned)
            && forall c | 1 <= c < next.chapter :: StateIs(r.chapters, c, Accepted))
  {
    hide JobInv, IndexInv, CountInv, TaskInv, CheckInv, SnapshotInv, CompletionInv, ReviewInv;
    CandidateFound(s.db.run.total, s.db.run.chapters, 1);
    var r := s.db.run;
    assert MapInv(r) && CurrentInv(r.chapters, r.current);
    if AnyIn(r.chapters, Running) {
      var c :| c in r.chapters && r.chapters[c] == Running;
      assert r.current == Some(c);
    }
  }
}
