/** Every action keeps the invariant: one lemma for each kind of transaction. */
module BookPreservation {
  import opened Options
  import opened BookModel
  import opened BookMachine
  import opened BookInvariant

  lemma InitialKeeps(s: Sys)
    requires Initial(s)
    ensures Inv(s)
  {
    var d := s.db;
    assert AcceptedSet(d.run.chapters) == {};
    assert DoneSet(d.run.chapters) == {};
    forall c ensures Children(d.jobs, d.top, c) == {} {}
  }

  // ------------------------------------------------ steps that touch the run row

  /** A status change that does not complete the run. */
  lemma StatusKeeps(d: Db, st: RunStatus, p: nat)
    requires DbInv(d) && ProgressInv(st, p) && !st.Completed?
    requires st.GlobalReview? || st.GlobalRevision? ==>
               || d.run.status.GlobalReview? || d.run.status.GlobalRevision?
               || d.run.completed == d.run.total || AllAccepted(d.run.total, d.run.chapters)
    ensures DbInv(d.(run := d.run.(status := st, progress := p)))
  {
    hide JobInv, IndexInv, CountInv, SnapshotInv, FlightInv;
    DoneAtMostTotal(d.run.total, d.run.chapters);
  }

  lemma WithStatusKeeps(d: Db, st: RunStatus)
    requires DbInv(d) && ProgressInv(st, d.run.progress) && !st.Completed?
    requires st.GlobalReview? || st.GlobalRevision? ==>
               || d.run.status.GlobalReview? || d.run.status.GlobalRevision?
               || d.run.completed == d.run.total || AllAccepted(d.run.total, d.run.chapters)
    ensures DbInv(WithStatus(d, st))
  {
    hide DbInv;
    StatusKeeps(d, st, d.run.progress);
    assert WithStatus(d, st) == d.(run := d.run.(status := st, progress := d.run.progress));
  }

  lemma StatusFacts(s: Sys)
    requires Inv(s)
    ensures StatusInv(s.db.run.status, s.pc) && ProgressInv(s.db.run.status, s.db.run.progress)
  {
    hide PlaceInv, HandInv, JobInv, IndexInv, CountInv, TaskInv, CheckInv, SnapshotInv, CurrentInv, FlightInv;
  }

  /** A request or a handler gives the run a status outside the review. */
  lemma NewStatusKeeps(s: Sys, st: RunStatus)
    requires Inv(s) && ProgressInv(st, s.db.run.progress) && StatusInv(st, s.pc)
    requires !st.Completed? && !st.GlobalReview? && !st.GlobalRevision?
    ensures Inv(s.(db := WithStatus(s.db, st)))
  {
    hide DbInv, PlaceInv, HandInv, CheckInv, TaskInv, StatusInv;
    WithStatusKeeps(s.db, st);
  }

  /** Going idle, or stopping, forgets nothing durable. */
  lemma LeavingKeeps(s: Sys, pc: Pc)
    requires Inv(s) && (pc.Idle? || pc.Stopping?)
    ensures Inv(s.(pc := pc))
  {
    hide DbInv;
  }

  lemma InitializeKeeps(s: Sys, t: Sys)
    requires Inv(s) && Fire(s, Initialize) == Some(t)
    ensures Inv(t)
  {
    hide DbInv;
    StatusFacts(s);
    if t.pc.Top? { WithStatusKeeps(s.db, t.db.run.status); }
  }

  lemma SyncRows(d: Db)
    requires DbInv(d) && Working(d.run.status)
    ensures d.run.total > 0 && DbInv(Sync(d))
    ensures forall due ::
      CheckInv(d.run.checks, d.run.chapters, due) ==> CheckInv(d.run.checks, Sync(d).run.chapters, due)
  {
    hide JobInv, IndexInv, SnapshotInv;
    ProgressBound(d.run.total, SyncedMap(d.run.chapters, d.accepted));
  }

  lemma SyncKeeps(s: Sys, t: Sys)
    requires Inv(s) && Fire(s, SyncAccepted) == Some(t)
    ensures Inv(t)
  {
    hide DbInv, TaskInv;
    SyncRows(s.db);
  }

  /** With nothing running and nothing under review, the first open chapter is schedulable. */
  lemma CandidateFound(total: nat, m: map<nat, ChapterState>, c: nat)
    requires 1 <= c <= total + 1
    requires forall k | 1 <= k < c :: k in m && m[k] == Accepted
    ensures match FirstCandidate(total, m, c)
            case None => AllAccepted(total, m)
            case Some(k) => c <= k <= total && !(k in m && m[k] == Accepted)
                            && forall j | 1 <= j < k :: j in m && m[j] == Accepted
    decreases total + 1 - c
  {
    if c <= total && c in m && m[c] == Accepted { CandidateFound(total, m, c + 1); }
  }

  lemma ChooseKeeps(s: Sys, t: Sys)
    requires Inv(s) && Fire(s, Choose) == Some(t)
    ensures Inv(t)
  {
    hide JobInv, IndexInv, CountInv, TaskInv, CheckInv, SnapshotInv;
    CandidateFound(s.db.run.total, s.db.run.chapters, 1);
  }

  lemma GateKeeps(s: Sys, t: Sys)
    requires Inv(s) && Fire(s, PassGate) == Some(t)
    ensures Inv(t)
  {
    hide DbInv, NoneIn;
    StatusFacts(s);
    if t.pc.Stopping? && t.db != s.db { WithStatusKeeps(s.db, BudgetBlocked); }
  }

  lemma MarkRows(d: Db, c: nat)
    requires DbInv(d) && Working(d.run.status)
    requires || (StateIs(d.run.chapters, c, Planned) && NoneIn(d.run.chapters, Running))
             || (StateIs(d.run.chapters, c, Running) && d.run.current == Some(c))
    ensures DbInv(MarkRunning(d, c))
    ensures forall due ::
      CheckInv(d.run.checks, d.run.chapters, due) ==> CheckInv(d.run.checks, MarkRunning(d, c).run.chapters, due)
  {
    hide JobInv, IndexInv, SnapshotInv;
    assert AcceptedSet(MarkRunning(d, c).run.chapters) == AcceptedSet(d.run.chapters);
    assert DoneSet(MarkRunning(d, c).run.chapters) == DoneSet(d.run.chapters);
  }

  lemma MarkKeeps(s: Sys, t: Sys)
    requires Inv(s) && Fire(s, MarkChapter) == Some(t)
    ensures Inv(t)
  {
    hide DbInv, TaskInv;
    MarkRows(s.db, s.pc.chapter);
  }

  // --------------------------------------------------- steps on jobs and workflows

  /** Giving the top job another workflow id leaves every child job as it is. */
  lemma TopJobOnly(jobs: map<nat, Job>, top: nat, w: Option<nat>)
    requires top in jobs && jobs[top].parent.None?
    ensures var n := SetJobWorkflow(jobs, top, w);
      && (forall k :: Children(n, top, k) == Children(jobs, top, k))
      && ChildWorkflows(n, top) == ChildWorkflows(jobs, top)
  {
    var n := SetJobWorkflow(jobs, top, w);
    forall k ensures Children(n, top, k) == Children(jobs, top, k) {}
    forall x ensures x in ChildWorkflows(n, top) <==> x in ChildWorkflows(jobs, top) {
      if x in ChildWorkflows(jobs, top) {
        var j :| j in jobs && IsChild(jobs[j], top) && jobs[j].workflow == Some(x);
        assert n[j] == jobs[j];
      }
    }
  }

  lemma TopJobIndexes(d: Db, w: Option<nat>)
    requires d.top in d.jobs && d.jobs[d.top].parent.None?
    requires IndexInv(d.jobs, d.top, d.keys, d.successes, d.run.jobMap)
    ensures IndexInv(SetJobWorkflow(d.jobs, d.top, w), d.top, d.keys, d.successes, d.run.jobMap)
  {
    assert forall k | k in d.keys :: ChildFor(d.jobs, d.top, d.keys[k], k);
    assert forall k | k in d.run.jobMap :: ChildOf(d.jobs, d.top, d.run.jobMap[k], k);
  }

  /** The top job may take an id that no job carries. */
  lemma TopJobUnique(jobs: map<nat, Job>, top: nat, ids: set<nat>, was: Option<nat>, w: Option<nat>)
    requires JobInv(jobs, top, ids, was)
    requires w.Some? ==> w.value !in ids
    ensures JobInv(SetJobWorkflow(jobs, top, w), top, ids + (if w.Some? then {w.value} else {}), w)
  {}

  lemma LinkKeeps(d: Db, c: nat, w: nat)
    requires DbInv(d) && c in d.run.chapters && w !in d.workflows
    requires || (d.run.current == Some(c) && StateIs(d.run.chapters, c, Running))
             || AllAccepted(d.run.total, d.run.chapters)
    ensures DbInv(Link(d, c, w))
    ensures forall tasks :: TaskInv(d.jobs, d.top, d.run.round, tasks)
                         ==> TaskInv(Link(d, c, w).jobs, d.top, d.run.round, tasks)
  {
    hide IndexInv, SnapshotInv, UniqueWorkflows;
    TopJobOnly(d.jobs, d.top, Some(w));
    TopJobIndexes(d, Some(w));
    TopJobUnique(d.jobs, d.top, d.workflows.Keys, d.run.workflow, Some(w));
    assert Link(d, c, w).workflows.Keys == d.workflows.Keys + {w};
  }

  lemma WorkflowStatusKeeps(d: Db, w: nat, st: WorkflowStatus)
    requires w in d.workflows && DbInv(d)
    ensures DbInv(WithWorkflowStatus(d, w, st))
  {
    hide JobInv, IndexInv, CountInv, SnapshotInv, CurrentInv, MapInv, CompletionInv, ReviewInv;
    assert WithWorkflowStatus(d, w, st).workflows.Keys == d.workflows.Keys;
  }

  lemma AcceptKeeps(d: Db, w: nat, v: nat)
    requires w in d.workflows && DbInv(d)
    ensures DbInv(AcceptVersion(d, w, v))
  {
    hide JobInv, IndexInv, CountInv, CurrentInv, MapInv, CompletionInv, ReviewInv;
    WorkflowStatusKeeps(d, w, WorkflowCompleted);
  }

  lemma AttachKeeps(s: Sys, id: nat, t: Sys)
    requires Inv(s) && Fire(s, Attach(id)) == Some(t)
    ensures Inv(t)
  {
    hide JobInv, IndexInv, CountInv, SnapshotInv, CheckInv, MapInv, CompletionInv, ReviewInv;
    var d, c := s.db, s.pc.chapter;
    if CurrentWorkflow(d.run, c).None? {
      LinkKeeps(d, c, id);
    } else if t.pc.Flight? {
      WorkflowStatusKeeps(d, d.run.workflow.value, WorkflowRunning);
    }
  }

  lemma StartTaskKeeps(s: Sys, id: nat, t: Sys)
    requires Inv(s) && Fire(s, StartTask(id)) == Some(t)
    ensures Inv(t)
  {
    hide JobInv, IndexInv, CountInv, SnapshotInv, CheckInv, CompletionInv, ReviewInv, TaskInv;
    LinkKeeps(s.db, s.pc.rest[0], id);
    assert OpenTasks(t.pc) == OpenTasks(s.pc);
  }

  // --------------------------------------------------------- recording a chapter

  /** The in-flight id has no child job, so the key of the new one is free. */
  lemma KeyIsFree(d: Db, c: nat, w: nat)
    requires JobInv(d.jobs, d.top, d.workflows.Keys, Some(w))
    requires IndexInv(d.jobs, d.top, d.keys, d.successes, d.run.jobMap)
    ensures ChildKey(c, w) !in d.keys
    ensures w !in ChildWorkflows(d.jobs, d.top)
  {
    forall k | k in d.keys ensures k.workflow != w {
      assert ChildFor(d.jobs, d.top, d.keys[k], k);
    }
  }

  lemma TopJobReleases(jobs: map<nat, Job>, top: nat, ids: set<nat>, w: nat)
    requires JobInv(jobs, top, ids, Some(w))
    ensures JobInv(SetJobWorkflow(jobs, top, None), top, ids, None)
    ensures forall j | j in SetJobWorkflow(jobs, top, None) :: SetJobWorkflow(jobs, top, None)[j].workflow != Some(w)
  {
    TopJobUnique(jobs, top, ids, Some(w), None);
  }

  function NewChild(top: nat, c: nat, w: nat): Job {
    Job(Some(w), true, Some(top), Some(c))
  }

  lemma ChildAdded(jobs: map<nat, Job>, top: nat, j: nat, c: nat, w: nat)
    requires j !in jobs
    ensures var n := jobs[j := NewChild(top, c, w)];
      && (forall k :: Children(n, top, k) == Children(jobs, top, k) + if k == c then {j} else {})
      && ChildWorkflows(n, top) == ChildWorkflows(jobs, top) + {w}
  {
    var n := jobs[j := NewChild(top, c, w)];
    forall k ensures Children(n, top, k) == Children(jobs, top, k) + if k == c then {j} else {} {}
    forall x ensures x in ChildWorkflows(n, top) <==> x in ChildWorkflows(jobs, top) + {w} {
      if x == w { assert IsChild(n[j], top) && n[j].workflow == Some(w); }
      if x in ChildWorkflows(jobs, top) {
        var i :| i in jobs && IsChild(jobs[i], top) && jobs[i].workflow == Some(x);
        assert n[i] == jobs[i];
      }
    }
  }

  lemma ChildAddedJobs(jobs: map<nat, Job>, top: nat, ids: set<nat>, j: nat, c: nat, w: nat)
    requires JobInv(jobs, top, ids, None) && j !in jobs && w in ids
    requires forall i | i in jobs :: jobs[i].workflow != Some(w)
    ensures JobInv(jobs[j := NewChild(top, c, w)], top, ids, None)
  {}

  lemma ChildAddedIndexes(d: Db, jobs: map<nat, Job>, c: nat, w: nat, j: nat)
    requires j !in jobs
    requires IndexInv(jobs, d.top, d.keys, d.successes, d.run.jobMap)
    ensures IndexInv(jobs[j := NewChild(d.top, c, w)], d.top, d.keys[ChildKey(c, w) := j],
                     d.successes[j := d.successes[j] + 1], d.run.jobMap[c := j])
  {
    var n := jobs[j := NewChild(d.top, c, w)];
    assert j !in d.successes;
    forall k | k in d.keys && k != ChildKey(c, w) ensures ChildFor(n, d.top, d.keys[k], k) {
      assert ChildFor(jobs, d.top, d.keys[k], k);
    }
    forall k | k in d.run.jobMap && k != c ensures ChildOf(n, d.top, d.run.jobMap[k], k) {
      assert ChildOf(jobs, d.top, d.run.jobMap[k], k);
    }
  }

  /** What recording does to the job tables when an id is in flight. */
  lemma RecordJobs(d: Db, c: nat, w: nat, st: WorkflowStatus, j: nat)
    requires JobInv(d.jobs, d.top, d.workflows.Keys, Some(w)) && w in d.workflows
    requires IndexInv(d.jobs, d.top, d.keys, d.successes, d.run.jobMap)
    requires j !in d.jobs && d.run.total > 0
    ensures var n := Record(d, c, w, st, j);
      && JobInv(n.jobs, n.top, n.workflows.Keys, None)
      && IndexInv(n.jobs, n.top, n.keys, n.successes, n.run.jobMap)
      && (forall k :: Children(n.jobs, n.top, k) == Children(d.jobs, d.top, k) + if k == c then {j} else {})
      && ChildWorkflows(n.jobs, n.top) == ChildWorkflows(d.jobs, d.top) + {w}
      && n.run.jobMap[c] == j
  {
    var released := SetJobWorkflow(d.jobs, d.top, None);
    KeyIsFree(d, c, w);
    TopJobOnly(d.jobs, d.top, None);
    TopJobIndexes(d, None);
    TopJobReleases(d.jobs, d.top, d.workflows.Keys, w);
    ChildAdded(released, d.top, j, c, w);
    ChildAddedJobs(released, d.top, d.workflows.Keys, j, c, w);
    ChildAddedIndexes(d, released, c, w, j);
  }

  /** What recording does to the run row: chapter `c` leaves Running, or stays accepted. */
  lemma RecordRow(d: Db, c: nat, w: nat, st: WorkflowStatus, j: nat)
    requires MapInv(d.run) && CurrentInv(d.run.chapters, d.run.current) && ReviewInv(d.run.status, d.run.chapters)
    requires Working(d.run.status)
    requires || StateIs(d.run.chapters, c, Running)
             || (AllAccepted(d.run.total, d.run.chapters) && c in d.run.chapters && st.WorkflowCompleted?)
    ensures var n := Record(d, c, w, st, j).run;
      && MapInv(n) && CurrentInv(n.chapters, n.current) && ReviewInv(n.status, n.chapters)
      && (AllAccepted(d.run.total, d.run.chapters) ==> AllAccepted(n.total, n.chapters))
  {
    ProgressBound(d.run.total, d.run.chapters[c := Recorded(st)]);
  }

  lemma RecordCounts(d: Db, c: nat, w: nat, st: WorkflowStatus, j: nat, tasks: seq<nat>)
    requires d.run.total > 0
    requires CountInv(d.jobs, d.top, d.run.chapters, d.run.round) && TaskInv(d.jobs, d.top, d.run.round, tasks)
    requires StateIs(d.run.chapters, c, Running) || (|tasks| > 0 && tasks[0] == c)
    requires forall k :: Children(Record(d, c, w, st, j).jobs, d.top, k)
                      == Children(d.jobs, d.top, k) + if k == c then {j} else {}
    ensures var n := Record(d, c, w, st, j);
      && CountInv(n.jobs, n.top, n.run.chapters, n.run.round)
      && (|tasks| > 0 && tasks[0] == c ==> TaskInv(n.jobs, n.top, n.run.round, tasks[1..]))
  {
    var n := Record(d, c, w, st, j);
    ChildCounts(d.jobs, n.jobs, d.top, d.run.chapters, c, Recorded(st), j, d.run.round, tasks);
    if |tasks| > 0 && tasks[0] == c { TaskCounts(d.jobs, n.jobs, d.top, c, j, d.run.round, tasks); }
  }

  /** Job map `n` has one more child `j`, of chapter `c`. */
  ghost predicate OneMoreChild(jobs: map<nat, Job>, n: map<nat, Job>, top: nat, c: nat, j: nat) {
    forall k :: Children(n, top, k) == Children(jobs, top, k) + if k == c then {j} else {}
  }

  lemma ChildCounts(jobs: map<nat, Job>, n: map<nat, Job>, top: nat, m: map<nat, ChapterState>, c: nat,
                    end: ChapterState, j: nat, round: nat, tasks: seq<nat>)
    requires CountInv(jobs, top, m, round) && TaskInv(jobs, top, round, tasks) && OneMoreChild(jobs, n, top, c, j)
    requires StateIs(m, c, Running) || (|tasks| > 0 && tasks[0] == c)
    requires end == Accepted || end == NeedsReview
    ensures CountInv(n, top, m[c := end], round)
  {
    assert |tasks| > 0 ==> tasks[0] in tasks;
    forall k ensures |Children(n, top, k)| <= 1 + round {}
  }

  lemma TaskCounts(jobs: map<nat, Job>, n: map<nat, Job>, top: nat, c: nat, j: nat, round: nat, tasks: seq<nat>)
    requires TaskInv(jobs, top, round, tasks) && OneMoreChild(jobs, n, top, c, j) && |tasks| > 0 && tasks[0] == c
    ensures TaskInv(n, top, round, tasks[1..])
  {
    forall k | k in tasks[1..] ensures |Children(n, top, k)| <= round {
      var i :| 0 <= i < |tasks[1..]| && tasks[1..][i] == k;
      assert tasks[i + 1] == k && k in tasks;
    }
  }

  lemma EndedFacts(s: Sys)
    requires Inv(s) && Recordable(s.pc)
    ensures var d, r := s.db, s.db.run;
      && r.workflow == Some(s.pc.workflow) && s.pc.workflow in d.workflows
      && Working(r.status)
      && (s.pc.mode.Generation? ==> StateIs(r.chapters, s.pc.chapter, Running))
      && (s.pc.mode.Revision? ==>
            AllAccepted(r.total, r.chapters) && s.pc.chapter in r.chapters && s.pc.status.WorkflowCompleted?)
  {
    hide DbInv, CheckInv, TaskInv, StateIs, AllAccepted;
  }

  lemma RecordPlaces(s: Sys, j: nat, t: Sys)
    requires Inv(s) && Fire(s, RecordChapter(j)) == Some(t)
    requires s.pc.workflow in ChildWorkflows(t.db.jobs, t.db.top)
    requires s.pc.mode.Revision? ==> AllAccepted(t.db.run.total, t.db.run.chapters)
    ensures PlaceInv(t.db.run.chapters, t.db.run.total, t.db.run.current, t.db.run.workflow, t.pc)
    ensures HandInv(t.db.workflows, t.db.jobs, t.db.top, t.db.snapshots, t.db.evaluations, t.pc)
    ensures CheckInv(t.db.run.checks, t.db.run.chapters, CheckDue(t.pc))
    ensures StatusInv(t.db.run.status, t.pc)
    ensures CompletionInv(t.db.run, t.db.snapshots, t.db.evaluations)
  {
    hide JobInv, IndexInv, SnapshotInv, CountInv, TaskInv, MapInv, CurrentInv, FlightInv, ReviewInv;
    EndedFacts(s);
  }

  lemma RecordRows(d: Db, c: nat, w: nat, st: WorkflowStatus, j: nat, tasks: seq<nat>)
    requires DbInv(d) && Working(d.run.status) && d.run.workflow == Some(w) && w in d.workflows && j !in d.jobs
    requires || StateIs(d.run.chapters, c, Running)
             || (AllAccepted(d.run.total, d.run.chapters) && c in d.run.chapters && st.WorkflowCompleted?
                 && |tasks| > 0 && tasks[0] == c)
    requires TaskInv(d.jobs, d.top, d.run.round, tasks)
    ensures var n := Record(d, c, w, st, j);
      && DbInv(n) && w in ChildWorkflows(n.jobs, n.top)
      && (AllAccepted(d.run.total, d.run.chapters) ==> AllAccepted(n.run.total, n.run.chapters))
      && (|tasks| > 0 && tasks[0] == c ==> TaskInv(n.jobs, n.top, n.run.round, tasks[1..]))
  {
    hide JobInv, IndexInv, SnapshotInv, CountInv, TaskInv, MapInv, CurrentInv, FlightInv, ReviewInv, StateIs,
         AllAccepted;
    PositiveTotal(d);
    RecordJobs(d, c, w, st, j);
    RecordRow(d, c, w, st, j);
    RecordCounts(d, c, w, st, j, tasks);
    NoFlight(Record(d, c, w, st, j));
  }

  lemma PositiveTotal(d: Db)
    requires DbInv(d)
    ensures d.run.total > 0
  {}

  lemma RecordKeeps(s: Sys, j: nat, t: Sys)
    requires Inv(s) && Fire(s, RecordChapter(j)) == Some(t)
    ensures Inv(t)
  {
    hide DbInv, TaskInv, CheckInv, PlaceInv, HandInv, StatusInv, CompletionInv;
    EndedFacts(s);
    RecordRows(s.db, s.pc.chapter, s.pc.workflow, s.pc.status, j, OpenTasks(s.pc));
    RecordPlaces(s, j, t);
    if s.pc.mode.Revision? {
      assert OpenTasks(t.pc) == OpenTasks(s.pc)[1..];
    } else {
      NoTasks(t.db);
    }
  }

  lemma NoTasks(d: Db)
    ensures TaskInv(d.jobs, d.top, d.run.round, [])
  {}

  lemma NoFlight(d: Db)
    requires d.run.workflow.None?
    ensures FlightInv(d.run.chapters, d.run.total, d.run.current, d.run.workflow, d.workflows)
  {}

  lemma UsageRows(d: Db, u: Usage)
    requires DbInv(d)
    ensures DbInv(d.(run := d.run.(usage := u)))
  {
    hide JobInv, IndexInv, CountInv, SnapshotInv, FlightInv, CurrentInv;
  }

  lemma SettleKeeps(s: Sys, t: Sys)
    requires Inv(s) && Fire(s, SettleUsage) == Some(t)
    ensures Inv(t)
  {
    hide DbInv, TaskInv, CheckInv;
    UsageRows(s.db, t.db.run.usage);
  }

  lemma AfterKeeps(s: Sys, t: Sys)
    requires Inv(s) && Fire(s, AfterChapter) == Some(t)
    ensures Inv(t)
  {
    hide DbInv, CountInv, SnapshotInv;
  }

  lemma CheckRows(d: Db, c: nat)
    requires DbInv(d)
    ensures DbInv(d.(run := d.run.(checks := d.run.checks + [c])))
  {
    hide JobInv, IndexInv, CountInv, SnapshotInv, FlightInv, CurrentInv;
  }

  lemma CheckKeeps(s: Sys, critical: bool, t: Sys)
    requires Inv(s) && Fire(s, CheckPeriodically(critical)) == Some(t)
    ensures Inv(t)
  {
    hide DbInv, TaskInv;
    CheckRows(s.db, s.pc.chapter);
    if critical && t.pc.Stopping? && t.pc.reason.PauseRequested? {
      StatusFacts(s);
      WithStatusKeeps(s.db.(run := s.db.run.(checks := s.db.run.checks + [s.pc.chapter])), Paused);
    }
  }

  lemma FinishReviewKeeps(s: Sys, t: Sys)
    requires Inv(s) && Fire(s, FinishReview) == Some(t)
    ensures Inv(t)
  {
    hide DbInv, AllAccepted;
    if t.pc.Returned? { StatusKeeps(s.db, CompletedNeedsReview, 100); }
  }

  // ------------------------------------------------------------- global review

  lemma ReviewBookKeeps(s: Sys, t: Sys)
    requires Inv(s) && Fire(s, ReviewBook) == Some(t)
    ensures Inv(t)
  {
    hide DbInv;
    StatusKeeps(s.db, t.db.run.status, 80);
  }

  lemma SnapshotRows(d: Db, sid: nat)
    requires DbInv(d) && HasEveryVersion(d) && Working(d.run.status)
    ensures DbInv(TakeSnapshot(d, sid))
  {
    hide JobInv, IndexInv, CountInv, FlightInv, CurrentInv;
  }

  lemma BuildSnapshotKeeps(s: Sys, sid: nat, t: Sys)
    requires Inv(s) && Fire(s, BuildSnapshot(sid)) == Some(t)
    ensures Inv(t)
  {
    hide DbInv, TaskInv, CheckInv;
    if t.pc.Snapped? { SnapshotRows(s.db, sid); }
  }

  lemma AnalyseKeeps(s: Sys, passed: bool, targeted: bool, t: Sys)
    requires Inv(s) && Fire(s, AnalyseBook(passed, targeted)) == Some(t)
    ensures Inv(t)
  {
    hide JobInv, IndexInv, CountInv, TaskInv, CheckInv, SnapshotInv, CurrentInv, FlightInv;
  }

  lemma CompleteRows(d: Db, sid: nat)
    requires DbInv(d) && sid in d.snapshots && LastAnalysis(d.evaluations, sid, true)
    requires AllAccepted(d.run.total, d.run.chapters)
    ensures FinishCompleted(d, sid).Some? ==> DbInv(FinishCompleted(d, sid).value)
  {
    hide JobInv, IndexInv, CountInv, SnapshotInv, FlightInv, CurrentInv;
  }

  lemma CompleteKeeps(s: Sys, t: Sys)
    requires Inv(s) && Fire(s, CompleteBook) == Some(t)
    ensures Inv(t)
  {
    hide DbInv, TaskInv, CheckInv;
    if t.pc.Returned? { CompleteRows(s.db, s.pc.snapshot); }
  }

  lemma RoundKeeps(d: Db, tasks: seq<nat>)
    requires DbInv(d) && d.run.round < d.run.maxRounds && Distinct(tasks)
    ensures DbInv(d.(run := d.run.(round := d.run.round + 1)))
    ensures TaskInv(d.jobs, d.top, d.run.round + 1, tasks)
  {
    hide JobInv, IndexInv, SnapshotInv, FlightInv, CurrentInv, ReviewInv;
  }

  lemma DecideKeeps(s: Sys, tasks: seq<nat>, t: Sys)
    requires Inv(s) && Fire(s, DecideRevision(tasks)) == Some(t)
    ensures Inv(t)
  {
    hide DbInv;
    if t.pc.Returned? {
      StatusKeeps(s.db, CompletedNeedsReview, 100);
    } else if t.pc.Revising? {
      StatusFacts(s);
      WithStatusKeeps(s.db, GlobalRevision);
      RoundKeeps(WithStatus(s.db, GlobalRevision), tasks);
    }
  }

  lemma EndRevisionKeeps(s: Sys, t: Sys)
    requires Inv(s) && Fire(s, EndRevision) == Some(t)
    ensures Inv(t)
  {
    hide DbInv;
    StatusFacts(s);
    if t.pc.Review? { WithStatusKeeps(s.db, GlobalReview); }
  }

  // ------------------------------------------- workflow service, worker, outside

  lemma WorkflowStepKeeps(s: Sys, a: Action, t: Sys)
    requires a.ProviderCall? || a.Accept? || a.Settle?
    requires Inv(s) && Fire(s, a) == Some(t)
    ensures Inv(t)
  {
    hide JobInv, IndexInv, CountInv, CheckInv, SnapshotInv, CurrentInv, FlightInv, MapInv, CompletionInv, ReviewInv;
    match a
    case Accept(v) => AcceptKeeps(s.db, s.pc.workflow, v);
    case Settle(end) => WorkflowStatusKeeps(s.db, s.pc.workflow, end);
    case ProviderCall(_, _, _) =>
  }

  lemma HandleKeeps(s: Sys, t: Sys)
    requires Inv(s) && Fire(s, Handle) == Some(t)
    ensures Inv(t)
  {
    hide Inv;
    StatusFacts(s);
    LeavingKeeps(s, Idle);
    if t.db.run.status != s.db.run.status {
      NewStatusKeeps(s.(pc := Idle), t.db.run.status);
    } else {
      assert t == s.(pc := Idle);
    }
  }

  lemma CapsKeep(d: Db, caps: Usage)
    requires DbInv(d)
    ensures DbInv(d.(run := d.run.(caps := caps)))
  {
    hide JobInv, IndexInv, CountInv, SnapshotInv, FlightInv, CurrentInv;
  }

  lemma ResumeKeeps(s: Sys, target: RunStatus, caps: Usage, t: Sys)
    requires Inv(s) && Fire(s, Resume(target, caps)) == Some(t)
    ensures Inv(t)
  {
    hide DbInv, PlaceInv, HandInv;
    StatusFacts(s);
    CapsKeep(s.db, caps);
    WithStatusKeeps(s.db.(run := s.db.run.(caps := caps)), target);
  }

  lemma RequestKeeps(s: Sys, a: Action, t: Sys)
    requires a.RequestCancel? || a.PauseIdle?
    requires Inv(s) && Fire(s, a) == Some(t)
    ensures Inv(t)
  {
    hide Inv;
    StatusFacts(s);
    if t.db.run.status != s.db.run.status {
      NewStatusKeeps(s, t.db.run.status);
    } else {
      assert t == s;
    }
  }

  lemma OutsideRows(s: Sys, a: Action, t: Sys)
    requires a.OutsideWorkflow? || a.OutsideCall? || a.OutsideAcceptance?
    requires DbInv(s.db) && Environment(s, a) == Some(t)
    ensures DbInv(t.db)
    ensures forall tasks ::
      TaskInv(s.db.jobs, s.db.top, s.db.run.round, tasks) ==> TaskInv(t.db.jobs, t.db.top, t.db.run.round, tasks)
    ensures ChildWorkflows(s.db.jobs, s.db.top) == ChildWorkflows(t.db.jobs, t.db.top)
  {
    hide MapInv, CompletionInv, ReviewInv, CurrentInv, IndexInv, JobInv;
    match a
    case OutsideWorkflow(id, c, j) =>
      OutsideJobs(s.db.jobs, s.db.top, s.db.workflows.Keys, s.db.run.workflow, id, c, j);
      OutsideJob(s.db.jobs, s.db.top, Job(Some(id), false, None, Some(c)), j);
      OutsideIndexes(s.db, Job(Some(id), false, None, Some(c)), j);
      assert t.db.workflows.Keys == s.db.workflows.Keys + {id};
      SameCounts(s.db.jobs, t.db.jobs, s.db.top, s.db.run.chapters, s.db.run.round);
    case _ =>
  }

  lemma SameCounts(jobs: map<nat, Job>, n: map<nat, Job>, top: nat, m: map<nat, ChapterState>, round: nat)
    requires CountInv(jobs, top, m, round)
    requires forall k :: Children(n, top, k) == Children(jobs, top, k)
    ensures CountInv(n, top, m, round)
    ensures forall tasks :: TaskInv(jobs, top, round, tasks) ==> TaskInv(n, top, round, tasks)
  {
    forall k ensures |Children(n, top, k)| <= 1 + round {
      assert Children(n, top, k) == Children(jobs, top, k);
    }
  }

  lemma OutsideJobs(jobs: map<nat, Job>, top: nat, ids: set<nat>, w: Option<nat>, id: nat, c: nat, j: nat)
    requires JobInv(jobs, top, ids, w) && id !in ids && j !in jobs
    ensures JobInv(jobs[j := Job(Some(id), false, None, Some(c))], top, ids + {id}, w)
  {}

  lemma OutsideJob(jobs: map<nat, Job>, top: nat, job: Job, j: nat)
    requires j !in jobs && !IsChild(job, top)
    ensures forall k :: Children(jobs[j := job], top, k) == Children(jobs, top, k)
    ensures ChildWorkflows(jobs[j := job], top) == ChildWorkflows(jobs, top)
  {
    var n := jobs[j := job];
    forall k ensures Children(n, top, k) == Children(jobs, top, k) {}
    forall x ensures x in ChildWorkflows(n, top) <==> x in ChildWorkflows(jobs, top) {
      if x in ChildWorkflows(jobs, top) {
        var i :| i in jobs && IsChild(jobs[i], top) && jobs[i].workflow == Some(x);
        assert n[i] == jobs[i];
      }
    }
  }

  lemma OutsideIndexes(d: Db, job: Job, j: nat)
    requires IndexInv(d.jobs, d.top, d.keys, d.successes, d.run.jobMap) && j !in d.jobs && !IsChild(job, d.top)
    ensures IndexInv(d.jobs[j := job], d.top, d.keys, d.successes, d.run.jobMap)
  {
    assert forall k | k in d.keys :: ChildFor(d.jobs, d.top, d.keys[k], k);
    assert forall k | k in d.run.jobMap :: ChildOf(d.jobs, d.top, d.run.jobMap[k], k);
  }

  lemma OutsideKeeps(s: Sys, a: Action, t: Sys)
    requires a.OutsideWorkflow? || a.OutsideCall? || a.OutsideAcceptance?
    requires Inv(s) && Fire(s, a) == Some(t)
    ensures Inv(t)
  {
    hide DbInv, TaskInv, CheckInv, PlaceInv, StatusInv;
    OutsideRows(s, a, t);
  }

  lemma OutsideWorkflowStatusKeeps(s: Sys, a: Action, t: Sys)
    requires a.OutsideStatus? || a.OutsideCompletion? || a.RecoverLease?
    requires Inv(s) && Fire(s, a) == Some(t)
    ensures Inv(t)
  {
    hide DbInv, TaskInv, CheckInv, StatusInv, InMode;
    match a
    case OutsideStatus(id, end) => WorkflowStatusKeeps(s.db, id, end);
    case OutsideCompletion(id, v) => AcceptKeeps(s.db, id, v);
    case RecoverLease => WorkflowStatusKeeps(s.db, s.db.run.workflow.value, WorkflowPaused);
  }

  lemma ConfirmCancelKeeps(s: Sys, t: Sys)
    requires Inv(s) && Fire(s, ConfirmCancel) == Some(t)
    ensures Inv(t)
  {
    hide DbInv, TaskInv, CheckInv, PlaceInv;
    StatusFacts(s);
    WithStatusKeeps(s.db, Cancelled);
    if t.db != WithStatus(s.db, Cancelled) {
      WorkflowStatusKeeps(WithStatus(s.db, Cancelled), s.db.run.workflow.value, WorkflowCancelled);
    }
  }

  // ---------------------------------------------------------------- all actions

  lemma ExecuteKeeps(s: Sys, a: Action, t: Sys)
    requires Inv(s) && Fire(s, a) == Some(t) && Execute(s, a).Some?
    ensures Inv(t)
  {
    hide Inv;
    match a
    case Initialize => InitializeKeeps(s, t);
    case SyncAccepted => SyncKeeps(s, t);
    case Choose => ChooseKeeps(s, t);
    case PassGate => GateKeeps(s, t);
    case MarkChapter => MarkKeeps(s, t);
    case Attach(id) => AttachKeeps(s, id, t);
    case RecordChapter(j) => RecordKeeps(s, j, t);
    case SettleUsage => SettleKeeps(s, t);
    case AfterChapter => AfterKeeps(s, t);
    case CheckPeriodically(critical) => CheckKeeps(s, critical, t);
    case FinishReview => FinishReviewKeeps(s, t);
  }

  lemma ReviewKeeps(s: Sys, a: Action, t: Sys)
    requires Inv(s) && Fire(s, a) == Some(t) && ReviewStep(s, a).Some?
    ensures Inv(t)
  {
    hide Inv;
    match a
    case ReviewBook => ReviewBookKeeps(s, t);
    case BuildSnapshot(sid) => BuildSnapshotKeeps(s, sid, t);
    case AnalyseBook(passed, targeted) => AnalyseKeeps(s, passed, targeted, t);
    case CompleteBook => CompleteKeeps(s, t);
    case DecideRevision(tasks) => DecideKeeps(s, tasks, t);
    case StartTask(id) => StartTaskKeeps(s, id, t);
    case EndRevision => EndRevisionKeeps(s, t);
  }

  lemma ActionKeeps(s: Sys, a: Action, t: Sys)
    requires Inv(s) && Fire(s, a) == Some(t)
    ensures Inv(t)
  {
    hide Inv;
    if Execute(s, a).Some? { ExecuteKeeps(s, a, t); }
    else if ReviewStep(s, a).Some? { ReviewKeeps(s, a, t); }
    else {
      match a
      case ProviderCall(_, _, _) => WorkflowStepKeeps(s, a, t);
      case Accept(_) => WorkflowStepKeeps(s, a, t);
      case Settle(_) => WorkflowStepKeeps(s, a, t);
      case GiveUp => LeavingKeeps(s, t.pc);
      case Raise(reason) => LeavingKeeps(s, Stopping(reason));
      case Handle => HandleKeeps(s, t);
      case Crash => LeavingKeeps(s, Idle);
      case RequestCancel => RequestKeeps(s, a, t);
      case PauseIdle => RequestKeeps(s, a, t);
      case ConfirmCancel => ConfirmCancelKeeps(s, t);
      case Resume(target, caps) => ResumeKeeps(s, target, caps, t);
      case RecoverLease => OutsideWorkflowStatusKeeps(s, a, t);
      case OutsideStatus(_, _) => OutsideWorkflowStatusKeeps(s, a, t);
      case OutsideCompletion(_, _) => OutsideWorkflowStatusKeeps(s, a, t);
      case _ => OutsideKeeps(s, a, t);
    }
  }

  lemma StepKeeps(s: Sys, t: Sys)
    requires Inv(s) && Step(s, t)
    ensures Inv(t)
  {
    hide Inv;
    var a :| Fire(s, a) == Some(t);
    ActionKeeps(s, a, t);
  }

  /** Every state of every run satisfies the invariant. */
  lemma {:induction false} RunKeeps(t: seq<Sys>, n: nat)
    requires IsRun(t) && n < |t|
    ensures Inv(t[n])
    decreases n
  {
    hide Inv;
    if n == 0 {
      InitialKeeps(t[0]);
    } else {
      RunKeeps(t, n - 1);
      StepKeeps(t[n - 1], t[n]);
    }
  }
}
