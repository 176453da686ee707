/**
 Particular runs: crashes that are healed and crashes that are not, an overstated
 column, an error after a cancel request, an inherited workflow.
 */
module BookCrashes {
  import FiniteSets
  import opened Options
  import opened BookModel
  import opened BookMachine
  import opened BookInvariant
  import opened BookPreservation
  import opened BookTheorems
  import BookOwnership

  // --------------------------------------------------------------- action lists

  /** The state after a list of actions, if each of them can happen in turn. */
  function Play(s: Sys, actions: seq<Action>): Option<Sys>
    decreases |actions|
  {
    if actions == [] then Some(s)
    else match Fire(s, actions[0])
      case None => None
      case Some(x) => Play(x, actions[1..])
  }

  lemma {:induction false} PlayAppend(s: Sys, a: seq<Action>, b: seq<Action>, x: Sys)
    requires Play(s, a) == Some(x)
    ensures Play(s, a + b) == Play(x, b)
    decreases |a|
  {
    hide Fire;
    if a == [] {
      assert a + b == b;
    } else {
      assert (a + b)[1..] == a[1..] + b;
      PlayAppend(Fire(s, a[0]).value, a[1..], b, x);
    }
  }

  lemma PlayOne(s: Sys, a: Action, x: Sys)
    requires Fire(s, a) == Some(x)
    ensures Play(s, [a]) == Some(x)
  {
    hide Fire;
    assert [a][1..] == [];
  }

  lemma PlayTwo(s: Sys, a: Action, x: Sys, b: Action, y: Sys)
    requires Fire(s, a) == Some(x) && Fire(x, b) == Some(y)
    ensures Play(s, [a, b]) == Some(y)
  {
    hide Fire;
    PlayOne(x, b, y);
    assert [a, b][1..] == [b];
  }

  lemma PlayThree(s: Sys, a: Action, x: Sys, b: Action, y: Sys, c: Action, z: Sys)
    requires Fire(s, a) == Some(x) && Fire(x, b) == Some(y) && Fire(y, c) == Some(z)
    ensures Play(s, [a, b, c]) == Some(z)
  {
    hide Fire;
    PlayTwo(x, b, y, c, z);
    assert [a, b, c][1..] == [b, c];
  }

  lemma {:induction false} PlayKeeps(s: Sys, actions: seq<Action>, x: Sys)
    requires Inv(s) && Play(s, actions) == Some(x)
    ensures Inv(x)
    decreases |actions|
  {
    hide Inv, Fire;
    if actions != [] {
      ActionKeeps(s, actions[0], Fire(s, actions[0]).value);
      PlayKeeps(Fire(s, actions[0]).value, actions[1..], x);
    }
  }

  /** A list of actions played from an initial state is a run. */
  lemma {:induction false} PlayIsRun(s: Sys, actions: seq<Action>, x: Sys) returns (t: seq<Sys>)
    requires Initial(s) && Play(s, actions) == Some(x)
    ensures IsRun(t) && t[0] == s && t[|t| - 1] == x
  {
    hide Initial, Fire;
    t := PlaySteps(s, actions, x);
  }

  lemma {:induction false} PlaySteps(s: Sys, actions: seq<Action>, x: Sys) returns (t: seq<Sys>)
    requires Play(s, actions) == Some(x)
    ensures |t| > 0 && t[0] == s && t[|t| - 1] == x
    ensures forall i | 0 <= i < |t| - 1 :: Step(t[i], t[i + 1])
    decreases |actions|
  {
    hide Fire;
    if actions == [] {
      t := [s];
    } else {
      var rest := PlaySteps(Fire(s, actions[0]).value, actions[1..], x);
      assert Step(s, rest[0]);
      t := [s] + rest;
    }
  }

  // ---------------------------------------------------------------- pieces of runs

  /** The state when `execute` has come to its first decision. */
  function Entered(s: Sys): Sys
    requires s.db.run.total > 0
  {
    var at := Sys(Sync(WithStatus(s.db, Generating)), Synced, s.lost);
    at.(pc := Chosen(at))
  }

  lemma Enter(s: Sys)
    requires s.pc.Idle? && s.db.run.total > 0 && (s.db.run.status.Pending? || s.db.run.status.Generating?)
    ensures Play(s, [Initialize, SyncAccepted, Choose]) == Some(Entered(s))
  {
    hide Chosen, Sync;
    var s1 := s.(db := WithStatus(s.db, Generating), pc := Top);
    var s2 := s1.(db := Sync(s1.db), pc := Synced);
    PlayThree(s, Initialize, s1, SyncAccepted, s2, Choose, Entered(s));
  }

  /** A chapter workflow `w` has just started for chapter `c`. */
  function Started(s: Sys, c: nat, w: nat): Sys {
    s.(db := Link(MarkRunning(s.db, c), c, w), pc := Flight(c, w, Generation))
  }

  lemma Start(s: Sys, w: nat)
    requires s.pc.Gate? && !OverBudget(s.db.run) && s.db.run.workflow.None?
    requires InBook(s.db, s.pc.chapter) && w !in s.db.workflows
    ensures Play(s, [PassGate, MarkChapter, Attach(w)]) == Some(Started(s, s.pc.chapter, w))
  {
    hide OverBudget;
    var c := s.pc.chapter;
    var s1 := s.(pc := Picked(c));
    var s2 := s1.(db := MarkRunning(s.db, c), pc := Marked(c));
    PlayThree(s, PassGate, s1, MarkChapter, s2, Attach(w), Started(s, c, w));
  }

  lemma GateChapter(s: Sys)
    requires Inv(s) && s.pc.Gate?
    ensures InBook(s.db, s.pc.chapter) && s.db.run.total > 0 && s.db.run.chapters[s.pc.chapter] == Planned
    ensures NoneIn(s.db.run.chapters, Running)
  {
    hide JobInv, IndexInv, CountInv, TaskInv, CheckInv, SnapshotInv, CompletionInv, ReviewInv, FlightInv;
  }

  // --------------------------------------------------------- crashes around the link

  /**
   A crash after a chapter was marked running and before its workflow was linked
   is not survived: the next execution finds a running chapter without a workflow,
   the scheduler answers "wait", and the run fails.
   */
  lemma MarkCrashFailsRun(t: seq<Sys>, n: nat) returns (e: Sys)
    requires IsRun(t) && n < |t| && t[n].pc.Gate? && t[n].db.run.status.Generating?
    requires !OverBudget(t[n].db.run) && t[n].db.run.workflow.None? && t[n].pc.chapter !in t[n].db.accepted
    ensures Play(t[n], [PassGate, MarkChapter, Crash] + [Initialize, SyncAccepted, Choose] + [Handle]) == Some(e)
    ensures e.pc.Idle? && e.db.run.status.Failed?
  {
    hide Inv, Initial, Step;
    RunKeeps(t, n);
    e := MarkCrash(t[n]);
  }

  /** Marked, and then the worker is gone. */
  function MarkedIdle(s: Sys, c: nat): Sys {
    s.(db := MarkRunning(s.db, c), pc := Idle)
  }

  lemma MarkThenCrash(s: Sys)
    requires s.pc.Gate? && !OverBudget(s.db.run)
    ensures Play(s, [PassGate, MarkChapter, Crash]) == Some(MarkedIdle(s, s.pc.chapter))
  {
    hide OverBudget;
    var c := s.pc.chapter;
    var s1 := s.(pc := Picked(c));
    var s2 := s1.(db := MarkRunning(s.db, c), pc := Marked(c));
    PlayThree(s, PassGate, s1, MarkChapter, s2, Crash, MarkedIdle(s, c));
  }

  lemma MarkCrash(s: Sys) returns (e: Sys)
    requires Inv(s) && s.pc.Gate? && s.db.run.status.Generating?
    requires !OverBudget(s.db.run) && s.db.run.workflow.None? && s.pc.chapter !in s.db.accepted
    ensures Play(s, [PassGate, MarkChapter, Crash] + [Initialize, SyncAccepted, Choose] + [Handle]) == Some(e)
    ensures e.pc.Idle? && e.db.run.status.Failed?
  {
    hide Inv, OverBudget, Fire, Play, Entered, NoneIn;
    GateChapter(s);
    var s3 := MarkedIdle(s, s.pc.chapter);
    MarkThenCrash(s);
    Enter(s3);
    StillRunning(s3, s.pc.chapter);
    e := HandleError(Entered(s3));
    PlayAppend(s, [PassGate, MarkChapter, Crash], [Initialize, SyncAccepted, Choose], s3);
    PlayAppend(s, [PassGate, MarkChapter, Crash] + [Initialize, SyncAccepted, Choose], [Handle], Entered(s3));
  }

  lemma HandleError(s: Sys) returns (e: Sys)
    requires s.pc == Stopping(ExecutionError) && s.db.run.status.Generating?
    ensures Play(s, [Handle]) == Some(e) && e.pc.Idle? && e.db.run.status.Failed?
  {
    e := s.(db := WithStatus(s.db, Failed), pc := Idle);
    PlayOne(s, Handle, e);
  }

  lemma StillRunning(s: Sys, c: nat)
    requires s.db.run.total > 0 && StateIs(s.db.run.chapters, c, Running) && c !in s.db.accepted
    ensures s.db.run.workflow.None? ==> Entered(s).pc == Stopping(ExecutionError)
    ensures s.db.run.workflow.Some? && s.db.run.current == Some(c) ==> Entered(s).pc == Picked(c)
    ensures Entered(s).db.run.status == Generating
    ensures Entered(s).db.run.current == s.db.run.current && Entered(s).db.run.workflow == s.db.run.workflow
    ensures Entered(s).db.workflows == s.db.workflows && StateIs(Entered(s).db.run.chapters, c, Running)
  {
    var m := Entered(s).db.run.chapters;
    assert c in m && m[c] == Running;
  }

  /**
   A crash while the chapter workflow is in flight is survived: the expired lease
   is recovered and the next execution resumes the very same workflow, once.
   */
  lemma FlightCrashResumes(t: seq<Sys>, n: nat, w: nat) returns (e: Sys)
    requires IsRun(t) && n < |t| && t[n].pc.Gate? && t[n].db.run.status.Generating?
    requires !OverBudget(t[n].db.run) && t[n].db.run.workflow.None? && t[n].pc.chapter !in t[n].db.accepted
    requires w !in t[n].db.workflows
    ensures Play(t[n], [PassGate, MarkChapter, Attach(w)] + [Crash, RecoverLease] + [Initialize, SyncAccepted, Choose]
                       + [MarkChapter, Attach(0)]) == Some(e)
    ensures e.pc == Flight(t[n].pc.chapter, w, Generation)
    ensures w in e.db.workflows && e.db.workflows[w] == Workflow(t[n].pc.chapter, WorkflowRunning)
    ensures e.db.jobs == Link(t[n].db, t[n].pc.chapter, w).jobs
  {
    hide Inv, Initial, Step;
    RunKeeps(t, n);
    e := FlightCrash(t[n], w);
  }

  /** The worker died in flight and its expired lease was recovered. */
  function Recovered(s: Sys, w: nat): Sys
    requires w in s.db.workflows
  {
    s.(db := WithWorkflowStatus(s.db, w, WorkflowPaused), pc := Idle)
  }

  lemma CrashThenRecover(s: Sys, c: nat, w: nat)
    requires s.pc == Flight(c, w, Generation) && s.db.run.workflow == Some(w)
    requires w in s.db.workflows && s.db.workflows[w] == Workflow(c, WorkflowRunning)
    ensures Play(s, [Crash, RecoverLease]) == Some(Recovered(s, w))
  {
    PlayTwo(s, Crash, s.(pc := Idle), RecoverLease, Recovered(s, w));
  }

  lemma ResumeFlight(s: Sys, c: nat, w: nat) returns (e: Sys)
    requires s.pc == Picked(c) && s.db.run.workflow == Some(w)
    requires w in s.db.workflows && s.db.workflows[w] == Workflow(c, WorkflowPaused)
    ensures Play(s, [MarkChapter, Attach(0)]) == Some(e)
    ensures e.pc == Flight(c, w, Generation) && e.db.jobs == s.db.jobs
    ensures w in e.db.workflows && e.db.workflows[w] == Workflow(c, WorkflowRunning)
  {
    var s4 := s.(db := MarkRunning(s.db, c), pc := Marked(c));
    e := s4.(db := WithWorkflowStatus(s4.db, w, WorkflowRunning), pc := Flight(c, w, Generation));
    PlayTwo(s, MarkChapter, s4, Attach(0), e);
  }

  lemma FlightCrash(s: Sys, w: nat) returns (e: Sys)
    requires Inv(s) && s.pc.Gate? && s.db.run.status.Generating?
    requires !OverBudget(s.db.run) && s.db.run.workflow.None? && s.pc.chapter !in s.db.accepted
    requires w !in s.db.workflows
    ensures Play(s, [PassGate, MarkChapter, Attach(w)] + [Crash, RecoverLease] + [Initialize, SyncAccepted, Choose]
                    + [MarkChapter, Attach(0)]) == Some(e)
    ensures e.pc == Flight(s.pc.chapter, w, Generation)
    ensures w in e.db.workflows && e.db.workflows[w] == Workflow(s.pc.chapter, WorkflowRunning)
    ensures e.db.jobs == Link(s.db, s.pc.chapter, w).jobs
  {
    hide Inv, OverBudget, Fire, Play, Entered, NoneIn;
    GateChapter(s);
    var c := s.pc.chapter;
    var s1 := Started(s, c, w);
    Start(s, w);
    CrashThenRecover(s1, c, w);
    var s2 := Recovered(s1, w);
    Enter(s2);
    StillRunning(s2, c);
    SameJobs(s2);
    var s3 := Entered(s2);
    e := ResumeFlight(s3, c, w);
    PlayAppend(s, [PassGate, MarkChapter, Attach(w)], [Crash, RecoverLease], s1);
    PlayAppend(s, [PassGate, MarkChapter, Attach(w)] + [Crash, RecoverLease], [Initialize, SyncAccepted, Choose], s2);
    PlayAppend(s, [PassGate, MarkChapter, Attach(w)] + [Crash, RecoverLease] + [Initialize, SyncAccepted, Choose],
               [MarkChapter, Attach(0)], s3);
  }

  lemma SameJobs(s: Sys)
    requires s.db.run.total > 0
    ensures Entered(s).db.jobs == s.db.jobs
  {}

  /** The in-flight workflow can be gone on with: it is paused, or it has ended with a result. */
  predicate Resumes(d: Db) {
    && d.run.workflow.Some? && d.run.workflow.value in d.workflows
    && var end := d.workflows[d.run.workflow.value].status;
       end.WorkflowPaused? || end.WorkflowCompleted? || end.WorkflowNeedsReview?
  }

  /** The next execution up to its workflow; `id` would be the id of a new one. */
  function Restart(id: nat): seq<Action> {
    [Initialize, SyncAccepted, Choose] + [MarkChapter, Attach(id)]
  }

  predicate GetsPast(s: Sys, id: nat) {
    var e := Play(s, Restart(id));
    e.Some? && (e.value.pc.Flight? || e.value.pc.Ended?)
  }

  /** The same execution, when it is stopped by an error and the handler marks the run. */
  function Refused(d: Db, id: nat): seq<Action> {
    if d.run.workflow.None? then [Initialize, SyncAccepted, Choose] + [Handle] else Restart(id) + [Handle]
  }

  /**
   Whatever crash left a chapter running without an accepted version: the next
   execution gets past its workflow if and only if there is one in flight that is
   paused, completed or in need of review, and then it goes on with that one; in
   every other case the run ends FAILED.
   */
  lemma ResumesExactly(t: seq<Sys>, n: nat, c: nat, id: nat) returns (e: Sys)
    requires IsRun(t) && n < |t| && t[n].pc.Idle? && t[n].db.run.status.Generating?
    requires StateIs(t[n].db.run.chapters, c, Running) && c !in t[n].db.accepted
    ensures GetsPast(t[n], id) <==> Resumes(t[n].db)
    ensures Resumes(t[n].db) ==> Play(t[n], Restart(id)) == Some(e)
                                 && e.pc.chapter == c && e.pc.workflow == t[n].db.run.workflow.value
    ensures !Resumes(t[n].db) ==> Play(t[n], Refused(t[n].db, id)) == Some(e) && e.pc.Idle? && e.db.run.status.Failed?
  {
    hide Inv, Initial, Step;
    RunKeeps(t, n);
    e := Resumption(t[n], c, id);
  }

  lemma Resumption(s: Sys, c: nat, id: nat) returns (e: Sys)
    requires Inv(s) && s.pc.Idle? && s.db.run.status.Generating?
    requires StateIs(s.db.run.chapters, c, Running) && c !in s.db.accepted
    ensures GetsPast(s, id) <==> Resumes(s.db)
    ensures Resumes(s.db) ==> Play(s, Restart(id)) == Some(e)
                              && (e.pc.Flight? || e.pc.Ended?)
                              && e.pc.chapter == c && e.pc.workflow == s.db.run.workflow.value
    ensures !Resumes(s.db) ==> Play(s, Refused(s.db, id)) == Some(e) && e.pc.Idle? && e.db.run.status.Failed?
  {
    hide Inv, Fire, Play, Entered, Resumes;
    RunningFacts(s, c);
    Enter(s);
    StillRunning(s, c);
    SameWorkflows(s);
    var at, a, b := Entered(s), [Initialize, SyncAccepted, Choose], [MarkChapter, Attach(id)];
    PlayAppend(s, a, b, at);
    if s.db.run.workflow.None? {
      NoMark(at, b);
      e := HandleError(at);
      PlayAppend(s, a, [Handle], at);
    } else {
      e := AttachAgain(at, c, id);
      if !Resumes(at.db) {
        var x := e;
        e := HandleError(x);
        PlayAppend(s, a + b, [Handle], x);
      }
    }
  }

  lemma RunningFacts(s: Sys, c: nat)
    requires Inv(s) && StateIs(s.db.run.chapters, c, Running)
    ensures s.db.run.total > 0 && s.db.run.current == Some(c)
    ensures s.db.run.workflow.Some? ==> s.db.run.workflow.value in s.db.workflows
    ensures s.db.run.workflow.None? ==> !Resumes(s.db)
  {
    hide JobInv, IndexInv, CountInv, TaskInv, CheckInv, SnapshotInv, CompletionInv, ReviewInv;
  }

  lemma SameWorkflows(s: Sys)
    requires s.db.run.total > 0
    ensures Resumes(Entered(s).db) == Resumes(s.db)
  {}

  lemma NoMark(s: Sys, actions: seq<Action>)
    requires s.pc.Stopping? && actions != [] && actions[0].MarkChapter?
    ensures Play(s, actions).None?
  {}

  lemma AttachAgain(s: Sys, c: nat, id: nat) returns (e: Sys)
    requires s.pc == Picked(c) && s.db.run.workflow.Some? && s.db.run.workflow.value in s.db.workflows
    ensures Play(s, [MarkChapter, Attach(id)]) == Some(e)
    ensures Resumes(s.db) ==> (e.pc.Flight? || e.pc.Ended?)
                              && e.pc.chapter == c && e.pc.workflow == s.db.run.workflow.value
    ensures !Resumes(s.db) ==> e.pc == Stopping(ExecutionError) && e.db.run.status == s.db.run.status
  {
    var marked := s.(db := MarkRunning(s.db, c), pc := Marked(c));
    e := AttachResult(marked, id).value;
    PlayTwo(s, MarkChapter, marked, Attach(id), e);
  }

  /**
   So a crash in flight is not always healed: when the workflow had just failed, or
   had been cancelled, the next execution ends the run.
   */
  lemma EndedFlightFailsRun(t: seq<Sys>, n: nat, w: nat, end: WorkflowStatus, id: nat) returns (e: Sys)
    requires IsRun(t) && n < |t| && t[n].pc.Gate? && t[n].db.run.status.Generating?
    requires !OverBudget(t[n].db.run) && t[n].db.run.workflow.None? && t[n].pc.chapter !in t[n].db.accepted
    requires w !in t[n].db.workflows && (end.WorkflowFailed? || end.WorkflowCancelled?)
    ensures Play(t[n], [PassGate, MarkChapter, Attach(w)] + [Settle(end), Crash] + (Restart(id) + [Handle])) == Some(e)
    ensures e.pc.Idle? && e.db.run.status.Failed?
  {
    hide Inv, Initial, Step, Fire, Play, OverBudget, NoneIn;
    RunKeeps(t, n);
    var s, c := t[n], t[n].pc.chapter;
    GateChapter(s);
    Start(s, w);
    var at, a := Started(s, c, w), [PassGate, MarkChapter, Attach(w)];
    var x := SettleThenCrash(at, c, w, end);
    PlayAppend(s, a, [Settle(end), Crash], at);
    PlayKeeps(s, a + [Settle(end), Crash], x);
    e := Resumption(x, c, id);
    PlayAppend(s, a + [Settle(end), Crash], Restart(id) + [Handle], x);
  }

  lemma SettleThenCrash(s: Sys, c: nat, w: nat, end: WorkflowStatus) returns (e: Sys)
    requires s.pc == Flight(c, w, Generation) && w in s.db.workflows && s.db.run.workflow == Some(w)
    requires end.WorkflowFailed? || end.WorkflowCancelled?
    ensures Play(s, [Settle(end), Crash]) == Some(e)
    ensures e == s.(db := WithWorkflowStatus(s.db, w, end), pc := Idle) && !Resumes(e.db)
  {
    e := s.(db := WithWorkflowStatus(s.db, w, end), pc := Idle);
    PlayTwo(s, Settle(end), e.(pc := Ended(c, w, end, Generation)), Crash, e);
  }

  // --------------------------------------------------- an overstated review column

  /** Chapter 1 was recorded as needing review, and then the worker was gone. */
  predicate UnderReview(s: Sys) {
    var r := s.db.run;
    && s.pc.Idle? && r.status.Generating? && r.total > 0
    && StateIs(r.chapters, 1, NeedsReview) && ReviewSet(r.chapters) == {1} && r.needsReview == 1
  }

  /**
   From any fresh book within its budget whose first chapter is unwritten there is a
   run that ends with the needs-review column at 1 and no chapter under review: the
   chapter is recorded, the worker crashes, someone accepts a version, and the next
   synchronisation does not recount the column.
   */
  lemma ReviewColumnOverstates(s: Sys, w: nat, v: nat, j: nat) returns (t: seq<Sys>)
    requires Initial(s) && 1 !in s.db.accepted && !OverBudget(s.db.run)
    requires w !in s.db.workflows && j !in s.db.jobs
    ensures IsRun(t) && t[0] == s
    ensures var r := t[|t| - 1].db.run; r.needsReview == 1 && ReviewSet(r.chapters) == {}
  {
    hide Initial, Fire, Play, Entered, OverBudget, UnderReview, ReviewSet;
    FirstOpen(s);
    Enter(s);
    var s1 := Entered(s);
    Start(s1, w);
    var a := [Initialize, SyncAccepted, Choose] + [PassGate, MarkChapter, Attach(w)];
    PlayAppend(s, [Initialize, SyncAccepted, Choose], [PassGate, MarkChapter, Attach(w)], s1);
    var s2 := ReviewedThenCrash(Started(s1, 1, w), w, j);
    PlayAppend(s, a, [Settle(WorkflowNeedsReview), RecordChapter(j), Crash], Started(s1, 1, w));
    var b := a + [Settle(WorkflowNeedsReview), RecordChapter(j), Crash];
    var e := AcceptedOutside(s2, v);
    PlayAppend(s, b, [OutsideAcceptance(1, v), Initialize, SyncAccepted], s2);
    t := PlayIsRun(s, b + [OutsideAcceptance(1, v), Initialize, SyncAccepted], e);
  }

  lemma FirstOpen(s: Sys)
    requires Initial(s) && 1 !in s.db.accepted && !OverBudget(s.db.run)
    ensures s.db.run.total > 0 && s.pc.Idle? && s.db.run.status.Pending?
    ensures var d := Entered(s).db;
      && Entered(s).pc == Gate(1) && !OverBudget(d.run) && d.run.workflow.None? && InBook(d, 1)
      && d.workflows == s.db.workflows && d.jobs == s.db.jobs && d.run.status.Generating?
      && (forall k | k in d.run.chapters :: d.run.chapters[k] == Accepted || d.run.chapters[k] == Planned)
  {
    hide Entered, OverBudget;
    GateAt(s, 1);
    FirstFacts(s);
  }

  lemma ReviewedThenCrash(s: Sys, w: nat, j: nat) returns (e: Sys)
    requires s.pc == Flight(1, w, Generation) && w in s.db.workflows && j !in s.db.jobs
    requires s.db.run.total > 0 && s.db.run.status.Generating?
    requires forall k | k in s.db.run.chapters :: s.db.run.chapters[k] != NeedsReview
    ensures Play(s, [Settle(WorkflowNeedsReview), RecordChapter(j), Crash]) == Some(e) && UnderReview(e)
  {
    hide Fire, Record, UnderReview, ReviewSet;
    var at := SettledForReview(s, w);
    ReviewFires(s, w);
    var recorded := RecordReviewFires(s, w, j);
    e := recorded.(pc := Idle);
    CrashFires(recorded);
    PlayThree(s, Settle(WorkflowNeedsReview), at, RecordChapter(j), recorded, Crash, e);
  }

  function SettledForReview(s: Sys, w: nat): Sys
    requires w in s.db.workflows
  {
    s.(db := WithWorkflowStatus(s.db, w, WorkflowNeedsReview), pc := Ended(1, w, WorkflowNeedsReview, Generation))
  }

  lemma CrashFires(s: Sys)
    ensures Fire(s, Crash) == Some(s.(pc := Idle))
  {}

  lemma ReviewFires(s: Sys, w: nat)
    requires s.pc == Flight(1, w, Generation) && w in s.db.workflows
    ensures Fire(s, Settle(WorkflowNeedsReview)) == Some(SettledForReview(s, w))
  {}

  lemma RecordReviewFires(s: Sys, w: nat, j: nat) returns (e: Sys)
    requires w in s.db.workflows && j !in s.db.jobs && s.db.run.total > 0 && s.db.run.status.Generating?
    requires forall k | k in s.db.run.chapters :: s.db.run.chapters[k] != NeedsReview
    ensures Fire(SettledForReview(s, w), RecordChapter(j)) == Some(e) && UnderReview(e.(pc := Idle))
  {
    hide ReviewSet, AcceptedSet, DoneSet, Progress;
    e := Sys(Record(SettledForReview(s, w).db, 1, w, WorkflowNeedsReview, j),
             RecordedPc(1, w, WorkflowNeedsReview, Generation), s.lost + 1);
    ReviewOfOne(s.db.run.chapters);
  }

  lemma ReviewOfOne(m: map<nat, ChapterState>)
    requires forall k | k in m :: m[k] != NeedsReview
    ensures ReviewSet(m[1 := NeedsReview]) == {1}
  {}

  lemma AcceptedOutside(s: Sys, v: nat) returns (e: Sys)
    requires UnderReview(s)
    ensures Play(s, [OutsideAcceptance(1, v), Initialize, SyncAccepted]) == Some(e)
    ensures e.db.run.needsReview == 1 && ReviewSet(e.db.run.chapters) == {}
  {
    var at := s.(db := s.db.(accepted := s.db.accepted[1 := v]));
    var top := at.(db := WithStatus(at.db, Generating), pc := Top);
    e := top.(db := Sync(top.db), pc := Synced);
    assert forall c | c in ReviewSet(e.db.run.chapters) :: c in ReviewSet(s.db.run.chapters);
    assert 1 in s.db.run.chapters && e.db.run.chapters[1] == Accepted;
    PlayThree(s, OutsideAcceptance(1, v), at, Initialize, top, SyncAccepted, e);
  }

  // ------------------------------------------------- an error after a cancel request

  /**
   From every reachable state in which a worker is executing: a cancel request and
   then an error leave the run in CANCEL_REQUESTED, since it may not become FAILED,
   and the next execution is refused and leaves it there again.
   */
  lemma CancelThenErrorSticks(t: seq<Sys>, n: nat) returns (e: Sys)
    requires IsRun(t) && n < |t| && Active(t[n].pc)
    ensures Play(t[n], [RequestCancel, Raise(ExecutionError), Handle] + [Initialize, Handle]) == Some(e)
    ensures e == t[n].(db := WithStatus(t[n].db, CancelRequested), pc := Idle)
  {
    hide Inv, Initial, Step;
    RunKeeps(t, n);
    StatusFacts(t[n]);
    e := CancelThenError(t[n]);
  }

  lemma CancelThenError(s: Sys) returns (e: Sys)
    requires Active(s.pc) && Working(s.db.run.status)
    ensures Play(s, [RequestCancel, Raise(ExecutionError), Handle] + [Initialize, Handle]) == Some(e)
    ensures e == s.(db := WithStatus(s.db, CancelRequested), pc := Idle)
  {
    hide *;
    e := s.(db := WithStatus(s.db, CancelRequested), pc := Idle);
    CancelFires(s);
    StuckFires(s);
    PlayThree(s, RequestCancel, e.(pc := s.pc), Raise(ExecutionError), e.(pc := Stopping(ExecutionError)), Handle, e);
    PlayTwo(e, Initialize, e.(pc := Stopping(ExecutionError)), Handle, e);
    PlayAppend(s, [RequestCancel, Raise(ExecutionError), Handle], [Initialize, Handle], e);
  }

  lemma CancelFires(s: Sys)
    requires Active(s.pc) && Working(s.db.run.status)
    ensures var s1 := s.(db := WithStatus(s.db, CancelRequested));
      && Fire(s, RequestCancel) == Some(s1)
      && Fire(s1, Raise(ExecutionError)) == Some(s1.(pc := Stopping(ExecutionError)))
  {}

  lemma StuckFires(s: Sys)
    ensures var e := s.(db := WithStatus(s.db, CancelRequested), pc := Idle);
      && Fire(e, Initialize) == Some(e.(pc := Stopping(ExecutionError)))
      && Fire(e.(pc := Stopping(ExecutionError)), Handle) == Some(e)
  {}

  // --------------------------------------------------------- an inherited workflow

  /** What the scheduled chapter `c` looks like when it has inherited workflow `w`. */
  function Inherited(s: Sys, c: nat, w: nat): Sys {
    s.(db := MarkRunning(s.db, c), pc := Ended(c, w, WorkflowCompleted, Generation))
  }

  lemma InheritedSteps(s: Sys)
    requires s.pc.Gate? && !OverBudget(s.db.run)
    requires s.db.run.workflow.Some? && s.db.run.workflow.value in s.db.workflows
    requires s.db.workflows[s.db.run.workflow.value].status.WorkflowCompleted?
    ensures Play(s, [PassGate, MarkChapter, Attach(0)]) == Some(Inherited(s, s.pc.chapter, s.db.run.workflow.value))
  {
    hide OverBudget;
    var c, w := s.pc.chapter, s.db.run.workflow.value;
    var s1 := s.(pc := Picked(c));
    var s2 := s1.(db := MarkRunning(s.db, c), pc := Marked(c));
    PlayThree(s, PassGate, s1, MarkChapter, s2, Attach(0), Inherited(s, c, w));
  }

  /**
   A scheduled chapter that has inherited a completed workflow is recorded as
   accepted although no version of it was accepted, with a child job that carries
   another chapter's workflow.
   */
  lemma InheritedIsRecorded(s: Sys, j: nat) returns (e: Sys)
    requires Inv(s) && s.pc.Gate? && !OverBudget(s.db.run) && j !in s.db.jobs
    requires s.db.run.workflow.Some? && s.db.run.workflow.value in s.db.workflows
    requires s.db.workflows[s.db.run.workflow.value].status.WorkflowCompleted?
    ensures Play(s, [PassGate, MarkChapter, Attach(0)] + [RecordChapter(j)]) == Some(e)
    ensures StateIs(e.db.run.chapters, s.pc.chapter, Accepted) && e.db.accepted == s.db.accepted
    ensures ChildFor(e.db.jobs, e.db.top, j, ChildKey(s.pc.chapter, s.db.run.workflow.value))
    ensures e.db.workflows == s.db.workflows
    ensures s.db.workflows[s.db.run.workflow.value].chapter != s.pc.chapter
  {
    hide Inv;
    var c, w := s.pc.chapter, s.db.run.workflow.value;
    BookOwnership.Inheritance(s);
    InheritedSteps(s);
    var s3 := Inherited(s, c, w);
    PlayKeeps(s, [PassGate, MarkChapter, Attach(0)], s3);
    e := InheritedRecord(s3, j);
    PlayOne(s3, RecordChapter(j), e);
    PlayAppend(s, [PassGate, MarkChapter, Attach(0)], [RecordChapter(j)], s3);
  }

  lemma InheritedRecord(s: Sys, j: nat) returns (e: Sys)
    requires Inv(s) && s.pc.Ended? && s.pc.mode.Generation? && s.pc.status.WorkflowCompleted? && j !in s.db.jobs
    ensures Fire(s, RecordChapter(j)) == Some(e)
    ensures StateIs(e.db.run.chapters, s.pc.chapter, Accepted) && e.db.accepted == s.db.accepted
    ensures ChildFor(e.db.jobs, e.db.top, j, ChildKey(s.pc.chapter, s.pc.workflow))
    ensures e.db.workflows == s.db.workflows
  {
    hide Inv;
    EndedFacts(s);
    InvRows(s);
    RecordIsInsert(s.db, s.pc.chapter, s.pc.workflow, WorkflowCompleted, j);
    e := Fire(s, RecordChapter(j)).value;
  }

  /** Every open chapter before `c` has its accepted version, and `c` is still planned. */
  ghost predicate Next(d: Db, c: nat) {
    && Covers(d.run.chapters, d.run.total) && NoneIn(d.run.chapters, NeedsReview)
    && InBook(d, c) && d.run.chapters[c] == Planned && c !in d.accepted
    && (forall k | 1 <= k < c :: k in d.accepted)
    && (forall k | StateIs(d.run.chapters, k, Running) :: k in d.accepted)
  }

  lemma GateAt(s: Sys, c: nat)
    requires Next(s.db, c)
    ensures s.db.run.total > 0 && Entered(s).pc == Gate(c)
  {
    var r := Entered(s).db.run;
    assert NoneIn(r.chapters, Running) && NoneIn(r.chapters, NeedsReview);
    assert r.chapters[c] == Planned;
    CandidateFound(r.total, r.chapters, 1);
  }

  /** A book whose first two chapters are still unwritten, within its budget. */
  predicate Unwritten(d: Db) {
    d.run.total >= 2 && 1 !in d.accepted && 2 !in d.accepted && !OverBudget(d.run)
  }

  /** Chapter 1 started, was accepted, and then the worker was gone. */
  function FirstAccepted(s: Sys, w: nat, v: nat): Sys {
    var s2 := Started(s, 1, w);
    if w in s2.db.workflows then s2.(db := AcceptVersion(s2.db, w, v), pc := Idle) else s2
  }

  lemma FirstChapterCrash(s: Sys, w: nat, v: nat) returns (e: Sys)
    requires Initial(s) && Unwritten(s.db) && w !in s.db.workflows
    ensures Play(s, [Initialize, SyncAccepted, Choose] + [PassGate, MarkChapter, Attach(w)] + [Accept(v), Crash])
         == Some(e)
    ensures e.pc.Idle? && e.db.run.status.Generating? && !OverBudget(e.db.run) && Next(e.db, 2)
    ensures e.db.jobs.Keys == s.db.jobs.Keys && e.db.accepted.Keys == s.db.accepted.Keys + {1}
    ensures e.db.run.workflow == Some(w) && w in e.db.workflows && e.db.workflows[w] == Workflow(1, WorkflowCompleted)
  {
    hide Fire, Play, Entered, OverBudget, AcceptVersion, Link, MarkRunning, Next;
    FirstGate(s);
    Enter(s);
    var s1 := Entered(s);
    Start(s1, w);
    FirstRows(s, w, v);
    var s2 := Started(s1, 1, w);
    e := FirstAccepted(s1, w, v);
    AcceptThenCrash(s2, w, v);
    PlayAppend(s, [Initialize, SyncAccepted, Choose], [PassGate, MarkChapter, Attach(w)], s1);
    PlayAppend(s, [Initialize, SyncAccepted, Choose] + [PassGate, MarkChapter, Attach(w)], [Accept(v), Crash], s2);
  }

  lemma FirstGate(s: Sys)
    requires Initial(s) && Unwritten(s.db)
    ensures s.db.run.total > 0 && s.pc.Idle? && s.db.run.status.Pending?
    ensures Entered(s).pc == Gate(1) && InBook(Entered(s).db, 1)
    ensures !OverBudget(Entered(s).db.run) && Entered(s).db.run.workflow.None?
    ensures Entered(s).db.workflows == s.db.workflows
  {
    hide OverBudget, Entered;
    GateAt(s, 1);
    FirstFacts(s);
  }

  lemma FirstRows(s: Sys, w: nat, v: nat)
    requires Initial(s) && Unwritten(s.db) && w !in s.db.workflows
    ensures var s2, e := Started(Entered(s), 1, w), FirstAccepted(Entered(s), w, v);
      && s2.pc == Flight(1, w, Generation) && w in s2.db.workflows
      && e == s2.(db := AcceptVersion(s2.db, w, v), pc := Idle)
      && e.db.run.status.Generating? && !OverBudget(e.db.run) && Next(e.db, 2)
      && e.db.jobs.Keys == s.db.jobs.Keys && e.db.accepted.Keys == s.db.accepted.Keys + {1}
      && e.db.run.workflow == Some(w) && w in e.db.workflows && e.db.workflows[w] == Workflow(1, WorkflowCompleted)
  {
    hide OverBudget, Entered;
    FirstFacts(s);
    SameBudget(Entered(s).db.run, FirstAccepted(Entered(s), w, v).db.run);
  }

  lemma SameBudget(r: Run, q: Run)
    requires r.usage == q.usage && r.caps == q.caps
    ensures OverBudget(r) == OverBudget(q)
  {}

  lemma FirstFacts(s: Sys)
    requires Initial(s)
    ensures var e := Entered(s).db;
      && e.jobs == s.db.jobs && e.top == s.db.top && e.accepted == s.db.accepted && e.workflows == s.db.workflows
      && e.run.workflow.None? && e.run.total == s.db.run.total && e.run.status.Generating?
      && Covers(e.run.chapters, e.run.total)
      && (forall k | k in e.run.chapters :: e.run.chapters[k] == if k in e.accepted then Accepted else Planned)
      && OverBudget(e.run) == OverBudget(s.db.run)
  {}

  lemma AcceptThenCrash(s: Sys, w: nat, v: nat)
    requires s.pc.Flight? && s.pc.workflow == w && w in s.db.workflows
    ensures Play(s, [Accept(v), Crash]) == Some(s.(db := AcceptVersion(s.db, w, v), pc := Idle))
  {
    var s1 := s.(db := AcceptVersion(s.db, w, v), pc := Ended(s.pc.chapter, w, WorkflowCompleted, s.pc.mode));
    PlayTwo(s, Accept(v), s1, Crash, s1.(pc := Idle));
  }

  /**
   The bad run, from any fresh book within its budget: chapter 1 is accepted, the
   worker crashes before recording it, and the next execution records chapter 2 as
   accepted with the workflow of chapter 1 and without a version.
   */
  lemma InheritanceHappens(s: Sys, w: nat, v: nat, j: nat) returns (t: seq<Sys>)
    requires Initial(s) && Unwritten(s.db) && w !in s.db.workflows && j !in s.db.jobs
    ensures IsRun(t) && t[0] == s
    ensures var e := t[|t| - 1].db;
      && StateIs(e.run.chapters, 2, Accepted) && 2 !in e.accepted
      && ChildFor(e.jobs, e.top, j, ChildKey(2, w))
      && w in e.workflows && e.workflows[w].chapter == 1
  {
    hide Initial, Fire, Play, Entered, OverBudget, Inv;
    var a := [Initialize, SyncAccepted, Choose] + [PassGate, MarkChapter, Attach(w)] + [Accept(v), Crash];
    var s1 := FirstChapterCrash(s, w, v);
    InitialKeeps(s);
    PlayKeeps(s, a, s1);
    GateAt(s1, 2);
    Enter(s1);
    var b := [Initialize, SyncAccepted, Choose];
    var s2 := Entered(s1);
    PlayAppend(s, a, b, s1);
    PlayKeeps(s1, b, s2);
    EnterFacts(s1);
    SameBudget(s1.db.run, s2.db.run);
    var e := InheritedIsRecorded(s2, j);
    PlayAppend(s, a + b, [PassGate, MarkChapter, Attach(0)] + [RecordChapter(j)], s2);
    t := PlayIsRun(s, a + b + ([PassGate, MarkChapter, Attach(0)] + [RecordChapter(j)]), e);
  }

  lemma EnterFacts(s: Sys)
    requires s.db.run.total > 0
    ensures var e := Entered(s).db;
      && e.jobs == s.db.jobs && e.accepted == s.db.accepted && e.workflows == s.db.workflows
      && e.run.workflow == s.db.run.workflow && e.run.usage == s.db.run.usage && e.run.caps == s.db.run.caps
  {}

  /** What `BookRunService.create` commits for a book of `total` chapters with top job `top`. */
  function Created(total: nat, maxRounds: nat, interval: nat, caps: Usage, top: nat): Sys {
    var chapters := map c | c in FiniteSets.UpTo(total) :: Planned;
    var run := Run(Pending, total, chapters, map[], None, None, 0, 0, 0, 0, 0, maxRounds, None, None, [], Zero(), caps);
    Sys(Db(run, top, interval, map[top := Job(None, true, None, None)], map[], multiset{}, map[], map[], [], map[], []),
        Idle, 0)
  }

  /** So there is a run in which it happens: the runs quantified over above are not empty. */
  lemma BadRunExists() returns (t: seq<Sys>)
    ensures IsRun(t)
    ensures var e := t[|t| - 1].db; StateIs(e.run.chapters, 2, Accepted) && 2 !in e.accepted
  {
    t := InheritanceHappens(Created(2, 1, 5, Usage(100, 1_000_000, 0), 0), 7, 1, 1);
  }
}
