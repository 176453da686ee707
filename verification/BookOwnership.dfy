/**
 Whose workflow is in flight. When the accepted version of the in-flight chapter
 and its recording are separated, the synchronisation marks the chapter accepted
 but leaves its workflow id on the run row. This module proves what holds as long
 as that does not happen, says exactly when the next chapter inherits the id, and
 shows the bad run.
 */
module BookOwnership {
  import opened Options
  import opened BookModel
  import opened BookMachine
  import opened BookInvariant
  import opened BookPreservation

  // ------------------------------------------------------ the window kept shut

  /**
   The synchronisation is about to run over a chapter that is in flight and has
   its accepted version already: recording it did not follow its acceptance.
   */
  predicate Separated(r: Run, accepted: map<nat, nat>) {
    r.workflow.Some? && r.current.Some? && StateIs(r.chapters, r.current.value, Running) && r.current.value in accepted
  }

  /** The step from `s` to `t` is the synchronisation, and it opens the window. */
  predicate OpensWindow(s: Sys, t: Sys) {
    s.pc.Top? && t.pc.Synced? && Separated(s.db.run, s.db.accepted)
  }

  /** Every chapter marked accepted has an accepted version of its own. */
  predicate MarksTrue(m: map<nat, ChapterState>, accepted: map<nat, nat>) {
    forall c | c in m && m[c] == Accepted :: c in accepted
  }

  /** An in-flight workflow is the running chapter's own, unless the book is being revised. */
  predicate FlightOwn(r: Run, workflows: map<nat, Workflow>, accepted: map<nat, nat>) {
    r.workflow.Some? ==>
      && r.workflow.value in workflows
      && (workflows[r.workflow.value].status.WorkflowCompleted? ==> workflows[r.workflow.value].chapter in accepted)
      && (|| AllAccepted(r.total, r.chapters)
          || (r.current == Some(workflows[r.workflow.value].chapter)
              && StateIs(r.chapters, workflows[r.workflow.value].chapter, Running)))
  }

  predicate HandOwn(workflows: map<nat, Workflow>, pc: Pc) {
    match pc
    case Flight(c, w, _) => w in workflows && workflows[w].chapter == c
    case Ended(c, w, _, _) => w in workflows && workflows[w].chapter == c
    case _ => true
  }

  predicate Owned(s: Sys) {
    && MarksTrue(s.db.run.chapters, s.db.accepted)
    && FlightOwn(s.db.run, s.db.workflows, s.db.accepted)
    && HandOwn(s.db.workflows, s.pc)
  }

  /** What ownership needs of the general invariant. */
  ghost predicate Places(s: Sys) {
    var r := s.db.run;
    && Covers(r.chapters, r.total)
    && CurrentInv(r.chapters, r.current)
    && PlaceInv(r.chapters, r.total, r.current, r.workflow, s.pc)
    && (HasEnded(s.pc) ==> s.pc.workflow in s.db.workflows && s.pc.status == s.db.workflows[s.pc.workflow].status)
  }

  lemma InvPlaces(s: Sys)
    requires Inv(s)
    ensures Places(s)
  {
    hide JobInv, IndexInv, CountInv, TaskInv, CheckInv, SnapshotInv, CompletionInv, ReviewInv, FlightInv;
  }

  lemma InitialOwned(s: Sys)
    requires Initial(s)
    ensures Owned(s)
  {}

  lemma SyncOwned(s: Sys, t: Sys)
    requires Places(s) && Owned(s) && Execute(s, SyncAccepted) == Some(t) && !OpensWindow(s, t)
    ensures Owned(t)
  {}

  lemma MarkOwned(s: Sys, t: Sys)
    requires Places(s) && Owned(s) && Execute(s, MarkChapter) == Some(t)
    ensures Owned(t)
  {}

  lemma AttachOwned(s: Sys, id: nat, t: Sys)
    requires Places(s) && Owned(s) && Execute(s, Attach(id)) == Some(t)
    ensures Owned(t)
  {}

  lemma RecordOwned(s: Sys, j: nat, t: Sys)
    requires Places(s) && Owned(s) && Execute(s, RecordChapter(j)) == Some(t)
    ensures Owned(t)
  {
    hide InMode;
  }

  /** Steps that touch nothing ownership speaks of. */
  predicate Untouched(d: Db, e: Db) {
    && e.workflows == d.workflows && e.accepted == d.accepted
    && e.run.chapters == d.run.chapters && e.run.total == d.run.total
    && e.run.current == d.run.current && e.run.workflow == d.run.workflow
  }

  lemma UntouchedOwned(s: Sys, t: Sys)
    requires Owned(s) && Untouched(s.db, t.db) && !t.pc.Flight? && !t.pc.Ended?
    ensures Owned(t)
  {}

  lemma ExecuteOwned(s: Sys, a: Action, t: Sys)
    requires Owned(s) && Execute(s, a) == Some(t)
    requires !a.SyncAccepted? && !a.MarkChapter? && !a.Attach? && !a.RecordChapter?
    ensures Owned(t)
  {
    hide Owned, Untouched, Chosen, GateResult, AfterResult, CheckResult, Recordable, Record, UpdateUsage;
    if a.Initialize? || a.Choose? || a.PassGate? { BeginsUntouched(s, a, t); } else { EndsUntouched(s, a, t); }
    UntouchedOwned(s, t);
  }

  lemma BeginsUntouched(s: Sys, a: Action, t: Sys)
    requires Execute(s, a) == Some(t) && (a.Initialize? || a.Choose? || a.PassGate?)
    ensures Untouched(s.db, t.db) && !t.pc.Flight? && !t.pc.Ended?
  {
    hide OverBudget, InitialStatus, Move;
  }

  lemma EndsUntouched(s: Sys, a: Action, t: Sys)
    requires Execute(s, a) == Some(t) && (a.SettleUsage? || a.AfterChapter? || a.CheckPeriodically? || a.FinishReview?)
    ensures Untouched(s.db, t.db) && !t.pc.Flight? && !t.pc.Ended?
  {
    hide Spent, Move;
  }

  lemma StartTaskOwned(s: Sys, a: Action, t: Sys)
    requires Places(s) && Owned(s) && ReviewStep(s, a) == Some(t) && a.StartTask?
    ensures Owned(t)
  {
    hide CurrentInv;
  }

  lemma ReviewOwned(s: Sys, a: Action, t: Sys)
    requires Owned(s) && ReviewStep(s, a) == Some(t) && !a.StartTask?
    ensures Owned(t)
  {
    hide Owned;
    UntouchedOwned(s, t);
  }

  lemma WorkflowOwned(s: Sys, a: Action, t: Sys)
    requires Places(s) && Owned(s) && WorkflowStep(s, a) == Some(t)
    ensures Owned(t)
  {
    hide CurrentInv, Covers;
  }

  lemma EnvironmentOwned(s: Sys, a: Action, t: Sys)
    requires Owned(s) && Environment(s, a) == Some(t)
    ensures Owned(t)
  {}

  lemma StepOwned(s: Sys, t: Sys)
    requires Inv(s) && Owned(s) && Step(s, t) && !OpensWindow(s, t)
    ensures Owned(t)
  {
    hide Inv, Owned, Places, OpensWindow, Execute, ReviewStep, WorkflowStep, Environment;
    var a :| Fire(s, a) == Some(t);
    InvPlaces(s);
    match a
    case SyncAccepted => SyncOwned(s, t);
    case MarkChapter => MarkOwned(s, t);
    case Attach(id) => AttachOwned(s, id, t);
    case RecordChapter(j) => RecordOwned(s, j, t);
    case StartTask(_) => StartTaskOwned(s, a, t);
    case _ =>
      if Execute(s, a) == Some(t) { ExecuteOwned(s, a, t); }
      else if ReviewStep(s, a) == Some(t) { ReviewOwned(s, a, t); }
      else if WorkflowStep(s, a) == Some(t) { WorkflowOwned(s, a, t); }
      else { EnvironmentOwned(s, a, t); }
  }

  lemma {:induction false} RunOwned(t: seq<Sys>, n: nat)
    requires IsRun(t) && n < |t|
    requires forall i | 0 <= i < n :: !OpensWindow(t[i], t[i + 1])
    ensures Owned(t[n])
    decreases n
  {
    hide Inv, Owned, OpensWindow;
    if n == 0 {
      InitialOwned(t[0]);
    } else {
      RunOwned(t, n - 1);
      RunKeeps(t, n - 1);
      StepOwned(t[n - 1], t[n]);
    }
  }

  /**
   As long as no synchronisation opened the window, a running chapter with a
   workflow in flight has its own one, the worker only ever works on and records
   a chapter's own workflow, and every chapter marked accepted has an accepted version.
   */
  lemma OwnershipHolds(t: seq<Sys>, n: nat)
    requires IsRun(t) && n < |t|
    requires forall i | 0 <= i < n :: !OpensWindow(t[i], t[i + 1])
    ensures var d, pc := t[n].db, t[n].pc;
      && MarksTrue(d.run.chapters, d.accepted)
      && (d.run.workflow.Some? && AnyIn(d.run.chapters, Running) ==>
            && d.run.workflow.value in d.workflows
            && d.run.current == Some(d.workflows[d.run.workflow.value].chapter))
      && (pc.Flight? || pc.Ended? ==> pc.workflow in d.workflows && d.workflows[pc.workflow].chapter == pc.chapter)
      && (pc.Gate? ==> d.run.workflow.None?)
  {
    hide Inv;
    RunOwned(t, n);
    RunKeeps(t, n);
    InvPlaces(t[n]);
  }

  // --------------------------------------------------------- the window opened

  predicate OwnWorkflow(d: Db, c: nat) {
    var w := CurrentWorkflow(d.run, c);
    w.Some? ==> w.value in d.workflows && d.workflows[w.value].chapter == c
  }

  /**
   In every reachable state in which a chapter is scheduled, marking it leaves it
   with a workflow of its own, or none, if and only if the run row has no workflow id.
   */
  lemma InheritanceExactly(t: seq<Sys>, n: nat)
    requires IsRun(t) && n < |t| && t[n].pc.Gate?
    ensures OwnWorkflow(MarkRunning(t[n].db, t[n].pc.chapter), t[n].pc.chapter) <==> t[n].db.run.workflow.None?
  {
    RunKeeps(t, n);
    Inheritance(t[n]);
  }

  lemma Inheritance(s: Sys)
    requires Inv(s) && s.pc.Gate?
    ensures OwnWorkflow(MarkRunning(s.db, s.pc.chapter), s.pc.chapter) <==> s.db.run.workflow.None?
    ensures s.db.run.workflow.Some? ==>
              && s.db.run.workflow.value in s.db.workflows
              && s.db.workflows[s.db.run.workflow.value].chapter != s.pc.chapter
  {
    hide JobInv, IndexInv, CountInv, TaskInv, CheckInv, SnapshotInv, CompletionInv, ReviewInv;
    assert s.db.run.current != Some(s.pc.chapter) || s.db.run.workflow.None?;
  }
}
