/**
 What the deciding steps of a run come to, in every reachable state: the entry, the
 budget gate, a periodic check, the end of a review, and the handler. A refused status
 change always means that a cancellation is pending.
 */
module BookOutcomes {
  import opened Options
  import opened BookModel
  import opened BookMachine
  import opened BookInvariant
  import opened BookPreservation
  import opened BookCauses

  /** The gate lets a chapter through exactly when 5 calls and 30000 tokens are left and the cost is within its cap. */
  lemma GateExactly(t: seq<Sys>, n: nat)
    requires IsRun(t) && n + 1 < |t| && Fire(t[n], PassGate) == Some(t[n + 1])
    ensures var r, q, used, caps := t[n].db.run, t[n + 1].db.run, t[n].db.run.usage, t[n].db.run.caps;
      if used.calls + 5 <= caps.calls && used.tokens + 30000 <= caps.tokens && used.cost <= caps.cost
      then t[n + 1].pc == Picked(t[n].pc.chapter) && t[n + 1].db == t[n].db
      else if r.status.CancelRequested? then t[n + 1].pc == Stopping(ExecutionError) && t[n + 1].db == t[n].db
      else t[n + 1].pc == Stopping(PauseRequested) && q == r.(status := BudgetBlocked)
  {
    hide IsRun;
    StatusesByPlace(t, n);
  }

  /**
   A critical check pauses the run and is noted, unless a cancellation is pending: then
   it is not even noted. Any other check is noted and the loop goes on.
   */
  lemma CheckDecides(t: seq<Sys>, n: nat, critical: bool)
    requires IsRun(t) && n + 1 < |t| && Fire(t[n], CheckPeriodically(critical)) == Some(t[n + 1])
    ensures var r, q, c := t[n].db.run, t[n + 1].db.run, t[n].pc.chapter;
      if !critical then t[n + 1].pc == Top && q == r.(checks := r.checks + [c])
      else if r.status.CancelRequested? then t[n + 1].pc == Stopping(ExecutionError) && q == r
      else t[n + 1].pc == Stopping(PauseRequested) && q == r.(checks := r.checks + [c], status := Paused)
  {
    hide IsRun;
    StatusesByPlace(t, n);
  }

  /** A passed analysis completes the run with the analysed snapshot, if and only if no cancellation is pending. */
  lemma CompletesExactly(t: seq<Sys>, n: nat)
    requires IsRun(t) && n + 1 < |t| && Fire(t[n], CompleteBook) == Some(t[n + 1])
    ensures var r, q, sid := t[n].db.run, t[n + 1].db.run, t[n].pc.snapshot;
      && t[n].pc.passed
      && (q.status.Completed? <==> !r.status.CancelRequested?)
      && (if r.status.CancelRequested? then t[n + 1].pc == Stopping(ExecutionError) && q == r
          else t[n + 1].pc == Returned && q.snapshot == q.best == Some(sid) && q.progress == 100)
  {
    hide IsRun;
    StatusesByPlace(t, n);
  }

  /**
   After a first analysis that failed a round is opened if and only if a revision was
   recommended, a round is left and no cancellation is pending; without a cancellation
   the run is otherwise left for review.
   */
  lemma RoundOpensExactly(t: seq<Sys>, n: nat, tasks: seq<nat>)
    requires IsRun(t) && n + 1 < |t| && Fire(t[n], DecideRevision(tasks)) == Some(t[n + 1])
    ensures var r, q := t[n].db.run, t[n + 1].db.run;
      && !t[n].pc.passed && !t[n].pc.second
      && (q.round == r.round + 1 <==>
            t[n].pc.targeted && r.round < r.maxRounds && !r.status.CancelRequested?)
      && (if r.status.CancelRequested? then t[n + 1].pc == Stopping(ExecutionError) && q == r
          else if t[n].pc.targeted && r.round < r.maxRounds
          then t[n + 1].pc == Revising(tasks) && q == r.(status := GlobalRevision, round := r.round + 1)
          else t[n + 1].pc == Returned && q == r.(status := CompletedNeedsReview, progress := 100))
  {
    hide IsRun;
    StatusesByPlace(t, n);
  }

  /** A book that needs review, or whose second analysis failed, is left for review unless a cancellation is pending. */
  lemma LeftForReviewExactly(t: seq<Sys>, n: nat)
    requires IsRun(t) && n + 1 < |t| && Fire(t[n], FinishReview) == Some(t[n + 1])
    ensures var r, q := t[n].db.run, t[n + 1].db.run;
      && (t[n].pc.FinishingReview? || (t[n].pc.Analysed? && t[n].pc.second && !t[n].pc.passed))
      && (if r.status.CancelRequested? then t[n + 1].pc == Stopping(ExecutionError) && q == r
          else t[n + 1].pc == Returned && q == r.(status := CompletedNeedsReview, progress := 100))
  {
    hide IsRun;
    StatusesByPlace(t, n);
  }

  /** Where an execution starts: in the review when a stopped run had finished all its chapters, else in the loop. */
  lemma EntersExactly(s: Sys, t: Sys)
    requires Fire(s, Initialize) == Some(t)
    ensures var r := s.db.run;
      if r.status == GlobalReview || (r.status in {Paused, BudgetBlocked} && r.completed == r.total)
      then t == s.(db := s.db.(run := r.(status := GlobalReview)), pc := Top)
      else if r.status in {Pending, PlanningValidation, Generating, Paused, BudgetBlocked}
      then t == s.(db := s.db.(run := r.(status := Generating)), pc := Top)
      else t == s.(pc := Stopping(ExecutionError))
  {}

  /**
   What the handler makes of a run. A pause pauses every run that works or waits for
   its start, a blocked one stays blocked; a cancellation ends every working run, also
   one that was asked to cancel; an error ends every run that works and was not.
   */
  lemma HandledExactly(s: Sys, t: Sys)
    requires Fire(s, Handle) == Some(t)
    ensures s.pc.Stopping? && t.pc.Idle? && t.db == s.db.(run := s.db.run.(status := t.db.run.status))
    ensures var was, now := s.db.run.status, t.db.run.status;
      match s.pc.reason
      case PauseRequested =>
        now == if was in {Pending, PlanningValidation, Generating, GlobalReview, GlobalRevision} then Paused else was
      case CancelAccepted =>
        now == if was in {PlanningValidation, Generating, GlobalReview, GlobalRevision, CancelRequested}
               then Cancelled else was
      case ExecutionError =>
        now == if was in {Pending, PlanningValidation, Generating, GlobalReview, GlobalRevision} then Failed else was
  {
    TableByTarget(s.db.run.status);
    hide Allowed;
  }

  /** Where a cancellation request takes a run, and which runs refuse it. */
  lemma CancelledExactly(s: Sys)
    ensures var was := s.db.run.status;
      match Fire(s, RequestCancel)
      case None => was in {Pending, Completed, CompletedNeedsReview, Cancelled, Failed}
      case Some(t) =>
        && t == s.(db := s.db.(run := s.db.run.(status := t.db.run.status)))
        && (if was in {Paused, BudgetBlocked} then t.db.run.status == Cancelled
            else was in {PlanningValidation, Generating, GlobalReview, GlobalRevision, CancelRequested}
                 && t.db.run.status == CancelRequested)
  {
    TableByTarget(s.db.run.status);
    hide Allowed;
  }

  /** Which resumptions happen, and what they change: the status and the limits. */
  lemma ResumedExactly(s: Sys, target: RunStatus, caps: Usage)
    ensures var r := s.db.run;
      match Fire(s, Resume(target, caps))
      case None =>
        || r.status !in {Paused, BudgetBlocked}
        || !(|| (target == PlanningValidation && r.status == Paused)
             || target == if r.completed == r.total then GlobalReview else Generating)
        || (caps.calls < r.usage.calls && caps.calls != r.caps.calls)
        || (caps.tokens < r.usage.tokens && caps.tokens != r.caps.tokens)
        || (caps.cost < r.usage.cost && caps.cost != r.caps.cost)
      case Some(t) =>
        && t == s.(db := s.db.(run := r.(status := target, caps := caps)))
        && r.status in {Paused, BudgetBlocked}
        && (|| (target == PlanningValidation && r.status == Paused)
            || target == if r.completed == r.total then GlobalReview else Generating)
        && (caps.calls >= r.usage.calls || caps.calls == r.caps.calls)
        && (caps.tokens >= r.usage.tokens || caps.tokens == r.caps.tokens)
        && (caps.cost >= r.usage.cost || caps.cost == r.caps.cost)
  {
    TableByTarget(s.db.run.status);
    hide Allowed;
  }

  /** Workflow `w` has been given status `end`, and nothing else of it has changed. */
  predicate Moved(d: Db, e: Db, w: nat, end: WorkflowStatus) {
    w in d.workflows && e.workflows == d.workflows[w := Workflow(d.workflows[w].chapter, end)]
  }

  /** Confirming a cancellation takes a workflow in flight that runs or is paused with it. */
  lemma ConfirmedExactly(s: Sys)
    ensures var d, r := s.db, s.db.run;
      match Fire(s, ConfirmCancel)
      case None => !s.pc.Idle? || !r.status.CancelRequested?
      case Some(t) =>
        && s.pc.Idle? && r.status.CancelRequested? && t.pc == Idle && t.lost == s.lost
        && t.db == d.(run := r.(status := Cancelled), workflows := t.db.workflows)
        && (if r.workflow.Some? && r.workflow.value in d.workflows
               && d.workflows[r.workflow.value].status in {WorkflowRunning, WorkflowPaused}
            then Moved(d, t.db, r.workflow.value, WorkflowCancelled) else t.db.workflows == d.workflows)
  {}

  /** A run without a worker is paused from every working status. */
  lemma PausedExactly(s: Sys)
    ensures var d, r := s.db, s.db.run;
      match Fire(s, PauseIdle)
      case None => !s.pc.Idle? || r.status !in {PlanningValidation, Generating, GlobalReview, GlobalRevision}
      case Some(t) =>
        && s.pc.Idle? && r.status in {PlanningValidation, Generating, GlobalReview, GlobalRevision}
        && t == s.(db := d.(run := r.(status := Paused)))
  {}

  /** A lost lease pauses the workflow in flight if it runs. */
  lemma RecoveredExactly(s: Sys)
    ensures var d, r := s.db, s.db.run;
      var runs := r.workflow.Some? && r.workflow.value in d.workflows
                  && d.workflows[r.workflow.value].status == WorkflowRunning;
      match Fire(s, RecoverLease)
      case None => !s.pc.Idle? || !runs
      case Some(t) =>
        && s.pc.Idle? && runs && t == s.(db := d.(workflows := t.db.workflows))
        && Moved(d, t.db, r.workflow.value, WorkflowPaused)
  {}

  /**
   What others may do to a workflow at any time: move every one that no child job has,
   but for one in flight that the worker has seen end. A completion accepts a version of
   the workflow's own chapter.
   */
  lemma OthersExactly(s: Sys, w: nat, end: WorkflowStatus, version: nat)
    requires !end.WorkflowCompleted?
    ensures var d := s.db;
      var may := w in d.workflows
        && !(exists j | j in d.jobs ::
               d.jobs[j].ours && d.jobs[j].parent == Some(d.top) && d.jobs[j].workflow == Some(w)
               && d.run.workflow != Some(w))
        && (d.run.workflow == Some(w) ==> !(s.pc.Ended? && !s.pc.status.WorkflowPaused?));
      && (match Fire(s, OutsideStatus(w, end))
          case None => !may
          case Some(t) => may && t == s.(db := d.(workflows := t.db.workflows)) && Moved(d, t.db, w, end))
      && (match Fire(s, OutsideCompletion(w, version))
          case None => !may
          case Some(t) =>
            && may && t == s.(db := d.(workflows := t.db.workflows, accepted := t.db.accepted))
            && Moved(d, t.db, w, WorkflowCompleted)
            && t.db.accepted == d.accepted[d.workflows[w].chapter := version])
  {}

  /** Where a request for control, or an error, can stop the worker. */
  lemma RaisedExactly(s: Sys, reason: Reason)
    ensures match Fire(s, Raise(reason))
            case None =>
              || s.pc.Idle? || s.pc.Returned? || s.pc.Stopping?
              || (!reason.ExecutionError? && !s.pc.Picked? && !s.pc.Checking? && !s.pc.Generated?
                  && !(s.pc.Snapped? && !s.pc.second))
            case Some(t) =>
              && !s.pc.Idle? && !s.pc.Returned? && !s.pc.Stopping? && t == s.(pc := Stopping(reason))
              && (reason.ExecutionError? || s.pc.Picked? || s.pc.Checking? || s.pc.Generated?
                  || (s.pc.Snapped? && !s.pc.second))
  {}
}
