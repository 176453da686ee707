/**
 The run row and the tables around it as one object that the transactions of
 `BookWorkflowApplicationService` and `BookRunService` update in place. Every
 method is proved against the function of `BookModel` that specifies it.
 */
module BookRows {
  import opened Options
  import opened BookModel
  import opened BookMachine
  import opened BookUsage

  lemma DoneSplits(m: map<nat, ChapterState>, others: set<nat>)
    requires others == set k | k in m && (m[k] == ChapterFailed || m[k] == NeedsReview)
    ensures |DoneSet(m)| == |AcceptedSet(m)| + |others|
  {
    assert DoneSet(m) == AcceptedSet(m) + others;
  }

  class BookRun {
    // columns of the run row
    const total: nat
    const maxRounds: nat
    var status: RunStatus
    var chapters: map<nat, ChapterState>
    var jobMap: map<nat, nat>
    var current: Option<nat>
    var workflow: Option<nat>
    var accepted: nat
    var completed: nat
    var needsReview: nat
    var progress: nat
    var round: nat
    var snapshot: Option<nat>
    var best: Option<nat>
    var checks: seq<nat>
    var calls: nat
    var tokens: nat
    var cost: nat
    var caps: Usage
    // the tables
    const top: nat
    const interval: nat
    var jobs: map<nat, Job>
    var keys: map<ChildKey, nat>
    var successes: multiset<nat>
    var workflows: map<nat, Workflow>
    var versions: map<nat, nat>
    var callRows: seq<Call>
    var snapshots: map<nat, map<nat, nat>>
    var evaluations: seq<Evaluation>

    /** The columns as one value. */
    function Row(): Run
      reads this
    {
      Run(status, total, chapters, jobMap, current, workflow, accepted, completed, needsReview, progress, round,
          maxRounds, snapshot, best, checks, Usage(calls, tokens, cost), caps)
    }

    function Rows(): Db
      reads this
    {
      Db(Row(), top, interval, jobs, keys, successes, workflows, versions, callRows, snapshots, evaluations)
    }

    constructor (d: Db)
      ensures Rows() == d
    {
      status, total, chapters, jobMap, current, workflow :=
        d.run.status, d.run.total, d.run.chapters, d.run.jobMap, d.run.current, d.run.workflow;
      accepted, completed, needsReview, progress := d.run.accepted, d.run.completed, d.run.needsReview, d.run.progress;
      round, maxRounds, snapshot, best, checks :=
        d.run.round, d.run.maxRounds, d.run.snapshot, d.run.best, d.run.checks;
      calls, tokens, cost, caps := d.run.usage.calls, d.run.usage.tokens, d.run.usage.cost, d.run.caps;
      top, interval, jobs, keys, successes := d.top, d.interval, d.jobs, d.keys, d.successes;
      workflows, versions, callRows, snapshots, evaluations :=
        d.workflows, d.accepted, d.calls, d.snapshots, d.evaluations;
    }

    /** Others committed: status, limits, and rows of the shared tables. */
    method Reload(d: Db)
      modifies this`status, this`caps, this`jobs, this`workflows, this`versions, this`callRows
      ensures status == d.run.status && caps == d.run.caps
      ensures jobs == d.jobs && workflows == d.workflows && versions == d.accepted && callRows == d.calls
    {
      status, caps := d.run.status, d.run.caps;
      jobs, workflows, versions, callRows := d.jobs, d.workflows, d.accepted, d.calls;
    }

    /** `transition_book_run`; not ok is the raised error, and then nothing has changed. */
    method Transition(target: RunStatus) returns (ok: bool)
      modifies this`status
      ensures ok == Move(old(status), target).Some?
      ensures status == if ok then target else old(status)
    {
      if target == status { return true; }
      if target !in Allowed(status) { return false; }
      status := target;
      return true;
    }

    method Initialize() returns (ok: bool)
      modifies this`status
      ensures ok == InitialStatus(old(Row())).Some?
      ensures status == if ok then InitialStatus(old(Row())).value else old(status)
      ensures ok <==> old(status) in {Pending, PlanningValidation, Generating, Paused, BudgetBlocked, GlobalReview}
      ensures ok ==> status == if old(status) == GlobalReview || (old(status) in {Paused, BudgetBlocked}
                                                                  && completed == total)
                               then GlobalReview else Generating
    {
      match status {
        case Pending =>
          ok := Transition(PlanningValidation);
          ok := Transition(Generating);
        case PlanningValidation =>
          ok := Transition(Generating);
        case Paused =>
          ok := Transition(if completed == total then GlobalReview else Generating);
        case BudgetBlocked =>
          ok := Transition(if completed == total then GlobalReview else Generating);
        case Generating => ok := true;
        case GlobalReview => ok := true;
        case _ => ok := false;
      }
    }

    /** Mark every chapter that has an accepted version, one chapter after the other. */
    method SyncedStatuses() returns (statuses: map<nat, ChapterState>)
      requires forall c :: c in chapters <==> 1 <= c <= total
      ensures statuses == SyncedMap(chapters, versions)
      ensures statuses.Keys == chapters.Keys
      ensures forall c | c in chapters :: statuses[c] == if c in versions then Accepted else chapters[c]
    {
      statuses := chapters;
      var c := 1;
      while c <= total
        invariant 1 <= c <= total + 1
        invariant forall k :: k in statuses <==> 1 <= k <= total
        invariant forall k | 1 <= k <= total ::
          statuses[k] == if k < c && k in versions then Accepted else chapters[k]
      {
        if c in versions { statuses := statuses[c := Accepted]; }
        c := c + 1;
      }
    }

    method SyncAlreadyAccepted()
      requires total > 0 && forall c :: c in chapters <==> 1 <= c <= total
      modifies this`chapters, this`accepted, this`completed, this`progress
      ensures chapters == SyncedMap(old(chapters), versions)
      ensures accepted == |AcceptedSet(chapters)| && completed == |DoneSet(chapters)|
      ensures progress == Progress(completed, total)
    {
      var statuses := SyncedStatuses();
      var others := set k | k in statuses && (statuses[k] == ChapterFailed || statuses[k] == NeedsReview);
      DoneSplits(statuses, others);
      hide *;
      chapters := statuses;
      accepted := |AcceptedSet(statuses)|;
      completed := accepted + |others|;
      progress := Progress(completed, total);
    }

    /** The gate before a scheduled chapter: passed, blocked, or refused with an error. */
    method BudgetGate() returns (blocked: bool, ok: bool)
      modifies this`status
      ensures blocked == OverBudget(old(Row()))
      ensures blocked <==> calls + 5 > caps.calls || tokens + 30000 > caps.tokens || cost > caps.cost
      ensures ok == (blocked ==> Move(old(status), BudgetBlocked).Some?)
      ensures ok <==> (blocked ==> old(status) in {Generating, GlobalReview, GlobalRevision, BudgetBlocked})
      ensures status == if blocked && ok then BudgetBlocked else old(status)
    {
      blocked, ok := false, true;
      if calls + ESTIMATED_CALLS > caps.calls || tokens + ESTIMATED_TOKENS > caps.tokens || cost > caps.cost {
        ok := Transition(BudgetBlocked);
        blocked := true;
      }
    }

    method MarkChapterRunning(c: nat)
      modifies this`chapters, this`current
      ensures Row() == RowMarked(old(Row()), c)
      ensures chapters == old(chapters)[c := Running] && current == Some(c)
    {
      chapters := chapters[c := Running];
      current := Some(c);
    }

    /** The callback of a starting chapter workflow, in the transaction that inserts its row. */
    method LinkWorkflow(c: nat, w: nat)
      modifies this`workflows, this`workflow, this`jobs
      ensures workflows == old(workflows)[w := Workflow(c, WorkflowRunning)]
      ensures workflow == Some(w) && jobs == SetJobWorkflow(old(jobs), top, Some(w))
    {
      workflows := workflows[w := Workflow(c, WorkflowRunning)];
      workflow := Some(w);
      if top in jobs { jobs := jobs[top := jobs[top].(workflow := Some(w))]; }
    }

    method ReleaseTopJob()
      modifies this`jobs
      ensures jobs == SetJobWorkflow(old(jobs), top, None)
    {
      if top in jobs { jobs := jobs[top := jobs[top].(workflow := None)]; }
    }

    /** The child job for a recorded workflow, found by its key or inserted with its success event. */
    method ChildJob(c: nat, w: nat, j: nat) returns (child: nat)
      modifies this`jobs, this`keys, this`successes
      ensures var known := ChildKey(c, w) in old(keys);
        && child == (if known then old(keys)[ChildKey(c, w)] else j)
        && jobs == (if known then old(jobs) else old(jobs)[j := Job(Some(w), true, Some(top), Some(c))])
        && successes == (if known then old(successes) else old(successes)[j := old(successes)[j] + 1])
        && keys == old(keys)[ChildKey(c, w) := child]
    {
      var key := ChildKey(c, w);
      if key in keys { return keys[key]; }
      jobs := jobs[j := Job(Some(w), true, Some(top), Some(c))];
      successes := successes[j := successes[j] + 1];
      keys := keys[key := j];
      return j;
    }

    /** Note how chapter `c` ended and recount all of them. */
    method NoteChapter(c: nat, end: ChapterState, child: nat)
      requires total > 0
      modifies this`chapters, this`jobMap, this`workflow, this`completed, this`accepted, this`needsReview, this`progress
      ensures chapters == old(chapters)[c := end] && jobMap == old(jobMap)[c := child] && workflow == None
      ensures completed == |DoneSet(chapters)| && accepted == |AcceptedSet(chapters)|
      ensures needsReview == |ReviewSet(chapters)| && progress == Progress(completed, total)
    {
      chapters := chapters[c := end];
      jobMap := jobMap[c := child];
      workflow := None;
      Recount();
    }

    method Recount()
      requires total > 0
      modifies this`completed, this`accepted, this`needsReview, this`progress
      ensures completed == |DoneSet(chapters)| && accepted == |AcceptedSet(chapters)|
      ensures needsReview == |ReviewSet(chapters)| && progress == Progress(completed, total)
    {
      completed := |DoneSet(chapters)|;
      accepted := |AcceptedSet(chapters)|;
      needsReview := |ReviewSet(chapters)|;
      progress := Progress(completed, total);
    }

    /**
     Sum over the linked workflows, `w` among them. The fallbacks to the amounts
     of `w` alone, taken when a sum is zero, never make a difference.
     */
    method RefreshUsage(w: nat)
      modifies this`calls, this`tokens, this`cost
      ensures ColumnsOf(Usage(calls, tokens, cost), callRows, PaidCalls(old(Rows()), Some(w)))
      ensures Usage(calls, tokens, cost) == Spent(callRows, ChildWorkflows(jobs, top) + {w})
    {
      hide ColumnsOf, PaidCalls;
      UpdateCountsCalls(Rows(), w);
      var own := Spent(callRows, {w});
      var ids := ChildWorkflows(jobs, top);
      if w !in ids { ids := ids + {w}; }
      assert ids == ChildWorkflows(jobs, top) + {w};
      var all := Spent(callRows, ids);
      calls := if all.calls != 0 then all.calls else own.calls;
      tokens := if all.tokens != 0 then all.tokens else own.tokens;
      cost := if all.cost != 0 then all.cost else if own.cost != 0 then own.cost else 0;
      SpentMonotone(callRows, {w}, ids);
    }

    method RecordPeriodicCheck(c: nat, critical: bool) returns (ok: bool)
      modifies this`checks, this`status
      ensures ok == RowChecked(old(Row()), c, critical).Some?
      ensures Row() == if ok then RowChecked(old(Row()), c, critical).value else old(Row())
      ensures !critical ==> ok
      ensures critical ==> (ok <==> old(status) in {Pending, PlanningValidation, Generating, GlobalReview,
                                                    GlobalRevision, Paused})
      ensures ok ==> checks == old(checks) + [c] && status == if critical then Paused else old(status)
    {
      ok := true;
      if critical { ok := Transition(Paused); }
      if ok { checks := checks + [c]; }
    }

    method MarkGlobalReview()
      modifies this`status, this`progress
      ensures Row() == RowReviewing(old(Row()))
      ensures progress == 80 && status == if old(status) == Generating then GlobalReview else old(status)
    {
      if status == Generating {
        var ok := Transition(GlobalReview);
      }
      progress := 80;
    }

    method FinishReviewed(sid: nat) returns (ok: bool)
      modifies this`status, this`snapshot, this`best, this`progress
      ensures ok == RowCompleted(old(Row()), sid).Some?
      ensures Row() == if ok then RowCompleted(old(Row()), sid).value else old(Row())
      ensures ok <==> old(status) in {GlobalReview, Completed}
      ensures ok ==> status == Completed && snapshot == Some(sid) && best == Some(sid) && progress == 100
    {
      hide Allowed;
      TableByTarget(status);
      ghost var was := Row();
      ok := Transition(Completed);
      assert Row() == was.(status := status);
      if ok { snapshot, best, progress := Some(sid), Some(sid), 100; }
    }

    method FinishUnreviewed() returns (ok: bool)
      modifies this`status, this`progress
      ensures ok == RowUnreviewed(old(Row())).Some?
      ensures Row() == if ok then RowUnreviewed(old(Row())).value else old(Row())
      ensures ok <==> old(status) in {Generating, GlobalReview, GlobalRevision, Completed, CompletedNeedsReview}
      ensures ok ==> progress == 100 && status == if old(status) == Completed then Completed else CompletedNeedsReview
    {
      hide Allowed;
      TableByTarget(status);
      ghost var was := Row();
      ok := true;
      if status != CompletedNeedsReview && status != Completed { ok := Transition(CompletedNeedsReview); }
      if ok { progress := 100; }
      assert Row() == was.(status := status, progress := progress);
    }

    /** Open a revision round, or end the run in need of review. */
    method DecideRevision(targeted: bool) returns (revise: bool, ok: bool)
      modifies this`status, this`progress, this`round
      ensures revise == MayRevise(old(Row()), targeted)
      ensures ok == RowRevised(old(Row()), targeted).Some?
      ensures Row() == if ok then RowRevised(old(Row()), targeted).value else old(Row())
      ensures revise <==> targeted && old(round) < maxRounds
      ensures revise ==> (ok <==> old(status) in {GlobalReview, GlobalRevision})
      ensures !revise ==> (ok <==> old(status) in {Generating, GlobalReview, GlobalRevision, CompletedNeedsReview})
      ensures ok && revise ==> status == GlobalRevision && round == old(round) + 1 && progress == old(progress)
      ensures ok && !revise ==> status == CompletedNeedsReview && round == old(round) && progress == 100
    {
      hide Allowed;
      TableByTarget(status);
      ghost var was := Row();
      if !targeted || round >= maxRounds {
        revise := false;
        ok := Transition(CompletedNeedsReview);
        if ok { progress := 100; }
        assert Row() == was.(status := status, progress := progress);
      } else {
        revise := true;
        ok := Transition(GlobalRevision);
        if ok { round := round + 1; }
        assert Row() == was.(status := status, round := round);
      }
    }

    /** The versions a snapshot is made of, unless some chapter has none. */
    method SelectedVersions() returns (selected: Option<map<nat, nat>>)
      ensures selected.None? <==> exists c :: 1 <= c <= total && c !in versions
      ensures selected.Some? ==>
        && (forall c :: c in selected.value <==> 1 <= c <= total)
        && (forall c | 1 <= c <= total :: c in versions && selected.value[c] == versions[c])
    {
      var found: map<nat, nat> := map[];
      var c := 1;
      while c <= total
        invariant 1 <= c <= total + 1
        invariant forall k :: k in found <==> 1 <= k < c
        invariant forall k | 1 <= k < c :: k in versions && found[k] == versions[k]
      {
        if c !in versions { return None; }
        found := found[c := versions[c]];
        c := c + 1;
      }
      return Some(found);
    }

    /** Insert the snapshot with these versions unless it is there already. */
    method BuildSnapshot(sid: nat, selected: map<nat, nat>)
      modifies this`snapshots, this`snapshot, this`best
      ensures snapshots == if sid in old(snapshots) then old(snapshots) else old(snapshots)[sid := selected]
      ensures Row() == if sid in old(snapshots) then old(Row()) else RowSnapped(old(Row()), sid)
      ensures sid !in old(snapshots) ==>
        snapshot == Some(sid) && best == if old(best) == None then Some(sid) else old(best)
    {
      if sid !in snapshots {
        snapshots := snapshots[sid := selected];
        snapshot := Some(sid);
        if best == None { best := Some(sid); }
      }
    }

    /** `mark_paused`, `mark_cancelled` and `mark_failed` after `execute` was left. */
    method HandleStop(reason: Reason)
      modifies this`status
      ensures status == HandledStatus(old(status), reason)
      ensures reason == PauseRequested ==>
        (status == if old(status) in {Pending, PlanningValidation, Generating, GlobalReview, GlobalRevision} then Paused
                   else old(status))
      ensures reason == CancelAccepted ==>
        (status == if old(status) in {PlanningValidation, Generating, GlobalReview, GlobalRevision, CancelRequested}
                   then Cancelled else old(status))
      ensures reason == ExecutionError ==>
        (status == if old(status) in {Pending, PlanningValidation, Generating, GlobalReview, GlobalRevision} then Failed
                   else old(status))
    {
      if status in {Completed, CompletedNeedsReview, Cancelled, Failed} { return; }
      var ok;
      match reason {
        case PauseRequested =>
          if status != BudgetBlocked { ok := Transition(Paused); }
        case CancelAccepted =>
          ok := true;
          if status != CancelRequested { ok := Transition(CancelRequested); }
          if ok { ok := Transition(Cancelled); }
        case ExecutionError =>
          ok := Transition(Failed);
      }
    }

    // ------------------------------------------------- requests of `BookRunService`

    /** `request_cancel`; not ok is the raised error, and then nothing has changed. */
    method RequestCancellation() returns (ok: bool)
      modifies this`status
      ensures ok == CancellationStatus(old(status)).Some?
      ensures status == if ok then CancellationStatus(old(status)).value else old(status)
      ensures !ok <==> old(status) in {Pending, Completed, CompletedNeedsReview, Cancelled, Failed}
      ensures ok ==> status == if old(status) in {Paused, BudgetBlocked} then Cancelled else CancelRequested
    {
      if status in {Completed, CompletedNeedsReview, Cancelled, Failed} {
        ok := false;
      } else if status in {Paused, BudgetBlocked} {
        ok := Transition(Cancelled);
      } else {
        ok := true;
        if status != CancelRequested { ok := Transition(CancelRequested); }
      }
    }

    static predicate Covered(limit: Option<nat>, used: nat) {
      limit.Some? ==> limit.value >= used
    }

    static function Limit(limit: Option<nat>, now: nat): nat {
      match limit
      case Some(v) => v
      case None => now
    }

    /** `resume`: only a paused or blocked run, and only with limits that cover what is used. */
    method ResumeRun(pending: bool, maxCalls: Option<nat>, maxTokens: Option<nat>, maxCost: Option<nat>)
        returns (ok: bool)
      modifies this`status, this`caps
      ensures ok ==>
        && MayResume(old(Row()), status, caps)
        && caps.calls == (if maxCalls.Some? then maxCalls.value else old(caps).calls)
        && caps.tokens == (if maxTokens.Some? then maxTokens.value else old(caps).tokens)
        && caps.cost == (if maxCost.Some? then maxCost.value else old(caps).cost)
      ensures ok ==>
        status == if pending then PlanningValidation else if completed == total then GlobalReview else Generating
      ensures !ok ==> status == old(status) && caps == old(caps)
      ensures ok <==>
        && (old(status) == Paused || (old(status) == BudgetBlocked && !pending))
        && (maxCalls.Some? ==> maxCalls.value >= calls)
        && (maxTokens.Some? ==> maxTokens.value >= tokens)
        && (maxCost.Some? ==> maxCost.value >= cost)
    {
      if status !in {Paused, BudgetBlocked} { return false; }
      if !Covered(maxCost, cost) || !Covered(maxTokens, tokens) || !Covered(maxCalls, calls) { return false; }
      ok := Transition(if pending then PlanningValidation else if completed == total then GlobalReview else Generating);
      if !ok { return; }
      caps := Usage(Limit(maxCalls, caps.calls), Limit(maxTokens, caps.tokens), Limit(maxCost, caps.cost));
    }
  }
}
