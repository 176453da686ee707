/**
 The usage columns: what they mean after any history, that they never shrink, and
 how far the real spending of a generation phase can pass the caps.
 */
module BookUsage {
  import FiniteSets
  import opened Sums
  import opened Options
  import opened BookModel
  import opened BookMachine
  import opened BookInvariant
  import opened BookPreservation
  import opened BookTheorems

  // ------------------------------------------------------------------ the sum

  lemma {:induction false} SpentMonotone(calls: seq<Call>, a: set<nat>, b: set<nat>)
    requires a <= b
    ensures AtMost(Spent(calls, a), Spent(calls, b))
  {
    if calls != [] { SpentMonotone(calls[..|calls| - 1], a, b); }
  }

  /** `all` is the disjoint union of `a` and `b`. */
  ghost predicate Splits(all: set<nat>, a: set<nat>, b: set<nat>) {
    forall w: nat :: (w in all <==> w in a || w in b) && !(w in a && w in b)
  }

  lemma {:induction false} SpentSplits(calls: seq<Call>, all: set<nat>, a: set<nat>, b: set<nat>)
    requires Splits(all, a, b)
    ensures Spent(calls, all) == Add(Spent(calls, a), Spent(calls, b))
  {
    hide *;
    if calls == [] {
      SpentNothing(all);
      SpentNothing(a);
      SpentNothing(b);
      AddInAnyOrder(Zero(), Zero(), Zero());
    } else {
      var last, init := calls[|calls| - 1], calls[..|calls| - 1];
      CountedOnce(last, all, a, b);
      SpentLast(calls, a);
      SpentLast(calls, b);
      SpentLast(calls, all);
      SpentSplits(init, all, a, b);
      AddInAnyOrder(Spent(init, a), Spent(init, b), CallUsage(last));
    }
  }

  lemma AddInAnyOrder(a: Usage, b: Usage, c: Usage)
    ensures Add(Add(a, b), c) == Add(Add(a, c), b) == Add(a, Add(b, c))
    ensures Add(Zero(), Zero()) == Zero()
  {}

  lemma CountedOnce(c: Call, all: set<nat>, a: set<nat>, b: set<nat>)
    requires Splits(all, a, b)
    ensures Counts(c, all) <==> Counts(c, a) || Counts(c, b)
    ensures !(Counts(c, a) && Counts(c, b))
  {}

  lemma SpentDisjoint(calls: seq<Call>, a: set<nat>, b: set<nat>)
    requires a !! b
    ensures Spent(calls, a + b) == Add(Spent(calls, a), Spent(calls, b))
  {
    SpentSplits(calls, a + b, a, b);
  }

  lemma SpentNothing(ws: set<nat>)
    ensures Spent([], ws) == Zero()
  {}

  lemma SpentLast(calls: seq<Call>, ws: set<nat>)
    requires calls != []
    ensures var last, before := calls[|calls| - 1], Spent(calls[..|calls| - 1], ws);
      Spent(calls, ws) == if Counts(last, ws) then Add(before, CallUsage(last)) else before
  {}

  lemma {:induction false} SpentNowhere(calls: seq<Call>)
    ensures Spent(calls, {}) == Zero()
  {
    if calls != [] { SpentNowhere(calls[..|calls| - 1]); }
  }

  /** A call of another workflow does not count. */
  lemma SpentElsewhere(calls: seq<Call>, c: Call, ws: set<nat>)
    requires c.workflow.None? || c.workflow.value !in ws
    ensures Spent(calls + [c], ws) == Spent(calls, ws)
  {
    assert (calls + [c])[..|calls|] == calls;
  }

  // ------------------------------------------------------------ call by call

  function Tokens(calls: seq<Call>): (amounts: seq<nat>)
    ensures |amounts| == |calls| && forall k | 0 <= k < |calls| :: amounts[k] == calls[k].tokens
  {
    seq(|calls|, k requires 0 <= k < |calls| => calls[k].tokens)
  }

  /** An unknown cost adds nothing. */
  function Costs(calls: seq<Call>): (amounts: seq<nat>)
    ensures |amounts| == |calls|
    ensures forall k | 0 <= k < |calls| :: amounts[k] == if calls[k].cost.Some? then calls[k].cost.value else 0
  {
    seq(|calls|, k requires 0 <= k < |calls| => if calls[k].cost.Some? then calls[k].cost.value else 0)
  }

  /** The positions of the succeeded calls of the workflows in `ws`. */
  function SucceededOf(calls: seq<Call>, ws: set<nat>): set<nat> {
    set k | 0 <= k < |calls| && calls[k].succeeded && calls[k].workflow.Some? && calls[k].workflow.value in ws
  }

  /** The columns `u` are those of the calls at the positions `at`: their number, their tokens, their known costs. */
  predicate ColumnsOf(u: Usage, calls: seq<Call>, at: set<nat>) {
    u.calls == |at| && u.tokens == SumAt(Tokens(calls), at) && u.cost == SumAt(Costs(calls), at)
  }

  lemma OneCallMore(calls: seq<Call>, ws: set<nat>)
    requires calls != []
    ensures var n, last, all, before :=
              |calls| - 1, calls[|calls| - 1], SucceededOf(calls, ws), SucceededOf(calls[..|calls| - 1], ws);
      && (forall k | k in before :: k < n)
      && (forall k | 0 <= k < n :: k in all <==> k in before)
      && (n in all <==> last.succeeded && last.workflow.Some? && last.workflow.value in ws)
      && all == if n in all then before + {n} else before
  {}

  lemma ColumnsGrow(u: Usage, calls: seq<Call>, at: set<nat>, all: set<nat>)
    requires calls != [] && ColumnsOf(u, calls[..|calls| - 1], at)
    requires (forall k | k in at :: k < |calls| - 1) && (all == at || all == at + {|calls| - 1})
    ensures ColumnsOf(if |calls| - 1 in all then Add(u, CallUsage(calls[|calls| - 1])) else u, calls, all)
  {
    var n := |calls| - 1;
    assert Tokens(calls)[..n] == Tokens(calls[..n]) && Costs(calls)[..n] == Costs(calls[..n]);
    SumAtSame(Tokens(calls[..n]), at, all);
    SumAtSame(Costs(calls[..n]), at, all);
  }

  /** The sum counts exactly the succeeded calls of the given workflows, each once. */
  lemma {:induction false} SpentByCalls(calls: seq<Call>, ws: set<nat>)
    ensures ColumnsOf(Spent(calls, ws), calls, SucceededOf(calls, ws))
  {
    if calls == [] {
      assert SucceededOf(calls, ws) == {};
    } else {
      SpentByCalls(calls[..|calls| - 1], ws);
      OneCallMore(calls, ws);
      SpentLast(calls, ws);
      ColumnsGrow(Spent(calls[..|calls| - 1], ws), calls, SucceededOf(calls[..|calls| - 1], ws),
                  SucceededOf(calls, ws));
    }
  }

  /** Some child job of the run carries workflow `w`. */
  predicate ChildCarries(jobs: map<nat, Job>, top: nat, w: nat) {
    exists j | j in jobs :: jobs[j].ours && jobs[j].parent == Some(top) && jobs[j].workflow == Some(w)
  }

  /** The positions of the calls that succeeded for a workflow of a child job, or for `w`. */
  function PaidCalls(d: Db, w: Option<nat>): (at: set<nat>)
    ensures forall k :: k in at <==>
      && 0 <= k < |d.calls| && d.calls[k].succeeded && d.calls[k].workflow.Some?
      && (d.calls[k].workflow == w || ChildCarries(d.jobs, d.top, d.calls[k].workflow.value))
  {
    set k | 0 <= k < |d.calls| && d.calls[k].succeeded && d.calls[k].workflow.Some?
            && (d.calls[k].workflow == w || ChildCarries(d.jobs, d.top, d.calls[k].workflow.value))
  }

  lemma CarriedIsLinked(d: Db, w: nat)
    ensures w in ChildWorkflows(d.jobs, d.top) <==> ChildCarries(d.jobs, d.top, w)
  {}

  /**
   The columns after an update for workflow `w`: the calls that succeeded for a
   workflow of a child job or for `w`, counted and summed over their positions.
   */
  lemma UpdateCountsCalls(d: Db, w: nat)
    ensures ColumnsOf(UpdateUsage(d, w).run.usage, d.calls, PaidCalls(d, Some(w)))
  {
    hide ChildCarries, ColumnsOf;
    var ws := ChildWorkflows(d.jobs, d.top) + {w};
    SpentByCalls(d.calls, ws);
    forall x: nat ensures x in ws <==> x == w || ChildCarries(d.jobs, d.top, x) { CarriedIsLinked(d, x); }
    assert SucceededOf(d.calls, ws) == PaidCalls(d, Some(w));
  }

  /**
   One more row in the call table. A call that did not succeed, or not for a linked
   workflow, changes no column; any other adds one call, its tokens and its cost.
   */
  lemma OneMoreCall(d: Db, w: nat, c: Call)
    ensures var was, now := UpdateUsage(d, w).run.usage, UpdateUsage(d.(calls := d.calls + [c]), w).run.usage;
      if c.succeeded && c.workflow.Some? && (c.workflow == Some(w) || ChildCarries(d.jobs, d.top, c.workflow.value))
      then now == Usage(was.calls + 1, was.tokens + c.tokens,
                        was.cost + if c.cost.Some? then c.cost.value else 0)
      else now == was
  {
    hide ChildCarries;
    if c.workflow.Some? { CarriedIsLinked(d, c.workflow.value); }
    var ws := ChildWorkflows(d.jobs, d.top) + {w};
    assert (d.calls + [c])[..|d.calls|] == d.calls;
    SpentLast(d.calls + [c], ws);
  }

  /** The amounts of a run's child jobs, job by job. */
  ghost function SpentByJobs(calls: seq<Call>, jobs: map<nat, Job>, ids: set<nat>): Usage
    requires forall j | j in ids :: j in jobs && jobs[j].workflow.Some?
  {
    if ids == {} then Zero()
    else
      var j := FiniteSets.Any(ids);
      Add(Spent(calls, {jobs[j].workflow.value}), SpentByJobs(calls, jobs, ids - {j}))
  }

  function WorkflowsOf(jobs: map<nat, Job>, ids: set<nat>): set<nat>
    requires forall j | j in ids :: j in jobs && jobs[j].workflow.Some?
  {
    set j | j in ids :: jobs[j].workflow.value
  }

  /** Distinct jobs carry distinct workflows, so summing over the workflows counts every job once. */
  lemma {:induction false} EveryJobOnce(calls: seq<Call>, jobs: map<nat, Job>, ids: set<nat>)
    requires forall j | j in ids :: j in jobs && jobs[j].workflow.Some?
    requires UniqueWorkflows(jobs)
    ensures Spent(calls, WorkflowsOf(jobs, ids)) == SpentByJobs(calls, jobs, ids)
  {
    if ids == {} {
      SpentNowhere(calls);
      assert WorkflowsOf(jobs, ids) == {};
    } else {
      var j := FiniteSets.Any(ids);
      var w := jobs[j].workflow.value;
      EveryJobOnce(calls, jobs, ids - {j});
      assert w !in WorkflowsOf(jobs, ids - {j}) by {
        forall i | i in ids - {j} ensures jobs[i].workflow.value != w { assert jobs[i].workflow != jobs[j].workflow; }
      }
      assert WorkflowsOf(jobs, ids) == {w} + WorkflowsOf(jobs, ids - {j}) by {
        forall x | x in WorkflowsOf(jobs, ids) ensures x in {w} + WorkflowsOf(jobs, ids - {j}) {
          var i :| i in ids && jobs[i].workflow.value == x;
          if i != j { assert i in ids - {j}; }
        }
      }
      SpentDisjoint(calls, {w}, WorkflowsOf(jobs, ids - {j}));
    }
  }

  function ChildIds(jobs: map<nat, Job>, top: nat): set<nat> {
    set j | j in jobs && IsChild(jobs[j], top)
  }

  // ------------------------------------------------------- what a step can spend

  function Linked(d: Db): set<nat> {
    ChildWorkflows(d.jobs, d.top)
  }

  /** Steps that leave the run's recorded spending and its usage columns alone. */
  predicate Steady(s: Sys, t: Sys) {
    && Linked(t.db) == Linked(s.db)
    && Spent(t.db.calls, Linked(s.db)) == Spent(s.db.calls, Linked(s.db))
    && t.db.run.usage == s.db.run.usage && t.lost == s.lost
  }

  predicate SameLedger(d: Db, e: Db) {
    e.jobs == d.jobs && e.top == d.top && e.calls == d.calls && e.run.usage == d.run.usage
  }

  lemma SameLedgerSteady(s: Sys, t: Sys)
    requires SameLedger(s.db, t.db) && t.lost == s.lost
    ensures Steady(s, t)
  {}

  lemma ExecuteSteady(s: Sys, a: Action, t: Sys)
    requires Execute(s, a) == Some(t) && !a.RecordChapter? && !a.SettleUsage? && !a.Attach?
    ensures SameLedger(s.db, t.db) && t.lost == s.lost
  {
    hide OverBudget, Decide, Spent, AcceptedSet, DoneSet, Progress;
  }

  lemma ReviewSteady(s: Sys, a: Action, t: Sys)
    requires ReviewStep(s, a) == Some(t) && !a.StartTask?
    ensures SameLedger(s.db, t.db) && t.lost == s.lost
  {}

  lemma WorkflowSteady(s: Sys, a: Action, t: Sys)
    requires WorkflowStep(s, a) == Some(t) && !a.ProviderCall?
    ensures SameLedger(s.db, t.db) && t.lost == s.lost
  {}

  lemma EnvironmentSteady(s: Sys, a: Action, t: Sys)
    requires Environment(s, a) == Some(t) && !a.OutsideWorkflow? && !a.OutsideCall?
    ensures SameLedger(s.db, t.db) && t.lost == s.lost
  {}

  /** The in-flight workflow is not linked by a child job yet. */
  lemma FlightNotLinked(s: Sys)
    requires Inv(s)
    ensures s.db.run.workflow.Some? ==> s.db.run.workflow.value !in Linked(s.db)
    ensures s.pc.Flight? || s.pc.Ended? ==> s.db.run.workflow == Some(s.pc.workflow)
    ensures s.pc.RecordedPc? ==> s.pc.workflow in Linked(s.db)
  {
    hide DbInv, TaskInv, CheckInv, InMode;
    InvRows(s);
    JobFacts(s.db);
  }

  lemma CallSteady(s: Sys, a: Action, t: Sys)
    requires Inv(s) && Fire(s, a) == Some(t) && (a.ProviderCall? || a.OutsideCall?)
    ensures Steady(s, t)
  {
    hide Inv, Spent;
    FlightNotLinked(s);
    var call := t.db.calls[|s.db.calls|];
    SpentElsewhere(s.db.calls, call, Linked(s.db));
  }

  lemma LinkSteady(d: Db, c: nat, w: nat)
    requires d.top in d.jobs && d.jobs[d.top].parent.None?
    ensures Linked(Link(d, c, w)) == Linked(d)
  {
    TopJobOnly(d.jobs, d.top, Some(w));
  }

  lemma AttachSteady(s: Sys, id: nat, t: Sys)
    requires Inv(s) && Fire(s, Attach(id)) == Some(t)
    ensures Steady(s, t)
  {
    hide Inv, Spent;
    InvRows(s);
    TopRow(s.db);
    LinkSteady(s.db, s.pc.chapter, id);
  }

  lemma JobsSteady(s: Sys, a: Action, t: Sys)
    requires Inv(s) && Fire(s, a) == Some(t) && (a.StartTask? || a.OutsideWorkflow?)
    ensures Steady(s, t)
  {
    hide Inv, Spent;
    InvRows(s);
    TopRow(s.db);
    match a
    case StartTask(id) => LinkSteady(s.db, s.pc.rest[0], id);
    case OutsideWorkflow(id, c, j) => OutsideJob(s.db.jobs, s.db.top, Job(Some(id), false, None, Some(c)), j);
  }

  lemma TopRow(d: Db)
    requires DbInv(d)
    ensures d.top in d.jobs && d.jobs[d.top].parent.None?
  {
    hide MapInv, CurrentInv, FlightInv, CountInv, SnapshotInv, CompletionInv, ReviewInv, IndexInv, UniqueWorkflows;
  }

  lemma OtherSteady(s: Sys, a: Action, t: Sys)
    requires Inv(s) && Fire(s, a) == Some(t) && !a.RecordChapter? && !a.SettleUsage?
    ensures Steady(s, t)
  {
    hide Inv, Steady, SameLedger, Execute, ReviewStep, WorkflowStep, Environment;
    match a
    case ProviderCall(_, _, _) => CallSteady(s, a, t);
    case OutsideCall(_) => CallSteady(s, a, t);
    case Attach(id) => AttachSteady(s, id, t);
    case StartTask(_) => JobsSteady(s, a, t);
    case OutsideWorkflow(_, _, _) => JobsSteady(s, a, t);
    case _ =>
      if Execute(s, a) == Some(t) { ExecuteSteady(s, a, t); }
      else if ReviewStep(s, a) == Some(t) { ReviewSteady(s, a, t); }
      else if WorkflowStep(s, a) == Some(t) { WorkflowSteady(s, a, t); }
      else { EnvironmentSteady(s, a, t); }
      SameLedgerSteady(s, t);
  }

  /** Recording links exactly the workflow that was in flight. */
  lemma RecordLinks(s: Sys, j: nat, t: Sys)
    requires Inv(s) && Fire(s, RecordChapter(j)) == Some(t)
    ensures s.db.run.workflow.Some? && s.db.run.workflow.value !in Linked(s.db)
    ensures Linked(t.db) == Linked(s.db) + {s.db.run.workflow.value}
    ensures t.db.run.workflow.None? && t.db.calls == s.db.calls && t.db.run.caps == s.db.run.caps
    ensures t.db.run.usage == s.db.run.usage && t.lost == s.lost + 1
    ensures Spent(t.db.calls, Linked(t.db))
         == Add(Spent(s.db.calls, Linked(s.db)), Spent(s.db.calls, {s.db.run.workflow.value}))
  {
    hide Inv, Spent;
    EndedFacts(s);
    InvRows(s);
    FlightNotLinked(s);
    RecordLinksRows(s.db, s.pc.chapter, s.pc.workflow, s.pc.status, j);
    SpentDisjoint(s.db.calls, Linked(s.db), {s.pc.workflow});
  }

  lemma RecordLinksRows(d: Db, c: nat, w: nat, st: WorkflowStatus, j: nat)
    requires DbInv(d) && d.run.workflow == Some(w) && w in d.workflows && j !in d.jobs
    ensures d.run.total > 0 && Linked(Record(d, c, w, st, j)) == Linked(d) + {w}
  {
    hide JobInv, IndexInv, CurrentInv, FlightInv, CountInv, SnapshotInv, CompletionInv, ReviewInv;
    RecordJobs(d, c, w, st, j);
  }

  // ------------------------------------------------------ what the columns mean

  /**
   Right after any usage update, however many earlier ones were lost or repeated,
   the columns hold exactly what the succeeded calls of the child jobs' workflows
   add up to: over the positions of these calls, and job by job, every one once.
   */
  lemma UsageIsExact(t: seq<Sys>, n: nat)
    requires IsRun(t) && n + 1 < |t| && Fire(t[n], SettleUsage) == Some(t[n + 1])
    ensures var d := t[n + 1].db;
      && (forall j | j in ChildIds(d.jobs, d.top) :: j in d.jobs && d.jobs[j].workflow.Some?)
      && d.run.usage == SpentByJobs(d.calls, d.jobs, ChildIds(d.jobs, d.top))
      && ColumnsOf(d.run.usage, d.calls, PaidCalls(d, None))
  {
    hide Inv, Spent, ColumnsOf, ChildCarries;
    RunKeeps(t, n);
    FlightNotLinked(t[n]);
    assert Linked(t[n].db) + {t[n].pc.workflow} == Linked(t[n].db);
    RunKeeps(t, n + 1);
    InvRows(t[n + 1]);
    ChildrenLinked(t[n + 1].db);
    var d := t[n + 1].db;
    EveryJobOnce(d.calls, d.jobs, ChildIds(d.jobs, d.top));
    UpdateCountsCalls(t[n].db, t[n].pc.workflow);
    CarriedIsLinked(d, t[n].pc.workflow);
    assert PaidCalls(t[n].db, Some(t[n].pc.workflow)) == PaidCalls(d, None);
  }

  lemma ChildrenLinked(d: Db)
    requires DbInv(d)
    ensures UniqueWorkflows(d.jobs)
    ensures forall j | j in ChildIds(d.jobs, d.top) :: j in d.jobs && d.jobs[j].workflow.Some?
    ensures WorkflowsOf(d.jobs, ChildIds(d.jobs, d.top)) == Linked(d)
  {
    hide MapInv, CurrentInv, FlightInv, CountInv, SnapshotInv, CompletionInv, ReviewInv, IndexInv;
    assert JobInv(d.jobs, d.top, d.workflows.Keys, d.run.workflow);
    forall x | x in Linked(d) ensures x in WorkflowsOf(d.jobs, ChildIds(d.jobs, d.top)) {
      var j :| j in d.jobs && IsChild(d.jobs[j], d.top) && d.jobs[j].workflow == Some(x);
      assert j in ChildIds(d.jobs, d.top);
    }
  }

  /** The columns never run ahead of the recorded spending. */
  predicate Behind(s: Sys) {
    AtMost(s.db.run.usage, Spent(s.db.calls, Linked(s.db)))
  }

  lemma SettleExact(s: Sys, t: Sys)
    requires Inv(s) && Fire(s, SettleUsage) == Some(t)
    ensures Linked(t.db) == Linked(s.db) && t.db.calls == s.db.calls && t.lost == 0
    ensures t.db.run.usage == Spent(s.db.calls, Linked(s.db))
    ensures t.db.run.workflow == s.db.run.workflow && t.db.run.caps == s.db.run.caps
  {
    hide Inv, Spent;
    FlightNotLinked(s);
    assert Linked(s.db) + {s.pc.workflow} == Linked(s.db);
  }

  lemma StepBehind(s: Sys, t: Sys)
    requires Inv(s) && Behind(s) && Step(s, t)
    ensures Behind(t) && AtMost(s.db.run.usage, t.db.run.usage)
  {
    hide Inv, Fire, Spent;
    var a :| Fire(s, a) == Some(t);
    match a
    case RecordChapter(j) => RecordLinks(s, j, t);
    case SettleUsage => SettleExact(s, t);
    case _ => OtherSteady(s, a, t);
  }

  lemma {:induction false} RunBehind(t: seq<Sys>, n: nat)
    requires IsRun(t) && n < |t|
    ensures Behind(t[n])
    decreases n
  {
    hide Inv, Behind;
    if n == 0 {
      InitialBehind(t[0]);
    } else {
      RunBehind(t, n - 1);
      RunKeeps(t, n - 1);
      StepBehind(t[n - 1], t[n]);
    }
  }

  /** With no completion missing, the columns are the recorded spending. */
  predicate UpToDate(s: Sys) {
    s.lost == 0 ==> s.db.run.usage == Spent(s.db.calls, Linked(s.db))
  }

  lemma StepUpToDate(s: Sys, t: Sys)
    requires Inv(s) && UpToDate(s) && Step(s, t)
    ensures UpToDate(t)
  {
    hide Inv, Fire, Spent;
    var a :| Fire(s, a) == Some(t);
    match a
    case RecordChapter(j) => RecordLinks(s, j, t);
    case SettleUsage => SettleExact(s, t);
    case _ => OtherSteady(s, a, t);
  }

  lemma {:induction false} RunUpToDate(t: seq<Sys>, n: nat)
    requires IsRun(t) && n < |t|
    ensures UpToDate(t[n])
    decreases n
  {
    hide Inv, UpToDate, Step;
    if n == 0 {
      InitialUpToDate(t[0]);
    } else {
      RunUpToDate(t, n - 1);
      RunKeeps(t, n - 1);
      assert Step(t[n - 1], t[n - 1 + 1]);
      StepUpToDate(t[n - 1], t[n]);
    }
  }

  lemma InitialUpToDate(s: Sys)
    requires Initial(s)
    ensures UpToDate(s)
  {
    InitialBehind(s);
  }

  lemma InitialBehind(s: Sys)
    requires Initial(s)
    ensures Behind(s) && Linked(s.db) == {} && Spent(s.db.calls, Linked(s.db)) == Zero()
  {
    assert Linked(s.db) == {};
    SpentNowhere(s.db.calls);
  }

  /** Calls, tokens and cost on the run row never decrease. */
  lemma {:induction false} UsageNeverDecreases(t: seq<Sys>, i: nat, k: nat)
    requires IsRun(t) && i <= k < |t|
    ensures AtMost(t[i].db.run.usage, t[k].db.run.usage)
    decreases k - i
  {
    hide Inv, Behind, Step;
    if i < k {
      UsageNeverDecreases(t, i, k - 1);
      RunBehind(t, k - 1);
      RunKeeps(t, k - 1);
      assert Step(t[k - 1], t[k - 1 + 1]);
      StepBehind(t[k - 1], t[k]);
    }
  }
}
