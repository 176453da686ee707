/**
 How far the real spending of a run can pass its caps. The gate compares the usage
 columns, which may lag behind by the completions whose update was lost, and no
 gate stands before a revision workflow; the bound counts both.
 */
module BookBudget {
  import FiniteSets
  import opened Options
  import opened BookModel
  import opened BookMachine
  import opened BookInvariant
  import opened BookPreservation
  import opened BookUsage

  /** The three amounts a cap exists for, and what the gate keeps in reserve of each. */
  datatype Axis = OfCalls | OfTokens | OfCost

  function Of(u: Usage, x: Axis): nat {
    match x
    case OfCalls => u.calls
    case OfTokens => u.tokens
    case OfCost => u.cost
  }

  function Reserve(x: Axis): nat {
    match x
    case OfCalls => ESTIMATED_CALLS
    case OfTokens => ESTIMATED_TOKENS
    case OfCost => 0
  }

  lemma BudgetByAxis(r: Run)
    ensures OverBudget(r) <==> exists x: Axis :: Of(r.usage, x) + Reserve(x) > Of(r.caps, x)
  {
    assert OverBudget(r) ==>
      || Of(r.usage, OfCalls) + Reserve(OfCalls) > Of(r.caps, OfCalls)
      || Of(r.usage, OfTokens) + Reserve(OfTokens) > Of(r.caps, OfTokens)
      || Of(r.usage, OfCost) + Reserve(OfCost) > Of(r.caps, OfCost);
  }

  // ------------------------------------------------------------- real spending

  /** The workflows of the run: those of its child jobs and the one in flight. */
  function Own(d: Db): set<nat> {
    Linked(d) + if d.run.workflow.Some? then {d.run.workflow.value} else {}
  }

  /** What the run has really spent of `x`. */
  function Real(d: Db, x: Axis): nat {
    Of(Spent(d.calls, Own(d)), x)
  }

  /** What the child jobs' workflows have spent of `x`. */
  function LinkedSpending(d: Db, x: Axis): nat {
    Of(Spent(d.calls, Linked(d)), x)
  }

  /** No workflow among `ws` has spent more than `u` of `x`. */
  ghost predicate Within(calls: seq<Call>, ws: set<nat>, x: Axis, u: nat) {
    forall w | w in ws :: Of(Spent(calls, {w}), x) <= u
  }

  lemma {:induction false} SpentAtMost(calls: seq<Call>, ws: set<nat>, x: Axis, u: nat)
    requires Within(calls, ws, x, u)
    ensures Of(Spent(calls, ws), x) <= u * |ws|
    decreases |ws|
  {
    hide Spent;
    if ws == {} {
      SpentNowhere(calls);
    } else {
      var w := FiniteSets.Any(ws);
      SpentAtMost(calls, ws - {w}, x, u);
      SpentDisjoint(calls, ws - {w}, {w});
      assert ws - {w} + {w} == ws;
      Product(u, |ws| - 1, |ws|);
    }
  }

  function Max(a: int, b: int): int { if a >= b then a else b }

  /** The bound: `lag` is how many completions the columns may miss, and one more. */
  function Limit(cap: nat, x: Axis, u: nat, lag: nat): int {
    Max(cap, cap - Reserve(x) + u * lag)
  }

  lemma RealSplits(d: Db, x: Axis)
    requires d.run.workflow.Some? ==> d.run.workflow.value !in Linked(d)
    ensures d.run.workflow.None? ==> Real(d, x) == LinkedSpending(d, x)
    ensures d.run.workflow.Some? ==> Real(d, x) == LinkedSpending(d, x) + Of(Spent(d.calls, {d.run.workflow.value}), x)
  {
    hide Spent;
    if d.run.workflow.Some? {
      SpentDisjoint(d.calls, Linked(d), {d.run.workflow.value});
    } else {
      assert Own(d) == Linked(d);
    }
  }

  // ------------------------------------------------------------- the invariant

  /** The worker has passed the gate and will start a workflow. */
  predicate Passed(s: Sys) {
    (s.pc.Picked? || s.pc.Marked?) && s.db.run.workflow.None?
  }

  function InFlight(d: Db): set<nat> {
    if d.run.workflow.Some? then {d.run.workflow.value} else {}
  }

  /**
   `ever` are the workflows that were ever in flight and `tasks` the revision
   workflows started. What is not linked yet is counted with `u` each: the one in
   flight, and those that a revision workflow has replaced.
   */
  predicate BudgetInv(s: Sys, ever: set<nat>, x: Axis, u: nat, lag: nat, tasks: nat) {
    var r, open := s.db.run, |ever - Linked(s.db)|;
    && Linked(s.db) <= ever && InFlight(s.db) <= ever
    && open <= tasks + |InFlight(s.db)|
    && LinkedSpending(s.db, x) <= Of(r.usage, x) + u * s.lost
    && (Passed(s) ==> Of(r.usage, x) + Reserve(x) <= Of(r.caps, x) && s.lost < lag)
    && LinkedSpending(s.db, x) + u * open <= Limit(Of(r.caps, x), x, u, lag) + u * tasks
  }

  lemma Product(u: nat, a: nat, b: nat)
    requires a < b
    ensures u * a + u <= u * b && u * (a + 1) == u * a + u
  {
    assert u * b == u * (a + 1) + u * (b - a - 1);
  }

  /** What a step does to the in-flight id, the caps and the gate. */
  predicate KeepsFlight(s: Sys, t: Sys) {
    && t.db.run.workflow == s.db.run.workflow
    && (Passed(t) ==> Passed(s) || (s.pc.Gate? && !OverBudget(s.db.run)))
  }

  lemma ExecuteKeepsFlight(s: Sys, a: Action, t: Sys)
    requires Execute(s, a) == Some(t) && !a.RecordChapter? && !a.Attach?
    ensures KeepsFlight(s, t)
  {
    hide Spent, AcceptedSet, DoneSet, Progress, Decide, Recordable;
  }

  lemma ReviewKeepsFlight(s: Sys, a: Action, t: Sys)
    requires ReviewStep(s, a) == Some(t) && !a.StartTask?
    ensures KeepsFlight(s, t)
  {}

  lemma WorkflowKeepsFlight(s: Sys, a: Action, t: Sys)
    requires WorkflowStep(s, a) == Some(t)
    ensures KeepsFlight(s, t)
  {}

  lemma EnvironmentKeepsFlight(s: Sys, a: Action, t: Sys)
    requires Environment(s, a) == Some(t)
    ensures KeepsFlight(s, t)
  {}

  lemma OtherKeepsFlight(s: Sys, a: Action, t: Sys)
    requires Fire(s, a) == Some(t) && !a.RecordChapter? && !a.Attach? && !a.StartTask?
    ensures KeepsFlight(s, t)
  {
    hide KeepsFlight, Execute, ReviewStep, WorkflowStep, Environment;
    if Execute(s, a) == Some(t) { ExecuteKeepsFlight(s, a, t); }
    else if ReviewStep(s, a) == Some(t) { ReviewKeepsFlight(s, a, t); }
    else if WorkflowStep(s, a) == Some(t) { WorkflowKeepsFlight(s, a, t); }
    else { EnvironmentKeepsFlight(s, a, t); }
  }

  /** Either a new workflow starts behind the gate, or the in-flight one goes on. */
  lemma AttachFlight(s: Sys, id: nat, t: Sys)
    requires Inv(s) && Fire(s, Attach(id)) == Some(t)
    ensures !Passed(t)
    ensures t.db.run.workflow == s.db.run.workflow || (Passed(s) && t.db.run.workflow == Some(id))
  {
    hide DbInv, TaskInv, CheckInv, HandInv;
  }

  /** A workflow that no one had seen before joins those ever in flight. */
  lemma OneMoreOpen(ever: set<nat>, linked: set<nat>, w: nat)
    requires linked <= ever
    ensures |ever + {w} - linked| <= |ever - linked| + 1
    ensures w in ever ==> ever + {w} == ever
  {
    FiniteSets.SubsetSize(ever + {w} - linked, (ever - linked) + {w});
  }

  lemma LimitGrows(a: nat, b: nat, x: Axis, u: nat, lag: nat)
    requires a <= b
    ensures Limit(a, x, u, lag) <= Limit(b, x, u, lag)
  {}

  /** Behind the gate there is room for one workflow more, whatever is open. */
  lemma GateLeavesRoom(done: nat, used: nat, cap: nat, x: Axis, u: nat, lost: nat, lag: nat, open: nat, tasks: nat)
    requires done <= used + u * lost && used + Reserve(x) <= cap && lost < lag && open <= tasks
    ensures done + u * open + u <= Limit(cap, x, u, lag) + u * tasks
  {
    Product(u, lost, lag);
    AtMostTimes(u, open, tasks);
  }

  lemma AtMostTimes(u: nat, a: nat, b: nat)
    requires a <= b
    ensures u * a <= u * b
  {
    assert u * b == u * a + u * (b - a);
  }

  lemma AttachBudget(s: Sys, ever: set<nat>, id: nat, t: Sys, x: Axis, u: nat, lag: nat, tasks: nat)
    requires Inv(s) && BudgetInv(s, ever, x, u, lag, tasks) && Fire(s, Attach(id)) == Some(t)
    requires Of(s.db.run.caps, x) <= Of(t.db.run.caps, x)
    ensures BudgetInv(t, ever + InFlight(t.db), x, u, lag, tasks)
  {
    hide Inv, Fire, Spent, Linked, Limit;
    AttachFlight(s, id, t);
    AttachSteady(s, id, t);
    LimitGrows(Of(s.db.run.caps, x), Of(t.db.run.caps, x), x, u, lag);
    if t.db.run.workflow == s.db.run.workflow {
      assert ever + InFlight(t.db) == ever;
    } else {
      var open := |ever - Linked(s.db)|;
      OneMoreOpen(ever, Linked(s.db), id);
      var r := s.db.run;
      GateLeavesRoom(LinkedSpending(s.db, x), Of(r.usage, x), Of(r.caps, x), x, u, s.lost, lag, open, tasks);
      AtMostTimes(u, |ever + InFlight(t.db) - Linked(t.db)|, open + 1);
      Product(u, open, open + 1);
    }
  }

  lemma NotPassed(s: Sys, a: Action, t: Sys)
    requires Fire(s, a) == Some(t) && (a.RecordChapter? || a.SettleUsage?)
    ensures !Passed(t)
  {}

  /** The recorded workflow is no longer open. */
  lemma OneLessOpen(ever: set<nat>, linked: set<nat>, w: nat)
    requires w in ever && w !in linked
    ensures |ever - (linked + {w})| + 1 == |ever - linked|
  {
    assert ever - linked == (ever - (linked + {w})) + {w};
  }

  lemma RecordBudget(s: Sys, ever: set<nat>, j: nat, t: Sys, x: Axis, u: nat, lag: nat, tasks: nat)
    requires Inv(s) && BudgetInv(s, ever, x, u, lag, tasks) && Fire(s, RecordChapter(j)) == Some(t)
    requires Within(s.db.calls, ever, x, u)
    ensures BudgetInv(t, ever + InFlight(t.db), x, u, lag, tasks)
  {
    hide Inv, Fire, Spent, Linked, Limit;
    RecordLinks(s, j, t);
    NotPassed(s, RecordChapter(j), t);
    var w := s.db.run.workflow.value;
    assert w in ever && Of(Spent(s.db.calls, {w}), x) <= u;
    OneLessOpen(ever, Linked(s.db), w);
    assert ever + InFlight(t.db) == ever;
    Product(u, s.lost, s.lost + 1);
    Product(u, |ever - Linked(t.db)|, |ever - Linked(s.db)|);
  }

  lemma SettleBudget(s: Sys, ever: set<nat>, t: Sys, x: Axis, u: nat, lag: nat, tasks: nat)
    requires Inv(s) && BudgetInv(s, ever, x, u, lag, tasks) && Fire(s, SettleUsage) == Some(t)
    ensures BudgetInv(t, ever + InFlight(t.db), x, u, lag, tasks)
  {
    hide Inv, Fire, Spent, Linked, Limit;
    SettleExact(s, t);
    NotPassed(s, SettleUsage, t);
    assert ever + InFlight(t.db) == ever;
  }

  lemma OtherBudget(s: Sys, ever: set<nat>, a: Action, t: Sys, x: Axis, u: nat, lag: nat, tasks: nat)
    requires Inv(s) && BudgetInv(s, ever, x, u, lag, tasks) && Fire(s, a) == Some(t)
    requires !a.Attach? && !a.RecordChapter? && !a.SettleUsage? && !a.StartTask?
    requires Of(s.db.run.caps, x) <= Of(t.db.run.caps, x)
    requires s.pc.Gate? ==> s.lost < lag
    ensures BudgetInv(t, ever + InFlight(t.db), x, u, lag, tasks)
  {
    hide Inv, Fire, Spent, Linked, OverBudget, Limit;
    OtherSteady(s, a, t);
    OtherKeepsFlight(s, a, t);
    BudgetByAxis(s.db.run);
    LimitGrows(Of(s.db.run.caps, x), Of(t.db.run.caps, x), x, u, lag);
    assert ever + InFlight(t.db) == ever;
  }

  /** A revision workflow is started in front of no gate. */
  predicate StartsTask(s: Sys, t: Sys) {
    s.pc.Revising? && t.pc.Flight?
  }

  lemma TaskBudget(s: Sys, ever: set<nat>, id: nat, t: Sys, x: Axis, u: nat, lag: nat, tasks: nat)
    requires Inv(s) && BudgetInv(s, ever, x, u, lag, tasks) && Fire(s, StartTask(id)) == Some(t)
    ensures BudgetInv(t, ever + InFlight(t.db), x, u, lag, tasks + 1) && StartsTask(s, t)
  {
    hide Inv, Fire, Spent, Linked, Limit;
    TaskFlight(s, id, t);
    JobsSteady(s, StartTask(id), t);
    var open := |ever - Linked(s.db)|;
    OneMoreOpen(ever, Linked(s.db), id);
    AtMostTimes(u, |ever + InFlight(t.db) - Linked(t.db)|, open + 1);
    Product(u, open, open + 1);
    Product(u, tasks, tasks + 1);
  }

  lemma TaskFlight(s: Sys, id: nat, t: Sys)
    requires Fire(s, StartTask(id)) == Some(t)
    ensures !Passed(t) && StartsTask(s, t) && t.db.run.caps == s.db.run.caps && t.db.run.workflow == Some(id)
  {}

  /** Nothing but the start of a task leads from revising into flight. */
  lemma OnlyTasksStart(s: Sys, a: Action, t: Sys)
    requires Fire(s, a) == Some(t) && !a.StartTask?
    ensures !StartsTask(s, t)
  {
    hide AttachResult, AfterResult, Chosen, GateResult, CheckResult;
  }

  lemma StepBudget(s: Sys, ever: set<nat>, t: Sys, x: Axis, u: nat, lag: nat, tasks: nat)
    requires Inv(s) && BudgetInv(s, ever, x, u, lag, tasks) && Within(s.db.calls, ever, x, u) && Step(s, t)
    requires Of(s.db.run.caps, x) <= Of(t.db.run.caps, x)
    requires s.pc.Gate? ==> s.lost < lag
    ensures BudgetInv(t, ever + InFlight(t.db), x, u, lag, if StartsTask(s, t) then tasks + 1 else tasks)
  {
    hide Inv, Fire, BudgetInv, Within, StartsTask, InFlight;
    var a :| Fire(s, a) == Some(t);
    if !a.StartTask? { OnlyTasksStart(s, a, t); }
    match a
    case Attach(id) => AttachBudget(s, ever, id, t, x, u, lag, tasks);
    case RecordChapter(j) => RecordBudget(s, ever, j, t, x, u, lag, tasks);
    case SettleUsage => SettleBudget(s, ever, t, x, u, lag, tasks);
    case StartTask(id) => TaskBudget(s, ever, id, t, x, u, lag, tasks);
    case _ => OtherBudget(s, ever, a, t, x, u, lag, tasks);
  }

  /** The workflows that were ever in flight up to state `n`, recorded or not. */
  function Ever(t: seq<Sys>, n: nat): set<nat>
    requires n < |t|
  {
    (if n == 0 then {} else Ever(t, n - 1)) + InFlight(t[n].db)
  }

  /** How many revision workflows the run has started before state `n`. */
  function Tasks(t: seq<Sys>, n: nat): nat
    requires n < |t|
  {
    if n == 0 then 0 else Tasks(t, n - 1) + if StartsTask(t[n - 1], t[n]) then 1 else 0
  }

  /**
   The run up to state `n`: the cap on `x` was never lowered, every workflow of the
   run stayed within `u`, and whenever a chapter was scheduled fewer than `lag`
   completions were missing from the columns.
   */
  ghost predicate Phase(t: seq<Sys>, n: nat, x: Axis, u: nat, lag: nat)
    requires n < |t|
  {
    && (forall i | 0 <= i <= n :: Within(t[i].db.calls, Ever(t, i), x, u))
    && (forall i | 0 <= i <= n :: t[i].pc.Gate? ==> t[i].lost < lag)
    && (forall i | 0 <= i < n :: Of(t[i].db.run.caps, x) <= Of(t[i + 1].db.run.caps, x))
  }

  lemma {:induction false} RunBudget(t: seq<Sys>, n: nat, x: Axis, u: nat, lag: nat)
    requires IsRun(t) && n < |t| && Phase(t, n, x, u, lag)
    ensures BudgetInv(t[n], Ever(t, n), x, u, lag, Tasks(t, n))
    decreases n
  {
    hide Inv, BudgetInv, Step, Within, StartsTask, InFlight;
    if n == 0 {
      InitialBudget(t[0], x, u, lag);
      assert {} + InFlight(t[0].db) == InFlight(t[0].db);
    } else {
      RunBudget(t, n - 1, x, u, lag);
      RunKeeps(t, n - 1);
      assert Step(t[n - 1], t[n - 1 + 1]);
      assert Within(t[n - 1].db.calls, Ever(t, n - 1), x, u);
      assert Of(t[n - 1].db.run.caps, x) <= Of(t[n - 1 + 1].db.run.caps, x);
      StepBudget(t[n - 1], Ever(t, n - 1), t[n], x, u, lag, Tasks(t, n - 1));
    }
  }

  lemma InitialBudget(s: Sys, x: Axis, u: nat, lag: nat)
    requires Initial(s)
    ensures BudgetInv(s, InFlight(s.db), x, u, lag, 0)
  {
    InitialBehind(s);
    assert InFlight(s.db) - Linked(s.db) == {};
  }

  // --------------------------------------------------------------- main results

  /** What the workflows that were ever in flight have spent of `x`. */
  function Spending(t: seq<Sys>, n: nat, x: Axis): nat
    requires n < |t|
  {
    Of(Spent(t[n].db.calls, Ever(t, n)), x)
  }

  /** What is open is counted with `u` each, which is no less than what it has spent. */
  lemma SpendingBound(s: Sys, ever: set<nat>, x: Axis, u: nat, lag: nat, tasks: nat)
    requires BudgetInv(s, ever, x, u, lag, tasks) && Within(s.db.calls, ever, x, u)
    ensures Of(Spent(s.db.calls, ever), x) <= Limit(Of(s.db.run.caps, x), x, u, lag) + u * tasks
  {
    hide Spent, Linked, Limit;
    var linked := Linked(s.db);
    SpentDisjoint(s.db.calls, linked, ever - linked);
    assert linked + (ever - linked) == ever;
    SpentAtMost(s.db.calls, ever - linked, x, u);
  }

  /**
   Over the whole life of a run the real spending stays within the cap, or within
   the cap less the reserve plus `u` for each of `lag` workflows, plus `u` for
   every revision workflow started. Workflows that were never recorded count too.
   */
  lemma BudgetBound(t: seq<Sys>, n: nat, x: Axis, u: nat, lag: nat)
    requires IsRun(t) && n < |t| && Phase(t, n, x, u, lag)
    ensures var cap := Of(t[n].db.run.caps, x);
      Spending(t, n, x) <= Max(cap, cap - Reserve(x) + u * lag) + u * Tasks(t, n)
  {
    hide IsRun, Ever, Tasks, Spent, BudgetInv, Within;
    RunBudget(t, n, x, u, lag);
    assert Within(t[n].db.calls, Ever(t, n), x, u);
    SpendingBound(t[n], Ever(t, n), x, u, lag, Tasks(t, n));
  }

  /**
   With no usage update lost when a chapter is scheduled: at most
   max(cap, cap - 5 + u) calls, max(cap, cap - 30000 + u) tokens and cap + u cost,
   and u more for every revision workflow. Before the first of them a workflow that
   stays within the reserve never takes the run past its cap.
   */
  lemma NominalBudget(t: seq<Sys>, n: nat, u: Usage)
    requires IsRun(t) && n < |t| && forall x: Axis :: Phase(t, n, x, Of(u, x), 1)
    ensures var spent, caps := Spent(t[n].db.calls, Ever(t, n)), t[n].db.run.caps;
      && spent.calls <= Max(caps.calls, caps.calls - 5 + u.calls) + u.calls * Tasks(t, n)
      && spent.tokens <= Max(caps.tokens, caps.tokens - 30000 + u.tokens) + u.tokens * Tasks(t, n)
      && spent.cost <= caps.cost + u.cost + u.cost * Tasks(t, n)
      && ColumnsOf(spent, t[n].db.calls, SucceededOf(t[n].db.calls, Ever(t, n)))
      && (Tasks(t, n) == 0 && u.calls <= 5 ==> spent.calls <= caps.calls)
      && (Tasks(t, n) == 0 && u.tokens <= 30000 ==> spent.tokens <= caps.tokens)
  {
    hide IsRun, Phase, Spent, Ever, Tasks, ColumnsOf, SucceededOf;
    SpentByCalls(t[n].db.calls, Ever(t, n));
    assert u.calls == Of(u, OfCalls) && u.tokens == Of(u, OfTokens) && u.cost == Of(u, OfCost);
    BudgetBound(t, n, OfCalls, u.calls, 1);
    BudgetBound(t, n, OfTokens, u.tokens, 1);
    BudgetBound(t, n, OfCost, u.cost, 1);
  }
}
