/** When a run really passes its caps, and runs in which it does. */
module BookOverspending {
  import FiniteSets
  import opened Options
  import opened BookModel
  import opened BookMachine
  import opened BookInvariant
  import opened BookPreservation
  import opened BookUsage
  import opened BookBudget
  import opened BookCrashes

  // ------------------------------------------------------- exactly when a cap is passed

  /**
   In every reachable state with a workflow in flight and no completion missing from
   the columns, the run has passed its cap on `x` if and only if the workflow alone
   has spent more than the cap leaves over the column.
   */
  lemma CapPassedExactly(t: seq<Sys>, n: nat, x: Axis)
    requires IsRun(t) && n < |t| && t[n].lost == 0 && t[n].db.run.workflow.Some?
    ensures var d := t[n].db; var own := Of(Spent(d.calls, {d.run.workflow.value}), x);
      && Real(d, x) == Of(d.run.usage, x) + own
      && (Real(d, x) > Of(d.run.caps, x) <==> own > Of(d.run.caps, x) - Of(d.run.usage, x))
  {
    hide Inv, Spent, Linked;
    RunUpToDate(t, n);
    RunKeeps(t, n);
    FlightNotLinked(t[n]);
    RealSplits(t[n].db, x);
  }

  // --------------------------------------------------------------- any spending happens

  /** Provider calls that spend `k` of `x`. */
  function Spend(x: Axis, k: nat): seq<Action> {
    match x
    case OfCalls => if k == 0 then [] else [ProviderCall(0, None, true)] + Spend(x, k - 1)
    case OfTokens => [ProviderCall(k, None, true)]
    case OfCost => [ProviderCall(0, Some(k), true)]
  }

  function CallIds(calls: seq<Call>): set<nat> {
    set i | 0 <= i < |calls| && calls[i].workflow.Some? :: calls[i].workflow.value
  }

  lemma {:induction false} UnseenSpent(calls: seq<Call>, w: nat)
    requires w !in CallIds(calls)
    ensures Spent(calls, {w}) == Zero()
  {
    if calls != [] {
      var last, init := calls[|calls| - 1], calls[..|calls| - 1];
      assert last.workflow.Some? ==> last.workflow.value in CallIds(calls);
      assert CallIds(init) <= CallIds(calls);
      UnseenSpent(init, w);
    }
  }

  /** One succeeded call of the workflow in flight. */
  function Called(s: Sys, tokens: nat, cost: Option<nat>): Sys
    requires s.pc.Flight?
  {
    s.(db := s.db.(calls := s.db.calls + [Call(Some(s.pc.workflow), true, tokens, cost)]))
  }

  lemma CallSpends(s: Sys, tokens: nat, cost: Option<nat>)
    requires s.pc.Flight?
    ensures var e, w := Called(s, tokens, cost), s.pc.workflow;
      && Fire(s, ProviderCall(tokens, cost, true)) == Some(e)
      && Spent(e.db.calls, {w}) == Add(Spent(s.db.calls, {w}), CallUsage(Call(Some(w), true, tokens, cost)))
      && forall ws | w !in ws :: Spent(e.db.calls, ws) == Spent(s.db.calls, ws)
  {
    var c := Call(Some(s.pc.workflow), true, tokens, cost);
    assert (s.db.calls + [c])[..|s.db.calls|] == s.db.calls;
    forall ws | s.pc.workflow !in ws ensures Spent(s.db.calls + [c], ws) == Spent(s.db.calls, ws) {
      SpentElsewhere(s.db.calls, c, ws);
    }
  }

  /** From any state in flight any amount can be spent. */
  lemma {:induction false} SpendPlays(s: Sys, x: Axis, k: nat) returns (e: Sys)
    requires s.pc.Flight?
    ensures Play(s, Spend(x, k)) == Some(e) && e == s.(db := s.db.(calls := e.db.calls))
    ensures Of(Spent(e.db.calls, {s.pc.workflow}), x) == Of(Spent(s.db.calls, {s.pc.workflow}), x) + k
    ensures forall ws | s.pc.workflow !in ws :: Spent(e.db.calls, ws) == Spent(s.db.calls, ws)
    decreases k
  {
    hide Fire, Spent;
    match x
    case OfTokens =>
      CallSpends(s, k, None);
      e := Called(s, k, None);
      PlayOne(s, ProviderCall(k, None, true), e);
    case OfCost =>
      CallSpends(s, 0, Some(k));
      e := Called(s, 0, Some(k));
      PlayOne(s, ProviderCall(0, Some(k), true), e);
    case OfCalls =>
      if k == 0 {
        e := s;
      } else {
        CallSpends(s, 0, None);
        var one := Called(s, 0, None);
        PlayOne(s, ProviderCall(0, None, true), one);
        e := SpendPlays(one, x, k - 1);
        PlayAppend(s, [ProviderCall(0, None, true)], Spend(x, k - 1), one);
      }
  }

  /**
   From every reachable state in which a chapter passes the gate with no workflow in
   flight and no completion missing, and for every amount `k`, there is a
   continuation in which the chapter's workflow spends exactly `k` of `x`; it passes
   the cap if and only if `k` is more than the cap leaves.
   */
  lemma AnySpendingHappens(t: seq<Sys>, n: nat, x: Axis, k: nat) returns (w: nat, e: Sys)
    requires IsRun(t) && n < |t| && t[n].pc.Gate? && !OverBudget(t[n].db.run)
    requires t[n].db.run.workflow.None? && t[n].lost == 0
    ensures Play(t[n], [PassGate, MarkChapter, Attach(w)] + Spend(x, k)) == Some(e)
    ensures e.db.run.workflow == Some(w) && e.db.run.usage == t[n].db.run.usage && e.db.run.caps == t[n].db.run.caps
    ensures Real(e.db, x) == LinkedSpending(t[n].db, x) + k == Of(t[n].db.run.usage, x) + k
    ensures Real(e.db, x) > Of(e.db.run.caps, x) <==> k > Of(t[n].db.run.caps, x) - Of(t[n].db.run.usage, x)
  {
    hide Inv, Initial, Step, Spent, OverBudget;
    RunKeeps(t, n);
    RunUpToDate(t, n);
    w, e := SpendsAny(t[n], x, k);
  }

  lemma SpendsAny(s: Sys, x: Axis, k: nat) returns (w: nat, e: Sys)
    requires Inv(s) && s.pc.Gate? && !OverBudget(s.db.run) && s.db.run.workflow.None?
    ensures w !in s.db.workflows && Play(s, [PassGate, MarkChapter, Attach(w)] + Spend(x, k)) == Some(e)
    ensures e == Started(s, s.pc.chapter, w).(db := Started(s, s.pc.chapter, w).db.(calls := e.db.calls))
    ensures Real(e.db, x) == LinkedSpending(s.db, x) + k && Of(Spent(e.db.calls, {w}), x) == k
    ensures e.db.run.workflow == Some(w) && e.db.run.usage == s.db.run.usage && e.db.run.caps == s.db.run.caps
  {
    hide Inv, Fire, Spent, OverBudget, NoneIn, Play;
    GateChapter(s);
    w := FiniteSets.NextId(s.db.workflows.Keys + CallIds(s.db.calls));
    Start(s, w);
    UnseenSpent(s.db.calls, w);
    var at := Started(s, s.pc.chapter, w);
    e := SpendPlays(at, x, k);
    PlayAppend(s, [PassGate, MarkChapter, Attach(w)], Spend(x, k), at);
    PlayKeeps(s, [PassGate, MarkChapter, Attach(w)] + Spend(x, k), e);
    FlightNotLinked(e);
    SameLinked(s, w);
    hide Linked;
    RealSplits(e.db, x);
  }

  lemma SameLinked(s: Sys, w: nat)
    requires Inv(s) && s.pc.Gate?
    ensures Linked(Started(s, s.pc.chapter, w).db) == Linked(s.db)
    ensures Started(s, s.pc.chapter, w).db.calls == s.db.calls
  {
    hide Inv;
    InvTop(s);
    LinkSteady(MarkRunning(s.db, s.pc.chapter), s.pc.chapter, w);
  }

  lemma InvTop(s: Sys)
    requires Inv(s)
    ensures s.db.top in s.db.jobs && s.db.jobs[s.db.top].parent.None?
  {
    hide MapInv, CurrentInv, FlightInv, CountInv, SnapshotInv, CompletionInv, ReviewInv, IndexInv, UniqueWorkflows,
         TaskInv, CheckInv, HandInv, PlaceInv;
  }

  // ------------------------------------------------------- a revision without a budget

  /** A book of one chapter that is being written by its workflow `w`, which has overspent. */
  predicate Writing(s: Sys, w: nat) {
    var d, r := s.db, s.db.run;
    && s.pc == Flight(1, w, Generation) && r.workflow == Some(w) && w in d.workflows && d.workflows[w].chapter == 1
    && r.total == 1 && r.chapters == map[1 := Running] && r.status.Generating?
    && d.interval > 1 && d.snapshots == map[] && r.round < r.maxRounds
    && Spent(d.calls, {w}).calls > r.caps.calls
  }

  /** The chapter is recorded and settled, and the loop is left. */
  predicate Written(s: Sys) {
    var d, r := s.db, s.db.run;
    && s.pc.Generated? && OverBudget(r) && r.total == 1 && r.status.Generating? && 1 in d.accepted
    && d.snapshots == map[] && r.round < r.maxRounds
  }

  /** The chapter was accepted and its workflow ended. */
  function Accepting(s: Sys, w: nat, v: nat): Sys {
    if w !in s.db.workflows then s
    else s.(db := AcceptVersion(s.db, w, v), pc := Ended(1, w, WorkflowCompleted, Generation))
  }

  /** The chapter's only workflow is recorded, with spending over the cap on calls. */
  predicate Unsettled(s: Sys, w: nat) {
    var d, r := s.db, s.db.run;
    && s.pc == RecordedPc(1, w, WorkflowCompleted, Generation)
    && r.workflow.None? && r.total == 1 && r.chapters == map[1 := Accepted] && r.status.Generating?
    && d.interval > 1 && d.snapshots == map[] && r.round < r.maxRounds
    && 1 in d.accepted && Spent(d.calls, {w}).calls > r.caps.calls
  }

  lemma RecordWriting(s: Sys, w: nat, v: nat, j: nat) returns (e: Sys)
    requires Writing(s, w) && j !in s.db.jobs
    ensures Play(s, [Accept(v), RecordChapter(j)]) == Some(e) && Unsettled(e, w)
  {
    hide Fire, Unsettled, Record, AcceptVersion;
    var at := Accepting(s, w, v);
    AcceptFires(s, w, v);
    e := RecordFires(s, w, v, j);
    PlayTwo(s, Accept(v), at, RecordChapter(j), e);
  }

  lemma AcceptFires(s: Sys, w: nat, v: nat)
    requires Writing(s, w)
    ensures Fire(s, Accept(v)) == Some(Accepting(s, w, v))
  {
    hide Spent;
  }

  lemma RecordFires(s: Sys, w: nat, v: nat, j: nat) returns (e: Sys)
    requires Writing(s, w) && j !in s.db.jobs
    ensures Fire(Accepting(s, w, v), RecordChapter(j)) == Some(e) && Unsettled(e, w)
  {
    hide Spent, DoneSet, ReviewSet, AcceptedSet, Progress, SetJobWorkflow;
    var at := Accepting(s, w, v);
    e := Sys(Record(at.db, 1, w, WorkflowCompleted, j), RecordedPc(1, w, WorkflowCompleted, Generation), s.lost + 1);
  }

  lemma SettleWriting(s: Sys, w: nat) returns (e: Sys)
    requires Unsettled(s, w)
    ensures Play(s, [SettleUsage, AfterChapter] + [SyncAccepted, Choose]) == Some(e) && Written(e)
  {
    hide Spent, Linked;
    var settled := Sys(UpdateUsage(s.db, w), Settled(1, WorkflowCompleted, Generation), 0);
    SpentMonotone(s.db.calls, {w}, ChildWorkflows(s.db.jobs, s.db.top) + {w});
    var top := settled.(pc := Top);
    PlayTwo(s, SettleUsage, settled, AfterChapter, top);
    e := LeaveLoop(top);
    PlayAppend(s, [SettleUsage, AfterChapter], [SyncAccepted, Choose], top);
  }

  lemma LeaveLoop(s: Sys) returns (e: Sys)
    requires s.pc.Top? && s.db.run.workflow.None? && s.db.run.total == 1 && s.db.run.chapters == map[1 := Accepted]
    requires s.db.run.status.Generating? && OverBudget(s.db.run) && 1 in s.db.accepted
    requires s.db.snapshots == map[] && s.db.run.round < s.db.run.maxRounds
    ensures Play(s, [SyncAccepted, Choose]) == Some(e) && Written(e)
  {
    var synced := s.(db := Sync(s.db), pc := Synced);
    assert synced.db.run.chapters == map[1 := Accepted];
    e := synced.(pc := Generated);
    assert Chosen(synced) == Generated;
    PlayTwo(s, SyncAccepted, synced, Choose, e);
  }

  /** The book was analysed, did not pass, and a targeted revision was recommended. */
  predicate Failing(s: Sys) {
    var r := s.db.run;
    && s.pc.Analysed? && !s.pc.passed && s.pc.targeted && !s.pc.second
    && r.status.GlobalReview? && r.round < r.maxRounds && r.total == 1 && OverBudget(r)
  }

  lemma AnalyseWritten(s: Sys, sid: nat) returns (e: Sys)
    requires Written(s)
    ensures Play(s, [ReviewBook, BuildSnapshot(sid), AnalyseBook(false, true)]) == Some(e)
    ensures Failing(e) && e.db.workflows == s.db.workflows
  {
    hide OverBudget;
    var reviewed := s.(db := SetGlobalReview(s.db), pc := Review(false));
    assert HasEveryVersion(reviewed.db);
    var snapped := reviewed.(db := TakeSnapshot(reviewed.db, sid), pc := Snapped(sid, false));
    e := snapped.(db := Analyse(snapped.db, sid, false), pc := Analysed(sid, false, true, false));
    PlayThree(s, ReviewBook, reviewed, BuildSnapshot(sid), snapped, AnalyseBook(false, true), e);
    SameBudget(s.db.run, e.db.run);
  }

  lemma ReviseFailing(s: Sys, id: nat) returns (at: Sys, e: Sys)
    requires Failing(s) && id !in s.db.workflows
    ensures Play(s, [DecideRevision([1])]) == Some(at)
    ensures Fire(at, StartTask(id)) == Some(e) && StartsTask(at, e) && OverBudget(at.db.run)
  {
    hide OverBudget;
    at := s.(db := OpenRevision(s.db, true).value, pc := Revising([1]));
    PlayOne(s, DecideRevision([1]), at);
    SameBudget(s.db.run, at.db.run);
    assert [1][1..] == [];
    e := at.(db := Link(at.db, 1, id), pc := Flight(1, id, Revision([])));
  }

  /** A fresh book of one chapter, within its budget, with a revision round to spend. */
  predicate OneChapter(d: Db) {
    d.run.total == 1 && 1 !in d.accepted && !OverBudget(d.run) && d.interval > 1 && d.run.maxRounds > 0
  }

  lemma Overwrite(s: Sys) returns (actions: seq<Action>, w: nat, e: Sys)
    requires Initial(s) && OneChapter(s.db)
    ensures Play(s, actions) == Some(e) && Writing(e, w) && e.db.jobs.Keys == s.db.jobs.Keys
  {
    hide Fire, Play, Entered, OverBudget, Inv, Spent, Started, Writing, Initial, Real, LinkedSpending;
    var s1 := Entered(s);
    FirstOfOne(s);
    Enter(s);
    InitialKeeps(s);
    PlayKeeps(s, [Initialize, SyncAccepted, Choose], s1);
    var spend := Spend(OfCalls, s1.db.run.caps.calls + 1);
    w, e := SpendsAny(s1, OfCalls, s1.db.run.caps.calls + 1);
    NowWriting(s1, w, e);
    actions := [Initialize, SyncAccepted, Choose] + ([PassGate, MarkChapter, Attach(w)] + spend);
    PlayAppend(s, [Initialize, SyncAccepted, Choose], [PassGate, MarkChapter, Attach(w)] + spend, s1);
  }

  lemma FirstOfOne(s: Sys)
    requires Initial(s) && OneChapter(s.db)
    ensures s.db.run.total > 0 && s.pc.Idle? && s.db.run.status.Pending?
    ensures var d := Entered(s).db;
      && Entered(s).pc == Gate(1) && !OverBudget(d.run) && d.run.workflow.None?
      && d.run.total == 1 && d.run.chapters == map[1 := Planned] && d.run.status.Generating?
      && d.interval > 1 && d.snapshots == map[] && d.run.round < d.run.maxRounds && d.jobs.Keys == s.db.jobs.Keys
  {
    hide Entered, OverBudget;
    GateAt(s, 1);
    FirstFacts(s);
    FirstRest(s);
  }

  lemma NowWriting(s: Sys, w: nat, e: Sys)
    requires s.pc == Gate(1) && s.db.run.total == 1 && s.db.run.chapters == map[1 := Planned]
    requires s.db.run.status.Generating?
    requires s.db.interval > 1 && s.db.snapshots == map[] && s.db.run.round < s.db.run.maxRounds
    requires e == Started(s, 1, w).(db := Started(s, 1, w).db.(calls := e.db.calls))
    requires Spent(e.db.calls, {w}).calls == s.db.run.caps.calls + 1
    ensures Writing(e, w) && e.db.jobs.Keys == s.db.jobs.Keys
  {
    hide Spent;
  }

  lemma FirstRest(s: Sys)
    requires Initial(s)
    ensures var e := Entered(s).db;
      && e.interval == s.db.interval && e.snapshots == map[]
      && e.run.round == 0 && e.run.maxRounds == s.db.run.maxRounds
  {}

  /**
   From any fresh book of one chapter there is a run in which a revision workflow is
   started although the run is over its budget: no gate stands before it.
   */
  lemma RevisionStartsOverBudget(s: Sys, v: nat, j: nat, sid: nat) returns (t: seq<Sys>)
    requires Initial(s) && OneChapter(s.db) && j !in s.db.jobs
    ensures IsRun(t) && |t| > 1 && t[0] == s
    ensures StartsTask(t[|t| - 2], t[|t| - 1]) && OverBudget(t[|t| - 2].db.run)
  {
    hide Initial, Fire, Play, OverBudget, Writing, Written, Unsettled, Failing, OneChapter, StartsTask;
    var a, w, s1 := Overwrite(s);
    var s2 := RecordWriting(s1, w, v, j);
    PlayAppend(s, a, [Accept(v), RecordChapter(j)], s1);
    var b := a + [Accept(v), RecordChapter(j)];
    var s3 := SettleWriting(s2, w);
    PlayAppend(s, b, [SettleUsage, AfterChapter] + [SyncAccepted, Choose], s2);
    var c := b + ([SettleUsage, AfterChapter] + [SyncAccepted, Choose]);
    var s4 := AnalyseWritten(s3, sid);
    PlayAppend(s, c, [ReviewBook, BuildSnapshot(sid), AnalyseBook(false, true)], s3);
    var d := c + [ReviewBook, BuildSnapshot(sid), AnalyseBook(false, true)];
    var id := FiniteSets.NextId(s4.db.workflows.Keys);
    var at, e := ReviseFailing(s4, id);
    PlayAppend(s, d, [DecideRevision([1])], s4);
    var run := PlayIsRun(s, d + [DecideRevision([1])], at);
    assert Step(at, e);
    t := run + [e];
    forall i | 0 <= i < |t| - 1 ensures Step(t[i], t[i + 1]) {
      if i < |run| - 1 { assert t[i] == run[i] && t[i + 1] == run[i + 1]; }
    }
  }

  lemma OverBudgetRevisionExists() returns (t: seq<Sys>)
    ensures IsRun(t) && |t| > 1 && StartsTask(t[|t| - 2], t[|t| - 1]) && OverBudget(t[|t| - 2].db.run)
  {
    t := RevisionStartsOverBudget(Created(1, 1, 5, Usage(100, 1_000_000, 0), 0), 1, 1, 1);
  }
}
