/** Which accepted chapters on the check interval never get their periodic check. */
module BookChecks {
  import opened Options
  import opened BookModel
  import opened BookMachine
  import opened BookInvariant
  import opened BookPreservation
  import opened BookTheorems
  import opened BookCounts
  import opened BookCrashes

  /** Chapter `c` is accepted and has no check, and the worker is not on its way to one. */
  predicate Missed(s: Sys, c: nat) {
    StateIs(s.db.run.chapters, c, Accepted) && c !in s.db.run.checks && CheckDue(s.pc) != Some(c)
  }

  /** A check is recorded by the worker that owes it, and owed only after a recording. */
  predicate DueStep(s: Sys, t: Sys) {
    && (|| t.db.run.checks == s.db.run.checks
        || (s.pc.Checking? && t.db.run.checks == s.db.run.checks + [s.pc.chapter]))
    && (|| CheckDue(t.pc).None? || CheckDue(t.pc) == CheckDue(s.pc)
        || (s.pc.Ended? && s.pc.mode.Generation? && CheckDue(t.pc) == Some(s.pc.chapter)))
  }

  lemma ExecuteDue(s: Sys, a: Action, t: Sys)
    requires Execute(s, a) == Some(t)
    ensures DueStep(s, t)
  {
    hide Spent, AcceptedSet, DoneSet, ReviewSet, Progress, OverBudget, Decide;
  }

  lemma ReviewDue(s: Sys, a: Action, t: Sys)
    requires ReviewStep(s, a) == Some(t)
    ensures DueStep(s, t)
  {
    hide HasEveryVersion, CurrentVersions, Distinct;
  }

  lemma WorkflowDue(s: Sys, a: Action, t: Sys)
    requires WorkflowStep(s, a) == Some(t)
    ensures DueStep(s, t)
  {}

  lemma EnvironmentDue(s: Sys, a: Action, t: Sys)
    requires Environment(s, a) == Some(t)
    ensures DueStep(s, t)
  {}

  lemma FireDue(s: Sys, a: Action, t: Sys)
    requires Fire(s, a) == Some(t)
    ensures DueStep(s, t)
  {
    hide DueStep, Execute, ReviewStep, WorkflowStep, Environment;
    if Execute(s, a) == Some(t) { ExecuteDue(s, a, t); }
    else if ReviewStep(s, a) == Some(t) { ReviewDue(s, a, t); }
    else if WorkflowStep(s, a) == Some(t) { WorkflowDue(s, a, t); }
    else { EnvironmentDue(s, a, t); }
  }

  lemma EndedIsRunning(s: Sys)
    requires Inv(s) && s.pc.Ended? && s.pc.mode.Generation?
    ensures StateIs(s.db.run.chapters, s.pc.chapter, Running)
  {
    hide DbInv, CheckInv, TaskInv, HandInv;
  }

  lemma FireMissed(s: Sys, a: Action, t: Sys, c: nat)
    requires Inv(s) && Missed(s, c) && Fire(s, a) == Some(t)
    ensures Missed(t, c)
  {
    hide Inv, Fire;
    FireDue(s, a, t);
    assert Step(s, t);
    StepGrows(s, t);
    if s.pc.Ended? && s.pc.mode.Generation? { EndedIsRunning(s); }
  }

  lemma {:induction false} PlayMissed(s: Sys, actions: seq<Action>, e: Sys, c: nat)
    requires Inv(s) && Missed(s, c) && Play(s, actions) == Some(e)
    ensures Missed(e, c)
    decreases |actions|
  {
    hide Inv, Missed, Fire;
    if actions != [] {
      var x := Fire(s, actions[0]).value;
      FireMissed(s, actions[0], x, c);
      ActionKeeps(s, actions[0], x);
      PlayMissed(x, actions[1..], e, c);
    }
  }

  /** A missed check is missed for good, however often execute is re-entered. */
  lemma {:induction false} MissedForever(t: seq<Sys>, i: nat, k: nat, c: nat)
    requires IsRun(t) && i <= k < |t| && Missed(t[i], c)
    ensures Missed(t[k], c)
    decreases k - i
  {
    hide Inv, Missed, Fire, Initial;
    if i < k {
      MissedForever(t, i, k - 1, c);
      RunKeeps(t, k - 1);
      assert Step(t[k - 1], t[k - 1 + 1]);
      var a :| Fire(t[k - 1], a) == Some(t[k]);
      FireMissed(t[k - 1], a, t[k], c);
    }
  }

  // ------------------------------------------------- exactly which checks can still come

  /** Some continuation checks chapter `c`. */
  ghost predicate CanBeChecked(s: Sys, c: nat) {
    exists actions: seq<Action> :: ChecksAt(s, actions, c)
  }

  predicate ChecksAt(s: Sys, actions: seq<Action>, c: nat) {
    var e := Play(s, actions);
    e.Some? && c in e.value.db.run.checks
  }

  lemma {:induction false} PlayTallies(s: Sys, actions: seq<Action>, e: Sys)
    requires Inv(s) && Tallies(s.db, s.pc) && Play(s, actions) == Some(e)
    ensures Tallies(e.db, e.pc) && e.db.interval == s.db.interval
    decreases |actions|
  {
    hide Inv, Tallies, Fire;
    if actions != [] {
      var x := Fire(s, actions[0]).value;
      assert Step(s, x);
      StepTallies(s, x);
      StepGrows(s, x);
      ActionKeeps(s, actions[0], x);
      PlayTallies(x, actions[1..], e);
    }
  }

  /** What the worker still does to check the chapter it has just recorded. */
  function TheCheck(pc: Pc): seq<Action> {
    match pc
    case RecordedPc(_, _, _, _) => [SettleUsage, AfterChapter, CheckPeriodically(false)]
    case Settled(_, _, _) => [AfterChapter, CheckPeriodically(false)]
    case _ => [CheckPeriodically(false)]
  }

  lemma CheckComes(s: Sys, c: nat)
    requires Inv(s) && CheckDue(s.pc) == Some(c) && StateIs(s.db.run.chapters, c, Accepted)
    requires AtInterval(c, s.db.interval)
    ensures ChecksAt(s, TheCheck(s.pc), c)
  {
    hide Inv, Play, Spent;
    DueIsCompleted(s, c);
    match s.pc
    case Checking(_) =>
      CheckFires(s, c);
    case Settled(_, _, _) =>
      SettledCheck(s, c);
    case RecordedPc(_, w, _, _) =>
      var x := Sys(UpdateUsage(s.db, w), Settled(c, WorkflowCompleted, Generation), 0);
      SettledCheck(x, c);
      PlayOne(s, SettleUsage, x);
      PlayAppend(s, [SettleUsage], [AfterChapter, CheckPeriodically(false)], x);
      assert [SettleUsage] + [AfterChapter, CheckPeriodically(false)] == TheCheck(s.pc);
  }

  lemma DueIsCompleted(s: Sys, c: nat)
    requires Inv(s) && CheckDue(s.pc) == Some(c) && StateIs(s.db.run.chapters, c, Accepted)
    ensures s.pc.RecordedPc? || s.pc.Settled? ==> s.pc.status.WorkflowCompleted?
  {
    hide DbInv, CheckInv, TaskInv, HandInv;
  }

  lemma CheckFires(s: Sys, c: nat)
    requires s.pc == Checking(c)
    ensures ChecksAt(s, [CheckPeriodically(false)], c)
  {
    var e := s.(db := s.db.(run := s.db.run.(checks := s.db.run.checks + [c])), pc := Top);
    PlayOne(s, CheckPeriodically(false), e);
  }

  lemma SettledCheck(s: Sys, c: nat)
    requires s.pc == Settled(c, WorkflowCompleted, Generation) && AtInterval(c, s.db.interval)
    ensures ChecksAt(s, [AfterChapter, CheckPeriodically(false)], c)
  {
    var x := s.(pc := Checking(c));
    CheckFires(x, c);
    PlayOne(s, AfterChapter, x);
    PlayAppend(s, [AfterChapter], [CheckPeriodically(false)], x);
    assert [AfterChapter] + [CheckPeriodically(false)] == [AfterChapter, CheckPeriodically(false)];
  }

  /**
   In every reachable state an accepted chapter without a check can still be checked
   if and only if it is on the interval and the worker is between its recording and
   its check. A crash, a pause or an error there loses the check for good.
   */
  lemma CheckedExactly(t: seq<Sys>, n: nat, c: nat)
    requires IsRun(t) && n < |t| && StateIs(t[n].db.run.chapters, c, Accepted) && c !in t[n].db.run.checks
    ensures CanBeChecked(t[n], c) <==> CheckDue(t[n].pc) == Some(c) && AtInterval(c, t[n].db.interval)
  {
    hide Inv, Step, Initial, Fire, Play;
    RunKeeps(t, n);
    ReviewsAndChecks(t, n);
    if CheckDue(t[n].pc) == Some(c) && AtInterval(c, t[n].db.interval) {
      CheckComes(t[n], c);
    }
    if actions: seq<Action> :| ChecksAt(t[n], actions, c) {
      var e := Play(t[n], actions).value;
      PlayTallies(t[n], actions, e);
      if CheckDue(t[n].pc) != Some(c) { PlayMissed(t[n], actions, e, c); }
    }
  }

  /** A crash between the recording of an accepted chapter and its check is such a loss. */
  lemma CrashLosesCheck(t: seq<Sys>, n: nat, c: nat) returns (e: Sys)
    requires IsRun(t) && n < |t| && CheckDue(t[n].pc) == Some(c) && StateIs(t[n].db.run.chapters, c, Accepted)
    ensures Fire(t[n], Crash) == Some(e) && Missed(e, c) && !CanBeChecked(e, c)
  {
    hide Inv, Step, Initial;
    RunKeeps(t, n);
    CrashFires(t[n]);
    e := t[n].(pc := Idle);
    NotYetChecked(t[n], c);
    ActionKeeps(t[n], Crash, e);
    forall actions: seq<Action> ensures !ChecksAt(e, actions, c) {
      if ChecksAt(e, actions, c) { PlayMissed(e, actions, Play(e, actions).value, c); }
    }
  }

  lemma NotYetChecked(s: Sys, c: nat)
    requires Inv(s) && CheckDue(s.pc) == Some(c)
    ensures c !in s.db.run.checks
  {
    hide DbInv, PlaceInv, TaskInv, HandInv;
  }
}
