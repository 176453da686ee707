/** Revision rounds: at most one more for every time `execute` is entered. */
module BookRounds {
  import opened Options
  import opened BookModel
  import opened BookMachine
  import opened BookTheorems

  /** The worker has decided about its revision, or is outside `execute`. */
  predicate Decided(pc: Pc) {
    match pc
    case Revising(_) => true
    case Flight(_, _, mode) => mode.Revision?
    case Ended(_, _, _, mode) => mode.Revision?
    case RecordedPc(_, _, _, mode) => mode.Revision?
    case Settled(_, _, mode) => mode.Revision?
    case Review(second) => second
    case Snapped(_, second) => second
    case Analysed(_, _, _, second) => second
    case Stopping(_) => true
    case Idle => true
    case Returned => true
    case _ => false
  }

  /** `execute` is entered: its first transaction was not refused. */
  predicate Enters(s: Sys, t: Sys) {
    s.pc.Idle? && t.pc.Top?
  }

  /** A decided worker opens no further round, and a step opens at most one. */
  predicate RoundStep(s: Sys, t: Sys) {
    && (Decided(s.pc) ==> Decided(t.pc) && t.db.run.round == s.db.run.round)
    && (t.db.run.round == s.db.run.round || (t.db.run.round == s.db.run.round + 1 && Decided(t.pc)))
  }

  lemma ExecuteRound(s: Sys, a: Action, t: Sys)
    requires Execute(s, a) == Some(t) && !a.RecordChapter? && !Enters(s, t)
    ensures RoundStep(s, t)
  {
    hide Spent, AcceptedSet, DoneSet, Progress, Decide, OverBudget;
  }

  lemma RecordRound(s: Sys, a: Action, t: Sys)
    requires Execute(s, a) == Some(t) && a.RecordChapter?
    ensures RoundStep(s, t)
  {}

  lemma ReviewRound(s: Sys, a: Action, t: Sys)
    requires ReviewStep(s, a) == Some(t)
    ensures RoundStep(s, t)
  {}

  lemma WorkflowRound(s: Sys, a: Action, t: Sys)
    requires WorkflowStep(s, a) == Some(t)
    ensures RoundStep(s, t)
  {}

  lemma EnvironmentRound(s: Sys, a: Action, t: Sys)
    requires Environment(s, a) == Some(t)
    ensures RoundStep(s, t)
  {}

  lemma StepRound(s: Sys, t: Sys)
    requires Step(s, t) && !Enters(s, t)
    ensures RoundStep(s, t)
  {
    hide RoundStep, Enters, Execute, ReviewStep, WorkflowStep, Environment;
    var a :| Fire(s, a) == Some(t);
    if Execute(s, a) == Some(t) {
      if a.RecordChapter? { RecordRound(s, a, t); } else { ExecuteRound(s, a, t); }
    }
    else if ReviewStep(s, a) == Some(t) { ReviewRound(s, a, t); }
    else if WorkflowStep(s, a) == Some(t) { WorkflowRound(s, a, t); }
    else { EnvironmentRound(s, a, t); }
  }

  /**
   Between two entries into `execute` at most one revision round is opened, and
   none once this execution has decided; over the whole run never more than allowed.
   */
  lemma {:induction false} OneRoundPerExecution(t: seq<Sys>, i: nat, k: nat)
    requires IsRun(t) && i <= k < |t|
    requires forall m | i <= m < k :: !Enters(t[m], t[m + 1])
    ensures t[i].db.run.round <= t[k].db.run.round <= t[i].db.run.round + 1
    ensures Decided(t[i].pc) ==> Decided(t[k].pc) && t[k].db.run.round == t[i].db.run.round
    ensures t[k].db.run.round > t[i].db.run.round ==> Decided(t[k].pc)
    ensures t[k].db.run.round <= t[k].db.run.maxRounds
    decreases k - i
  {
    hide Step, Enters, Decided;
    JobsPerChapter(t, k, 0);
    if i < k {
      OneRoundPerExecution(t, i, k - 1);
      assert !Enters(t[k - 1], t[k - 1 + 1]) && Step(t[k - 1], t[k - 1 + 1]);
      StepRound(t[k - 1], t[k]);
    }
  }
}
