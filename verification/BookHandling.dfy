/** How the handler leaves a run whose execution raised an error. */
module BookHandling {
  import opened Options
  import opened BookModel
  import opened BookMachine
  import opened BookInvariant
  import opened BookPreservation

  /** An error is raised over a run that works or has ended: never over a paused or waiting one. */
  predicate ErrorPlace(s: Sys) {
    s.pc == Stopping(ExecutionError) ==> Working(s.db.run.status) || TerminalRun(s.db.run.status)
  }

  lemma ExecuteErrors(s: Sys, a: Action, t: Sys)
    requires StatusInv(s.db.run.status, s.pc) && Execute(s, a) == Some(t)
    ensures ErrorPlace(t)
  {
    hide Spent, AcceptedSet, DoneSet, Progress, OverBudget, Recordable;
  }

  lemma ReviewErrors(s: Sys, a: Action, t: Sys)
    requires StatusInv(s.db.run.status, s.pc) && ReviewStep(s, a) == Some(t)
    ensures ErrorPlace(t)
  {
    hide HasEveryVersion, CurrentVersions, Distinct;
  }

  lemma WorkflowErrors(s: Sys, a: Action, t: Sys)
    requires StatusInv(s.db.run.status, s.pc) && WorkflowStep(s, a) == Some(t)
    ensures ErrorPlace(t)
  {}

  lemma EnvironmentErrors(s: Sys, a: Action, t: Sys)
    requires ErrorPlace(s) && Environment(s, a) == Some(t)
    ensures ErrorPlace(t)
  {}

  lemma StepErrors(s: Sys, t: Sys)
    requires Inv(s) && ErrorPlace(s) && Step(s, t)
    ensures ErrorPlace(t)
  {
    hide Inv, ErrorPlace, StatusInv, Execute, ReviewStep, WorkflowStep, Environment;
    var a :| Fire(s, a) == Some(t);
    StatusFacts(s);
    if Execute(s, a) == Some(t) { ExecuteErrors(s, a, t); }
    else if ReviewStep(s, a) == Some(t) { ReviewErrors(s, a, t); }
    else if WorkflowStep(s, a) == Some(t) { WorkflowErrors(s, a, t); }
    else { EnvironmentErrors(s, a, t); }
  }

  lemma {:induction false} RunErrors(t: seq<Sys>, n: nat)
    requires IsRun(t) && n < |t|
    ensures ErrorPlace(t[n])
    decreases n
  {
    hide Inv, ErrorPlace, Step, Initial;
    if n == 0 {
      InitialErrors(t[0]);
    } else {
      RunErrors(t, n - 1);
      RunKeeps(t, n - 1);
      assert Step(t[n - 1], t[n - 1 + 1]);
      StepErrors(t[n - 1], t[n]);
    }
  }

  lemma InitialErrors(s: Sys)
    requires Initial(s)
    ensures ErrorPlace(s)
  {}

  /**
   In every reachable state in which an error is to be handled: the handler leaves
   the run ended if and only if no cancellation is pending. A run that has ended
   keeps its status and any other becomes FAILED; a pending cancellation stays.
   */
  lemma ErrorEndsRunExactly(t: seq<Sys>, n: nat)
    requires IsRun(t) && n + 1 < |t| && t[n].pc == Stopping(ExecutionError) && Fire(t[n], Handle) == Some(t[n + 1])
    ensures var was, now := t[n].db.run.status, t[n + 1].db.run.status;
      && (TerminalRun(now) <==> !was.CancelRequested?)
      && now == (if TerminalRun(was) || was.CancelRequested? then was else Failed)
  {
    hide Inv, Initial, Step;
    RunErrors(t, n);
  }
}
