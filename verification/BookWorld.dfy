/**
 What `execute` meets and asks, as the answers of an arbitrary world: what happens
 between two transactions, how chapter workflows go, what the checks and analyses say
 and what a revision plan holds. A history is justified by a world when every choice
 in it that is not `execute`'s own is one of its answers.
 */
module BookWorld {
  import opened Options
  import opened BookModel
  import opened BookMachine
  import opened BookCauses
  import opened BookPeace

  /** How an interlude ends: execution goes on, the worker dies, or something is raised. */
  datatype Fate = GoesOn | Dies | Interrupted(reason: Reason)

  /** Between two transactions: what others do, in this order, and whether it ends here. */
  datatype Interlude = Interlude(actions: seq<Action>, fate: Fate)

  /** One provider call of a workflow. */
  datatype Answer = Answer(tokens: nat, cost: Option<nat>, succeeded: bool)

  /**
   A chapter workflow: its provider calls, how it ends, and the version it accepts if it
   completes. One that does not settle, and so is still running, has raised an error.
   */
  datatype Course = Course(calls: seq<Answer>, end: WorkflowStatus, version: nat)

  datatype Verdict = Verdict(passed: bool, targeted: bool)

  /** The chapters of a revision plan, in the order of its tasks. */
  type Plan = tasks: seq<nat> | Distinct(tasks) witness []

  /** The answers, by the time of the question. */
  datatype World = World(
    interlude: nat -> Interlude,
    course: nat -> Course,
    critical: nat -> bool,
    verdict: nat -> Verdict,
    plan: nat -> Plan)

  /** The steps in which nothing is asked. */
  predicate Unasked(a: Action) {
    match a
    case Initialize | SyncAccepted | Choose | PassGate | MarkChapter | Attach(_) | RecordChapter(_)
       | SettleUsage | AfterChapter | FinishReview | ReviewBook | BuildSnapshot(_) | CompleteBook
       | StartTask(_) | EndRevision | GiveUp | Handle => true
    case _ => false
  }

  /** The world's answer at time `n` is what action `a` does. */
  predicate Says(w: World, n: nat, a: Action) {
    match a
    case ProviderCall(tokens, cost, succeeded) => Answer(tokens, cost, succeeded) in w.course(n).calls
    case Accept(version) => w.course(n).end.WorkflowCompleted? && w.course(n).version == version
    case Settle(end) => !end.WorkflowCompleted? && w.course(n).end == end
    case CheckPeriodically(critical) => w.critical(n) == critical
    case AnalyseBook(passed, targeted) => w.verdict(n) == Verdict(passed, targeted)
    case DecideRevision(tasks) => w.plan(n) == tasks
    case Raise(reason) =>
      || w.interlude(n).fate == Interrupted(reason)
      || (reason.ExecutionError? && w.course(n).end.WorkflowRunning?)
    case Crash => w.interlude(n).fate.Dies?
    case _ => a in w.interlude(n).actions
  }

  ghost predicate Justified(w: World, a: Action) {
    Unasked(a) || exists n :: Says(w, n, a)
  }

  lemma NotAsked(w: World, a: Action)
    requires Unasked(a)
    ensures Justified(w, a)
  {}

  lemma Said(w: World, n: nat, a: Action)
    requires Says(w, n, a)
    ensures Justified(w, a)
  {}

  /** What a worker dying, a workflow, a check, an analysis and a plan justify. */
  lemma DeathSaid(w: World, n: nat)
    requires w.interlude(n).fate.Dies?
    ensures Justified(w, Crash)
  {
    Said(w, n, Crash);
  }

  lemma RaiseSaid(w: World, n: nat, reason: Reason)
    requires w.interlude(n).fate == Interrupted(reason)
             || (reason.ExecutionError? && w.course(n).end.WorkflowRunning?)
    ensures Justified(w, Raise(reason))
  {
    Said(w, n, Raise(reason));
  }

  lemma CallSaid(w: World, n: nat, answer: Answer)
    requires answer in w.course(n).calls
    ensures Justified(w, ProviderCall(answer.tokens, answer.cost, answer.succeeded))
  {
    Said(w, n, ProviderCall(answer.tokens, answer.cost, answer.succeeded));
  }

  lemma EndSaid(w: World, n: nat)
    ensures w.course(n).end.WorkflowCompleted? ==> Justified(w, Accept(w.course(n).version))
    ensures !w.course(n).end.WorkflowCompleted? ==> Justified(w, Settle(w.course(n).end))
  {
    if w.course(n).end.WorkflowCompleted? { Said(w, n, Accept(w.course(n).version)); }
    else { Said(w, n, Settle(w.course(n).end)); }
  }

  lemma CheckSaid(w: World, n: nat)
    ensures Justified(w, CheckPeriodically(w.critical(n)))
  {
    Said(w, n, CheckPeriodically(w.critical(n)));
  }

  lemma VerdictSaid(w: World, n: nat)
    ensures Justified(w, AnalyseBook(w.verdict(n).passed, w.verdict(n).targeted))
  {
    Said(w, n, AnalyseBook(w.verdict(n).passed, w.verdict(n).targeted));
  }

  lemma PlanSaid(w: World, n: nat)
    ensures Justified(w, DecideRevision(w.plan(n)))
  {
    Said(w, n, DecideRevision(w.plan(n)));
  }

  /** The script of the history `t`: its actions, each justified by the world. */
  ghost predicate Told(w: World, t: seq<Sys>, script: seq<Action>) {
    Scripted(t, script) && forall i | 0 <= i < |script| :: Justified(w, script[i])
  }

  lemma ToldNext(w: World, t: seq<Sys>, script: seq<Action>, a: Action, s: Sys)
    requires Told(w, t, script) && Justified(w, a) && Fire(t[|t| - 1], a) == Some(s)
    ensures Told(w, t + [s], script + [a])
  {
    hide Fire, Justified;
  }

  // ----------------------------------------------------------------- gentle worlds

  /** Nothing is raised from outside, and no worker dies. */
  ghost predicate Untroubled(w: World) {
    forall n :: w.interlude(n).fate.GoesOn? && !w.course(n).end.WorkflowRunning?
  }

  /** Nobody does anything between the transactions. */
  ghost predicate Undisturbed(w: World) {
    forall n :: w.interlude(n) == Interlude([], GoesOn)
  }

  /** The same request, or error, is raised in every interlude: one that stays pending. */
  ghost predicate Interrupts(w: World, reason: Reason) {
    forall n :: w.interlude(n).fate == Interrupted(reason)
  }

  /** Undisturbed, every workflow completes, no check is critical and every analysis passes. */
  ghost predicate Peaceful(w: World) {
    Undisturbed(w) && forall n :: w.course(n).end.WorkflowCompleted? && !w.critical(n) && w.verdict(n).passed
  }

  /** In such a world all that can be justified is smooth. */
  lemma PeacefulIsSmooth(w: World, a: Action)
    requires Peaceful(w) && Justified(w, a)
    ensures Smooth(a)
  {
    if !Unasked(a) {
      var n :| Says(w, n, a);
      assert w.interlude(n) == Interlude([], GoesOn) && w.course(n).end.WorkflowCompleted?;
      assert !w.critical(n) && w.verdict(n).passed;
    }
  }

  lemma PeacefulIsUntroubled(w: World)
    requires Peaceful(w)
    ensures Untroubled(w)
  {
    forall n ensures w.interlude(n).fate.GoesOn? && !w.course(n).end.WorkflowRunning? {
      assert w.interlude(n) == Interlude([], GoesOn) && w.course(n).end.WorkflowCompleted?;
    }
  }

  /** In an untroubled world nothing is raised from outside, and nothing crashes. */
  lemma NothingRaised(w: World, a: Action)
    requires Untroubled(w) && Justified(w, a)
    ensures !a.Raise? && !a.Crash?
  {
    if !Unasked(a) {
      var n :| Says(w, n, a);
      assert w.interlude(n).fate.GoesOn? && !w.course(n).end.WorkflowRunning?;
    }
  }

  /** Nobody dies of a pending request. */
  lemma NobodyDies(w: World, reason: Reason, a: Action)
    requires Interrupts(w, reason) && Justified(w, a)
    ensures !a.Crash?
  {
    if !Unasked(a) {
      var n :| Says(w, n, a);
      assert w.interlude(n).fate == Interrupted(reason);
    }
  }
}
