/** The columns the general invariant leaves open: the needs-review count, the periodic checks, and progress. */
module BookCounts {
  import FiniteSets
  import opened Options
  import opened BookModel
  import opened BookMachine
  import opened BookInvariant
  import opened BookPreservation
  import opened BookTheorems

  // ------------------------------------------------------------------ progress

  /** `round`: the nearest whole number, and of two equally near the even one. */
  lemma RoundsToNearest(a: nat, d: nat)
    requires d > 0
    ensures var r := RoundHalfEven(a, d);
      && 2 * a - d <= 2 * (r * d) <= 2 * a + d
      && (2 * (r * d) == 2 * a - d || 2 * (r * d) == 2 * a + d ==> r % 2 == 0)
  {
    var q, m := a / d, a % d;
    assert a == q * d + m;
    assert (q + 1) * d == q * d + d;
  }

  /**
   Generation takes progress from 0 to 75. In a book of up to 150 chapters 75 means
   that every chapter is done; in a longer one the last may still be open.
   */
  lemma ProgressEnds(completed: nat, total: nat)
    requires total > 0 && completed <= total
    ensures Progress(0, total) == 0 && Progress(total, total) == 75
    ensures total <= 150 ==> (Progress(completed, total) == 75 <==> completed == total)
    ensures Progress(150, 151) == 75
  {
    ExactQuotient(0, total);
    ExactQuotient(75, total);
    if completed < total <= 150 { NotYetDone(completed, total); }
  }

  lemma NotYetDone(completed: nat, total: nat)
    requires completed < total <= 150
    ensures Progress(completed, total) != 75
  {
    RoundsToNearest(75 * completed, total);
  }

  lemma ExactQuotient(k: nat, d: nat)
    requires d > 0
    ensures RoundHalfEven(k * d, d) == k
  {
    assert (k * d) / d == k && (k * d) % d == 0 by { DividesBack(k, d); }
  }

  lemma DividesBack(k: nat, d: nat)
    requires d > 0
    ensures (k * d) / d == k && (k * d) % d == 0
  {
    var q, m := (k * d) / d, (k * d) % d;
    assert k * d == q * d + m;
    Scaled(q + 1, k, d);
    Scaled(k + 1, q, d);
    assert (q + 1) * d == q * d + d && (k + 1) * d == k * d + d;
  }

  // ------------------------------------------- the needs-review column, the checks

  /** The column is never below the count, and checks follow multiples of the interval. */
  predicate Tallies(d: Db, pc: Pc) {
    && |ReviewSet(d.run.chapters)| <= d.run.needsReview
    && (forall c | c in d.run.checks :: AtInterval(c, d.interval))
    && (pc.Checking? ==> AtInterval(pc.chapter, d.interval))
  }

  predicate AtInterval(c: nat, interval: nat) {
    interval > 0 && c % interval == 0
  }

  /** Steps that leave both alone. */
  predicate Untallied(s: Sys, t: Sys) {
    && t.db.run.chapters == s.db.run.chapters && t.db.run.needsReview == s.db.run.needsReview
    && t.db.run.checks == s.db.run.checks && t.db.interval == s.db.interval && !t.pc.Checking?
  }

  lemma SyncTallies(s: Sys, t: Sys)
    requires Tallies(s.db, s.pc) && Execute(s, SyncAccepted) == Some(t)
    ensures Tallies(t.db, t.pc)
  {
    FiniteSets.SubsetSize(ReviewSet(t.db.run.chapters), ReviewSet(s.db.run.chapters));
  }

  lemma MarkTallies(s: Sys, t: Sys)
    requires Tallies(s.db, s.pc) && Execute(s, MarkChapter) == Some(t)
    ensures Tallies(t.db, t.pc)
  {
    FiniteSets.SubsetSize(ReviewSet(t.db.run.chapters), ReviewSet(s.db.run.chapters));
  }

  lemma CheckTallies(s: Sys, a: Action, t: Sys)
    requires Tallies(s.db, s.pc) && Execute(s, a) == Some(t) && a.CheckPeriodically?
    ensures Tallies(t.db, t.pc)
  {
    hide ReviewSet;
  }

  lemma AfterTallies(s: Sys, t: Sys)
    requires Tallies(s.db, s.pc) && Execute(s, AfterChapter) == Some(t)
    ensures Tallies(t.db, t.pc)
  {
    hide ReviewSet;
  }

  lemma RecordTallies(s: Sys, j: nat, t: Sys)
    requires Tallies(s.db, s.pc) && Execute(s, RecordChapter(j)) == Some(t)
    ensures Tallies(t.db, t.pc) && t.db.run.needsReview == |ReviewSet(t.db.run.chapters)|
  {}

  lemma ExecuteUntallied(s: Sys, a: Action, t: Sys)
    requires Execute(s, a) == Some(t)
    requires a.Initialize? || a.Choose? || a.PassGate? || a.Attach? || a.SettleUsage? || a.FinishReview?
    ensures Untallied(s, t)
  {
    hide Decide, OverBudget, Spent;
  }

  lemma ReviewUntallied(s: Sys, a: Action, t: Sys)
    requires ReviewStep(s, a) == Some(t)
    ensures Untallied(s, t)
  {
    hide HasEveryVersion, CurrentVersions, Distinct, ReviewSet, SetJobWorkflow;
  }

  lemma WorkflowTallies(s: Sys, a: Action, t: Sys)
    requires Tallies(s.db, s.pc) && WorkflowStep(s, a) == Some(t)
    ensures Tallies(t.db, t.pc)
  {
    hide ReviewSet;
  }

  lemma EnvironmentTallies(s: Sys, a: Action, t: Sys)
    requires Tallies(s.db, s.pc) && Environment(s, a) == Some(t)
    ensures Tallies(t.db, t.pc)
  {
    hide ReviewSet;
  }

  lemma UntalliedKeeps(s: Sys, t: Sys)
    requires Tallies(s.db, s.pc) && Untallied(s, t)
    ensures Tallies(t.db, t.pc)
  {}

  lemma StepTallies(s: Sys, t: Sys)
    requires Tallies(s.db, s.pc) && Step(s, t)
    ensures Tallies(t.db, t.pc)
  {
    hide Tallies, Untallied, Execute, ReviewStep, WorkflowStep, Environment;
    var a :| Fire(s, a) == Some(t);
    match a
    case SyncAccepted => SyncTallies(s, t);
    case MarkChapter => MarkTallies(s, t);
    case RecordChapter(j) => RecordTallies(s, j, t);
    case CheckPeriodically(_) => CheckTallies(s, a, t);
    case AfterChapter => AfterTallies(s, t);
    case Initialize | Choose | PassGate | Attach(_) | SettleUsage | FinishReview =>
      ExecuteUntallied(s, a, t);
      UntalliedKeeps(s, t);
    case _ =>
      if ReviewStep(s, a) == Some(t) { ReviewUntallied(s, a, t); UntalliedKeeps(s, t); }
      else if WorkflowStep(s, a) == Some(t) { WorkflowTallies(s, a, t); }
      else { EnvironmentTallies(s, a, t); }
  }

  lemma InitialTallies(s: Sys)
    requires Initial(s)
    ensures Tallies(s.db, s.pc)
  {
    assert ReviewSet(s.db.run.chapters) == {};
  }

  /**
   The needs-review column is never below the number of chapters under review, and
   equals it right after a recording; every periodic check follows a multiple of
   the configured interval.
   */
  lemma {:induction false} ReviewsAndChecks(t: seq<Sys>, n: nat)
    requires IsRun(t) && n < |t|
    ensures Tallies(t[n].db, t[n].pc)
    ensures n > 0 && (exists j :: Fire(t[n - 1], RecordChapter(j)) == Some(t[n])) ==>
              t[n].db.run.needsReview == |ReviewSet(t[n].db.run.chapters)|
    decreases n
  {
    hide Tallies, Step, Initial;
    if n == 0 {
      InitialTallies(t[0]);
    } else {
      ReviewsAndChecks(t, n - 1);
      assert Step(t[n - 1], t[n - 1 + 1]);
      StepTallies(t[n - 1], t[n]);
      if j :| Fire(t[n - 1], RecordChapter(j)) == Some(t[n]) { RecordTallies(t[n - 1], j, t[n]); }
    }
  }

  // --------------------------------------------- when the needs-review column is exact

  predicate Exact(r: Run) {
    r.needsReview == |ReviewSet(r.chapters)|
  }

  /** A chapter under review has an accepted version, which someone else must have accepted. */
  predicate Outrun(r: Run, accepted: map<nat, nat>) {
    exists c | c in ReviewSet(r.chapters) :: c in accepted
  }

  /** The step is a synchronisation that takes a chapter out of review without recounting the column. */
  predicate Overlooks(s: Sys, t: Sys) {
    s.pc.Top? && t.pc.Synced? && Outrun(s.db.run, s.db.accepted)
  }

  predicate Records(s: Sys, t: Sys) {
    s.pc.Ended? && t.pc.RecordedPc?
  }

  lemma SyncedReviews(r: Run, accepted: map<nat, nat>)
    requires r.total > 0
    ensures ReviewSet(RowSynced(r, accepted).chapters) <= ReviewSet(r.chapters)
    ensures ReviewSet(RowSynced(r, accepted).chapters) == ReviewSet(r.chapters) <==> !Outrun(r, accepted)
  {
    hide AcceptedSet, DoneSet, Progress;
    var after := ReviewSet(RowSynced(r, accepted).chapters);
    assert forall c | c in ReviewSet(r.chapters) :: c in after <==> c !in accepted;
  }

  /** A synchronisation keeps an exact column exact if and only if no chapter under review was accepted meanwhile. */
  lemma SyncExactly(d: Db)
    requires d.run.total > 0 && Exact(d.run)
    ensures Exact(Sync(d).run) <==> !Outrun(d.run, d.accepted)
  {
    SyncedReviews(d.run, d.accepted);
    FiniteSets.SubsetSize(ReviewSet(Sync(d).run.chapters), ReviewSet(d.run.chapters));
  }

  /** What a step that records nothing does to the chapters under review. */
  predicate ReviewStays(s: Sys, t: Sys) {
    && t.db.run.needsReview == s.db.run.needsReview
    && ReviewSet(t.db.run.chapters) <= ReviewSet(s.db.run.chapters)
    && (ReviewSet(t.db.run.chapters) == ReviewSet(s.db.run.chapters) <==> !Overlooks(s, t))
  }

  lemma SyncReviews(s: Sys, t: Sys)
    requires Execute(s, SyncAccepted) == Some(t)
    ensures ReviewStays(s, t)
  {
    hide ReviewSet, AcceptedSet, DoneSet, Progress;
    SyncedReviews(s.db.run, s.db.accepted);
  }

  lemma MarkReviews(s: Sys, t: Sys)
    requires Inv(s) && Execute(s, MarkChapter) == Some(t)
    ensures ReviewStays(s, t)
  {
    hide DbInv, CheckInv, TaskInv, HandInv;
  }

  lemma ExecuteReviews(s: Sys, a: Action, t: Sys)
    requires Execute(s, a) == Some(t) && !a.SyncAccepted? && !a.MarkChapter? && !a.RecordChapter?
    ensures ReviewStays(s, t)
  {
    hide ReviewSet, Decide, OverBudget, Spent, Outrun;
  }

  lemma ReviewReviews(s: Sys, a: Action, t: Sys)
    requires ReviewStep(s, a) == Some(t)
    ensures ReviewStays(s, t)
  {
    hide ReviewSet, Outrun, HasEveryVersion, CurrentVersions;
  }

  lemma WorkflowReviews(s: Sys, a: Action, t: Sys)
    requires WorkflowStep(s, a) == Some(t)
    ensures ReviewStays(s, t)
  {
    hide ReviewSet, Outrun;
  }

  lemma EnvironmentReviews(s: Sys, a: Action, t: Sys)
    requires Environment(s, a) == Some(t)
    ensures ReviewStays(s, t)
  {
    hide ReviewSet, Outrun;
  }

  lemma StepReviews(s: Sys, t: Sys)
    requires Inv(s) && Step(s, t) && !Records(s, t)
    ensures ReviewStays(s, t)
  {
    hide Inv, ReviewStays, Execute, ReviewStep, WorkflowStep, Environment;
    var a :| Fire(s, a) == Some(t);
    match a
    case SyncAccepted => SyncReviews(s, t);
    case MarkChapter => MarkReviews(s, t);
    case RecordChapter(j) => RecordRecords(s, j, t);
    case _ =>
      if Execute(s, a) == Some(t) { ExecuteReviews(s, a, t); }
      else if ReviewStep(s, a) == Some(t) { ReviewReviews(s, a, t); }
      else if WorkflowStep(s, a) == Some(t) { WorkflowReviews(s, a, t); }
      else { EnvironmentReviews(s, a, t); }
  }

  lemma RecordRecords(s: Sys, j: nat, t: Sys)
    requires Execute(s, RecordChapter(j)) == Some(t)
    ensures Records(s, t)
  {}

  /** Between two recordings the chapters under review only get fewer, and only where one is overlooked. */
  lemma {:induction false} ReviewsShrink(t: seq<Sys>, i: nat, k: nat)
    requires IsRun(t) && i <= k < |t|
    requires forall m | i <= m < k :: !Records(t[m], t[m + 1])
    ensures t[k].db.run.needsReview == t[i].db.run.needsReview
    ensures ReviewSet(t[k].db.run.chapters) <= ReviewSet(t[i].db.run.chapters)
    ensures ReviewSet(t[k].db.run.chapters) == ReviewSet(t[i].db.run.chapters)
            <==> forall m | i <= m < k :: !Overlooks(t[m], t[m + 1])
    decreases k - i
  {
    hide Inv, Step, Records, Overlooks, ReviewSet;
    if i < k {
      ReviewsShrink(t, i, k - 1);
      RunKeeps(t, k - 1);
      assert Step(t[k - 1], t[k - 1 + 1]) && !Records(t[k - 1], t[k - 1 + 1]);
      StepReviews(t[k - 1], t[k]);
      assert Overlooks(t[k - 1], t[k - 1 + 1]) <==> Overlooks(t[k - 1], t[k]);
    }
  }

  /**
   From a state in which the column is exact, such as any right after a recording:
   until the next recording it stays exact if and only if no synchronisation meets a
   chapter under review that has an accepted version.
   */
  lemma ColumnExactly(t: seq<Sys>, i: nat, k: nat)
    requires IsRun(t) && i <= k < |t| && Exact(t[i].db.run)
    requires forall m | i <= m < k :: !Records(t[m], t[m + 1])
    ensures Exact(t[k].db.run) <==> forall m | i <= m < k :: !Overlooks(t[m], t[m + 1])
  {
    hide IsRun, Records, Overlooks;
    ReviewsShrink(t, i, k);
    FiniteSets.SubsetSize(ReviewSet(t[k].db.run.chapters), ReviewSet(t[i].db.run.chapters));
  }
}
