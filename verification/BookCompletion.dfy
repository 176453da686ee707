/**
 Every fresh book within its budget can be completed: there is a run in which every
 chapter without a version gets the one chosen for it, and which ends completed with
 the snapshot of exactly these versions.
 */
module BookCompletion {
  import FiniteSets
  import opened Options
  import opened BookModel
  import opened BookMachine
  import opened BookInvariant
  import opened BookPreservation
  import opened BookTheorems
  import opened BookUsage
  import opened BookCauses
  import opened BookPeace
  import BookBudget
  import BookCrashes
  import BookOverspending
  import BookOwnership

  // ------------------------------------------------------------------- the distance

  function Rank(pc: Pc): nat {
    match pc
    case Idle => 19
    case RecordedPc(_, _, _, _) => 13
    case Settled(_, _, _) => 12
    case Checking(_) => 11
    case Top => 10
    case Synced => 9
    case Gate(_) => 8
    case Picked(_) => 7
    case Marked(_) => 6
    case Flight(_, _, _) => 5
    case Ended(_, _, _, _) => 4
    case Generated => 4
    case Review(_) => 3
    case Snapped(_, _) => 2
    case Analysed(_, _, _, _) => 1
    case _ => 0
  }

  /** How far a peaceful run still is from its end. */
  function Distance(s: Sys): int {
    20 * (s.db.run.total - |AcceptedSet(s.db.run.chapters)|) + Rank(s.pc)
  }

  lemma DistanceIsNatural(s: Sys)
    requires Inv(s)
    ensures Distance(s) >= 0
  {
    hide JobInv, IndexInv, CountInv, TaskInv, CheckInv, SnapshotInv, CompletionInv, ReviewInv, FlightInv, PlaceInv;
    DoneAtMostTotal(s.db.run.total, s.db.run.chapters);
    FiniteSets.SubsetSize(AcceptedSet(s.db.run.chapters), DoneSet(s.db.run.chapters));
  }

  // ---------------------------------------------------------------- a frugal course

  /** Nothing was spent, and the budget is open. */
  predicate Frugal(d: Db) {
    && d.run.usage == Zero() && !OverBudget(d.run)
    && Spent(d.calls, Linked(d) + BookBudget.InFlight(d)) == Zero()
  }

  /** The versions a chapter was to get: its own of the first state, or the chosen one. */
  predicate AsChosen(accepted: map<nat, nat>, first: map<nat, nat>, choice: nat -> nat) {
    && (forall c | c in first :: c in accepted && accepted[c] == first[c])
    && (forall c | c in accepted && c !in first :: accepted[c] == choice(c))
  }

  /** A chapter that is open after the synchronisation has no version. */
  predicate OpenUnwritten(s: Sys) {
    s.pc.Synced? || s.pc.Gate? || s.pc.Picked? || s.pc.Marked? || s.pc.Flight? ==>
      forall c | c in s.db.run.chapters && s.db.run.chapters[c] != Accepted :: c !in s.db.accepted
  }

  /** The snapshot in hand, or of the completed run, holds the accepted versions. */
  ghost predicate SnapshotFits(s: Sys) {
    match s.pc
    case Snapped(sid, _) => sid in s.db.snapshots && VersionsOf(s.db.snapshots[sid], s.db)
    case Analysed(sid, _, _, _) => sid in s.db.snapshots && VersionsOf(s.db.snapshots[sid], s.db)
    case Returned =>
      && s.db.run.snapshot.Some? && s.db.run.snapshot.value in s.db.snapshots
      && VersionsOf(s.db.snapshots[s.db.run.snapshot.value], s.db)
    case _ => true
  }

  ghost predicate OnCourse(s: Sys, first: map<nat, nat>, choice: nat -> nat) {
    Frugal(s.db) && AsChosen(s.db.accepted, first, choice) && OpenUnwritten(s) && SnapshotFits(s)
  }

  lemma SameFrugal(d: Db, e: Db)
    requires Frugal(d) && e.jobs == d.jobs && e.top == d.top && e.calls == d.calls
    requires e.run.usage == d.run.usage && e.run.caps == d.run.caps && e.run.workflow == d.run.workflow
    ensures Frugal(e)
  {
    hide Spent, ChildWorkflows;
  }

  // ------------------------------------------------------------ the next step, place by place

  /** `a` is the next step of the course: it can happen, and it leads closer to the end. */
  ghost predicate Onward(s: Sys, a: Action, t: Sys, first: map<nat, nat>, choice: nat -> nat) {
    Fire(s, a) == Some(t) && Smooth(a) && Distance(t) < Distance(s) && OnCourse(t, first, choice)
  }

  lemma EnterNext(s: Sys, first: map<nat, nat>, choice: nat -> nat) returns (t: Sys)
    requires Peace(s) && OnCourse(s, first, choice) && s.pc.Idle?
    ensures Onward(s, Initialize, t, first, choice)
  {
    hide Frugal, AsChosen, BookOwnership.Owned;
    t := Fire(s, Initialize).value;
    SameFrugal(s.db, t.db);
  }

  lemma SyncNext(s: Sys, first: map<nat, nat>, choice: nat -> nat) returns (t: Sys)
    requires OnCourse(s, first, choice) && s.pc.Top? && s.db.run.total > 0
    ensures Onward(s, SyncAccepted, t, first, choice)
  {
    hide Frugal, AsChosen;
    t := s.(db := Sync(s.db), pc := Synced);
    SameFrugal(s.db, t.db);
    FiniteSets.SubsetSize(AcceptedSet(s.db.run.chapters), AcceptedSet(t.db.run.chapters));
  }

  lemma ChooseNext(s: Sys, first: map<nat, nat>, choice: nat -> nat) returns (t: Sys)
    requires Inv(s) && Peace(s) && OnCourse(s, first, choice) && s.pc.Synced?
    ensures Onward(s, Choose, t, first, choice)
  {
    hide Inv, Peace, Chosen, Frugal, AsChosen, AcceptedSet;
    t := s.(pc := Chosen(s));
    PlacePeace(s, Choose, t);
    ChosenPlaces(s);
    assert Frugal(t.db);
    NotBlocked(t);
  }

  lemma ChosenPlaces(s: Sys)
    ensures var pc := Chosen(s);
      pc.Picked? || pc.Stopping? || pc.FinishingReview? || pc.Generated? || pc.Gate?
  {}

  lemma NotBlocked(t: Sys)
    requires Frugal(t.db) && PeacefulPlace(t)
    ensures !t.pc.Stopping? && !t.pc.FinishingReview?
  {
    hide Spent, Linked, OverBudget;
  }

  lemma GateNext(s: Sys, first: map<nat, nat>, choice: nat -> nat) returns (t: Sys)
    requires OnCourse(s, first, choice) && s.pc.Gate?
    ensures Onward(s, PassGate, t, first, choice)
  {
    hide OverBudget, AsChosen, AcceptedSet, Spent, Linked;
    t := s.(pc := Picked(s.pc.chapter));
  }

  lemma MarkNext(s: Sys, first: map<nat, nat>, choice: nat -> nat) returns (t: Sys)
    requires Inv(s) && OnCourse(s, first, choice) && s.pc.Picked?
    ensures Onward(s, MarkChapter, t, first, choice)
  {
    hide Inv, Frugal, AsChosen;
    PickedFacts(s);
    t := s.(db := MarkRunning(s.db, s.pc.chapter), pc := Marked(s.pc.chapter));
    SameFrugal(s.db, t.db);
    assert AcceptedSet(t.db.run.chapters) == AcceptedSet(s.db.run.chapters);
  }

  lemma MarkedFacts(s: Sys)
    requires Inv(s) && s.pc.Marked?
    ensures InBook(s.db, s.pc.chapter) && s.db.run.current == Some(s.pc.chapter)
    ensures s.db.top in s.db.jobs && s.db.jobs[s.db.top].parent.None?
  {
    hide IndexInv, CountInv, TaskInv, CheckInv, SnapshotInv, CompletionInv, ReviewInv, FlightInv, HandInv,
         UniqueWorkflows;
  }

  lemma LinkFrugal(d: Db, c: nat, w: nat)
    requires Frugal(d) && d.run.workflow.None? && d.top in d.jobs && d.jobs[d.top].parent.None?
    requires w !in BookOverspending.CallIds(d.calls)
    ensures Frugal(Link(d, c, w))
  {
    hide Spent, Linked, BookOverspending.CallIds, OverBudget;
    LinkSteady(d, c, w);
    BookOverspending.UnseenSpent(d.calls, w);
    assert Linked(d) + BookBudget.InFlight(d) == Linked(d);
    if w in Linked(d) {
      assert Linked(d) + {w} == Linked(d);
    } else {
      SpentDisjoint(d.calls, Linked(d), {w});
    }
    BookCrashes.SameBudget(d.run, Link(d, c, w).run);
  }

  lemma StartNext(s: Sys, id: nat, first: map<nat, nat>, choice: nat -> nat) returns (t: Sys)
    requires Inv(s) && OnCourse(s, first, choice) && s.pc.Marked? && s.db.run.workflow.None?
    requires id !in s.db.workflows && id !in BookOverspending.CallIds(s.db.calls)
    ensures Onward(s, Attach(id), t, first, choice)
  {
    hide Inv, Frugal, AsChosen, AcceptedSet, BookOverspending.CallIds;
    MarkedFacts(s);
    t := s.(db := Link(s.db, s.pc.chapter, id), pc := Flight(s.pc.chapter, id, Generation));
    LinkFrugal(s.db, s.pc.chapter, id);
  }

  lemma ResumeNext(s: Sys, first: map<nat, nat>, choice: nat -> nat) returns (t: Sys)
    requires Inv(s) && Peace(s) && OnCourse(s, first, choice) && s.pc.Marked? && s.db.run.workflow.Some?
    ensures Onward(s, Attach(0), t, first, choice)
  {
    hide Inv, BookOwnership.Owned, Frugal, AsChosen, AcceptedSet;
    MarkedFacts(s);
    var w := s.db.run.workflow.value;
    t := s.(db := WithWorkflowStatus(s.db, w, WorkflowRunning), pc := Flight(s.pc.chapter, w, Generation));
    SameFrugal(s.db, t.db);
  }

  lemma FlightFacts(s: Sys)
    requires Inv(s) && s.pc.Flight? && s.pc.mode.Generation?
    ensures s.pc.workflow in s.db.workflows
    ensures s.pc.chapter in s.db.run.chapters && s.db.run.chapters[s.pc.chapter] == Running
  {
    hide JobInv, IndexInv, CountInv, TaskInv, CheckInv, SnapshotInv, CompletionInv, ReviewInv, HandInv;
  }

  lemma AcceptNext(s: Sys, first: map<nat, nat>, choice: nat -> nat) returns (t: Sys)
    requires Inv(s) && Peace(s) && OnCourse(s, first, choice) && s.pc.Flight?
    ensures Onward(s, Accept(choice(s.pc.chapter)), t, first, choice)
  {
    hide Inv, Frugal, AcceptedSet;
    FlightFacts(s);
    var c, w := s.pc.chapter, s.pc.workflow;
    assert s.db.workflows[w].chapter == c;
    t := s.(db := AcceptVersion(s.db, w, choice(c)), pc := Ended(c, w, WorkflowCompleted, s.pc.mode));
    SameFrugal(s.db, t.db);
  }

  lemma RecordFrugal(s: Sys, j: nat, t: Sys)
    requires Inv(s) && Frugal(s.db) && Fire(s, RecordChapter(j)) == Some(t)
    ensures Frugal(t.db)
  {
    hide Inv, Spent, Linked, Fire, OverBudget;
    RecordLinks(s, j, t);
    BookCrashes.SameBudget(s.db.run, t.db.run);
    assert Linked(t.db) + BookBudget.InFlight(t.db) == Linked(s.db) + BookBudget.InFlight(s.db);
  }

  lemma RecordFires(s: Sys, j: nat) returns (t: Sys)
    requires s.pc.Ended? && s.pc.mode.Generation? && s.pc.status.WorkflowCompleted?
    requires j !in s.db.jobs && s.db.run.total > 0
    ensures Fire(s, RecordChapter(j)) == Some(t) && t.pc.RecordedPc?
    ensures t.db.run.chapters == s.db.run.chapters[s.pc.chapter := Accepted]
    ensures t.db.accepted == s.db.accepted && t.db.run.total == s.db.run.total
  {
    hide DoneSet, ReviewSet, Progress, SetJobWorkflow, AcceptedSet;
    t := Fire(s, RecordChapter(j)).value;
  }

  lemma OneMoreAccepted(m: map<nat, ChapterState>, c: nat)
    requires c in m && m[c] != Accepted
    ensures |AcceptedSet(m[c := Accepted])| == |AcceptedSet(m)| + 1
  {
    assert AcceptedSet(m[c := Accepted]) == AcceptedSet(m) + {c};
  }

  lemma RecordNext(s: Sys, first: map<nat, nat>, choice: nat -> nat) returns (a: Action, t: Sys)
    requires Inv(s) && Peace(s) && OnCourse(s, first, choice) && s.pc.Ended?
    ensures Onward(s, a, t, first, choice)
  {
    hide Inv, Frugal, AsChosen, BookOwnership.Owned, Fire, AcceptedSet;
    var j := FiniteSets.NextId(s.db.jobs.Keys);
    EndedFacts(s);
    TotalIsPositive(s);
    a := RecordChapter(j);
    t := RecordFires(s, j);
    RecordFrugal(s, j, t);
    OneMoreAccepted(s.db.run.chapters, s.pc.chapter);
  }

  lemma TotalIsPositive(s: Sys)
    requires Inv(s)
    ensures s.db.run.total > 0
  {
    hide JobInv, IndexInv, CountInv, TaskInv, CheckInv, SnapshotInv, CompletionInv, ReviewInv, FlightInv, PlaceInv;
  }

  lemma SettleNext(s: Sys, first: map<nat, nat>, choice: nat -> nat) returns (t: Sys)
    requires Inv(s) && OnCourse(s, first, choice) && s.pc.RecordedPc?
    ensures Onward(s, SettleUsage, t, first, choice)
  {
    hide Inv, Spent, Linked, AsChosen, AcceptedSet, OverBudget;
    t := Fire(s, SettleUsage).value;
    SettleExact(s, t);
    SpentMonotone(s.db.calls, Linked(s.db), Linked(s.db) + BookBudget.InFlight(s.db));
    BookCrashes.SameBudget(s.db.run, t.db.run);
  }

  lemma AfterNext(s: Sys, first: map<nat, nat>, choice: nat -> nat) returns (t: Sys)
    requires Peace(s) && OnCourse(s, first, choice) && s.pc.Settled?
    ensures Onward(s, AfterChapter, t, first, choice)
  {
    hide Frugal, AsChosen, AcceptedSet, BookOwnership.Owned, Calm;
    t := Fire(s, AfterChapter).value;
  }

  lemma CheckNext(s: Sys, first: map<nat, nat>, choice: nat -> nat) returns (t: Sys)
    requires OnCourse(s, first, choice) && s.pc.Checking?
    ensures Onward(s, CheckPeriodically(false), t, first, choice)
  {
    hide Frugal, AsChosen, AcceptedSet;
    t := Fire(s, CheckPeriodically(false)).value;
    SameFrugal(s.db, t.db);
  }

  lemma ReviewNext(s: Sys, first: map<nat, nat>, choice: nat -> nat) returns (t: Sys)
    requires OnCourse(s, first, choice) && s.pc.Generated?
    ensures Onward(s, ReviewBook, t, first, choice)
  {
    hide Frugal, AsChosen, AcceptedSet;
    t := Fire(s, ReviewBook).value;
    SameFrugal(s.db, t.db);
  }

  /** The id of the snapshot of these versions, or a fresh one. */
  lemma SnapshotNumber(d: Db, m: map<nat, nat>) returns (sid: nat)
    ensures if sid in d.snapshots then d.snapshots[sid] == m else m !in d.snapshots.Values
  {
    if k :| k in d.snapshots && d.snapshots[k] == m {
      sid := k;
    } else {
      sid := FiniteSets.NextId(d.snapshots.Keys);
    }
  }

  lemma SnapshotNext(s: Sys, first: map<nat, nat>, choice: nat -> nat) returns (a: Action, t: Sys)
    requires Inv(s) && Peace(s) && OnCourse(s, first, choice) && s.pc.Review?
    ensures Onward(s, a, t, first, choice)
  {
    hide Inv, Frugal, AsChosen, AcceptedSet, BookOwnership.Owned;
    ReviewedIsWritten(s);
    var sid := SnapshotNumber(s.db, CurrentVersions(s.db));
    a := BuildSnapshot(sid);
    t := Fire(s, a).value;
    SameFrugal(s.db, t.db);
  }

  lemma AnalyseNext(s: Sys, first: map<nat, nat>, choice: nat -> nat) returns (t: Sys)
    requires OnCourse(s, first, choice) && s.pc.Snapped?
    ensures Onward(s, AnalyseBook(true, false), t, first, choice)
  {
    hide Frugal, AsChosen, AcceptedSet;
    t := Fire(s, AnalyseBook(true, false)).value;
    SameFrugal(s.db, t.db);
  }

  lemma CompleteFires(s: Sys) returns (t: Sys)
    requires s.pc.Analysed? && s.pc.passed && s.db.run.status.GlobalReview?
    ensures Fire(s, CompleteBook) == Some(t) && t.pc.Returned? && t.db.run.snapshot == Some(s.pc.snapshot)
    ensures t.db == s.db.(run := t.db.run)
    ensures var r, q := s.db.run, t.db.run;
      && q.chapters == r.chapters && q.total == r.total && q.usage == r.usage && q.caps == r.caps
      && q.workflow == r.workflow
  {
    t := Fire(s, CompleteBook).value;
  }

  lemma CompleteNext(s: Sys, first: map<nat, nat>, choice: nat -> nat) returns (t: Sys)
    requires Peace(s) && OnCourse(s, first, choice) && s.pc.Analysed?
    ensures Onward(s, CompleteBook, t, first, choice)
  {
    hide Fire, Frugal, AsChosen, AcceptedSet, BookOwnership.Owned;
    t := CompleteFires(s);
    SameFrugal(s.db, t.db);
  }

  lemma NextStep(s: Sys, first: map<nat, nat>, choice: nat -> nat) returns (a: Action, t: Sys)
    requires Inv(s) && Peace(s) && OnCourse(s, first, choice) && !s.pc.Returned?
    ensures Onward(s, a, t, first, choice)
  {
    hide Inv, Peace, OnCourse, Onward;
    PeacefulOnCourse(s, first, choice);
    match s.pc
    case Idle => a := Initialize; t := EnterNext(s, first, choice);
    case Top => a := SyncAccepted; TotalIsPositive(s); t := SyncNext(s, first, choice);
    case Synced => a := Choose; t := ChooseNext(s, first, choice);
    case Gate(_) => a := PassGate; t := GateNext(s, first, choice);
    case Picked(_) => a := MarkChapter; t := MarkNext(s, first, choice);
    case Marked(_) =>
      if s.db.run.workflow.None? {
        var id := FiniteSets.NextId(s.db.workflows.Keys + BookOverspending.CallIds(s.db.calls));
        a := Attach(id);
        t := StartNext(s, id, first, choice);
      } else {
        a := Attach(0);
        t := ResumeNext(s, first, choice);
      }
    case Flight(c, _, _) => a := Accept(choice(c)); t := AcceptNext(s, first, choice);
    case Ended(_, _, _, _) => a, t := RecordNext(s, first, choice);
    case RecordedPc(_, _, _, _) => a := SettleUsage; t := SettleNext(s, first, choice);
    case Settled(_, _, _) => a := AfterChapter; t := AfterNext(s, first, choice);
    case Checking(_) => a := CheckPeriodically(false); t := CheckNext(s, first, choice);
    case Generated => a := ReviewBook; t := ReviewNext(s, first, choice);
    case Review(_) => a, t := SnapshotNext(s, first, choice);
    case Snapped(_, _) => a := AnalyseBook(true, false); t := AnalyseNext(s, first, choice);
    case Analysed(_, _, _, _) => a := CompleteBook; t := CompleteNext(s, first, choice);
  }

  lemma PeacefulOnCourse(s: Sys, first: map<nat, nat>, choice: nat -> nat)
    requires Peace(s) && OnCourse(s, first, choice)
    ensures !s.pc.Stopping? && !s.pc.FinishingReview? && !s.pc.Revising?
  {
    hide Frugal, AsChosen, BookOwnership.Owned;
    NotBlocked(s);
  }

  // -------------------------------------------------------------------- the course

  lemma {:induction false} Course(s: Sys, first: map<nat, nat>, choice: nat -> nat)
      returns (actions: seq<Action>, e: Sys)
    requires Inv(s) && Peace(s) && OnCourse(s, first, choice)
    ensures BookCrashes.Play(s, actions) == Some(e) && e.pc.Returned?
    ensures Inv(e) && Peace(e) && OnCourse(e, first, choice) && e.db.run.total == s.db.run.total
    decreases Distance(s)
  {
    hide Inv, Peace, OnCourse, Fire, Distance, Smooth;
    if s.pc.Returned? {
      actions, e := [], s;
    } else {
      var a, t := NextStep(s, first, choice);
      ActionKeeps(s, a, t);
      PeaceKeeps(s, a, t);
      SameTotal(s, a, t);
      DistanceIsNatural(t);
      DistanceIsNatural(s);
      var rest;
      rest, e := Course(t, first, choice);
      actions := [a] + rest;
      BookCrashes.PlayOne(s, a, t);
      BookCrashes.PlayAppend(s, [a], rest, t);
    }
  }

  lemma SameTotal(s: Sys, a: Action, t: Sys)
    requires Inv(s) && Fire(s, a) == Some(t)
    ensures t.db.run.total == s.db.run.total
  {
    hide Inv, Fire;
    assert Step(s, t);
    StepGrows(s, t);
  }

  lemma FirstCourse(s: Sys, choice: nat -> nat)
    requires Initial(s) && !OverBudget(s.db.run)
    ensures OnCourse(s, s.db.accepted, choice)
  {
    hide OverBudget;
    assert Linked(s.db) + BookBudget.InFlight(s.db) == {};
    SpentNowhere(s.db.calls);
  }

  /** The version that a chapter has at first, or is to get. */
  function VersionFor(first: map<nat, nat>, choice: nat -> nat, c: nat): nat {
    if c in first then first[c] else choice(c)
  }

  /**
   From every fresh book within its budget, and for every choice of versions, there is
   a run that ends completed. Its snapshot gives every chapter the version it had at
   first, or the chosen one, and so do both snapshot columns.
   */
  lemma FreshBookCompletes(s: Sys, choice: nat -> nat) returns (t: seq<Sys>)
    requires Initial(s) && !OverBudget(s.db.run)
    ensures IsRun(t) && t[0] == s
    ensures var d := t[|t| - 1].db;
      && d.run.status.Completed? && d.run.progress == 100
      && d.run.snapshot.Some? && d.run.best == d.run.snapshot && d.run.snapshot.value in d.snapshots
      && (forall c :: c in d.snapshots[d.run.snapshot.value] <==> 1 <= c <= s.db.run.total)
      && (forall c | 1 <= c <= s.db.run.total ::
            d.snapshots[d.run.snapshot.value][c] == VersionFor(s.db.accepted, choice, c))
  {
    hide Inv, Initial, Peace, OnCourse, IsRun, OverBudget;
    InitialKeeps(s);
    InitialPeace(s);
    FirstCourse(s, choice);
    var actions, e := Course(s, s.db.accepted, choice);
    t := BookCrashes.PlayIsRun(s, actions, e);
    CourseEnd(s, e, choice);
    RunEnds(t);
  }

  lemma RunEnds(t: seq<Sys>)
    requires IsRun(t) && t[|t| - 1].db.run.status.Completed?
    ensures var d := t[|t| - 1].db; d.run.progress == 100 && d.run.snapshot.Some? && d.run.best == d.run.snapshot
  {
    var b := CompletionIsSound(t, |t| - 1, |t| - 1);
  }

  lemma CourseEnd(s: Sys, e: Sys, choice: nat -> nat)
    requires e.pc.Returned? && Peace(e) && OnCourse(e, s.db.accepted, choice) && e.db.run.total == s.db.run.total
    ensures e.db.run.status.Completed? && e.db.run.snapshot.Some? && e.db.run.snapshot.value in e.db.snapshots
    ensures forall c :: c in e.db.snapshots[e.db.run.snapshot.value] <==> 1 <= c <= s.db.run.total
    ensures forall c | 1 <= c <= s.db.run.total ::
      e.db.snapshots[e.db.run.snapshot.value][c] == VersionFor(s.db.accepted, choice, c)
  {
    hide Frugal, BookOwnership.Owned;
  }
}
