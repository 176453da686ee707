/**
 The backfill of the Milestone 5 migration: a version row for every chapter that
 lacks its own, and version pointers on chapters, facts, evaluations and
 conflicts, so that the NOT NULL changes after it cannot fail.
 */
module Milestone5 {
  import FiniteSets
  import opened Options

  /** `number` is the version column: of the chapter row, and of a version row. */
  datatype Chapter = Chapter(number: int, current: Option<nat>, accepted: Option<nat>)

  datatype Version = Version(chapter: nat, number: int)

  /** A fact or an evaluation: both name a chapter and get a version of it. */
  datatype Item = Item(chapter: nat, version: Option<nat>)

  datatype Conflict = Conflict(evaluation: nat, chapter: nat, version: Option<nat>)

  predicate HasOwn(versions: map<nat, Version>, c: nat, number: int) {
    exists v | v in versions :: versions[v] == Version(c, number)
  }

  /** Version `v` is one of chapter `c`, and none of that chapter is higher. */
  ghost predicate Highest(versions: map<nat, Version>, c: nat, v: nat) {
    && v in versions && versions[v].chapter == c
    && forall w | w in versions && versions[w].chapter == c :: versions[w].number <= versions[v].number
  }

  class Tables {
    var chapters: map<nat, Chapter>
    var versions: map<nat, Version>
    var facts: map<nat, Item>
    var evaluations: map<nat, Item>
    var conflicts: map<nat, Conflict>

    /** INSERT a version row for every chapter without one of its own number. */
    method InsertMissingVersions()
      modifies this`versions
      ensures forall v | v in old(versions) :: v in versions && versions[v] == old(versions)[v]
      ensures forall c | c in chapters :: HasOwn(versions, c, chapters[c].number)
      ensures forall v | v in versions && v !in old(versions) ::
        var c := versions[v].chapter;
        c in chapters && versions[v].number == chapters[c].number && !HasOwn(old(versions), c, chapters[c].number)
      ensures forall v, w | v in versions && w in versions && v !in old(versions) && w !in old(versions) && v != w ::
        versions[v].chapter != versions[w].chapter
    {
      var rest := chapters.Keys;
      while rest != {}
        invariant rest <= chapters.Keys
        invariant forall v | v in old(versions) :: v in versions && versions[v] == old(versions)[v]
        invariant forall c | c in chapters && c !in rest :: HasOwn(versions, c, chapters[c].number)
        invariant forall v | v in versions && v !in old(versions) ::
          var c := versions[v].chapter;
          c in chapters && c !in rest && versions[v].number == chapters[c].number
          && !HasOwn(old(versions), c, chapters[c].number)
        invariant forall v, w |
          v in versions && w in versions && v !in old(versions) && w !in old(versions) && v != w ::
          versions[v].chapter != versions[w].chapter
        decreases |rest|
      {
        var c :| c in rest;
        ghost var was := versions;
        if !HasOwn(versions, c, chapters[c].number) {
          var id := FiniteSets.NextId(versions.Keys);
          versions := versions[id := Version(c, chapters[c].number)];
          assert versions[id] == Version(c, chapters[c].number);
        }
        OwnStays(was, versions);
        rest := rest - {c};
      }
    }

    /** SELECT the id of the highest version of chapter `c`. */
    method HighestVersion(c: nat) returns (best: Option<nat>)
      ensures best.Some? <==> exists v :: v in versions && versions[v].chapter == c
      ensures best.Some? ==> Highest(versions, c, best.value)
    {
      best := None;
      var rest := versions.Keys;
      while rest != {}
        invariant rest <= versions.Keys
        invariant best.None? ==> forall v | v in versions && v !in rest :: versions[v].chapter != c
        invariant best.Some? ==>
          && best.value in versions && versions[best.value].chapter == c
          && forall w | w in versions && w !in rest && versions[w].chapter == c ::
               versions[w].number <= versions[best.value].number
        decreases |rest|
      {
        var v :| v in rest;
        if versions[v].chapter == c && (best == None || versions[v].number > versions[best.value].number) {
          best := Some(v);
        }
        rest := rest - {v};
      }
    }

    /** UPDATE chapters: both pointers name the highest version, where there is one. */
    method PointChapters()
      modifies this`chapters
      ensures chapters.Keys == old(chapters).Keys
      ensures forall c | c in chapters :: chapters[c].number == old(chapters)[c].number
      ensures forall c | c in chapters && HasOwn(versions, c, chapters[c].number) ::
        chapters[c].current.Some? && Highest(versions, c, chapters[c].current.value)
        && chapters[c].accepted == chapters[c].current
    {
      var rest := chapters.Keys;
      while rest != {}
        invariant rest <= chapters.Keys == old(chapters).Keys
        invariant forall c | c in chapters :: chapters[c].number == old(chapters)[c].number
        invariant forall c | c in chapters && c !in rest && HasOwn(versions, c, chapters[c].number) ::
          chapters[c].current.Some? && Highest(versions, c, chapters[c].current.value)
          && chapters[c].accepted == chapters[c].current
        decreases |rest|
      {
        var c :| c in rest;
        var best := HighestVersion(c);
        if best.Some? {
          chapters := chapters[c := chapters[c].(current := best, accepted := best)];
        }
        rest := rest - {c};
      }
    }

    /** The scalar subquery: NULL when there is no such chapter. */
    function CurrentOf(c: nat): Option<nat>
      reads this
    {
      if c in chapters then chapters[c].current else None
    }

    method PointFacts()
      modifies this`facts
      ensures facts == map f | f in old(facts) :: old(facts)[f].(version := CurrentOf(old(facts)[f].chapter))
    {
      facts := map f | f in facts :: facts[f].(version := CurrentOf(facts[f].chapter));
    }

    method PointEvaluations()
      modifies this`evaluations
      ensures evaluations
           == map e | e in old(evaluations) :: old(evaluations)[e].(version := CurrentOf(old(evaluations)[e].chapter))
    {
      evaluations := map e | e in evaluations :: evaluations[e].(version := CurrentOf(evaluations[e].chapter));
    }

    method PointConflicts()
      modifies this`conflicts
      ensures conflicts == map k | k in old(conflicts) :: old(conflicts)[k].(version :=
        if old(conflicts)[k].evaluation in evaluations then evaluations[old(conflicts)[k].evaluation].version else None)
    {
      conflicts := map k | k in conflicts :: conflicts[k].(version :=
        if conflicts[k].evaluation in evaluations then evaluations[conflicts[k].evaluation].version else None);
    }

    /**
     The statements in their order. No row is lost and no old version row changes;
     every chapter's two pointers name its own highest version; a fact or an
     evaluation has a version, namely one of its own chapter, exactly when its
     chapter exists, and a conflict exactly when its evaluation and that chapter do.
     */
    method Backfill()
      modifies this
      ensures chapters.Keys == old(chapters).Keys && facts.Keys == old(facts).Keys
      ensures evaluations.Keys == old(evaluations).Keys && conflicts.Keys == old(conflicts).Keys
      ensures forall v | v in old(versions) :: v in versions && versions[v] == old(versions)[v]
      ensures forall v | v in versions && v !in old(versions) ::
        var c := versions[v].chapter;
        c in chapters && versions[v].number == chapters[c].number && !HasOwn(old(versions), c, chapters[c].number)
      ensures forall c | c in chapters ::
        && chapters[c].number == old(chapters)[c].number && HasOwn(versions, c, chapters[c].number)
        && chapters[c].current.Some? && Highest(versions, c, chapters[c].current.value)
        && chapters[c].accepted == chapters[c].current
      ensures ItemsPointed(old(facts), facts) && ItemsPointed(old(evaluations), evaluations)
      ensures forall k | k in conflicts ::
        && conflicts[k].evaluation == old(conflicts)[k].evaluation && conflicts[k].chapter == old(conflicts)[k].chapter
        && (conflicts[k].version.Some? <==>
              conflicts[k].evaluation in evaluations && evaluations[conflicts[k].evaluation].chapter in chapters)
        && (conflicts[k].version.Some? ==>
              conflicts[k].version == evaluations[conflicts[k].evaluation].version)
    {
      InsertMissingVersions();
      PointChapters();
      PointFacts();
      PointEvaluations();
      PointConflicts();
    }

    ghost predicate ItemsPointed(was: map<nat, Item>, now: map<nat, Item>)
      reads this
    {
      forall i | i in now ::
        && i in was && now[i].chapter == was[i].chapter
        && (now[i].version.Some? <==> now[i].chapter in chapters)
        && (now[i].version.Some? ==>
              now[i].version == chapters[now[i].chapter].current
              && now[i].version.value in versions && versions[now[i].version.value].chapter == now[i].chapter)
    }

    /** What the foreign keys of the old schema say. */
    ghost predicate ForeignKeys()
      reads this
    {
      && (forall v | v in versions :: versions[v].chapter in chapters)
      && (forall f | f in facts :: facts[f].chapter in chapters)
      && (forall e | e in evaluations :: evaluations[e].chapter in chapters)
      && (forall k | k in conflicts :: conflicts[k].evaluation in evaluations && conflicts[k].chapter in chapters)
    }

    /**
     On a database that keeps its foreign keys the NOT NULL changes cannot fail. A
     conflict points to a version of its own chapter if and only if it names the
     chapter of its evaluation, which no constraint asks for.
     */
    method BackfillConsistent()
      requires ForeignKeys()
      modifies this
      ensures ForeignKeys() && facts.Keys == old(facts).Keys
      ensures forall f | f in facts :: facts[f].version.Some?
      ensures forall e | e in evaluations :: evaluations[e].version.Some?
      ensures forall k | k in conflicts ::
        && conflicts[k].version.Some? && conflicts[k].version.value in versions
        && (versions[conflicts[k].version.value].chapter == conflicts[k].chapter
            <==> evaluations[conflicts[k].evaluation].chapter == conflicts[k].chapter)
    {
      Backfill();
    }
  }

  /** Such a database: the conflict of chapter 2 names an evaluation of chapter 1, and gets chapter 1's version. */
  method ConflictElsewhere() returns (t: Tables)
    ensures fresh(t) && t.ForeignKeys()
    ensures 1 in t.conflicts && t.conflicts[1].version.Some? && t.conflicts[1].version.value in t.versions
    ensures t.versions[t.conflicts[1].version.value].chapter != t.conflicts[1].chapter
  {
    t := OneOddConflict();
    hide HasOwn, Highest;
    t.Backfill();
    assert 1 in t.conflicts && t.conflicts[1].evaluation == 1 && t.conflicts[1].chapter == 2;
    assert 1 in t.evaluations && t.evaluations[1].chapter == 1;
  }

  method OneOddConflict() returns (t: Tables)
    ensures fresh(t) && t.ForeignKeys()
    ensures t.evaluations == map[1 := Item(1, None)] && t.conflicts == map[1 := Conflict(1, 2, None)]
  {
    t := new Tables;
    t.chapters := map[1 := Chapter(1, None, None), 2 := Chapter(1, None, None)];
    t.versions := map[1 := Version(1, 1), 2 := Version(2, 1)];
    t.facts := map[];
    t.evaluations := map[1 := Item(1, None)];
    t.conflicts := map[1 := Conflict(1, 2, None)];
  }

  lemma OwnStays(was: map<nat, Version>, now: map<nat, Version>)
    requires forall v | v in was :: v in now && now[v] == was[v]
    ensures forall c, n | HasOwn(was, c, n) :: HasOwn(now, c, n)
  {
    forall c, n | HasOwn(was, c, n) ensures HasOwn(now, c, n) {
      var v :| v in was && was[v] == Version(c, n);
      assert now[v] == Version(c, n);
    }
  }
}
