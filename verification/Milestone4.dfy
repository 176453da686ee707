/**
 The ranking UPDATE of the Milestone 4 migration. It rewrites every row in place,
 and the subquery of each row counts over the table as it then is.
 */
module Milestone4 {
  import FiniteSets

  /** An evaluation row; before the update the version column holds anything. */
  datatype Row = Row(id: nat, chapter: nat, version: int)

  /** The rows of the same chapter with the same or a smaller id. */
  function Predecessors(rows: seq<Row>, i: nat): set<nat>
    requires i < |rows|
  {
    set k | 0 <= k < |rows| && rows[k].chapter == rows[i].chapter && rows[k].id <= rows[i].id
  }

  function Rank(rows: seq<Row>, i: nat): nat
    requires i < |rows|
  {
    |Predecessors(rows, i)|
  }

  /** The table once every row has its rank. */
  function Ranked(rows: seq<Row>): (r: seq<Row>)
    ensures |r| == |rows|
  {
    seq(|rows|, i requires 0 <= i < |rows| => rows[i].(version := Rank(rows, i)))
  }

  /** Two tables that differ in the version column only. */
  predicate SameButVersions(a: seq<Row>, b: seq<Row>) {
    |a| == |b| && forall i | 0 <= i < |a| :: a[i].id == b[i].id && a[i].chapter == b[i].chapter
  }

  lemma RankIgnoresVersions(a: seq<Row>, b: seq<Row>, i: nat)
    requires SameButVersions(a, b) && i < |a|
    ensures Rank(a, i) == Rank(b, i)
  {
    assert Predecessors(a, i) == Predecessors(b, i);
  }

  /** The update, visiting the rows in any order: the order makes no difference. */
  method RankInPlace(a: array<Row>, order: seq<nat>)
    requires forall i | 0 <= i < a.Length :: i in order
    requires forall k | 0 <= k < |order| :: order[k] < a.Length
    modifies a
    ensures a[..] == Ranked(old(a[..]))
  {
    ghost var was := a[..];
    for k := 0 to |order|
      invariant SameButVersions(was, a[..])
      invariant forall i | 0 <= i < a.Length && i in order[..k] :: a[i].version == Rank(was, i)
    {
      var i := order[k];
      RankIgnoresVersions(was, a[..], i);
      a[i] := a[i].(version := Rank(a[..], i));
      assert order[..k + 1] == order[..k] + [i];
    }
    assert order[..|order|] == order;
    forall i | 0 <= i < a.Length ensures a[..][i] == Ranked(was)[i] {}
  }

  // -------------------------------------------------- the constraints added after it

  ghost predicate DistinctIds(rows: seq<Row>) {
    forall i, j | 0 <= i < j < |rows| :: rows[i].id != rows[j].id
  }

  function OfChapter(rows: seq<Row>, c: nat): set<nat> {
    set k | 0 <= k < |rows| && rows[k].chapter == c
  }

  /** Within a chapter ranks follow ids strictly. */
  lemma RankFollowsIds(rows: seq<Row>, i: nat, j: nat)
    requires i < |rows| && j < |rows| && rows[i].chapter == rows[j].chapter
    ensures rows[i].id < rows[j].id ==> Rank(rows, i) < Rank(rows, j)
    ensures rows[i].id <= rows[j].id ==> Rank(rows, i) <= Rank(rows, j)
  {
    if rows[i].id <= rows[j].id {
      FiniteSets.SubsetSize(Predecessors(rows, i), Predecessors(rows, j));
      assert rows[i].id < rows[j].id ==> j in Predecessors(rows, j) && j !in Predecessors(rows, i);
    }
  }

  lemma RankBounds(rows: seq<Row>, i: nat)
    requires i < |rows|
    ensures 1 <= Rank(rows, i) <= |OfChapter(rows, rows[i].chapter)|
  {
    FiniteSets.SubsetSize({i}, Predecessors(rows, i));
    FiniteSets.SubsetSize(Predecessors(rows, i), OfChapter(rows, rows[i].chapter));
  }

  /** Within a chapter the new versions are distinct and in id order: the unique constraint holds. */
  lemma RanksAreDistinct(rows: seq<Row>, i: nat, j: nat)
    requires DistinctIds(rows) && i < |rows| && j < |rows| && rows[i].chapter == rows[j].chapter
    ensures Ranked(rows)[i].version == Ranked(rows)[j].version <==> i == j
    ensures Ranked(rows)[i].version < Ranked(rows)[j].version <==> rows[i].id < rows[j].id
  {
    RankFollowsIds(rows, i, j);
    RankFollowsIds(rows, j, i);
  }

  function VersionsOf(rows: seq<Row>, c: nat): set<int> {
    set k | 0 <= k < |rows| && rows[k].chapter == c :: rows[k].version
  }

  /**
   The versions of a chapter with n evaluations are exactly 1..n: none is
   missing, and the check on positive versions holds.
   */
  lemma RanksAreDense(rows: seq<Row>, c: nat)
    requires DistinctIds(rows)
    ensures forall v: int :: v in VersionsOf(Ranked(rows), c) <==> 1 <= v <= |OfChapter(rows, c)|
  {
    var own := OfChapter(rows, c);
    var rank := (i: nat) => if i < |rows| then Rank(rows, i) else 0;
    RanksFill(rows, c, rank);
    forall v: int ensures v in VersionsOf(Ranked(rows), c) <==> 1 <= v <= |own| {
      if 1 <= v <= |own| {
        assert v in FiniteSets.Image(own, rank);
        var i :| i in own && rank(i) == v;
        assert Ranked(rows)[i].version == v && Ranked(rows)[i].chapter == c;
      }
      if v in VersionsOf(Ranked(rows), c) {
        var i :| 0 <= i < |rows| && Ranked(rows)[i].chapter == c && Ranked(rows)[i].version == v;
        RankBounds(rows, i);
      }
    }
  }

  lemma RanksFill(rows: seq<Row>, c: nat, rank: nat -> nat)
    requires DistinctIds(rows) && forall i | 0 <= i < |rows| :: rank(i) == Rank(rows, i)
    ensures FiniteSets.Image(OfChapter(rows, c), rank) == FiniteSets.UpTo(|OfChapter(rows, c)|)
  {
    var own := OfChapter(rows, c);
    forall i, j | i in own && j in own && i != j ensures rank(i) != rank(j) { RanksAreDistinct(rows, i, j); }
    FiniteSets.ImageSize(own, rank);
    forall v | v in FiniteSets.Image(own, rank) ensures v in FiniteSets.UpTo(|own|) {
      var i :| i in own && rank(i) == v;
      RankBounds(rows, i);
    }
    FiniteSets.SubsetSize(FiniteSets.Image(own, rank), FiniteSets.UpTo(|own|));
  }
}
