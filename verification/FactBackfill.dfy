/**
 The backfill of the facts as a whole: version pointers first, then the hash loop
 over the rows in id order, so that the unique constraint on (version, hash) added
 afterwards holds.
 */
module FactBackfill {
  import FactHash
  import Milestone5

  /** The text columns of a fact. */
  datatype Text = Text(subject: string, predicateName: string, object_: string)

  function RowOf(id: nat, version: nat, text: Text): FactHash.Row {
    FactHash.Row(id, version, text.subject, text.predicateName, text.object_)
  }

  /** An earlier fact of the same version says the same, once normalised. */
  ghost predicate Repeated(facts: map<nat, Milestone5.Item>, texts: map<nat, Text>, f: nat, fold: char -> string)
    requires texts.Keys == facts.Keys && f in facts
  {
    exists g :: g in facts && g < f && facts[g].version == facts[f].version && Alike(texts[g], texts[f], fold)
  }

  /** The three fields of both texts are the same but for what the normalisation takes out. */
  predicate Alike(a: Text, b: Text, fold: char -> string) {
    && FactHash.Normal(a.subject, fold) == FactHash.Normal(b.subject, fold)
    && FactHash.Normal(FactHash.Without(a.predicateName, c => c == '_'), fold)
       == FactHash.Normal(FactHash.Without(b.predicateName, c => c == '_'), fold)
    && FactHash.Normal(a.object_, fold) == FactHash.Normal(b.object_, fold)
  }

  /** Fact `f` has the hash of its own text, and of that hash and its id when the text was there before. */
  ghost predicate OwnHash(facts: map<nat, Milestone5.Item>, texts: map<nat, Text>, f: nat, h: string,
                          fold: char -> string, hash: string -> string)
    requires texts.Keys == facts.Keys && f in facts
  {
    var x := texts[f];
    var row := FactHash.Row(f, 0, x.subject, x.predicateName, x.object_);
    h == if Repeated(facts, texts, f, fold) then FactHash.Disambiguated(row, fold, hash)
         else FactHash.Natural(row, fold, hash)
  }

  predicate Ascending(ids: seq<nat>) {
    forall i, j | 0 <= i < j < |ids| :: ids[i] < ids[j]
  }

  method Least(ids: set<nat>) returns (least: nat)
    requires ids != {}
    ensures least in ids && forall x | x in ids :: least <= x
  {
    least :| least in ids;
    var rest := ids - {least};
    while rest != {}
      invariant rest <= ids && least in ids
      invariant forall x | x in ids && x !in rest :: least <= x
      decreases |rest|
    {
      var x :| x in rest;
      if x < least { least := x; }
      rest := rest - {x};
    }
  }

  /** ORDER BY id. */
  method OrderedById(ids: set<nat>) returns (order: seq<nat>)
    ensures Ascending(order) && forall x :: x in order <==> x in ids
  {
    order := [];
    var rest := ids;
    while rest != {}
      invariant rest <= ids && Ascending(order)
      invariant forall x :: x in order <==> x in ids && x !in rest
      invariant forall x, y | x in order && y in rest :: x < y
      decreases |rest|
    {
      var x := Least(rest);
      assert forall i | 0 <= i < |order| :: order[i] in order;
      order := order + [x];
      rest := rest - {x};
    }
  }

  /** No two facts of a version share a hash. */
  ghost predicate UniqueHashes(facts: map<nat, Milestone5.Item>, hashes: map<nat, string>)
    requires hashes.Keys == facts.Keys
  {
    forall f, g | f in facts && g in facts && f != g :: facts[f].version != facts[g].version || hashes[f] != hashes[g]
  }

  /** The loop over the fact rows of a database whose facts all have a version. */
  method AssignAll(facts: map<nat, Milestone5.Item>, texts: map<nat, Text>,
                   fold: char -> string, hash: string -> string)
      returns (hashes: map<nat, string>)
    requires FactHash.IdealHash(hash) && texts.Keys == facts.Keys && forall f | f in facts :: facts[f].version.Some?
    ensures hashes.Keys == facts.Keys && UniqueHashes(facts, hashes)
    ensures forall f | f in facts :: OwnHash(facts, texts, f, hashes[f], fold, hash)
  {
    hide *;
    var order := OrderedById(facts.Keys);
    IdsInOrder(order, facts.Keys);
    var rows := seq(|order|, i requires 0 <= i < |order| =>
      RowOf(order[i], facts[order[i]].version.value, texts[order[i]]));
    RowsInOrder(order, facts, texts, rows);
    var list := FactHash.AssignHashes(rows, fold, hash);
    hashes := ByIds(order, list);
    HashesAreUnique(order, facts, rows, list, hashes);
    forall f | f in facts ensures OwnHash(facts, texts, f, hashes[f], fold, hash) {
      var i :| 0 <= i < |order| && order[i] == f;
      RepeatedIsRepeats(order, facts, texts, rows, i, fold);
      HashIsOwn(facts, texts, f, hashes[f], rows[i], fold, hash);
    }
  }

  lemma HashIsOwn(facts: map<nat, Milestone5.Item>, texts: map<nat, Text>, f: nat, h: string, row: FactHash.Row,
                  fold: char -> string, hash: string -> string)
    requires texts.Keys == facts.Keys && f in facts && facts[f].version.Some?
    requires row == RowOf(f, facts[f].version.value, texts[f])
    requires h == if Repeated(facts, texts, f, fold) then FactHash.Disambiguated(row, fold, hash)
                  else FactHash.Natural(row, fold, hash)
    ensures OwnHash(facts, texts, f, h, fold, hash)
  {
    hide FactHash.Normal, FactHash.Without, Repeated;
  }

  /** In the row list an earlier row is a fact with a smaller id. */
  lemma RepeatedIsRepeats(order: seq<nat>, facts: map<nat, Milestone5.Item>, texts: map<nat, Text>,
                          rows: seq<FactHash.Row>, i: nat, fold: char -> string)
    requires Ascending(order) && (forall x :: x in order <==> x in facts) && |rows| == |order| && i < |order|
    requires texts.Keys == facts.Keys && forall f | f in facts :: facts[f].version.Some?
    requires forall k | 0 <= k < |order| ::
      order[k] in facts && rows[k] == RowOf(order[k], facts[order[k]].version.value, texts[order[k]])
    ensures FactHash.Repeats(rows, i, fold) <==> Repeated(facts, texts, order[i], fold)
  {
    hide FactHash.Normal, FactHash.Without, Alike;
    forall k | 0 <= k < |order|
      ensures FactHash.Normalized(rows[k], fold) == FactHash.Normalized(rows[i], fold)
         <==> Alike(texts[order[k]], texts[order[i]], fold)
    {
      AlikeRows(rows[k], rows[i], texts[order[k]], texts[order[i]], fold);
    }
    if Repeated(facts, texts, order[i], fold) {
      var g :| g in facts && g < order[i] && facts[g].version == facts[order[i]].version
               && Alike(texts[g], texts[order[i]], fold);
      assert g in order;
      var k :| 0 <= k < |order| && order[k] == g;
    }
  }

  lemma AlikeRows(r: FactHash.Row, q: FactHash.Row, a: Text, b: Text, fold: char -> string)
    requires r == RowOf(r.id, r.version, a) && q == RowOf(q.id, q.version, b)
    ensures FactHash.Normalized(r, fold) == FactHash.Normalized(q, fold) <==> Alike(a, b, fold)
  {}

  lemma IdsInOrder(order: seq<nat>, ids: set<nat>)
    requires Ascending(order) && forall x :: x in order <==> x in ids
    ensures forall i | 0 <= i < |order| :: order[i] in ids
  {
    assert forall i | 0 <= i < |order| :: order[i] in order;
  }

  lemma RowsInOrder(order: seq<nat>, facts: map<nat, Milestone5.Item>, texts: map<nat, Text>, rows: seq<FactHash.Row>)
    requires Ascending(order) && |rows| == |order| && texts.Keys == facts.Keys
    requires forall i | 0 <= i < |order| :: order[i] in facts && facts[order[i]].version.Some?
    requires forall i | 0 <= i < |order| :: rows[i] == RowOf(order[i], facts[order[i]].version.value, texts[order[i]])
    ensures forall i, j | 0 <= i < j < |rows| :: rows[i].id < rows[j].id
    ensures forall i | 0 <= i < |order| :: rows[i].version == facts[order[i]].version.value
  {}

  /** Each UPDATE gives the row with the id at this position the hash at this position. */
  method ByIds(order: seq<nat>, list: seq<string>) returns (hashes: map<nat, string>)
    requires Ascending(order) && |list| == |order|
    ensures forall x :: x in hashes <==> x in order
    ensures forall i | 0 <= i < |order| :: order[i] in order && hashes[order[i]] == list[i]
  {
    hashes := map[];
    for i := 0 to |order|
      invariant forall x :: x in hashes <==> x in order[..i]
      invariant forall k | 0 <= k < i :: order[k] in order[..i] && hashes[order[k]] == list[k]
    {
      assert order[..i + 1] == order[..i] + [order[i]];
      hashes := hashes[order[i] := list[i]];
    }
    assert order[..|order|] == order;
  }

  lemma HashesAreUnique(order: seq<nat>, facts: map<nat, Milestone5.Item>, rows: seq<FactHash.Row>, list: seq<string>,
                        hashes: map<nat, string>)
    requires |rows| == |order| == |list| && (forall x :: x in order <==> x in facts) && hashes.Keys == facts.Keys
    requires forall i | 0 <= i < |order| :: order[i] in facts && facts[order[i]].version.Some?
    requires forall i | 0 <= i < |order| ::
      rows[i].version == facts[order[i]].version.value && hashes[order[i]] == list[i]
    requires forall i, j | 0 <= i < j < |rows| :: rows[i].version != rows[j].version || list[i] != list[j]
    ensures UniqueHashes(facts, hashes)
  {
    forall f, g | f in facts && g in facts && f != g
      ensures facts[f].version != facts[g].version || hashes[f] != hashes[g]
    {
      assert f in order && g in order;
      var i :| 0 <= i < |order| && order[i] == f;
      var j :| 0 <= j < |order| && order[j] == g;
      if i < j { assert rows[i].version != rows[j].version || list[i] != list[j]; }
      if j < i { assert rows[j].version != rows[i].version || list[j] != list[i]; }
    }
  }

  /**
   The backfill and then the hashes, on a database that keeps its foreign keys: every
   fact has a version and a hash of its own text, and the pairs of them are unique.
   */
  method Upgrade(t: Milestone5.Tables, texts: map<nat, Text>, fold: char -> string, hash: string -> string)
      returns (hashes: map<nat, string>)
    requires FactHash.IdealHash(hash) && t.ForeignKeys() && texts.Keys == t.facts.Keys
    modifies t
    ensures t.ForeignKeys() && t.facts.Keys == old(t.facts).Keys
    ensures hashes.Keys == t.facts.Keys && forall f | f in t.facts :: t.facts[f].version.Some?
    ensures UniqueHashes(t.facts, hashes)
    ensures forall f | f in t.facts :: OwnHash(t.facts, texts, f, hashes[f], fold, hash)
  {
    hide FactHash.IdealHash;
    t.BackfillConsistent();
    hashes := AssignAll(t.facts, texts, fold, hash);
  }
}
