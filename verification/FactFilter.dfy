/** The mechanical filter behind the fact extraction agent. Case folding is a parameter. */
module FactFilter {

  /** Confidence is an exact number here. */
  datatype Fact = Fact(
    subject: string,
    predicateName: string,
    object_: string,
    confidence: real,
    quote: string,
    validFrom: int)

  datatype Request = Request(threshold: real, content: string, chapter: int)

  type Key = (string, string, string)

  function KeyOf(f: Fact, fold: string -> string): Key {
    (fold(f.subject), fold(f.predicateName), fold(f.object_))
  }

  predicate Contains(content: string, quote: string) {
    exists k | 0 <= k <= |content| :: StandsAt(content, quote, k)
  }

  predicate StandsAt(content: string, quote: string, k: nat) {
    k + |quote| <= |content| && content[k..k + |quote|] == quote
  }

  predicate Eligible(f: Fact, r: Request) {
    f.confidence >= r.threshold && Contains(r.content, f.quote) && f.validFrom == r.chapter
  }

  /** Fact `i` is kept: it is eligible, and no eligible fact before it has its key. */
  predicate Kept(facts: seq<Fact>, i: nat, r: Request, fold: string -> string)
    requires i < |facts|
  {
    && Eligible(facts[i], r)
    && forall j | 0 <= j < i && Eligible(facts[j], r) :: KeyOf(facts[j], fold) != KeyOf(facts[i], fold)
  }

  /** The kept facts, in order. */
  function Filtered(facts: seq<Fact>, n: nat, r: Request, fold: string -> string): seq<Fact>
    requires n <= |facts|
  {
    if n == 0 then []
    else Filtered(facts, n - 1, r, fold) + if Kept(facts, n - 1, r, fold) then [facts[n - 1]] else []
  }

  /** The loop of `extract`: one pass with the set of keys taken so far. */
  method Extract(facts: seq<Fact>, r: Request, fold: string -> string) returns (kept: seq<Fact>)
    ensures kept == Filtered(facts, |facts|, r, fold)
  {
    kept := [];
    var seen: set<Key> := {};
    for i := 0 to |facts|
      invariant kept == Filtered(facts, i, r, fold)
      invariant forall k: Key ::
        k in seen <==> exists j :: 0 <= j < i && Eligible(facts[j], r) && KeyOf(facts[j], fold) == k
    {
      var fact := facts[i];
      var key := KeyOf(fact, fold);
      if fact.confidence < r.threshold || !Contains(r.content, fact.quote)
         || fact.validFrom != r.chapter || key in seen {
        continue;
      }
      seen := seen + {key};
      kept := kept + [fact];
    }
  }

  // ----------------------------------------------------------- what the filter is

  /** Increasing positions: the facts there form a subsequence. */
  ghost predicate Increasing(at: seq<nat>) {
    forall a, b | 0 <= a < b < |at| :: at[a] < at[b]
  }

  ghost predicate Positions(at: seq<nat>, facts: seq<Fact>, n: nat, r: Request, fold: string -> string)
    requires n <= |facts|
  {
    && Increasing(at)
    && (forall a | 0 <= a < |at| :: at[a] < n)
    && (forall i | 0 <= i < n :: i in at <==> Kept(facts, i, r, fold))
  }

  /**
   The filtered facts are the subsequence of the input at exactly the positions
   of the earliest eligible fact of every eligible key.
   */
  lemma {:induction false} FilterIsSubsequence(facts: seq<Fact>, n: nat, r: Request, fold: string -> string)
      returns (at: seq<nat>)
    requires n <= |facts|
    ensures Positions(at, facts, n, r, fold)
    ensures |Filtered(facts, n, r, fold)| == |at|
    ensures forall a | 0 <= a < |at| :: Filtered(facts, n, r, fold)[a] == facts[at[a]]
  {
    hide Kept;
    if n == 0 {
      at := [];
    } else {
      var before := FilterIsSubsequence(facts, n - 1, r, fold);
      at := before + if Kept(facts, n - 1, r, fold) then [n - 1] else [];
      forall i | 0 <= i < n ensures i in at <==> Kept(facts, i, r, fold) {
        assert i in at <==> i in before || (i == n - 1 && Kept(facts, n - 1, r, fold));
      }
    }
  }

  /** A quote is contained in a text exactly when the text reads: something, the quote, something. */
  lemma QuoteStands(content: string, quote: string)
    ensures Contains(content, quote) <==> exists before: string, after: string :: content == before + quote + after
  {
    if Contains(content, quote) {
      var k :| 0 <= k <= |content| && StandsAt(content, quote, k);
      assert content == content[..k] + quote + content[k + |quote|..];
    }
    if before: string, after: string :| content == before + quote + after {
      assert (before + quote + after)[|before|..|before| + |quote|] == quote;
      assert StandsAt(content, quote, |before|);
    }
  }

  /**
   Which positions these are: the confidence reaches the threshold, the quote stands in
   the chapter's text, the fact holds from that chapter, and no earlier fact of which
   the same is true agrees with it in folded subject, predicate and object.
   */
  lemma KeptExactly(facts: seq<Fact>, i: nat, r: Request, fold: string -> string)
    requires i < |facts|
    ensures Kept(facts, i, r, fold) <==>
      && facts[i].confidence >= r.threshold && facts[i].validFrom == r.chapter && Contains(r.content, facts[i].quote)
      && !exists j :: 0 <= j < i
           && facts[j].confidence >= r.threshold && facts[j].validFrom == r.chapter
           && Contains(r.content, facts[j].quote)
           && fold(facts[j].subject) == fold(facts[i].subject)
           && fold(facts[j].predicateName) == fold(facts[i].predicateName)
           && fold(facts[j].object_) == fold(facts[i].object_)
  {}

  ghost predicate DistinctKeys(kept: seq<Fact>, r: Request, fold: string -> string) {
    && (forall a | 0 <= a < |kept| :: Eligible(kept[a], r))
    && (forall a, b | 0 <= a < b < |kept| :: KeyOf(kept[a], fold) != KeyOf(kept[b], fold))
  }

  /** No two filtered facts share a key, and all are eligible. */
  lemma KeysAreDistinct(facts: seq<Fact>, r: Request, fold: string -> string)
    ensures DistinctKeys(Filtered(facts, |facts|, r, fold), r, fold)
  {
    hide KeyOf, Eligible;
    var kept := Filtered(facts, |facts|, r, fold);
    var at := FilterIsSubsequence(facts, |facts|, r, fold);
    forall a | 0 <= a < |kept| ensures Eligible(kept[a], r) && Kept(facts, at[a], r, fold) { assert at[a] in at; }
    forall a, b | 0 <= a < b < |kept| ensures KeyOf(kept[a], fold) != KeyOf(kept[b], fold) {
      assert at[a] < at[b] && at[a] in at && at[b] in at;
    }
  }

  /** Every eligible fact has its key among the filtered ones: nothing but repetitions is lost. */
  lemma {:induction false} NothingElseLost(facts: seq<Fact>, i: nat, r: Request, fold: string -> string)
      returns (a: nat)
    requires i < |facts| && Eligible(facts[i], r)
    ensures a < |Filtered(facts, |facts|, r, fold)|
    ensures KeyOf(Filtered(facts, |facts|, r, fold)[a], fold) == KeyOf(facts[i], fold)
    decreases i
  {
    hide KeyOf, Eligible;
    if Kept(facts, i, r, fold) {
      var at := FilterIsSubsequence(facts, |facts|, r, fold);
      assert i in at;
      a :| 0 <= a < |at| && at[a] == i;
    } else {
      var j :| 0 <= j < i && Eligible(facts[j], r) && KeyOf(facts[j], fold) == KeyOf(facts[i], fold);
      a := NothingElseLost(facts, j, r, fold);
    }
  }

  lemma {:induction false} AllKept(facts: seq<Fact>, n: nat, r: Request, fold: string -> string)
    requires n <= |facts| && forall i | 0 <= i < |facts| :: Kept(facts, i, r, fold)
    ensures Filtered(facts, n, r, fold) == facts[..n]
  {
    if n > 0 { AllKept(facts, n - 1, r, fold); }
  }

  lemma DistinctAreKept(kept: seq<Fact>, r: Request, fold: string -> string)
    requires DistinctKeys(kept, r, fold)
    ensures forall i | 0 <= i < |kept| :: Kept(kept, i, r, fold)
  {
    hide KeyOf, Eligible;
  }

  /** Filtering the output again changes nothing. */
  lemma FilterIsIdempotent(facts: seq<Fact>, r: Request, fold: string -> string)
    ensures var kept := Filtered(facts, |facts|, r, fold); Filtered(kept, |kept|, r, fold) == kept
  {
    var kept := Filtered(facts, |facts|, r, fold);
    KeysAreDistinct(facts, r, fold);
    DistinctAreKept(kept, r, fold);
    AllKept(kept, |kept|, r, fold);
    assert kept[..|kept|] == kept;
  }
}
