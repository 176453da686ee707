/**
 The fact hashes of the Milestone 5 migration: what the hashed text keeps of a
 fact, and the loop that gives every row of a version a hash of its own. Case
 folding, which maps every character by itself, and the hash function are parameters.
 */
module FactHash {
  import Decimals

  datatype Row = Row(id: nat, version: nat, subject: string, predicateName: string, object_: string)

  const SEPARATOR: char := '\U{001f}'

  /** White space as Python's regular expressions know it, the separator included. */
  predicate IsSpace(c: char) {
    || '\t' <= c <= '\r' || '\U{001c}' <= c <= ' ' || c == '\U{0085}' || c == '\U{00a0}' || c == '\U{1680}'
    || '\U{2000}' <= c <= '\U{200a}' || c == '\U{2028}' || c == '\U{2029}' || c == '\U{202f}' || c == '\U{205f}'
    || c == '\U{3000}'
  }

  /** The punctuation the normalisation takes out. */
  predicate IsPunctuation(c: char) {
    c in {',', '\U{ff0c}', '\U{3002}', '.', '!', '\U{ff01}', '?', '\U{ff1f}', ';', '\U{ff1b}', ':', '\U{ff1a}',
          '\'', '"',
          '\U{201c}', '\U{201d}', '\U{2018}', '\U{2019}', '\U{ff08}', '\U{ff09}', '(', ')', '[', ']', '{', '}'}
  }

  predicate Dropped(c: char) { IsSpace(c) || IsPunctuation(c) }

  /** The folded text: every character folded by itself. */
  function Fold(s: string, fold: char -> string): string {
    if s == "" then "" else fold(s[0]) + Fold(s[1..], fold)
  }

  function Without(s: string, drop: char -> bool): (r: string)
    ensures forall i | 0 <= i < |r| :: !drop(r[i])
  {
    if s == "" then "" else (if drop(s[0]) then "" else [s[0]]) + Without(s[1..], drop)
  }

  /** `strip`: white space at both ends. */
  function Strip(s: string): string
    decreases |s|
  {
    if s == "" then s
    else if IsSpace(s[0]) then Strip(s[1..])
    else if IsSpace(s[|s| - 1]) then Strip(s[..|s| - 1])
    else s
  }

  function Normal(s: string, fold: char -> string): string {
    Strip(Without(Fold(s, fold), Dropped))
  }

  /** What is left of the three parts of a fact. */
  function Normalized(r: Row, fold: char -> string): (string, string, string) {
    (Normal(r.subject, fold), Normal(Without(r.predicateName, c => c == '_'), fold), Normal(r.object_, fold))
  }

  function Joined(t: (string, string, string)): string {
    t.0 + [SEPARATOR] + t.1 + [SEPARATOR] + t.2
  }

  function Natural(r: Row, fold: char -> string, hash: string -> string): string {
    hash(Joined(Normalized(r, fold)))
  }

  /** The hash given to a row whose natural one is taken: of that hash, a colon and the row id. */
  function Disambiguated(r: Row, fold: char -> string, hash: string -> string): string {
    hash(Natural(r, fold, hash) + ":" + Decimals.Decimal(r.id))
  }

  /** No collisions, and digests that hold neither a colon nor the separator. */
  ghost predicate IdealHash(hash: string -> string) {
    && (forall a, b :: hash(a) == hash(b) ==> a == b)
    && (forall a :: ':' !in hash(a) && SEPARATOR !in hash(a))
  }

  // ------------------------------------------------------ what the text determines

  /** Nothing is left for `strip`: the substitution has removed all white space. */
  lemma StripChangesNothing(s: string)
    ensures Strip(Without(s, Dropped)) == Without(s, Dropped)
  {}

  lemma NormalHasNoSeparator(s: string, fold: char -> string)
    ensures SEPARATOR !in Normal(s, fold) && ':' !in Normal(s, fold)
  {
    StripChangesNothing(Fold(s, fold));
    var n := Normal(s, fold);
    forall i | 0 <= i < |n| ensures n[i] != SEPARATOR && n[i] != ':' { assert !Dropped(n[i]); }
  }

  // --------------------------------------------------------- what the text keeps

  ghost predicate Increasing(at: seq<nat>) {
    forall a, b | 0 <= a < b < |at| :: at[a] < at[b]
  }

  /** `r` is what stands in `s` at the positions `at`, in order, and these are all that are not dropped. */
  ghost predicate Keeps(r: string, s: string, drop: char -> bool, at: seq<nat>) {
    && Increasing(at) && |at| == |r|
    && (forall a | 0 <= a < |at| :: at[a] < |s| && r[a] == s[at[a]])
    && (forall i | 0 <= i < |s| :: i in at <==> !drop(s[i]))
  }

  lemma KeepsBehind(r: string, s: string, c: char, drop: char -> bool, at: seq<nat>)
    requires Keeps(r, s, drop, at)
    ensures Keeps(if drop(c) then r else r + [c], s + [c], drop, if drop(c) then at else at + [|s|])
  {
    var all := if drop(c) then at else at + [|s|];
    forall i | 0 <= i < |s + [c]| ensures i in all <==> !drop((s + [c])[i]) {
      assert i in all <==> i in at || (i == |s| && !drop(c));
      assert i < |s| ==> (s + [c])[i] == s[i];
    }
  }

  /** Taking characters out leaves all the others, in order. */
  lemma {:induction false} WithoutKeepsOthers(s: string, drop: char -> bool) returns (at: seq<nat>)
    ensures Keeps(Without(s, drop), s, drop, at)
    decreases |s|
  {
    hide Keeps;
    if s == "" {
      at := [];
      KeepsNothing(drop);
    } else {
      hide Without;
      var init, c := s[..|s| - 1], s[|s| - 1];
      var before := WithoutKeepsOthers(init, drop);
      at := if drop(c) then before else before + [|init|];
      WithoutLast(init, c, drop);
      KeepsBehind(Without(init, drop), init, c, drop, before);
      assert init + [c] == s;
    }
  }

  lemma WithoutLast(s: string, c: char, drop: char -> bool)
    ensures Without(s + [c], drop) == if drop(c) then Without(s, drop) else Without(s, drop) + [c]
  {
    WithoutAppend(s, [c], drop);
    WithoutOne(c, drop);
  }

  lemma WithoutOne(c: char, drop: char -> bool)
    ensures Without([c], drop) == if drop(c) then "" else [c]
  {
    assert [c][1..] == "";
  }

  lemma KeepsNothing(drop: char -> bool)
    ensures Keeps("", "", drop, [])
  {}

  /** The punctuation in the character class of the substitution. */
  const PUNCTUATION: string :=
    ",\U{ff0c}\U{3002}.!\U{ff01}?\U{ff1f};\U{ff1b}:\U{ff1a}'\"\U{201c}\U{201d}\U{2018}\U{2019}\U{ff08}\U{ff09}()[]{}"

  /** The white space of the class, character by character. */
  const SPACES: string :=
    "\t\n\U{000b}\U{000c}\r\U{001c}\U{001d}\U{001e}\U{001f} \U{0085}\U{00a0}\U{1680}\U{2000}\U{2001}" +
    "\U{2002}\U{2003}\U{2004}\U{2005}\U{2006}\U{2007}\U{2008}\U{2009}\U{200a}\U{2028}\U{2029}\U{202f}\U{205f}\U{3000}"

  lemma SpacesListed(c: char)
    ensures IsSpace(c) <==> c in SPACES
  {}

  lemma PunctuationListed(c: char)
    ensures IsPunctuation(c) <==> c in PUNCTUATION
  {}

  /**
   A part of the hashed text is the folded field without white space and the listed
   punctuation: exactly the other characters, in order.
   */
  lemma NormalKeepsOthers(s: string, fold: char -> string) returns (at: seq<nat>)
    ensures var n, text := Normal(s, fold), Fold(s, fold);
      && Increasing(at) && |at| == |n|
      && (forall a | 0 <= a < |at| :: at[a] < |text| && n[a] == text[at[a]])
      && (forall i | 0 <= i < |text| :: i in at <==> text[i] !in SPACES && text[i] !in PUNCTUATION)
  {
    var text := Fold(s, fold);
    StripChangesNothing(text);
    at := WithoutKeepsOthers(text, Dropped);
    hide IsSpace, IsPunctuation, Fold, Without, Strip;
    forall i | 0 <= i < |text| ensures i in at <==> text[i] !in SPACES && text[i] !in PUNCTUATION {
      SpacesListed(text[i]);
      PunctuationListed(text[i]);
    }
  }

  lemma {:induction false} WithoutAppend(a: string, b: string, drop: char -> bool)
    ensures Without(a + b, drop) == Without(a, drop) + Without(b, drop)
    decreases |a|
  {
    if a == "" {
      assert a + b == b;
    } else {
      assert (a + b)[1..] == a[1..] + b;
      WithoutAppend(a[1..], b, drop);
    }
  }

  lemma {:induction false} WithoutAll(s: string, drop: char -> bool)
    requires forall i | 0 <= i < |s| :: drop(s[i])
    ensures Without(s, drop) == ""
  {
    if s != "" { WithoutAll(s[1..], drop); }
  }

  lemma {:induction false} WithoutNone(s: string, drop: char -> bool)
    requires forall i | 0 <= i < |s| :: !drop(s[i])
    ensures Without(s, drop) == s
  {
    if s != "" { WithoutNone(s[1..], drop); }
  }

  lemma {:induction false} FoldAppend(a: string, b: string, fold: char -> string)
    ensures Fold(a + b, fold) == Fold(a, fold) + Fold(b, fold)
    decreases |a|
  {
    if a == "" {
      assert a + b == b;
    } else {
      assert (a + b)[1..] == a[1..] + b;
      FoldAppend(a[1..], b, fold);
    }
  }

  /** Characters that mean nothing to the hash: white space and punctuation that folding leaves alone. */
  predicate Silent(c: char, fold: char -> string) {
    fold(c) == [c] && (c in SPACES || c in PUNCTUATION)
  }

  lemma SilentIsDropped(c: char, fold: char -> string)
    requires Silent(c, fold)
    ensures Dropped(c) && c != '_' && Fold([c], fold) == [c] && Without([c], Dropped) == ""
  {
    SpacesListed(c);
    PunctuationListed(c);
    hide IsPunctuation, IsSpace;
    assert [c][1..] == "";
    assert Fold([c], fold) == fold(c) + "";
    WithoutAll([c], Dropped);
  }

  lemma WithoutMiddle(a: string, x: string, b: string, drop: char -> bool)
    requires Without(x, drop) == ""
    ensures Without(a + x + b, drop) == Without(a + b, drop)
  {
    hide Without;
    WithoutAppend(a + x, b, drop);
    WithoutAppend(a, x, drop);
    WithoutAppend(a, b, drop);
  }

  /** Putting such a character anywhere into a field changes nothing. */
  lemma SilentInserted(a: string, c: char, b: string, fold: char -> string)
    requires Silent(c, fold)
    ensures Normal(a + [c] + b, fold) == Normal(a + b, fold)
  {
    hide Fold, Silent, Dropped, Without, Strip;
    SilentIsDropped(c, fold);
    FoldAppend(a + [c], b, fold);
    FoldAppend(a, [c], fold);
    FoldAppend(a, b, fold);
    WithoutMiddle(Fold(a, fold), [c], Fold(b, fold), Dropped);
  }

  lemma UnderscoreInserted(a: string, c: char, b: string)
    ensures Without(a + "_" + b, x => x == '_') == Without(a + b, x => x == '_')
    ensures c != '_' ==>
      Without(a + [c] + b, x => x == '_') == Without(a, x => x == '_') + [c] + Without(b, x => x == '_')
    ensures Without(a + b, x => x == '_') == Without(a, x => x == '_') + Without(b, x => x == '_')
  {
    var under := (x: char) => x == '_';
    WithoutAll("_", under);
    WithoutMiddle(a, "_", b, under);
    WithoutAppend(a, b, under);
    if c != '_' {
      WithoutAppend(a + [c], b, under);
      WithoutAppend(a, [c], under);
      WithoutNone([c], under);
    }
  }

  /**
   A silent character put into the subject, the predicate or the object, or an
   underscore put into the predicate, changes no natural hash.
   */
  lemma SpellingIsForgiven(r: Row, a: string, c: char, b: string, fold: char -> string, hash: string -> string)
    ensures Silent(c, fold) ==>
      && Natural(r.(subject := a + [c] + b), fold, hash) == Natural(r.(subject := a + b), fold, hash)
      && Natural(r.(predicateName := a + [c] + b), fold, hash) == Natural(r.(predicateName := a + b), fold, hash)
      && Natural(r.(object_ := a + [c] + b), fold, hash) == Natural(r.(object_ := a + b), fold, hash)
    ensures Natural(r.(predicateName := a + "_" + b), fold, hash) == Natural(r.(predicateName := a + b), fold, hash)
  {
    hide Normal, Silent;
    hide Without, Joined;
    UnderscoreInserted(a, c, b);
    if Silent(c, fold) {
      SilentIsDropped(c, fold);
      SilentInserted(a, c, b, fold);
      SilentInserted(Without(a, x => x == '_'), c, Without(b, x => x == '_'), fold);
    }
  }

  /** Texts in which there is nothing to take out, before or after folding. */
  predicate Plain(r: Row, fold: char -> string) {
    && (forall i | 0 <= i < |r.predicateName| :: r.predicateName[i] != '_')
    && PlainText(r.subject, fold) && PlainText(r.predicateName, fold) && PlainText(r.object_, fold)
  }

  predicate PlainText(s: string, fold: char -> string) {
    var text := Fold(s, fold); forall i | 0 <= i < |text| :: !IsSpace(text[i]) && !IsPunctuation(text[i])
  }

  lemma PlainNormal(s: string, fold: char -> string)
    requires PlainText(s, fold)
    ensures Normal(s, fold) == Fold(s, fold)
  {
    WithoutNone(Fold(s, fold), Dropped);
    StripChangesNothing(Fold(s, fold));
  }

  /** The hashed text of a plain fact: its folded subject, predicate and object with unit separators between. */
  lemma PlainHash(r: Row, fold: char -> string, hash: string -> string)
    requires Plain(r, fold)
    ensures Normalized(r, fold) == (Fold(r.subject, fold), Fold(r.predicateName, fold), Fold(r.object_, fold))
    ensures Natural(r, fold, hash)
         == hash(Fold(r.subject, fold) + "\U{001f}" + Fold(r.predicateName, fold) + "\U{001f}" + Fold(r.object_, fold))
  {
    hide Normal, PlainText;
    WithoutNone(r.predicateName, c => c == '_');
    PlainNormal(r.subject, fold);
    PlainNormal(r.predicateName, fold);
    PlainNormal(r.object_, fold);
  }

  /** Texts split at the first occurrence of a character in one way only. */
  lemma SplitsOnce(a: string, b: string, x: string, y: string, c: char)
    requires c !in a && c !in x && a + [c] + b == x + [c] + y
    ensures a == x && b == y
  {
    var s := a + [c] + b;
    assert s[|a|] == c && s[|x|] == c;
    forall i | 0 <= i < |a| ensures s[i] != c { assert s[i] == a[i] && a[i] in a; }
    forall i | 0 <= i < |x| ensures s[i] != c { assert s[i] == x[i] && x[i] in x; }
    assert a == s[..|a|] && x == s[..|x|];
    assert b == s[|a| + 1..] && y == s[|x| + 1..];
  }

  /** The hashed text determines the normalised triple. */
  lemma JoinedIsInjective(r: Row, s: Row, fold: char -> string)
    ensures Joined(Normalized(r, fold)) == Joined(Normalized(s, fold)) <==> Normalized(r, fold) == Normalized(s, fold)
  {
    var a, b := Normalized(r, fold), Normalized(s, fold);
    NormalHasNoSeparator(r.subject, fold);
    NormalHasNoSeparator(s.subject, fold);
    NormalHasNoSeparator(Without(r.predicateName, c => c == '_'), fold);
    NormalHasNoSeparator(Without(s.predicateName, c => c == '_'), fold);
    hide Normal, Without, Joined;
    if Joined(a) == Joined(b) { TriplesSplit(a, b); }
  }

  lemma TriplesSplit(a: (string, string, string), b: (string, string, string))
    requires SEPARATOR !in a.0 && SEPARATOR !in a.1 && SEPARATOR !in b.0 && SEPARATOR !in b.1
    requires Joined(a) == Joined(b)
    ensures a == b
  {
    assert Joined(a) == a.0 + [SEPARATOR] + (a.1 + [SEPARATOR] + a.2);
    assert Joined(b) == b.0 + [SEPARATOR] + (b.1 + [SEPARATOR] + b.2);
    SplitsOnce(a.0, a.1 + [SEPARATOR] + a.2, b.0, b.1 + [SEPARATOR] + b.2, SEPARATOR);
    SplitsOnce(a.1, a.2, b.1, b.2, SEPARATOR);
  }

  /** Two rows have the same natural hash exactly when they normalise to the same triple. */
  lemma NaturalDecides(r: Row, s: Row, fold: char -> string, hash: string -> string)
    requires IdealHash(hash)
    ensures Natural(r, fold, hash) == Natural(s, fold, hash) <==> Normalized(r, fold) == Normalized(s, fold)
  {
    JoinedIsInjective(r, s, fold);
    var a, b := Joined(Normalized(r, fold)), Joined(Normalized(s, fold));
    assert hash(a) == hash(b) ==> a == b;
  }

  lemma DigitsOnly(n: nat)
    ensures ':' !in Decimals.Decimal(n) && SEPARATOR !in Decimals.Decimal(n)
  {
    Decimals.DecimalRoundTrip(n);
  }

  /** A disambiguated hash is no natural one: its text has no separator in it. */
  lemma NeverNatural(r: Row, s: Row, fold: char -> string, hash: string -> string)
    requires IdealHash(hash)
    ensures Disambiguated(r, fold, hash) != Natural(s, fold, hash)
  {
    var text, t := Natural(r, fold, hash) + ":" + Decimals.Decimal(r.id), Normalized(s, fold);
    DigitsOnly(r.id);
    assert SEPARATOR !in text;
    assert Joined(t)[|t.0|] == SEPARATOR;
    assert SEPARATOR in Joined(t);
    assert hash(text) == hash(Joined(t)) ==> text == Joined(t);
  }

  /** Disambiguated hashes of different rows differ, for they carry the row id. */
  lemma DisambiguatedByIds(r: Row, s: Row, fold: char -> string, hash: string -> string)
    requires IdealHash(hash) && Disambiguated(r, fold, hash) == Disambiguated(s, fold, hash)
    ensures r.id == s.id
  {
    var a, b := Natural(r, fold, hash), Natural(s, fold, hash);
    var x, y := a + ":" + Decimals.Decimal(r.id), b + ":" + Decimals.Decimal(s.id);
    assert hash(x) == hash(y) ==> x == y;
    SplitsOnce(a, Decimals.Decimal(r.id), b, Decimals.Decimal(s.id), ':');
    Decimals.DecimalRoundTrip(r.id);
    Decimals.DecimalRoundTrip(s.id);
  }

  // ------------------------------------------------------------------- the loop

  /** An earlier row of the same version normalises to the same triple. */
  predicate Repeats(rows: seq<Row>, i: nat, fold: char -> string)
    requires i < |rows|
  {
    exists j | 0 <= j < i ::
      rows[j].version == rows[i].version && Normalized(rows[j], fold) == Normalized(rows[i], fold)
  }

  /** An earlier row of the same version agrees with row `i` in folded subject, predicate and object. */
  predicate SaidBefore(rows: seq<Row>, i: nat, fold: char -> string)
    requires i < |rows|
  {
    exists j | 0 <= j < i ::
      && rows[j].version == rows[i].version
      && Fold(rows[j].subject, fold) == Fold(rows[i].subject, fold)
      && Fold(rows[j].predicateName, fold) == Fold(rows[i].predicateName, fold)
      && Fold(rows[j].object_, fold) == Fold(rows[i].object_, fold)
  }

  /** Among plain rows, repeating is saying the same three things again. */
  lemma PlainRepeats(rows: seq<Row>, i: nat, fold: char -> string)
    requires i < |rows| && forall j | 0 <= j <= i :: Plain(rows[j], fold)
    ensures Repeats(rows, i, fold) <==> SaidBefore(rows, i, fold)
  {
    hide Plain, Fold, Normalized;
    forall j | 0 <= j <= i
      ensures Normalized(rows[j], fold)
           == (Fold(rows[j].subject, fold), Fold(rows[j].predicateName, fold), Fold(rows[j].object_, fold))
    {
      PlainHash(rows[j], fold, x => x);
    }
  }

  /** Which hash row `i` gets, stated by the three fields where the rows up to it are plain. */
  lemma PlainKeepsNatural(rows: seq<Row>, i: nat, fold: char -> string, hash: string -> string)
    requires IdealHash(hash) && i < |rows| && forall j | 0 <= j <= i :: Plain(rows[j], fold)
    ensures HashOf(rows, i, fold, hash) == Natural(rows[i], fold, hash) <==> !SaidBefore(rows, i, fold)
  {
    hide Plain, SaidBefore, Natural, Disambiguated;
    PlainRepeats(rows, i, fold);
    NeverNatural(rows[i], rows[i], fold, hash);
  }

  /**
   The loop over the rows in id order. All (version, hash) pairs come out
   distinct, and a row keeps its natural hash exactly when it is the first of its
   version with that normalised triple: among plain rows, exactly when no earlier
   row of its version agrees with it in folded subject, predicate and object.
   */
  method AssignHashes(rows: seq<Row>, fold: char -> string, hash: string -> string) returns (hashes: seq<string>)
    requires IdealHash(hash) && forall i, j | 0 <= i < j < |rows| :: rows[i].id < rows[j].id
    ensures |hashes| == |rows|
    ensures forall i, j | 0 <= i < j < |rows| :: rows[i].version != rows[j].version || hashes[i] != hashes[j]
    ensures forall i | 0 <= i < |rows| ::
      if Repeats(rows, i, fold) then hashes[i] == Disambiguated(rows[i], fold, hash)
      else hashes[i] == Natural(rows[i], fold, hash)
    ensures forall i | 0 <= i < |rows| && (forall j | 0 <= j <= i :: Plain(rows[j], fold)) ::
      hashes[i] == Natural(rows[i], fold, hash) <==> !SaidBefore(rows, i, fold)
  {
    hide *;
    hashes := [];
    var seen: set<(nat, string)> := {};
    NoPairs(rows);
    for i := 0 to |rows|
      invariant |hashes| == i && Pairs(seen, rows, hashes)
      invariant forall k | 0 <= k < i :: hashes[k] == HashOf(rows, k, fold, hash)
      invariant forall k, m | 0 <= k < m < i :: rows[k].version != rows[m].version || hashes[k] != hashes[m]
    {
      var row := rows[i];
      var normalized := Natural(row, fold, hash);
      SeenMeansRepeated(rows, i, fold, hash, hashes, seen);
      if (row.version, normalized) in seen {
        normalized := hash(normalized + ":" + Decimals.Decimal(row.id));
      }
      HashOfIs(rows, i, fold, hash);
      FreshPair(rows, i, fold, hash);
      PairAdded(seen, rows, hashes, normalized);
      seen := seen + {(row.version, normalized)};
      hashes := hashes + [normalized];
    }
    forall i | 0 <= i < |rows|
      ensures hashes[i] == if Repeats(rows, i, fold) then Disambiguated(rows[i], fold, hash)
                           else Natural(rows[i], fold, hash)
    {
      HashOfIs(rows, i, fold, hash);
    }
    forall i | 0 <= i < |rows| && (forall j | 0 <= j <= i :: Plain(rows[j], fold))
      ensures hashes[i] == Natural(rows[i], fold, hash) <==> !SaidBefore(rows, i, fold)
    {
      PlainKeepsNatural(rows, i, fold, hash);
    }
  }

  lemma NoPairs(rows: seq<Row>)
    ensures Pairs({}, rows, [])
  {}

  lemma HashOfIs(rows: seq<Row>, i: nat, fold: char -> string, hash: string -> string)
    requires i < |rows|
    ensures Disambiguated(rows[i], fold, hash)
         == hash(Natural(rows[i], fold, hash) + ":" + Decimals.Decimal(rows[i].id))
    ensures HashOf(rows, i, fold, hash)
         == if Repeats(rows, i, fold) then Disambiguated(rows[i], fold, hash) else Natural(rows[i], fold, hash)
  {}

  /** The set holds the (version, hash) pairs of the rows done so far. */
  ghost predicate Pairs(seen: set<(nat, string)>, rows: seq<Row>, hashes: seq<string>)
    requires |hashes| <= |rows|
  {
    forall v: nat, h: string ::
      (v, h) in seen <==> exists k :: 0 <= k < |hashes| && rows[k].version == v && hashes[k] == h
  }

  lemma PairAdded(seen: set<(nat, string)>, rows: seq<Row>, hashes: seq<string>, h: string)
    requires |hashes| < |rows| && Pairs(seen, rows, hashes)
    ensures Pairs(seen + {(rows[|hashes|].version, h)}, rows, hashes + [h])
  {
    var all, now := seen + {(rows[|hashes|].version, h)}, hashes + [h];
    forall v: nat, g: string
      ensures (v, g) in all <==> exists k :: 0 <= k < |now| && rows[k].version == v && now[k] == g
    {
      if (v, g) in seen {
        var k :| 0 <= k < |hashes| && rows[k].version == v && hashes[k] == g;
        assert now[k] == g;
      } else if (v, g) in all {
        assert now[|hashes|] == g;
      } else if k :| 0 <= k < |now| && rows[k].version == v && now[k] == g {
        assert k < |hashes| ==> hashes[k] == g;
      }
    }
  }

  /** The hash the loop is to give row `i`. */
  function HashOf(rows: seq<Row>, i: nat, fold: char -> string, hash: string -> string): string
    requires i < |rows|
  {
    if Repeats(rows, i, fold) then Disambiguated(rows[i], fold, hash) else Natural(rows[i], fold, hash)
  }

  /** The earliest row with the triple of row `i` holds the natural hash. */
  lemma {:induction false} FirstHolder(rows: seq<Row>, i: nat, fold: char -> string) returns (k: nat)
    requires i < |rows|
    ensures k <= i && rows[k].version == rows[i].version && Normalized(rows[k], fold) == Normalized(rows[i], fold)
    ensures !Repeats(rows, k, fold)
    ensures Repeats(rows, i, fold) <==> k < i
    decreases i
  {
    if Repeats(rows, i, fold) {
      var j :| 0 <= j < i && rows[j].version == rows[i].version
               && Normalized(rows[j], fold) == Normalized(rows[i], fold);
      k := FirstHolder(rows, j, fold);
    } else {
      k := i;
    }
  }

  lemma SeenMeansRepeated(rows: seq<Row>, i: nat, fold: char -> string, hash: string -> string, hashes: seq<string>,
                          seen: set<(nat, string)>)
    requires IdealHash(hash) && i < |rows| && |hashes| == i && Pairs(seen, rows, hashes)
    requires forall k | 0 <= k < i :: hashes[k] == HashOf(rows, k, fold, hash)
    ensures (rows[i].version, Natural(rows[i], fold, hash)) in seen <==> Repeats(rows, i, fold)
  {
    hide Normalized, Natural, Disambiguated, IdealHash;
    if k :| 0 <= k < i && rows[k].version == rows[i].version && hashes[k] == Natural(rows[i], fold, hash) {
      NeverNatural(rows[k], rows[i], fold, hash);
      NaturalDecides(rows[k], rows[i], fold, hash);
    }
    if Repeats(rows, i, fold) {
      var k := FirstHolder(rows, i, fold);
      NaturalDecides(rows[k], rows[i], fold, hash);
      assert hashes[k] == Natural(rows[i], fold, hash);
    }
  }

  /** Row `i` gets a hash that no earlier row of its version has. */
  lemma FreshPair(rows: seq<Row>, i: nat, fold: char -> string, hash: string -> string)
    requires IdealHash(hash) && i < |rows| && forall k, m | 0 <= k < m < |rows| :: rows[k].id < rows[m].id
    ensures forall k | 0 <= k < i ::
      rows[k].version != rows[i].version || HashOf(rows, k, fold, hash) != HashOf(rows, i, fold, hash)
  {
    hide Normalized, Natural, Disambiguated, IdealHash;
    forall k | 0 <= k < i && rows[k].version == rows[i].version
      ensures HashOf(rows, k, fold, hash) != HashOf(rows, i, fold, hash)
    {
      NeverNatural(rows[k], rows[i], fold, hash);
      NeverNatural(rows[i], rows[k], fold, hash);
      NaturalDecides(rows[k], rows[i], fold, hash);
      if Disambiguated(rows[k], fold, hash) == Disambiguated(rows[i], fold, hash) {
        DisambiguatedByIds(rows[k], rows[i], fold, hash);
      }
    }
  }
}
