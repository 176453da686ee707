/** Pages of a list: the slices of the timeline, and the two ways its pages are counted. */
module Pagination {

  function Min(a: nat, b: nat): nat { if a <= b then a else b }

  /** `rows[(page - 1) * size : page * size]`: Python clips both ends to the list. */
  function Page<T>(rows: seq<T>, page: nat, size: nat): seq<T>
    requires page >= 1 && size >= 1
  {
    var from, to := Min((page - 1) * size, |rows|), Min(page * size, |rows|);
    if from <= to then rows[from..to] else []
  }

  /** The timeline's `(total + size - 1) // size`. */
  function TotalPages(total: nat, size: nat): nat
    requires size >= 1
  {
    (total + size - 1) / size
  }

  /** `ceil` of an exact quotient. */
  function Ceiling(a: nat, b: nat): nat
    requires b >= 1
  {
    a / b + if a % b == 0 then 0 else 1
  }

  /** `page_response`: the ceiling, or 0 for no items. */
  function ResponsePages(total: nat, size: nat): nat
    requires size >= 1
  {
    if total != 0 then Ceiling(total, size) else 0
  }

  /** Both formulas say the least number of pages that hold all items. */
  lemma LeastPages(total: nat, size: nat, n: nat)
    requires size >= 1
    ensures n == TotalPages(total, size) <==> total <= n * size && (n == 0 || (n - 1) * size < total)
    ensures ResponsePages(total, size) == TotalPages(total, size)
  {
    var q, r := total / size, total % size;
    assert total == q * size + r;
    var p := if r == 0 then q else q + 1;
    assert p * size == q * size + if r == 0 then 0 else size;
    Quotient(total + size - 1, size, p, p * size);
    if n < p { Scale(n, p, size); }
    if n > p { Scale(p, n, size); }
    assert p > 0 ==> (p - 1) * size == p * size - size;
    assert n > 0 ==> (n - 1) * size == n * size - size;
  }

  lemma Quotient(a: nat, b: nat, q: nat, product: nat)
    requires b >= 1 && product == q * b && product <= a < product + b
    ensures a / b == q
  {
    var k, r := a / b, a % b;
    assert a == k * b + r;
    if k < q { Scale(k, q, b); }
    if k > q { Scale(q, k, b); }
  }

  lemma Scale(a: nat, b: nat, c: nat)
    requires a < b
    ensures a * c + c <= b * c
  {
    assert b * c == (a + 1) * c + (b - a - 1) * c;
    assert (a + 1) * c == a * c + c;
  }

  /** The first `n` pages one after the other. */
  function Pages<T>(rows: seq<T>, n: nat, size: nat): seq<T>
    requires size >= 1
  {
    if n == 0 then [] else Pages(rows, n - 1, size) + Page(rows, n, size)
  }

  /** The first `n` pages are the first n * size rows, in order and each once. */
  lemma {:induction false} PagesAreAPrefix<T>(rows: seq<T>, n: nat, size: nat)
    requires size >= 1
    ensures Pages(rows, n, size) == rows[..Min(n * size, |rows|)]
  {
    if n == 0 {
      assert rows[..0] == [];
    } else {
      PagesAreAPrefix(rows, n - 1, size);
      assert n * size == (n - 1) * size + size;
      var from, to := Min((n - 1) * size, |rows|), Min(n * size, |rows|);
      assert rows[..from] + rows[from..to] == rows[..to];
    }
  }

  /**
   Pages 1 to the page count are the whole list in order; every page but the last
   is full, the last is not empty, and every later page is empty.
   */
  lemma PagesPartition<T>(rows: seq<T>, size: nat, page: nat)
    requires size >= 1 && page >= 1
    ensures var n := TotalPages(|rows|, size);
      && Pages(rows, n, size) == rows
      && (page < n ==> |Page(rows, page, size)| == size)
      && (page == n ==> 1 <= |Page(rows, page, size)| <= size)
      && (page > n ==> Page(rows, page, size) == [])
  {
    var n := TotalPages(|rows|, size);
    LeastPages(|rows|, size, n);
    PagesAreAPrefix(rows, n, size);
    assert page * size == (page - 1) * size + size;
    if page < n {
      Scale(page, n, size);
      assert n * size == (n - 1) * size + size;
    }
    if page > n { Scale(n, page, size); }
  }

  /** Row `k` is on page k / size + 1, and on no other. */
  lemma RowIsOnOnePage<T>(rows: seq<T>, size: nat, k: nat, page: nat)
    requires size >= 1 && page >= 1 && k < |rows|
    ensures (page - 1) * size <= k < page * size <==> page == k / size + 1
    ensures page == k / size + 1 ==> 0 <= k - (page - 1) * size < |Page(rows, page, size)|
                                     && Page(rows, page, size)[k - (page - 1) * size] == rows[k]
  {
    var q, r := k / size, k % size;
    assert k == q * size + r;
    assert page * size == (page - 1) * size + size;
    if page - 1 < q { Scale(page - 1, q, size); }
    if page - 1 > q { Scale(q, page - 1, size); }
  }
}
