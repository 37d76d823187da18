/**
 * The page arithmetic the list endpoints of src/controllers share:
 * `Math.ceil(count / size)` over JavaScript numbers, where a zero page
 * size yields Infinity (or NaN for zero items), and the rows a page covers.
 */
module Paging {

  /** A JavaScript number as far as page counts need one. */
  datatype Num = Finite(v: int) | Infinite | NotANumber

  /** `Math.ceil(n / d)` for a count `n` and a page size `d` of any sign. */
  function CeilDiv(n: nat, d: int): (r: Num)
    ensures d == 0 ==> (r == NotANumber <==> n == 0) && (r == Infinite <==> n > 0)
    ensures d != 0 ==> r.Finite?
  {
    if d == 0 then (if n == 0 then NotANumber else Infinite)
    else if d > 0 then Finite((n + d - 1) / d)
    else Finite(-(n / -d))
  }

  /** For a positive size the page count is the least number of pages that hold every item. */
  lemma CeilDivSpec(n: nat, d: int)
    requires d > 0
    ensures CeilDiv(n, d).v >= 0
    ensures CeilDiv(n, d).v * d >= n
    ensures (CeilDiv(n, d).v - 1) * d < n
  {
    var t := (n + d - 1) / d;
    assert t * d + (n + d - 1) % d == n + d - 1;
    assert 0 <= (n + d - 1) % d < d;
  }

  /** `page < totalPages` with a JavaScript number on the right. */
  predicate LessThan(page: int, total: Num) {
    match total
    case Finite(v) => page < v
    case Infinite => true
    case NotANumber => false
  }

  /** `(page - 1) * size`, the number of rows before the page. */
  function Offset(page: int, size: int): int {
    (page - 1) * size
  }

  /** With a positive size and a page of at least 1, another page follows iff items lie beyond this page. */
  lemma NextPageIffMoreItems(page: int, size: int, n: nat)
    requires size > 0 && page >= 1
    ensures LessThan(page, CeilDiv(n, size)) <==> Offset(page, size) + size < n
  {
    CeilDivSpec(n, size);
    var t := CeilDiv(n, size).v;
    assert Offset(page, size) + size == page * size;
    if page < t {
      ScaleLe(page, t - 1, size);
    } else {
      ScaleLe(t, page, size);
    }
  }

  /** Multiplying by a positive size keeps the order of page numbers. */
  lemma ScaleLe(a: int, b: int, size: int)
    requires size > 0 && a <= b
    ensures a * size <= b * size
  {
    assert b * size - a * size == (b - a) * size;
  }

  /** With a positive size, a non-negative offset means a page of at least 1. */
  lemma PageFromOne(page: int, size: int)
    requires size > 0 && Offset(page, size) >= 0
    ensures page >= 1
  {
    if page < 1 {
      ScaleLe(page, 0, size);
    }
  }

  /** The rows before a page and the page's own rows. */
  predicate OnPage(q: int, size: int, k: int) {
    Offset(q, size) <= k < Offset(q, size) + size
  }

  /** Item `k` lies on page `k / size + 1`. */
  lemma OnItsPage(size: int, k: nat)
    requires size > 0
    ensures k / size + 1 >= 1 && OnPage(k / size + 1, size, k)
  {
    assert k == (k / size) * size + k % size;
  }

  /** No item lies on two pages. */
  lemma OnOnePage(size: int, k: int, p: int, q: int)
    requires size > 0 && OnPage(p, size, k) && OnPage(q, size, k)
    ensures p == q
  {
    if p < q {
      ScaleLe(p, q - 1, size);
    } else if q < p {
      ScaleLe(q, p - 1, size);
    }
  }

  /**
   * The pages 1 .. totalPages cover the items without overlap: item `k` lies
   * on page `k / size + 1`, which is a page `totalPages` counts, and on no other.
   */
  lemma PagesPartitionItems(n: nat, size: int, k: nat)
    requires size > 0 && k < n
    ensures var p := k / size + 1;
            && 1 <= p <= CeilDiv(n, size).v
            && OnPage(p, size, k)
            && forall q :: OnPage(q, size, k) ==> q == p
  {
    var p := k / size + 1;
    OnItsPage(size, k);
    CeilDivSpec(n, size);
    var t := CeilDiv(n, size).v;
    if t < p {
      ScaleLe(t, p - 1, size);
    }
    forall q | OnPage(q, size, k)
      ensures q == p
    {
      OnOnePage(size, k, p, q);
    }
  }

  /** `LIMIT size OFFSET offset` over the rows a query selects, in the order the database returns them. */
  function Window<T>(xs: seq<T>, offset: nat, size: nat): (r: seq<T>)
    ensures |r| <= size
    ensures forall k :: 0 <= k < |r| ==> offset + k < |xs| && r[k] == xs[offset + k]
    ensures offset + size <= |xs| ==> |r| == size
    ensures offset < |xs| ==> |r| == (if offset + size <= |xs| then size else |xs| - offset)
  {
    if offset >= |xs| then [] else if offset + size <= |xs| then xs[offset..offset + size] else xs[offset..]
  }

  /**
   * Walking the pages 1, 2, ... with a positive size shows every row:
   * row `k` is entry `k % size` of page `k / size + 1`, a page `totalPages` counts.
   */
  lemma RowOnItsPage<T>(xs: seq<T>, size: int, k: nat)
    requires size > 0 && k < |xs|
    ensures var p := k / size + 1;
            && 1 <= p <= CeilDiv(|xs|, size).v
            && Offset(p, size) >= 0
            && k % size < |Window(xs, Offset(p, size), size)|
            && Window(xs, Offset(p, size), size)[k % size] == xs[k]
  {
    var p := k / size + 1;
    PagesPartitionItems(|xs|, size, k);
    assert k == (k / size) * size + k % size;
    assert Offset(p, size) == (k / size) * size;
  }
}
