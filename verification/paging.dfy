/**
 * Page arithmetic of the listing view: a fixed page size of 10, the page
 * count `Math.ceil(n / 10)`, the current page's items cut out with
 * JavaScript's `Array.prototype.slice`, the price total of that page and the
 * "Showing X to Y of N entries" bounds.
 */
module Paging {
  import opened Catalog

  /** `itemsPerPage`: never changed after it is set. */
  const PageSize: nat := 10

  function Min(a: int, b: int): int {
    if a <= b then a else b
  }

  function Max(a: int, b: int): int {
    if a <= b then b else a
  }

  /** `Math.ceil(n / PageSize)`: the fewest pages of `PageSize` that hold `n` items. */
  function TotalPages(n: nat): (r: nat)
    ensures r * PageSize >= n
    ensures r > 0 ==> (r - 1) * PageSize < n
    ensures r == 0 <==> n == 0
  {
    (n + PageSize - 1) / PageSize
  }

  /** How `slice` reads one bound: a negative bound counts from the end; both are clamped to the length. */
  function SliceBound(k: int, len: nat): (r: nat)
    ensures r <= len
    ensures 0 <= k <= len ==> r == k
    ensures k > len ==> r == len
    ensures k < 0 ==> r == Max(len + k, 0)
  {
    if k < 0 then Max(len + k, 0) else Min(k, len)
  }

  /** `s.slice(start, end)`. */
  function Slice<T>(s: seq<T>, start: int, end: int): (r: seq<T>)
    ensures |r| == Max(0, SliceBound(end, |s|) - SliceBound(start, |s|))
    ensures forall k :: 0 <= k < |r| ==> r[k] == s[SliceBound(start, |s|) + k]
    ensures 0 <= start <= end <= |s| ==> r == s[start..end]
  {
    var a, b := SliceBound(start, |s|), SliceBound(end, |s|);
    if a < b then s[a..b] else []
  }

  /** `indexOfLastItem = currentPage * itemsPerPage`. */
  function LastIndex(page: int): int {
    page * PageSize
  }

  /** `indexOfFirstItem = indexOfLastItem - itemsPerPage`. */
  function FirstIndex(page: int): int {
    LastIndex(page) - PageSize
  }

  /**
   * `currentItems`: the items of page `page` (counted from 1). It never holds
   * more than a page, and from page 1 on its k-th item is the item at
   * position (page - 1) * PageSize + k of the filtered list.
   */
  function CurrentItems(filtered: seq<Product>, page: int): (r: seq<Product>)
    ensures |r| <= PageSize
    ensures page >= 1 ==> |r| == Max(0, Min(PageSize, |filtered| - (page - 1) * PageSize))
    ensures page >= 1 ==> forall k :: 0 <= k < |r| ==> r[k] == filtered[(page - 1) * PageSize + k]
  {
    Slice(filtered, FirstIndex(page), LastIndex(page))
  }

  /** Pages 1 to k, concatenated in order. */
  function PagesUpTo(filtered: seq<Product>, k: nat): seq<Product> {
    if k == 0 then [] else PagesUpTo(filtered, k - 1) + CurrentItems(filtered, k)
  }

  /** The first k pages together are the first k * PageSize items (or all of them). */
  lemma {:induction false} PagesUpToIsPrefix(filtered: seq<Product>, k: nat)
    ensures PagesUpTo(filtered, k) == filtered[..Min(k * PageSize, |filtered|)]
  {
    if k > 0 {
      PagesUpToIsPrefix(filtered, k - 1);
      var page := CurrentItems(filtered, k);
      var lo, hi := Min((k - 1) * PageSize, |filtered|), Min(k * PageSize, |filtered|);
      assert page == filtered[lo..hi];
      assert filtered[..lo] + filtered[lo..hi] == filtered[..hi];
    }
  }

  /** Concatenating pages 1 to totalPages in order gives back the filtered list exactly. */
  lemma PagesReassemble(filtered: seq<Product>)
    ensures PagesUpTo(filtered, TotalPages(|filtered|)) == filtered
  {
    PagesUpToIsPrefix(filtered, TotalPages(|filtered|));
  }

  /** A page from 1 on has items exactly when it is not past the last page. */
  lemma PageNonEmptyIff(filtered: seq<Product>, page: int)
    requires page >= 1
    ensures CurrentItems(filtered, page) != [] <==> page <= TotalPages(|filtered|)
  {
    var n := |filtered|;
    if page <= TotalPages(n) {
      assert (page - 1) * PageSize <= (TotalPages(n) - 1) * PageSize;
    } else {
      assert (page - 1) * PageSize >= TotalPages(n) * PageSize;
    }
  }

  /** The `reduce` that adds up prices, starting from `acc`. */
  function PriceSum(acc: nat, items: seq<Product>): (r: nat)
    ensures r >= acc
    ensures forall k :: 0 <= k < |items| ==> r >= acc + items[k].price
    ensures items == [] ==> r == acc
    decreases |items|
  {
    if items == [] then acc else PriceSum(acc + items[0].price, items[1..])
  }

  /** `totalPrice`: the prices of the given items added up from 0. */
  function TotalPrice(items: seq<Product>): (r: nat)
    ensures items == [] ==> r == 0
    ensures forall k :: 0 <= k < |items| ==> items[k].price <= r
    ensures |items| == 1 ==> r == items[0].price
  {
    PriceSum(0, items)
  }

  /** The fold's start value just adds to the total. */
  lemma {:induction false} PriceSumFrom(acc: nat, items: seq<Product>)
    ensures PriceSum(acc, items) == acc + TotalPrice(items)
    decreases |items|
  {
    if items != [] {
      PriceSumFrom(acc + items[0].price, items[1..]);
      PriceSumFrom(items[0].price, items[1..]);
    }
  }

  /** The total of two lists one after the other is the sum of their totals. */
  lemma {:induction false} TotalPriceConcat(a: seq<Product>, b: seq<Product>)
    ensures TotalPrice(a + b) == TotalPrice(a) + TotalPrice(b)
  {
    if a == [] {
      assert a + b == b;
    } else {
      assert (a + b)[1..] == a[1..] + b;
      TotalPriceConcat(a[1..], b);
      PriceSumFrom(a[0].price, a[1..] + b);
      PriceSumFrom(a[0].price, a[1..]);
    }
  }

  /** The per-page totals of pages 1 to k, added up. */
  function PageTotals(filtered: seq<Product>, k: nat): nat {
    if k == 0 then 0 else PageTotals(filtered, k - 1) + TotalPrice(CurrentItems(filtered, k))
  }

  /** Adding up the per-page totals of all pages gives the total of the whole filtered list. */
  lemma {:induction false} PageTotalsSum(filtered: seq<Product>)
    ensures PageTotals(filtered, TotalPages(|filtered|)) == TotalPrice(filtered)
  {
    var k := TotalPages(|filtered|);
    PageTotalsArePrefixTotal(filtered, k);
    PagesReassemble(filtered);
  }

  lemma {:induction false} PageTotalsArePrefixTotal(filtered: seq<Product>, k: nat)
    ensures PageTotals(filtered, k) == TotalPrice(PagesUpTo(filtered, k))
  {
    if k > 0 {
      PageTotalsArePrefixTotal(filtered, k - 1);
      TotalPriceConcat(PagesUpTo(filtered, k - 1), CurrentItems(filtered, k));
    }
  }

  /** The current page's total never exceeds the total of the whole filtered list. */
  lemma PageTotalAtMostAll(filtered: seq<Product>, page: int)
    ensures TotalPrice(CurrentItems(filtered, page)) <= TotalPrice(filtered)
  {
    var n := |filtered|;
    var a, b := SliceBound(FirstIndex(page), n), SliceBound(LastIndex(page), n);
    if a < b {
      assert filtered == filtered[..a] + filtered[a..b] + filtered[b..];
      TotalPriceConcat(filtered[..a] + filtered[a..b], filtered[b..]);
      TotalPriceConcat(filtered[..a], filtered[a..b]);
    }
  }

  /** The "Showing X" bound: one past `indexOfFirstItem`, or 0 for an empty list. */
  function ShowingFrom(n: nat, page: int): (r: int)
    ensures n == 0 ==> r == 0
    ensures n > 0 ==> r - 1 == (page - 1) * PageSize
    ensures n > 0 && page >= 1 ==> r >= 1
  {
    if n > 0 then FirstIndex(page) + 1 else 0
  }

  /** The "to Y" bound: `Math.min(indexOfLastItem, n)`. */
  function ShowingTo(n: nat, page: int): (r: int)
    ensures r <= n
    ensures r == n || r == LastIndex(page)
  {
    Min(LastIndex(page), n)
  }

  /**
   * On any page the view can be on, "Showing X to Y of N" describes the
   * current page: X and Y are the 1-based positions of its first and last
   * item, so Y - X + 1 items are listed; with nothing to show both are 0.
   */
  lemma ShowingDescribesPage(filtered: seq<Product>, page: int)
    requires 1 <= page <= Max(1, TotalPages(|filtered|))
    ensures |filtered| == 0 ==> ShowingFrom(0, page) == 0 && ShowingTo(0, page) == 0
    ensures |filtered| > 0 ==>
              && 1 <= ShowingFrom(|filtered|, page) <= ShowingTo(|filtered|, page) <= |filtered|
              && ShowingTo(|filtered|, page) - ShowingFrom(|filtered|, page) + 1
                 == |CurrentItems(filtered, page)|
              && CurrentItems(filtered, page)[0] == filtered[ShowingFrom(|filtered|, page) - 1]
  {
    if |filtered| > 0 {
      PageNonEmptyIff(filtered, page);
    }
  }

  /** 25 items make three pages; the third holds items 21 to 25. */
  lemma TwentyFiveItemsExample(filtered: seq<Product>)
    requires |filtered| == 25
    ensures TotalPages(25) == 3
    ensures CurrentItems(filtered, 3) == filtered[20..]
    ensures ShowingFrom(25, 3) == 21 && ShowingTo(25, 3) == 25
  {
  }
}
