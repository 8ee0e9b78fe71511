/** The three figures above the invoice list (src/components/invoice-management/InvoiceStats.tsx). */
module InvoiceStats {
  import opened ApiTypes
  import InvoiceManagement

  /** `invoices.reduce((sum, invoice) => sum + invoice.total, 0)`, folded from the left. */
  function TotalRevenue(s: seq<Invoice>): (r: real)
    ensures s == [] ==> r == 0.0
    ensures |s| == 1 ==> r == s[0].total
  {
    if s == [] then 0.0 else TotalRevenue(s[..|s| - 1]) + s[|s| - 1].total
  }

  datatype Stats = Stats(count: nat, totalRevenue: real, averageOrder: real)

  /** The figures shown: the number of invoices, their summed totals, and the average order, which is
      0 for no invoices instead of a division by zero. */
  function ComputeStats(s: seq<Invoice>): (r: Stats)
    ensures r.count == |s|
    ensures r.totalRevenue == TotalRevenue(s)
    ensures |s| == 0 ==> r.totalRevenue == 0.0 && r.averageOrder == 0.0
    ensures |s| > 0 ==> r.averageOrder * |s| as real == r.totalRevenue
  {
    var totalRevenue := TotalRevenue(s);
    var averageOrder := if |s| > 0 then totalRevenue / |s| as real else 0.0;
    Stats(|s|, totalRevenue, averageOrder)
  }

  lemma {:induction false} RevenueConcat(a: seq<Invoice>, b: seq<Invoice>)
    ensures TotalRevenue(a + b) == TotalRevenue(a) + TotalRevenue(b)
    decreases |b|
  {
    if b == [] {
      assert a + b == a;
    } else {
      RevenueConcat(a, b[..|b| - 1]);
      assert (a + b)[..|a + b| - 1] == a + b[..|b| - 1];
    }
  }

  /** Taking the invoice at `k` out of the list takes its total out of the revenue. */
  lemma RevenueRemoveAt(b: seq<Invoice>, k: int)
    requires 0 <= k < |b|
    ensures TotalRevenue(b) == TotalRevenue(b[..k] + b[k + 1..]) + b[k].total
  {
    var left, x, right := b[..k], b[k], b[k + 1..];
    assert b == left + b[k..];
    assert b[k..] == [x] + right;
    assert b == (left + [x]) + right;
    assert TotalRevenue([x]) == x.total by {
      assert [x][..0] == [];
    }
    calc {
      TotalRevenue(b);
      { RevenueConcat(left + [x], right); }
      TotalRevenue(left + [x]) + TotalRevenue(right);
      { RevenueConcat(left, [x]); }
      TotalRevenue(left) + x.total + TotalRevenue(right);
      { RevenueConcat(left, right); }
      TotalRevenue(left + right) + x.total;
    }
  }

  lemma MultisetRemoveAt(init: seq<Invoice>, x: Invoice, b: seq<Invoice>, k: int)
    requires 0 <= k < |b| && b[k] == x
    requires multiset(init) + multiset{x} == multiset(b)
    ensures multiset(init) == multiset(b[..k] + b[k + 1..])
  {
    assert b == b[..k] + [x] + b[k + 1..];
    assert multiset(b) == multiset(b[..k]) + multiset{x} + multiset(b[k + 1..]);
    var rest := b[..k] + b[k + 1..];
    assert multiset(rest) == multiset(b[..k]) + multiset(b[k + 1..]);
    forall y ensures multiset(init)[y] == multiset(rest)[y] {
      assert (multiset(init) + multiset{x})[y] == multiset(b)[y];
    }
  }

  /** The revenue does not depend on the order of the invoices. */
  lemma {:induction false} RevenuePermutation(a: seq<Invoice>, b: seq<Invoice>)
    requires multiset(a) == multiset(b)
    ensures TotalRevenue(a) == TotalRevenue(b)
    decreases |a|
  {
    if a == [] {
      assert |b| == |multiset(b)| == 0;
    } else {
      var x := a[|a| - 1];
      var init := a[..|a| - 1];
      assert a == init + [x];
      assert multiset(a) == multiset(init) + multiset{x};
      assert x in multiset(b);
      var k :| 0 <= k < |b| && b[k] == x;
      MultisetRemoveAt(init, x, b, k);
      RevenuePermutation(init, b[..k] + b[k + 1..]);
      RevenueRemoveAt(b, k);
    }
  }


  /** The figures are the same for the loaded list and the list sorted newest first. */
  lemma StatsIgnoreSorting(s: seq<Invoice>)
    ensures ComputeStats(InvoiceManagement.SortNewestFirst(s)) == ComputeStats(s)
  {
    RevenuePermutation(InvoiceManagement.SortNewestFirst(s), s);
  }

  /** The average lies between the smallest and the largest invoice total. */
  lemma {:induction false} AverageBounded(s: seq<Invoice>, lo: real, hi: real)
    requires |s| > 0
    requires forall i :: 0 <= i < |s| ==> lo <= s[i].total <= hi
    ensures lo <= ComputeStats(s).averageOrder <= hi
  {
    RevenueBounds(s, lo, hi);
    var n := |s| as real;
    var avg := ComputeStats(s).averageOrder;
    assert avg * n == TotalRevenue(s);
    assert lo * n <= avg * n <= hi * n;
  }

  lemma {:induction false} RevenueBounds(s: seq<Invoice>, lo: real, hi: real)
    requires forall i :: 0 <= i < |s| ==> lo <= s[i].total <= hi
    ensures lo * |s| as real <= TotalRevenue(s) <= hi * |s| as real
    decreases |s|
  {
    if s != [] {
      RevenueBounds(s[..|s| - 1], lo, hi);
      assert (|s| - 1) as real + 1.0 == |s| as real;
    }
  }
}
