/** The selected lines of an invoice being edited, and the handlers both invoice forms share
    verbatim: a quantity change clamped at 1, removal of a line, and the sum of line totals. */
module Lines {
  import opened Seqs

  /** One selected line; `id` is the line's own key (`Date.now()` when it was added). */
  datatype Line = Line(id: int, itemId: int, name: string, quantity: int, price: real, total: real)

  /** A line whose total is its price times its quantity, with a quantity of at least one. */
  predicate WellFormed(l: Line) {
    l.quantity >= 1 && l.total == l.price * l.quantity as real
  }

  predicate AllWellFormed(ls: seq<Line>) {
    forall i :: 0 <= i < |ls| ==> WellFormed(ls[i])
  }

  predicate UniqueLineIds(ls: seq<Line>) {
    forall i, j :: 0 <= i < j < |ls| ==> ls[i].id != ls[j].id
  }

  predicate LineIdAbsent(ls: seq<Line>, id: int) {
    forall i :: 0 <= i < |ls| ==> ls[i].id != id
  }

  /** `Math.max(a, b)`. */
  function Max(a: int, b: int): (r: int)
    ensures r >= a && r >= b && (r == a || r == b)
  {
    if a >= b then a else b
  }

  /** The line a quantity change produces: `{ ...item, quantity, total: price * quantity }` with
      `quantity = Math.max(1, item.quantity + change)`. */
  function Rescaled(l: Line, change: int): (r: Line)
    ensures WellFormed(r)
    ensures r.id == l.id && r.itemId == l.itemId && r.name == l.name && r.price == l.price
    ensures l.quantity + change >= 1 ==> r.quantity == l.quantity + change
    ensures l.quantity + change < 1 ==> r.quantity == 1
  {
    var q := Max(1, l.quantity + change);
    l.(quantity := q, total := l.price * q as real)
  }

  /** `handleQuantityChange(id, change)`: every line with the id is rescaled, every other line is kept. */
  function ChangeQuantity(ls: seq<Line>, id: int, change: int): (r: seq<Line>)
    ensures |r| == |ls|
    ensures forall i :: 0 <= i < |ls| && ls[i].id != id ==> r[i] == ls[i]
    ensures forall i :: 0 <= i < |ls| && ls[i].id == id ==> r[i] == Rescaled(ls[i], change)
  {
    if ls == [] then []
    else [if ls[0].id == id then Rescaled(ls[0], change) else ls[0]] + ChangeQuantity(ls[1..], id, change)
  }

  /** A quantity change keeps every line well formed, and leaves ids and item ids where they were. */
  lemma ChangeQuantityKeepsShape(ls: seq<Line>, id: int, change: int)
    ensures AllWellFormed(ls) ==> AllWellFormed(ChangeQuantity(ls, id, change))
    ensures forall i :: 0 <= i < |ls| ==>
      ChangeQuantity(ls, id, change)[i].id == ls[i].id && ChangeQuantity(ls, id, change)[i].itemId == ls[i].itemId
  {
  }

  /** Decrementing a line at quantity 1 leaves it at 1. */
  lemma DecrementAtOneStays(l: Line)
    requires l.quantity == 1
    ensures Rescaled(l, -1).quantity == 1
  {
  }

  function LineLacksId(id: int): Line -> bool {
    (l: Line) => l.id != id
  }

  /** `handleRemoveItem(id)`. */
  function RemoveLines(ls: seq<Line>, id: int): (r: seq<Line>)
    ensures |r| <= |ls|
    ensures forall i :: 0 <= i < |r| ==> r[i].id != id && r[i] in ls
    ensures forall i :: 0 <= i < |ls| && ls[i].id != id ==> ls[i] in r
  {
    Filter(ls, LineLacksId(id))
  }

  /** Removal drops exactly the lines with the id and keeps the others, in order. */
  lemma RemoveLinesSpec(ls: seq<Line>, id: int)
    ensures LineIdAbsent(RemoveLines(ls, id), id)
    ensures forall x: Line :: x.id != id ==> multiset(RemoveLines(ls, id))[x] == multiset(ls)[x]
    ensures IsSubsequence(RemoveLines(ls, id), ls)
    ensures AllWellFormed(ls) ==> AllWellFormed(RemoveLines(ls, id))
  {
    FilterIsSubsequence(ls, LineLacksId(id));
    forall x: Line | x.id != id ensures multiset(RemoveLines(ls, id))[x] == multiset(ls)[x] {
      FilterCount(ls, LineLacksId(id), x);
    }
  }

  /** `selectedItems.reduce((sum, item) => sum + item.total, 0)`, folded from the left. */
  function SumTotals(ls: seq<Line>): (r: real)
    ensures ls == [] ==> r == 0.0
    ensures (forall i :: 0 <= i < |ls| ==> ls[i].total >= 0.0) ==> r >= 0.0
  {
    if ls == [] then 0.0 else SumTotals(ls[..|ls| - 1]) + ls[|ls| - 1].total
  }

  /** The sum of price times quantity over the lines, independent of their stored totals. */
  function SumPriceTimesQuantity(ls: seq<Line>): real {
    if ls == [] then 0.0 else SumPriceTimesQuantity(ls[..|ls| - 1]) + ls[|ls| - 1].price * ls[|ls| - 1].quantity as real
  }

  /** For well-formed lines the total is the sum of price times quantity. */
  lemma {:induction false} SumOfWellFormed(ls: seq<Line>)
    requires AllWellFormed(ls)
    ensures SumTotals(ls) == SumPriceTimesQuantity(ls)
  {
    if ls != [] {
      SumOfWellFormed(ls[..|ls| - 1]);
    }
  }

  lemma {:induction false} SumTotalsConcat(a: seq<Line>, b: seq<Line>)
    ensures SumTotals(a + b) == SumTotals(a) + SumTotals(b)
    decreases |b|
  {
    if b == [] {
      assert a + b == a;
    } else {
      SumTotalsConcat(a, b[..|b| - 1]);
      assert (a + b)[..|a + b| - 1] == a + b[..|b| - 1];
    }
  }

  /** Replacing one line changes the sum by the difference of the two totals. */
  lemma SumTotalsReplace(ls: seq<Line>, k: int, x: Line)
    requires 0 <= k < |ls|
    ensures SumTotals(ls[k := x]) == SumTotals(ls) - ls[k].total + x.total
  {
    assert ls == ls[..k] + [ls[k]] + ls[k + 1..];
    assert ls[k := x] == ls[..k] + [x] + ls[k + 1..];
    SumTotalsConcat(ls[..k] + [ls[k]], ls[k + 1..]);
    SumTotalsConcat(ls[..k] + [x], ls[k + 1..]);
    SumTotalsConcat(ls[..k], [ls[k]]);
    SumTotalsConcat(ls[..k], [x]);
  }

  /** With unique line ids, a quantity change touches the one line that carries the id. */
  lemma ChangeUniqueIsUpdate(ls: seq<Line>, k: int, change: int)
    requires 0 <= k < |ls| && UniqueLineIds(ls)
    ensures ChangeQuantity(ls, ls[k].id, change) == ls[k := Rescaled(ls[k], change)]
  {
    var r := ChangeQuantity(ls, ls[k].id, change);
    forall i | 0 <= i < |ls| ensures r[i] == ls[k := Rescaled(ls[k], change)][i] {
      if i != k {
        assert ls[i].id != ls[k].id;
      }
    }
  }

  /** Incrementing the one well-formed line with a given id adds its price to the sum. */
  lemma IncrementAddsPrice(ls: seq<Line>, k: int)
    requires 0 <= k < |ls| && UniqueLineIds(ls) && WellFormed(ls[k])
    ensures SumTotals(ChangeQuantity(ls, ls[k].id, 1)) == SumTotals(ls) + ls[k].price
  {
    var l := ls[k];
    var x := Rescaled(l, 1);
    ChangeUniqueIsUpdate(ls, k, 1);
    SumTotalsReplace(ls, k, x);
    IncrementedTotal(l);
  }

  lemma IncrementedTotal(l: Line)
    requires WellFormed(l)
    ensures Rescaled(l, 1).total == l.total + l.price
  {
    var q := l.quantity;
    assert Rescaled(l, 1).total == l.price * (q + 1) as real;
    PriceStep(l.price, q);
  }

  lemma PriceStep(p: real, q: int)
    ensures p * (q + 1) as real == p * q as real + p
  {
    assert (q + 1) as real == q as real + 1.0;
  }
}
