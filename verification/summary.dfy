/** `obtenerCarrito`: the summary of the lines with a positive quantity and
    their total, in integer cents (the two-decimal rounding of the display
    strings is not modelled). */
module Summary {
  import opened Wrappers
  import opened Quantity
  import opened Ledger

  /** A line of the summary, enriched with its line total. */
  datatype SummaryLine = SummaryLine(sku: string, title: string, price: int, quantity: nat, lineTotal: int)

  datatype Summary = Summary(total: int, currency: string, products: seq<SummaryLine>)

  /** `s` is the summary line of ledger line `l`. */
  predicate Describes(s: SummaryLine, l: Line) {
    s.sku == l.sku && s.title == l.title && s.price == l.price && s.quantity == l.quantity
  }

  /** What a line contributes to the total: price times quantity. */
  function Amount(l: Line): int {
    l.price * l.quantity
  }

  /** The filter and map of `obtenerCarrito`: lines with quantity > 0, in map
      order, each with its line total. */
  function Selected(lines: seq<Line>): (r: seq<SummaryLine>)
    ensures |r| <= |lines|
    ensures forall k :: 0 <= k < |r| ==>
      r[k].quantity > 0 && r[k].lineTotal == r[k].price * r[k].quantity
  {
    if |lines| == 0 then []
    else
      var l := lines[0];
      if l.quantity > 0 then [SummaryLine(l.sku, l.title, l.price, l.quantity, Amount(l))] + Selected(lines[1..])
      else Selected(lines[1..])
  }

  /** Every summary line describes a ledger line; `i` is that line. */
  lemma {:induction false} SelectedSource(lines: seq<Line>, k: int) returns (i: nat)
    requires 0 <= k < |Selected(lines)|
    ensures i < |lines| && Describes(Selected(lines)[k], lines[i])
    decreases |lines|
  {
    var r := Selected(lines);
    if lines[0].quantity > 0 && k == 0 {
      i := 0;
    } else {
      var k' := if lines[0].quantity > 0 then k - 1 else k;
      assert r[k] == Selected(lines[1..])[k'];
      var j := SelectedSource(lines[1..], k');
      assert lines[1..][j] == lines[j + 1];
      i := j + 1;
    }
  }

  /** Every ledger line with a positive quantity has a summary line; `k` is it. */
  lemma {:induction false} SelectedComplete(lines: seq<Line>, i: int) returns (k: nat)
    requires 0 <= i < |lines| && lines[i].quantity > 0
    ensures k < |Selected(lines)| && Describes(Selected(lines)[k], lines[i])
    decreases |lines|
  {
    var r := Selected(lines);
    if i == 0 {
      k := 0;
    } else {
      assert lines[1..][i - 1] == lines[i];
      var k' := SelectedComplete(lines[1..], i - 1);
      if lines[0].quantity > 0 {
        assert r[k' + 1] == Selected(lines[1..])[k'];
        k := k' + 1;
      } else {
        k := k';
      }
    }
  }

  /** The `reduce` of `obtenerCarrito`: the sum of the line totals. */
  function SumLineTotals(ps: seq<SummaryLine>): int {
    if |ps| == 0 then 0 else ps[0].lineTotal + SumLineTotals(ps[1..])
  }

  /** The sum of price times quantity over every line of the ledger,
      zero-quantity lines included. */
  function SumAmounts(lines: seq<Line>): int {
    if |lines| == 0 then 0 else Amount(lines[0]) + SumAmounts(lines[1..])
  }

  /** `obtenerCarrito`: the currency, the lines with quantity > 0 and their
      total. */
  function GetSummary(c: Cart): (r: Summary)
    ensures r.currency == c.currency
    ensures r.total == SumAmounts(c.lines)
    ensures forall k :: 0 <= k < |r.products| ==>
      r.products[k].quantity > 0 && r.products[k].lineTotal == r.products[k].price * r.products[k].quantity
  {
    var products := Selected(c.lines);
    TotalOfSelected(c.lines);
    Summary(SumLineTotals(products), c.currency, products)
  }

  /** Dropping the zero-quantity lines does not change the sum: the total of
      the summary is the sum of price times quantity over the whole ledger. */
  lemma {:induction false} TotalOfSelected(lines: seq<Line>)
    ensures SumLineTotals(Selected(lines)) == SumAmounts(lines)
  {
    if |lines| > 0 {
      TotalOfSelected(lines[1..]);
      if lines[0].quantity > 0 {
        var r := Selected(lines);
        assert r[1..] == Selected(lines[1..]);
      }
    }
  }

  /** The summary keeps map order: of two summary lines, the earlier one
      describes the earlier ledger line. */
  lemma {:induction false} SelectedKeepsOrder(lines: seq<Line>, k1: int, k2: int, i1: int, i2: int)
    requires DistinctSkus(lines)
    requires 0 <= k1 < k2 < |Selected(lines)|
    requires 0 <= i1 < |lines| && 0 <= i2 < |lines|
    requires Describes(Selected(lines)[k1], lines[i1]) && Describes(Selected(lines)[k2], lines[i2])
    ensures i1 < i2
    decreases |lines|
  {
    var r := Selected(lines);
    var rest := Selected(lines[1..]);
    var tail := lines[1..];
    assert DistinctSkus(tail) by {
      assert forall j :: 0 <= j < |tail| ==> tail[j] == lines[j + 1];
    }
    var k2' := if lines[0].quantity > 0 then k2 - 1 else k2;
    assert r[k2] == rest[k2'];
    var j2 := SelectedSource(tail, k2');
    assert tail[j2] == lines[j2 + 1];
    assert i2 == j2 + 1;
    if lines[0].quantity > 0 && k1 == 0 {
      assert i1 == 0;
    } else {
      var k1' := if lines[0].quantity > 0 then k1 - 1 else k1;
      assert r[k1] == rest[k1'];
      var j1 := SelectedSource(tail, k1');
      assert tail[j1] == lines[j1 + 1];
      assert i1 == j1 + 1;
      SelectedKeepsOrder(tail, k1', k2', j1, j2);
    }
  }

  /** Replacing one line changes the sum by the difference of the two amounts. */
  lemma {:induction false} SumAmountsUpdate(lines: seq<Line>, i: int, l: Line)
    requires 0 <= i < |lines|
    ensures SumAmounts(lines[i := l]) == SumAmounts(lines) - Amount(lines[i]) + Amount(l)
  {
    if i > 0 {
      SumAmountsUpdate(lines[1..], i - 1, l);
      assert lines[i := l][1..] == lines[1..][i - 1 := l];
    } else {
      assert lines[i := l][1..] == lines[1..];
    }
  }

  /** Setting the units of a line moves the total by its price times the
      change in quantity; an unknown SKU leaves the total as it was. */
  lemma TotalAfterUpdate(c: Cart, sku: string, u: Num)
    requires Valid(c)
    ensures sku !in Skus(c.lines) ==> GetSummary(UpdateUnits(c, sku, u)).total == GetSummary(c).total
    ensures forall i :: 0 <= i < |c.lines| && c.lines[i].sku == sku ==>
      GetSummary(UpdateUnits(c, sku, u)).total ==
      GetSummary(c).total + c.lines[i].price * (Units(u) - c.lines[i].quantity)
  {
    var r := UpdateUnits(c, sku, u);
    forall i | 0 <= i < |c.lines| && c.lines[i].sku == sku
      ensures SumAmounts(r.lines) == SumAmounts(c.lines) + c.lines[i].price * (Units(u) - c.lines[i].quantity)
    {
      assert r.lines == c.lines[i := r.lines[i]];
      SumAmountsUpdate(c.lines, i, r.lines[i]);
    }
  }

  /** Every line of `obtenerCarrito`'s summary is a ledger line with quantity > 0. */
  lemma SummaryLinesArePositive(c: Cart)
    ensures forall k :: 0 <= k < |GetSummary(c).products| ==>
      exists i :: 0 <= i < |c.lines| && c.lines[i].quantity > 0 && Describes(GetSummary(c).products[k], c.lines[i])
  {
    var ps := GetSummary(c).products;
    forall k | 0 <= k < |ps|
      ensures exists i :: 0 <= i < |c.lines| && c.lines[i].quantity > 0 && Describes(ps[k], c.lines[i])
    {
      var i := SelectedSource(c.lines, k);
      assert c.lines[i].quantity > 0;
    }
  }

  /** Every ledger line with quantity > 0 appears in `obtenerCarrito`'s summary. */
  lemma SummaryHasEveryPositiveLine(c: Cart)
    ensures forall i :: 0 <= i < |c.lines| && c.lines[i].quantity > 0 ==>
      exists k :: 0 <= k < |GetSummary(c).products| && Describes(GetSummary(c).products[k], c.lines[i])
  {
    var ps := GetSummary(c).products;
    forall i | 0 <= i < |c.lines| && c.lines[i].quantity > 0
      ensures exists k :: 0 <= k < |ps| && Describes(ps[k], c.lines[i])
    {
      var k := SelectedComplete(c.lines, i);
    }
  }

  /** `obtenerCarrito`'s summary lists its lines in map order. */
  lemma SummaryKeepsMapOrder(c: Cart)
    requires Valid(c)
    ensures forall k1, k2, i1, i2 ::
      (0 <= k1 < k2 < |GetSummary(c).products| && 0 <= i1 < |c.lines| && 0 <= i2 < |c.lines| &&
       Describes(GetSummary(c).products[k1], c.lines[i1]) &&
       Describes(GetSummary(c).products[k2], c.lines[i2])) ==> i1 < i2
  {
    var ps := GetSummary(c).products;
    forall k1, k2, i1, i2 |
      0 <= k1 < k2 < |ps| && 0 <= i1 < |c.lines| && 0 <= i2 < |c.lines| &&
      Describes(ps[k1], c.lines[i1]) && Describes(ps[k2], c.lines[i2])
      ensures i1 < i2
    {
      SelectedKeepsOrder(c.lines, k1, k2, i1, i2);
    }
  }
}
