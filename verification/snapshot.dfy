/** `toJSON` / `fromJSON`: the persisted snapshot of the ledger and its
    restore. The JSON text itself is not modelled: `ToJson` yields the object
    `JSON.stringify` would encode and `FromJson` consumes the outcome of
    `JSON.parse` followed by the shape check on `lines`. */
module Snapshot {
  import opened Wrappers
  import opened Quantity
  import opened Ledger

  /** One element of the snapshot's `lines` array. `quantity` is None when the
      field is missing or null. Title and price are informational only. */
  datatype SnapshotLine = SnapshotLine(sku: string, title: string, price: int, quantity: Option<Num>)

  /** A parsed snapshot whose `lines` is an array; `currency` is None when the
      field is missing or null. */
  datatype Snapshot = Snapshot(currency: Option<string>, lines: seq<SnapshotLine>)

  /** Every quantity present in the snapshot is a finite number, the only kind
      for which restoring yields a non-negative integer. */
  predicate Restorable(s: Snapshot) {
    forall k :: 0 <= k < |s.lines| ==> s.lines[k].quantity != Some(NonFinite)
  }

  /** The SKUs a snapshot mentions. */
  function SnapshotSkus(snap: seq<SnapshotLine>): set<string> {
    set k | 0 <= k < |snap| :: snap[k].sku
  }

  /** `snap[k]` is the last snapshot line carrying its SKU. */
  predicate LastInSnapshot(snap: seq<SnapshotLine>, k: int)
    requires 0 <= k < |snap|
  {
    forall m :: k < m < |snap| ==> snap[m].sku != snap[k].sku
  }

  /** `Math.max(0, Math.trunc(l.quantity || 0))` for a missing or finite
      quantity: a missing one restores as 0, a finite one exactly as
      `actualizarUnidades` would store it. */
  function RestoredQuantity(q: Option<Num>): (n: nat)
    requires q != Some(NonFinite)
    ensures q.None? ==> n == 0
    ensures q.Some? ==> n == Units(q.value)
  {
    match q
    case None => 0
    case Some(Finite(r)) => ClampUnits(r)
  }

  /** One iteration of the `fromJSON` loop: a line whose SKU is a key gets its
      quantity overwritten; anything else is ignored. */
  function RestoreLine(lines: seq<Line>, l: SnapshotLine): (r: seq<Line>)
    requires DistinctSkus(lines)
    requires l.quantity != Some(NonFinite)
    ensures |r| == |lines|
    ensures forall i :: 0 <= i < |lines| ==>
      r[i].sku == lines[i].sku && r[i].title == lines[i].title && r[i].price == lines[i].price
    ensures forall i :: 0 <= i < |lines| && lines[i].sku != l.sku ==> r[i] == lines[i]
    ensures forall i :: 0 <= i < |lines| && lines[i].sku == l.sku ==>
      r[i].quantity == RestoredQuantity(l.quantity)
  {
    match IndexOf(lines, l.sku)
    case None => lines
    case Some(i) => lines[i := lines[i].(quantity := RestoredQuantity(l.quantity))]
  }

  /** The `fromJSON` loop over the snapshot's lines: the line of every key the
      snapshot mentions takes the quantity of the last snapshot line with that
      SKU; nothing else changes and no line is added. */
  function RestoreLines(lines: seq<Line>, snap: seq<SnapshotLine>): (r: seq<Line>)
    requires DistinctSkus(lines)
    requires forall k :: 0 <= k < |snap| ==> snap[k].quantity != Some(NonFinite)
    ensures |r| == |lines|
    ensures forall i :: 0 <= i < |lines| ==>
      r[i].sku == lines[i].sku && r[i].title == lines[i].title && r[i].price == lines[i].price
    ensures forall i :: 0 <= i < |lines| && lines[i].sku !in SnapshotSkus(snap) ==> r[i] == lines[i]
    ensures forall i, k :: (0 <= i < |lines| && 0 <= k < |snap| &&
      snap[k].sku == lines[i].sku && LastInSnapshot(snap, k)) ==>
      r[i].quantity == RestoredQuantity(snap[k].quantity)
    decreases |snap|
  {
    if |snap| == 0 then lines
    else
      var lines' := RestoreLine(lines, snap[0]);
      assert DistinctSkus(lines') by {
        assert forall i :: 0 <= i < |lines| ==> lines'[i].sku == lines[i].sku;
      }
      var r := RestoreLines(lines', snap[1..]);
      RestoreLinesStep(lines, snap, lines', r);
      r
  }

  /** The inductive step of `RestoreLines`, stated apart so that each proof
      obligation stays small. */
  lemma RestoreLinesStep(lines: seq<Line>, snap: seq<SnapshotLine>, lines': seq<Line>, r: seq<Line>)
    requires DistinctSkus(lines)
    requires |snap| > 0 && forall k :: 0 <= k < |snap| ==> snap[k].quantity != Some(NonFinite)
    requires lines' == RestoreLine(lines, snap[0])
    requires |r| == |lines'|
    requires forall i :: 0 <= i < |lines'| && lines'[i].sku !in SnapshotSkus(snap[1..]) ==> r[i] == lines'[i]
    requires forall i, k :: (0 <= i < |lines'| && 0 <= k < |snap[1..]| &&
      snap[1..][k].sku == lines'[i].sku && LastInSnapshot(snap[1..], k)) ==>
      r[i].quantity == RestoredQuantity(snap[1..][k].quantity)
    ensures forall i :: 0 <= i < |lines| && lines[i].sku !in SnapshotSkus(snap) ==> r[i] == lines[i]
    ensures forall i, k :: (0 <= i < |lines| && 0 <= k < |snap| &&
      snap[k].sku == lines[i].sku && LastInSnapshot(snap, k)) ==>
      r[i].quantity == RestoredQuantity(snap[k].quantity)
  {
  }

  /** `toJSON`: the currency and every line, zero quantities included, in map
      order. */
  function ToJson(c: Cart): (r: Snapshot)
    ensures r.currency == Some(c.currency)
    ensures Restorable(r)
    ensures |r.lines| == |c.lines|
    ensures forall i :: 0 <= i < |c.lines| ==>
      r.lines[i].sku == c.lines[i].sku && r.lines[i].title == c.lines[i].title &&
      r.lines[i].price == c.lines[i].price && r.lines[i].quantity == Some(Finite(c.lines[i].quantity as real))
  {
    Snapshot(Some(c.currency), seq(|c.lines|, i requires 0 <= i < |c.lines| =>
      SnapshotLine(c.lines[i].sku, c.lines[i].title, c.lines[i].price, Some(Finite(c.lines[i].quantity as real)))))
  }

  /** `fromJSON`: `parsed` is None when `JSON.parse` throws, yields a falsy
      value, or yields an object whose `lines` is not an array; the ledger is
      then left exactly as it was. Otherwise the currency is replaced only by
      a non-null snapshot currency and only quantities of existing keys are
      overwritten: the key set, order, titles and prices never change. */
  function FromJson(c: Cart, parsed: Option<Snapshot>): (r: Cart)
    requires Valid(c)
    requires parsed.Some? ==> Restorable(parsed.value)
    ensures parsed.None? ==> r == c
    ensures Valid(r)
    ensures r.currency == if parsed.Some? && parsed.value.currency.Some? then parsed.value.currency.value else c.currency
    ensures |r.lines| == |c.lines|
    ensures Skus(r.lines) == Skus(c.lines)
    ensures forall i :: 0 <= i < |c.lines| ==>
      r.lines[i].sku == c.lines[i].sku && r.lines[i].title == c.lines[i].title && r.lines[i].price == c.lines[i].price
    ensures parsed.Some? ==> forall i :: 0 <= i < |c.lines| && c.lines[i].sku !in SnapshotSkus(parsed.value.lines) ==>
      r.lines[i] == c.lines[i]
    ensures parsed.Some? ==> forall i, k :: (0 <= i < |c.lines| && 0 <= k < |parsed.value.lines| &&
      parsed.value.lines[k].sku == c.lines[i].sku && LastInSnapshot(parsed.value.lines, k)) ==>
      r.lines[i].quantity == RestoredQuantity(parsed.value.lines[k].quantity)
  {
    match parsed
    case None => c
    case Some(s) =>
      var lines := RestoreLines(c.lines, s.lines);
      assert Skus(lines) == Skus(c.lines) by {
        assert forall i :: 0 <= i < |lines| ==> lines[i].sku == c.lines[i].sku;
      }
      Cart(lines, s.currency.GetOr(c.currency))
  }
}
