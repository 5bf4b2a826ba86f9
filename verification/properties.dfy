/** Laws relating several ledger operations to each other. */
module Properties {
  import opened Wrappers
  import opened Quantity
  import opened Ledger
  import opened Snapshot

  /** Some catalogue entry carrying `s` is the last one with that SKU. */
  lemma LastEntryExists(cat: seq<Product>, s: string) returns (k: nat)
    requires s in CatalogueSkus(cat)
    ensures k < |cat| && cat[k].sku == s && LastInCatalogue(cat, k)
    decreases |cat|
  {
    if cat[|cat| - 1].sku == s {
      k := |cat| - 1;
    } else {
      var front := cat[..|cat| - 1];
      assert s in CatalogueSkus(front) by {
        var m :| 0 <= m < |cat| && cat[m].sku == s;
        assert front[m] == cat[m];
      }
      k := LastEntryExists(front, s);
      assert front[k] == cat[k];
    }
  }

  /** Loading the same catalogue twice in a row gives the ledger that loading
      it once gives: no line moves, no quantity changes. */
  lemma LoadCatalogueIdempotent(c: Cart, cat: seq<Product>)
    requires Valid(c)
    ensures LoadCatalogue(LoadCatalogue(c, cat), cat) == LoadCatalogue(c, cat)
  {
    var c1 := LoadCatalogue(c, cat);
    var c2 := LoadCatalogue(c1, cat);
    forall i | 0 <= i < |c1.lines| ensures c2.lines[i] == c1.lines[i] {
      var s := c1.lines[i].sku;
      if s in CatalogueSkus(cat) {
        var k := LastEntryExists(cat, s);
      }
    }
    assert c2.lines == c1.lines;
  }

  /** Reading back a line after setting its units gives the new quantity;
      every other SKU reads as before, and an unknown SKU stays unknown. */
  lemma InfoAfterUpdate(c: Cart, sku: string, u: Num, other: string)
    requires Valid(c)
    ensures ProductInfo(UpdateUnits(c, sku, u), sku) ==
      if sku in Skus(c.lines) then Some(Info(sku, Units(u))) else None
    ensures other != sku ==> ProductInfo(UpdateUnits(c, sku, u), other) == ProductInfo(c, other)
  {
  }

  /** Setting the same units twice is the same as setting them once. */
  lemma UpdateUnitsIdempotent(c: Cart, sku: string, u: Num)
    requires Valid(c)
    ensures UpdateUnits(UpdateUnits(c, sku, u), sku, u) == UpdateUnits(c, sku, u)
  {
  }

  /** Restoring the snapshot of `c` into a ledger `d`: every line of `d` whose
      SKU is a key of `c` takes that line's quantity from `c`, every other
      line of `d` is untouched, and the currency becomes `c`'s. */
  lemma RestoreSnapshotOf(c: Cart, d: Cart)
    requires Valid(c) && Valid(d)
    ensures FromJson(d, Some(ToJson(c))).currency == c.currency
    ensures forall i, j :: 0 <= i < |d.lines| && 0 <= j < |c.lines| && d.lines[i].sku == c.lines[j].sku ==>
      FromJson(d, Some(ToJson(c))).lines[i] == d.lines[i].(quantity := c.lines[j].quantity)
    ensures forall i :: 0 <= i < |d.lines| && d.lines[i].sku !in Skus(c.lines) ==>
      FromJson(d, Some(ToJson(c))).lines[i] == d.lines[i]
  {
    var snap := ToJson(c);
    var r := FromJson(d, Some(snap));
    assert SnapshotSkus(snap.lines) == Skus(c.lines) by {
      assert forall j :: 0 <= j < |c.lines| ==> snap.lines[j].sku == c.lines[j].sku;
    }
    forall i, j | 0 <= i < |d.lines| && 0 <= j < |c.lines| && d.lines[i].sku == c.lines[j].sku
      ensures r.lines[i] == d.lines[i].(quantity := c.lines[j].quantity)
    {
      assert LastInSnapshot(snap.lines, j);
    }
  }

  /** Two ledgers hold the same catalogue: the same SKUs, titles and prices in
      the same order, whatever their quantities and currencies. */
  predicate SameCatalogue(c: Cart, d: Cart) {
    && |c.lines| == |d.lines|
    && forall i :: 0 <= i < |c.lines| ==>
         c.lines[i].sku == d.lines[i].sku && c.lines[i].title == d.lines[i].title &&
         c.lines[i].price == d.lines[i].price
  }

  /** The persistence round trip: restoring `toJSON`'s snapshot of `c` into a
      ledger holding the same catalogue reproduces `c` exactly, quantities
      and currency included. */
  lemma RoundTrip(c: Cart, d: Cart)
    requires Valid(c) && Valid(d) && SameCatalogue(c, d)
    ensures FromJson(d, Some(ToJson(c))) == c
  {
    RestoreSnapshotOf(c, d);
    var r := FromJson(d, Some(ToJson(c)));
    forall i | 0 <= i < |c.lines| ensures r.lines[i] == c.lines[i] {
      assert d.lines[i].sku == c.lines[i].sku;
    }
    assert r.lines == c.lines;
  }
}
