/** The cart ledger of `Carrito`: an insertion-ordered map from SKU to a line
    `{sku, title, price, quantity}`, plus a currency label. The map is a
    sequence of lines whose SKUs are pairwise distinct; a line's position is
    its position in the map's iteration order. */
module Ledger {
  import opened Wrappers
  import opened Quantity

  /** The currency label a ledger gets when none is supplied. */
  const DefaultCurrency: string := "€"

  /** A catalogue entry; `price` is in integer cents. */
  datatype Product = Product(sku: string, title: string, price: int)

  /** One line of the ledger; `price` is in integer cents. */
  datatype Line = Line(sku: string, title: string, price: int, quantity: nat)

  datatype Cart = Cart(lines: seq<Line>, currency: string)

  /** The minimal projection `obtenerInformacionProducto` returns. */
  datatype Info = Info(sku: string, quantity: nat)

  predicate DistinctSkus(lines: seq<Line>) {
    forall i, j :: 0 <= i < j < |lines| ==> lines[i].sku != lines[j].sku
  }

  /** Every ledger keeps its SKUs pairwise distinct (they are map keys). */
  predicate Valid(c: Cart) {
    DistinctSkus(c.lines)
  }

  /** The key set of the map. */
  function Skus(lines: seq<Line>): set<string> {
    set i | 0 <= i < |lines| :: lines[i].sku
  }

  /** The SKUs a catalogue mentions. */
  function CatalogueSkus(cat: seq<Product>): set<string> {
    set k | 0 <= k < |cat| :: cat[k].sku
  }

  /** `cat[k]` is the last catalogue entry carrying its SKU. */
  predicate LastInCatalogue(cat: seq<Product>, k: int)
    requires 0 <= k < |cat|
  {
    forall m :: k < m < |cat| ==> cat[m].sku != cat[k].sku
  }

  /** Index of the first catalogue entry carrying `s`, or `|cat|` when there
      is none: the order in which `Map.set` first meets each SKU. */
  function FirstInCatalogue(cat: seq<Product>, s: string): (k: nat)
    ensures k <= |cat|
    ensures k < |cat| <==> s in CatalogueSkus(cat)
    ensures k < |cat| ==> cat[k].sku == s
    ensures forall m :: 0 <= m < k ==> cat[m].sku != s
  {
    if |cat| == 0 then 0
    else if cat[0].sku == s then 0
    else
      CatalogueSkusCons(cat);
      assert forall m :: 1 <= m < |cat| ==> cat[m] == cat[1..][m - 1];
      1 + FirstInCatalogue(cat[1..], s)
  }

  /** Position of `sku` in the map, if it is a key (the lookup behind `Map.get`). */
  function IndexOf(lines: seq<Line>, sku: string): (r: Option<nat>)
    ensures r.None? <==> sku !in Skus(lines)
    ensures r.Some? ==> r.value < |lines| && lines[r.value].sku == sku
    ensures r.Some? ==> forall j :: 0 <= j < r.value ==> lines[j].sku != sku
  {
    if |lines| == 0 then None
    else if lines[0].sku == sku then Some(0)
    else
      match IndexOf(lines[1..], sku)
      case None =>
        assert forall i :: 1 <= i < |lines| ==> lines[i] == lines[1..][i - 1];
        None
      case Some(k) => Some(k + 1)
  }

  /** One iteration of the `cargarCatalogo` loop: `Map.set` of the product,
      keeping the quantity of an existing line and starting a new one at 0.
      Setting an existing key keeps its position; a new key goes last. */
  function MergeProduct(lines: seq<Line>, p: Product): (r: seq<Line>)
    requires DistinctSkus(lines)
    ensures DistinctSkus(r)
    ensures Skus(r) == Skus(lines) + {p.sku}
    ensures |r| == if p.sku in Skus(lines) then |lines| else |lines| + 1
    ensures forall i :: 0 <= i < |lines| ==>
      r[i].sku == lines[i].sku && r[i].quantity == lines[i].quantity
    ensures forall i :: 0 <= i < |lines| && lines[i].sku != p.sku ==> r[i] == lines[i]
    ensures forall j :: |lines| <= j < |r| ==>
      p.sku !in Skus(lines) && r[j] == Line(p.sku, p.title, p.price, 0)
    ensures forall j :: 0 <= j < |r| && r[j].sku == p.sku ==>
      r[j].title == p.title && r[j].price == p.price
  {
    match IndexOf(lines, p.sku)
    case Some(i) =>
      var r := lines[i := Line(p.sku, p.title, p.price, lines[i].quantity)];
      assert forall j :: 0 <= j < |r| ==> r[j].sku == lines[j].sku;
      assert Skus(r) == Skus(lines);
      r
    case None =>
      var r := lines + [Line(p.sku, p.title, p.price, 0)];
      assert forall j :: 0 <= j < |lines| ==> r[j] == lines[j];
      assert r[|lines|].sku == p.sku;
      assert Skus(r) == Skus(lines) + {p.sku} by {
        forall x | x in Skus(r) ensures x in Skus(lines) + {p.sku} {
          var j :| 0 <= j < |r| && r[j].sku == x;
          if j < |lines| { assert lines[j].sku == x; }
        }
      }
      r
  }

  /** `cargarCatalogo`: merges the catalogue into the map, product by product.
      No line is removed; existing lines keep their position and quantity and
      take the title and price of the last catalogue entry with their SKU;
      SKUs new to the map are appended with quantity 0. */
  function LoadCatalogue(c: Cart, cat: seq<Product>): (r: Cart)
    requires Valid(c)
    ensures Valid(r)
    ensures r.currency == c.currency
    ensures Skus(r.lines) == Skus(c.lines) + CatalogueSkus(cat)
    ensures |c.lines| <= |r.lines|
    ensures CatalogueSkus(cat) <= Skus(c.lines) ==> |r.lines| == |c.lines|
    ensures forall i :: 0 <= i < |c.lines| ==>
      r.lines[i].sku == c.lines[i].sku && r.lines[i].quantity == c.lines[i].quantity
    ensures forall i :: 0 <= i < |c.lines| && c.lines[i].sku !in CatalogueSkus(cat) ==>
      r.lines[i] == c.lines[i]
    ensures forall j :: |c.lines| <= j < |r.lines| ==>
      r.lines[j].sku !in Skus(c.lines) && r.lines[j].quantity == 0
    ensures forall j, k :: (0 <= j < |r.lines| && 0 <= k < |cat| &&
      r.lines[j].sku == cat[k].sku && LastInCatalogue(cat, k)) ==>
      r.lines[j].title == cat[k].title && r.lines[j].price == cat[k].price
    ensures forall j1, j2 :: |c.lines| <= j1 < j2 < |r.lines| ==>
      FirstInCatalogue(cat, r.lines[j1].sku) < FirstInCatalogue(cat, r.lines[j2].sku)
    decreases |cat|
  {
    if |cat| == 0 then c
    else
      var c' := c.(lines := MergeProduct(c.lines, cat[0]));
      var r := LoadCatalogue(c', cat[1..]);
      CatalogueSkusCons(cat);
      LoadCatalogueFrame(c, cat, c', r);
      LoadCatalogueStep(c, cat, c', r);
      LoadCatalogueOrder(c, cat, c', r);
      r
  }

  /** The SKUs of a non-empty catalogue: its first entry's and the rest's. */
  lemma CatalogueSkusCons(cat: seq<Product>)
    requires |cat| > 0
    ensures CatalogueSkus(cat) == {cat[0].sku} + CatalogueSkus(cat[1..])
  {
  }

  /** The key-set and position half of `LoadCatalogue`'s inductive step,
      stated apart so that each proof obligation stays small. */
  lemma LoadCatalogueFrame(c: Cart, cat: seq<Product>, c': Cart, r: Cart)
    requires Valid(c) && |cat| > 0
    requires c' == c.(lines := MergeProduct(c.lines, cat[0]))
    requires CatalogueSkus(cat) == {cat[0].sku} + CatalogueSkus(cat[1..])
    requires Skus(r.lines) == Skus(c'.lines) + CatalogueSkus(cat[1..])
    requires |c'.lines| <= |r.lines|
    requires CatalogueSkus(cat[1..]) <= Skus(c'.lines) ==> |r.lines| == |c'.lines|
    requires forall i :: 0 <= i < |c'.lines| ==>
      r.lines[i].sku == c'.lines[i].sku && r.lines[i].quantity == c'.lines[i].quantity
    requires forall i :: 0 <= i < |c'.lines| && c'.lines[i].sku !in CatalogueSkus(cat[1..]) ==>
      r.lines[i] == c'.lines[i]
    requires forall j :: |c'.lines| <= j < |r.lines| ==>
      r.lines[j].sku !in Skus(c'.lines) && r.lines[j].quantity == 0
    ensures Skus(r.lines) == Skus(c.lines) + CatalogueSkus(cat)
    ensures |c.lines| <= |r.lines|
    ensures CatalogueSkus(cat) <= Skus(c.lines) ==> |r.lines| == |c.lines|
    ensures forall i :: 0 <= i < |c.lines| ==>
      r.lines[i].sku == c.lines[i].sku && r.lines[i].quantity == c.lines[i].quantity
    ensures forall i :: 0 <= i < |c.lines| && c.lines[i].sku !in CatalogueSkus(cat) ==>
      r.lines[i] == c.lines[i]
    ensures forall j :: |c.lines| <= j < |r.lines| ==>
      r.lines[j].sku !in Skus(c.lines) && r.lines[j].quantity == 0
  {
  }

  /** The title/price half of `LoadCatalogue`'s inductive step. */
  lemma LoadCatalogueStep(c: Cart, cat: seq<Product>, c': Cart, r: Cart)
    requires Valid(c) && |cat| > 0
    requires c' == c.(lines := MergeProduct(c.lines, cat[0]))
    requires Valid(r)
    requires Skus(r.lines) == Skus(c'.lines) + CatalogueSkus(cat[1..])
    requires |c'.lines| <= |r.lines|
    requires forall i :: 0 <= i < |c'.lines| && c'.lines[i].sku !in CatalogueSkus(cat[1..]) ==>
      r.lines[i] == c'.lines[i]
    requires forall j, k :: (0 <= j < |r.lines| && 0 <= k < |cat[1..]| &&
      r.lines[j].sku == cat[1..][k].sku && LastInCatalogue(cat[1..], k)) ==>
      r.lines[j].title == cat[1..][k].title && r.lines[j].price == cat[1..][k].price
    ensures forall j, k :: (0 <= j < |r.lines| && 0 <= k < |cat| &&
      r.lines[j].sku == cat[k].sku && LastInCatalogue(cat, k)) ==>
      r.lines[j].title == cat[k].title && r.lines[j].price == cat[k].price
  {
    forall j, k | 0 <= j < |r.lines| && 0 <= k < |cat| &&
      r.lines[j].sku == cat[k].sku && LastInCatalogue(cat, k)
      ensures r.lines[j].title == cat[k].title && r.lines[j].price == cat[k].price
    {
      if k == 0 {
        assert cat[0].sku !in CatalogueSkus(cat[1..]) by {
          assert forall m :: 0 <= m < |cat[1..]| ==> cat[1..][m] == cat[m + 1];
        }
        var i := IndexOf(c'.lines, cat[0].sku).value;
        assert r.lines[i] == c'.lines[i];
        assert i == j;
      } else {
        assert cat[1..][k - 1] == cat[k];
        assert LastInCatalogue(cat[1..], k - 1);
      }
    }
  }

  /** The order half of `LoadCatalogue`'s inductive step: appended SKUs
      follow their first appearance in the catalogue. */
  lemma {:induction false} LoadCatalogueOrder(c: Cart, cat: seq<Product>, c': Cart, r: Cart)
    requires Valid(c) && |cat| > 0
    requires c' == c.(lines := MergeProduct(c.lines, cat[0]))
    requires |c'.lines| <= |r.lines|
    requires forall i :: 0 <= i < |c'.lines| ==> r.lines[i].sku == c'.lines[i].sku
    requires forall j :: |c'.lines| <= j < |r.lines| ==> r.lines[j].sku !in Skus(c'.lines)
    requires forall j1, j2 :: |c'.lines| <= j1 < j2 < |r.lines| ==>
      FirstInCatalogue(cat[1..], r.lines[j1].sku) < FirstInCatalogue(cat[1..], r.lines[j2].sku)
    ensures forall j1, j2 :: |c.lines| <= j1 < j2 < |r.lines| ==>
      FirstInCatalogue(cat, r.lines[j1].sku) < FirstInCatalogue(cat, r.lines[j2].sku)
  {
    // Every line past `c'` carries a SKU other than `cat[0]`'s, so its first
    // index in `cat` is one more than in `cat[1..]`.
    assert cat[0].sku in Skus(c'.lines);
    forall j | |c'.lines| <= j < |r.lines|
      ensures FirstInCatalogue(cat, r.lines[j].sku) == 1 + FirstInCatalogue(cat[1..], r.lines[j].sku)
    {
      assert r.lines[j].sku != cat[0].sku;
    }
    if |c'.lines| > |c.lines| {
      assert r.lines[|c.lines|].sku == cat[0].sku;
      assert FirstInCatalogue(cat, cat[0].sku) == 0;
    }
  }

  /** The constructor: an empty map with the given currency (by default
      `DefaultCurrency`), then the initial catalogue when it is non-empty. */
  function New(cat: seq<Product>, currency: string := DefaultCurrency): (r: Cart)
    ensures Valid(r)
    ensures r.currency == currency
    ensures Skus(r.lines) == CatalogueSkus(cat)
    ensures forall j :: 0 <= j < |r.lines| ==> r.lines[j].quantity == 0
    ensures forall j, k :: (0 <= j < |r.lines| && 0 <= k < |cat| &&
      r.lines[j].sku == cat[k].sku && LastInCatalogue(cat, k)) ==>
      r.lines[j].title == cat[k].title && r.lines[j].price == cat[k].price
    ensures forall j1, j2 :: 0 <= j1 < j2 < |r.lines| ==>
      FirstInCatalogue(cat, r.lines[j1].sku) < FirstInCatalogue(cat, r.lines[j2].sku)
  {
    if |cat| > 0 then LoadCatalogue(Cart([], currency), cat) else Cart([], currency)
  }

  /** `actualizarUnidades`: an unknown SKU leaves the ledger as it is;
      otherwise only the quantity of that SKU's line changes, to `Units(u)`. */
  function UpdateUnits(c: Cart, sku: string, u: Num): (r: Cart)
    requires Valid(c)
    ensures Valid(r)
    ensures sku !in Skus(c.lines) ==> r == c
    ensures r.currency == c.currency
    ensures |r.lines| == |c.lines|
    ensures forall i :: 0 <= i < |c.lines| ==>
      r.lines[i].sku == c.lines[i].sku &&
      r.lines[i].title == c.lines[i].title &&
      r.lines[i].price == c.lines[i].price
    ensures forall i :: 0 <= i < |c.lines| ==>
      r.lines[i].quantity == if c.lines[i].sku == sku then Units(u) else c.lines[i].quantity
  {
    match IndexOf(c.lines, sku)
    case None => c
    case Some(i) =>
      var r := c.(lines := c.lines[i := c.lines[i].(quantity := Units(u))]);
      assert forall j :: 0 <= j < |c.lines| ==> r.lines[j].sku == c.lines[j].sku;
      r
  }

  /** `obtenerInformacionProducto`: null exactly when `sku` is not a key,
      otherwise that line's SKU and current quantity. */
  function ProductInfo(c: Cart, sku: string): (r: Option<Info>)
    requires Valid(c)
    ensures r.None? <==> sku !in Skus(c.lines)
    ensures forall i :: 0 <= i < |c.lines| && c.lines[i].sku == sku ==>
      r == Some(Info(sku, c.lines[i].quantity))
  {
    match IndexOf(c.lines, sku)
    case None => None
    case Some(i) => Some(Info(c.lines[i].sku, c.lines[i].quantity))
  }
}
