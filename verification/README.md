# Cart ledger (`Carrito`) in Dafny

This project models `Carrito`, the cart ledger of a small client-side shop.
The ledger is an insertion-ordered map from SKU to a line
`{sku, title, price, quantity}`, plus a currency label. Its operations are:

- the constructor;
- `cargarCatalogo`, which merges a catalogue into the map;
- `actualizarUnidades`, which sets a line's quantity;
- `obtenerInformacionProducto`, which looks up one SKU;
- `obtenerCarrito`, which summarises the lines with a positive quantity and their total;
- `toJSON` / `fromJSON`, which snapshot and restore the ledger.

The model is functional. A ledger is an immutable `Cart(lines, currency)`.
`lines` is a sequence of lines whose SKUs are pairwise distinct (`Valid`).
A line's position in the sequence is its position in the map's iteration
order. Each JavaScript method is a pure function from the old ledger to the
new one. Its `ensures` say what changes and that nothing else does.

Modules, one file each:

- `Wrappers` (wrappers.dfy): `Option`, used for JavaScript's `null`/`undefined`.
- `Quantity` (quantity.dfy): `Math.trunc`, then clamping at 0 and the `Number.isFinite` guard.
- `Ledger` (ledger.dfy): the data model, the constructor, `cargarCatalogo`, `actualizarUnidades` and `obtenerInformacionProducto`.
- `Summary` (summary.dfy): `obtenerCarrito`.
- `Snapshot` (snapshot.dfy): `toJSON` and `fromJSON`.
- `Properties` (properties.dfy): laws that relate several operations.

Modelling choices:

- Prices are integers (cents), so totals are exact.
- A quantity input is `Num = Finite(r) | NonFinite`. `NonFinite` is every value `Number.isFinite` rejects.
- A parsed snapshot is `Option<Snapshot>`. `None` stands for three cases: `JSON.parse` threw, it produced a falsy value, or `lines` is not an array.
- When a catalogue or a snapshot repeats a SKU, its last entry wins. This is because `Map.set` runs once per element, in order.

Two behaviours of carrito.js worth knowing:

- `cargarCatalogo` only merges (carrito.js:10-17): SKUs from earlier catalogues stay in the map. `LoadCatalogue` states this.
- `fromJSON` can apply part of a snapshot (carrito.js:64-76). A `null` element of `lines` throws at carrito.js:66 after the currency and the earlier lines have been applied, and the exception is swallowed. The model cannot represent such an element (see below).

## Model

| member | source | states |
|---|---|---|
| Quantity.Trunc | carrito.js:23 | `Math.trunc`: the result is the integer part of the input, rounded toward zero, on both sides of zero |
| Quantity.ClampUnits | carrito.js:23 | `Math.max(0, Math.trunc(x))`: 0 for every input below 1, otherwise the largest integer not above the input |
| Quantity.Units | carrito.js:23 | a non-finite input gives 0; a finite one below 1 gives 0; a finite one of at least 1 gives its integer part, so the stored quantity is always a non-negative integer |
| Quantity.UnitsExamples | carrito.js:23 | -7 gives 0, 2.9 gives 2 (truncation, not rounding), -0.5 gives 0, a non-finite value gives 0 |
| Ledger.IndexOf | carrito.js:13 | `Map.get`: no position exactly when the SKU is not a key; otherwise the first, and with distinct keys the only, position holding it |
| Ledger.FirstInCatalogue | carrito.js:11-15 | the index of the first catalogue entry with a SKU, equal to the catalogue's length exactly when there is none; no earlier entry carries that SKU |
| Ledger.MergeProduct | carrito.js:12-15 | one `Map.set` of the catalogue loop: key set grows by exactly the product's SKU; an existing line keeps position and quantity and takes the new title and price; a new SKU is appended with quantity 0; all other lines unchanged |
| Ledger.LoadCatalogue | carrito.js:10-17 | no line is removed or moved; the key set becomes old keys plus catalogue SKUs; existing lines keep their quantity; lines outside the catalogue are unchanged; appended lines are new SKUs with quantity 0; each catalogue SKU's title and price come from its last catalogue entry; an all-known catalogue adds no line; appended SKUs are in the order of their first catalogue entry; the currency is untouched |
| Ledger.New | carrito.js:3-7 | the constructor: the given currency (by default "€"); exactly the catalogue's SKUs, in the order of their first catalogue entry, all at quantity 0, with the last entry's title and price |
| Ledger.UpdateUnits | carrito.js:20-25 | an unknown SKU leaves the ledger identical; otherwise only that SKU's quantity changes, to `Units(u)`; SKUs, titles, prices, order, other lines and currency are unchanged |
| Ledger.ProductInfo | carrito.js:28-32 | null exactly when the SKU is not a key; otherwise that SKU and its line's current quantity |
| Summary.Selected | carrito.js:36-47 | every summary line has quantity > 0 and line total price × quantity; there are at most as many summary lines as ledger lines |
| Summary.GetSummary | carrito.js:35-48 | the summary carries the ledger's currency; its total equals the sum of price × quantity over ALL lines of the ledger; every product has quantity > 0 and line total price × quantity |
| Summary.TotalOfSelected | carrito.js:36-37 | dropping the zero-quantity lines before the `reduce` does not change the sum |
| Summary.SelectedSource | carrito.js:36 | each summary line describes some ledger line (witness returned) |
| Summary.SelectedComplete | carrito.js:36 | each ledger line with quantity > 0 has a summary line describing it (witness returned) |
| Summary.SelectedKeepsOrder | carrito.js:36 | the filter keeps map order: an earlier summary line describes an earlier ledger line |
| Summary.SummaryLinesArePositive | carrito.js:36 | every line of `obtenerCarrito` describes a ledger line whose quantity is positive |
| Summary.SummaryHasEveryPositiveLine | carrito.js:36 | every ledger line with positive quantity is listed by `obtenerCarrito` |
| Summary.SummaryKeepsMapOrder | carrito.js:36 | `obtenerCarrito` lists its lines in map order |
| Summary.TotalAfterUpdate | carrito.js:37 | after `actualizarUnidades` the total moves by price × (new − old quantity) of that line, and stays the same for an unknown SKU |
| Snapshot.RestoredQuantity | carrito.js:70 | a missing quantity restores as 0; a finite one restores exactly as `actualizarUnidades` would store it |
| Snapshot.RestoreLine | carrito.js:66-72 | one restore step: only the line with the snapshot line's SKU changes, and only its quantity; an unknown SKU changes nothing |
| Snapshot.RestoreLines | carrito.js:65-73 | the restore loop: length, SKUs, titles and prices unchanged; lines the snapshot does not mention unchanged; a mentioned line takes the quantity of the last snapshot line with its SKU |
| Snapshot.ToJson | carrito.js:52-57 | the snapshot holds the currency and every line, zero quantities included, in map order with SKU, title, price and quantity; every quantity is restorable |
| Snapshot.FromJson | carrito.js:60-77 | a failed parse or non-array `lines` leaves the ledger identical; otherwise the key set, order, titles and prices never change; only existing SKUs get a quantity, from their last snapshot line; other lines are untouched; the currency changes only to a non-null snapshot currency |
| Properties.LoadCatalogueIdempotent | carrito.js:10-17 | loading the same catalogue twice in a row gives the same ledger as loading it once |
| Properties.InfoAfterUpdate | carrito.js:20-32 | after setting units, looking up that SKU gives the new quantity (or null if unknown); every other SKU looks up as before |
| Properties.UpdateUnitsIdempotent | carrito.js:20-25 | setting the same units twice equals setting them once |
| Properties.RestoreSnapshotOf | carrito.js:52-73 | restoring `c`'s snapshot into `d`: lines of `d` whose SKU `c` holds take `c`'s quantity; other lines stay unchanged; the currency becomes `c`'s |
| Properties.RoundTrip | carrito.js:52-73 | restoring `toJSON`'s snapshot into a ledger holding the same catalogue reproduces the original ledger exactly |

## Left out

- app.js is not modelled: it holds DOM rendering, event wiring, the `fetch` of the catalogue, `localStorage` persistence and currency text formatting. Its clamping at app.js:93 and app.js:107 repeats what `actualizarUnidades` enforces.
- Floating-point prices and the `toFixed(2)` rounding of the total string and of `lineTotal` (carrito.js:39, carrito.js:46) are not modelled. Prices are integer cents and totals are exact integers.
- JSON text is not modelled (carrito.js:53-56, carrito.js:62). `ToJson` yields the object that would be serialised. `FromJson` takes the parse outcome as `Option<Snapshot>`.
- Snapshot.FromJson: requires every quantity present in the snapshot to be a finite number (`Restorable`). A quantity that is not a JSON number is excluded, because the model does not convert values to numbers. At carrito.js:70 `Math.trunc` converts first: `"3"` restores as 3, `true` as 1, and `""` or `false` as 0. A non-numeric string or an object gives NaN. A numeric literal beyond double range is also excluded: a positive one gives +Infinity, and a negative one gives -Infinity, which clamps to 0. NaN and +Infinity would break the rule that every quantity is a non-negative integer.
- Prices with a fraction of a cent cannot be represented.
- Snapshot.FromJson: an element of `lines` that is `null` cannot be represented. In the source it throws at carrito.js:66 after the currency and the earlier lines have been applied, and the exception is swallowed, so the mutation is partial.
- SKUs are strings throughout. The source's `Map` accepts any key, but its only caller turns every SKU into a string. Snapshot SKUs that are not strings never match a key, so leaving them out loses no behaviour.
- The currency from a snapshot is a string or absent. The source accepts any non-null JSON value there.
- A price produced as NaN by the caller's `Number(p.price)` is not modelled: prices are integers.
