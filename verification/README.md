# computeSales, modelled in Dafny

`computeSales.py` is a command-line script. It takes pairs of JSON files, each pair
being a product list (`ListaProductos`: objects with `nombre` and `precio`) and a
sales file (objects with `Producto` and `Cantidad`). For every pair it adds up
`Cantidad × precio` over the sales whose product is in the list, and it records a
warning `Producto "<name>" no encontrado` for every sale whose product is not.
Then it writes a report.

This project models the calculator object and its core operations:

- `records.dfy` (`Records`): a JSON object as the script reads it (`Record`). Each of
  the four keys the script uses is an `Option`. An `extraKeys` flag records whether
  the object holds anything else. With it, Python's `not producto` (a dictionary is
  false only when it is `{}`) is the predicate `IsEmpty`.
- `catalog.dfy` (`Catalog`): `encontrar_producto` as a specification. `FirstMatch` is
  the index of the first product with the queried `nombre`. `Lookup` is that product,
  or `{}` when there is none.
- `sales.dfy` (`Sales`): `Total` and `Warnings` give the running total and the warning
  list after a prefix of the sales, in loop order. They are checked against reference
  definitions: first select the matched or unmatched sales (`MatchedSales`,
  `UnmatchedSales`), then sum the line amounts (`SumOfLines`) or write one message per
  sale (`Messages`).
- `arguments.dfy` (`Arguments`): the pairing rule of `leer_archivos_en_pares`. Tokens
  2k and 2k+1 after the program name form pairing k. The two are swapped when the
  second contains `ListaProductos` (Python's substring `in` is `Contains`).
- `calculator.dfy` (`Calculator`): the class `ComputeSales`, with the fields
  `warnings: map<string, seq<string>>` and `fileNames: seq<FilePair>` that the script
  updates in place. Its methods follow the script's loops:
  - `FindProduct`: the early-return search.
  - `CalculateSales`: resets `warnings[fileName]`, then appends to it sale by sale.
  - `ReadFilesInPairs`: the stepped loop over the arguments.
  - `Calculate`, `CalculateAll`, `CalculatePairs`: the odd-count guard and the
    per-pair loop of `calcular`.

  Each method is proved against the functions above. The file system is a parameter
  `files: map<string, seq<Record>>`, read through `ReadFile`: a path that is not in it
  reads as the empty list, as a missing file does.

Behaviour that the contracts make visible:

- A sale without `Producto` looks up `None`. It matches the first product without
  `nombre`, so its `precio` is used.
- If that first product is the empty object `{}`, the sale is still reported as not
  found, because `calcular_ventas` tests the returned dictionary's truthiness, not
  whether a match happened (`Catalog.LookupOfMissingName`). Its warning reads
  `Producto "None" no encontrado`.
- Duplicate names resolve to the first entry (`Catalog.LookupIsFirstMatch`,
  `Catalog.LookupIgnoresLaterProducts`).
- `warnings` is keyed by the product-list path. Two pairings that share a product list
  overwrite each other's entry; the later one wins (`Calculator.RecordedKeepsLastWarnings`).
  Each pairing's report still carries its own warnings, because the script reads them
  right after that pairing's sales pass.
- Pairing i is labelled with `fileNames[i]`, counted from the start of the list. These
  are this run's pairings only when the object is fresh. The script's entry point
  always uses a fresh object, and `CalculateAll` states both facts.
- A pairing is swapped whenever its second token contains `ListaProductos`, even if the
  first token does too. The sales side names a product list only when both tokens do
  (`Arguments.OrderPairKeepsBothPaths`). The code has no "cannot decide" case: this
  heuristic is the behaviour.
- The argument check is `(len(argv) - 1) % 2 != 0`. An empty `argv` also fails it,
  since `-1 % 2` is 1 both in Python and in Dafny.
- Negative quantities and prices are not rejected. The total is a plain signed sum and
  is not promised to be non-negative.
- Running a sales pass twice on the same inputs gives the same total and the same
  `warnings` entry. `CalculateSales`'s contract fixes both as functions of the inputs
  and resets the entry rather than appending to it.

## Model

| member | source | states |
|---|---|---|
| `Catalog.FirstMatch` | computeSales.py:41-44 | the index found holds a product with the queried `nombre` and no earlier product has it; there is no index exactly when no product (including none at all) has that name |
| `Catalog.LookupIsFirstMatch` | computeSales.py:41-43 | the lookup returns the first product whose `nombre` equals the query, so duplicates resolve to the first entry |
| `Catalog.LookupMissesExactlyAbsentNames` | computeSales.py:41-44 | for a real name the lookup yields `{}` exactly when no product has that name, including an empty product list |
| `Catalog.LookupOfMissingName` | computeSales.py:61-62 | a sale without `Producto` hits the first product without `nombre`, and is unmatched exactly when that product is `{}` |
| `Catalog.LookupIgnoresLaterProducts` | computeSales.py:41-43 | once a name is present, products appended after it do not change what the lookup returns |
| `Sales.MatchedSales` | computeSales.py:60-66 | the order-preserving selection of the input's sales whose product is found: a sub-multiset of the input, every element found, every found sale of the input included |
| `Sales.UnmatchedSales` | computeSales.py:62-65 | the order-preserving selection of the input's sales whose product is not found: a sub-multiset of the input, every element missing, every missing sale of the input included |
| `Sales.Messages` | computeSales.py:63-64 | one `Producto "<name>" no encontrado` message per sale, at the same position |
| `Sales.TotalAppend` | computeSales.py:58-66 | processing two batches of sales in turn adds their totals |
| `Sales.WarningsAppend` | computeSales.py:62-65 | processing two batches of sales in turn concatenates their warnings |
| `Sales.TotalIsSumOverMatched` | computeSales.py:58-67 | the total is the sum of `Cantidad` (default 0) × `precio` (default 0) over exactly the sales whose product is found |
| `Sales.WarningsAreUnmatchedMessages` | computeSales.py:59-65 | the warnings are exactly one message per unmatched sale, in sale order |
| `Sales.SalesArePartitioned` | computeSales.py:60-66 | every sale is either summed or warned about, never both: the matched and unmatched sales together are the input, and warnings plus matched sales number the sales |
| `Sales.AllMatched` | computeSales.py:60-66 | when every sale's product is found there are no warnings and the total is the sum over all sales |
| `Sales.NoneMatched` | computeSales.py:58-67 | when no sale's product is found the total is 0 and there is one warning per sale, in order |
| `Sales.NoSales` | computeSales.py:58-60 | with no sales the total is 0 and the warning list is empty, whatever the product list |
| `Sales.TwoProductsOneUnknown` | computeSales.py:58-67 | products A at 10 and B at 5, sales 3 × A and 1 × C: total 30 and the single warning for C |
| `Arguments.Contains` | computeSales.py:87 | Python's substring test: true exactly when the marker occurs at some position of the token |
| `Arguments.PairUp` | computeSales.py:85-88 | an even token list gives half as many pairings; pairing k is tokens 2k and 2k+1, swapped exactly when the second contains `ListaProductos` |
| `Arguments.OrderPairKeepsBothPaths` | computeSales.py:86-88 | a pairing keeps both paths; its sales side names a product list only if both tokens do |
| `Catalog.Lookup` | computeSales.py:41-44 | definition without a contract of its own: the first product whose `nombre` equals the query, else `{}`; pinned down by `FindProduct`'s ensures and by `LookupIsFirstMatch`, `LookupMissesExactlyAbsentNames` and `LookupIgnoresLaterProducts` |
| `Sales.Matched` | computeSales.py:61-62 | definition without a contract of its own: a sale counts when the lookup of its `Producto` is not `{}` (the truthiness test); used by `TotalIsSumOverMatched` and `WarningsAreUnmatchedMessages` |
| `Sales.LineAmount` | computeSales.py:66 | definition without a contract of its own: `Cantidad` (default 0) times the found product's `precio` (default 0); summed over the matched sales in `TotalIsSumOverMatched` |
| `Sales.ShowName` | computeSales.py:64 | definition without a contract of its own: the name as the f-string prints it, `None` for a missing `Producto`; checked on a concrete sale in `TwoProductsOneUnknown` |
| `Sales.Message` | computeSales.py:63-64 | definition without a contract of its own: the warning `Producto "<name>" no encontrado`; checked on a concrete sale in `TwoProductsOneUnknown` |
| `Sales.Total` | computeSales.py:58-66 | definition without a contract of its own: the running total after a prefix of the sales; `CalculateSales` ensures its result equals it, and `TotalIsSumOverMatched`, `TotalAppend`, `AllMatched` and `NoneMatched` state what it is |
| `Sales.Warnings` | computeSales.py:59-65 | definition without a contract of its own: the warning list after a prefix of the sales; `CalculateSales` ensures the stored entry equals it, and `WarningsAreUnmatchedMessages`, `WarningsAppend`, `AllMatched` and `NoneMatched` state what it is |
| `Arguments.OrderPair` | computeSales.py:86-88 | definition without a contract of its own: one pairing, swapped when the second token contains `ListaProductos`; stated by `PairUp`'s ensures and `OrderPairKeepsBothPaths` |
| `Calculator.Recorded` | computeSales.py:106-109 | definition without a contract of its own: the `warnings` map after each report's warnings are stored under its product-list path in turn; stated by `RecordedKeepsOtherPaths` and `RecordedKeepsLastWarnings` |
| `Calculator.MissingCatalogWarnsEverySale` | computeSales.py:26-28 | a missing product list gives a total of 0 and one warning per sale of its pairing |
| `Calculator.RecordedKeepsOtherPaths` | computeSales.py:106-109 | the batch run leaves the `warnings` entry of every path no pairing is reported under as it was |
| `Calculator.RecordedKeepsLastWarnings` | computeSales.py:106-109 | after the batch run a product-list path holds the warnings of the last pairing reported under it |
| `Calculator.ComputeSales.constructor` | computeSales.py:9-12 | a new calculator has no warnings and no file names |
| `Calculator.ComputeSales.FindProduct` | computeSales.py:31-44 | the search returns the first product with the queried `nombre`, or `{}` |
| `Calculator.ComputeSales.CalculateSales` | computeSales.py:46-67 | returns the total of the matched sales and sets `warnings[fileName]` to the fresh list of warnings, leaving every other key as it was |
| `Calculator.ComputeSales.ReadFilesInPairs` | computeSales.py:78-94 | appends the pairings of the arguments to `fileNames` and returns each pairing's product and sales records, missing files read as empty |
| `Calculator.ComputeSales.CalculatePairs` | computeSales.py:106-114 | pairing k's report is its total and warnings under the paths `fileNames[k]`; `warnings` holds each report's list under its product-list path |
| `Calculator.ComputeSales.CalculateAll` | computeSales.py:103-114 | the report of each pairing of the arguments, in order, with total and warnings from its two files; labels are this run's pairings on a fresh object |
| `Calculator.ComputeSales.Calculate` | computeSales.py:96-114 | an odd number of path tokens fails with the diagnostic and changes nothing; otherwise the reports of `CalculateAll` |

## Left out

- Opening and parsing files (`leer_archivo`, computeSales.py:14-29): the parsed contents are a parameter. A file that is not valid JSON raises an exception in the script, and one that holds something other than a list of objects may raise one. The model has no such file.
- The error message printed for a missing file, and every other `print`.
- The text report: the `:,.2f` and ` .2f` formatting, the thousands separators and the warnings block. `PairReport` holds the values the text is built from.
- Writing `ResultadosVentas.txt`.
- The elapsed wall-clock time.
- Process termination by `sys.exit()`: the odd-count guard returns `Failure` with the script's diagnostic instead.
- Python's dynamic typing. Quantities and prices are integers, so there is no floating-point rounding. A non-numeric `Cantidad` or `precio`, or a JSON `null` in either, would raise `TypeError` in the script and is not modelled. For the `.get` lookups of `nombre` and `Producto`, a `null` is the same as a missing key. The key still makes the object non-empty, so a record holding it has `extraKeys` set.
- `leer_archivos_en_pares` on its own, called with an odd argument count (a failed tuple unpacking in the script): `ReadFilesInPairs` requires an odd `argv` length, which `calcular` guarantees before calling it.
