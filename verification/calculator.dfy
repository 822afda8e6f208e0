/** The calculator object: the product lookup, the per-file sales pass with its
    warnings dictionary, the pairing of the command-line paths and the batch run
    over all pairings. */
module Calculator {
  import opened Records
  import opened Catalog
  import opened Sales
  import opened Arguments

  /** What the batch run learns about one pairing: the sales path and the
      product-list path it is reported under, the total, and the warnings
      stored for it. */
  datatype PairReport = PairReport(ventas: string, productos: string, total: int, warnings: seq<string>)

  /** The diagnostic for an odd number of path tokens. */
  const PairsError := "Error: Debes proporcionar las rutas de los archivos en pares."

  /** Reading a path: the parsed records of the file, or no records when the
      file does not exist. `files` stands in for the file system. */
  function ReadFile(files: map<string, seq<Record>>, path: string): seq<Record>
  {
    if path in files then files[path] else []
  }

  /** A missing product list makes every sale of its pairing unmatched: the
      total is 0 and each sale gets its warning, in order. */
  lemma MissingCatalogWarnsEverySale(files: map<string, seq<Record>>, path: string, sales: seq<Sale>)
    requires path !in files
    ensures Total(ReadFile(files, path), sales) == 0
    ensures Warnings(ReadFile(files, path), sales) == Messages(sales)
  {
    forall k | 0 <= k < |sales|
      ensures !Matched([], sales[k])
    {
    }
    NoneMatched([], sales);
  }

  /** The warnings dictionary after the batch run has stored each report's
      warnings under its product-list path, in order. */
  function Recorded(w: map<string, seq<string>>, reports: seq<PairReport>): map<string, seq<string>>
  {
    if reports == [] then w
    else
      var last := reports[|reports| - 1];
      Recorded(w, reports[..|reports| - 1])[last.productos := last.warnings]
  }

  /** A path no pairing is reported under keeps what it held before the run. */
  lemma {:induction false} RecordedKeepsOtherPaths(w: map<string, seq<string>>, reports: seq<PairReport>, path: string)
    requires forall i :: 0 <= i < |reports| ==> reports[i].productos != path
    ensures path in Recorded(w, reports) <==> path in w
    ensures path in w ==> Recorded(w, reports)[path] == w[path]
  {
    if reports != [] {
      RecordedKeepsOtherPaths(w, reports[..|reports| - 1], path);
    }
  }

  /** A path holds the warnings of the last pairing reported under it: a later
      pairing with the same product list overwrites an earlier one. */
  lemma {:induction false} RecordedKeepsLastWarnings(w: map<string, seq<string>>, reports: seq<PairReport>, i: nat)
    requires i < |reports|
    requires forall j :: i < j < |reports| ==> reports[j].productos != reports[i].productos
    ensures reports[i].productos in Recorded(w, reports)
    ensures Recorded(w, reports)[reports[i].productos] == reports[i].warnings
  {
    if i < |reports| - 1 {
      RecordedKeepsLastWarnings(w, reports[..|reports| - 1], i);
    }
  }

  class ComputeSales {
    /** The warnings of the latest sales pass, keyed by product-list path. */
    var warnings: map<string, seq<string>>
    /** The pairings read so far, in order. */
    var fileNames: seq<FilePair>

    constructor ()
      ensures warnings == map[] && fileNames == []
    {
      warnings := map[];
      fileNames := [];
    }

    /** The first product whose `nombre` equals `name`, or `{}` when there is none. */
    method FindProduct(name: Option<string>, catalog: seq<Product>) returns (product: Product)
      ensures product == Lookup(name, catalog)
    {
      var i := 0;
      while i < |catalog|
        invariant 0 <= i <= |catalog|
        invariant forall j :: 0 <= j < i ==> catalog[j].nombre != name
      {
        if catalog[i].nombre == name {
          LookupIsFirstMatch(name, catalog, i);
          return catalog[i];
        }
        i := i + 1;
      }
      return EmptyRecord;
    }

    /** One sales pass: the total of the matched sales, with the warnings for
        the unmatched ones stored afresh under `fileName`. */
    method CalculateSales(catalog: seq<Product>, sales: seq<Sale>, fileName: string) returns (total: int)
      modifies this`warnings
      ensures total == Total(catalog, sales)
      ensures warnings == old(warnings)[fileName := Warnings(catalog, sales)]
    {
      total := 0;
      warnings := warnings[fileName := []];
      for i := 0 to |sales|
        invariant total == Total(catalog, sales[..i])
        invariant warnings == old(warnings)[fileName := Warnings(catalog, sales[..i])]
      {
        var sale := sales[i];
        assert sales[..i + 1][..i] == sales[..i] && sales[..i + 1][i] == sale;
        var product := FindProduct(sale.producto, catalog);
        if IsEmpty(product) {
          warnings := warnings[fileName := warnings[fileName] + [Message(sale)]];
          continue;
        }
        total := total + GetOr(sale.cantidad, 0) * GetOr(product.precio, 0);
      }
      assert sales[..|sales|] == sales;
    }

    /** Reads the pairings of `argv` (whose first token is the program name) and
        the records of both files of each, appending the pairings to `fileNames`. */
    method ReadFilesInPairs(argv: seq<string>, files: map<string, seq<Record>>)
      returns (data: seq<(seq<Product>, seq<Sale>)>)
      requires |argv| % 2 == 1
      modifies this`fileNames
      ensures fileNames == old(fileNames) + PairUp(argv[1..])
      ensures |data| == |PairUp(argv[1..])|
      ensures forall k :: 0 <= k < |data| ==>
        data[k] == (ReadFile(files, PairUp(argv[1..])[k].productos), ReadFile(files, PairUp(argv[1..])[k].ventas))
    {
      ghost var tokens := argv[1..];
      ghost var pairs := PairUp(tokens);
      data := [];
      var i := 0;
      while i < |argv| - 1
        invariant 0 <= i <= |argv| - 1 && i % 2 == 0
        invariant |data| == i / 2 <= |pairs|
        invariant fileNames == old(fileNames) + pairs[..i / 2]
        invariant forall k :: 0 <= k < i / 2 ==>
          data[k] == (ReadFile(files, pairs[k].productos), ReadFile(files, pairs[k].ventas))
      {
        var productos, ventas := argv[i + 1], argv[i + 2];
        if Contains(ventas, CatalogMarker) {
          productos, ventas := ventas, productos;
        }
        assert tokens[2 * (i / 2)] == argv[i + 1] && tokens[2 * (i / 2) + 1] == argv[i + 2];
        assert pairs[i / 2] == FilePair(productos, ventas);
        var catalog := ReadFile(files, productos);
        var sales := ReadFile(files, ventas);
        fileNames := fileNames + [FilePair(productos, ventas)];
        data := data + [(catalog, sales)];
        assert pairs[..i / 2 + 1] == pairs[..i / 2] + [pairs[i / 2]];
        i := i + 2;
      }
      assert pairs[..|pairs|] == pairs;
    }

    /** The loop of the batch run: a sales pass for each pairing's records, in
        order, reported under the paths `fileNames` holds at the same index. */
    method CalculatePairs(data: seq<(seq<Product>, seq<Sale>)>) returns (reports: seq<PairReport>)
      requires |data| <= |fileNames|
      modifies this`warnings
      ensures |reports| == |data|
      ensures warnings == Recorded(old(warnings), reports)
      ensures forall k :: 0 <= k < |data| ==>
        reports[k] == PairReport(fileNames[k].ventas, fileNames[k].productos,
                                 Total(data[k].0, data[k].1), Warnings(data[k].0, data[k].1))
    {
      reports := [];
      for i := 0 to |data|
        invariant |reports| == i
        invariant warnings == Recorded(old(warnings), reports)
        invariant forall k :: 0 <= k < i ==>
          reports[k] == PairReport(fileNames[k].ventas, fileNames[k].productos,
                                   Total(data[k].0, data[k].1), Warnings(data[k].0, data[k].1))
      {
        var (catalog, sales) := data[i];
        var key := fileNames[i].productos;
        var total := CalculateSales(catalog, sales, key);
        var report := PairReport(fileNames[i].ventas, key, total, warnings[key]);
        assert (reports + [report])[..i] == reports;
        reports := reports + [report];
      }
    }

    /** The batch run once the path tokens have been checked: every pairing
        gets a sales pass, in order, and its report. Pairing i is reported under
        `fileNames[i]`, counted from the start of the list, which names pairing i
        itself when the object is fresh. */
    method CalculateAll(argv: seq<string>, files: map<string, seq<Record>>) returns (reports: seq<PairReport>)
      requires |argv| % 2 == 1
      modifies this
      ensures fileNames == old(fileNames) + PairUp(argv[1..])
      ensures |reports| == |PairUp(argv[1..])|
      ensures warnings == Recorded(old(warnings), reports)
      ensures forall i :: 0 <= i < |reports| ==>
        var catalog := ReadFile(files, PairUp(argv[1..])[i].productos);
        var sales := ReadFile(files, PairUp(argv[1..])[i].ventas);
        reports[i] == PairReport(fileNames[i].ventas, fileNames[i].productos,
                                 Total(catalog, sales), Warnings(catalog, sales))
      ensures old(fileNames) == [] ==> forall i :: 0 <= i < |reports| ==>
        reports[i].productos == PairUp(argv[1..])[i].productos &&
        reports[i].ventas == PairUp(argv[1..])[i].ventas
    {
      ghost var pairs := PairUp(argv[1..]);
      var data := ReadFilesInPairs(argv, files);
      reports := CalculatePairs(data);
      forall i | 0 <= i < |reports|
        ensures reports[i] == PairReport(fileNames[i].ventas, fileNames[i].productos,
          Total(ReadFile(files, pairs[i].productos), ReadFile(files, pairs[i].ventas)),
          Warnings(ReadFile(files, pairs[i].productos), ReadFile(files, pairs[i].ventas)))
      {
        assert data[i] == (ReadFile(files, pairs[i].productos), ReadFile(files, pairs[i].ventas));
      }
    }

    /** The batch run. An odd number of path tokens after the program name ends
        it with a diagnostic before anything is read or stored. */
    method Calculate(argv: seq<string>, files: map<string, seq<Record>>) returns (outcome: Result<seq<PairReport>>)
      modifies this
      ensures (|argv| - 1) % 2 != 0 <==> outcome.Failure?
      ensures outcome.Failure? ==>
        outcome.error == PairsError && warnings == old(warnings) && fileNames == old(fileNames)
      ensures outcome.Success? ==>
        && |argv| % 2 == 1
        && fileNames == old(fileNames) + PairUp(argv[1..])
        && |outcome.value| == |PairUp(argv[1..])|
        && warnings == Recorded(old(warnings), outcome.value)
      ensures outcome.Success? ==> forall i :: 0 <= i < |outcome.value| ==>
        var catalog := ReadFile(files, PairUp(argv[1..])[i].productos);
        var sales := ReadFile(files, PairUp(argv[1..])[i].ventas);
        outcome.value[i] == PairReport(fileNames[i].ventas, fileNames[i].productos,
                                       Total(catalog, sales), Warnings(catalog, sales))
    {
      if (|argv| - 1) % 2 != 0 {
        return Failure(PairsError);
      }
      var reports := CalculateAll(argv, files);
      return Success(reports);
    }
  }
}
