/** Sales aggregation: what one pass over a sales file adds to the total and
    which warnings it records. */
module Sales {
  import opened Records
  import opened Catalog

  /** A sale counts toward the total when the lookup of its `Producto` yields a
      non-empty record. */
  predicate Matched(catalog: seq<Product>, sale: Sale)
  {
    !IsEmpty(Lookup(sale.producto, catalog))
  }

  /** `Cantidad` (default 0) times the found product's `precio` (default 0). */
  function LineAmount(catalog: seq<Product>, sale: Sale): int
  {
    GetOr(sale.cantidad, 0) * GetOr(Lookup(sale.producto, catalog).precio, 0)
  }

  /** What Python's f-string prints for a looked-up `Producto`. */
  function ShowName(name: Option<string>): string
  {
    match name
    case Some(s) => s
    case None => "None"
  }

  /** The warning recorded for a sale whose product is not found. */
  function Message(sale: Sale): string
  {
    "Producto \"" + ShowName(sale.producto) + "\" no encontrado"
  }

  /** The running total after the given sales, processed in order. */
  function Total(catalog: seq<Product>, sales: seq<Sale>): int
  {
    if sales == [] then 0
    else
      var last := sales[|sales| - 1];
      Total(catalog, sales[..|sales| - 1]) + (if Matched(catalog, last) then LineAmount(catalog, last) else 0)
  }

  /** The warning list after the given sales, processed in order. */
  function Warnings(catalog: seq<Product>, sales: seq<Sale>): seq<string>
  {
    if sales == [] then []
    else
      var last := sales[|sales| - 1];
      var before := Warnings(catalog, sales[..|sales| - 1]);
      if Matched(catalog, last) then before else before + [Message(last)]
  }

  // Reference definitions: select the matched and unmatched sales first, then
  // sum over the former and describe the latter.

  /** The sales whose product is found, in their original order. */
  function MatchedSales(catalog: seq<Product>, sales: seq<Sale>): (r: seq<Sale>)
    ensures multiset(r) <= multiset(sales)
    ensures forall k :: 0 <= k < |r| ==> Matched(catalog, r[k])
    ensures forall k :: 0 <= k < |sales| && Matched(catalog, sales[k]) ==> sales[k] in r
  {
    if sales == [] then []
    else
      var rest := MatchedSales(catalog, sales[1..]);
      assert sales == [sales[0]] + sales[1..];
      assert forall k :: 1 <= k < |sales| ==> sales[k] == sales[1..][k - 1];
      (if Matched(catalog, sales[0]) then [sales[0]] else []) + rest
  }

  /** The sales whose product is not found, in their original order. */
  function UnmatchedSales(catalog: seq<Product>, sales: seq<Sale>): (r: seq<Sale>)
    ensures multiset(r) <= multiset(sales)
    ensures forall k :: 0 <= k < |r| ==> !Matched(catalog, r[k])
    ensures forall k :: 0 <= k < |sales| && !Matched(catalog, sales[k]) ==> sales[k] in r
  {
    if sales == [] then []
    else
      var rest := UnmatchedSales(catalog, sales[1..]);
      assert sales == [sales[0]] + sales[1..];
      assert forall k :: 1 <= k < |sales| ==> sales[k] == sales[1..][k - 1];
      (if Matched(catalog, sales[0]) then [] else [sales[0]]) + rest
  }

  /** The sum of the line amounts of the given sales. */
  function SumOfLines(catalog: seq<Product>, sales: seq<Sale>): int
  {
    if sales == [] then 0 else LineAmount(catalog, sales[0]) + SumOfLines(catalog, sales[1..])
  }

  /** One warning per given sale, in the same order. */
  function Messages(sales: seq<Sale>): (r: seq<string>)
    ensures |r| == |sales|
    ensures forall k :: 0 <= k < |sales| ==> r[k] == Message(sales[k])
  {
    if sales == [] then [] else [Message(sales[0])] + Messages(sales[1..])
  }

  /** Processing two batches one after the other adds their totals. */
  lemma {:induction false} TotalAppend(catalog: seq<Product>, a: seq<Sale>, b: seq<Sale>)
    ensures Total(catalog, a + b) == Total(catalog, a) + Total(catalog, b)
    decreases |b|
  {
    if b == [] {
      assert a + b == a;
    } else {
      var n := |b| - 1;
      assert (a + b)[..|a + b| - 1] == a + b[..n];
      assert (a + b)[|a + b| - 1] == b[n];
      TotalAppend(catalog, a, b[..n]);
    }
  }

  /** Processing two batches one after the other concatenates their warnings. */
  lemma {:induction false} WarningsAppend(catalog: seq<Product>, a: seq<Sale>, b: seq<Sale>)
    ensures Warnings(catalog, a + b) == Warnings(catalog, a) + Warnings(catalog, b)
    decreases |b|
  {
    if b == [] {
      assert a + b == a;
    } else {
      var n := |b| - 1;
      assert (a + b)[..|a + b| - 1] == a + b[..n];
      assert (a + b)[|a + b| - 1] == b[n];
      WarningsAppend(catalog, a, b[..n]);
    }
  }

  /** The total is the sum of `Cantidad` times `precio` over exactly the sales
      whose product is found; the others add nothing. */
  lemma {:induction false} TotalIsSumOverMatched(catalog: seq<Product>, sales: seq<Sale>)
    ensures Total(catalog, sales) == SumOfLines(catalog, MatchedSales(catalog, sales))
  {
    if sales != [] {
      var rest := sales[1..];
      assert sales == [sales[0]] + rest;
      TotalAppend(catalog, [sales[0]], rest);
      assert Total(catalog, [sales[0]]) == (if Matched(catalog, sales[0]) then LineAmount(catalog, sales[0]) else 0) by {
        assert [sales[0]][..0] == [];
      }
      TotalIsSumOverMatched(catalog, rest);
      var m := MatchedSales(catalog, rest);
      if Matched(catalog, sales[0]) {
        assert ([sales[0]] + m)[0] == sales[0] && ([sales[0]] + m)[1..] == m;
      } else {
        assert [] + m == m;
      }
    }
  }

  /** The warnings are one message per unmatched sale, in sale order. */
  lemma {:induction false} WarningsAreUnmatchedMessages(catalog: seq<Product>, sales: seq<Sale>)
    ensures Warnings(catalog, sales) == Messages(UnmatchedSales(catalog, sales))
  {
    if sales != [] {
      var rest := sales[1..];
      assert sales == [sales[0]] + rest;
      WarningsAppend(catalog, [sales[0]], rest);
      assert Warnings(catalog, [sales[0]]) == (if Matched(catalog, sales[0]) then [] else [Message(sales[0])]) by {
        assert [sales[0]][..0] == [];
      }
      WarningsAreUnmatchedMessages(catalog, rest);
      var u := UnmatchedSales(catalog, rest);
      if !Matched(catalog, sales[0]) {
        assert ([sales[0]] + u)[1..] == u;
      }
    }
  }

  /** Every sale is either counted or warned about, never both and never neither. */
  lemma {:induction false} SalesArePartitioned(catalog: seq<Product>, sales: seq<Sale>)
    ensures multiset(MatchedSales(catalog, sales)) + multiset(UnmatchedSales(catalog, sales)) == multiset(sales)
    ensures |Warnings(catalog, sales)| + |MatchedSales(catalog, sales)| == |sales|
  {
    if sales != [] {
      assert sales == [sales[0]] + sales[1..];
      SalesArePartitioned(catalog, sales[1..]);
    }
    WarningsAreUnmatchedMessages(catalog, sales);
  }

  /** When every sale's product is found, nothing is warned about and the total
      is the plain sum over all sales. */
  lemma {:induction false} AllMatched(catalog: seq<Product>, sales: seq<Sale>)
    requires forall k :: 0 <= k < |sales| ==> Matched(catalog, sales[k])
    ensures Warnings(catalog, sales) == []
    ensures Total(catalog, sales) == SumOfLines(catalog, sales)
  {
    if sales != [] {
      AllMatched(catalog, sales[..|sales| - 1]);
      var last := sales[|sales| - 1];
      assert sales == sales[..|sales| - 1] + [last];
      SumOfLinesAppend(catalog, sales[..|sales| - 1], last);
    }
  }

  /** Summing line by line from the front agrees with adding the last line. */
  lemma {:induction false} SumOfLinesAppend(catalog: seq<Product>, sales: seq<Sale>, last: Sale)
    ensures SumOfLines(catalog, sales + [last]) == SumOfLines(catalog, sales) + LineAmount(catalog, last)
  {
    if sales == [] {
      assert [] + [last] == [last];
    } else {
      assert (sales + [last])[1..] == sales[1..] + [last];
      SumOfLinesAppend(catalog, sales[1..], last);
    }
  }

  /** When no sale's product is found, the total is 0 and there is exactly one
      warning per sale, in sale order. */
  lemma {:induction false} NoneMatched(catalog: seq<Product>, sales: seq<Sale>)
    requires forall k :: 0 <= k < |sales| ==> !Matched(catalog, sales[k])
    ensures Total(catalog, sales) == 0
    ensures Warnings(catalog, sales) == Messages(sales)
  {
    if sales != [] {
      var n := |sales| - 1;
      var init, last := sales[..n], sales[n];
      assert forall k :: 0 <= k < n ==> init[k] == sales[k];
      NoneMatched(catalog, init);
      assert !Matched(catalog, last);
      assert sales == init + [last];
      MessagesAppend(init, last);
    }
  }

  /** Describing one more sale appends its message. */
  lemma {:induction false} MessagesAppend(sales: seq<Sale>, last: Sale)
    ensures Messages(sales + [last]) == Messages(sales) + [Message(last)]
  {
  }

  /** With no sales there is nothing to add and nothing to warn about, whatever
      the catalog. */
  lemma NoSales(catalog: seq<Product>)
    ensures Total(catalog, []) == 0 && Warnings(catalog, []) == []
  {
  }

  /** Two products A (10) and B (5); three A are sold and one C, which is not in
      the list: the total is 30 and C is the one warning. */
  lemma TwoProductsOneUnknown()
    ensures var catalog := [Record(Some("A"), Some(10), None, None, false),
                            Record(Some("B"), Some(5), None, None, false)];
            var sales := [Record(None, None, Some("A"), Some(3), false),
                          Record(None, None, Some("C"), Some(1), false)];
            Total(catalog, sales) == 30 && Warnings(catalog, sales) == ["Producto \"C\" no encontrado"]
  {
    var catalog := [Record(Some("A"), Some(10), None, None, false),
                    Record(Some("B"), Some(5), None, None, false)];
    var sales := [Record(None, None, Some("A"), Some(3), false),
                  Record(None, None, Some("C"), Some(1), false)];
    assert Lookup(Some("A"), catalog) == catalog[0];
    LookupMissesExactlyAbsentNames("C", catalog);
    assert sales[..1][..0] == [];
    assert sales[..|sales| - 1] == sales[..1];
    assert Message(sales[1]) == "Producto \"C\" no encontrado";
  }
}
