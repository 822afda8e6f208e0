/** Command-line pairing: cutting the path tokens into (product list, sales file)
    pairs. */
module Arguments {

  /** The two paths of one pairing, as the calculator names them. */
  datatype FilePair = FilePair(productos: string, ventas: string)

  /** The marker that identifies a product-list path. */
  const CatalogMarker := "ListaProductos"

  /** Python's `sub in s` on strings: `sub` occurs somewhere in `s`. */
  function Contains(s: string, sub: string): (r: bool)
    ensures r <==> exists i :: 0 <= i <= |s| && sub <= s[i..]
  {
    if sub <= s then
      assert s[0..] == s;
      true
    else if s == [] then false
    else
      var r := Contains(s[1..], sub);
      assert forall i :: 1 <= i <= |s| ==> s[i..] == s[1..][i - 1..];
      r
  }

  /** One pairing: the tokens are swapped when the second names a product list. */
  function OrderPair(first: string, second: string): FilePair
  {
    if Contains(second, CatalogMarker) then FilePair(second, first) else FilePair(first, second)
  }

  /** The pairings of the path tokens: pairing k is made from tokens 2k and 2k+1. */
  function PairUp(tokens: seq<string>): (pairs: seq<FilePair>)
    requires |tokens| % 2 == 0
    ensures |pairs| * 2 == |tokens|
    ensures forall k :: 0 <= k < |pairs| ==>
      pairs[k] == if Contains(tokens[2 * k + 1], CatalogMarker)
                  then FilePair(tokens[2 * k + 1], tokens[2 * k])
                  else FilePair(tokens[2 * k], tokens[2 * k + 1])
  {
    if tokens == [] then []
    else
      var rest := PairUp(tokens[2..]);
      assert forall k :: 0 <= k < |rest| ==> tokens[2..][2 * k] == tokens[2 * (k + 1)] && tokens[2..][2 * k + 1] == tokens[2 * (k + 1) + 1];
      [OrderPair(tokens[0], tokens[1])] + rest
  }

  /** A pairing keeps both paths, and the sales side names a product list only
      when both tokens do. */
  lemma OrderPairKeepsBothPaths(first: string, second: string)
    ensures multiset{OrderPair(first, second).productos, OrderPair(first, second).ventas} == multiset{first, second}
    ensures Contains(OrderPair(first, second).ventas, CatalogMarker)
        ==> Contains(first, CatalogMarker) && Contains(second, CatalogMarker)
  {
  }
}
