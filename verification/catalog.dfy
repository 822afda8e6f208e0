/** Catalog lookup: finding a product record by its `nombre`. */
module Catalog {
  import opened Records

  /** The position of the first product whose `nombre` equals `name`, if any. */
  function FirstMatch(name: Option<string>, catalog: seq<Product>): (r: Option<nat>)
    ensures r.Some? ==> r.value < |catalog| && catalog[r.value].nombre == name
    ensures r.Some? ==> forall j :: 0 <= j < r.value ==> catalog[j].nombre != name
    ensures r.None? <==> forall j :: 0 <= j < |catalog| ==> catalog[j].nombre != name
  {
    if catalog == [] then None
    else if catalog[0].nombre == name then Some(0)
    else
      match FirstMatch(name, catalog[1..])
      case None => None
      case Some(i) => Some(i + 1)
  }

  /** What a lookup of `name` yields: the first product with that name, or `{}`. */
  function Lookup(name: Option<string>, catalog: seq<Product>): Product
  {
    match FirstMatch(name, catalog)
    case None => EmptyRecord
    case Some(i) => catalog[i]
  }

  /** The first entry carrying the name wins, so a later duplicate never shadows it. */
  lemma LookupIsFirstMatch(name: Option<string>, catalog: seq<Product>, i: nat)
    requires i < |catalog| && catalog[i].nombre == name
    requires forall j :: 0 <= j < i ==> catalog[j].nombre != name
    ensures Lookup(name, catalog) == catalog[i]
  {
  }

  /** A lookup of a real name yields `{}` exactly when no product has that name
      (which includes the empty catalog). */
  lemma LookupMissesExactlyAbsentNames(name: string, catalog: seq<Product>)
    ensures IsEmpty(Lookup(Some(name), catalog))
        <==> forall j :: 0 <= j < |catalog| ==> catalog[j].nombre != Some(name)
  {
  }

  /** A sale without `Producto` looks up `None`, which the first product without
      `nombre` matches; the lookup then yields `{}` exactly when that product is
      itself the empty dictionary. */
  lemma LookupOfMissingName(catalog: seq<Product>, i: nat)
    requires i < |catalog| && catalog[i].nombre == None
    requires forall j :: 0 <= j < i ==> catalog[j].nombre.Some?
    ensures IsEmpty(Lookup(None, catalog)) <==> catalog[i] == EmptyRecord
  {
  }

  /** Products appended after a match do not change the lookup. */
  lemma {:induction false} LookupIgnoresLaterProducts(name: Option<string>, catalog: seq<Product>, more: seq<Product>)
    requires exists j :: 0 <= j < |catalog| && catalog[j].nombre == name
    ensures Lookup(name, catalog + more) == Lookup(name, catalog)
  {
    var i := FirstMatch(name, catalog).value;
    var all := catalog + more;
    assert all[i] == catalog[i];
    forall j | 0 <= j < i
      ensures all[j].nombre != name
    {
      assert all[j] == catalog[j];
    }
    LookupIsFirstMatch(name, all, i);
  }
}
