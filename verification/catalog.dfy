/** The static product catalog: for each product code, the carrier's
    identifier of every add-on service it accepts. */
module Catalog {
  import opened Values

  /** One catalog entry: the product code `cod` and the mapping
      `servicos_adicionais` from add-on names to carrier identifiers. */
  datatype CatalogEntry = CatalogEntry(cod: string, addOns: map<string, Json>)

  /** Whether catalog entry `e` is the one for product `prod` (a string
      code equals only the same string). */
  predicate Matches(e: CatalogEntry, prod: Json)
  {
    prod == JStr(e.cod)
  }

  /** The index of the first catalog entry for `prod`, if there is one. */
  function FirstMatch(catalog: seq<CatalogEntry>, prod: Json): (r: Option<nat>)
    ensures r.Some? ==> r.value < |catalog| && Matches(catalog[r.value], prod)
    ensures r.Some? ==> forall j :: 0 <= j < r.value ==> !Matches(catalog[j], prod)
    ensures r.None? ==> forall j :: 0 <= j < |catalog| ==> !Matches(catalog[j], prod)
    decreases |catalog|
  {
    if catalog == [] then None
    else if Matches(catalog[0], prod) then Some(0)
    else
      match FirstMatch(catalog[1..], prod)
      case None => None
      case Some(i) => Some(i + 1)
  }

  /** The catalog loop: scans the entries in order and stops at the first
      whose code equals `prod`. */
  method FindService(catalog: seq<CatalogEntry>, prod: Json) returns (found: Option<nat>)
    ensures found == FirstMatch(catalog, prod)
  {
    var i := 0;
    while i < |catalog|
      invariant 0 <= i <= |catalog|
      invariant forall j :: 0 <= j < i ==> !Matches(catalog[j], prod)
    {
      if prod == JStr(catalog[i].cod) {
        found := Some(i);
        FirstMatchUnique(catalog, prod, i);
        return;
      }
      i := i + 1;
    }
    found := None;
    FirstMatchUnique(catalog, prod, |catalog|);
  }

  /** The first-match conditions determine `FirstMatch` uniquely. */
  lemma FirstMatchUnique(catalog: seq<CatalogEntry>, prod: Json, i: nat)
    requires i <= |catalog|
    requires forall j :: 0 <= j < i ==> !Matches(catalog[j], prod)
    requires i < |catalog| ==> Matches(catalog[i], prod)
    ensures FirstMatch(catalog, prod) == if i < |catalog| then Some(i) else None
  {
  }
}
