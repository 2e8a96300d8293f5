/** The pricer: checks how it was called, merges the caller's fields into
    the price template, drops the declared value when insurance was not
    asked for, and emits one parameter record per product found in the
    catalog with its add-on names translated. */
module Pricing {
  import opened Values
  import opened Catalog

  const PriceUrl: string := DefaultUrl + "preco/v1/nacional"

  /** How the method was called: positional arguments and keyword arguments. */
  datatype CallArgs = CallArgs(positional: seq<Json>, keywords: map<string, Json>)

  /** The fields of the call: one dictionary argument, or the keyword
      arguments when there is no positional one; anything else is refused. */
  function PriceArguments(call: CallArgs): (r: Result<map<string, Json>>)
    ensures r.Ok? <==> |call.positional| == 0 || (|call.positional| == 1 && call.positional[0].JObj?)
    ensures r.Err? ==> r.error.ValueError?
    ensures |call.positional| == 1 && call.positional[0].JObj? ==> r == Ok(call.positional[0].fields)
    ensures |call.positional| == 0 ==> r == Ok(call.keywords)
  {
    if |call.positional| == 1 && call.positional[0].JObj? then Ok(call.positional[0].fields)
    else if |call.positional| == 0 then Ok(call.keywords)
    else Err(ValueError("invalid arguments"))
  }

  /** The request inputs once the caller's fields are read: the product
      list, the add-on list and the merged template. */
  datatype PricePlan = PricePlan(products: Json, addOns: Json, template: map<string, Json>)

  /** The keys taken out of the caller's fields before the merge. */
  const PoppedKeys: set<string> := {"coProduto", "servicosAdicionais"}

  /** Merges the caller's fields (with the held contract number and regional
      code added, the product and add-on lists taken out) into the template,
      and drops `vlDeclarado` unless `"VD"` is among the add-ons. */
  function PreparePrice(template: map<string, Json>, dados: map<string, Json>, contract: Json, nuDR: Json)
    : (r: Result<PricePlan>)
    ensures "coProduto" !in dados ==> r == Err(KeyError("coProduto"))
    ensures "coProduto" in dados && "servicosAdicionais" !in dados ==> r == Err(KeyError("servicosAdicionais"))
    ensures r.Ok? <==>
      && "coProduto" in dados && "servicosAdicionais" in dados
      && ContainsName(dados["servicosAdicionais"], "VD").Ok?
      && (ContainsName(dados["servicosAdicionais"], "VD").value || "vlDeclarado" in template || "vlDeclarado" in dados)
    ensures ("coProduto" in dados && "servicosAdicionais" in dados
             && ContainsName(dados["servicosAdicionais"], "VD") == Ok(false)
             && "vlDeclarado" !in template && "vlDeclarado" !in dados) ==> r == Err(KeyError("vlDeclarado"))
    ensures r.Ok? ==> r.value.products == dados["coProduto"] && r.value.addOns == dados["servicosAdicionais"]
    ensures r.Ok? ==> "nuContrato" in r.value.template && r.value.template["nuContrato"] == contract
    ensures r.Ok? ==> "nuDR" in r.value.template && r.value.template["nuDR"] == nuDR
    ensures r.Ok? && ContainsName(r.value.addOns, "VD") != Ok(true) ==> "vlDeclarado" !in r.value.template
    ensures r.Ok? ==>
      var insured := ContainsName(r.value.addOns, "VD") == Ok(true);
      forall k :: k in dados && k !in PoppedKeys && k !in {"nuContrato", "nuDR"} && (insured || k != "vlDeclarado") ==>
        k in r.value.template && r.value.template[k] == dados[k]
    ensures r.Ok? ==>
      var insured := ContainsName(r.value.addOns, "VD") == Ok(true);
      forall k :: k in template && k !in dados && k !in {"nuContrato", "nuDR"} && (insured || k != "vlDeclarado") ==>
        k in r.value.template && r.value.template[k] == template[k]
    ensures r.Ok? ==> r.value.template.Keys <= template.Keys + dados.Keys + {"nuContrato", "nuDR"}
  {
    var d := dados["nuContrato" := contract]["nuDR" := nuDR];
    if "coProduto" !in d then Err(KeyError("coProduto"))
    else if "servicosAdicionais" !in d then Err(KeyError("servicosAdicionais"))
    else
      var t := template + (d - PoppedKeys);
      match ContainsName(d["servicosAdicionais"], "VD")
      case Err(e) => Err(e)
      case Ok(insured) =>
        if insured then Ok(PricePlan(d["coProduto"], d["servicosAdicionais"], t))
        else if "vlDeclarado" !in t then Err(KeyError("vlDeclarado"))
        else Ok(PricePlan(d["coProduto"], d["servicosAdicionais"], t - {"vlDeclarado"}))
  }

  /** `[servicos_adicionais.get(a) for a in names]`. */
  function Translate(addOns: map<string, Json>, names: seq<Json>): (r: Result<seq<Json>>)
    ensures r.Ok? <==> forall i :: 0 <= i < |names| ==> Lookup(addOns, names[i]).Ok?
    ensures r.Ok? ==> |r.value| == |names|
    ensures r.Ok? ==> forall i :: 0 <= i < |names| ==> r.value[i] == Lookup(addOns, names[i]).value
    decreases |names|
  {
    if names == [] then Ok([])
    else
      match Translate(addOns, names[..|names| - 1])
      case Err(e) => Err(e)
      case Ok(ids) =>
        match Lookup(addOns, names[|names| - 1])
        case Err(e) => Err(e)
        case Ok(id) => Ok(ids + [id])
  }

  /** The record emitted for a product whose catalog entry is `entry`. */
  function ProductParam(t: map<string, Json>, entry: CatalogEntry, addOns: Json): (r: Result<map<string, Json>>)
    ensures r.Ok? <==> Iterate(addOns).Ok? && Translate(entry.addOns, Iterate(addOns).value).Ok?
    ensures r.Ok? ==> r.value.Keys == t.Keys + PoppedKeys
    ensures r.Ok? ==> r.value["coProduto"] == JStr(entry.cod)
    ensures r.Ok? ==> r.value["servicosAdicionais"] == JArr(Translate(entry.addOns, Iterate(addOns).value).value)
    ensures r.Ok? ==> |r.value["servicosAdicionais"].items| == |Iterate(addOns).value|
    ensures r.Ok? ==> forall k :: k in t && k !in PoppedKeys ==> r.value[k] == t[k]
  {
    match Iterate(addOns)
    case Err(e) => Err(e)
    case Ok(names) =>
      match Translate(entry.addOns, names)
      case Err(e) => Err(e)
      case Ok(ids) => Ok(t["coProduto" := JStr(entry.cod)]["servicosAdicionais" := JArr(ids)])
  }

  /** The catalog entries of the products found in the catalog, in request
      order, each the first entry with that code. */
  function Matched(catalog: seq<CatalogEntry>, prods: seq<Json>): (es: seq<CatalogEntry>)
    ensures |es| <= |prods|
    ensures forall e :: e in es ==> e in catalog && JStr(e.cod) in prods
    decreases |prods|
  {
    if prods == [] then []
    else
      var last := prods[|prods| - 1];
      match FirstMatch(catalog, last)
      case None => Matched(catalog, prods[..|prods| - 1])
      case Some(i) => Matched(catalog, prods[..|prods| - 1]) + [catalog[i]]
  }

  /** Matching keeps request order: the matches of two stretches of
      products are the matches of each, one after the other. */
  lemma {:induction false} MatchedConcat(catalog: seq<CatalogEntry>, a: seq<Json>, b: seq<Json>)
    ensures Matched(catalog, a + b) == Matched(catalog, a) + Matched(catalog, b)
    decreases |b|
  {
    if b == [] {
      assert a + b == a;
    } else {
      var init, last := b[..|b| - 1], b[|b| - 1];
      MatchedConcat(catalog, a, init);
      assert (a + b)[..|a + b| - 1] == a + init;
      assert (a + b)[|a + b| - 1] == last;
      var found := FirstMatch(catalog, last);
      var tail := if found.Some? then [catalog[found.value]] else [];
      assert Matched(catalog, a + b) == Matched(catalog, a + init) + tail;
      assert Matched(catalog, b) == Matched(catalog, init) + tail;
    }
  }

  /** A product with no catalog entry is skipped; one with an entry adds
      exactly the first matching entry. */
  lemma MatchedOne(catalog: seq<CatalogEntry>, prod: Json)
    ensures FirstMatch(catalog, prod).None? ==> Matched(catalog, [prod]) == []
    ensures FirstMatch(catalog, prod).Some? ==> Matched(catalog, [prod]) == [catalog[FirstMatch(catalog, prod).value]]
  {
  }

  /** The records of the batch: one per matched product, in order. */
  function PriceParams(t: map<string, Json>, catalog: seq<CatalogEntry>, addOns: Json, prods: seq<Json>)
    : (r: Result<seq<map<string, Json>>>)
    decreases |prods|
  {
    if prods == [] then Ok([])
    else
      var last := prods[|prods| - 1];
      match PriceParams(t, catalog, addOns, prods[..|prods| - 1])
      case Err(e) => Err(e)
      case Ok(params) =>
        match FirstMatch(catalog, last)
        case None => Ok(params)
        case Some(i) =>
          match ProductParam(t, catalog[i], addOns)
          case Err(e) => Err(e)
          case Ok(p) => Ok(params + [p])
  }

  /** The batch has one record per matched product, in request order, each
      built from that product's first catalog entry. */
  lemma {:induction false} PriceParamsRecords(t: map<string, Json>, catalog: seq<CatalogEntry>, addOns: Json,
                                              prods: seq<Json>)
    ensures var r := PriceParams(t, catalog, addOns, prods);
            && (r.Ok? ==> |r.value| == |Matched(catalog, prods)|)
            && (r.Ok? ==> forall j :: 0 <= j < |r.value| ==>
                            ProductParam(t, Matched(catalog, prods)[j], addOns) == Ok(r.value[j]))
            && (Matched(catalog, prods) == [] ==> r == Ok([]))
            && (r.Ok? <==> forall e :: e in Matched(catalog, prods) ==> ProductParam(t, e, addOns).Ok?)
    decreases |prods|
  {
    if prods != [] {
      PriceParamsRecords(t, catalog, addOns, prods[..|prods| - 1]);
    }
  }

  /** The product loop: for each product, the catalog loop finds its entry
      and the record is appended; unmatched products are skipped. */
  method BuildPriceParams(t: map<string, Json>, catalog: seq<CatalogEntry>, addOns: Json, prods: seq<Json>)
    returns (r: Result<seq<map<string, Json>>>)
    ensures r == PriceParams(t, catalog, addOns, prods)
  {
    var params: seq<map<string, Json>> := [];
    var i := 0;
    while i < |prods|
      invariant 0 <= i <= |prods|
      invariant PriceParams(t, catalog, addOns, prods[..i]) == Ok(params)
    {
      var next := AddProduct(t, catalog, addOns, prods, i, params);
      if next.Err? {
        PriceFailureSticks(t, catalog, addOns, prods, i + 1, |prods|);
        assert prods[..|prods|] == prods;
        return next;
      }
      params := next.value;
      i := i + 1;
    }
    assert prods[..|prods|] == prods;
    r := Ok(params);
  }

  /** One pass of the product loop: the catalog loop looks up product `i`
      and, when it is found, its record is appended to `params`. */
  method AddProduct(t: map<string, Json>, catalog: seq<CatalogEntry>, addOns: Json, prods: seq<Json>, i: nat,
                    params: seq<map<string, Json>>)
    returns (r: Result<seq<map<string, Json>>>)
    requires i < |prods| && PriceParams(t, catalog, addOns, prods[..i]) == Ok(params)
    ensures r == PriceParams(t, catalog, addOns, prods[..i + 1])
  {
    PriceParamsStep(t, catalog, addOns, prods, i);
    var found := FindService(catalog, prods[i]);
    if found.None? {
      return Ok(params);
    }
    var p := ProductParam(t, catalog[found.value], addOns);
    if p.Err? {
      return Err(p.error);
    }
    r := Ok(params + [p.value]);
  }

  /** One more product: the batch of the first `i + 1` products extends the
      batch of the first `i` by the record of product `i`, if it has one. */
  lemma PriceParamsStep(t: map<string, Json>, catalog: seq<CatalogEntry>, addOns: Json, prods: seq<Json>, i: nat)
    requires i < |prods|
    ensures var before := PriceParams(t, catalog, addOns, prods[..i]);
            var after := PriceParams(t, catalog, addOns, prods[..i + 1]);
            && (before.Err? ==> after == before)
            && (before.Ok? && FirstMatch(catalog, prods[i]).None? ==> after == before)
            && (before.Ok? && FirstMatch(catalog, prods[i]).Some? ==>
                  var p := ProductParam(t, catalog[FirstMatch(catalog, prods[i]).value], addOns);
                  && (p.Err? ==> after == Err(p.error))
                  && (p.Ok? ==> after == Ok(before.value + [p.value])))
  {
    assert prods[..i + 1][..i] == prods[..i];
  }

  lemma {:induction false} PriceFailureSticks(t: map<string, Json>, catalog: seq<CatalogEntry>, addOns: Json,
                                              prods: seq<Json>, k: nat, k': nat)
    requires k <= k' <= |prods| && PriceParams(t, catalog, addOns, prods[..k]).Err?
    ensures PriceParams(t, catalog, addOns, prods[..k']).Err?
    ensures PriceParams(t, catalog, addOns, prods[..k']).error == PriceParams(t, catalog, addOns, prods[..k]).error
    decreases k' - k
  {
    if k < k' {
      PriceFailureSticks(t, catalog, addOns, prods, k, k' - 1);
      assert prods[..k'][..k' - 1] == prods[..k' - 1];
    }
  }

  /** The whole outgoing batch of a call, or the error that stops it. */
  function PriceRequestBody(template: map<string, Json>, catalog: seq<CatalogEntry>, call: CallArgs,
                            contract: Json, nuDR: Json): Result<Json>
  {
    match PriceArguments(call)
    case Err(e) => Err(e)
    case Ok(dados) =>
      match PreparePrice(template, dados, contract, nuDR)
      case Err(e) => Err(e)
      case Ok(plan) =>
        match Iterate(plan.products)
        case Err(e) => Err(e)
        case Ok(prods) =>
          match PriceParams(plan.template, catalog, plan.addOns, prods)
          case Err(e) => Err(e)
          case Ok(params) => Ok(Batch("parametrosProduto", params))
  }

  /** One dictionary argument and the same fields given as keywords produce
      the same outgoing batch. */
  lemma MappingAndKeywordsAgree(template: map<string, Json>, catalog: seq<CatalogEntry>,
                                fields: map<string, Json>, ignored: map<string, Json>, contract: Json, nuDR: Json)
    ensures PriceRequestBody(template, catalog, CallArgs([JObj(fields)], ignored), contract, nuDR)
         == PriceRequestBody(template, catalog, CallArgs([], fields), contract, nuDR)
  {
  }

  /** The quote of one answered item: its product code and final price. */
  function Quote(item: Json): (r: Result<map<string, Json>>)
    ensures r.Ok? <==> item.JObj?
    ensures r.Ok? ==> r.value.Keys == {"coProduto", "preco"}
    ensures r.Ok? ==> r.value["coProduto"] == GetField(item.fields, "coProduto")
    ensures r.Ok? ==> r.value["preco"] == GetField(item.fields, "pcFinal")
  {
    match Get(item, "coProduto")
    case Err(e) => Err(e)
    case Ok(code) =>
      match Get(item, "pcFinal")
      case Err(e) => Err(e)
      case Ok(price) => Ok(map["coProduto" := code, "preco" := price])
  }

  /** `[{'coProduto': r.get('coProduto'), 'preco': r.get('pcFinal')} for r in items]`. */
  function Quotes(items: seq<Json>): (r: Result<seq<map<string, Json>>>)
    ensures r.Ok? <==> forall i :: 0 <= i < |items| ==> items[i].JObj?
    ensures r.Ok? ==> |r.value| == |items|
    ensures r.Ok? ==> forall i :: 0 <= i < |items| ==> Quote(items[i]) == Ok(r.value[i])
    decreases |items|
  {
    if items == [] then Ok([])
    else
      match Quotes(items[..|items| - 1])
      case Err(e) => Err(e)
      case Ok(qs) =>
        match Quote(items[|items| - 1])
        case Err(e) => Err(e)
        case Ok(q) => Ok(qs + [q])
  }

  /** A 200 answer gives the quotes of its items; any other status nothing. */
  function PriceResult(response: Response): (r: Result<Option<seq<map<string, Json>>>>)
    ensures response.status != 200 ==> r == Ok(None)
    ensures response.status == 200 && response.body.JArr? ==>
              (r.Ok? <==> Quotes(response.body.items).Ok?)
    ensures r.Ok? && r.value.Some? ==> response.status == 200
    ensures r.Ok? && r.value.Some? && response.body.JArr? ==> r.value.value == Quotes(response.body.items).value
    ensures response.status == 200 && r.Ok? ==> r.value.Some?
    ensures response.status == 200 && response.body.JArr? && Quotes(response.body.items).Ok? ==>
              r == Ok(Some(Quotes(response.body.items).value))
  {
    if response.status != 200 then Ok(None)
    else
      match Iterate(response.body)
      case Err(e) => Err(e)
      case Ok(items) =>
        match Quotes(items)
        case Err(e) => Err(e)
        case Ok(qs) => Ok(Some(qs))
  }
}
