/** The pre-shipment registrar: translates the requested add-on services of
    the product into the carrier's selection list, merges the shipment's
    fields into the pre-shipment template and reads the generated
    identifiers out of the answer. */
module PrePosting {
  import opened Values
  import opened Catalog
  import Pricing

  const PrePostUrl: string := DefaultUrl + "prepostagem/v1/prepostagens"

  /** The fields of the call: one dictionary argument, otherwise the keyword
      arguments (no call shape is refused). */
  function PrePostArguments(call: Pricing.CallArgs): (dados: map<string, Json>)
    ensures |call.positional| == 1 && call.positional[0].JObj? ==> dados == call.positional[0].fields
    ensures !(|call.positional| == 1 && call.positional[0].JObj?) ==> dados == call.keywords
  {
    if |call.positional| == 1 && call.positional[0].JObj? then call.positional[0].fields else call.keywords
  }

  const ServiceCodeKey: string := "codigoServicoAdicional"

  /** The selection entry of one add-on: its carrier identifier, plus the
      declared value for `VD` or the neighbour-delivery instructions for
      `EV` when the call supplies them. */
  function ServiceEntry(addOns: map<string, Json>, name: Json, dados: map<string, Json>): (r: Result<Json>)
    ensures r.Ok? <==> Lookup(addOns, name).Ok?
    ensures r.Err? ==> r.error == TypeError
    ensures r.Ok? ==> r.value.JObj? && ServiceCodeKey in r.value.fields
    ensures r.Ok? ==> r.value.fields[ServiceCodeKey] == Lookup(addOns, name).value
    ensures r.Ok? && name == JStr("VD") && GetField(dados, "valorDeclarado") != JNull ==>
              r.value.fields == map[ServiceCodeKey := Lookup(addOns, name).value,
                                    "valorDeclarado" := dados["valorDeclarado"]]
    ensures r.Ok? && name == JStr("EV") && GetField(dados, "orientacaoEntregaVizinho") != JNull ==>
              r.value.fields == map[ServiceCodeKey := Lookup(addOns, name).value,
                                    "orientacaoEntregaVizinho" := dados["orientacaoEntregaVizinho"]]
    ensures r.Ok? && !(name == JStr("VD") && GetField(dados, "valorDeclarado") != JNull)
                  && !(name == JStr("EV") && GetField(dados, "orientacaoEntregaVizinho") != JNull) ==>
              r.value.fields.Keys == {ServiceCodeKey}
  {
    match Lookup(addOns, name)
    case Err(e) => Err(e)
    case Ok(code) =>
      if name == JStr("VD") && GetField(dados, "valorDeclarado") != JNull then
        Ok(JObj(map[ServiceCodeKey := code, "valorDeclarado" := GetField(dados, "valorDeclarado")]))
      else if name == JStr("EV") && GetField(dados, "orientacaoEntregaVizinho") != JNull then
        Ok(JObj(map[ServiceCodeKey := code, "orientacaoEntregaVizinho" := GetField(dados, "orientacaoEntregaVizinho")]))
      else
        Ok(JObj(map[ServiceCodeKey := code]))
  }

  /** The selection list: one entry per requested add-on, in order. */
  function ServiceList(addOns: map<string, Json>, names: seq<Json>, dados: map<string, Json>): (r: Result<seq<Json>>)
    ensures r.Ok? <==> forall i :: 0 <= i < |names| ==> Lookup(addOns, names[i]).Ok?
    ensures r.Err? ==> r.error == TypeError
    ensures r.Ok? ==> |r.value| == |names|
    ensures r.Ok? ==> forall i :: 0 <= i < |names| ==> ServiceEntry(addOns, names[i], dados) == Ok(r.value[i])
    decreases |names|
  {
    if names == [] then Ok([])
    else
      match ServiceList(addOns, names[..|names| - 1], dados)
      case Err(e) => Err(e)
      case Ok(entries) =>
        match ServiceEntry(addOns, names[|names| - 1], dados)
        case Err(e) => Err(e)
        case Ok(entry) => Ok(entries + [entry])
  }

  /** The selection list of a call: built from the first catalog entry of
      the requested `servico`; with no such entry the list is never bound
      and reading it raises. */
  function ServicesFor(catalog: seq<CatalogEntry>, dados: map<string, Json>): (r: Result<seq<Json>>)
    ensures FirstMatch(catalog, GetField(dados, "servico")).None? ==> r == Err(NameError("serv_adc"))
    ensures r.Ok? <==>
      && FirstMatch(catalog, GetField(dados, "servico")).Some?
      && Iterate(GetField(dados, "codigosServicosAdicionais")).Ok?
      && var entry := catalog[FirstMatch(catalog, GetField(dados, "servico")).value];
         var names := Iterate(GetField(dados, "codigosServicosAdicionais")).value;
         forall i :: 0 <= i < |names| ==> Lookup(entry.addOns, names[i]).Ok?
    ensures r.Ok? ==> FirstMatch(catalog, GetField(dados, "servico")).Some?
    ensures r.Ok? ==> Iterate(GetField(dados, "codigosServicosAdicionais")).Ok?
    ensures r.Ok? ==> |r.value| == |Iterate(GetField(dados, "codigosServicosAdicionais")).value|
    ensures r.Ok? ==>
      var entry := catalog[FirstMatch(catalog, GetField(dados, "servico")).value];
      var names := Iterate(GetField(dados, "codigosServicosAdicionais")).value;
      forall i :: 0 <= i < |names| ==> ServiceEntry(entry.addOns, names[i], dados) == Ok(r.value[i])
  {
    match FirstMatch(catalog, GetField(dados, "servico"))
    case None => Err(NameError("serv_adc"))
    case Some(i) =>
      match Iterate(GetField(dados, "codigosServicosAdicionais"))
      case Err(e) => Err(e)
      case Ok(names) => ServiceList(catalog[i].addOns, names, dados)
  }

  /** The catalog loop with its add-on loop: finds the product's entry, then
      appends one selection entry per requested add-on. */
  method BuildServiceList(catalog: seq<CatalogEntry>, dados: map<string, Json>) returns (r: Result<seq<Json>>)
    ensures r == ServicesFor(catalog, dados)
  {
    var found := FindService(catalog, GetField(dados, "servico"));
    if found.None? {
      return Err(NameError("serv_adc"));
    }
    var entry := catalog[found.value];
    var requested := Iterate(GetField(dados, "codigosServicosAdicionais"));
    if requested.Err? {
      return Err(requested.error);
    }
    var names := requested.value;
    var servAdc: seq<Json> := [];
    var i := 0;
    while i < |names|
      invariant 0 <= i <= |names|
      invariant ServiceList(entry.addOns, names[..i], dados) == Ok(servAdc)
    {
      assert names[..i + 1][..i] == names[..i];
      var e := ServiceEntry(entry.addOns, names[i], dados);
      if e.Err? {
        assert !ServiceList(entry.addOns, names, dados).Ok?;
        return Err(e.error);
      }
      servAdc := servAdc + [e.value];
      i := i + 1;
    }
    assert names[..i] == names;
    r := Ok(servAdc);
  }

  /** The fields the client writes into the pre-shipment template. */
  const PrePostKeys: set<string> := {
    "destinatario", "remetente", "codigoServico", "numeroNotaFiscal", "chaveNFe",
    "numeroCartaoPostagem", "listaServicoAdicional", "pesoInformado", "alturaInformada",
    "larguraInformada", "comprimentoInformado", "solicitarColeta", "dataPrevistaPostagem",
    "modalidadePagamento", "logisticaReversa"}

  /** The value the client writes under template key `k`. */
  function ShipmentField(k: string, dados: map<string, Json>, postCard: Json, services: seq<Json>): Json
  {
    if k == "listaServicoAdicional" then JArr(services)
    else if k == "numeroCartaoPostagem" then postCard
    else if k == "codigoServico" then GetField(dados, "servico")
    else if k == "numeroNotaFiscal" then GetField(dados, "nNFe")
    else if k == "chaveNFe" then GetField(dados, "chNfe")
    else if k == "alturaInformada" then GetField(dados, "altura")
    else if k == "larguraInformada" then GetField(dados, "largura")
    else if k == "comprimentoInformado" then GetField(dados, "comprimento")
    else if k == "solicitarColeta" then GetField(dados, "coleta")
    else if k == "modalidadePagamento" then GetField(dados, "pagamento")
    else if k == "logisticaReversa" then GetField(dados, "reversa")
    else GetField(dados, k)  // destinatario, remetente, pesoInformado, dataPrevistaPostagem
  }

  /** The fields of the call written into the template. */
  function ShipmentFields(dados: map<string, Json>, postCard: Json, services: seq<Json>): (f: map<string, Json>)
    ensures f.Keys == PrePostKeys
    ensures f["listaServicoAdicional"] == JArr(services)
    ensures f["numeroCartaoPostagem"] == postCard
    ensures f["codigoServico"] == GetField(dados, "servico")
    ensures f["numeroNotaFiscal"] == GetField(dados, "nNFe")
    ensures f["chaveNFe"] == GetField(dados, "chNfe")
    ensures f["alturaInformada"] == GetField(dados, "altura")
    ensures f["larguraInformada"] == GetField(dados, "largura")
    ensures f["comprimentoInformado"] == GetField(dados, "comprimento")
    ensures f["solicitarColeta"] == GetField(dados, "coleta")
    ensures f["modalidadePagamento"] == GetField(dados, "pagamento")
    ensures f["logisticaReversa"] == GetField(dados, "reversa")
    ensures forall k :: k in {"destinatario", "remetente", "pesoInformado", "dataPrevistaPostagem"} ==> f[k] == GetField(dados, k)
  {
    map k | k in PrePostKeys :: ShipmentField(k, dados, postCard, services)
  }

  /** The pre-shipment record submitted: the template overlaid with the
      call's fields, the held postage card and the selection list. */
  function PrePostBody(template: map<string, Json>, dados: map<string, Json>, postCard: Json, services: seq<Json>)
    : (body: map<string, Json>)
    ensures body.Keys == template.Keys + PrePostKeys
    ensures forall k :: k in template && k !in PrePostKeys ==> body[k] == template[k]
    ensures body["listaServicoAdicional"] == JArr(services)
    ensures body["numeroCartaoPostagem"] == postCard
    ensures body["codigoServico"] == GetField(dados, "servico")
    ensures body["numeroNotaFiscal"] == GetField(dados, "nNFe")
  {
    template + ShipmentFields(dados, postCard, services)
  }

  /** The fields read out of a successful answer. */
  const ReceiptKeys: set<string> := {"id", "codigoServico", "numeroNotaFiscal", "codigoObjeto", "dataHora"}

  /** A 200 answer gives exactly the five receipt fields; any other status
      gives nothing. */
  function PrePostResult(response: Response): (r: Result<Option<map<string, Json>>>)
    ensures response.status != 200 ==> r == Ok(None)
    ensures response.status == 200 ==> (r.Ok? <==> response.body.JObj?)
    ensures r.Ok? && r.value.Some? ==> response.status == 200 && r.value.value.Keys == ReceiptKeys
    ensures response.status == 200 && r.Ok? ==> r.value.Some?
    ensures r.Ok? && r.value.Some? ==> forall k :: k in ReceiptKeys ==> r.value.value[k] == GetField(response.body.fields, k)
  {
    if response.status != 200 then Ok(None)
    else if !response.body.JObj? then Err(AttributeError)
    else Ok(Some(map k | k in ReceiptKeys :: GetField(response.body.fields, k)))
  }
}
