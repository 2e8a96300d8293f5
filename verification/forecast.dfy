/** The forecaster: one parameter record per product code, all built from
    one template and sharing the origin, destination and dates, submitted
    as a single batch. */
module Forecast {
  import opened Values

  const ForecastUrl: string := DefaultUrl + "prazo/v1/nacional"

  /** The fields the client writes into the template before the product loop. */
  const SharedKeys: set<string> := {"nuRequisicao", "dtEvento", "cepOrigem", "cepDestino", "dataPostagem"}

  /** The record built for one product from the template and the positional
      arguments `cepOrigem, cepDestino, dataPostagem, dtEvento`. */
  predicate IsForecastRecord(p: map<string, Json>, template: map<string, Json>, args: seq<Json>, prod: string)
    requires |args| >= 4
  {
    && p.Keys == template.Keys + SharedKeys + {"coProduto"}
    && p["coProduto"] == JStr(prod)
    && p["nuRequisicao"] == JStr("1")
    && p["cepOrigem"] == args[0]
    && p["cepDestino"] == args[1]
    && p["dataPostagem"] == args[2]
    && p["dtEvento"] == args[3]
    && forall k :: k in template && k !in SharedKeys && k != "coProduto" ==> p[k] == template[k]
  }

  /** The parameter loop: writes the shared fields into the template, then
      appends a copy per product with its code. Fewer than four positional
      arguments raise an `IndexError` before anything is built. */
  method BuildForecastParams(template: map<string, Json>, types: seq<string>, args: seq<Json>)
    returns (r: Result<seq<map<string, Json>>>)
    ensures r.Ok? <==> |args| >= 4
    ensures r.Err? ==> r.error == IndexError
    ensures r.Ok? ==> |r.value| == |types|
    ensures r.Ok? ==> forall i :: 0 <= i < |types| ==> IsForecastRecord(r.value[i], template, args, types[i])
  {
    if |args| < 4 {
      return Err(IndexError);
    }
    var t := template["nuRequisicao" := JStr("1")];
    t := t["dtEvento" := args[3]];
    t := t["cepOrigem" := args[0]];
    t := t["cepDestino" := args[1]];
    t := t["dataPostagem" := args[2]];
    var params: seq<map<string, Json>> := [];
    var i := 0;
    while i < |types|
      invariant 0 <= i <= |types|
      invariant |params| == i
      invariant forall j :: 0 <= j < i ==> IsForecastRecord(params[j], template, args, types[j])
    {
      var record := t["coProduto" := JStr(types[i])];
      params := params + [record];
      i := i + 1;
    }
    r := Ok(params);
  }

  /** Two records of one batch differ at most in their product code. */
  lemma RecordsDifferOnlyInProduct(p: map<string, Json>, q: map<string, Json>, template: map<string, Json>,
                                   args: seq<Json>, a: string, b: string)
    requires |args| >= 4
    requires IsForecastRecord(p, template, args, a) && IsForecastRecord(q, template, args, b)
    ensures p.Keys == q.Keys
    ensures forall k :: k in p && k != "coProduto" ==> p[k] == q[k]
    ensures p == q <==> a == b
  {
  }

  /** A 200 answer is returned as it came; any other status gives nothing. */
  function ForecastResult(response: Response): (r: Option<Json>)
    ensures r.Some? <==> response.status == 200
    ensures r.Some? ==> r.value == response.body
  {
    if response.status == 200 then Some(response.body) else None
  }
}
