/** The API client: the session fields, the authenticator that replaces the
    bearer token, and the five calls, each of which points `url` at its
    endpoint, builds its request from the session and the call's inputs,
    and reads the answer. The answer to each request is an input. */
module Client {
  import opened Values
  import opened Catalog
  import opened Tracking
  import opened Forecast
  import opened Pricing
  import opened PrePosting

  const ValidModes: set<string> := {"cartao_postagem", "contrato", ""}

  /** The authentication service every token endpoint lies under. */
  const AuthBase: string := DefaultUrl + "token/v1/autentica"

  /** The token endpoint of each authentication mode: the empty mode uses
      the authentication service itself, the other two a sub-path of it. */
  function AuthUrl(mode: string): (u: string)
    requires mode in ValidModes
    ensures AuthBase <= u
    ensures u == AuthBase <==> mode == ""
  {
    if mode == "cartao_postagem" then DefaultUrl + "token/v1/autentica/cartaopostagem"
    else if mode == "contrato" then DefaultUrl + "token/v1/autentica/contrato"
    else DefaultUrl + "token/v1/autentica"
  }

  /** Different modes ask different endpoints, so the endpoint identifies
      the mode. */
  lemma AuthUrlIdentifiesMode(m1: string, m2: string)
    requires m1 in ValidModes && m2 in ValidModes
    ensures AuthUrl(m1) == AuthUrl(m2) <==> m1 == m2
  {
  }

  /** The body sent in each mode: the postage card number, the contract
      number, or the empty string. */
  function AuthBody(mode: string, postCard: Json, contract: Json): Json
    requires mode in ValidModes
  {
    if mode == "cartao_postagem" then JObj(map["numero" := postCard])
    else if mode == "contrato" then JObj(map["numero" := contract])
    else JStr("")
  }

  /** The header dictionary of the token requests; `credentials` is the
      Base64 text of `user:access code`. */
  function BasicHeaders(credentials: string): Headers
  {
    Headers(JsonMediaType, JsonMediaType, Basic(credentials))
  }

  /** What a 201 answer returns once its token has been stored. */
  function TokenInfo(body: Json, token: Json): (r: Result<map<string, Json>>)
    ensures r.Ok? <==> body.JObj? && "emissao" in body.fields && "expiraEm" in body.fields
    ensures r.Ok? ==> r.value.Keys == {"token_refresh_date", "token_expire_date", "token"}
    ensures r.Ok? ==> r.value["token"] == token
    ensures r.Ok? ==> r.value["token_refresh_date"] == body.fields["emissao"]
    ensures r.Ok? ==> r.value["token_expire_date"] == body.fields["expiraEm"]
  {
    match Subscript(body, "emissao")
    case Err(e) => Err(e)
    case Ok(issued) =>
      match Subscript(body, "expiraEm")
      case Err(e) => Err(e)
      case Ok(expires) =>
        Ok(map["token_refresh_date" := issued, "token_expire_date" := expires, "token" := token])
  }

  class ApiClient {
    const user: string
    const accessCode: string
    const postCard: Json
    const contract: Json
    const nuDR: Json
    var token: Json
    var url: string

    constructor (user: string, accessCode: string, postCard: Json, contract: Json, token: Json, nuDR: Json)
      ensures this.user == user && this.accessCode == accessCode
      ensures this.postCard == postCard && this.contract == contract && this.nuDR == nuDR
      ensures this.token == token && this.url == ""
    {
      this.url := "";
      this.user := user;
      this.accessCode := accessCode;
      this.postCard := postCard;
      this.contract := contract;
      this.token := token;
      this.nuDR := nuDR;
    }

    /** The headers of every authenticated call: they carry the current token. */
    function Header(): (h: Headers)
      reads this
      ensures h.authorization == Bearer(token)
      ensures h.accept == JsonMediaType && h.contentType == JsonMediaType
    {
      Headers(JsonMediaType, JsonMediaType, Bearer(token))
    }

    /** Requests a new token in the given mode. An unknown mode raises before
        anything is sent and changes nothing; otherwise `url` points at the
        mode's endpoint, and only a 201 answer replaces the token. The token
        is stored before the dates are read, so a 201 answer without them
        raises with the new token already in place. `encode` is the Base64
        encoding of the credentials. */
    method RefreshToken(mode: string, encode: string -> string, response: Response)
      returns (sent: Option<Request>, r: Result<Option<map<string, Json>>>)
      modifies this
      ensures mode !in ValidModes ==> sent == None && r.Err? && r.error.ValueError?
      ensures mode !in ValidModes ==> token == old(token) && url == old(url)
      ensures mode in ValidModes ==>
                && url == AuthUrl(mode)
                && sent == Some(Request(url, AuthBody(mode, postCard, contract),
                                        BasicHeaders(encode(user + ":" + accessCode))))
      ensures mode in ValidModes && response.status != 201 ==> r == Ok(None) && token == old(token)
      ensures mode in ValidModes && response.status == 201 ==>
                match Subscript(response.body, "token")
                case Err(e) => r == Err(e) && token == old(token)
                case Ok(t) =>
                  && token == t
                  && (TokenInfo(response.body, t).Err? ==> r == Err(TokenInfo(response.body, t).error))
                  && (TokenInfo(response.body, t).Ok? ==> r == Ok(Some(TokenInfo(response.body, t).value)))
      ensures token != old(token) ==> mode in ValidModes && response.status == 201
      ensures r.Ok? && r.value.Some? ==>
                && r.value.value.Keys == {"token_refresh_date", "token_expire_date", "token"}
                && r.value.value["token"] == token
                && Header().authorization == Bearer(token)
    {
      var credentials := encode(user + ":" + accessCode);
      var headers := BasicHeaders(credentials);
      if mode !in ValidModes {
        return None, Err(ValueError("unrecognised authentication mode"));
      }
      url := AuthUrl(mode);
      sent := Some(Request(url, AuthBody(mode, postCard, contract), headers));
      if response.status == 201 {
        var granted := Subscript(response.body, "token");
        if granted.Err? {
          return sent, Err(granted.error);
        }
        token := granted.value;
        var info := TokenInfo(response.body, token);
        if info.Err? {
          return sent, Err(info.error);
        }
        r := Ok(Some(info.value));
      } else {
        // 400, 500 and every other status are reported and give no result
        r := Ok(None);
      }
    }

    /** Tracks the codes: one query per page of at most fifty codes; the
        objects of the pages answered with 200 are concatenated in page
        order and flattened. `responses[i]` answers the `i`-th query. */
    method TrackingPackage(queryType: Json, args: seq<Json>, responses: seq<Response>)
      returns (sent: seq<Request>, r: Result<seq<TrackingEntry>>)
      requires |responses| == NumPages(|TrackingCodes(args)|)
      modifies this`url
      ensures url == TrackingUrl
      ensures 1 <= |sent| <= |responses|
      ensures forall i :: 0 <= i < |sent| ==>
                sent[i] == Request(TrackingUrl, PageQuery(TrackingCodes(args), queryType, i), Header())
      ensures Accumulated(responses).Err? ==> r == Err(Accumulated(responses).error)
      ensures Accumulated(responses).Err? ==>
                Accumulated(responses[..|sent| - 1]).Ok? && Accumulated(responses[..|sent|]).Err?
      ensures Accumulated(responses).Ok? ==> |sent| == |responses| && r == FlattenAll(Accumulated(responses).value)
    {
      url := TrackingUrl;
      var codes := TrackingCodes(args);
      var queries, packages := FetchPages(codes, queryType, responses);
      var headers := Header();
      sent := seq(|queries|, i requires 0 <= i < |queries| => Request(TrackingUrl, queries[i], headers));
      if packages.Err? {
        return sent, Err(packages.error);
      }
      r := FlattenPackages(packages.value);
    }

    /** Asks for the delivery forecast of each product between two postal
        codes: one batch carrying one record per product, in order. The
        positional arguments are `cepOrigem, cepDestino, dataPostagem,
        dtEvento`; fewer than four raise before anything is sent. */
    method DeliveryForecast(template: map<string, Json>, types: seq<string>, args: seq<Json>, response: Response)
      returns (sent: Option<Request>, r: Result<Option<Json>>)
      modifies this`url
      ensures url == ForecastUrl
      ensures |args| < 4 ==> sent == None && r == Err(IndexError)
      ensures |args| >= 4 ==> r == Ok(ForecastResult(response))
      ensures |args| >= 4 ==>
                && sent.Some? && sent.value.url == ForecastUrl && sent.value.headers == Header()
                && var body := sent.value.payload;
                && body.JObj? && body.fields.Keys == {"idLote", "parametrosPrazo"}
                && body.fields["idLote"] == JStr("1")
                && body.fields["parametrosPrazo"].JArr?
                && |body.fields["parametrosPrazo"].items| == |types|
                && forall i :: 0 <= i < |types| ==>
                     && body.fields["parametrosPrazo"].items[i].JObj?
                     && IsForecastRecord(body.fields["parametrosPrazo"].items[i].fields, template, args, types[i])
    {
      url := ForecastUrl;
      var params := BuildForecastParams(template, types, args);
      if params.Err? {
        return None, Err(params.error);
      }
      sent := Some(Request(url, Batch("parametrosPrazo", params.value), Header()));
      r := Ok(ForecastResult(response));
    }

    /** Quotes the price of each catalogued product. The call must be one
        dictionary or keywords only; an invalid call raises before `url`
        changes. */
    method PricePackage(template: map<string, Json>, catalog: seq<CatalogEntry>, call: CallArgs, response: Response)
      returns (sent: Option<Request>, r: Result<Option<seq<map<string, Json>>>>)
      modifies this`url
      ensures PriceArguments(call).Err? ==> url == old(url) && sent == None && r == Err(PriceArguments(call).error)
      ensures PriceArguments(call).Ok? ==> url == PriceUrl
      ensures PriceRequestBody(template, catalog, call, contract, nuDR).Err? ==>
                sent == None && r == Err(PriceRequestBody(template, catalog, call, contract, nuDR).error)
      ensures PriceRequestBody(template, catalog, call, contract, nuDR).Ok? ==>
                && sent == Some(Request(PriceUrl, PriceRequestBody(template, catalog, call, contract, nuDR).value, Header()))
                && r == PriceResult(response)
    {
      var arguments := PriceArguments(call);
      if arguments.Err? {
        return None, Err(arguments.error);
      }
      var dados := arguments.value;
      url := PriceUrl;
      var plan := PreparePrice(template, dados, contract, nuDR);
      if plan.Err? {
        return None, Err(plan.error);
      }
      var prods := Iterate(plan.value.products);
      if prods.Err? {
        return None, Err(prods.error);
      }
      var params := BuildPriceParams(plan.value.template, catalog, plan.value.addOns, prods.value);
      if params.Err? {
        return None, Err(params.error);
      }
      sent := Some(Request(url, Batch("parametrosProduto", params.value), Header()));
      r := PriceResult(response);
    }

    /** Registers a pre-shipment: the add-on selection list of the requested
        product, merged with the shipment's fields and the held postage card
        into the template. A product missing from the catalog raises. */
    method PrePostObjReg(template: map<string, Json>, catalog: seq<CatalogEntry>, call: CallArgs, response: Response)
      returns (sent: Option<Request>, r: Result<Option<map<string, Json>>>)
      modifies this`url
      ensures url == PrePostUrl
      ensures
        var dados := PrePostArguments(call);
        ServicesFor(catalog, dados).Err? ==> sent == None && r == Err(ServicesFor(catalog, dados).error)
      ensures
        var dados := PrePostArguments(call);
        ServicesFor(catalog, dados).Ok? ==>
          && sent == Some(Request(PrePostUrl,
                                  JObj(PrePostBody(template, dados, postCard, ServicesFor(catalog, dados).value)),
                                  Header()))
          && r == PrePostResult(response)
    {
      var dados := PrePostArguments(call);
      url := PrePostUrl;
      var services := BuildServiceList(catalog, dados);
      if services.Err? {
        return None, Err(services.error);
      }
      sent := Some(Request(url, JObj(PrePostBody(template, dados, postCard, services.value)), Header()));
      r := PrePostResult(response);
    }
  }
}
