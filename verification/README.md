# Correios API client — verified model

A Dafny model of `ApiClientCorreios`, a Python client for the REST API of
Correios, the Brazilian postal carrier. The client holds a session (user,
access code, postage card, contract number, regional code `nuDR`, bearer
`token`, current `url`) and offers five calls:

- `refresh_token`: asks for a bearer token in one of three modes and stores it;
- `tracking_package`: tracks codes in pages of at most fifty and flattens each
  object's events into five index-aligned lists;
- `delivery_forecast`: submits one forecast record per product, all built from
  one template;
- `price_package`: merges the caller's fields into the price template and emits
  one record per catalogued product with translated add-on services;
- `pre_post_obj_reg`: builds the add-on selection list and the pre-shipment
  record, and reads the generated identifiers from the answer.

The HTTP layer is abstracted: every call takes the answer it would receive
(`Response`: a status code and a parsed JSON body) as an input and returns the
request it sends, so that what is sent and what is returned can both be
stated. The product catalog and the request templates, which live in a data
module outside the client, are parameters. Python values are modelled by a
`Json` datatype, and the Python exceptions the code can raise (`ValueError`,
`KeyError`, `TypeError`, `AttributeError`, `NameError`, `IndexError`) by
`Err` results; "print and return None" is `Ok(None)`.

Files:

- `values.dfy` (`Values`): JSON values, errors, responses, requests, and the
  Python operations the client uses (`.get`, subscripting, iteration,
  `in`, hashing of lookup keys).
- `tracking.dfy` (`Tracking`): paging, accumulation and flattening.
- `catalog.dfy` (`Catalog`): the first-match catalog search.
- `forecast.dfy`, `pricing.dfy`, `preposting.dfy`: the request builders.
- `client.dfy` (`Client`): the `ApiClient` class with its `token` and `url`
  fields and the six methods.

Where the code and the documentation of the client disagree, the model follows
the code:

- An empty list of tracking codes is not rejected. It still issues one query
  with an empty code list, because one page is always requested.
- An object without events makes tracking raise. The code stores the message
  under the key held by the local `description`, which is unbound for the
  first object (`NameError`) and an unhashable list once an earlier object had
  events (`TypeError`). The documented result shape with a message key does
  not arise.
- In `refresh_token` the new token is stored before the issue and expiry dates
  are read. A 201 answer without those dates therefore raises with the token
  already replaced.

## Model

| member | source | states |
|---|---|---|
| `Tracking.BothCallFormsAgree` | ApiClientCorreio.py:178-181 | passing the codes as separate arguments or as one list names the same codes |
| `Tracking.NumPages` | ApiClientCorreio.py:183-186 | one query for at most fifty codes, otherwise the ceiling of n/50 (stated as (k-1)·50 < n ≤ k·50) |
| `Tracking.Page` | ApiClientCorreio.py:193 | page i holds at most fifty codes, namely the codes from position 50·i on, clamped at the end |
| `Tracking.PagedIsPrefix` | ApiClientCorreio.py:190-193 | the first k pages concatenated are the first min(50·k, n) codes |
| `Tracking.PagesCoverCodes` | ApiClientCorreio.py:183-193 | the pages concatenated in order give back exactly the codes |
| `Tracking.PageObjects` | ApiClientCorreio.py:197-208 | a page answered with anything but 200 adds nothing; a 200 page whose body is a dictionary adds whatever iterating its `objetos` gives (its list, or the error iterating raises); a body that is not a dictionary raises `AttributeError` |
| `Tracking.AccumulatedConcat` | ApiClientCorreio.py:188-208 | accumulating two stretches of pages is accumulating each and concatenating; the first failure wins |
| `Tracking.NonOkPageIgnored` | ApiClientCorreio.py:198-208 | removing a page answered with a non-200 status does not change the accumulated objects: it contributes nothing and does not stop later pages |
| `Tracking.FailedPrefixFails` | ApiClientCorreio.py:198-201 | once a page raises, the whole call fails with that error |
| `Tracking.FetchPages` | ApiClientCorreio.py:183-208 | the page loop issues the query of page i as its i-th request and yields the page-order concatenation of the 200 pages' objects; it stops right after a page that raises |
| `Tracking.ReadPage` | ApiClientCorreio.py:197-208 | reading one answer extends the objects gathered so far exactly as `PageObjects` describes |
| `Tracking.EventOf` | ApiClientCorreio.py:225-230 | an event is readable exactly when it, its `unidade` and its `endereco` are dictionaries, otherwise `AttributeError`; the row read is `dtHrCriado`, `descricao`, `unidade.tipo`, `endereco.cidade` and `endereco.uf` |
| `Tracking.Events` | ApiClientCorreio.py:225-230 | the events are read in order: one row per event, row i read from event i, failing if any event is unreadable |
| `Tracking.PackageEntry` | ApiClientCorreio.py:212-240 | the entry is built exactly when the object is a dictionary with an iterable `eventos` whose every event has the fields read; its `codigo` is `codObjeto` and its `dtPrevista` is `dtPrevista`; an object that is not a dictionary raises `AttributeError`, and one without `eventos` raises `NameError` or `TypeError` |
| `Tracking.PackageEntryColumns` | ApiClientCorreio.py:217-238 | the five columns of an entry have the event count as length, and position i holds the fields of event i |
| `Tracking.FlattenAllEntries` | ApiClientCorreio.py:210-244 | one entry per accumulated object, in the same order; it succeeds exactly when every object flattens |
| `Tracking.FlattenFailureSticks` | ApiClientCorreio.py:212-242 | an object that fails to flatten fails the whole result |
| `Tracking.FlattenPackage` | ApiClientCorreio.py:213-242 | the event loop appends each event's five fields to the five lists, giving the entry `PackageEntry` describes |
| `Tracking.FlattenPackages` | ApiClientCorreio.py:210-244 | the object loop gives the result `FlattenAll` describes |
| `Tracking.SingleCodeScenario` | ApiClientCorreio.py:178-244 | one code whose object has one event gives one entry with one-element columns |
| `Catalog.FirstMatch` | ApiClientCorreio.py:373-381 | the index of the first catalog entry whose `cod` equals the product; none when no entry matches |
| `Catalog.FindService` | ApiClientCorreio.py:373-381 | the catalog loop finds the entry `FirstMatch` describes: the first whose code equals the product, or none |
| `Forecast.BuildForecastParams` | ApiClientCorreio.py:284-295 | one record per product in order, each with `coProduto` equal to the product, `nuRequisicao` "1", and the same origin, destination, posting date and event date; fewer than four positional arguments raise `IndexError` |
| `Forecast.RecordsDifferOnlyInProduct` | ApiClientCorreio.py:287-295 | two records of one batch have the same keys and agree everywhere except `coProduto` |
| `Values.Batch` | ApiClientCorreio.py:297-300 | a batch has exactly the keys `idLote` ("1") and its list key (`parametrosPrazo` for forecasts, `parametrosProduto` for prices, lines 384-387), which holds the records in order |
| `Forecast.ForecastResult` | ApiClientCorreio.py:303-309 | a 200 answer is returned as it came; any other status gives nothing |
| `Pricing.PriceArguments` | ApiClientCorreio.py:343-353 | the call is accepted exactly when it has no positional argument or a single dictionary argument; otherwise `ValueError` |
| `Pricing.PreparePrice` | ApiClientCorreio.py:355-366 | a missing `coProduto` or `servicosAdicionais` raises `KeyError`; the template gains the caller's fields, the contract number and `nuDR`; `vlDeclarado` remains only when "VD" is among the add-ons, and a missing one to drop raises `KeyError` |
| `Pricing.Translate` | ApiClientCorreio.py:377 | one carrier identifier per requested add-on name, in order; an unknown name gives null |
| `Pricing.ProductParam` | ApiClientCorreio.py:372-379 | the record carries the catalog code as `coProduto` and an add-on list as long as the requested one; every other template field is unchanged |
| `Pricing.Matched` | ApiClientCorreio.py:370-381 | the matched catalog entries are at most as many as the products, come from the catalog and have codes among the products |
| `Pricing.MatchedConcat` | ApiClientCorreio.py:370-381 | matching keeps request order: the matches of two stretches of products are the matches of each, in turn |
| `Pricing.MatchedOne` | ApiClientCorreio.py:373-381 | a product without a catalog entry is skipped; one with an entry contributes its first matching entry |
| `Pricing.PriceParamsRecords` | ApiClientCorreio.py:368-381 | the batch is built exactly when every matched product's record can be built; it then has one record per matched product, in request order, each built from its first matching entry; with no product in the catalog it is empty |
| `Pricing.BuildPriceParams` | ApiClientCorreio.py:368-381 | the product loop with its catalog loop yields the records `PriceParams` describes |
| `Pricing.AddProduct` | ApiClientCorreio.py:372-381 | one pass of the product loop extends the records of the products before it as `PriceParams` does |
| `Pricing.PriceFailureSticks` | ApiClientCorreio.py:370-381 | a product whose record fails fails the whole batch |
| `Pricing.MappingAndKeywordsAgree` | ApiClientCorreio.py:343-349 | a single dictionary argument and the same fields given as keywords produce the same outgoing batch |
| `Pricing.Quote` | ApiClientCorreio.py:392 | each quote has exactly the keys `coProduto` and `preco`, taken from `coProduto` and `pcFinal` |
| `Pricing.Quotes` | ApiClientCorreio.py:392 | one quote per answered item, in order |
| `Pricing.PriceResult` | ApiClientCorreio.py:389-397 | a 200 answer never gives nothing; a 200 list answer gives exactly its quotes when every item reads as one, and raises otherwise; any other status gives nothing |
| `PrePosting.PrePostArguments` | ApiClientCorreio.py:462-465 | a single dictionary argument is the data; otherwise the keyword arguments are |
| `PrePosting.ServiceEntry` | ApiClientCorreio.py:475-484 | a VD entry carries `valorDeclarado` when one was supplied, an EV entry carries `orientacaoEntregaVizinho` when supplied, and any other entry carries only `codigoServicoAdicional` |
| `PrePosting.ServiceList` | ApiClientCorreio.py:473-484 | one selection entry per requested add-on, in order |
| `PrePosting.ServicesFor` | ApiClientCorreio.py:468-501 | the list is built exactly when the service has a catalog entry, the add-ons are iterable and each add-on is in that entry's table; it then holds, for each requested add-on in order, its selection entry under the first catalog entry of the requested service; with no such entry the call raises `NameError` |
| `PrePosting.BuildServiceList` | ApiClientCorreio.py:468-488 | the catalog loop and the add-on loop give the list `ServicesFor` describes |
| `PrePosting.ShipmentFields` | ApiClientCorreio.py:491-505 | the fifteen written fields are the selection list, the held postage card, and the call's fields: nine renamed (`servico` as `codigoServico`, `nNFe` as `numeroNotaFiscal`, `chNfe` as `chaveNFe`, `altura` as `alturaInformada`, `largura`, `comprimento`, `coleta`, `pagamento` and `reversa` likewise) and four under their own names |
| `PrePosting.PrePostBody` | ApiClientCorreio.py:494-511 | the record has the template's keys plus the fifteen written fields; the template's other fields are unchanged |
| `PrePosting.PrePostResult` | ApiClientCorreio.py:509-523 | a 200 answer never gives nothing: a dictionary body gives exactly the keys `id`, `codigoServico`, `numeroNotaFiscal`, `codigoObjeto` and `dataHora` with their values, another body raises; any other status gives nothing |
| `Client.AuthUrl` | ApiClientCorreio.py:51-101 | every token endpoint lies under `token/v1/autentica` of the service; only the empty mode uses that path bare |
| `Client.AuthUrlIdentifiesMode` | ApiClientCorreio.py:51-101 | two valid modes ask the same endpoint exactly when they are the same mode |
| `Client.TokenInfo` | ApiClientCorreio.py:58-64 | a 201 result has exactly the keys `token_refresh_date`, `token_expire_date` and `token`, with `token` the stored token |
| `Client.ApiClient.constructor` | ApiClientCorreio.py:10-17 | the session holds the given fields and an empty `url` |
| `Client.ApiClient.Header` | ApiClientCorreio.py:125-132 | every authenticated call carries the current token as its Bearer authorisation |
| `Client.ApiClient.RefreshToken` | ApiClientCorreio.py:20-123 | an unknown mode raises `ValueError`, sends nothing and changes neither `token` nor `url`; a valid mode sends one request to its endpoint; the token changes only on 201, and a result then has exactly three keys with `token` equal to the new token |
| `Client.ApiClient.TrackingPackage` | ApiClientCorreio.py:134-244 | request i carries page i of the codes with the current token; the result flattens the page-order objects of the 200 pages; when a page raises, it is the last page requested |
| `Client.ApiClient.DeliveryForecast` | ApiClientCorreio.py:247-309 | one batch with `idLote` "1" and one forecast record per product in order, sent with the current token; a 200 answer is passed through |
| `Client.ApiClient.PricePackage` | ApiClientCorreio.py:311-397 | an invalid call raises before `url` changes; otherwise the batch `PriceRequestBody` describes is sent and a 200 answer gives the quotes |
| `Client.ApiClient.PrePostObjReg` | ApiClientCorreio.py:400-523 | the record built from the template, the call's fields, the postage card and the selection list is sent; a 200 answer gives the five receipt fields |

## Left out

- The HTTP requests, JSON decoding of the answers and the printed diagnostics are not modelled. Each answer is an input, and a body that is not JSON is not modelled.
- The 400 and 500 statuses only change the printed message. They are modelled together with every other non-success status.
- The Base64 encoding of `user:access code` is a library call. It is a function parameter (`encode`) of `RefreshToken`.
- The catalog and the default templates come from a data module outside the client. They are parameters.
- The demonstration entry point and the loading of configuration from the environment are not modelled.
- The templates are module-level dictionaries that the client mutates in place, and it also mutates the caller's dictionary. That contamination between calls is not modelled: each call starts from the template it is given.
- `RefreshToken`: the mode is always passed explicitly. The Python default `'cartao_postagem'` is not modelled.
- `Header`: the header stores the token value itself. Its rendering as text by the f-string is not modelled.
- Iterating a non-empty dictionary is modelled as a `TypeError`. Python visits the keys in insertion order, which a Dafny map does not keep. This affects add-on lists, event lists and `objetos` given as dictionaries, the product list of `price_package` (ApiClientCorreio.py:370; the model's `PriceRequestBody` raises `TypeError` where Python would look up each key), and a price answer whose body is a dictionary (ApiClientCorreio.py:392; Python iterates its keys and raises `AttributeError` on the first `.get` of a string, the model's `PriceResult` raises `TypeError`).
- `FetchPages`: when a page's `objetos` is a non-empty dictionary, the source keeps requesting the remaining pages and only raises when flattening. The model stops at that page.
- `NumPages`: the source computes the ceiling in floating point. Rounding for astronomically long code lists is not modelled.
- JSON numbers are integers; floating-point values are not modelled.
- `BuildForecastParams`: product codes are strings. The `str()` rendering of other kinds of product code is not modelled.
- `Lookup`: only strings, lists and dictionaries are distinguished as lookup keys. Python's equality between numbers and booleans plays no part, because catalog keys are strings.
- The `query_type` values `U`, `T` and `P` are not checked by the source. The model passes the value through unchanged.
