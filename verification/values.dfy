/** Values exchanged with the carrier's API and the Python behaviour the client
    relies on when it reads them: dictionary `.get`, subscripting, iteration
    and hashing of lookup keys. Python exceptions become `Err` values. */
module Values {

  /** A parsed JSON document, as `response.json()` and the caller's
      dictionaries hold it. Objects are Python dictionaries. */
  datatype Json =
    | JNull
    | JBool(b: bool)
    | JNum(n: int)
    | JStr(s: string)
    | JArr(items: seq<Json>)
    | JObj(fields: map<string, Json>)

  /** The exceptions the client can raise while reshaping values. */
  datatype Error =
    | ValueError(message: string)   // raised explicitly by the client
    | KeyError(key: string)         // `d[k]` or `d.pop(k)` of a missing key
    | IndexError                    // a missing positional argument
    | TypeError                     // iterating, subscripting or hashing the wrong kind of value
    | AttributeError                // `.get` on a value that is not a dictionary
    | NameError(name: string)       // a local read before it was assigned

  datatype Result<+T> = Ok(value: T) | Err(error: Error)

  datatype Option<+T> = None | Some(value: T)

  /** An HTTP response: its status code and its parsed body. */
  datatype Response = Response(status: int, body: Json)

  datatype Authorization = Basic(credentials: string) | Bearer(token: Json)

  /** The header dictionary every request carries. */
  datatype Headers = Headers(accept: string, contentType: string, authorization: Authorization)

  /** One request sent to the API: its URL, its JSON body or query
      parameters, and its headers. */
  datatype Request = Request(url: string, payload: Json, headers: Headers)

  const DefaultUrl: string := "https://api.correios.com.br/"
  const JsonMediaType: string := "application/json"

  /** `d.get(key)` on a dictionary `d`. */
  function GetField(d: map<string, Json>, key: string): (v: Json)
    ensures key !in d ==> v == JNull
    ensures key in d ==> v == d[key]
  {
    if key in d then d[key] else JNull
  }

  /** `j.get(key)`: only a dictionary has `.get`. */
  function Get(j: Json, key: string): (r: Result<Json>)
    ensures r.Ok? <==> j.JObj?
    ensures r.Err? ==> r.error == AttributeError
    ensures j.JObj? ==> r.value == GetField(j.fields, key)
  {
    match j
    case JObj(d) => Ok(GetField(d, key))
    case _ => Err(AttributeError)
  }

  /** `j[key]` with a string key. */
  function Subscript(j: Json, key: string): (r: Result<Json>)
    ensures r.Ok? <==> j.JObj? && key in j.fields
    ensures r.Ok? ==> r.value == j.fields[key]
    ensures j.JObj? && key !in j.fields ==> r == Err(KeyError(key))
    ensures !j.JObj? ==> r == Err(TypeError)
  {
    match j
    case JObj(d) => if key in d then Ok(d[key]) else Err(KeyError(key))
    case _ => Err(TypeError)
  }

  /** The one-character strings a Python `for` loop visits in `s`. */
  function Chars(s: string): (cs: seq<Json>)
    ensures |cs| == |s|
    ensures forall i :: 0 <= i < |s| ==> cs[i] == JStr([s[i]])
  {
    seq(|s|, i requires 0 <= i < |s| => JStr([s[i]]))
  }

  /** The elements a Python `for` loop (or `list.extend`) visits in `j`. */
  function Iterate(j: Json): (r: Result<seq<Json>>)
    ensures j.JArr? ==> r == Ok(j.items)
    ensures j.JStr? ==> r == Ok(Chars(j.s)) && |r.value| == |j.s|
    ensures j.JObj? ==> (r.Ok? <==> j.fields == map[])
    ensures j.JNull? || j.JNum? || j.JBool? ==> r == Err(TypeError)
    ensures r.Ok? ==> j.JArr? || j.JStr? || j.JObj?
  {
    match j
    case JArr(items) => Ok(items)
    case JStr(s) => Ok(Chars(s))
    case JObj(d) => if d == map[] then Ok([]) else Err(TypeError)
    case _ => Err(TypeError)
  }

  /** `d.get(key)` where `key` is any value: a string may be found, a list
      or dictionary cannot be hashed, anything else is simply absent. */
  function Lookup(d: map<string, Json>, key: Json): (r: Result<Json>)
    ensures r.Ok? <==> !(key.JArr? || key.JObj?)
    ensures r.Err? ==> r.error == TypeError
    ensures key.JStr? ==> r == Ok(GetField(d, key.s))
    ensures r.Ok? && !key.JStr? ==> r.value == JNull
  {
    match key
    case JStr(s) => Ok(GetField(d, s))
    case JArr(_) => Err(TypeError)
    case JObj(_) => Err(TypeError)
    case _ => Ok(JNull)
  }

  /** Python's `name in s` on two strings. */
  predicate IsSubstring(name: string, s: string)
    decreases |s|
  {
    name <= s || (|s| > 0 && IsSubstring(name, s[1..]))
  }

  /** `"VD" in j`: list membership, substring or dictionary key. */
  function ContainsName(j: Json, name: string): (r: Result<bool>)
    ensures r.Ok? <==> j.JArr? || j.JStr? || j.JObj?
    ensures j.JArr? ==> r == Ok(JStr(name) in j.items)
    ensures j.JObj? ==> r == Ok(name in j.fields)
    ensures j.JStr? ==> r == Ok(IsSubstring(name, j.s))
  {
    match j
    case JArr(items) => Ok(JStr(name) in items)
    case JStr(s) => Ok(IsSubstring(name, s))
    case JObj(d) => Ok(name in d)
    case _ => Err(TypeError)
  }

  /** A batch request: lot `"1"` carrying the records, in order, under
      `listKey`. */
  function Batch(listKey: string, records: seq<map<string, Json>>): (body: Json)
    requires listKey != "idLote"
    ensures body.JObj? && body.fields.Keys == {"idLote", listKey}
    ensures body.fields["idLote"] == JStr("1")
    ensures body.fields[listKey].JArr?
    ensures |body.fields[listKey].items| == |records|
    ensures forall i :: 0 <= i < |records| ==> body.fields[listKey].items[i] == JObj(records[i])
  {
    JObj(map["idLote" := JStr("1"),
             listKey := JArr(seq(|records|, i requires 0 <= i < |records| => JObj(records[i])))])
  }
}
