/** The tracker: tracking codes are split into pages of at most fifty, one
    query is issued per page, the object lists of the pages answered with
    200 are concatenated, and every object's event list is flattened into
    five index-aligned columns. */
module Tracking {
  import opened Values

  /** The most codes one tracking query may carry. */
  const PageLimit: nat := 50

  const TrackingUrl: string := DefaultUrl + "srorastro/v1/objetos"

  // ---------------------------------------------------------------------
  // Normalising the arguments and paging the codes
  // ---------------------------------------------------------------------

  /** The codes to track: a single list or tuple argument stands for its
      elements, otherwise the arguments themselves are the codes. */
  function TrackingCodes(args: seq<Json>): seq<Json>
  {
    if |args| == 1 && args[0].JArr? then args[0].items else args
  }

  /** Passing the codes separately or as one list names the same codes. */
  lemma BothCallFormsAgree(codes: seq<Json>)
    requires !(|codes| == 1 && codes[0].JArr?)
    ensures TrackingCodes([JArr(codes)]) == codes
    ensures TrackingCodes(codes) == codes
  {
  }

  /** How many queries are issued for `n` codes: one when there are at most
      fifty, otherwise the ceiling of n / 50. */
  function NumPages(n: nat): (k: nat)
    ensures k >= 1
    ensures n <= PageLimit ==> k == 1
    ensures n > PageLimit ==> (k - 1) * PageLimit < n <= k * PageLimit
  {
    if n > PageLimit then (n + PageLimit - 1) / PageLimit else 1
  }

  function Min(a: int, b: int): int
  {
    if a <= b then a else b
  }

  /** Page `i` of the codes, `codes[50 * i : 50 * (i + 1)]`, clamped to the
      end of the sequence as a Python slice is. */
  function Page(codes: seq<Json>, i: nat): (p: seq<Json>)
    ensures |p| <= PageLimit
    ensures |p| == if |codes| <= i * PageLimit then 0 else Min(PageLimit, |codes| - i * PageLimit)
    ensures forall j :: 0 <= j < |p| ==> i * PageLimit + j < |codes| && p[j] == codes[i * PageLimit + j]
  {
    codes[Min(i * PageLimit, |codes|)..Min((i + 1) * PageLimit, |codes|)]
  }

  /** The first `k` pages, concatenated in order. */
  function Paged(codes: seq<Json>, k: nat): seq<Json>
  {
    if k == 0 then [] else Paged(codes, k - 1) + Page(codes, k - 1)
  }

  lemma {:induction false} PagedIsPrefix(codes: seq<Json>, k: nat)
    ensures Paged(codes, k) == codes[..Min(k * PageLimit, |codes|)]
  {
    if k > 0 {
      PagedIsPrefix(codes, k - 1);
      var lo, hi := Min((k - 1) * PageLimit, |codes|), Min(k * PageLimit, |codes|);
      assert codes[..lo] + codes[lo..hi] == codes[..hi];
    }
  }

  /** The pages, concatenated in order, give back exactly the codes. */
  lemma PagesCoverCodes(codes: seq<Json>)
    ensures Paged(codes, NumPages(|codes|)) == codes
  {
    PagedIsPrefix(codes, NumPages(|codes|));
  }

  /** The query parameters of page `i`. */
  function PageQuery(codes: seq<Json>, queryType: Json, i: nat): Json
  {
    JObj(map["codigosObjetos" := JArr(Page(codes, i)), "resultado" := queryType])
  }

  // ---------------------------------------------------------------------
  // Accumulating the objects of the answered pages
  // ---------------------------------------------------------------------

  /** What one page adds to the accumulated objects: the `objetos` list of a
      200 answer, nothing for any other status. */
  function PageObjects(r: Response): (objs: Result<seq<Json>>)
    ensures r.status != 200 ==> objs == Ok([])
    ensures r.status == 200 && r.body.JObj? && GetField(r.body.fields, "objetos").JArr? ==>
              objs == Ok(GetField(r.body.fields, "objetos").items)
    ensures r.status == 200 && !r.body.JObj? ==> objs == Err(AttributeError)
    ensures r.status == 200 && r.body.JObj? ==> objs == Iterate(GetField(r.body.fields, "objetos"))
  {
    if r.status != 200 then Ok([])
    else
      match Get(r.body, "objetos")
      case Err(e) => Err(e)
      case Ok(objetos) => Iterate(objetos)
  }

  /** Two stretches of pages in a row: the first failure wins, otherwise the
      objects are concatenated. */
  function Join(a: Result<seq<Json>>, b: Result<seq<Json>>): Result<seq<Json>>
  {
    if a.Err? then a else if b.Err? then b else Ok(a.value + b.value)
  }

  lemma JoinAssociative(a: Result<seq<Json>>, b: Result<seq<Json>>, c: Result<seq<Json>>)
    ensures Join(Join(a, b), c) == Join(a, Join(b, c))
  {
    if a.Ok? && b.Ok? && c.Ok? {
      assert (a.value + b.value) + c.value == a.value + (b.value + c.value);
    }
  }

  lemma JoinEmpty(a: Result<seq<Json>>)
    ensures Join(a, Ok([])) == a
    ensures Join(Ok([]), a) == a
  {
    if a.Ok? {
      assert a.value + [] == a.value;
      assert [] + a.value == a.value;
    }
  }

  /** The objects gathered from the answers to the pages, in page order. */
  function Accumulated(rs: seq<Response>): Result<seq<Json>>
  {
    if rs == [] then Ok([])
    else Join(Accumulated(rs[..|rs| - 1]), PageObjects(rs[|rs| - 1]))
  }

  lemma {:induction false} AccumulatedConcat(a: seq<Response>, b: seq<Response>)
    ensures Accumulated(a + b) == Join(Accumulated(a), Accumulated(b))
    decreases |b|
  {
    if b == [] {
      assert a + b == a;
      JoinEmpty(Accumulated(a));
    } else {
      var init, last := b[..|b| - 1], b[|b| - 1];
      AccumulatedConcat(a, init);
      assert (a + b)[..|a + b| - 1] == a + init;
      assert (a + b)[|a + b| - 1] == last;
      assert Accumulated(a + b) == Join(Accumulated(a + init), PageObjects(last));
      assert Accumulated(b) == Join(Accumulated(init), PageObjects(last));
      JoinAssociative(Accumulated(a), Accumulated(init), PageObjects(last));
    }
  }

  /** A page answered with anything but 200 contributes nothing and does not
      stop the pages after it. */
  lemma NonOkPageIgnored(rs: seq<Response>, i: nat)
    requires i < |rs| && rs[i].status != 200
    ensures Accumulated(rs) == Accumulated(rs[..i] + rs[i + 1..])
  {
    var before, page, after := rs[..i], [rs[i]], rs[i + 1..];
    assert page[..0] == [];
    assert Accumulated(page[..0]) == Ok([]);
    assert PageObjects(page[0]) == Ok([]);
    assert Accumulated(page) == Join(Ok([]), Ok([]));
    JoinEmpty(Ok([]));
    AccumulatedConcat(before, page);
    JoinEmpty(Accumulated(before));
    assert Accumulated(before + page) == Accumulated(before);
    assert rs == (before + page) + after;
    AccumulatedConcat(before + page, after);
    AccumulatedConcat(before, after);
  }

  /** When the first pages fail, the whole call fails with their error. */
  lemma FailedPrefixFails(rs: seq<Response>, i: nat)
    requires i <= |rs| && Accumulated(rs[..i]).Err?
    ensures Accumulated(rs) == Accumulated(rs[..i])
  {
    assert rs == rs[..i] + rs[i..];
    AccumulatedConcat(rs[..i], rs[i..]);
  }

  /** The page loop: one query per page; a page answered with 200 extends
      the objects with its `objetos`, any other status is only reported.
      `responses[i]` is the answer the API gives to the `i`-th query. */
  method FetchPages(codes: seq<Json>, queryType: Json, responses: seq<Response>)
    returns (queries: seq<Json>, packages: Result<seq<Json>>)
    requires |responses| == NumPages(|codes|)
    ensures packages == Accumulated(responses)
    ensures 1 <= |queries| <= |responses|
    ensures forall i :: 0 <= i < |queries| ==> queries[i] == PageQuery(codes, queryType, i)
    ensures packages.Ok? ==> |queries| == |responses|
    ensures packages.Err? ==> Accumulated(responses[..|queries| - 1]).Ok? && Accumulated(responses[..|queries|]).Err?
  {
    var n := 1;
    if |codes| > PageLimit {
      n := (|codes| + PageLimit - 1) / PageLimit;
    }
    var acc: seq<Json> := [];
    queries := [];
    var i := 0;
    while i < n
      invariant 0 <= i <= n == |responses|
      invariant |queries| == i
      invariant forall j :: 0 <= j < i ==> queries[j] == PageQuery(codes, queryType, j)
      invariant Accumulated(responses[..i]) == Ok(acc)
    {
      queries := queries + [PageQuery(codes, queryType, i)];
      assert responses[..i + 1][..i] == responses[..i];
      var next := ReadPage(responses[i], acc);
      if next.Err? {
        packages := next;
        FailedPrefixFails(responses, i + 1);
        return;
      }
      acc := next.value;
      i := i + 1;
    }
    assert responses[..n] == responses;
    packages := Ok(acc);
  }

  /** Reads the answer to one query: a 200 answer extends the objects with
      its `objetos`, any other status is only reported. */
  method ReadPage(response: Response, acc: seq<Json>) returns (r: Result<seq<Json>>)
    ensures r == Join(Ok(acc), PageObjects(response))
  {
    if response.status != 200 {
      JoinEmpty(Ok(acc));
      return Ok(acc);
    }
    var objetos := Get(response.body, "objetos");
    if objetos.Err? {
      return Err(objetos.error);
    }
    var items := Iterate(objetos.value);
    if items.Err? {
      return Err(items.error);
    }
    r := Ok(acc + items.value);
  }

  // ---------------------------------------------------------------------
  // Flattening the objects
  // ---------------------------------------------------------------------

  /** The five fields read from one event. */
  datatype EventRow = EventRow(dtHrCriado: Json, descricao: Json, tipo: Json, cidade: Json, uf: Json)

  /** Reads one event; `unidade` and its `endereco` must be dictionaries. */
  function EventOf(step: Json): (r: Result<EventRow>)
    ensures r.Err? ==> r.error == AttributeError
    ensures r.Ok? <==> (step.JObj? && GetField(step.fields, "unidade").JObj?
                        && GetField(GetField(step.fields, "unidade").fields, "endereco").JObj?)
    ensures r.Ok? ==>
      var unidade := GetField(step.fields, "unidade").fields;
      var endereco := GetField(unidade, "endereco").fields;
      r.value == EventRow(GetField(step.fields, "dtHrCriado"), GetField(step.fields, "descricao"),
                          GetField(unidade, "tipo"), GetField(endereco, "cidade"), GetField(endereco, "uf"))
  {
    if !step.JObj? then Err(AttributeError)
    else
      var unidade := GetField(step.fields, "unidade");
      if !unidade.JObj? then Err(AttributeError)
      else
        var endereco := GetField(unidade.fields, "endereco");
        if !endereco.JObj? then Err(AttributeError)
        else
          Ok(EventRow(GetField(step.fields, "dtHrCriado"), GetField(step.fields, "descricao"),
                      GetField(unidade.fields, "tipo"),
                      GetField(endereco.fields, "cidade"), GetField(endereco.fields, "uf")))
  }

  /** Reads the events in order; the first unreadable one fails the call. */
  function Events(steps: seq<Json>): (r: Result<seq<EventRow>>)
    ensures r.Ok? <==> forall i :: 0 <= i < |steps| ==> EventOf(steps[i]).Ok?
    ensures r.Err? ==> r.error == AttributeError
    ensures r.Ok? ==> |r.value| == |steps|
    ensures r.Ok? ==> forall i :: 0 <= i < |steps| ==> r.value[i] == EventOf(steps[i]).value
    decreases |steps|
  {
    if steps == [] then Ok([])
    else
      match Events(steps[..|steps| - 1])
      case Err(e) => Err(e)
      case Ok(rows) =>
        match EventOf(steps[|steps| - 1])
        case Err(e) => Err(e)
        case Ok(row) => Ok(rows + [row])
  }

  /** One flattened tracking result. */
  datatype TrackingEntry = TrackingEntry(
    codigo: Json,
    dtPrevista: Json,
    dtEvent: seq<Json>,
    description: seq<Json>,
    local: seq<Json>,
    cidade: seq<Json>,
    uf: seq<Json>)

  /** The five columns of a list of event rows. */
  function Columns(rows: seq<EventRow>): (seq<Json>, seq<Json>, seq<Json>, seq<Json>, seq<Json>)
  {
    (seq(|rows|, i requires 0 <= i < |rows| => rows[i].dtHrCriado),
     seq(|rows|, i requires 0 <= i < |rows| => rows[i].descricao),
     seq(|rows|, i requires 0 <= i < |rows| => rows[i].tipo),
     seq(|rows|, i requires 0 <= i < |rows| => rows[i].cidade),
     seq(|rows|, i requires 0 <= i < |rows| => rows[i].uf))
  }

  lemma ColumnsEmpty()
    ensures Columns([]) == ([], [], [], [], [])
  {
    var c := Columns([]);
    assert |c.0| == |c.1| == |c.2| == |c.3| == |c.4| == 0;
  }

  /** Appending a row appends its fields to the five columns. */
  lemma ColumnsAppend(rows: seq<EventRow>, row: EventRow)
    ensures var c := Columns(rows);
            Columns(rows + [row]) == (c.0 + [row.dtHrCriado], c.1 + [row.descricao], c.2 + [row.tipo],
                                      c.3 + [row.cidade], c.4 + [row.uf])
  {
    var c, d := Columns(rows), Columns(rows + [row]);
    assert d.0 == c.0 + [row.dtHrCriado];
    assert d.1 == c.1 + [row.descricao];
    assert d.2 == c.2 + [row.tipo];
    assert d.3 == c.3 + [row.cidade];
    assert d.4 == c.4 + [row.uf];
  }

  /** The error raised for an object without `eventos`: the message is stored
      under the key held by the local `description`, which is unassigned for
      the first object and an unhashable list once an earlier object had
      events. */
  function NoEventsError(descriptionBound: bool): Error
  {
    if descriptionBound then TypeError else NameError("description")
  }

  /** The flattened form of one object. */
  function PackageEntry(pkg: Json, descriptionBound: bool): (r: Result<TrackingEntry>)
    ensures !pkg.JObj? ==> r == Err(AttributeError)
    ensures pkg.JObj? && "eventos" !in pkg.fields ==> r == Err(NoEventsError(descriptionBound))
    ensures r.Ok? ==> pkg.JObj? && "eventos" in pkg.fields
    ensures r.Ok? <==> (pkg.JObj? && "eventos" in pkg.fields && Iterate(pkg.fields["eventos"]).Ok?
                        && Events(Iterate(pkg.fields["eventos"]).value).Ok?)
    ensures r.Ok? ==> r.value.codigo == GetField(pkg.fields, "codObjeto")
    ensures r.Ok? ==> r.value.dtPrevista == GetField(pkg.fields, "dtPrevista")
  {
    if !pkg.JObj? then Err(AttributeError)
    else if "eventos" !in pkg.fields then Err(NoEventsError(descriptionBound))
    else
      match Iterate(pkg.fields["eventos"])
      case Err(e) => Err(e)
      case Ok(steps) =>
        match Events(steps)
        case Err(e) => Err(e)
        case Ok(rows) =>
          var c := Columns(rows);
          Ok(TrackingEntry(GetField(pkg.fields, "codObjeto"), GetField(pkg.fields, "dtPrevista"),
                           c.0, c.1, c.2, c.3, c.4))
  }

  /** The five columns of an entry are index-aligned with the object's
      events: column position `i` holds the fields of event `i`. */
  lemma PackageEntryColumns(pkg: Json, descriptionBound: bool)
    ensures var r := PackageEntry(pkg, descriptionBound);
            r.Ok? ==>
              && pkg.JObj? && "eventos" in pkg.fields
              && Iterate(pkg.fields["eventos"]).Ok? && Events(Iterate(pkg.fields["eventos"]).value).Ok?
              && var steps := Iterate(pkg.fields["eventos"]).value;
                 var e := r.value;
                 && |e.dtEvent| == |e.description| == |e.local| == |e.cidade| == |e.uf| == |steps|
                 && forall i :: 0 <= i < |steps| ==>
                      EventOf(steps[i]) == Ok(EventRow(e.dtEvent[i], e.description[i], e.local[i], e.cidade[i], e.uf[i]))
  {
  }

  /** Flattens the objects in order; `description` is bound exactly when an
      earlier object was flattened, since every earlier one had events. */
  function FlattenAll(pkgs: seq<Json>): Result<seq<TrackingEntry>>
    decreases |pkgs|
  {
    if pkgs == [] then Ok([])
    else
      match FlattenAll(pkgs[..|pkgs| - 1])
      case Err(e) => Err(e)
      case Ok(entries) =>
        match PackageEntry(pkgs[|pkgs| - 1], |pkgs| > 1)
        case Err(e) => Err(e)
        case Ok(entry) => Ok(entries + [entry])
  }

  /** One entry per object, in the same order; the flattening succeeds
      exactly when every object flattens. */
  lemma {:induction false} FlattenAllEntries(pkgs: seq<Json>)
    ensures var r := FlattenAll(pkgs);
            && (r.Ok? <==> forall i :: 0 <= i < |pkgs| ==> PackageEntry(pkgs[i], i > 0).Ok?)
            && (r.Ok? ==> |r.value| == |pkgs|)
            && (r.Ok? ==> forall i :: 0 <= i < |pkgs| ==> r.value[i] == PackageEntry(pkgs[i], i > 0).value)
    decreases |pkgs|
  {
    if pkgs != [] {
      var n := |pkgs| - 1;
      var init := pkgs[..n];
      FlattenAllEntries(init);
      var before, last := FlattenAll(init), PackageEntry(pkgs[n], n > 0);
      if before.Err? {
        assert FlattenAll(pkgs) == before;
        var i :| 0 <= i < n && !PackageEntry(init[i], i > 0).Ok?;
        assert init[i] == pkgs[i];
      } else if last.Err? {
        assert FlattenAll(pkgs) == Err(last.error);
      } else {
        var entries := before.value + [last.value];
        assert FlattenAll(pkgs) == Ok(entries);
        forall i | 0 <= i < |pkgs|
          ensures PackageEntry(pkgs[i], i > 0).Ok? && entries[i] == PackageEntry(pkgs[i], i > 0).value
        {
          if i < n {
            assert init[i] == pkgs[i];
          }
        }
      }
    }
  }

  /** Once a prefix of the objects fails, longer prefixes fail the same way. */
  lemma {:induction false} FlattenFailureSticks(pkgs: seq<Json>, k: nat, k': nat)
    requires k <= k' <= |pkgs| && FlattenAll(pkgs[..k]).Err?
    ensures FlattenAll(pkgs[..k']) == FlattenAll(pkgs[..k])
    decreases k' - k
  {
    if k < k' {
      FlattenFailureSticks(pkgs, k, k' - 1);
      FlattenStep(pkgs, k' - 1);
    }
  }

  /** One more object: the first `i + 1` objects flatten to those of the
      first `i` followed by object `i`'s entry. */
  lemma FlattenStep(pkgs: seq<Json>, i: nat)
    requires i < |pkgs|
    ensures var before := FlattenAll(pkgs[..i]);
            var after := FlattenAll(pkgs[..i + 1]);
            && (before.Err? ==> after == before)
            && (before.Ok? && PackageEntry(pkgs[i], i > 0).Err? ==> after == Err(PackageEntry(pkgs[i], i > 0).error))
            && (before.Ok? && PackageEntry(pkgs[i], i > 0).Ok? ==>
                  after == Ok(before.value + [PackageEntry(pkgs[i], i > 0).value]))
  {
    assert pkgs[..i + 1][..i] == pkgs[..i];
  }

  /** The event loop for one object: appends each event's fields to the five
      lists. */
  method FlattenPackage(pkg: Json, descriptionBound: bool) returns (r: Result<TrackingEntry>)
    ensures r == PackageEntry(pkg, descriptionBound)
  {
    if !pkg.JObj? {
      return Err(AttributeError);
    }
    var codigo := GetField(pkg.fields, "codObjeto");
    if "eventos" !in pkg.fields {
      return Err(NoEventsError(descriptionBound));
    }
    var dtPrevista := GetField(pkg.fields, "dtPrevista");
    var eventos := Iterate(pkg.fields["eventos"]);
    if eventos.Err? {
      return Err(eventos.error);
    }
    var steps := eventos.value;
    var dtEvent, description, place, city, uf := [], [], [], [], [];
    ghost var rows: seq<EventRow> := [];
    ColumnsEmpty();
    var i := 0;
    while i < |steps|
      invariant 0 <= i <= |steps|
      invariant Events(steps[..i]) == Ok(rows)
      invariant (dtEvent, description, place, city, uf) == Columns(rows)
    {
      assert steps[..i + 1][..i] == steps[..i];
      var row := EventOf(steps[i]);
      if row.Err? {
        assert !Events(steps).Ok?;
        return Err(row.error);
      }
      dtEvent := dtEvent + [row.value.dtHrCriado];
      description := description + [row.value.descricao];
      place := place + [row.value.tipo];
      city := city + [row.value.cidade];
      uf := uf + [row.value.uf];
      ColumnsAppend(rows, row.value);
      rows := rows + [row.value];
      i := i + 1;
    }
    assert steps[..i] == steps;
    r := Ok(TrackingEntry(codigo, dtPrevista, dtEvent, description, place, city, uf));
  }

  /** The object loop: flattens every accumulated object in order. */
  method FlattenPackages(pkgs: seq<Json>) returns (r: Result<seq<TrackingEntry>>)
    ensures r == FlattenAll(pkgs)
  {
    var trackingList: seq<TrackingEntry> := [];
    var i := 0;
    while i < |pkgs|
      invariant 0 <= i <= |pkgs|
      invariant FlattenAll(pkgs[..i]) == Ok(trackingList)
    {
      FlattenStep(pkgs, i);
      var entry := FlattenPackage(pkgs[i], i > 0);
      if entry.Err? {
        FlattenFailureSticks(pkgs, i + 1, |pkgs|);
        assert pkgs[..|pkgs|] == pkgs;
        return Err(entry.error);
      }
      trackingList := trackingList + [entry.value];
      i := i + 1;
    }
    assert pkgs[..i] == pkgs;
    r := Ok(trackingList);
  }

  /** One code whose single page is answered with one object carrying one
      event gives one result whose five columns hold one element each. */
  lemma SingleCodeScenario(code: string, event: Json)
    requires EventOf(event).Ok?
    ensures
      var pkg := JObj(map["codObjeto" := JStr(code), "eventos" := JArr([event])]);
      var rs := [Response(200, JObj(map["objetos" := JArr([pkg])]))];
      && NumPages(|TrackingCodes([JStr(code)])|) == |rs|
      && Accumulated(rs) == Ok([pkg])
      && FlattenAll([pkg]).Ok?
      && |FlattenAll([pkg]).value| == 1
      && FlattenAll([pkg]).value[0].codigo == JStr(code)
      && |FlattenAll([pkg]).value[0].dtEvent| == |FlattenAll([pkg]).value[0].uf| == 1
  {
    var pkg := JObj(map["codObjeto" := JStr(code), "eventos" := JArr([event])]);
    var rs := [Response(200, JObj(map["objetos" := JArr([pkg])]))];
    assert rs[..0] == [];
    assert Accumulated(rs) == Join(Ok([]), Ok([pkg]));
    JoinEmpty(Ok([pkg]));
    assert PackageEntry(pkg, false).Ok?;
  }
}
