/**
 * The flattening transform of the Beam pipeline: one line of JSON text, a
 * route with its direction `ida`, becomes one flat row per
 * (horario, paradero, servicio) combination of that direction.
 *
 * The source is a generator with three nested `for` loops inside a `try`.
 * Here each loop is a recursive function returning an `Emission`: the rows
 * yielded so far and, if the loop stopped on an exception, that exception.
 * Rows yielded before an exception stay yielded.
 */
module DataflowServicios {
  import opened JsonValue

  // ---------------------------------------------------------------------
  // The BigQuery table schema; every column is NULLABLE.
  // ---------------------------------------------------------------------

  datatype ColumnType = INTEGER | STRING | FLOAT | BOOLEAN | TIMESTAMP

  datatype Column = Column(name: string, kind: ColumnType)

  const TableSchema: seq<Column> := [
    Column("id", INTEGER),
    Column("tipoDia", STRING),
    Column("inicio", STRING),
    Column("fin", STRING),
    Column("paradero_id", INTEGER),
    Column("paradero_cod", STRING),
    Column("paradero_num", INTEGER),
    Column("paradero_name", STRING),
    Column("paradero_comuna", STRING),
    Column("paradero_latitud", FLOAT),
    Column("paradero_longitud", FLOAT),
    Column("servicio_id", INTEGER),
    Column("servicio_cod", STRING),
    Column("servicio_destino", STRING),
    Column("servicio_orden", INTEGER),
    Column("servicio_color", STRING),
    Column("empresa_nombre", STRING),
    Column("empresa_color", STRING),
    Column("recorrido_destino", STRING),
    Column("itinerario", BOOLEAN),
    Column("codigo_servicio", STRING),
    Column("timestamp", TIMESTAMP)
  ]

  // ---------------------------------------------------------------------
  // The values read at each loop level, and the row they make.
  // ---------------------------------------------------------------------

  /** The route-level values: `ida.id`, and `ida.horarios` and
      `ida.paraderos` before they are iterated. */
  datatype Route = Route(id: Json, horarios: Json, paraderos: Json)

  /** What the outer loop reads from one horario. */
  datatype Window = Window(tipoDia: Json, inicio: Json, fin: Json)

  /** What the middle loop reads from one paradero. */
  datatype Stop = Stop(id: Json, cod: Json, num: Json, name: Json, comuna: Json,
                       latitud: Json, longitud: Json)

  /** What the inner loop reads from one servicio. */
  datatype Service = Service(id: Json, cod: Json, destino: Json, orden: Json, color: Json,
                             empresaNombre: Json, empresaColor: Json,
                             recorridoDestino: Json, itinerario: Json, codigo: Json)

  /** One yielded dict; `timestamp` is the ISO-8601 text shared by the line. */
  datatype Row = Row(id: Json, window: Window, stop: Stop, service: Service, timestamp: string)

  /** The yielded dict as (key, value) pairs in insertion order: exactly the
      columns of the table schema, in schema order. */
  function Columns(r: Row): (cols: seq<(string, Json)>)
    ensures |cols| == |TableSchema|
    ensures forall n | 0 <= n < |cols| :: cols[n].0 == TableSchema[n].name
    ensures cols[0].1 == r.id && cols[|cols| - 1].1 == JStr(r.timestamp)
  {
    [("id", r.id),
     ("tipoDia", r.window.tipoDia),
     ("inicio", r.window.inicio),
     ("fin", r.window.fin),
     ("paradero_id", r.stop.id),
     ("paradero_cod", r.stop.cod),
     ("paradero_num", r.stop.num),
     ("paradero_name", r.stop.name),
     ("paradero_comuna", r.stop.comuna),
     ("paradero_latitud", r.stop.latitud),
     ("paradero_longitud", r.stop.longitud),
     ("servicio_id", r.service.id),
     ("servicio_cod", r.service.cod),
     ("servicio_destino", r.service.destino),
     ("servicio_orden", r.service.orden),
     ("servicio_color", r.service.color),
     ("empresa_nombre", r.service.empresaNombre),
     ("empresa_color", r.service.empresaColor),
     ("recorrido_destino", r.service.recorridoDestino),
     ("itinerario", r.service.itinerario),
     ("codigo_servicio", r.service.codigo),
     ("timestamp", JStr(r.timestamp))]
  }

  // ---------------------------------------------------------------------
  // Field extraction with get-with-default.
  // ---------------------------------------------------------------------

  /** `row.get('ida', {}).get(...)` for `id`, `horarios` and `paraderos`. */
  function ReadRoute(doc: Json): Result<Route>
  {
    if !doc.JObj? then Err(AttributeError)
    else
      var ida := Member(doc.fields, "ida", JObj(map[]));
      if !ida.JObj? then Err(AttributeError)
      else
        Ok(Route(Member(ida.fields, "id", JNull), Member(ida.fields, "horarios", JArr([])),
                 Member(ida.fields, "paraderos", JArr([]))))
  }

  /** The three `.get` calls on one horario. */
  function ReadWindow(h: Json): Result<Window>
  {
    match h
    case JObj(f) => Ok(Window(Member(f, "tipoDia", JNull), Member(f, "inicio", JNull), Member(f, "fin", JNull)))
    case _ => Err(AttributeError)
  }

  /** `pos` is absent, or it can be subscripted at 0 and at 1. */
  predicate PosReadable(fields: map<string, Json>) {
    "pos" in fields ==> Indexable(fields["pos"], 0) && Indexable(fields["pos"], 1)
  }

  /** The `.get` calls on one paradero, `pos[0]`, `pos[1]`, and the
      servicios the inner loop will visit. */
  function ReadStop(p: Json): Result<(Stop, seq<Json>)>
  {
    match p
    case JObj(f) =>
      var pos := Member(f, "pos", JArr([JNull, JNull]));
      var latitud :- Index(pos, 0);
      var longitud :- Index(pos, 1);
      var ss :- Elements(Member(f, "servicios", JArr([])));
      Ok((Stop(Member(f, "id", JNull), Member(f, "cod", JNull), Member(f, "num", JNull),
               Member(f, "name", JNull), Member(f, "comuna", JNull), latitud, longitud),
          ss))
    case _ => Err(AttributeError)
  }

  /** The `.get` calls on one servicio, including the two nested objects
      `negocio` and `recorrido`. */
  function ReadService(s: Json): Result<Service>
  {
    if !s.JObj? then Err(AttributeError)
    else
      var f := s.fields;
      var negocio := Member(f, "negocio", JObj(map[]));
      if !negocio.JObj? then Err(AttributeError)
      else
        var recorrido := Member(f, "recorrido", JObj(map[]));
        if !recorrido.JObj? then Err(AttributeError)
        else
          Ok(Service(Member(f, "id", JNull), Member(f, "cod", JNull), Member(f, "destino", JNull),
                     Member(f, "orden", JNull), Member(f, "color", JNull),
                     Member(negocio.fields, "nombre", JNull), Member(negocio.fields, "color", JNull),
                     Member(recorrido.fields, "destino", JNull),
                     Member(f, "itinerario", JNull), Member(f, "codigo", JNull)))
  }

  /** `row.get('ida', {})` raises unless the document is a dict and a
      present `ida` is a dict; absent keys give null and empty lists. */
  lemma RouteDefaults(doc: Json)
    ensures ReadRoute(doc).Ok? <==> doc.JObj? && ("ida" in doc.fields ==> doc.fields["ida"].JObj?)
    ensures ReadRoute(doc).Err? ==> ReadRoute(doc).error == AttributeError
    ensures ReadRoute(doc).Ok? && "ida" !in doc.fields ==>
              ReadRoute(doc).value == Route(JNull, JArr([]), JArr([]))
    ensures ReadRoute(doc).Ok? && "ida" in doc.fields ==>
              var ida, route := doc.fields["ida"].fields, ReadRoute(doc).value;
              && GetGives(ida, "id", JNull, route.id)
              && GetGives(ida, "horarios", JArr([]), route.horarios)
              && GetGives(ida, "paraderos", JArr([]), route.paraderos)
  {
  }

  /** A horario that is a dict gives its three fields, null when absent. */
  lemma WindowDefaults(h: Json)
    ensures ReadWindow(h).Ok? <==> h.JObj?
    ensures ReadWindow(h).Err? ==> ReadWindow(h).error == AttributeError
    ensures ReadWindow(h).Ok? ==>
              var w := ReadWindow(h).value;
              && GetGives(h.fields, "tipoDia", JNull, w.tipoDia)
              && GetGives(h.fields, "inicio", JNull, w.inicio)
              && GetGives(h.fields, "fin", JNull, w.fin)
  {
  }

  /** A paradero is read when it is a dict whose `pos`, if present, has two
      elements and whose `servicios`, if present, can be iterated. Without
      `pos` both coordinates are null; without `servicios` there are none. */
  lemma StopDefaults(p: Json)
    ensures ReadStop(p).Ok? <==> && p.JObj?
                                 && PosReadable(p.fields)
                                 && ("servicios" in p.fields ==> Iterable(p.fields["servicios"]))
    ensures ReadStop(p).Err? ==> ReadStop(p).error != JsonDecodeError
    ensures ReadStop(p).Ok? ==>
              var st := ReadStop(p).value.0;
              && GetGives(p.fields, "id", JNull, st.id)
              && GetGives(p.fields, "cod", JNull, st.cod)
              && GetGives(p.fields, "num", JNull, st.num)
              && GetGives(p.fields, "name", JNull, st.name)
              && GetGives(p.fields, "comuna", JNull, st.comuna)
    ensures ReadStop(p).Ok? && "pos" !in p.fields ==>
              ReadStop(p).value.0.latitud == JNull && ReadStop(p).value.0.longitud == JNull
    ensures ReadStop(p).Ok? && "pos" in p.fields && p.fields["pos"].JArr? ==>
              var pos, st := p.fields["pos"].items, ReadStop(p).value.0;
              st.latitud == pos[0] && st.longitud == pos[1]
    ensures ReadStop(p).Ok? && "servicios" !in p.fields ==> ReadStop(p).value.1 == []
    ensures ReadStop(p).Ok? && "servicios" in p.fields && p.fields["servicios"].JArr? ==>
              ReadStop(p).value.1 == p.fields["servicios"].items
  {
  }

  /** A servicio is read when it is a dict whose `negocio` and `recorrido`,
      if present, are dicts (a present null raises). Without `negocio` both
      empresa fields are null; without `recorrido` its destino is null. */
  lemma ServiceDefaults(s: Json)
    ensures ReadService(s).Ok? <==> && s.JObj?
                                    && ("negocio" in s.fields ==> s.fields["negocio"].JObj?)
                                    && ("recorrido" in s.fields ==> s.fields["recorrido"].JObj?)
    ensures ReadService(s).Err? ==> ReadService(s).error == AttributeError
    ensures ReadService(s).Ok? ==>
              var sv := ReadService(s).value;
              && GetGives(s.fields, "id", JNull, sv.id)
              && GetGives(s.fields, "cod", JNull, sv.cod)
              && GetGives(s.fields, "destino", JNull, sv.destino)
              && GetGives(s.fields, "orden", JNull, sv.orden)
              && GetGives(s.fields, "color", JNull, sv.color)
              && GetGives(s.fields, "itinerario", JNull, sv.itinerario)
              && GetGives(s.fields, "codigo", JNull, sv.codigo)
    ensures ReadService(s).Ok? && "negocio" !in s.fields ==>
              ReadService(s).value.empresaNombre == JNull && ReadService(s).value.empresaColor == JNull
    ensures ReadService(s).Ok? && "negocio" in s.fields ==>
              var negocio, sv := s.fields["negocio"].fields, ReadService(s).value;
              && GetGives(negocio, "nombre", JNull, sv.empresaNombre)
              && GetGives(negocio, "color", JNull, sv.empresaColor)
    ensures ReadService(s).Ok? && "recorrido" !in s.fields ==>
              ReadService(s).value.recorridoDestino == JNull
    ensures ReadService(s).Ok? && "recorrido" in s.fields ==>
              GetGives(s.fields["recorrido"].fields, "destino", JNull, ReadService(s).value.recorridoDestino)
  {
  }

  // ---------------------------------------------------------------------
  // The generator: three nested loops that stop at the first exception.
  // ---------------------------------------------------------------------

  /** The rows yielded, and the exception that ended the generator, if any
      (it is caught and logged; nothing escapes `process`). */
  datatype Emission = Emission(rows: seq<Row>, failure: Option<Error>)

  /** A loop step: the rows of the current element, then, unless that
      element raised, the rows of the remaining elements. */
  function Then(first: Emission, rest: Emission): Emission {
    if first.failure.Some? then first else Emission(first.rows + rest.rows, rest.failure)
  }

  /** `for servicio in servicios`: one row per servicio, until a servicio
      cannot be read. */
  function ServiceLoop(id: Json, w: Window, st: Stop, ss: seq<Json>, ts: string): (e: Emission)
    ensures |e.rows| <= |ss|
    ensures forall n | 0 <= n < |e.rows| ::
              ReadService(ss[n]).Ok? && e.rows[n] == Row(id, w, st, ReadService(ss[n]).value, ts)
    ensures e.failure.None? ==> |e.rows| == |ss|
    ensures e.failure.Some? ==> |e.rows| < |ss| && ReadService(ss[|e.rows|]) == Err(e.failure.value)
    decreases |ss|
  {
    if ss == [] then Emission([], None)
    else
      match ReadService(ss[0])
      case Err(err) => Emission([], Some(err))
      case Ok(sv) => Then(Emission([Row(id, w, st, sv, ts)], None), ServiceLoop(id, w, st, ss[1..], ts))
  }

  /** The servicios of a readable paradero, none for an unreadable one. */
  function ServiceItems(p: Json): (ss: seq<Json>)
    ensures p.JObj? && "servicios" !in p.fields ==> ss == []
  {
    match ReadStop(p)
    case Ok((_, ss)) => ss
    case Err(_) => []
  }

  /** The number of servicios over all the paraderos `ps`. */
  function ServiceTotal(ps: seq<Json>): nat
    decreases |ps|
  {
    if ps == [] then 0 else |ServiceItems(ps[0])| + ServiceTotal(ps[1..])
  }

  /** `for paradero in paraderos` inside one horario. */
  function StopLoop(id: Json, w: Window, ps: seq<Json>, ts: string): (e: Emission)
    ensures e.failure.None? ==> |e.rows| == ServiceTotal(ps)
    ensures e.failure != Some(JsonDecodeError)
    decreases |ps|
  {
    if ps == [] then Emission([], None)
    else
      match ReadStop(ps[0])
      case Err(err) => Emission([], Some(err))
      case Ok((st, ss)) => Then(ServiceLoop(id, w, st, ss, ts), StopLoop(id, w, ps[1..], ts))
  }

  /** The elements a `for` loop would visit, or none when it raises. */
  function ItemsOrEmpty(v: Json): seq<Json> {
    match Elements(v)
    case Ok(xs) => xs
    case Err(_) => []
  }

  /** `for horario in horarios`; `paraderos` is iterated anew for each
      horario, so it is only iterated at all when there is a horario. */
  function WindowLoop(id: Json, hs: seq<Json>, paraderos: Json, ts: string): (e: Emission)
    ensures e.failure != Some(JsonDecodeError)
    ensures hs == [] ==> e == Emission([], None)
    ensures hs != [] && ReadWindow(hs[0]).Err? ==> e == Emission([], Some(ReadWindow(hs[0]).error))
    ensures hs != [] && ReadWindow(hs[0]).Ok? && !Iterable(paraderos) ==> e.rows == [] && e.failure.Some?
    decreases |hs|
  {
    if hs == [] then Emission([], None)
    else
      match ReadWindow(hs[0])
      case Err(err) => Emission([], Some(err))
      case Ok(w) =>
        match Elements(paraderos)
        case Err(err) => Emission([], Some(err))
        case Ok(ps) => Then(StopLoop(id, w, ps, ts), WindowLoop(id, hs[1..], paraderos, ts))
  }

  /** `ida.id` of a document, null when `ida` or its `id` is absent. */
  function RouteId(doc: Json): Json {
    if doc.JObj? && "ida" in doc.fields && doc.fields["ida"].JObj? && "id" in doc.fields["ida"].fields
    then doc.fields["ida"].fields["id"]
    else JNull
  }

  /** `ExtractAndTransformData.process`: `parsed` is what `json.loads` made
      of the line (None when it raised `JSONDecodeError`), `timestamp` the
      value of `datetime.utcnow().isoformat()`. */
  function Process(parsed: Option<Json>, timestamp: string): (e: Emission)
    ensures parsed.None? ==> e == Emission([], Some(JsonDecodeError))
    ensures parsed.Some? ==> e.failure != Some(JsonDecodeError)
    ensures parsed.Some? && ReadRoute(parsed.value).Err? ==> e.rows == [] && e.failure.Some?
  {
    match parsed
    case None => Emission([], Some(JsonDecodeError))
    case Some(doc) =>
      match ReadRoute(doc)
      case Err(err) => Emission([], Some(err))
      case Ok(route) =>
        match Elements(route.horarios)
        case Err(err) => Emission([], Some(err))
        case Ok(hs) => WindowLoop(route.id, hs, route.paraderos, timestamp)
  }

  // ---------------------------------------------------------------------
  // The full expansion: the triple comprehension, in which an element that
  // cannot be read loses only its own rows.
  // ---------------------------------------------------------------------

  function ExpandService(id: Json, w: Window, st: Stop, s: Json, ts: string): seq<Row> {
    match ReadService(s)
    case Ok(sv) => [Row(id, w, st, sv, ts)]
    case Err(_) => []
  }

  function ExpandServices(id: Json, w: Window, st: Stop, ss: seq<Json>, ts: string): seq<Row>
    decreases |ss|
  {
    if ss == [] then [] else ExpandService(id, w, st, ss[0], ts) + ExpandServices(id, w, st, ss[1..], ts)
  }

  function ExpandStop(id: Json, w: Window, p: Json, ts: string): seq<Row> {
    match ReadStop(p)
    case Ok((st, ss)) => ExpandServices(id, w, st, ss, ts)
    case Err(_) => []
  }

  function ExpandStops(id: Json, w: Window, ps: seq<Json>, ts: string): seq<Row>
    decreases |ps|
  {
    if ps == [] then [] else ExpandStop(id, w, ps[0], ts) + ExpandStops(id, w, ps[1..], ts)
  }

  function ExpandWindow(id: Json, h: Json, paraderos: Json, ts: string): seq<Row> {
    match (ReadWindow(h), Elements(paraderos))
    case (Ok(w), Ok(ps)) => ExpandStops(id, w, ps, ts)
    case _ => []
  }

  function ExpandWindows(id: Json, hs: seq<Json>, paraderos: Json, ts: string): seq<Row>
    decreases |hs|
  {
    if hs == [] then [] else ExpandWindow(id, hs[0], paraderos, ts) + ExpandWindows(id, hs[1..], paraderos, ts)
  }

  function Expansion(doc: Json, ts: string): seq<Row> {
    match ReadRoute(doc)
    case Err(_) => []
    case Ok(route) =>
      match Elements(route.horarios)
      case Err(_) => []
      case Ok(hs) => ExpandWindows(route.id, hs, route.paraderos, ts)
  }

  // ---------------------------------------------------------------------
  // One timestamp and one route id for every row of a line.
  // ---------------------------------------------------------------------

  lemma {:induction false} StopLoopShares(id: Json, w: Window, ps: seq<Json>, ts: string)
    ensures forall r <- StopLoop(id, w, ps, ts).rows :: r.id == id && r.window == w && r.timestamp == ts
    decreases |ps|
  {
    if ps != [] && ReadStop(ps[0]).Ok? {
      StopLoopShares(id, w, ps[1..], ts);
    }
  }

  lemma {:induction false} WindowLoopShares(id: Json, hs: seq<Json>, paraderos: Json, ts: string)
    ensures forall r <- WindowLoop(id, hs, paraderos, ts).rows :: r.id == id && r.timestamp == ts
    decreases |hs|
  {
    if hs != [] && ReadWindow(hs[0]).Ok? && Elements(paraderos).Ok? {
      StopLoopShares(id, ReadWindow(hs[0]).value, Elements(paraderos).value, ts);
      WindowLoopShares(id, hs[1..], paraderos, ts);
    }
  }

  /** The timestamp is taken once per line: every row of the line carries
      it, and every row carries the line's `ida.id` (null when absent). */
  lemma RowsShareTimestampAndId(doc: Json, ts: string)
    ensures forall r <- Process(Some(doc), ts).rows :: r.timestamp == ts && r.id == RouteId(doc)
  {
    var route := ReadRoute(doc);
    if route.Ok? && Elements(route.value.horarios).Ok? {
      WindowLoopShares(route.value.id, Elements(route.value.horarios).value, route.value.paraderos, ts);
    }
  }

  // ---------------------------------------------------------------------
  // Partial emission: what was yielded is a prefix of the full expansion.
  // ---------------------------------------------------------------------

  lemma PrefixOfConcat(a: seq<Row>, b: seq<Row>, c: seq<Row>, d: seq<Row>)
    requires a == b && c <= d
    ensures a + c <= b + d
  {
    assert (b + d)[..|a + c|] == a + c;
  }

  lemma {:induction false} ServiceLoopIsPrefix(id: Json, w: Window, st: Stop, ss: seq<Json>, ts: string)
    ensures ServiceLoop(id, w, st, ss, ts).rows <= ExpandServices(id, w, st, ss, ts)
    ensures ServiceLoop(id, w, st, ss, ts).failure.None? ==>
              ServiceLoop(id, w, st, ss, ts).rows == ExpandServices(id, w, st, ss, ts)
    decreases |ss|
  {
    if ss != [] && ReadService(ss[0]).Ok? {
      ServiceLoopIsPrefix(id, w, st, ss[1..], ts);
      PrefixOfConcat(ExpandService(id, w, st, ss[0], ts), ExpandService(id, w, st, ss[0], ts),
                     ServiceLoop(id, w, st, ss[1..], ts).rows, ExpandServices(id, w, st, ss[1..], ts));
    }
  }

  lemma {:induction false} StopLoopIsPrefix(id: Json, w: Window, ps: seq<Json>, ts: string)
    ensures StopLoop(id, w, ps, ts).rows <= ExpandStops(id, w, ps, ts)
    ensures StopLoop(id, w, ps, ts).failure.None? ==>
              StopLoop(id, w, ps, ts).rows == ExpandStops(id, w, ps, ts)
    decreases |ps|
  {
    if ps != [] && ReadStop(ps[0]).Ok? {
      var (st, ss) := ReadStop(ps[0]).value;
      ServiceLoopIsPrefix(id, w, st, ss, ts);
      StopLoopIsPrefix(id, w, ps[1..], ts);
      var first := ServiceLoop(id, w, st, ss, ts);
      if first.failure.None? {
        PrefixOfConcat(first.rows, ExpandServices(id, w, st, ss, ts),
                       StopLoop(id, w, ps[1..], ts).rows, ExpandStops(id, w, ps[1..], ts));
      } else {
        assert first.rows <= ExpandServices(id, w, st, ss, ts) + ExpandStops(id, w, ps[1..], ts);
      }
    }
  }

  lemma {:induction false} WindowLoopIsPrefix(id: Json, hs: seq<Json>, paraderos: Json, ts: string)
    ensures WindowLoop(id, hs, paraderos, ts).rows <= ExpandWindows(id, hs, paraderos, ts)
    ensures WindowLoop(id, hs, paraderos, ts).failure.None? ==>
              WindowLoop(id, hs, paraderos, ts).rows == ExpandWindows(id, hs, paraderos, ts)
    decreases |hs|
  {
    if hs != [] && ReadWindow(hs[0]).Ok? && Elements(paraderos).Ok? {
      var w, ps := ReadWindow(hs[0]).value, Elements(paraderos).value;
      StopLoopIsPrefix(id, w, ps, ts);
      WindowLoopIsPrefix(id, hs[1..], paraderos, ts);
      var first := StopLoop(id, w, ps, ts);
      if first.failure.None? {
        PrefixOfConcat(first.rows, ExpandStops(id, w, ps, ts),
                       WindowLoop(id, hs[1..], paraderos, ts).rows, ExpandWindows(id, hs[1..], paraderos, ts));
      } else {
        assert first.rows <= ExpandStops(id, w, ps, ts) + ExpandWindows(id, hs[1..], paraderos, ts);
      }
    }
  }

  /** An exception mid-expansion stops the output, and what was yielded
      before it is a prefix of the full expansion; without an exception the
      output is the full expansion. */
  lemma EmittedRowsArePrefixOfExpansion(doc: Json, ts: string)
    ensures Process(Some(doc), ts).rows <= Expansion(doc, ts)
    ensures Process(Some(doc), ts).failure.None? ==> Process(Some(doc), ts).rows == Expansion(doc, ts)
  {
    if ReadRoute(doc).Ok? && Elements(ReadRoute(doc).value.horarios).Ok? {
      var route := ReadRoute(doc).value;
      WindowLoopIsPrefix(route.id, Elements(route.horarios).value, route.paraderos, ts);
    }
  }

  // ---------------------------------------------------------------------
  // Where an exception stops the output: every element before the first
  // one that raises keeps all its rows, the raising element contributes
  // the rows it yielded before raising, and nothing follows.
  // ---------------------------------------------------------------------

  /** A paradero that raises nowhere yields its full expansion. */
  lemma StopBlockExpands(id: Json, w: Window, p: Json, ts: string)
    requires StopBlock(id, w, p, ts).failure.None?
    ensures StopBlock(id, w, p, ts).rows == ExpandStop(id, w, p, ts)
  {
    var (st, ss) := ReadStop(p).value;
    ServiceLoopIsPrefix(id, w, st, ss, ts);
  }

  /** A horario that raises nowhere yields its full expansion. */
  lemma WindowBlockExpands(id: Json, h: Json, paraderos: Json, ts: string)
    requires WindowBlock(id, h, paraderos, ts).failure.None?
    ensures WindowBlock(id, h, paraderos, ts).rows == ExpandWindow(id, h, paraderos, ts)
  {
    StopLoopIsPrefix(id, ReadWindow(h).value, Elements(paraderos).value, ts);
  }

  /** The rows of `blocks`, one after another. */
  function Flat(blocks: seq<Emission>): seq<Row>
    decreases |blocks|
  {
    if blocks == [] then [] else blocks[0].rows + Flat(blocks[1..])
  }

  /** The first block that raises, or |blocks| when none does. */
  function FirstFailure(blocks: seq<Emission>): (j: nat)
    ensures j <= |blocks|
    ensures forall m | 0 <= m < j :: blocks[m].failure.None?
    ensures j < |blocks| ==> blocks[j].failure.Some?
    decreases |blocks|
  {
    if blocks == [] || blocks[0].failure.Some? then 0 else 1 + FirstFailure(blocks[1..])
  }

  /** A loop, exactly: the rows of every block before the first one that
      raises, then the rows that block yielded, ending with its exception;
      or, when no block raises, all the rows. */
  lemma {:induction false} ChainStops(blocks: seq<Emission>)
    ensures var j := FirstFailure(blocks);
            Chain(blocks) == if j < |blocks| then Emission(Flat(blocks[..j]) + blocks[j].rows, blocks[j].failure)
                             else Emission(Flat(blocks), None)
    decreases |blocks|
  {
    if blocks != [] && blocks[0].failure.None? {
      ChainStops(blocks[1..]);
      var j := FirstFailure(blocks);
      assert blocks[..j][0] == blocks[0] && blocks[..j][1..] == blocks[1..][..j - 1];
      if j < |blocks| {
        assert blocks[1..][j - 1] == blocks[j];
      }
    }
  }

  /** Paraderos none of which raises yield their full expansion. */
  lemma {:induction false} FlatStops(id: Json, w: Window, ps: seq<Json>, ts: string)
    requires forall m | 0 <= m < |ps| :: StopBlock(id, w, ps[m], ts).failure.None?
    ensures Flat(StopBlocks(id, w, ps, ts)) == ExpandStops(id, w, ps, ts)
    decreases |ps|
  {
    if ps != [] {
      StopBlocksCons(id, w, ps, ts);
      StopBlockExpands(id, w, ps[0], ts);
      assert forall m | 0 <= m < |ps[1..]| :: ps[1..][m] == ps[m + 1];
      FlatStops(id, w, ps[1..], ts);
    }
  }

  /** The paradero loop of one horario, exactly: when paradero j is the
      first to raise, the output is the full expansion of the paraderos
      before j, then the rows paradero j yielded, and it ends with
      paradero j's exception; otherwise it is the full expansion. */
  lemma StopLoopStops(id: Json, w: Window, ps: seq<Json>, ts: string)
    ensures var j := FirstFailure(StopBlocks(id, w, ps, ts));
            StopLoop(id, w, ps, ts) ==
              if j < |ps| then
                Emission(ExpandStops(id, w, ps[..j], ts) + StopBlock(id, w, ps[j], ts).rows,
                         StopBlock(id, w, ps[j], ts).failure)
              else Emission(ExpandStops(id, w, ps, ts), None)
  {
    var bs := StopBlocks(id, w, ps, ts);
    var j := FirstFailure(bs);
    StopLoopIsChain(id, w, ps, ts);
    ChainStops(bs);
    assert bs[..j] == StopBlocks(id, w, ps[..j], ts);
    forall m | 0 <= m < j
      ensures StopBlock(id, w, ps[..j][m], ts).failure.None?
    {
      StopBlocksAt(id, w, ps, ts, m);
    }
    FlatStops(id, w, ps[..j], ts);
    if j < |ps| {
      StopBlocksAt(id, w, ps, ts, j);
    } else {
      assert ps[..j] == ps;
    }
  }

  /** Horarios none of which raises yield their full expansion. */
  lemma {:induction false} FlatWindows(id: Json, hs: seq<Json>, paraderos: Json, ts: string)
    requires forall m | 0 <= m < |hs| :: WindowBlock(id, hs[m], paraderos, ts).failure.None?
    ensures Flat(WindowBlocks(id, hs, paraderos, ts)) == ExpandWindows(id, hs, paraderos, ts)
    decreases |hs|
  {
    if hs != [] {
      WindowBlocksCons(id, hs, paraderos, ts);
      WindowBlockExpands(id, hs[0], paraderos, ts);
      assert forall m | 0 <= m < |hs[1..]| :: hs[1..][m] == hs[m + 1];
      FlatWindows(id, hs[1..], paraderos, ts);
    }
  }

  /** The horario loop, exactly: when horario i is the first to raise, the
      output is the full expansion of the horarios before i, then the rows
      horario i yielded, and it ends with horario i's exception; otherwise
      it is the full expansion. */
  lemma WindowLoopStops(id: Json, hs: seq<Json>, paraderos: Json, ts: string)
    ensures var i := FirstFailure(WindowBlocks(id, hs, paraderos, ts));
            WindowLoop(id, hs, paraderos, ts) ==
              if i < |hs| then
                Emission(ExpandWindows(id, hs[..i], paraderos, ts) + WindowBlock(id, hs[i], paraderos, ts).rows,
                         WindowBlock(id, hs[i], paraderos, ts).failure)
              else Emission(ExpandWindows(id, hs, paraderos, ts), None)
  {
    var bs := WindowBlocks(id, hs, paraderos, ts);
    var i := FirstFailure(bs);
    WindowLoopIsChain(id, hs, paraderos, ts);
    ChainStops(bs);
    assert bs[..i] == WindowBlocks(id, hs[..i], paraderos, ts);
    forall m | 0 <= m < i
      ensures WindowBlock(id, hs[..i][m], paraderos, ts).failure.None?
    {
      WindowBlocksAt(id, hs, paraderos, ts, m);
    }
    FlatWindows(id, hs[..i], paraderos, ts);
    if i < |hs| {
      WindowBlocksAt(id, hs, paraderos, ts, i);
    } else {
      assert hs[..i] == hs;
    }
  }

  /** A decoded line that raises after its route was read: the horario
      that raises first keeps the exception, every horario before it is
      fully expanded, and nothing after it is yielded. Within that horario
      the same holds of its paraderos (StopLoopStops), and within a
      paradero of its servicios (ServiceLoop). */
  lemma LineStops(doc: Json, ts: string)
    requires Process(Some(doc), ts).failure.Some?
    requires ReadRoute(doc).Ok? && Elements(ReadRoute(doc).value.horarios).Ok?
    ensures var hs, paraderos := HorarioItems(doc), ReadRoute(doc).value.paraderos;
            var i := FirstFailure(WindowBlocks(RouteId(doc), hs, paraderos, ts));
            && i < |hs|
            && Process(Some(doc), ts).failure == WindowBlock(RouteId(doc), hs[i], paraderos, ts).failure
            && Process(Some(doc), ts).rows ==
                 ExpandWindows(RouteId(doc), hs[..i], paraderos, ts) + WindowBlock(RouteId(doc), hs[i], paraderos, ts).rows
  {
    var route := ReadRoute(doc).value;
    WindowLoopStops(route.id, Elements(route.horarios).value, route.paraderos, ts);
  }

  /** An example line: one horario, and two paraderos, the first with one
      servicio and the second with a `pos` of one element. */
  const ShortPosFirst: Json := JObj(map["servicios" := JArr([JObj(map[])])])
  const ShortPosSecond: Json := JObj(map["pos" := JArr([JInt(1)])])
  const ShortPosLine: Json :=
    JObj(map["ida" := JObj(map["horarios" := JArr([JObj(map[])]),
                               "paraderos" := JArr([ShortPosFirst, ShortPosSecond])])])

  lemma ShortPosStops(w: Window, ts: string)
    ensures |StopLoop(JNull, w, [ShortPosFirst, ShortPosSecond], ts).rows| == 1
    ensures StopLoop(JNull, w, [ShortPosFirst, ShortPosSecond], ts).failure == Some(IndexError)
  {
    var first := StopBlock(JNull, w, ShortPosFirst, ts);
    assert ReadStop(ShortPosFirst).Ok? && ReadStop(ShortPosFirst).value.1 == [JObj(map[])];
    assert first.failure.None? && |first.rows| == 1;
    assert StopBlock(JNull, w, ShortPosSecond, ts) == Emission([], Some(IndexError));
    StopLoopCons(JNull, w, [ShortPosFirst, ShortPosSecond], ts);
    StopLoopCons(JNull, w, [ShortPosSecond], ts);
  }

  /** On the example line the row of the first paradero's servicio stays
      emitted; then `pos[1]` of the second paradero raises IndexError, and
      nothing follows. */
  lemma ShortPosKeepsEarlierRow(ts: string)
    ensures |Process(Some(ShortPosLine), ts).rows| == 1
    ensures Process(Some(ShortPosLine), ts).failure == Some(IndexError)
  {
    var paraderos := JArr([ShortPosFirst, ShortPosSecond]);
    var h := JObj(map[]);
    assert ReadRoute(ShortPosLine) == Ok(Route(JNull, JArr([h]), paraderos));
    assert ReadWindow(h) == Ok(Window(JNull, JNull, JNull));
    ShortPosStops(Window(JNull, JNull, JNull), ts);
    WindowLoopCons(JNull, [h], paraderos, ts);
  }

  // ---------------------------------------------------------------------
  // Row count and row order of a line that expands without an exception.
  // ---------------------------------------------------------------------

  /** The horarios the outer loop visits. */
  function HorarioItems(doc: Json): (hs: seq<Json>)
    ensures doc.JObj? && "ida" !in doc.fields ==> hs == []
    ensures (doc.JObj? && "ida" in doc.fields && doc.fields["ida"].JObj?
             && "horarios" !in doc.fields["ida"].fields) ==> hs == []
  {
    match ReadRoute(doc)
    case Ok(route) => ItemsOrEmpty(route.horarios)
    case Err(_) => []
  }

  /** The paraderos the middle loop visits. */
  function ParaderoItems(doc: Json): (ps: seq<Json>)
    ensures doc.JObj? && "ida" !in doc.fields ==> ps == []
    ensures (doc.JObj? && "ida" in doc.fields && doc.fields["ida"].JObj?
             && "paraderos" !in doc.fields["ida"].fields) ==> ps == []
  {
    match ReadRoute(doc)
    case Ok(route) => ItemsOrEmpty(route.paraderos)
    case Err(_) => []
  }

  /** `i` blocks of `t` rows, i.e. i * t (see BlocksIsProduct). */
  function Blocks(i: nat, t: nat): nat {
    if i == 0 then 0 else t + Blocks(i - 1, t)
  }

  lemma {:induction false} BlocksIsProduct(i: nat, t: nat)
    ensures Blocks(i, t) == i * t
  {
    if i > 0 {
      BlocksIsProduct(i - 1, t);
      MultiplyOut(i - 1, t);
    }
  }

  lemma MultiplyOut(m: nat, t: nat)
    ensures (m + 1) * t == t + m * t
  {
  }

  lemma {:induction false} WindowLoopCount(id: Json, hs: seq<Json>, paraderos: Json, ts: string)
    requires WindowLoop(id, hs, paraderos, ts).failure.None?
    ensures |WindowLoop(id, hs, paraderos, ts).rows| == |hs| * ServiceTotal(ItemsOrEmpty(paraderos))
    decreases |hs|
  {
    if hs != [] {
      var w, ps := ReadWindow(hs[0]).value, Elements(paraderos).value;
      var first, rest := StopLoop(id, w, ps, ts), WindowLoop(id, hs[1..], paraderos, ts);
      assert WindowLoop(id, hs, paraderos, ts) == Then(first, rest);
      assert first.failure.None?;
      WindowLoopCount(id, hs[1..], paraderos, ts);
      MultiplyOut(|hs[1..]|, ServiceTotal(ps));
    }
  }

  /** |horarios| x (sum over paraderos of |servicios|) rows. */
  lemma RowCount(doc: Json, ts: string)
    requires Process(Some(doc), ts).failure.None?
    ensures |Process(Some(doc), ts).rows| == |HorarioItems(doc)| * ServiceTotal(ParaderoItems(doc))
  {
    var route := ReadRoute(doc).value;
    WindowLoopCount(route.id, Elements(route.horarios).value, route.paraderos, ts);
  }

  // ---------------------------------------------------------------------
  // Row order. Each loop is the chain of its iterations ("blocks"): when
  // no iteration raises, the rows of block j follow the rows of the blocks
  // before it.
  // ---------------------------------------------------------------------

  /** The iterations of a loop run one after another until one raises. */
  function Chain(blocks: seq<Emission>): Emission
    decreases |blocks|
  {
    if blocks == [] then Emission([], None) else Then(blocks[0], Chain(blocks[1..]))
  }

  /** The number of rows the first j blocks emit. */
  function RowsBefore(blocks: seq<Emission>, j: nat): nat
    requires j <= |blocks|
  {
    if j == 0 then 0 else RowsBefore(blocks, j - 1) + |blocks[j - 1].rows|
  }

  lemma {:induction false} RowsBeforeCons(blocks: seq<Emission>, j: nat)
    requires 0 < j <= |blocks|
    ensures RowsBefore(blocks, j) == |blocks[0].rows| + RowsBefore(blocks[1..], j - 1)
    decreases j
  {
    if j > 1 {
      RowsBeforeCons(blocks, j - 1);
      assert blocks[1..][j - 2] == blocks[j - 1];
    }
  }

  lemma ChainCons(blocks: seq<Emission>)
    requires blocks != []
    ensures Chain(blocks) == Then(blocks[0], Chain(blocks[1..]))
  {
  }

  /** When the chain `e` of `blocks` raised nowhere, block j raised nowhere
      either, and its rows sit in `e` right after the `before` rows of the
      blocks ahead of it. */
  lemma {:induction false} ChainAt(e: Emission, blocks: seq<Emission>, j: nat, before: nat, b: Emission, x: nat)
    requires e == Chain(blocks) && e.failure.None?
    requires j < |blocks| && b == blocks[j] && before == RowsBefore(blocks, j)
    ensures b.failure.None?
    ensures x < |b.rows| ==> before + x < |e.rows| && e.rows[before + x] == b.rows[x]
    decreases |blocks|
  {
    var rest := Chain(blocks[1..]);
    assert blocks[0].failure.None? && e.rows == blocks[0].rows + rest.rows;
    if j > 0 {
      RowsBeforeCons(blocks, j);
      ChainAt(rest, blocks[1..], j - 1, RowsBefore(blocks[1..], j - 1), b, x);
    }
  }

  /** One paradero: its `.get` calls, then the servicio loop. */
  function StopBlock(id: Json, w: Window, p: Json, ts: string): Emission {
    match ReadStop(p)
    case Err(err) => Emission([], Some(err))
    case Ok((st, ss)) => ServiceLoop(id, w, st, ss, ts)
  }

  function StopBlocks(id: Json, w: Window, ps: seq<Json>, ts: string): seq<Emission> {
    seq(|ps|, n requires 0 <= n < |ps| => StopBlock(id, w, ps[n], ts))
  }

  lemma StopBlocksAt(id: Json, w: Window, ps: seq<Json>, ts: string, j: nat)
    requires j < |ps|
    ensures j < |StopBlocks(id, w, ps, ts)| && StopBlocks(id, w, ps, ts)[j] == StopBlock(id, w, ps[j], ts)
  {
  }

  lemma StopBlocksCons(id: Json, w: Window, ps: seq<Json>, ts: string)
    requires ps != []
    ensures StopBlocks(id, w, ps, ts) != []
    ensures StopBlocks(id, w, ps, ts)[0] == StopBlock(id, w, ps[0], ts)
    ensures StopBlocks(id, w, ps, ts)[1..] == StopBlocks(id, w, ps[1..], ts)
  {
    assert StopBlocks(id, w, ps, ts)[1..] == StopBlocks(id, w, ps[1..], ts);
  }

  lemma StopLoopCons(id: Json, w: Window, ps: seq<Json>, ts: string)
    requires ps != []
    ensures StopLoop(id, w, ps, ts) == Then(StopBlock(id, w, ps[0], ts), StopLoop(id, w, ps[1..], ts))
  {
  }

  lemma {:induction false} StopLoopIsChain(id: Json, w: Window, ps: seq<Json>, ts: string)
    ensures StopLoop(id, w, ps, ts) == Chain(StopBlocks(id, w, ps, ts))
    decreases |ps|
  {
    if ps != [] {
      StopLoopIsChain(id, w, ps[1..], ts);
      StopLoopCons(id, w, ps, ts);
      StopBlocksCons(id, w, ps, ts);
      ChainCons(StopBlocks(id, w, ps, ts));
    }
  }

  /** A paradero whose block raised nowhere was read, and its block is the
      servicio loop over its servicios, one row each. */
  lemma StopBlockOk(id: Json, w: Window, p: Json, ts: string)
    requires StopBlock(id, w, p, ts).failure.None?
    ensures ReadStop(p).Ok?
    ensures StopBlock(id, w, p, ts) == ServiceLoop(id, w, ReadStop(p).value.0, ServiceItems(p), ts)
  {
  }

  lemma StopBlockSize(id: Json, w: Window, p: Json, ts: string)
    requires StopBlock(id, w, p, ts).failure.None?
    ensures |StopBlock(id, w, p, ts).rows| == |ServiceItems(p)|
  {
  }

  /** The number of servicios of the first j paraderos. */
  function ServicesBefore(ps: seq<Json>, j: nat): nat
    requires j <= |ps|
  {
    if j == 0 then 0 else ServicesBefore(ps, j - 1) + |ServiceItems(ps[j - 1])|
  }

  lemma {:induction false} RowsBeforeStops(id: Json, w: Window, ps: seq<Json>, ts: string, j: nat)
    requires Chain(StopBlocks(id, w, ps, ts)).failure.None?
    requires j <= |ps|
    ensures RowsBefore(StopBlocks(id, w, ps, ts), j) == ServicesBefore(ps, j)
    decreases j
  {
    if j > 0 {
      var bs := StopBlocks(id, w, ps, ts);
      RowsBeforeStops(id, w, ps, ts, j - 1);
      StopBlocksAt(id, w, ps, ts, j - 1);
      ChainAt(Chain(bs), bs, j - 1, RowsBefore(bs, j - 1), StopBlock(id, w, ps[j - 1], ts), 0);
      StopBlockSize(id, w, ps[j - 1], ts);
    }
  }

  /** The servicios of paradero j form a block that starts after the
      servicios of the paraderos before it. */
  lemma StopLoopAt(id: Json, w: Window, ps: seq<Json>, ts: string, j: nat, x: nat)
    requires StopLoop(id, w, ps, ts).failure.None?
    requires j < |ps|
    ensures StopBlock(id, w, ps[j], ts).failure.None?
    ensures x < |StopBlock(id, w, ps[j], ts).rows| ==>
              && ServicesBefore(ps, j) + x < |StopLoop(id, w, ps, ts).rows|
              && StopLoop(id, w, ps, ts).rows[ServicesBefore(ps, j) + x] == StopBlock(id, w, ps[j], ts).rows[x]
  {
    StopLoopIsChain(id, w, ps, ts);
    RowsBeforeStops(id, w, ps, ts, j);
    StopBlocksAt(id, w, ps, ts, j);
    ChainAt(StopLoop(id, w, ps, ts), StopBlocks(id, w, ps, ts), j, ServicesBefore(ps, j), StopBlock(id, w, ps[j], ts), x);
  }

  /** One horario: its `.get` calls, the iteration of `paraderos` it
      starts, then the paradero loop. */
  function WindowBlock(id: Json, h: Json, paraderos: Json, ts: string): Emission {
    match ReadWindow(h)
    case Err(err) => Emission([], Some(err))
    case Ok(w) =>
      match Elements(paraderos)
      case Err(err) => Emission([], Some(err))
      case Ok(ps) => StopLoop(id, w, ps, ts)
  }

  function WindowBlocks(id: Json, hs: seq<Json>, paraderos: Json, ts: string): seq<Emission> {
    seq(|hs|, n requires 0 <= n < |hs| => WindowBlock(id, hs[n], paraderos, ts))
  }

  lemma WindowBlocksAt(id: Json, hs: seq<Json>, paraderos: Json, ts: string, i: nat)
    requires i < |hs|
    ensures i < |WindowBlocks(id, hs, paraderos, ts)|
    ensures WindowBlocks(id, hs, paraderos, ts)[i] == WindowBlock(id, hs[i], paraderos, ts)
  {
  }

  lemma WindowBlocksCons(id: Json, hs: seq<Json>, paraderos: Json, ts: string)
    requires hs != []
    ensures WindowBlocks(id, hs, paraderos, ts) != []
    ensures WindowBlocks(id, hs, paraderos, ts)[0] == WindowBlock(id, hs[0], paraderos, ts)
    ensures WindowBlocks(id, hs, paraderos, ts)[1..] == WindowBlocks(id, hs[1..], paraderos, ts)
  {
    assert WindowBlocks(id, hs, paraderos, ts)[1..] == WindowBlocks(id, hs[1..], paraderos, ts);
  }

  lemma WindowLoopCons(id: Json, hs: seq<Json>, paraderos: Json, ts: string)
    requires hs != []
    ensures WindowLoop(id, hs, paraderos, ts) == Then(WindowBlock(id, hs[0], paraderos, ts), WindowLoop(id, hs[1..], paraderos, ts))
  {
  }

  lemma {:induction false} WindowLoopIsChain(id: Json, hs: seq<Json>, paraderos: Json, ts: string)
    ensures WindowLoop(id, hs, paraderos, ts) == Chain(WindowBlocks(id, hs, paraderos, ts))
    decreases |hs|
  {
    if hs != [] {
      WindowLoopIsChain(id, hs[1..], paraderos, ts);
      WindowLoopCons(id, hs, paraderos, ts);
      WindowBlocksCons(id, hs, paraderos, ts);
      ChainCons(WindowBlocks(id, hs, paraderos, ts));
    }
  }

  /** A horario whose block raised nowhere was read, and its block is the
      paradero loop, with one row per servicio over all paraderos. */
  lemma WindowBlockOk(id: Json, h: Json, paraderos: Json, ts: string)
    requires WindowBlock(id, h, paraderos, ts).failure.None?
    ensures ReadWindow(h).Ok?
    ensures WindowBlock(id, h, paraderos, ts) == StopLoop(id, ReadWindow(h).value, ItemsOrEmpty(paraderos), ts)
  {
  }

  lemma WindowBlockSize(id: Json, h: Json, paraderos: Json, ts: string)
    requires WindowBlock(id, h, paraderos, ts).failure.None?
    ensures |WindowBlock(id, h, paraderos, ts).rows| == ServiceTotal(ItemsOrEmpty(paraderos))
  {
  }

  /** Blocks that all emit `t` rows when they raise nowhere. */
  lemma {:induction false} RowsBeforeUniform(blocks: seq<Emission>, i: nat, t: nat)
    requires Chain(blocks).failure.None?
    requires i <= |blocks|
    requires forall n | 0 <= n < |blocks| :: blocks[n].failure.None? ==> |blocks[n].rows| == t
    ensures RowsBefore(blocks, i) == Blocks(i, t)
    decreases i
  {
    if i > 0 {
      RowsBeforeUniform(blocks, i - 1, t);
      ChainAt(Chain(blocks), blocks, i - 1, RowsBefore(blocks, i - 1), blocks[i - 1], 0);
    }
  }

  lemma RowsBeforeWindows(id: Json, hs: seq<Json>, paraderos: Json, ts: string, i: nat)
    requires Chain(WindowBlocks(id, hs, paraderos, ts)).failure.None?
    requires i <= |hs|
    ensures RowsBefore(WindowBlocks(id, hs, paraderos, ts), i) == Blocks(i, ServiceTotal(ItemsOrEmpty(paraderos)))
  {
    var bs, t := WindowBlocks(id, hs, paraderos, ts), ServiceTotal(ItemsOrEmpty(paraderos));
    forall n | 0 <= n < |bs|
      ensures bs[n].failure.None? ==> |bs[n].rows| == t
    {
      WindowBlocksAt(id, hs, paraderos, ts, n);
      if bs[n].failure.None? {
        WindowBlockSize(id, hs[n], paraderos, ts);
      }
    }
    RowsBeforeUniform(bs, i, t);
  }

  /** The rows of horario i form the i-th block of the output. */
  lemma WindowLoopAt(id: Json, hs: seq<Json>, paraderos: Json, ts: string, i: nat, x: nat)
    requires WindowLoop(id, hs, paraderos, ts).failure.None?
    requires i < |hs|
    ensures WindowBlock(id, hs[i], paraderos, ts).failure.None?
    ensures x < |WindowBlock(id, hs[i], paraderos, ts).rows| ==>
              && Blocks(i, ServiceTotal(ItemsOrEmpty(paraderos))) + x < |WindowLoop(id, hs, paraderos, ts).rows|
              && WindowLoop(id, hs, paraderos, ts).rows[Blocks(i, ServiceTotal(ItemsOrEmpty(paraderos))) + x]
                 == WindowBlock(id, hs[i], paraderos, ts).rows[x]
  {
    WindowLoopIsChain(id, hs, paraderos, ts);
    RowsBeforeWindows(id, hs, paraderos, ts, i);
    WindowBlocksAt(id, hs, paraderos, ts, i);
    ChainAt(WindowLoop(id, hs, paraderos, ts), WindowBlocks(id, hs, paraderos, ts), i,
            Blocks(i, ServiceTotal(ItemsOrEmpty(paraderos))), WindowBlock(id, hs[i], paraderos, ts), x);
  }

  /** Servicio k of paradero j of horario i, at the level of the loops. */
  lemma WindowLoopRowAt(id: Json, hs: seq<Json>, paraderos: Json, ts: string, i: nat, j: nat, k: nat)
    requires WindowLoop(id, hs, paraderos, ts).failure.None?
    requires i < |hs| && j < |ItemsOrEmpty(paraderos)| && k < |ServiceItems(ItemsOrEmpty(paraderos)[j])|
    ensures var ps := ItemsOrEmpty(paraderos);
            var rows := WindowLoop(id, hs, paraderos, ts).rows;
            var n := Blocks(i, ServiceTotal(ps)) + ServicesBefore(ps, j) + k;
            && n < |rows|
            && ReadWindow(hs[i]).Ok? && ReadStop(ps[j]).Ok? && ReadService(ServiceItems(ps[j])[k]).Ok?
            && rows[n] == Row(id, ReadWindow(hs[i]).value, ReadStop(ps[j]).value.0,
                              ReadService(ServiceItems(ps[j])[k]).value, ts)
  {
    var ps := ItemsOrEmpty(paraderos);
    var x := ServicesBefore(ps, j) + k;
    WindowLoopAt(id, hs, paraderos, ts, i, x);
    WindowBlockOk(id, hs[i], paraderos, ts);
    var w := ReadWindow(hs[i]).value;
    StopLoopAt(id, w, ps, ts, j, k);
    StopBlockOk(id, w, ps[j], ts);
    var st, ss := ReadStop(ps[j]).value.0, ServiceItems(ps[j]);
    var services := ServiceLoop(id, w, st, ss, ts);
    assert k < |services.rows| && services.rows[k] == Row(id, w, st, ReadService(ss[k]).value, ts);
    assert StopLoop(id, w, ps, ts).rows[x] == services.rows[k];
    assert WindowLoop(id, hs, paraderos, ts).rows[Blocks(i, ServiceTotal(ps)) + x] == services.rows[k];
  }

  lemma ProcessUnfolds(doc: Json, ts: string)
    requires Process(Some(doc), ts).failure.None?
    ensures ReadRoute(doc).Ok? && Elements(ReadRoute(doc).value.horarios).Ok?
    ensures var route := ReadRoute(doc).value;
            && route.id == RouteId(doc)
            && Elements(route.horarios).value == HorarioItems(doc)
            && ItemsOrEmpty(route.paraderos) == ParaderoItems(doc)
            && Process(Some(doc), ts) == WindowLoop(RouteId(doc), HorarioItems(doc), route.paraderos, ts)
  {
  }

  /** Row order is lexicographic in (horario, paradero, servicio): with T
      servicios over all paraderos, the row of horario i, paradero j and
      servicio k sits at position Blocks(i, T) = i * T plus the number of
      servicios of the paraderos before j plus k, and carries the values
      read from exactly those three elements. */
  lemma RowOrder(doc: Json, ts: string, i: nat, j: nat, k: nat)
    requires Process(Some(doc), ts).failure.None?
    requires i < |HorarioItems(doc)| && j < |ParaderoItems(doc)|
    requires k < |ServiceItems(ParaderoItems(doc)[j])|
    ensures Blocks(i, ServiceTotal(ParaderoItems(doc))) == i * ServiceTotal(ParaderoItems(doc))
    ensures var hs, ps := HorarioItems(doc), ParaderoItems(doc);
            var rows := Process(Some(doc), ts).rows;
            var n := Blocks(i, ServiceTotal(ps)) + ServicesBefore(ps, j) + k;
            && n < |rows|
            && ReadWindow(hs[i]).Ok? && ReadStop(ps[j]).Ok? && ReadService(ServiceItems(ps[j])[k]).Ok?
            && rows[n] == Row(RouteId(doc), ReadWindow(hs[i]).value, ReadStop(ps[j]).value.0,
                              ReadService(ServiceItems(ps[j])[k]).value, ts)
  {
    ProcessUnfolds(doc, ts);
    var paraderos := ReadRoute(doc).value.paraderos;
    WindowLoopRowAt(RouteId(doc), HorarioItems(doc), paraderos, ts, i, j, k);
    BlocksIsProduct(i, ServiceTotal(ParaderoItems(doc)));
  }
}
