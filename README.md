# Santiago public transport ingestion — the flattening transform and the fetch retry loop

This project models two pieces of a Santiago bus-data pipeline. It states
and proves their behaviour in Dafny.

**`ExtractAndTransformData.process`** is the Apache Beam `DoFn` that turns
one JSON line describing a bus route into flat rows for a BigQuery table.
- The document's `ida` object holds a route `id`, a list of `horarios`
  (time windows) and a list of `paraderos` (stops). Each paradero carries
  its `servicios` (bus services).
- For every horario, every paradero and every servicio, in that nesting
  order, the function yields one dict with the 22 columns of the table
  schema. The `timestamp` column is taken once per line.
- Missing keys are filled by `dict.get` defaults. An exception stops the
  generator and is logged; nothing escapes.

The model is in `json_value.dfy` and `dataflow_servicios.dfy`:
- `JsonValue` is the decoded JSON value. It also gives the Python semantics
  of `dict.get`, `for` iteration and subscription: which exception each one
  raises on a value of the wrong shape.
- `DataflowServicios` holds the schema and the field reads (`ReadRoute`,
  `ReadWindow`, `ReadStop`, `ReadService`).
- The three nested loops are recursive functions (`ServiceLoop`, `StopLoop`,
  `WindowLoop`). Each returns an `Emission`: the rows yielded so far, plus
  the exception that stopped the generator, if any.
- `Expansion` is an independent reference: the full nested expansion, in
  which an element that cannot be read loses only its own rows. The loops
  are proved against it.

**`fetch_data_with_retries`** calls `requests.get` up to `retries` times.
- A `RequestException` or `ConnectionResetError` is caught. The loop sleeps
  `delay` seconds and tries again, except on the last attempt, where it
  re-raises the exception.
- Any other exception escapes at once.
- A `retries` of zero or less makes no request and returns `None`.

`fetch_retries.dfy` models this function as a `while` loop (`FetchWithRetries`).
- What a single attempt does is an oracle `outcome: nat -> Attempt`: a
  decoded body, or an exception of a given class.
- The requests and sleeps are recorded as a trace of `Step`s.
- The loop is proved equal to the recursive reference `Run`. The retry
  policy is proved about `Run` through `StopsAt`, the index of the attempt
  the loop stops at.

## Model

| member | source | states |
|---|---|---|
| DataflowServicios.Columns | dataflow_pipeline/dataflow_servicios.py:77-100 | the yielded dict has exactly the 22 columns of the table schema (lines 11-36), with the same names in the same order; it starts with the route id and ends with the line's timestamp |
| DataflowServicios.RouteDefaults | dataflow_pipeline/dataflow_servicios.py:44-47 | `row.get('ida', {})` succeeds iff the document is a dict and a present `ida` is a dict (a stored null raises), and any failure is an AttributeError; a missing `ida` gives id null and empty horarios and paraderos; otherwise each field is the stored value when present (null included), else its default |
| DataflowServicios.WindowDefaults | dataflow_pipeline/dataflow_servicios.py:50-53 | a horario is read iff it is a dict, else AttributeError; tipoDia, inicio and fin are the stored values, null when absent |
| DataflowServicios.StopDefaults | dataflow_pipeline/dataflow_servicios.py:55-64 | a paradero is read iff it is a dict whose `pos`, if present, can be subscripted at 0 and 1 and whose `servicios`, if present, can be iterated; a missing `pos` gives null coordinates; a list `pos` gives its first two elements; a missing `servicios` gives no servicios |
| DataflowServicios.ServiceDefaults | dataflow_pipeline/dataflow_servicios.py:65-75 | a servicio is read iff it is a dict whose `negocio` and `recorrido`, if present, are dicts, else AttributeError; each of its ten fields is the stored value or null, including the nested empresa and recorrido fields |
| DataflowServicios.ServiceLoop | dataflow_pipeline/dataflow_servicios.py:65-100 | row n of a paradero is built from servicio n; the loop stops exactly at the first servicio that cannot be read, reporting that servicio's exception; without an exception there is one row per servicio |
| DataflowServicios.StopLoop | dataflow_pipeline/dataflow_servicios.py:55-100 | without an exception a horario yields as many rows as its paraderos have servicios; a JSON decode error cannot arise inside the loop |
| DataflowServicios.WindowLoop | dataflow_pipeline/dataflow_servicios.py:50-55 | the horario loop iterates `paraderos` anew inside each horario: with no horarios it yields nothing and raises nothing, even when `paraderos` cannot be iterated; if the first horario is not a dict, its AttributeError ends the loop with no rows; if it is a dict and `paraderos` cannot be iterated, the loop yields nothing and raises; the loop can never end with JSONDecodeError |
| DataflowServicios.Process | dataflow_pipeline/dataflow_servicios.py:39-104 | an undecodable line yields nothing and ends with JSONDecodeError; a decoded line never reports JSONDecodeError; a line whose `ida` cannot be read yields nothing and reports an exception |
| DataflowServicios.HorarioItems | dataflow_pipeline/dataflow_servicios.py:45-46 | a document without `ida`, or whose `ida` has no `horarios`, has no horarios to visit |
| DataflowServicios.ParaderoItems | dataflow_pipeline/dataflow_servicios.py:45-47 | a document without `ida`, or whose `ida` has no `paraderos`, has no paraderos to visit |
| DataflowServicios.RowsShareTimestampAndId | dataflow_pipeline/dataflow_servicios.py:45-48 | every row of a line carries the one timestamp taken for that line, and the line's `ida.id` (null when absent) |
| DataflowServicios.EmittedRowsArePrefixOfExpansion | dataflow_pipeline/dataflow_servicios.py:42-104 | the rows yielded before an exception form a prefix of the full expansion; without an exception they are the full expansion |
| DataflowServicios.ChainStops | dataflow_pipeline/dataflow_servicios.py:42-104 | a loop whose iterations run until one raises yields exactly the rows of every iteration before the first raising one, then the rows that iteration yielded, and ends with that iteration's exception; when none raises it yields all the rows and no exception |
| DataflowServicios.StopLoopStops | dataflow_pipeline/dataflow_servicios.py:55-65 | within one horario: if paradero j is the first to raise, the output is the full expansion of the paraderos before j, then the rows paradero j yielded, and it ends with paradero j's exception; otherwise it is the full expansion with no exception |
| DataflowServicios.WindowLoopStops | dataflow_pipeline/dataflow_servicios.py:50-55 | if horario i is the first to raise, the output is the full expansion of the horarios before i, then the rows horario i yielded, and it ends with horario i's exception; otherwise it is the full expansion with no exception |
| DataflowServicios.LineStops | dataflow_pipeline/dataflow_servicios.py:42-104 | a decoded line whose route was read and that raises: the first raising horario decides the exception, every horario before it is fully expanded, its own partial rows follow, and nothing after it is yielded |
| DataflowServicios.ShortPosKeepsEarlierRow | dataflow_pipeline/dataflow_servicios.py:55-62 | on a line whose second paradero has a one-element `pos`, the row of the first paradero's servicio stays emitted, then `pos[1]` raises IndexError and nothing follows |
| DataflowServicios.RowCount | dataflow_pipeline/dataflow_servicios.py:50-77 | a line that raises nowhere yields number-of-horarios × (total number of servicios over all paraderos) rows |
| DataflowServicios.StopLoopAt | dataflow_pipeline/dataflow_servicios.py:55-65 | within one horario, the rows of paradero j come right after the rows of the servicios of the paraderos before it |
| DataflowServicios.WindowLoopAt | dataflow_pipeline/dataflow_servicios.py:50-55 | the rows of horario i form the i-th block of equal size in the output |
| DataflowServicios.RowOrder | dataflow_pipeline/dataflow_servicios.py:50-77 | rows are ordered lexicographically by (horario, paradero, servicio); the row of horario i, paradero j and servicio k sits at Blocks(i, T) + (servicios of paraderos before j) + k, where T is the total number of servicios and Blocks(i, T) = i × T, and it carries the values read from exactly those three elements |
| DataflowServicios.ChainAt | dataflow_pipeline/dataflow_servicios.py:50-65 | when a loop raises nowhere, each of its iterations raises nowhere, and the rows of iteration j follow the rows of the iterations before it |
| FetchRetries.FetchWithRetries | pubsub_ingestion/mensaje-test.py:12-24 | the loop returns exactly the outcome and the trace of requests and sleeps that the reference `Run` defines |
| FetchRetries.StopsAt | pubsub_ingestion/mensaje-test.py:13-24 | the attempt the loop stops at lies within `range(retries)`; every earlier attempt failed with a caught exception; unless it is the last attempt, the attempt it stops at is not a caught failure |
| FetchRetries.StopsAtFirst | pubsub_ingestion/mensaje-test.py:13-24 | the loop stops at the first attempt that does not fail with a caught exception, or at the last attempt |
| FetchRetries.RunStopsAt | pubsub_ingestion/mensaje-test.py:13-24 | the call ends with what the attempt it stops at did (its body returned, or its exception raised); the trace is a request per attempt up to that one, with a sleep of `delay` between each two |
| FetchRetries.NoRetriesNoRequest | pubsub_ingestion/mensaje-test.py:13 | with `retries <= 0` no request is made and the call returns None |
| FetchRetries.AttemptsBounded | pubsub_ingestion/mensaje-test.py:13-24 | between 1 and `retries` requests are made when `retries` is positive; there is exactly one sleep fewer than there are requests |
| FetchRetries.FirstSuccessReturned | pubsub_ingestion/mensaje-test.py:15-17 | after k caught failures, the first successful attempt's body is returned, after k + 1 requests and k sleeps |
| FetchRetries.UncaughtPropagates | pubsub_ingestion/mensaje-test.py:14-18 | after k caught failures, an exception outside the caught pair escapes at once, after k + 1 requests and k sleeps |
| FetchRetries.AllFailedReraisesLast | pubsub_ingestion/mensaje-test.py:18-24 | when every attempt fails with a caught exception, the last one is re-raised after `retries` requests and `retries - 1` sleeps |
| FetchRetries.RunTraceAt | pubsub_ingestion/mensaje-test.py:13-22 | attempt m is requested at trace position 2m, in order; every attempt except the last is followed by a sleep of exactly `delay` seconds |
| FetchRetries.ScheduleCounts | pubsub_ingestion/mensaje-test.py:13-22 | the attempts up to the one the loop stops at give one request per attempt and one sleep fewer |
| FetchRetries.DefaultBudget | pubsub_ingestion/mensaje-test.py:12 | with the default arguments (5 retries, 10-second delay), a call makes one to five requests and sleeps at most four times, 10 seconds each |

## Left out

- `json.loads` is not modelled as a parser. Its result is a parameter, and `None` stands for a line that raised `JSONDecodeError`. JSON floats are kept as their literal text, since the transform only copies them.
- `datetime.utcnow().isoformat()` is a string parameter: the clock is not modelled.
- `logging` calls are not modelled: neither the `logging.info` of every incoming line (before it is parsed) nor the `logging.error` of the exception that ended the generator. `Emission.failure` records that exception.
- Dict iteration order: iterating a non-empty dict yields its key strings, whose `.get` then raises `AttributeError`. The model raises that `AttributeError` at the iteration itself. The rows and the exception class are the same, and a Dafny `map` has no key order.
- Exceptions other than those the field reads can raise (for example `MemoryError`) are not modelled.
- The Beam pipeline wiring in `run` (the Pub/Sub read, the `ParDo`, `WriteToBigQuery`) and the argument parsing are not modelled. Only the transform's rows and the table schema are.
- The BigQuery column types are recorded in `TableSchema` but not checked against the values: the transform yields whatever JSON the document holds. The column mode, `NULLABLE` for every column, is not recorded.
- `requests.get`, `raise_for_status` and `response.json()` are an oracle (`outcome`). The oracle gives each attempt's decoded body or its exception class. Depending on the library version, a body that is not JSON surfaces as a `RequestException`, or else as another exception class, and the oracle must say which.
- The `url` and `timeout` arguments only reach the oracle, so they do not appear in the model.
- FetchRetries.FetchWithRetries: `delay` is a whole number of seconds, zero or more. In the source a negative delay makes `time.sleep` raise `ValueError` inside the `except` block, and that exception escapes after the first caught failure. A fractional delay such as 0.5 is also accepted there. Neither case is modelled.
- The `print` messages of the retry loop are not modelled. `time.sleep` is recorded as a `Sleep` step in the trace; the time that actually elapses is not modelled.
- The module-level script of `pubsub_ingestion/mensaje-test.py` (lines 26-57) is not modelled. This covers the Pub/Sub publisher, the Cloud Storage client and the loop over `codsint_list`.
