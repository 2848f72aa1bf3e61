/**
 * The cloud Lambda that consumes the event stream: each decoded event is
 * written to the data-lake bucket under a date/patient/session/window key
 * and then counted in the per-(patient, session) row of the session-state
 * table (`windows_total` always, `suspected_windows` when the event is
 * suspected).
 */
module KinesisConsumer {
  import opened Base
  import opened Events

  const RawEventsBucket := "eeg-seizure-data-lake"

  /** `event[key]` on a decoded event. */
  function Field(e: Event, key: string): (r: Result<Json>)
    ensures r.Ok? <==> key in e
    ensures r.Ok? ==> r.value == e[key]
    ensures r.Err? ==> r.error == KeyError(key)
  {
    if key in e then Ok(e[key]) else Err(KeyError(key))
  }

  /** `f"{v}"` on a JSON scalar; rendering a float is outside this model. */
  function Render(v: Json): (r: Result<string>)
    ensures v.JStr? ==> r == Ok(v.s)
    ensures v.JInt? ==> r == Ok(IntToString(v.i))
    ensures v.JNull? ==> r == Ok("None")
    ensures r.Err? <==> v.JFloat?
  {
    match v
    case JStr(s) => Ok(s)
    case JInt(i) => Ok(IntToString(i))
    case JBool(b) => Ok(if b then "True" else "False")
    case JFloat(_) => Err(FloatRendering)
    case JNull => Ok("None")
  }

  /** The object key: `events/<date>/patient=<pid>/session=<sid>/window=<idx>.json`. */
  function S3Key(datePrefix: string, e: Event): (r: Result<string>)
    ensures r.Ok? <==> && "patient_id" in e && Render(e["patient_id"]).Ok?
                       && "session_id" in e && Render(e["session_id"]).Ok?
                       && "window_index" in e && Render(e["window_index"]).Ok?
    ensures "patient_id" !in e ==> r == Err(KeyError("patient_id"))
  {
    var pid :- Field(e, "patient_id");
    var p :- Render(pid);
    var sid :- Field(e, "session_id");
    var s :- Render(sid);
    var idx :- Field(e, "window_index");
    var i :- Render(idx);
    Ok("events/" + datePrefix + "/patient=" + p + "/session=" + s + "/window=" + i + ".json")
  }

  /**
   * Two events that differ only in their integer window index are stored
   * under different object keys, so no window overwrites another.
   */
  lemma S3KeySeparatesWindows(datePrefix: string, e: Event, i: int, j: int)
    requires "patient_id" in e && Render(e["patient_id"]).Ok?
    requires "session_id" in e && Render(e["session_id"]).Ok?
    requires i != j
    ensures S3Key(datePrefix, e["window_index" := JInt(i)]).Ok?
    ensures S3Key(datePrefix, e["window_index" := JInt(i)]) != S3Key(datePrefix, e["window_index" := JInt(j)])
  {
    var prefix := "events/" + datePrefix + "/patient=" + Render(e["patient_id"]).value
                  + "/session=" + Render(e["session_id"]).value + "/window=";
    var a, b := IntToString(i), IntToString(j);
    assert S3Key(datePrefix, e["window_index" := JInt(i)]) == Ok(prefix + a + ".json");
    assert S3Key(datePrefix, e["window_index" := JInt(j)]) == Ok(prefix + b + ".json");
    if prefix + a + ".json" == prefix + b + ".json" {
      assert |a| == |b|;
      assert a == (prefix + a + ".json")[|prefix|..|prefix| + |a|];
      assert b == (prefix + b + ".json")[|prefix|..|prefix| + |b|];
      IntToStringInjective(i, j);
      assert false;
    }
  }

  /** One `put_object` call: the body is the serialised event followed by `terminator`. */
  datatype PutObject = PutObject(bucket: string, key: string, body: Event, terminator: string)

  /** `store_event_in_s3`: the object written for one event; `datePrefix` is the UTC date as `%Y/%m/%d`. */
  function StoreEventInS3(datePrefix: string, e: Event): (r: Result<PutObject>)
    ensures r.Ok? <==> S3Key(datePrefix, e).Ok?
    ensures r.Ok? ==> r.value == PutObject(RawEventsBucket, S3Key(datePrefix, e).value, e, "\n")
  {
    var key :- S3Key(datePrefix, e);
    Ok(PutObject(RawEventsBucket, key, e, "\n"))
  }

  /** The session-state row key: partition key `pk`, sort key `sk`. */
  datatype RowKey = RowKey(pk: Json, sk: Json)
  datatype Counters = Counters(windowsTotal: int, suspectedWindows: int)
  type Table = map<RowKey, Counters>

  /** A row's counters; `ADD` treats absent attributes (and absent rows) as 0. */
  function Row(table: Table, key: RowKey): Counters {
    if key in table then table[key] else Counters(0, 0)
  }

  /** Python truthiness of a JSON scalar. */
  function Truthy(v: Json): bool {
    match v
    case JBool(b) => b
    case JInt(i) => i != 0
    case JFloat(f) => f != 0.0
    case JNull => false
    case JStr(s) => s != ""
  }

  /** `ADD windows_total :one, suspected_windows :sus` on one row. */
  function AddCounts(table: Table, key: RowKey, sus: int): Table {
    table[key := Counters(Row(table, key).windowsTotal + 1, Row(table, key).suspectedWindows + sus)]
  }

  /**
   * `update_dynamodb`: the row of (patient_id, session_id) gains one window,
   * and one suspected window when `suspected` is truthy; every other row is
   * unchanged.
   */
  function UpdateDynamoDB(table: Table, e: Event): (r: Result<Table>)
    ensures r.Ok? <==> "patient_id" in e && "session_id" in e && "suspected" in e
    ensures r.Ok? ==>
      var key := RowKey(e["patient_id"], e["session_id"]);
      && r.value.Keys == table.Keys + {key}
      && Row(r.value, key).windowsTotal == Row(table, key).windowsTotal + 1
      && Row(r.value, key).suspectedWindows
           == Row(table, key).suspectedWindows + (if Truthy(e["suspected"]) then 1 else 0)
      && (forall k :: k in table && k != key ==> r.value[k] == table[k])
  {
    var pk :- Field(e, "patient_id");
    var sk :- Field(e, "session_id");
    var suspected :- Field(e, "suspected");
    Ok(AddCounts(table, RowKey(pk, sk), if Truthy(suspected) then 1 else 0))
  }

  /**
   * JSON `null` is carried along as Python `None`: it renders as "None" in
   * the object key, and a null `suspected` counts as not suspected.
   */
  lemma NullValuesConsumed(table: Table, datePrefix: string, sessionId: string, windowIndex: int)
    ensures var e := map["patient_id" := JNull, "session_id" := JStr(sessionId),
                         "window_index" := JInt(windowIndex), "suspected" := JNull];
      && S3Key(datePrefix, e)
           == Ok("events/" + datePrefix + "/patient=" + "None" + "/session=" + sessionId
                 + "/window=" + IntToString(windowIndex) + ".json")
      && UpdateDynamoDB(table, e) == Ok(AddCounts(table, RowKey(JNull, JStr(sessionId)), 0))
  {
  }

  /** What the handler has done so far: the objects written, the table, and the exception that stopped it, if any. */
  datatype Progress = Progress(puts: seq<PutObject>, table: Table, failure: Option<Error>)

  /** One record: store it, then count it; an exception stops the batch where it is raised. */
  function ConsumeOne(p: Progress, datePrefix: string, e: Event): Progress
    requires p.failure.None?
  {
    match StoreEventInS3(datePrefix, e)
    case Err(err) => p.(failure := Some(err))
    case Ok(put) =>
      match UpdateDynamoDB(p.table, e)
      case Err(err) => Progress(p.puts + [put], p.table, Some(err))
      case Ok(t) => Progress(p.puts + [put], t, None)
  }

  /** The effect of the handler's loop over `records`, in order, from `table0`. */
  function Consume(records: seq<Event>, datePrefix: string, table0: Table): Progress {
    if records == [] then Progress([], table0, None)
    else
      var prev := Consume(records[..|records| - 1], datePrefix, table0);
      if prev.failure.Some? then prev else ConsumeOne(prev, datePrefix, records[|records| - 1])
  }

  datatype Response = Response(statusCode: int, processedRecords: nat)

  /** `event.get("Records", [])`. */
  function RecordsOf(records: Option<seq<Event>>): seq<Event> {
    if records.Some? then records.value else []
  }

  /** Once a record fails, later records are not processed. */
  lemma {:induction false} FailureStops(records: seq<Event>, datePrefix: string, table0: Table, i: nat, j: nat)
    requires i <= j <= |records|
    requires Consume(records[..i], datePrefix, table0).failure.Some?
    ensures Consume(records[..j], datePrefix, table0) == Consume(records[..i], datePrefix, table0)
    decreases j
  {
    if j > i {
      FailureStops(records, datePrefix, table0, i, j - 1);
      assert records[..j][..j - 1] == records[..j - 1];
    }
  }

  /**
   * `handler`: for each record, in order, store the event and then update
   * its counters; answer 200 with the number of records. A missing
   * `Records` is an empty batch. The decoded events stand for the records.
   */
  method Handler(records: Option<seq<Event>>, datePrefix: string, table0: Table)
    returns (puts: seq<PutObject>, table: Table, r: Result<Response>)
    ensures var p := Consume(RecordsOf(records), datePrefix, table0);
      && puts == p.puts && table == p.table
      && r == (if p.failure.Some? then Err(p.failure.value) else Ok(Response(200, |RecordsOf(records)|)))
  {
    var batch := if records.Some? then records.value else [];
    puts, table := [], table0;
    for i := 0 to |batch|
      invariant Consume(batch[..i], datePrefix, table0) == Progress(puts, table, None)
    {
      assert batch[..i + 1][..i] == batch[..i];
      var stored := StoreEventInS3(datePrefix, batch[i]);
      if stored.Err? {
        FailureStops(batch, datePrefix, table0, i + 1, |batch|);
        assert batch[..|batch|] == batch;
        return puts, table, Err(stored.error);
      }
      puts := puts + [stored.value];
      var updated := UpdateDynamoDB(table, batch[i]);
      if updated.Err? {
        FailureStops(batch, datePrefix, table0, i + 1, |batch|);
        assert batch[..|batch|] == batch;
        return puts, table, Err(updated.error);
      }
      table := updated.value;
    }
    assert batch[..|batch|] == batch;
    return puts, table, Ok(Response(200, |batch|));
  }

  /** A completed batch wrote one object per record, in record order, each under its record's key. */
  lemma {:induction false} ConsumeWritesInOrder(records: seq<Event>, datePrefix: string, table0: Table)
    requires Consume(records, datePrefix, table0).failure.None?
    ensures var p := Consume(records, datePrefix, table0);
      && |p.puts| == |records|
      && forall i :: 0 <= i < |records| ==> StoreEventInS3(datePrefix, records[i]) == Ok(p.puts[i])
  {
    if records != [] {
      var init := records[..|records| - 1];
      ConsumeWritesInOrder(init, datePrefix, table0);
    }
  }

  /** The number of events in `records` addressed to row `key`. */
  function EventsFor(records: seq<Event>, key: RowKey): nat {
    if records == [] then 0
    else
      var e := records[|records| - 1];
      EventsFor(records[..|records| - 1], key)
        + (if "patient_id" in e && "session_id" in e && RowKey(e["patient_id"], e["session_id"]) == key then 1 else 0)
  }

  /** The number of suspected events in `records` addressed to row `key`. */
  function SuspectedFor(records: seq<Event>, key: RowKey): nat {
    if records == [] then 0
    else
      var e := records[|records| - 1];
      SuspectedFor(records[..|records| - 1], key)
        + (if && "patient_id" in e && "session_id" in e && "suspected" in e
              && RowKey(e["patient_id"], e["session_id"]) == key && Truthy(e["suspected"])
           then 1 else 0)
  }

  /**
   * Aggregation: after a completed batch every row's `windows_total` has
   * grown by the number of its events and `suspected_windows` by the number
   * of its suspected events.
   */
  lemma {:induction false} ConsumeAggregates(records: seq<Event>, datePrefix: string, table0: Table, key: RowKey)
    requires Consume(records, datePrefix, table0).failure.None?
    ensures var t := Consume(records, datePrefix, table0).table;
      && Row(t, key).windowsTotal == Row(table0, key).windowsTotal + EventsFor(records, key)
      && Row(t, key).suspectedWindows == Row(table0, key).suspectedWindows + SuspectedFor(records, key)
  {
    if records != [] {
      ConsumeAggregates(records[..|records| - 1], datePrefix, table0, key);
    }
  }

  /** Every row counts no more suspected windows than windows. */
  ghost predicate RowsConsistent(table: Table) {
    forall k :: k in table ==> 0 <= table[k].suspectedWindows <= table[k].windowsTotal
  }

  /** Each event adds 1 to the total and 0 or 1 to the suspected count, so consistent rows stay consistent, even when a record fails. */
  lemma {:induction false} ConsumeKeepsRowsConsistent(records: seq<Event>, datePrefix: string, table0: Table)
    requires RowsConsistent(table0)
    ensures RowsConsistent(Consume(records, datePrefix, table0).table)
  {
    if records != [] {
      ConsumeKeepsRowsConsistent(records[..|records| - 1], datePrefix, table0);
    }
  }

  /** An event built by the fog with `suspected` is stored under its identifiers and counted in its (patient, session) row. */
  lemma WindowEventConsumed(
    table: Table, datePrefix: string,
    roomId: string, patientId: string, sessionId: string,
    windowIndex: int, score: real, suspected: bool, timestampUtc: string)
    ensures var e := BuildWindowEvent(roomId, patientId, sessionId, windowIndex, score, suspected, timestampUtc);
      && StoreEventInS3(datePrefix, e) == Ok(PutObject(RawEventsBucket,
           "events/" + datePrefix + "/patient=" + patientId + "/session=" + sessionId
             + "/window=" + IntToString(windowIndex) + ".json", e, "\n"))
      && UpdateDynamoDB(table, e)
           == Ok(AddCounts(table, RowKey(JStr(patientId), JStr(sessionId)), if suspected then 1 else 0))
  {
  }

  /**
   * The record of `build_suspected_window_event` has no `suspected` key, so
   * the consumer stores it and then fails on `event["suspected"]` before
   * counting it.
   */
  lemma SchemaEventRejected(
    table: Table, datePrefix: string,
    roomId: string, patientId: string, sessionId: string,
    windowIndex: int, score: real, timestampUtc: string)
    ensures var e := BuildSuspectedWindowEvent(roomId, patientId, sessionId, windowIndex, score, timestampUtc);
      && StoreEventInS3(datePrefix, e).Ok?
      && UpdateDynamoDB(table, e) == Err(KeyError("suspected"))
      && Consume([e], datePrefix, table)
           == Progress([StoreEventInS3(datePrefix, e).value], table, Some(KeyError("suspected")))
  {
    var e := BuildSuspectedWindowEvent(roomId, patientId, sessionId, windowIndex, score, timestampUtc);
    assert [e][..0] == [];
  }
}
