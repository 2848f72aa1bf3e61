/**
 * The per-window event record the fog node publishes: a JSON object with a
 * fixed schema. Events are modelled as maps from key to JSON value so that
 * the key set itself can be stated.
 */
module Events {
  import opened Base

  /** The JSON scalars an event holds, `null` included. */
  datatype Json = JStr(s: string) | JInt(i: int) | JFloat(f: real) | JBool(b: bool) | JNull

  /** A JSON object, as built by the fog and as decoded by the cloud consumer. */
  type Event = map<string, Json>

  const EventVersion := "1.0"
  const EventType := "SUSPECTED_EEG_WINDOW"

  /** The keys of `build_suspected_window_event`'s record. */
  const SchemaKeys: set<string> := {
    "event_version", "event_type", "timestamp_utc",
    "room_id", "patient_id", "session_id",
    "window_index", "score"
  }

  /**
   * `build_suspected_window_event`: the record for one window.
   * `timestampUtc` is the reading of the UTC clock.
   */
  function BuildSuspectedWindowEvent(
    roomId: string, patientId: string, sessionId: string,
    windowIndex: int, score: real, timestampUtc: string): (e: Event)
    ensures "suspected" !in e
  {
    map[
      "event_version" := JStr(EventVersion),
      "event_type" := JStr(EventType),
      "timestamp_utc" := JStr(timestampUtc),
      "room_id" := JStr(roomId),
      "patient_id" := JStr(patientId),
      "session_id" := JStr(sessionId),
      "window_index" := JInt(windowIndex),
      "score" := JFloat(score)
    ]
  }

  /** The window-level facts an event reports. */
  datatype WindowFacts = WindowFacts(
    roomId: string, patientId: string, sessionId: string, windowIndex: int, score: real)

  /** Reads the facts back from an event that carries the schema version and type. */
  function ReadFacts(e: Event): Option<WindowFacts> {
    if && "event_version" in e && e["event_version"] == JStr(EventVersion)
       && "event_type" in e && e["event_type"] == JStr(EventType)
       && "room_id" in e && e["room_id"].JStr?
       && "patient_id" in e && e["patient_id"].JStr?
       && "session_id" in e && e["session_id"].JStr?
       && "window_index" in e && e["window_index"].JInt?
       && "score" in e && e["score"].JFloat?
    then Some(WindowFacts(e["room_id"].s, e["patient_id"].s, e["session_id"].s,
                          e["window_index"].i, e["score"].f))
    else None
  }

  /**
   * Every built event carries version "1.0" and type SUSPECTED_EEG_WINDOW,
   * and reading it back gives exactly the identifiers, index and score it
   * was built from; it has no `suspected` key.
   */
  lemma BuiltEventReadsBack(
    roomId: string, patientId: string, sessionId: string,
    windowIndex: int, score: real, timestampUtc: string)
    ensures var e := BuildSuspectedWindowEvent(roomId, patientId, sessionId, windowIndex, score, timestampUtc);
      && e["event_version"] == JStr("1.0")
      && e["event_type"] == JStr("SUSPECTED_EEG_WINDOW")
      && e.Keys == SchemaKeys
      && ReadFacts(e) == Some(WindowFacts(roomId, patientId, sessionId, windowIndex, score))
      && "suspected" !in e
  {
  }

  /** The clock reading is the only field not determined by the arguments. */
  lemma OnlyTimestampFromClock(
    roomId: string, patientId: string, sessionId: string,
    windowIndex: int, score: real, t1: string, t2: string)
    ensures var e1 := BuildSuspectedWindowEvent(roomId, patientId, sessionId, windowIndex, score, t1);
      var e2 := BuildSuspectedWindowEvent(roomId, patientId, sessionId, windowIndex, score, t2);
      && e1.Keys == e2.Keys
      && (forall k :: k in e1 && k != "timestamp_utc" ==> e1[k] == e2[k])
      && e1["timestamp_utc"] == JStr(t1)
  {
  }

  /**
   * The builder the orchestration calls, `build_window_event(..., suspected=...)`,
   * which the event-builder file does not define: the record of
   * `build_suspected_window_event` plus a boolean `suspected` field, the
   * column the stream consumer reads and the analytics table declares.
   */
  function BuildWindowEvent(
    roomId: string, patientId: string, sessionId: string,
    windowIndex: int, score: real, suspected: bool, timestampUtc: string): (e: Event)
    ensures "suspected" in e && e["suspected"] == JBool(suspected)
  {
    BuildSuspectedWindowEvent(roomId, patientId, sessionId, windowIndex, score, timestampUtc)["suspected" := JBool(suspected)]
  }

  /**
   * The extended record is backward compatible with the schema of
   * `build_suspected_window_event`: it
   * keeps every field with the same value and only adds `suspected`.
   */
  lemma WindowEventExtendsSchema(
    roomId: string, patientId: string, sessionId: string,
    windowIndex: int, score: real, suspected: bool, timestampUtc: string)
    ensures var e := BuildWindowEvent(roomId, patientId, sessionId, windowIndex, score, suspected, timestampUtc);
      var base := BuildSuspectedWindowEvent(roomId, patientId, sessionId, windowIndex, score, timestampUtc);
      && e.Keys == SchemaKeys + {"suspected"}
      && (forall k :: k in base ==> k in e && e[k] == base[k])
      && e["suspected"] == JBool(suspected)
      && ReadFacts(e) == Some(WindowFacts(roomId, patientId, sessionId, windowIndex, score))
  {
  }
}
