/**
 * The in-memory session registry of the fog node (`_SESSIONS`): one record
 * per session id, created at session start, whose counters are incremented
 * per window and whose end time is set at session end. The registry keeps
 * no Active/Ended state: nothing stops a window from being counted after
 * the end, or a second end from overwriting the end time.
 */
module Sessions {
  import opened Base

  /**
   * One registry entry. `suspiciousWindows` is the counter behind
   * `register_suspicious_window` / `should_upload_edf`, which the
   * orchestration calls and which the registry file does not define.
   */
  datatype Session = Session(
    roomId: string,
    patientId: string,
    startTime: string,
    endTime: string,
    windowsProcessed: nat,
    suspiciousWindows: nat)

  type Registry = map<string, Session>

  function NotFound(sessionId: string): Error {
    KeyError("Session not found: " + sessionId)
  }

  /** The registry after `start_session`: the id maps to a fresh record with zero counters and no end time. */
  function Begin(m: Registry, sessionId: string, roomId: string, patientId: string, now: string): Registry {
    m[sessionId := Session(roomId, patientId, now, "", 0, 0)]
  }

  /** The registry after `register_window` on a known id. */
  function CountWindow(m: Registry, sessionId: string): Registry
    requires sessionId in m
  {
    m[sessionId := m[sessionId].(windowsProcessed := m[sessionId].windowsProcessed + 1)]
  }

  /** The registry after `register_suspicious_window` on a known id. */
  function CountSuspicious(m: Registry, sessionId: string): Registry
    requires sessionId in m
  {
    m[sessionId := m[sessionId].(suspiciousWindows := m[sessionId].suspiciousWindows + 1)]
  }

  /** The registry after `end_session` on a known id. */
  function Finish(m: Registry, sessionId: string, now: string): Registry
    requires sessionId in m
  {
    m[sessionId := m[sessionId].(endTime := now)]
  }

  /** `should_upload_edf(session_id, min)`: the session has at least `min` suspicious windows. */
  function ShouldUploadEdf(m: Registry, sessionId: string, minSuspicious: int): (r: Result<bool>)
    ensures r.Ok? <==> sessionId in m
    ensures r.Ok? ==> (r.value <==> m[sessionId].suspiciousWindows >= minSuspicious)
    ensures r.Err? ==> r.error == NotFound(sessionId)
  {
    if sessionId in m then Ok(m[sessionId].suspiciousWindows >= minSuspicious) else Err(NotFound(sessionId))
  }

  /** Every session of `m` is still in `m'`, with the same identity and counters no smaller. */
  ghost predicate Grows(m: Registry, m': Registry) {
    forall id :: id in m ==>
      && id in m'
      && m'[id].roomId == m[id].roomId
      && m'[id].patientId == m[id].patientId
      && m'[id].startTime == m[id].startTime
      && m'[id].windowsProcessed >= m[id].windowsProcessed
      && m'[id].suspiciousWindows >= m[id].suspiciousWindows
  }

  /** The three updates on a known id only increment counters or set the end time, so they never shrink a session. */
  lemma UpdatesGrow(m: Registry, sessionId: string, now: string)
    requires sessionId in m
    ensures Grows(m, CountWindow(m, sessionId))
    ensures Grows(m, CountSuspicious(m, sessionId))
    ensures Grows(m, Finish(m, sessionId, now))
  {
  }

  /** Starting a session under an unused id adds exactly one entry and leaves the others as they were. */
  lemma BeginAddsOne(m: Registry, sessionId: string, roomId: string, patientId: string, now: string)
    requires sessionId !in m
    ensures |Begin(m, sessionId, roomId, patientId, now)| == |m| + 1
    ensures Grows(m, Begin(m, sessionId, roomId, patientId, now))
    ensures forall id :: id in m ==> Begin(m, sessionId, roomId, patientId, now)[id] == m[id]
  {
    assert Begin(m, sessionId, roomId, patientId, now).Keys == m.Keys + {sessionId};
  }

  /** Growth composes over two steps. */
  lemma GrowsTransitive(m1: Registry, m2: Registry, m3: Registry)
    requires Grows(m1, m2) && Grows(m2, m3)
    ensures Grows(m1, m3)
  {
  }

  /** A call on an existing session: `register_window`, `register_suspicious_window` or `end_session`. */
  datatype Update =
    | CountWindowOf(id: string)
    | CountSuspiciousOf(id: string)
    | FinishOf(id: string, now: string)

  /** The registry after one call: a known id is updated; an unknown one raises and leaves the registry as it was. */
  function Apply(m: Registry, u: Update): Registry {
    if u.id !in m then m
    else match u
      case CountWindowOf(id) => CountWindow(m, id)
      case CountSuspiciousOf(id) => CountSuspicious(m, id)
      case FinishOf(id, now) => Finish(m, id, now)
  }

  /** The registry after a sequence of calls, in order. */
  function ApplyAll(m: Registry, us: seq<Update>): Registry
    decreases |us|
  {
    if us == [] then m else Apply(ApplyAll(m, us[..|us| - 1]), us[|us| - 1])
  }

  /**
   * Any sequence of window counts, suspicious counts and session ends
   * neither adds nor removes a session, and never shrinks one: identity
   * kept, counters not lower.
   */
  lemma {:induction false} UpdateSequenceGrows(m: Registry, us: seq<Update>)
    ensures ApplyAll(m, us).Keys == m.Keys
    ensures Grows(m, ApplyAll(m, us))
    decreases |us|
  {
    if us != [] {
      var prev := ApplyAll(m, us[..|us| - 1]);
      UpdateSequenceGrows(m, us[..|us| - 1]);
      var u := us[|us| - 1];
      if u.id in prev {
        UpdatesGrow(prev, u.id, if u.FinishOf? then u.now else "");
      }
      GrowsTransitive(m, prev, ApplyAll(m, us));
    }
  }

  /** The registry object: the module-level `_SESSIONS` dictionary made explicit. */
  class SessionRegistry {
    var sessions: Registry

    constructor ()
      ensures sessions == map[]
    {
      sessions := map[];
    }

    /** `start_session`: `sessionId` is the fresh id the uuid4 oracle supplied, `now` the UTC clock reading. */
    method StartSession(roomId: string, patientId: string, sessionId: string, now: string) returns (id: string)
      modifies this
      ensures id == sessionId
      ensures sessions == Begin(old(sessions), sessionId, roomId, patientId, now)
    {
      sessions := sessions[sessionId := Session(roomId, patientId, now, "", 0, 0)];
      id := sessionId;
    }

    /** `register_window`: a KeyError for an unknown id, else one more processed window. */
    method RegisterWindow(sessionId: string) returns (r: Result<()>)
      modifies this
      ensures r.Ok? <==> sessionId in old(sessions)
      ensures r.Err? ==> r.error == NotFound(sessionId) && sessions == old(sessions)
      ensures r.Ok? ==> sessions == CountWindow(old(sessions), sessionId)
    {
      if sessionId !in sessions {
        return Err(NotFound(sessionId));
      }
      var s := sessions[sessionId];
      sessions := sessions[sessionId := s.(windowsProcessed := s.windowsProcessed + 1)];
      return Ok(());
    }

    /** `register_suspicious_window`: a KeyError for an unknown id, else one more suspicious window. */
    method RegisterSuspiciousWindow(sessionId: string) returns (r: Result<()>)
      modifies this
      ensures r.Ok? <==> sessionId in old(sessions)
      ensures r.Err? ==> r.error == NotFound(sessionId) && sessions == old(sessions)
      ensures r.Ok? ==> sessions == CountSuspicious(old(sessions), sessionId)
    {
      if sessionId !in sessions {
        return Err(NotFound(sessionId));
      }
      var s := sessions[sessionId];
      sessions := sessions[sessionId := s.(suspiciousWindows := s.suspiciousWindows + 1)];
      return Ok(());
    }

    /** `end_session`: a KeyError for an unknown id, else the end time is set (again, if already ended). */
    method EndSession(roomId: string, patientId: string, sessionId: string, now: string) returns (r: Result<()>)
      modifies this
      ensures r.Ok? <==> sessionId in old(sessions)
      ensures r.Err? ==> r.error == NotFound(sessionId) && sessions == old(sessions)
      ensures r.Ok? ==> sessions == Finish(old(sessions), sessionId, now)
    {
      if sessionId !in sessions {
        return Err(NotFound(sessionId));
      }
      sessions := sessions[sessionId := sessions[sessionId].(endTime := now)];
      return Ok(());
    }
  }

  /**
   * No lifecycle guard: a window registered after `end_session` is still
   * counted, and a second `end_session` overwrites the end time.
   */
  method EndedSessionStillCounts() returns (processed: nat, endTime: string, r1: Result<()>, r2: Result<()>)
    ensures r1.Ok? && r2.Ok?
    ensures processed == 1 && endTime == "t2"
  {
    var registry := new SessionRegistry();
    var id := registry.StartSession("room_A", "patient_1", "session_1", "t0");
    var ended := registry.EndSession("room_A", "patient_1", id, "t1");
    r1 := registry.RegisterWindow(id);
    r2 := registry.EndSession("room_A", "patient_1", id, "t2");
    processed := registry.sessions[id].windowsProcessed;
    endTime := registry.sessions[id].endTime;
  }

  /** Any operation on an id that was never started fails and changes nothing. */
  method UnknownSessionRejected(m: Registry, sessionId: string) returns (r1: Result<()>, r2: Result<()>, after: Registry)
    requires sessionId !in m
    ensures r1 == Err(NotFound(sessionId)) && r2 == Err(NotFound(sessionId))
    ensures after == m
  {
    var registry := new SessionRegistry();
    registry.sessions := m;
    r1 := registry.RegisterWindow(sessionId);
    r2 := registry.EndSession("room_A", "patient_1", sessionId, "t1");
    after := registry.sessions;
  }
}
