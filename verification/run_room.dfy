/**
 * The room simulator of the fog node: for each patient assigned to a room,
 * in order, start a session, load the recording, and for every window
 * register it, score it, decide, count and alert when suspected, build the
 * event and publish it; then end the session and upload the recording when
 * the session had enough suspicious windows.
 *
 * The collaborators outside the core are given as a `World`: the EDF loader
 * as a map from path to (signal, rate), inference as a score per (patient
 * position, window index), the thresholds file as its parsed contents, the
 * uuid4 generator as an id per patient position, and one UTC clock reading.
 * The calls the loop makes are recorded, in order, as a log of `Effect`s.
 */
module RunRoom {
  import opened Base
  import opened Config
  import opened Windowing
  import opened Thresholds
  import opened Sessions
  import opened Events

  /** `generate_windows(signal, sfreq)` is called with its defaults: 4 s windows, no overlap. */
  const WindowSeconds: real := 4.0
  const OverlapSeconds: real := 0.0

  const RoomsMessage := "Invalid configuration: missing 'rooms' key"
  const PolicyMessage := "Invalid session_policy.yaml structure"

  /** One call the room loop makes to the registry or to an external collaborator. */
  datatype Effect =
    | SessionStarted(sessionId: string)
    | WindowRegistered(sessionId: string)
    | SuspiciousRegistered(sessionId: string)
    | LocalAlert(roomId: string, patientId: string, sessionId: string, windowIndex: nat, score: real)
    | Published(event: Event)
    | SessionEnded(sessionId: string)
    | EdfUploaded(edfPath: string, patientId: string, sessionId: string)

  /** The collaborators of the loop (see the module comment). */
  datatype World = World(
    recordings: map<string, (Signal, int)>,
    scoreOf: (nat, nat) -> real,
    thresholdsFile: Option<Node>,
    sessionIdOf: nat -> string,
    now: string)

  /** The state of a run: the calls made so far, the registry, and the exception that stopped it, if any. */
  datatype Run = Run(log: seq<Effect>, sessions: Registry, failure: Option<Error>)

  /** `load_room_assignments` after the read: the document must hold `rooms`. */
  function LoadRoomAssignments(file: Option<Node>, path: string): (r: Result<Node>)
    ensures file.None? ==> r == Err(FileNotFoundError(path))
    ensures r.Ok? ==> file == Some(r.value) && HasKey(r.value, "rooms") == Ok(true)
    ensures file.Some? && file.value.Section? ==> (r.Ok? <==> "rooms" in file.value.fields)
  {
    match file
    case None => Err(FileNotFoundError(path))
    case Some(config) =>
      var hasRooms :- HasKey(config, "rooms");
      if hasRooms then Ok(config) else Err(ValueError(RoomsMessage))
  }

  /** `load_session_policy` after the read: the document must hold `session.min_suspicious_windows`. */
  function LoadSessionPolicy(file: Option<Node>, path: string): (r: Result<Node>)
    ensures file.None? ==> r == Err(FileNotFoundError(path))
    ensures r.Ok? ==> file == Some(r.value)
    ensures r.Ok? ==> Get(r.value, "session").Ok?
    ensures r.Ok? ==> HasKey(Get(r.value, "session").value, "min_suspicious_windows") == Ok(true)
  {
    match file
    case None => Err(FileNotFoundError(path))
    case Some(policy) =>
      var hasSession :- HasKey(policy, "session");
      if !hasSession then Err(ValueError(PolicyMessage))
      else
        var session :- Get(policy, "session");
        var hasMin :- HasKey(session, "min_suspicious_windows");
        if hasMin then Ok(policy) else Err(ValueError(PolicyMessage))
  }

  /** Configurations without `rooms`, or without `session.min_suspicious_windows`, are ValueErrors. */
  lemma MissingKeysRejected(config: map<string, Node>, policy: map<string, Node>, path: string)
    ensures "rooms" !in config ==>
      LoadRoomAssignments(Some(Section(config)), path) == Err(ValueError(RoomsMessage))
    ensures "session" !in policy ==>
      LoadSessionPolicy(Some(Section(policy)), path) == Err(ValueError(PolicyMessage))
    ensures "session" in policy && policy["session"].Section?
              && "min_suspicious_windows" !in policy["session"].fields ==>
      LoadSessionPolicy(Some(Section(policy)), path) == Err(ValueError(PolicyMessage))
  {
  }

  function UnknownRoomMessage(roomId: string): string {
    "Room '" + roomId + "' not found in configuration"
  }

  /**
   * `config["rooms"]`, the room check, then `rooms[room_id]["patients"]` and
   * the iteration over it: a list gives its entries; an empty mapping or
   * string gives none; a non-empty mapping or string yields keys or
   * characters whose `["patient_id"]` is a TypeError; any other value is
   * not iterable.
   */
  function RoomPatients(config: Node, roomId: string): (r: Result<seq<Node>>)
    ensures r.Ok? ==> Get(config, "rooms").Ok? && HasKey(Get(config, "rooms").value, roomId) == Ok(true)
    ensures Get(config, "rooms").Ok? && HasKey(Get(config, "rooms").value, roomId) == Ok(false) ==>
      r == Err(ValueError(UnknownRoomMessage(roomId)))
    ensures && config.Section? && "rooms" in config.fields
            && config.fields["rooms"].Section? && roomId in config.fields["rooms"].fields
            && config.fields["rooms"].fields[roomId].Section?
            && "patients" in config.fields["rooms"].fields[roomId].fields
            && config.fields["rooms"].fields[roomId].fields["patients"].Items? ==>
      r == Ok(config.fields["rooms"].fields[roomId].fields["patients"].items)
  {
    var rooms :- Get(config, "rooms");
    var known :- HasKey(rooms, roomId);
    if !known then Err(ValueError(UnknownRoomMessage(roomId)))
    else
      var room :- Get(rooms, roomId);
      var patients :- Get(room, "patients");
      match patients
      case Items(entries) => Ok(entries)
      case Section(fields) => if fields == map[] then Ok([]) else Err(TypeError)
      case Str(s) => if s == "" then Ok([]) else Err(TypeError)
      case _ => Err(TypeError)
  }

  /** `patient["patient_id"]` and `Path(patient["edf_path"])`. */
  function PatientFields(patient: Node): (r: Result<(string, string)>)
    ensures r.Ok? <==> && patient.Section?
                       && "patient_id" in patient.fields && patient.fields["patient_id"].Str?
                       && "edf_path" in patient.fields && patient.fields["edf_path"].Str?
    ensures r.Ok? ==> r.value == (patient.fields["patient_id"].s, patient.fields["edf_path"].s)
    ensures patient.Section? && "patient_id" !in patient.fields ==> r == Err(KeyError("patient_id"))
  {
    var idNode :- Get(patient, "patient_id");
    var patientId :- AsText(idNode);
    var pathNode :- Get(patient, "edf_path");
    var edfPath :- AsText(pathNode);
    Ok((patientId, edfPath))
  }

  /** `int(session_policy["session"]["min_suspicious_windows"])`. */
  function MinSuspiciousWindows(policy: Node): (r: Result<int>)
    ensures r.Ok? ==> Get(policy, "session").Ok?
                      && Get(Get(policy, "session").value, "min_suspicious_windows").Ok?
    ensures && policy.Section? && "session" in policy.fields && policy.fields["session"].Section?
            && "min_suspicious_windows" in policy.fields["session"].fields ==>
      r == AsInt(policy.fields["session"].fields["min_suspicious_windows"])
  {
    var session :- Get(policy, "session");
    var value :- Get(session, "min_suspicious_windows");
    AsInt(value)
  }

  /** The calls for one window whose decision did not raise: count it, alert when suspected, publish its event. */
  function WindowEffects(roomId: string, patientId: string, sessionId: string, k: nat, score: real, suspected: bool,
                         now: string): seq<Effect>
  {
    [WindowRegistered(sessionId)]
    + (if suspected then [SuspiciousRegistered(sessionId), LocalAlert(roomId, patientId, sessionId, k, score)] else [])
    + [Published(BuildWindowEvent(roomId, patientId, sessionId, k, score, suspected, now))]
  }

  /** One iteration of the window loop, from a run whose session `sessionId` exists. */
  function WindowStep(roomId: string, world: World, p: nat, sessionId: string, patientId: string, k: nat, run: Run): (r: Run)
    requires sessionId in run.sessions
    ensures sessionId in r.sessions
  {
    var counted := CountWindow(run.sessions, sessionId);
    var score := world.scoreOf(p, k);
    match IsSuspected(score, None, world.thresholdsFile)
    case Err(e) => Run(run.log + [WindowRegistered(sessionId)], counted, Some(e))
    case Ok(suspected) =>
      var sessions := if suspected then CountSuspicious(counted, sessionId) else counted;
      Run(run.log + WindowEffects(roomId, patientId, sessionId, k, score, suspected, world.now), sessions, None)
  }

  /** The first `n` iterations of the window loop, from `start`. */
  function WindowsRun(roomId: string, world: World, p: nat, sessionId: string, patientId: string, n: nat, start: Run): (r: Run)
    requires sessionId in start.sessions
    ensures sessionId in r.sessions
  {
    if n == 0 then start
    else
      var prev := WindowsRun(roomId, world, p, sessionId, patientId, n - 1, start);
      if prev.failure.Some? then prev else WindowStep(roomId, world, p, sessionId, patientId, n - 1, prev)
  }

  /** The loop body for the patient at position `p`, from a run that has not failed. */
  function PatientRun(roomId: string, policy: Node, world: World, p: nat, patient: Node, before: Run): Run {
    match PatientFields(patient)
    case Err(e) => before.(failure := Some(e))
    case Ok((patientId, edfPath)) =>
      var sessionId := world.sessionIdOf(p);
      var started := Run(before.log + [SessionStarted(sessionId)],
                         Begin(before.sessions, sessionId, roomId, patientId, world.now), None);
      if edfPath !in world.recordings then started.(failure := Some(LoadError(edfPath)))
      else
        var signal := world.recordings[edfPath].0;
        var sfreq := world.recordings[edfPath].1;
        match Windows(signal, sfreq, WindowSeconds, OverlapSeconds)
        case Err(e) => started.(failure := Some(e))
        case Ok(windows) =>
          var processed := WindowsRun(roomId, world, p, sessionId, patientId, |windows|, started);
          if processed.failure.Some? then processed
          else
            var ended := Run(processed.log + [SessionEnded(sessionId)],
                             Finish(processed.sessions, sessionId, world.now), None);
            match MinSuspiciousWindows(policy)
            case Err(e) => ended.(failure := Some(e))
            case Ok(minSuspicious) =>
              if ShouldUploadEdf(ended.sessions, sessionId, minSuspicious) == Ok(true)
              then ended.(log := ended.log + [EdfUploaded(edfPath, patientId, sessionId)])
              else ended
  }

  /** The patient loop over `patients`, in order, from `start`; an exception skips the remaining patients. */
  function PatientsRun(roomId: string, policy: Node, world: World, patients: seq<Node>, start: Run): Run {
    if patients == [] then start
    else
      var prev := PatientsRun(roomId, policy, world, patients[..|patients| - 1], start);
      if prev.failure.Some? then prev
      else PatientRun(roomId, policy, world, |patients| - 1, patients[|patients| - 1], prev)
  }

  /** Everything `run_room` does, from registry contents `m`. */
  function RoomRun(roomId: string, config: Node, policy: Node, world: World, m: Registry): Run {
    match RoomPatients(config, roomId)
    case Err(e) => Run([], m, Some(e))
    case Ok(patients) => PatientsRun(roomId, policy, world, patients, Run([], m, None))
  }

  lemma {:induction false} WindowsFailureStops(roomId: string, world: World, p: nat, sessionId: string, patientId: string,
                                               i: nat, j: nat, start: Run)
    requires sessionId in start.sessions
    requires i <= j
    requires WindowsRun(roomId, world, p, sessionId, patientId, i, start).failure.Some?
    ensures WindowsRun(roomId, world, p, sessionId, patientId, j, start)
         == WindowsRun(roomId, world, p, sessionId, patientId, i, start)
  {
    if j > i {
      WindowsFailureStops(roomId, world, p, sessionId, patientId, i, j - 1, start);
    }
  }

  lemma {:induction false} PatientsFailureStops(roomId: string, policy: Node, world: World, patients: seq<Node>,
                                                i: nat, j: nat, start: Run)
    requires i <= j <= |patients|
    requires PatientsRun(roomId, policy, world, patients[..i], start).failure.Some?
    ensures PatientsRun(roomId, policy, world, patients[..j], start)
         == PatientsRun(roomId, policy, world, patients[..i], start)
    decreases j
  {
    if j > i {
      PatientsFailureStops(roomId, policy, world, patients, i, j - 1, start);
      assert patients[..j][..j - 1] == patients[..j - 1];
    }
  }

  /** One iteration of the window loop: window `k` of session `sessionId`, from the calls `log0`. */
  method ProcessWindow(roomId: string, world: World, p: nat, sessionId: string, patientId: string, k: nat,
                       registry: SessionRegistry, log0: seq<Effect>)
    returns (log: seq<Effect>, failure: Option<Error>)
    requires sessionId in registry.sessions
    modifies registry
    ensures Run(log, registry.sessions, failure)
         == WindowStep(roomId, world, p, sessionId, patientId, k, Run(log0, old(registry.sessions), None))
  {
    var registered := registry.RegisterWindow(sessionId);
    log := log0 + [WindowRegistered(sessionId)];
    var probability := world.scoreOf(p, k);
    var suspected := IsSuspected(probability, None, world.thresholdsFile);
    if suspected.Err? {
      return log, Some(suspected.error);
    }
    if suspected.value {
      var flagged := registry.RegisterSuspiciousWindow(sessionId);
      log := log + [SuspiciousRegistered(sessionId)];
      log := log + [LocalAlert(roomId, patientId, sessionId, k, probability)];
    }
    ghost var alert := if suspected.value then [SuspiciousRegistered(sessionId), LocalAlert(roomId, patientId, sessionId, k, probability)] else [];
    assert log == log0 + [WindowRegistered(sessionId)] + alert;
    var event := BuildWindowEvent(roomId, patientId, sessionId, k, probability, suspected.value, world.now);
    log := log + [Published(event)];
    assert log == log0 + WindowEffects(roomId, patientId, sessionId, k, probability, suspected.value, world.now);
    return log, None;
  }

  /** The window loop of one patient: `count` windows, numbered from 0, of session `sessionId`. */
  method ProcessWindows(roomId: string, world: World, p: nat, sessionId: string, patientId: string, count: nat,
                        registry: SessionRegistry, log0: seq<Effect>)
    returns (log: seq<Effect>, failure: Option<Error>)
    requires sessionId in registry.sessions
    modifies registry
    ensures Run(log, registry.sessions, failure)
         == WindowsRun(roomId, world, p, sessionId, patientId, count, Run(log0, old(registry.sessions), None))
  {
    log := log0;
    ghost var start := Run(log0, registry.sessions, None);
    for k := 0 to count
      invariant sessionId in registry.sessions
      invariant WindowsRun(roomId, world, p, sessionId, patientId, k, start) == Run(log, registry.sessions, None)
    {
      log, failure := ProcessWindow(roomId, world, p, sessionId, patientId, k, registry, log);
      if failure.Some? {
        WindowsFailureStops(roomId, world, p, sessionId, patientId, k + 1, count, start);
        return log, failure;
      }
    }
    return log, None;
  }

  /**
   * The loop body for one patient: start the session, load the recording,
   * run the window loop, end the session, then the upload decision. An
   * exception returns at once, with the calls made until then.
   */
  method ProcessPatient(roomId: string, policy: Node, world: World, p: nat, patient: Node,
                        registry: SessionRegistry, log0: seq<Effect>)
    returns (log: seq<Effect>, failure: Option<Error>)
    modifies registry
    ensures Run(log, registry.sessions, failure) == PatientRun(roomId, policy, world, p, patient, Run(log0, old(registry.sessions), None))
  {
    log := log0;
    var fields := PatientFields(patient);
    if fields.Err? {
      return log, Some(fields.error);
    }
    var patientId := fields.value.0;
    var edfPath := fields.value.1;
    var sessionId := registry.StartSession(roomId, patientId, world.sessionIdOf(p), world.now);
    log := log + [SessionStarted(sessionId)];
    ghost var started := Run(log, registry.sessions, None);
    if edfPath !in world.recordings {
      return log, Some(LoadError(edfPath));
    }
    var signal := world.recordings[edfPath].0;
    var sfreq := world.recordings[edfPath].1;
    var windows := GenerateWindows(signal, sfreq, WindowSeconds, OverlapSeconds);
    if windows.Err? {
      return log, Some(windows.error);
    }
    var processed;
    log, processed := ProcessWindows(roomId, world, p, sessionId, patientId, |windows.value|, registry, log);
    if processed.Some? {
      return log, processed;
    }
    var ended := registry.EndSession(roomId, patientId, sessionId, world.now);
    log := log + [SessionEnded(sessionId)];
    var minSuspicious := MinSuspiciousWindows(policy);
    if minSuspicious.Err? {
      return log, Some(minSuspicious.error);
    }
    var upload := ShouldUploadEdf(registry.sessions, sessionId, minSuspicious.value);
    if upload == Ok(true) {
      log := log + [EdfUploaded(edfPath, patientId, sessionId)];
    }
    return log, None;
  }

  /**
   * `run_room`: select the room's patients (a ValueError for an unknown room,
   * before any session starts), then process them strictly in list order.
   * There is no try/finally: an exception for one patient leaves its session
   * as it was and skips the remaining patients.
   */
  method RunRoom(roomId: string, config: Node, sessionPolicy: Node, world: World, registry: SessionRegistry)
    returns (log: seq<Effect>, r: Result<()>)
    modifies registry
    ensures var run := RoomRun(roomId, config, sessionPolicy, world, old(registry.sessions));
      && log == run.log && registry.sessions == run.sessions
      && r == (if run.failure.Some? then Err(run.failure.value) else Ok(()))
  {
    log := [];
    var patients := RoomPatients(config, roomId);
    if patients.Err? {
      return log, Err(patients.error);
    }
    var entries := patients.value;
    ghost var start := Run([], registry.sessions, None);
    for p := 0 to |entries|
      invariant PatientsRun(roomId, sessionPolicy, world, entries[..p], start) == Run(log, registry.sessions, None)
    {
      assert entries[..p + 1][..p] == entries[..p];
      var failure;
      log, failure := ProcessPatient(roomId, sessionPolicy, world, p, entries[p], registry, log);
      if failure.Some? {
        PatientsFailureStops(roomId, sessionPolicy, world, entries, p + 1, |entries|, start);
        assert entries[..|entries|] == entries;
        return log, Err(failure.value);
      }
    }
    assert entries[..|entries|] == entries;
    return log, Ok(());
  }


  /** The threshold `is_suspected` uses when called without a configuration. */
  function FileThreshold(world: World): Result<real> {
    Threshold(None, world.thresholdsFile)
  }

  /** The decision for window `k` of the patient at position `p`, once the threshold loads. */
  predicate Decision(world: World, p: nat, k: nat)
    requires FileThreshold(world).Ok?
  {
    world.scoreOf(p, k) >= FileThreshold(world).value
  }

  /** How many of the first `n` windows of patient `p` are suspected. */
  function SuspiciousCount(world: World, p: nat, n: nat): (c: nat)
    requires FileThreshold(world).Ok?
    ensures c <= n
  {
    if n == 0 then 0 else SuspiciousCount(world, p, n - 1) + (if Decision(world, p, n - 1) then 1 else 0)
  }

  /** The calls for windows 0 .. n-1 when no decision raises, in order. */
  function WindowsLog(roomId: string, world: World, p: nat, sessionId: string, patientId: string, n: nat): seq<Effect>
    requires FileThreshold(world).Ok?
  {
    if n == 0 then []
    else WindowsLog(roomId, world, p, sessionId, patientId, n - 1)
         + WindowEffects(roomId, patientId, sessionId, n - 1, world.scoreOf(p, n - 1), Decision(world, p, n - 1), world.now)
  }

  /** One iteration of the window loop under a loadable threshold, in closed form. */
  lemma WindowStepDecides(roomId: string, world: World, p: nat, sessionId: string, patientId: string, k: nat, run: Run)
    requires sessionId in run.sessions
    requires FileThreshold(world).Ok?
    ensures var suspected := Decision(world, p, k);
      var counted := CountWindow(run.sessions, sessionId);
      WindowStep(roomId, world, p, sessionId, patientId, k, run)
        == Run(run.log + WindowEffects(roomId, patientId, sessionId, k, world.scoreOf(p, k), suspected, world.now),
               if suspected then CountSuspicious(counted, sessionId) else counted, None)
  {
    assert IsSuspected(world.scoreOf(p, k), None, world.thresholdsFile) == Ok(Decision(world, p, k));
  }

  /** One iteration of the window loop under a loadable threshold: its registry change alone. */
  lemma WindowStepCounts(roomId: string, world: World, p: nat, sessionId: string, patientId: string, k: nat, run: Run)
    requires sessionId in run.sessions
    requires FileThreshold(world).Ok?
    ensures var counted := CountWindow(run.sessions, sessionId);
      var r := WindowStep(roomId, world, p, sessionId, patientId, k, run);
      && r.failure.None?
      && r.sessions == if Decision(world, p, k) then CountSuspicious(counted, sessionId) else counted
  {
    WindowStepDecides(roomId, world, p, sessionId, patientId, k, run);
  }

  /**
   * With a loadable threshold the window loop never raises and makes the
   * calls of `WindowsLog`.
   */
  lemma {:induction false} WindowsRunLog(roomId: string, world: World, p: nat, sessionId: string, patientId: string,
                                         n: nat, start: Run)
    requires sessionId in start.sessions && start.failure.None?
    requires FileThreshold(world).Ok?
    ensures var r := WindowsRun(roomId, world, p, sessionId, patientId, n, start);
      && r.failure.None?
      && r.log == start.log + WindowsLog(roomId, world, p, sessionId, patientId, n)
  {
    if n > 0 {
      WindowsRunLog(roomId, world, p, sessionId, patientId, n - 1, start);
      var prev := WindowsRun(roomId, world, p, sessionId, patientId, n - 1, start);
      WindowStepDecides(roomId, world, p, sessionId, patientId, n - 1, prev);
      var effects := WindowEffects(roomId, patientId, sessionId, n - 1, world.scoreOf(p, n - 1), Decision(world, p, n - 1), world.now);
      ConcatAssociative(start.log, WindowsLog(roomId, world, p, sessionId, patientId, n - 1), effects);
    }
  }

  /** With a loadable threshold the window loop never raises. */
  lemma {:induction false} WindowsRunSucceeds(roomId: string, world: World, p: nat, sessionId: string, patientId: string,
                                              n: nat, start: Run)
    requires sessionId in start.sessions && start.failure.None?
    requires FileThreshold(world).Ok?
    ensures WindowsRun(roomId, world, p, sessionId, patientId, n, start).failure.None?
  {
    if n > 0 {
      WindowsRunSucceeds(roomId, world, p, sessionId, patientId, n - 1, start);
      var prev := WindowsRun(roomId, world, p, sessionId, patientId, n - 1, start);
      WindowStepCounts(roomId, world, p, sessionId, patientId, n - 1, prev);
    }
  }

  /**
   * With a loadable threshold the window loop counts all `n` windows and
   * exactly the suspected ones, and touches no other session.
   */
  lemma {:induction false} WindowsRunCounts(roomId: string, world: World, p: nat, sessionId: string, patientId: string,
                                            n: nat, start: Run)
    requires sessionId in start.sessions && start.failure.None?
    requires FileThreshold(world).Ok?
    ensures var r := WindowsRun(roomId, world, p, sessionId, patientId, n, start);
      var s := start.sessions[sessionId];
      r.sessions == start.sessions[sessionId := s.(windowsProcessed := s.windowsProcessed + n,
                                                   suspiciousWindows := s.suspiciousWindows + SuspiciousCount(world, p, n))]
  {
    if n > 0 {
      var prev := WindowsRun(roomId, world, p, sessionId, patientId, n - 1, start);
      var s := start.sessions[sessionId];
      var before := s.(windowsProcessed := s.windowsProcessed + (n - 1),
                       suspiciousWindows := s.suspiciousWindows + SuspiciousCount(world, p, n - 1));
      assert prev.sessions == start.sessions[sessionId := before] by {
        WindowsRunCounts(roomId, world, p, sessionId, patientId, n - 1, start);
      }
      assert WindowsRun(roomId, world, p, sessionId, patientId, n, start) == WindowStep(roomId, world, p, sessionId, patientId, n - 1, prev) by {
        WindowsRunSucceeds(roomId, world, p, sessionId, patientId, n - 1, start);
      }
      var suspected := Decision(world, p, n - 1);
      var counted := CountWindow(prev.sessions, sessionId);
      assert WindowStep(roomId, world, p, sessionId, patientId, n - 1, prev).sessions
               == if suspected then CountSuspicious(counted, sessionId) else counted by {
        WindowStepCounts(roomId, world, p, sessionId, patientId, n - 1, prev);
      }
      CountStep(start.sessions, sessionId, before, suspected);
    }
  }

  /**
   * A threshold that does not load stops the window loop at the first
   * window, after that window was counted and before anything was published.
   */
  lemma WindowsRunFailsAtFirstWindow(roomId: string, world: World, p: nat, sessionId: string, patientId: string,
                                     n: nat, start: Run)
    requires sessionId in start.sessions && start.failure.None?
    requires FileThreshold(world).Err? && n > 0
    ensures WindowsRun(roomId, world, p, sessionId, patientId, n, start)
         == Run(start.log + [WindowRegistered(sessionId)], CountWindow(start.sessions, sessionId), Some(FileThreshold(world).error))
  {
    WindowsFailureStops(roomId, world, p, sessionId, patientId, 1, n, start);
  }

  lemma ConcatAssociative(a: seq<Effect>, b: seq<Effect>, c: seq<Effect>)
    ensures (a + b) + c == a + (b + c)
  {
  }

  /** One window's registry updates on a session whose record is `s`. */
  lemma CountStep(m: Registry, sessionId: string, s: Session, suspected: bool)
    ensures var counted := CountWindow(m[sessionId := s], sessionId);
      (if suspected then CountSuspicious(counted, sessionId) else counted)
        == m[sessionId := s.(windowsProcessed := s.windowsProcessed + 1,
                             suspiciousWindows := s.suspiciousWindows + (if suspected then 1 else 0))]
  {
  }

  /** The events a log publishes, in order. */
  function PublishedOf(log: seq<Effect>): seq<Event> {
    if log == [] then []
    else PublishedOf(log[..|log| - 1]) + (if log[|log| - 1].Published? then [log[|log| - 1].event] else [])
  }

  /** The local alerts a log raises, as (window index, score), in order. */
  function AlertsOf(log: seq<Effect>): seq<(nat, real)> {
    if log == [] then []
    else AlertsOf(log[..|log| - 1])
         + (if log[|log| - 1].LocalAlert? then [(log[|log| - 1].windowIndex, log[|log| - 1].score)] else [])
  }

  lemma {:induction false} FiltersConcat(a: seq<Effect>, b: seq<Effect>)
    ensures PublishedOf(a + b) == PublishedOf(a) + PublishedOf(b)
    ensures AlertsOf(a + b) == AlertsOf(a) + AlertsOf(b)
    decreases |b|
  {
    if b == [] {
      assert a + b == a;
    } else {
      FiltersConcat(a, b[..|b| - 1]);
      assert (a + b)[..|a + b| - 1] == a + b[..|b| - 1];
    }
  }

  /** The calls for one window publish exactly its event and alert exactly when it is suspected. */
  lemma WindowEffectsFilters(roomId: string, patientId: string, sessionId: string, k: nat, score: real, suspected: bool, now: string)
    ensures var effects := WindowEffects(roomId, patientId, sessionId, k, score, suspected, now);
      && PublishedOf(effects) == [BuildWindowEvent(roomId, patientId, sessionId, k, score, suspected, now)]
      && AlertsOf(effects) == (if suspected then [(k, score)] else [])
  {
    var registered := [WindowRegistered(sessionId)];
    var alert := if suspected then [SuspiciousRegistered(sessionId), LocalAlert(roomId, patientId, sessionId, k, score)] else [];
    var published := [Published(BuildWindowEvent(roomId, patientId, sessionId, k, score, suspected, now))];
    FiltersConcat(registered + alert, published);
    FiltersConcat(registered, alert);
    assert registered[..0] == [] && published[..0] == [];
    if suspected {
      assert alert[..1] == [SuspiciousRegistered(sessionId)];
      assert alert[..1][..0] == [];
    }
  }

  /** The event published for window `k`. */
  function WindowEvent(roomId: string, world: World, p: nat, sessionId: string, patientId: string, k: nat): Event
    requires FileThreshold(world).Ok?
  {
    BuildWindowEvent(roomId, patientId, sessionId, k, world.scoreOf(p, k), Decision(world, p, k), world.now)
  }

  /**
   * Exactly one event per window, in window order: the i-th published event
   * is window i's, carrying its score and its decision as `suspected`.
   */
  lemma {:induction false} OneEventPerWindow(roomId: string, world: World, p: nat, sessionId: string, patientId: string, n: nat)
    requires FileThreshold(world).Ok?
    ensures var events := PublishedOf(WindowsLog(roomId, world, p, sessionId, patientId, n));
      && |events| == n
      && forall i :: 0 <= i < n ==> events[i] == WindowEvent(roomId, world, p, sessionId, patientId, i)
  {
    if n > 0 {
      var k := n - 1;
      OneEventPerWindow(roomId, world, p, sessionId, patientId, k);
      var prevEvents := PublishedOf(WindowsLog(roomId, world, p, sessionId, patientId, k));
      var effects := WindowEffects(roomId, patientId, sessionId, k, world.scoreOf(p, k), Decision(world, p, k), world.now);
      var events := PublishedOf(WindowsLog(roomId, world, p, sessionId, patientId, n));
      assert events == prevEvents + [WindowEvent(roomId, world, p, sessionId, patientId, k)] by {
        FiltersConcat(WindowsLog(roomId, world, p, sessionId, patientId, k), effects);
        WindowEffectsFilters(roomId, patientId, sessionId, k, world.scoreOf(p, k), Decision(world, p, k), world.now);
      }
      forall i | 0 <= i < n
        ensures events[i] == WindowEvent(roomId, world, p, sessionId, patientId, i)
      {
        if i < k {
          assert events[i] == prevEvents[i];
        }
      }
    }
  }

  /** The suspected windows among the first `n` of patient `p`, as (window index, score), in order. */
  function SuspectedWindows(world: World, p: nat, n: nat): (ws: seq<(nat, real)>)
    requires FileThreshold(world).Ok?
    ensures |ws| == SuspiciousCount(world, p, n)
    ensures forall w :: w in ws ==> w.0 < n && w.1 == world.scoreOf(p, w.0) && w.1 >= FileThreshold(world).value
  {
    if n == 0 then []
    else SuspectedWindows(world, p, n - 1) + (if Decision(world, p, n - 1) then [(n - 1, world.scoreOf(p, n - 1))] else [])
  }

  /**
   * The local alerts are exactly the suspected windows, in window order:
   * one per window whose score reaches the threshold, none for the others.
   */
  lemma {:induction false} AlertsMatchDecisions(roomId: string, world: World, p: nat, sessionId: string, patientId: string, n: nat)
    requires FileThreshold(world).Ok?
    ensures AlertsOf(WindowsLog(roomId, world, p, sessionId, patientId, n)) == SuspectedWindows(world, p, n)
  {
    if n > 0 {
      var k := n - 1;
      AlertsMatchDecisions(roomId, world, p, sessionId, patientId, k);
      var prev := WindowsLog(roomId, world, p, sessionId, patientId, k);
      var suspected := Decision(world, p, k);
      var effects := WindowEffects(roomId, patientId, sessionId, k, world.scoreOf(p, k), suspected, world.now);
      assert AlertsOf(prev + effects) == AlertsOf(prev) + AlertsOf(effects) by {
        FiltersConcat(prev, effects);
      }
      assert AlertsOf(effects) == (if suspected then [(k, world.scoreOf(p, k))] else []) by {
        WindowEffectsFilters(roomId, patientId, sessionId, k, world.scoreOf(p, k), suspected, world.now);
      }
    }
  }

  /** The local alert for a window is raised exactly when its published event says `suspected`. */
  lemma AlertIffEventSuspected(roomId: string, world: World, p: nat, sessionId: string, patientId: string, k: nat)
    requires FileThreshold(world).Ok?
    ensures var score := world.scoreOf(p, k);
      var effects := WindowEffects(roomId, patientId, sessionId, k, score, Decision(world, p, k), world.now);
      (LocalAlert(roomId, patientId, sessionId, k, score) in effects)
        <==> WindowEvent(roomId, world, p, sessionId, patientId, k)["suspected"] == JBool(true)
  {
  }

  /**
   * A patient whose recording loads and windows, under a loadable threshold
   * and policy: its session is started, every window is counted, the
   * session is ended at the clock reading, and the recording is uploaded,
   * after the end, exactly when the suspicious count reaches the policy's
   * minimum. No other session changes.
   */
  lemma PatientCompletes(roomId: string, policy: Node, world: World, p: nat, patient: Node, before: Run,
                         patientId: string, edfPath: string, windows: seq<Window>, minSuspicious: int)
    requires before.failure.None?
    requires PatientFields(patient) == Ok((patientId, edfPath))
    requires edfPath in world.recordings
    requires Windows(world.recordings[edfPath].0, world.recordings[edfPath].1, WindowSeconds, OverlapSeconds) == Ok(windows)
    requires FileThreshold(world).Ok?
    requires MinSuspiciousWindows(policy) == Ok(minSuspicious)
    ensures var sessionId := world.sessionIdOf(p);
      var n := |windows|;
      var suspicious := SuspiciousCount(world, p, n);
      var r := PatientRun(roomId, policy, world, p, patient, before);
      && r.failure.None?
      && r.sessions == before.sessions[sessionId := Session(roomId, patientId, world.now, world.now, n, suspicious)]
      && r.log == before.log + [SessionStarted(sessionId)] + WindowsLog(roomId, world, p, sessionId, patientId, n)
                  + [SessionEnded(sessionId)]
                  + (if suspicious >= minSuspicious then [EdfUploaded(edfPath, patientId, sessionId)] else [])
  {
    var sessionId := world.sessionIdOf(p);
    var n := |windows|;
    var started := Run(before.log + [SessionStarted(sessionId)],
                       Begin(before.sessions, sessionId, roomId, patientId, world.now), None);
    WindowsRunLog(roomId, world, p, sessionId, patientId, n, started);
    WindowsRunCounts(roomId, world, p, sessionId, patientId, n, started);
    var processed := WindowsRun(roomId, world, p, sessionId, patientId, n, started);
    assert processed.sessions == before.sessions[sessionId := Session(roomId, patientId, world.now, "", n, SuspiciousCount(world, p, n))];
  }

  /**
   * A recording that does not load raises after its session was started:
   * the session stays registered with no end time and no windows.
   */
  lemma LoadFailureLeavesSessionOpen(roomId: string, policy: Node, world: World, p: nat, patient: Node, before: Run,
                                     patientId: string, edfPath: string)
    requires PatientFields(patient) == Ok((patientId, edfPath))
    requires edfPath !in world.recordings
    ensures var sessionId := world.sessionIdOf(p);
      var r := PatientRun(roomId, policy, world, p, patient, before);
      && r.failure == Some(LoadError(edfPath))
      && r.log == before.log + [SessionStarted(sessionId)]
      && sessionId in r.sessions
      && r.sessions[sessionId] == Session(roomId, patientId, world.now, "", 0, 0)
  {
  }

  /** An unknown room is a ValueError before any session starts: no calls, and the registry is unchanged. */
  lemma UnknownRoomStartsNothing(roomId: string, rooms: map<string, Node>, config: map<string, Node>,
                                 policy: Node, world: World, m: Registry)
    requires "rooms" in config && config["rooms"] == Section(rooms) && roomId !in rooms
    ensures RoomRun(roomId, Section(config), policy, world, m)
         == Run([], m, Some(ValueError("Room '" + roomId + "' not found in configuration")))
  {
  }

  /** Scores 0.5, 0.9, 0.85, 0.2 for windows 0 to 3. */
  function ExampleScores(p: nat, k: nat): real {
    if k == 0 then 0.5 else if k == 1 then 0.9 else if k == 2 then 0.85 else 0.2
  }

  /**
   * Scores 0.5, 0.9, 0.85, 0.2 against a threshold of 0.8 read from the
   * thresholds file: windows 1 and 2 are suspected and alerted with their
   * scores, the session counts 4 windows of which 2 suspicious, and all
   * four events are published.
   */
  lemma FourWindowExample(roomId: string, sessionId: string, patientId: string,
                          recordings: map<string, (Signal, int)>, sessionIdOf: nat -> string, now: string)
    ensures var world := World(recordings, ExampleScores,
                               Some(Section(map["inference" := Section(map["suspicious_threshold" := Real(0.8)])])),
                               sessionIdOf, now);
      && FileThreshold(world) == Ok(0.8)
      && SuspiciousCount(world, 0, 4) == 2
      && AlertsOf(WindowsLog(roomId, world, 0, sessionId, patientId, 4)) == [(1, 0.9), (2, 0.85)]
      && |PublishedOf(WindowsLog(roomId, world, 0, sessionId, patientId, 4))| == 4
  {
    var world := World(recordings, ExampleScores,
                       Some(Section(map["inference" := Section(map["suspicious_threshold" := Real(0.8)])])),
                       sessionIdOf, now);
    assert FileThreshold(world) == Ok(0.8);
    OneEventPerWindow(roomId, world, 0, sessionId, patientId, 4);
    AlertsMatchDecisions(roomId, world, 0, sessionId, patientId, 4);
    assert SuspectedWindows(world, 0, 1) == [];
    assert SuspectedWindows(world, 0, 2) == [(1, 0.9)];
    assert SuspectedWindows(world, 0, 3) == [(1, 0.9), (2, 0.85)];
    assert SuspectedWindows(world, 0, 4) == [(1, 0.9), (2, 0.85)];
  }

  /** The window loop changes only the record of its own session. */
  lemma {:induction false} WindowsRunFrame(roomId: string, world: World, p: nat, sessionId: string, patientId: string,
                                           n: nat, start: Run)
    requires sessionId in start.sessions
    ensures var r := WindowsRun(roomId, world, p, sessionId, patientId, n, start);
      && r.sessions.Keys == start.sessions.Keys
      && forall id :: id in start.sessions && id != sessionId ==> r.sessions[id] == start.sessions[id]
  {
    if n > 0 {
      WindowsRunFrame(roomId, world, p, sessionId, patientId, n - 1, start);
    }
  }

  /**
   * A patient that raises nothing ends its session at the clock reading
   * and leaves every other session as it was.
   */
  lemma PatientEndsItsSession(roomId: string, policy: Node, world: World, p: nat, patient: Node, before: Run)
    requires PatientRun(roomId, policy, world, p, patient, before).failure.None?
    ensures var r := PatientRun(roomId, policy, world, p, patient, before);
      var sessionId := world.sessionIdOf(p);
      && sessionId in r.sessions && r.sessions[sessionId].endTime == world.now
      && r.sessions.Keys == before.sessions.Keys + {sessionId}
      && forall id :: id in before.sessions && id != sessionId ==> r.sessions[id] == before.sessions[id]
  {
    var fields := PatientFields(patient);
    var sessionId := world.sessionIdOf(p);
    var started := Run(before.log + [SessionStarted(sessionId)],
                       Begin(before.sessions, sessionId, roomId, fields.value.0, world.now), None);
    var edfPath := fields.value.1;
    var windows := Windows(world.recordings[edfPath].0, world.recordings[edfPath].1, WindowSeconds, OverlapSeconds);
    WindowsRunFrame(roomId, world, p, sessionId, fields.value.0, |windows.value|, started);
  }

  /** The session ids the uuid oracle hands to the first `n` patients. */
  function StartedIds(world: World, n: nat): set<string> {
    set i: nat | i < n :: world.sessionIdOf(i)
  }

  /**
   * A room run that raises nothing ends every session it started, and
   * leaves every session it did not start as it was.
   */
  lemma {:induction false} RoomEndsEverySession(roomId: string, policy: Node, world: World, patients: seq<Node>, start: Run)
    requires start.failure.None?
    requires PatientsRun(roomId, policy, world, patients, start).failure.None?
    ensures var r := PatientsRun(roomId, policy, world, patients, start);
      && (forall id :: id in StartedIds(world, |patients|) ==> id in r.sessions && r.sessions[id].endTime == world.now)
      && (forall id :: id in start.sessions && id !in StartedIds(world, |patients|) ==> id in r.sessions && r.sessions[id] == start.sessions[id])
  {
    if patients != [] {
      var k := |patients| - 1;
      var prefix := patients[..k];
      var prev := PatientsRun(roomId, policy, world, prefix, start);
      var r := PatientsRun(roomId, policy, world, patients, start);
      assert prev.failure.None? && r == PatientRun(roomId, policy, world, k, patients[k], prev);
      RoomEndsEverySession(roomId, policy, world, prefix, start);
      PatientEndsItsSession(roomId, policy, world, k, patients[k], prev);
      assert StartedIds(world, |patients|) == StartedIds(world, k) + {world.sessionIdOf(k)};
    }
  }
}
