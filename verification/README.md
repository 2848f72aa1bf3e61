# EEG seizure fog/cloud pipeline — a Dafny model of its core

This project models the part of the EEG seizure-monitoring pipeline that makes decisions and keeps state, and proves properties of the model.

The fog node simulates a hospital room. For each patient assigned to the room, in order, it:

- starts a session;
- loads the patient's EDF recording;
- cuts the recording into fixed-length windows;
- scores each window and registers it;
- for a window that is suspected (its score reaches the configured threshold), counts it and raises a local alert;
- publishes a versioned per-window event;
- ends the session, then uploads the recording if the session had enough suspicious windows.

In the cloud, two functions complete the picture:

- A stream consumer writes each event to the data-lake bucket and adds it to per-(patient, session) counters in the session-state table.
- A change-stream handler on that table publishes a session alert once a row's suspected count reaches a threshold.

Modules, one per core source file plus two helper modules (`Base` and `Config`):

- `Base`: Python exceptions as a `Result`, and `int()` / `str()` on numbers.
- `Config`: parsed YAML as a `Node` tree, with Python's `in`, `[]`, `float()` and `int()`.
- `Windowing`: `generate_windows`. Its loop is an imperative method, proved equal to a function of the signal.
- `Thresholds`: `load_thresholds` and `is_suspected`.
- `Sessions`: the in-memory registry as a class `SessionRegistry` whose `sessions` map field the methods update.
- `Events`: the event record as a map from key to JSON scalar.
- `RunRoom`: the loaders and `run_room`.
  - The nested patient/window loops are methods driving a `SessionRegistry`.
  - Each method is proved equal to a specification function (`RoomRun`, `PatientRun`, `WindowsRun`).
  - The calls the loop makes are recorded as a log of `Effect`s.
- `KinesisConsumer`: the stream-consumer Lambda.
- `DynamoAlerts`: the table-stream alert Lambda.

Collaborators outside the core are parameters (`RunRoom.World`):

- the EDF loader, as a map from path to (signal, rate);
- inference, as a score per (patient position, window index);
- the thresholds file, as its parsed contents;
- `uuid4`, as a session id per patient position;
- the UTC clock, as one reading.

Local alerts, event publication and EDF upload are recorded in the log and not otherwise modelled.

## Behaviour of the code worth knowing

The model follows the code as written, including these points:

- **No session state machine.** The registry keeps no Active/Ended state. A window registered after `end_session` is still counted, and a second `end_session` overwrites the end time (`Sessions.EndedSessionStillCounts`).
- **No failure isolation.** `run_room` (fog/room_simulators/run_room.py:108-220) has no `try`/`finally` and no `except`. Any exception (a recording that does not load, a malformed window, a missing threshold) propagates out of `run_room`. It leaves the current session started but not ended, and skips the remaining patients (`RunRoom.LoadFailureLeavesSessionOpen`, `RunRoom.PatientsFailureStops`).
- **Threshold not validated, re-read each call.** The threshold is not checked to lie in [0, 1]. It is read from the file on every `is_suspected` call, twice per window. A file that does not load stops the room at the first window, after that window was counted (`RunRoom.WindowsRunFailsAtFirstWindow`).
- **Ties are suspected.** A score equal to the threshold counts as suspected (`score >= threshold`, `Thresholds.TieIsSuspected`).
- **Called functions not defined in the files.** `run_room` calls `build_window_event`, `register_suspicious_window` and `should_upload_edf`, which the event-builder and session-manager files do not define. They are modelled from their call sites (fog/room_simulators/run_room.py:171, 182-189, 203):
  - `Events.BuildWindowEvent` is the record of `build_suspected_window_event` plus a `suspected` flag. That is the field the stream consumer reads (cloud/lambda_src/kinesis_consumer/handler.py:85) and the analytics table declares (cloud/components/analytics/glue_table.py:54).
  - `Sessions.SessionRegistry.RegisterSuspiciousWindow` increments a `suspiciousWindows` counter.
  - `Sessions.ShouldUploadEdf` compares that counter with the minimum.

## Model

| member | source | states |
|---|---|---|
| Base.Trunc | fog/pipeline/windowing.py:59-60 | `int()` of a duration times the rate keeps the integer part, truncating toward zero, for both signs |
| Base.TruncMonotonic | fog/pipeline/windowing.py:59-60 | a longer duration never gives fewer samples |
| Base.ParseInt | cloud/lambda_src/dynamo_alerts/handler.py:22-23 | `int(text)` succeeds exactly on an optional minus sign followed by a non-empty run of digits; the result's sign follows the text |
| Base.IntToStringRoundTrip | cloud/lambda_src/kinesis_consumer/handler.py:51 | the decimal text of an integer (the window index in the object key) parses back to the same integer |
| Base.IntToStringInjective | cloud/lambda_src/kinesis_consumer/handler.py:46-52 | different window indices render as different text |
| Config.HasKey | fog/pipeline/thresholds.py:51 | `key in value` on parsed YAML: key membership for a mapping, entry membership for a list, substring search for text, a TypeError for other scalars |
| Config.Get | fog/pipeline/thresholds.py:86 | `value[key]` is the mapping's entry; a KeyError when the key is missing; a TypeError on a non-mapping |
| Config.AsReal | fog/pipeline/thresholds.py:85-87 | `float()` of a YAML number is that number, true and false are 1.0 and 0.0, text is a ValueError, a null, list or mapping is a TypeError |
| Config.AsInt | fog/room_simulators/run_room.py:200-202 | `int()` keeps integers, truncates floats toward zero, maps true and false to 1 and 0, and parses text |
| Config.AsText | fog/room_simulators/run_room.py:130-131 | a patient's identifier and path are text values read as they are |
| Windowing.MakePlan | fog/pipeline/windowing.py:54-64 | the rank check comes first (ValueError), then the step in samples must be positive (ValueError); an accepted plan has window = `int(window_s * sfreq)`, window − step = `int(overlap_s * sfreq)` and a positive step |
| Windowing.Windows | fog/pipeline/windowing.py:54-76 | the generator's output exists exactly when the plan is accepted, and otherwise is the plan's error; `WindowsCount`, `WindowAt`, `StartsFit` and `WindowContents` describe its windows |
| Windowing.GenerateWindows | fog/pipeline/windowing.py:54-76 | the loop yields exactly the windows `Windows` describes, or raises the error before the first window |
| Windowing.StartsClosedForm | fog/pipeline/windowing.py:66-76 | the k-th window starts at k × step, and there are `WindowCount` of them |
| Windowing.WindowsCount | fog/pipeline/windowing.py:66-76 | the number of windows is (n − window) / step + 1 when the signal holds one window, else 0 |
| Windowing.WindowAt | fog/pipeline/windowing.py:68-69 | window k is `signal[:, k*step : k*step + window]` and lies inside the signal |
| Windowing.StartsFit | fog/pipeline/windowing.py:68-69 | every window start leaves room for a whole window before the end of the signal |
| Windowing.TrailingWindowDropped | fog/pipeline/windowing.py:68 | the start after the last window would run past the end, so a trailing partial window is never yielded |
| Windowing.StartsIncrease | fog/pipeline/windowing.py:76 | window starts strictly increase |
| Windowing.WindowContents | fog/pipeline/windowing.py:69 | every window keeps every channel and exactly `window` consecutive samples of each, taken from the signal at its start |
| Windowing.NotMatrixRejected | fog/pipeline/windowing.py:54-55 | a signal that is not 2-D raises the shape ValueError and yields nothing |
| Windowing.OverlapNotShorterRejected | fog/pipeline/windowing.py:59-64 | an overlap at least as long as the window raises the overlap ValueError |
| Windowing.SubSampleOverlapRejected | fog/pipeline/windowing.py:59-64 | the check is on whole samples: 1.5 s windows with 1.2 s overlap at 1 Hz have step 0 and are rejected |
| Windowing.OverlapBoundaryExample | fog/pipeline/windowing.py:59-64 | at 250 Hz, 2 s windows with 2 s overlap are rejected; with 1.99 s overlap the step is 3 samples |
| Windowing.TenSecondExample | fog/pipeline/windowing.py:25-31 | ten seconds at 250 Hz with the default 4 s windows give two windows, at samples 0 and 1000 |
| Thresholds.LoadThresholds | fog/pipeline/thresholds.py:29-54 | a missing file is a FileNotFoundError; an accepted document is the file's and holds `inference.suspicious_threshold` |
| Thresholds.MissingStructureRejected | fog/pipeline/thresholds.py:51-52 | a document without `inference`, or whose `inference` lacks the threshold, is the structure ValueError |
| Thresholds.Threshold | fog/pipeline/thresholds.py:82-87 | without a configuration, or with one that is None (an empty YAML document), a file that does not load gives its error; a threshold that is read is `float()` of `inference.suspicious_threshold` in the configuration used |
| Thresholds.IsSuspected | fog/pipeline/thresholds.py:61-89 | the decision is true exactly when the score reaches the threshold (the given configuration's unless it is None, else the file's); it fails exactly when the threshold cannot be read, with that error |
| Thresholds.WellFormedConfigDecides | fog/pipeline/thresholds.py:82-89 | a document nesting a threshold that `float()` reads as t (a YAML float, integer or boolean) decides `score >= t`, whether passed in or read from the file |
| Thresholds.TieIsSuspected | fog/pipeline/thresholds.py:89 | a score equal to the threshold is suspected |
| Thresholds.SuspicionMonotonic | fog/pipeline/thresholds.py:89 | raising a suspected score keeps it suspected |
| Thresholds.ExplicitConfigIgnoresFile | fog/pipeline/thresholds.py:82-83 | with a configuration passed in that is not None, the file is never consulted |
| Thresholds.NullConfigReadsFile | fog/pipeline/thresholds.py:82-83 | a configuration that is None (an empty YAML document) decides exactly as no configuration, from the file |
| Thresholds.FailureIgnoresScore | fog/pipeline/thresholds.py:82-87 | whether the decision fails, and with which error, does not depend on the score |
| Sessions.ShouldUploadEdf | fog/room_simulators/run_room.py:200-203 | upload is decided exactly when the session's suspicious count reaches the minimum; an unknown id is the not-found KeyError |
| Sessions.UpdatesGrow | fog/pipeline/session_manager.py:94-97 | counting a window, counting a suspicious window and ending a session never shrink a session: identity kept, counters not lower |
| Sessions.BeginAddsOne | fog/pipeline/session_manager.py:58-67 | starting under an unused id adds exactly one entry and leaves every other entry as it was |
| Sessions.GrowsTransitive | fog/pipeline/session_manager.py:94-97 | growth composes over two steps |
| Sessions.UpdateSequenceGrows | fog/pipeline/session_manager.py:82-135 | any sequence of window counts, suspicious counts and session ends (known ids updated, unknown ids left alone) neither adds nor removes a session and never shrinks one |
| Sessions.SessionRegistry.constructor | fog/pipeline/session_manager.py:31 | the registry starts empty |
| Sessions.SessionRegistry.StartSession | fog/pipeline/session_manager.py:38-79 | returns the supplied fresh id, now mapped to a record with the room, patient, start time, no end time and zero counters |
| Sessions.SessionRegistry.RegisterWindow | fog/pipeline/session_manager.py:82-97 | succeeds exactly for a known id, adding one processed window; otherwise the not-found KeyError and nothing changes |
| Sessions.SessionRegistry.RegisterSuspiciousWindow | fog/room_simulators/run_room.py:171 | succeeds exactly for a known id, adding one suspicious window; otherwise the not-found KeyError and nothing changes |
| Sessions.SessionRegistry.EndSession | fog/pipeline/session_manager.py:100-135 | succeeds exactly for a known id, setting its end time; otherwise the not-found KeyError and nothing changes |
| Sessions.EndedSessionStillCounts | fog/pipeline/session_manager.py:94-122 | after `end_session`, a window is still counted and a second end overwrites the end time |
| Sessions.UnknownSessionRejected | fog/pipeline/session_manager.py:94-95 | operations on an id never started fail with the not-found KeyError and change nothing |
| Events.BuildSuspectedWindowEvent | fog/pipeline/event_builder.py:24-68 | the record has no `suspected` key; `BuiltEventReadsBack` and `OnlyTimestampFromClock` give its keys and values |
| Events.BuildWindowEvent | fog/room_simulators/run_room.py:182-189 | the record carries `suspected` holding the decision; `WindowEventExtendsSchema` gives the rest |
| Events.BuiltEventReadsBack | fog/pipeline/event_builder.py:24-68 | the record has exactly the eight schema keys, version "1.0" and type SUSPECTED_EEG_WINDOW; reading it back gives the identifiers, index and score it was built from; it has no `suspected` key |
| Events.OnlyTimestampFromClock | fog/pipeline/event_builder.py:53-66 | two records built from the same arguments differ at most in `timestamp_utc` |
| Events.WindowEventExtendsSchema | fog/room_simulators/run_room.py:182-189 | the record with `suspected` keeps every schema field with the same value and adds only `suspected`, holding the decision |
| KinesisConsumer.Field | cloud/lambda_src/kinesis_consumer/handler.py:49-51 | `event[key]` is the value for a present key and a KeyError otherwise |
| KinesisConsumer.Render | cloud/lambda_src/kinesis_consumer/handler.py:46-52 | text renders as itself, integers as their decimal text and null as "None" |
| KinesisConsumer.NullValuesConsumed | cloud/lambda_src/kinesis_consumer/handler.py:46-87 | a null patient id renders as "None" in the object key, and a null `suspected` counts as not suspected |
| KinesisConsumer.S3Key | cloud/lambda_src/kinesis_consumer/handler.py:45-52 | the key exists exactly when patient, session and window index are present and renderable; a missing patient is a KeyError |
| KinesisConsumer.S3KeySeparatesWindows | cloud/lambda_src/kinesis_consumer/handler.py:46-52 | two events that differ only in their integer window index get different object keys, so no window overwrites another |
| KinesisConsumer.StoreEventInS3 | cloud/lambda_src/kinesis_consumer/handler.py:40-59 | writes the event followed by a newline to the data-lake bucket under its date/patient/session/window key, and fails exactly when the key cannot be built |
| KinesisConsumer.UpdateDynamoDB | cloud/lambda_src/kinesis_consumer/handler.py:62-88 | succeeds exactly when the event has patient, session and `suspected`; the (patient, session) row gains one window, and one suspected window when `suspected` is truthy; no other row changes |
| KinesisConsumer.FailureStops | cloud/lambda_src/kinesis_consumer/handler.py:104-108 | once a record raises, later records are not processed |
| KinesisConsumer.Handler | cloud/lambda_src/kinesis_consumer/handler.py:95-113 | the loop stores then counts each record, in order, and answers 200 with the record count; a missing `Records` is an empty batch |
| KinesisConsumer.ConsumeWritesInOrder | cloud/lambda_src/kinesis_consumer/handler.py:104-108 | a completed batch wrote one object per record, in record order, each under its record's key |
| KinesisConsumer.ConsumeAggregates | cloud/lambda_src/kinesis_consumer/handler.py:74-87 | after a completed batch each row's total grew by the number of its events, and its suspected count by the number of its suspected events |
| KinesisConsumer.ConsumeKeepsRowsConsistent | cloud/lambda_src/kinesis_consumer/handler.py:79-86 | rows with 0 ≤ suspected ≤ total keep that property, even when a record fails |
| KinesisConsumer.WindowEventConsumed | cloud/lambda_src/kinesis_consumer/handler.py:46-87 | an event built with `suspected` is stored under its identifiers and index, and counted in its (patient, session) row |
| KinesisConsumer.SchemaEventRejected | cloud/lambda_src/kinesis_consumer/handler.py:85 | the record built by `build_suspected_window_event` is stored and then fails on `event["suspected"]` before it is counted |
| DynamoAlerts.NumberAttr | cloud/lambda_src/dynamo_alerts/handler.py:22-23 | `int(image[name]["N"])` parses the numeric attribute; it fails when the attribute is absent or not numeric |
| DynamoAlerts.StringAttr | cloud/lambda_src/dynamo_alerts/handler.py:28-29 | `image[name]["S"]` is the string attribute, present exactly when the attribute is a string |
| DynamoAlerts.AlertFilter | cloud/lambda_src/dynamo_alerts/handler.py:15-32 | a record other than INSERT or MODIFY, or whose new image is absent or empty, is skipped; a readable image alerts exactly when its suspected count reaches the threshold, copying the key and both counters |
| DynamoAlerts.FailureStops | cloud/lambda_src/dynamo_alerts/handler.py:13-38 | once a record raises, later records publish nothing |
| DynamoAlerts.ProcessRecord | cloud/lambda_src/dynamo_alerts/handler.py:14-38 | the loop body's guards and reads compute exactly `RecordAlert` |
| DynamoAlerts.Handler | cloud/lambda_src/dynamo_alerts/handler.py:10-40 | a missing `Records` is a KeyError; otherwise the records' alerts are published in order, and the answer is 200 unless a record raised |
| DynamoAlerts.ScanPublishesAtMostOncePerRecord | cloud/lambda_src/dynamo_alerts/handler.py:25-38 | at most one publish per record, each to the topic with the fixed subject, for a count at or over the threshold |
| DynamoAlerts.SkippedRecordsPublishNothing | cloud/lambda_src/dynamo_alerts/handler.py:15-20 | a batch of skipped records publishes nothing and answers normally |
| DynamoAlerts.ThresholdReachedExample | cloud/lambda_src/dynamo_alerts/handler.py:22-38 | a MODIFY with 5 of 9 windows suspected against threshold 3 publishes one alert with those counters |
| RunRoom.LoadRoomAssignments | fog/room_simulators/run_room.py:62-85 | a missing file is a FileNotFoundError; an accepted document holds `rooms`; for a mapping, it is accepted exactly when `rooms` is present |
| RunRoom.LoadSessionPolicy | fog/room_simulators/run_room.py:88-101 | a missing file is a FileNotFoundError; an accepted document holds `session.min_suspicious_windows` |
| RunRoom.MissingKeysRejected | fog/room_simulators/run_room.py:82-99 | a document without `rooms`, or without `session` or its minimum, is the corresponding ValueError |
| RunRoom.RoomPatients | fog/room_simulators/run_room.py:119-129 | a room missing from `rooms` is the ValueError naming it; a room whose `patients` is a list gives its entries, in order; a result implies the room was found |
| RunRoom.PatientFields | fog/room_simulators/run_room.py:130-131 | a patient gives its identifier and path exactly when both are text entries of its mapping; a missing `patient_id` is a KeyError |
| RunRoom.MinSuspiciousWindows | fog/room_simulators/run_room.py:200-202 | the minimum is `int()` of `session.min_suspicious_windows`; a result implies both keys were present |
| RunRoom.WindowsFailureStops | fog/room_simulators/run_room.py:155-190 | once a window raises, later windows are not processed |
| RunRoom.PatientsFailureStops | fog/room_simulators/run_room.py:129-218 | once a patient raises, later patients are not processed |
| RunRoom.ProcessWindow | fog/room_simulators/run_room.py:160-190 | one window: register, decide, count and alert when suspected, build and publish the event, as `WindowStep` states |
| RunRoom.ProcessWindows | fog/room_simulators/run_room.py:155-190 | the window loop makes exactly the calls and registry changes of `WindowsRun` |
| RunRoom.ProcessPatient | fog/room_simulators/run_room.py:129-218 | one patient: start, load, window loop, end, upload decision, as `PatientRun` states |
| RunRoom.RunRoom | fog/room_simulators/run_room.py:108-220 | the room run makes exactly the calls and registry changes of `RoomRun`, and raises exactly its exception |
| RunRoom.SuspiciousCount | fog/room_simulators/run_room.py:169-171 | the suspicious windows never outnumber the windows |
| RunRoom.WindowStepDecides | fog/room_simulators/run_room.py:162-190 | with a loadable threshold a window counts once, counts as suspicious exactly when its score reaches the threshold, and publishes its event |
| RunRoom.WindowStepCounts | fog/room_simulators/run_room.py:162-171 | with a loadable threshold one window does not raise, counts once, and counts as suspicious exactly when its score reaches the threshold |
| RunRoom.WindowsRunSucceeds | fog/room_simulators/run_room.py:155-190 | with a loadable threshold the window loop never raises |
| RunRoom.WindowsRunLog | fog/room_simulators/run_room.py:155-190 | with a loadable threshold the window loop never raises, and for each window in order it registers it, alerts when suspected, and publishes |
| RunRoom.WindowsRunCounts | fog/room_simulators/run_room.py:162-171 | after n windows the session counts n more processed windows and exactly the suspected ones more suspicious windows |
| RunRoom.WindowsRunFailsAtFirstWindow | fog/room_simulators/run_room.py:162-169 | a threshold that cannot be read stops the loop at the first window, after counting it, before any publish |
| RunRoom.WindowsRunFrame | fog/room_simulators/run_room.py:162-171 | the window loop changes only its own session's record |
| RunRoom.WindowEffectsFilters | fog/room_simulators/run_room.py:169-190 | a window publishes exactly its event, and alerts exactly when suspected, with its index and score |
| RunRoom.OneEventPerWindow | fog/room_simulators/run_room.py:155-190 | exactly one event per window, in window order, carrying its index, its score and its decision as `suspected` |
| RunRoom.SuspectedWindows | fog/room_simulators/run_room.py:169-179 | the suspected windows are as many as the suspicious count, each with its own score at or over the threshold |
| RunRoom.AlertsMatchDecisions | fog/room_simulators/run_room.py:169-179 | the local alerts are exactly the suspected windows, in window order |
| RunRoom.AlertIffEventSuspected | fog/room_simulators/run_room.py:169-189 | a window's local alert is raised exactly when its published event says `suspected` |
| RunRoom.PatientCompletes | fog/room_simulators/run_room.py:129-218 | for a patient whose recording loads: start; every window processed; the session recorded with its counts and ended at the clock reading; upload after the end exactly when the suspicious count reaches the minimum; no other session changed |
| RunRoom.LoadFailureLeavesSessionOpen | fog/room_simulators/run_room.py:140-148 | a recording that does not load raises after the session started, leaving it with no end time and no windows |
| RunRoom.PatientEndsItsSession | fog/room_simulators/run_room.py:140-199 | a patient that raises nothing ends its own session at the clock reading and leaves every other session as it was |
| RunRoom.RoomEndsEverySession | fog/room_simulators/run_room.py:129-218 | a room run that raises nothing ends every session it started and leaves every other session as it was |
| RunRoom.UnknownRoomStartsNothing | fog/room_simulators/run_room.py:119-122 | an unknown room is a ValueError naming it, before any session starts: no calls, registry unchanged |
| RunRoom.FourWindowExample | fog/room_simulators/run_room.py:155-190 | scores 0.5, 0.9, 0.85, 0.2 against threshold 0.8: windows 1 and 2 are alerted with their scores, two suspicious of four, four events published |

## Findings

| source | as written | input that shows it | evidently intended | confidence | as-written member | corrected member |
|---|---|---|---|---|---|---|
| fog/pipeline/event_builder.py:53-66 | the per-window record has no `suspected` field, yet the stream consumer reads `event["suspected"]` (cloud/lambda_src/kinesis_consumer/handler.py:85) | `build_suspected_window_event("room_A", "p1", "s1", 0, 0.9)`: the consumer writes it to the bucket, then raises KeyError('suspected') before updating the table; later records of the batch are not processed in that invocation, and the batch is retried (retries are left out) | the record carries the window's decision as `suspected`, as the room loop's `build_window_event(..., suspected=...)` call implies | not executed; medium, because the room loop calls a builder this file does not define | KinesisConsumer.SchemaEventRejected | KinesisConsumer.WindowEventConsumed |

## Left out

- Realtime pacing (`time.sleep(window_seconds)` between windows) is left out. It changes timing only.
- Floating point is idealised as exact `real` arithmetic. NaN, infinities and rounding in `window_seconds * sfreq` are not modelled.
- Config.AsReal: `float()` of a quoted numeric YAML string (for example `"0.8"`) succeeds in Python but is an error in the model, because string-to-float parsing is not modelled.
- Base.ParseInt: Python's `int()` also accepts surrounding whitespace, a leading `+`, digit-group underscores and non-ASCII Unicode decimal digits (for example "３"). The model rejects them.
- Config.AsText: the identifier and path of a patient must be YAML text. A numeric `patient_id`, which Python would carry along, is a TypeError in the model.
- RunRoom.RunRoom: all clock readings of one run (session start, events, session end) are one parameter `now`, because the UTC clock is outside the core. The model does not distinguish them.
- RunRoom.RunRoom: the thresholds file is one parsed document for the whole run. A file that changes between the two `is_suspected` calls of a window is not modelled.
- Inference is a score per (patient position, window index), not a function of the window's samples. This covers any scoring, including the mock model's random one.
- EDF loading is left out. A path missing from the loader's map is the loader's failure; other loader errors and the signal's physical units are not modelled.
- Local alerts, event publication and EDF upload are recorded as effects. They are assumed not to raise; their own failure modes are not part of this model.
- Console output (`print`), argument parsing and `main`'s exit code are left out.
- YAML parsing (`yaml.safe_load`) is left out. Documents are given as parsed `Node` trees; a parse error is not modelled.
- `decode_kinesis_record` (base64 and JSON decoding) is left out. The consumer receives decoded events, and the object body is the event itself followed by a newline rather than its `json.dumps` text.
- KinesisConsumer.Handler: decoded event values are JSON scalars or null. An event holding a JSON array or object as a value (which Python would render in the key, or count by its truthiness) is not modelled.
- KinesisConsumer.S3Key: rendering a float field inside the object key is an error in the model (`FloatRendering`), because Python's float repr is not modelled.
- The AWS clients (S3 `put_object`, DynamoDB `update_item`, SNS `publish`) are modelled by their effect only. Retries, throttling, and DynamoDB attribute typing are left out.
- DynamoAlerts.Handler: every stream record is assumed to carry `eventName` and a `dynamodb` section. A record missing either, which Python would reject with a KeyError, is not modelled.
- Environment variables (`SNS_TOPIC_ARN`, `SUSPECTED_THRESHOLD`) and the current UTC date of the object key are handler parameters.
- Sessions.ShouldUploadEdf, Sessions.SessionRegistry.RegisterSuspiciousWindow and Events.BuildWindowEvent are not defined in the repository's session-manager and event-builder files. They are modelled from their call sites.
