# dahua-watch: the event-stream core, in Dafny

`dahua-watch.py` holds one long HTTP request open per Dahua camera, on the
camera's `eventManager.cgi?action=attach` endpoint. It reads the event lines
the camera streams back and turns them into MQTT `ON`/`OFF` messages on
`home-assistant/cameras/<index>/IVS`. This project models the part of the
program that decides what gets published and when a dropped stream is
re-armed:

- **`DahuaCamera.OnReceive`**: a received chunk is split on `\r\n`. The
  line `HTTP/1.1 200 OK` marks the camera connected. Every line starting
  with `Code=` is split on `;`, and each piece is split on `=` into a key
  and a value, which build a record dict. The record then goes to
  `ParseAlarm`.
- **The alarm debounce**:
  - `ParseAlarm` ignores codes that are not in the camera's
    comma-separated `events` list.
  - A `Start` sets the alarm active. It publishes `ON` only when the alarm
    was unset.
  - A `Stop` sets the alarm inactive and records the time.
  - `OnTimer` publishes `OFF` and resets the alarm once a `Stop` has stood
    strictly longer than `ALARM_DELAY` (5) seconds.
- **`OnConnect`/`OnDisconnect`**: they set `Connected`.
- **`DahuaMaster`**:
  - `OnTimer` fans the timer out to every camera.
  - After a `perform()` in which the running-handle count dropped below the
    number of cameras, every finished transfer is handled: first the
    successes, then the errors. A camera with no pending reconnect is
    marked disconnected and given a deadline 5 seconds ahead.
  - The cameras are then swept. Every camera whose deadline is strictly in
    the past has its handle re-armed and its deadline cleared.

How the source becomes the model:

- Modules follow the program's structure:
  - `PyStr`: Python's `str.split`, `str.startswith` and joining, on `seq<char>`;
  - `AlarmRecord`: the `key=value;…` line and the dict it builds;
  - `Debounce`: the `Alarm` dict state machine;
  - `Camera`: the `DahuaCamera` class;
  - `Master`: the `DahuaMaster` class and the reconnect bookkeeping.
- The two classes are Dafny classes with the source's fields. Each
  state-changing method is proved against a pure function of the old state:
  `OnLines`, `OnRecord`, `OnTick`, `CompleteAll`, `SweepAll`,
  `DueIndices` and `Cycle`. The lemmas then prove what the program
  promises about those functions.
- MQTT publishing becomes an append to the camera's `Published` log, with
  `true` for `ON` and `false` for `OFF`.
- Re-arming a curl handle becomes an append of the camera index to the
  master's `Rearmed` log.
- The current time is a parameter `now`, in whole seconds (a natural number).
- A Python exception raised inside a callback is returned as a
  `Failure`:
  - a tuple unpack of a field with zero or several `=` raises
    `ValueError`;
  - a missing dict key raises `KeyError`.

Where the behaviour is easy to misread, the model follows the code:

- A chunk is split into lines with no buffering across chunks. A line
  split between two chunks is seen as two partial lines.
- One malformed field raises `ValueError` out of `OnReceive`. That ends the
  whole rest of the chunk, not just the line. The lines before it keep
  their effects (`Camera.FailureKeepsEarlierLines`).
- A `Start` inside the `OFF` window does not clear `Last`, so "the stop
  time is set exactly when the alarm is inactive" does not hold
  (`Debounce.StartKeepsStopTime`). What does hold is `Debounce.WellFormed`.
- A `Stop` that arrives while the alarm is unset still leads to `OFF`. So
  `OFF` can be published twice in a row (`Debounce.LoneStopPublishesOff`).
  `ON` is never published twice without an `OFF` between
  (`Debounce.ReplayNeverRepeatsOn`).

## Model

| member | source | states |
|---|---|---|
| PyStr.Split | dahua-watch.py:93 | `str.split(sep)` for a non-empty separator: at least one piece, and joining the pieces with the separator gives back the input |
| PyStr.FirstPieceIsPrefix | dahua-watch.py:101 | the first piece of a split is a prefix of the input |
| PyStr.PiecesFreeOfSeparator | dahua-watch.py:93 | no piece of a split contains the separator |
| PyStr.SplitCharCount | dahua-watch.py:102 | splitting on a character gives one more piece than the character's count, so a field unpacks into two parts exactly when it holds one `=` |
| PyStr.NoCharNoCount | dahua-watch.py:102 | a character is absent exactly when its count is zero |
| PyStr.SplitNoSeparator | dahua-watch.py:102 | a string without the separator character splits into itself alone |
| PyStr.SplitAtFirst | dahua-watch.py:102 | splitting `a + c + b` (no `c` in `a`) on `c` gives `a`, then the pieces of `b` |
| PyStr.SplitJoin | dahua-watch.py:101 | for pieces free of `c`, split undoes join: the round trip in the other direction |
| AlarmRecord.CharAsSeparator | dahua-watch.py:102 | a character occurs in a string exactly when the one-character separator does |
| AlarmRecord.ParseField | dahua-watch.py:102 | `(Key, Value) = KeyValue.split('=')` succeeds exactly when the field holds one `=`; it fails with `ValueError` of that field; on success `field == key + "=" + value` and neither part contains `=` |
| AlarmRecord.FieldRoundTrip | dahua-watch.py:102 | a key and a value without `=` joined by `=` parse back to themselves |
| AlarmRecord.Collect | dahua-watch.py:100-103 | the field loop from a starting dict: on success it keeps every key already present and contains the key of the first field; a failure is always the `ValueError` of one of the fields |
| AlarmRecord.RecordOf | dahua-watch.py:100-103 | the dict of one line: a failure is the `ValueError` of one of its `;` pieces; on success the key of the first piece is present |
| AlarmRecord.CollectOk | dahua-watch.py:100-103 | building the dict succeeds exactly when every field parses |
| AlarmRecord.CollectErr | dahua-watch.py:100-103 | when it fails, the error is the `ValueError` of the first field that does not parse, and every field before it parses |
| AlarmRecord.CollectValues | dahua-watch.py:100-103 | every key of the built dict maps to the value of its last field with that key (later fields overwrite earlier ones); keys no field names keep their earlier value |
| AlarmRecord.RecordOfSpec | dahua-watch.py:100-103 | the record of a line exists exactly when every `;`-separated field parses, and then maps each key to its last value on the line |
| AlarmRecord.FirstPieceKeepsPrefix | dahua-watch.py:97-101 | a line starting with `Code=` still starts with `Code=` after its first `;` piece is cut out |
| AlarmRecord.CodeFieldKey | dahua-watch.py:97-102 | the first field of a `Code=` line, when it parses, has the key `Code` |
| AlarmRecord.CodeLineHasCode | dahua-watch.py:97-105 | a `Code=` line whose record builds has the key `Code`, so the later `Alarm['Code']` cannot raise |
| AlarmRecord.ParseRecord | dahua-watch.py:100-103 | the field loop that fills the dict yields exactly the record of the line, or the `ValueError` of its first malformed field |
| Debounce.Subscribed | dahua-watch.py:110 | `code in events.split(',')`: a code containing a comma is never subscribed |
| Debounce.OnRecord | dahua-watch.py:107-119 | `ParseAlarm` publishes at most one notification and keeps the alarm well formed |
| Debounce.OnTick | dahua-watch.py:82-88 | `OnTimer` publishes at most one notification and leaves the alarm well formed or untouched |
| Debounce.UnsubscribedIgnored | dahua-watch.py:110-111 | a code not in the camera's `events` list changes nothing and publishes nothing |
| Debounce.StartPublishesOnOnlyFromUnset | dahua-watch.py:113-116 | a subscribed `Start` publishes `ON` exactly when `Active` was `None`, and always leaves the alarm active with `Last` unchanged |
| Debounce.StopRecordsTime | dahua-watch.py:117-119 | a subscribed `Stop` sets the alarm inactive, stores `now` as `Last` and publishes nothing |
| Debounce.OtherActionIgnored | dahua-watch.py:113-119 | an action other than `Start` or `Stop` changes nothing |
| Debounce.MissingActionRaises | dahua-watch.py:113 | a subscribed record with no `action` key raises `KeyError('action')` |
| Debounce.TickPublishesOffOnlyWhenDue | dahua-watch.py:82-88 | the timer publishes `OFF` exactly when the alarm is inactive and more than `ALARM_DELAY` seconds have passed since `Last`; it then resets both fields, and otherwise changes nothing |
| Debounce.TickWaitsThroughWindow | dahua-watch.py:83-84 | exactly `ALARM_DELAY` seconds after a `Stop` the timer still waits (the comparison is strict) |
| Debounce.StartCancelsPendingOff | dahua-watch.py:113-116 | a `Start` inside the window publishes nothing, reactivates the alarm, and no later tick publishes `OFF` |
| Debounce.StartKeepsStopTime | dahua-watch.py:113-116 | a `Start` after a `Stop` keeps the stop time: the alarm is active while `Last` is still set |
| Debounce.RecordKeepsAgreement | dahua-watch.py:107-119 | `ParseAlarm` keeps the alarm in agreement with the published log: no `ON` right after an `ON`, and the alarm is set while the last message was `ON` |
| Debounce.TickKeepsAgreement | dahua-watch.py:82-88 | `OnTimer` keeps the same agreement |
| Debounce.Apply | dahua-watch.py:82-119 | one record or tick keeps the alarm well formed and only appends to the log |
| Debounce.Replay | dahua-watch.py:82-119 | a run of records and ticks keeps the alarm well formed and only extends the log |
| Debounce.ReplayNeverRepeatsOn | dahua-watch.py:82-119 | over any run of records and ticks, `ON` is never published twice without an `OFF` between |
| Debounce.StartStartStopStartPublishesOneOn | dahua-watch.py:107-119 | Start, Start, Stop, then Start inside the window, and any tick: exactly one `ON` and no `OFF` |
| Debounce.StartStopTick | dahua-watch.py:82-88 | Start, Stop, then a tick: `OFF` follows exactly when the tick is more than `ALARM_DELAY` after the `Stop` |
| Debounce.LoneStopPublishesOff | dahua-watch.py:82-88 | a `Stop` with no `Start` before it still publishes `OFF` after the window, even right after an earlier `OFF` |
| Camera.Ticked | dahua-watch.py:82-88 | a camera's timer touches neither the connection flag nor the reconnect deadline, and keeps the alarm well formed |
| Camera.OnLine | dahua-watch.py:93-105 | handling a line that succeeds never touches the reconnect deadline and keeps the alarm well formed |
| Camera.OnRecordLine | dahua-watch.py:100-105 | a `Code=` line that goes through leaves the connection flag and the deadline alone |
| Camera.OnLines | dahua-watch.py:93-105 | a chunk never touches the reconnect deadline and keeps the alarm well formed |
| Camera.OnData | dahua-watch.py:90-93 | `OnReceive` on a decoded chunk, split on `\r\n`: it never touches the reconnect deadline and keeps the alarm consistent with the published log |
| Camera.BannerConnects | dahua-watch.py:94-98 | the line `HTTP/1.1 200 OK` marks the camera connected and is not a record |
| Camera.OtherLineIgnored | dahua-watch.py:94-98 | a line that is neither the banner nor a `Code=` line changes nothing |
| Camera.NonRecordKeepsAlarm | dahua-watch.py:97-98 | a line not starting with `Code=` never touches the alarm or the published log |
| Camera.MalformedFieldRaises | dahua-watch.py:101-102 | a `Code=` line with a malformed field raises the `ValueError` of its first such field, and all fields before it parse |
| Camera.CodeKeyNeverMissing | dahua-watch.py:97-110 | the lookup `Alarm['Code']` never raises, because only `Code=` lines reach `ParseAlarm` |
| Camera.LinesInOrder | dahua-watch.py:93 | lines are handled in order: a chunk is its first part, then, unless that raised, the rest |
| Camera.FailureKeepsEarlierLines | dahua-watch.py:93-105 | a chunk that raises does so at some line `k`: the lines before `k` went through and keep their effects, and line `k` has none |
| Camera.ChunkKeepsConsistent | dahua-watch.py:90-119 | every chunk keeps the alarm in agreement with the published log |
| Camera.DahuaCamera.constructor | dahua-watch.py:37-50 | a new camera has `Connected` unset, no deadline, an unset alarm and nothing published |
| Camera.DahuaCamera.OnAlarm | dahua-watch.py:66-72 | publishing appends exactly the one notification |
| Camera.DahuaCamera.OnConnect | dahua-watch.py:74-76 | `Connected` becomes true and nothing else changes |
| Camera.DahuaCamera.OnDisconnect | dahua-watch.py:78-80 | `Connected` becomes false and nothing else changes |
| Camera.DahuaCamera.OnTimer | dahua-watch.py:82-88 | the new state is the timer's function of the old one, and consistency is kept |
| Camera.DahuaCamera.ParseAlarm | dahua-watch.py:107-119 | the new alarm and log are those of `OnRecord`; on a `KeyError` nothing changes and the error is returned |
| Camera.DahuaCamera.HandleLine | dahua-watch.py:94-105 | one iteration of the line loop moves the camera to `OnLine` of its old state, or returns the error with the state unchanged |
| Camera.DahuaCamera.HandleRecordLine | dahua-watch.py:100-105 | the field loop, then `ParseAlarm`, on a `Code=` line |
| Camera.DahuaCamera.OnReceive | dahua-watch.py:90-105 | the camera's new state, and the exception that ended the chunk if any, are exactly `OnLines` over the `\r\n`-split chunk; consistency is kept |
| Master.Pending | dahua-watch.py:179-180 | Python truthiness of `Camera.Reconnect` (set and non-zero); the definition, used by the lemmas below |
| Master.Completed | dahua-watch.py:179-183 | after a finished transfer a reconnect is always pending, and the alarm and log are untouched |
| Master.Finished | dahua-watch.py:173-197 | the handles of a batch in the order they are handled: all successes first, then every erroring handle |
| Master.CompleteAll | dahua-watch.py:173-197 | the completion loops over a batch, one handle after another, keeping the number of cameras; `CompleteAllAt` gives its effect per camera |
| Master.CompleteAllAt | dahua-watch.py:173-197 | after a batch each camera is as if its transfer had finished once, however often its handle appears; cameras not in the batch keep every field |
| Master.CompleteAllAppend | dahua-watch.py:173-197 | the success loop followed by the error loop equals handling the two lists as one batch |
| Master.CompletedOnce | dahua-watch.py:179-180 | a second finish before the re-arm changes nothing |
| Master.CompletedIgnoredWhilePending | dahua-watch.py:179-180 | a finished transfer while `Reconnect` is already set changes nothing |
| Master.CompletedSchedules | dahua-watch.py:182-183 | a camera with no pending reconnect is marked disconnected and gets a deadline 5 seconds ahead |
| Master.Due | dahua-watch.py:200-201 | the sweep's test: a pending deadline strictly before `now`; the definition, used by the lemmas below |
| Master.Swept | dahua-watch.py:200-204 | after the sweep step the camera is no longer due; its connection flag, alarm and published log are unchanged; and its deadline changes only when it was due, and then to `None` |
| Master.SweepAll | dahua-watch.py:199-204 | the sweep over every camera, keeping the number of cameras |
| Master.SweptAllSettled | dahua-watch.py:199-204 | after a sweep no camera is due, and no alarm or published log has changed |
| Master.NoneDueNoneRearmed | dahua-watch.py:199-203 | when no camera is due, no handle is re-armed |
| Master.SweepTwiceRearmsNothing | dahua-watch.py:199-204 | sweeping twice at the same time is sweeping once, and the second sweep re-arms nothing |
| Master.DueIndices | dahua-watch.py:199-203 | the re-armed handles are exactly the cameras whose deadline has passed, each once, in camera order |
| Master.JustFinishedNotRearmed | dahua-watch.py:179-204 | a camera whose transfer finished in this batch, with no reconnect pending before, is not re-armed by the same batch |
| Master.Cycle | dahua-watch.py:170-204 | one batch: completions, then the sweep; afterwards no camera is due and every re-armed handle is a camera's |
| Master.ReconnectOnce | dahua-watch.py:170-204 | a dropped stream is re-armed exactly once: a second failure before the deadline adds nothing, the first sweep after it re-arms the handle and clears the deadline, and a later sweep does nothing |
| Master.CycleOneCamera | dahua-watch.py:170-204 | a batch on a single camera, spelled out in terms of `Completed`, `Swept` and `Due` |
| Master.DahuaMaster.constructor | dahua-watch.py:123-149 | one distinct camera per configuration, with index `i` and that configuration's events, each in its initial state; the handle count equals the camera count |
| Master.DahuaMaster.OnTimer | dahua-watch.py:151-153 | every camera moves to `Ticked` of its own old state |
| Master.DahuaMaster.Complete | dahua-watch.py:174-183 | one finished transfer changes only its own camera, to `Completed` of its old state |
| Master.DahuaMaster.OnSuccess | dahua-watch.py:173-183 | the success loop yields `CompleteAll` over the success list |
| Master.DahuaMaster.OnError | dahua-watch.py:185-197 | the error loop yields `CompleteAll` over the handles of the error list |
| Master.DahuaMaster.OnFinished | dahua-watch.py:173-197 | both loops together yield `CompleteAll` over successes followed by errors |
| Master.DahuaMaster.SweepCamera | dahua-watch.py:200-204 | one sweep step changes only camera `i`, to `Swept` of its old state, and logs `i` exactly when it was due |
| Master.DahuaMaster.Sweep | dahua-watch.py:199-204 | every camera becomes `Swept` of its old state, and exactly `DueIndices` of the old states is appended to the re-arm log |
| Master.DahuaMaster.AfterPerform | dahua-watch.py:170-204 | with the handle count unchanged nothing happens; otherwise the cameras and the re-arm log move exactly as `Cycle` says |

## Left out

- Network I/O through pycurl: the multi handle, `perform`, `select`,
  `info_read` and the curl options. A handle is named by its camera's
  index, and the batch of finished transfers is a parameter.
- The outer `Run` loops (lines 155-168 and 206-209). They retry `perform`
  while it returns `E_CALL_MULTI_PERFORM`, wait in `select`, and call
  `OnTimer`, which is modelled. The `NumHandles` branch (lines 170-204) is
  `AfterPerform`.
- The MQTT client (`SensorOn`/`SensorOff`, lines 52-64): each publish is an
  append to `Published`.
- `print` and the reason strings passed to `OnDisconnect`: they affect no
  state.
- UTF-8 decoding with `errors='ignore'` (line 91): `OnReceive` takes the
  decoded text.
- Configuration (`CAMERAS`, the MQTT settings, `URL_TEMPLATE`) and
  `__main__`: the master is built from the list of `events` strings.
- Floating-point time: `time.time()` is a whole number of seconds `now` (a `nat` everywhere). A call that reads
  the clock several times reads it once.
- Master.DahuaMaster.AfterPerform: it requires every finished handle to be
  one of the cameras' handles. The filter over `self.Cameras` that would
  raise `StopIteration` for a foreign handle is not modelled, because the
  multi handle only ever holds the cameras' own handles.
- Camera.DahuaCamera.OnReceive: an exception raised here is returned rather
  than propagated through pycurl's write callback, which would abort that
  transfer. That abort is not modelled.
