/**
 * `DahuaCamera`: one camera's connection flags, its alarm dict and the
 * notifications it has published, and `OnReceive`, which splits each
 * received chunk into lines and feeds them, in order, to the connect
 * check and to `ParseAlarm`.
 */
module Camera {
  import opened Wrappers
  import opened PyStr
  import opened AlarmRecord
  import opened Debounce

  /** The status line whose appearance in the body counts as "connected". */
  const BANNER: string := "HTTP/1.1 200 OK"
  const LINE_BREAK: string := "\r\n"
  const RECORD_PREFIX: string := "Code="

  /** The fields of a camera that the core reads or writes. */
  datatype CameraState = CameraState(
    connected: Option<bool>,
    reconnect: Option<nat>,
    alarm: AlarmState,
    published: seq<bool>)

  const Initial := CameraState(None, None, Idle, [])

  /** What every reachable camera satisfies (see `Debounce.Agrees`). */
  ghost predicate Consistent(s: CameraState) {
    Agrees(s.alarm, s.published)
  }

  /** `OnTimer()` applied to a camera. */
  function Ticked(s: CameraState, now: nat): (r: CameraState)
    requires WellFormed(s.alarm)
    ensures r.connected == s.connected && r.reconnect == s.reconnect
    ensures WellFormed(r.alarm)
  {
    var st := OnTick(s.alarm, now);
    s.(alarm := st.alarm, published := s.published + st.published)
  }

  /** One line of `OnReceive`: the connect check, then a `Code=` record, if any. */
  function OnLine(s: CameraState, line: string, events: string, now: nat): (r: Result<CameraState, Failure>)
    requires WellFormed(s.alarm)
    ensures r.Ok? ==> r.value.reconnect == s.reconnect && WellFormed(r.value.alarm)
  {
    var s1 := if line == BANNER then s.(connected := Some(true)) else s;
    if !StartsWith(line, RECORD_PREFIX) then Ok(s1) else OnRecordLine(s1, line, events, now)
  }

  /** A `Code=` line: build its record, then hand it to `ParseAlarm`. */
  function OnRecordLine(s: CameraState, line: string, events: string, now: nat): (r: Result<CameraState, Failure>)
    requires WellFormed(s.alarm)
    ensures r.Ok? ==> r.value.reconnect == s.reconnect && r.value.connected == s.connected
    ensures r.Ok? ==> WellFormed(r.value.alarm)
  {
    match RecordOf(line)
    case Err(e) => Err(e)
    case Ok(rec) =>
      match OnRecord(s.alarm, rec, events, now)
      case Err(e) => Err(e)
      case Ok(st) => Ok(s.(alarm := st.alarm, published := s.published + st.published))
  }

  /** The state after a chunk, and the exception that cut it short, if any. */
  datatype ChunkOutcome = ChunkOutcome(state: CameraState, failure: Option<Failure>)

  /** The lines of a chunk, handled in order; the first exception ends the chunk. */
  function OnLines(s: CameraState, lines: seq<string>, events: string, now: nat): (r: ChunkOutcome)
    requires WellFormed(s.alarm)
    ensures r.state.reconnect == s.reconnect && WellFormed(r.state.alarm)
    decreases |lines|
  {
    if lines == [] then ChunkOutcome(s, None)
    else
      var prev := OnLines(s, lines[..|lines| - 1], events, now);
      if prev.failure.Some? then prev
      else
        match OnLine(prev.state, lines[|lines| - 1], events, now)
        case Err(e) => ChunkOutcome(prev.state, Some(e))
        case Ok(s') => ChunkOutcome(s', None)
  }

  /** `OnReceive(data)` on an already decoded chunk. */
  function OnData(s: CameraState, data: string, events: string, now: nat): (r: ChunkOutcome)
    requires WellFormed(s.alarm)
    ensures r.state.reconnect == s.reconnect
    ensures Consistent(s) ==> Consistent(r.state)
  {
    ChunkKeepsConsistent(s, Split(data, LINE_BREAK), events, now);
    OnLines(s, Split(data, LINE_BREAK), events, now)
  }

  /** One more line of a chunk. */
  lemma OnLinesSnoc(s: CameraState, lines: seq<string>, i: nat, events: string, now: nat)
    requires WellFormed(s.alarm) && i < |lines|
    ensures var prev := OnLines(s, lines[..i], events, now);
      prev.failure.None? ==>
        OnLines(s, lines[..i + 1], events, now) ==
          match OnLine(prev.state, lines[i], events, now)
          case Err(e) => ChunkOutcome(prev.state, Some(e))
          case Ok(s') => ChunkOutcome(s', None)
  {
    assert lines[..i + 1][..i] == lines[..i] && lines[..i + 1][i] == lines[i];
  }

  /** Handling the rest of a chunk after an outcome, unless that outcome already failed. */
  function Continue(o: ChunkOutcome, lines: seq<string>, events: string, now: nat): ChunkOutcome
    requires WellFormed(o.state.alarm)
  {
    if o.failure.Some? then o else OnLines(o.state, lines, events, now)
  }

  /** The banner line marks the camera connected and yields no record. */
  lemma BannerConnects(s: CameraState, events: string, now: nat)
    requires WellFormed(s.alarm)
    ensures OnLine(s, BANNER, events, now) == Ok(s.(connected := Some(true)))
  {
    assert BANNER[..5] != RECORD_PREFIX by { assert BANNER[0] == 'H'; }
  }

  /** A line that is neither the banner nor a record changes nothing. */
  lemma OtherLineIgnored(s: CameraState, line: string, events: string, now: nat)
    requires WellFormed(s.alarm)
    requires line != BANNER && !StartsWith(line, RECORD_PREFIX)
    ensures OnLine(s, line, events, now) == Ok(s)
  {
  }

  /** A line not starting with `Code=` never touches the alarm or the published log. */
  lemma NonRecordKeepsAlarm(s: CameraState, line: string, events: string, now: nat)
    requires WellFormed(s.alarm) && !StartsWith(line, RECORD_PREFIX)
    ensures OnLine(s, line, events, now).Ok?
    ensures OnLine(s, line, events, now).value.alarm == s.alarm
    ensures OnLine(s, line, events, now).value.published == s.published
  {
  }

  /** A `Code=` line with a field lacking exactly one '=' raises at its first such field and changes nothing. */
  lemma MalformedFieldRaises(s: CameraState, line: string, events: string, now: nat)
    requires WellFormed(s.alarm) && StartsWith(line, RECORD_PREFIX)
    requires !AllParse(Split(line, ";"))
    ensures exists j ::
      && 0 <= j < |Split(line, ";")|
      && AllParse(Split(line, ";")[..j])
      && OnLine(s, line, events, now) == Err(ValueError(Split(line, ";")[j]))
  {
    RecordOfSpec(line);
    CollectErr(map[], Split(line, ";"));
  }

  /** The lookup `Alarm['Code']` never raises on a line that reached `ParseAlarm`. */
  lemma CodeKeyNeverMissing(s: CameraState, line: string, events: string, now: nat)
    requires WellFormed(s.alarm)
    ensures OnLine(s, line, events, now) != Err(KeyError("Code"))
  {
    if StartsWith(line, RECORD_PREFIX) && RecordOf(line).Err? {
      CollectErr(map[], Split(line, ";"));
    } else if StartsWith(line, RECORD_PREFIX) {
      CodeLineHasCode(line);
      var s1 := if line == BANNER then s.(connected := Some(true)) else s;
      var r := OnRecord(s1.alarm, RecordOf(line).value, events, now);
      assert r.Err? ==> r.error == KeyError("action");
      assert OnLine(s, line, events, now) == OnRecordLine(s1, line, events, now);
    }
  }

  /** Lines are handled in order: a chunk is its first part, then (unless that failed) the rest. */
  lemma {:induction false} LinesInOrder(s: CameraState, a: seq<string>, b: seq<string>, events: string, now: nat)
    requires WellFormed(s.alarm)
    ensures OnLines(s, a + b, events, now) == Continue(OnLines(s, a, events, now), b, events, now)
    decreases |b|
  {
    if b == [] {
      assert a + b == a;
    } else {
      var b' := b[..|b| - 1];
      LinesInOrder(s, a, b', events, now);
      assert (a + b)[..|a + b| - 1] == a + b';
      assert (a + b)[|a + b| - 1] == b[|b| - 1];
    }
  }

  /**
   * A chunk that raises does so at some line k: the lines before k all
   * went through, their effects remain, and line k has no effect.
   */
  lemma {:induction false} FailureKeepsEarlierLines(s: CameraState, lines: seq<string>, events: string, now: nat)
    requires WellFormed(s.alarm)
    requires OnLines(s, lines, events, now).failure.Some?
    ensures exists k ::
      && 0 <= k < |lines|
      && OnLines(s, lines[..k], events, now) == ChunkOutcome(OnLines(s, lines, events, now).state, None)
      && OnLine(OnLines(s, lines, events, now).state, lines[k], events, now) == Err(OnLines(s, lines, events, now).failure.value)
    decreases |lines|
  {
    var n := |lines| - 1;
    var init := lines[..n];
    var prev := OnLines(s, init, events, now);
    var out := OnLines(s, lines, events, now);
    if prev.failure.Some? {
      assert out == prev;
      FailureKeepsEarlierLines(s, init, events, now);
      var k :| 0 <= k < |init| && OnLines(s, init[..k], events, now) == ChunkOutcome(prev.state, None) &&
        OnLine(prev.state, init[k], events, now) == Err(prev.failure.value);
      assert init[..k] == lines[..k] && init[k] == lines[k];
      assert OnLines(s, lines[..k], events, now) == ChunkOutcome(out.state, None)
        && OnLine(out.state, lines[k], events, now) == Err(out.failure.value);
    } else {
      assert OnLine(out.state, lines[n], events, now) == Err(out.failure.value);
      assert OnLines(s, lines[..n], events, now) == ChunkOutcome(out.state, None);
    }
  }

  /** Every chunk keeps the camera consistent: no ON is published twice without an OFF between. */
  lemma {:induction false} ChunkKeepsConsistent(s: CameraState, lines: seq<string>, events: string, now: nat)
    requires WellFormed(s.alarm)
    ensures Consistent(s) ==> Consistent(OnLines(s, lines, events, now).state)
    decreases |lines|
  {
    if lines != [] && Consistent(s) {
      var prev := OnLines(s, lines[..|lines| - 1], events, now);
      ChunkKeepsConsistent(s, lines[..|lines| - 1], events, now);
      var line := lines[|lines| - 1];
      if prev.failure.None? && StartsWith(line, RECORD_PREFIX) && RecordOf(line).Ok? {
        var s1 := if line == BANNER then prev.state.(connected := Some(true)) else prev.state;
        if OnRecord(s1.alarm, RecordOf(line).value, events, now).Ok? {
          RecordKeepsAgreement(s1.alarm, s1.published, RecordOf(line).value, events, now);
        }
      }
    }
  }

  class DahuaCamera {
    const Index: nat
    /** The camera's comma-separated subscribed event codes. */
    const Events: string
    var Connected: Option<bool>
    var Reconnect: Option<nat>
    var Alarm: AlarmState
    /** The payloads published to `home-assistant/cameras/{Index}/IVS`: true for ON, false for OFF. */
    var Published: seq<bool>

    function State(): CameraState
      reads this
    {
      CameraState(Connected, Reconnect, Alarm, Published)
    }

    ghost predicate Valid()
      reads this
    {
      Consistent(State())
    }

    constructor (index: nat, events: string)
      ensures Index == index && Events == events
      ensures State() == Initial && Valid()
    {
      Index := index;
      Events := events;
      Connected := None;
      Reconnect := None;
      Alarm := Idle;
      Published := [];
    }

    /** `OnAlarm(State)`: publish ON or OFF. */
    method OnAlarm(state: bool)
      modifies this`Published
      ensures Published == old(Published) + [state]
    {
      Published := Published + [state];
    }

    method OnConnect()
      modifies this`Connected
      ensures Connected == Some(true)
    {
      Connected := Some(true);
    }

    method OnDisconnect()
      modifies this`Connected
      ensures Connected == Some(false)
    {
      Connected := Some(false);
    }

    /** `OnTimer()` at time `now`. */
    method OnTimer(now: nat)
      requires Valid()
      modifies this`Alarm, this`Published
      ensures Valid()
      ensures State() == Ticked(old(State()), now)
    {
      TickKeepsAgreement(Alarm, Published, now);
      if Alarm.active == Some(false) && now - Alarm.last.value > ALARM_DELAY {
        Alarm := Alarm.(active := None);
        Alarm := Alarm.(last := None);
        OnAlarm(false);
      }
    }

    /** `ParseAlarm(Alarm)` at time `now`; a raised `KeyError` is returned. */
    method ParseAlarm(alarm: map<string, string>, now: nat) returns (failure: Option<Failure>)
      requires Valid()
      modifies this`Alarm, this`Published
      ensures Valid()
      ensures match OnRecord(old(Alarm), alarm, Events, now)
        case Ok(st) => failure == None && Alarm == st.alarm && Published == old(Published) + st.published
        case Err(e) => failure == Some(e) && Alarm == old(Alarm) && Published == old(Published)
    {
      if OnRecord(Alarm, alarm, Events, now).Ok? {
        RecordKeepsAgreement(Alarm, Published, alarm, Events, now);
      }
      if "Code" !in alarm {
        return Some(KeyError("Code"));
      }
      if alarm["Code"] !in Split(Events, ",") {
        return None;
      }
      if "action" !in alarm {
        return Some(KeyError("action"));
      }
      if alarm["action"] == "Start" {
        if Alarm.active == None {
          OnAlarm(true);
        }
        Alarm := Alarm.(active := Some(true));
      } else if alarm["action"] == "Stop" {
        Alarm := Alarm.(active := Some(false));
        Alarm := Alarm.(last := Some(now));
      }
      return None;
    }

    /** The body of the line loop in `OnReceive`. */
    method HandleLine(line: string, now: nat) returns (failure: Option<Failure>)
      requires Valid()
      modifies this
      ensures Valid()
      ensures match OnLine(old(State()), line, Events, now)
        case Ok(s) => failure == None && State() == s
        case Err(e) => failure == Some(e) && State() == old(State())
    {
      if line == BANNER {
        // The banner does not start with `Code=`, so the line ends here.
        assert !StartsWith(line, RECORD_PREFIX) by { assert line[0] == 'H'; }
        OnConnect();
      }
      if !StartsWith(line, RECORD_PREFIX) {
        return None;
      }
      failure := HandleRecordLine(line, now);
    }

    /** A `Code=` line: the field loop, then `ParseAlarm`. */
    method HandleRecordLine(line: string, now: nat) returns (failure: Option<Failure>)
      requires Valid()
      modifies this`Alarm, this`Published
      ensures Valid()
      ensures match OnRecordLine(old(State()), line, Events, now)
        case Ok(s) => failure == None && State() == s
        case Err(e) => failure == Some(e) && State() == old(State())
    {
      var alarm := ParseRecord(line);
      if alarm.Err? {
        return Some(alarm.error);
      }
      failure := ParseAlarm(alarm.value, now);
    }

    /** `OnReceive(data)` at time `now`; the exception that ends the chunk, if any, is returned. */
    method OnReceive(data: string, now: nat) returns (failure: Option<Failure>)
      requires Valid()
      modifies this
      ensures Valid()
      ensures OnData(old(State()), data, Events, now) == ChunkOutcome(State(), failure)
    {
      var lines := Split(data, LINE_BREAK);
      var i := 0;
      while i < |lines|
        invariant 0 <= i <= |lines|
        invariant Valid()
        invariant OnLines(old(State()), lines[..i], Events, now) == ChunkOutcome(State(), None)
      {
        OnLinesSnoc(old(State()), lines, i, Events, now);
        failure := HandleLine(lines[i], now);
        if failure.Some? {
          // The rest of the chunk is never looked at.
          LinesInOrder(old(State()), lines[..i + 1], lines[i + 1..], Events, now);
          assert lines[..i + 1] + lines[i + 1..] == lines;
          return failure;
        }
        i := i + 1;
      }
      assert lines[..|lines|] == lines;
      return None;
    }
  }
}
