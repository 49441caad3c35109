/**
 * The alarm debounce of one camera: `DahuaCamera.ParseAlarm` and
 * `DahuaCamera.OnTimer` as functions on the `Alarm` dict
 * `{'Active': None|True|False, 'Last': None|time}`.
 * ON is published at once on the first Start; OFF only once a Stop has
 * stood for more than ALARM_DELAY seconds.
 */
module Debounce {
  import opened Wrappers
  import opened PyStr
  import opened AlarmRecord

  /** Seconds a Stop must stand before OFF is published. */
  const ALARM_DELAY: nat := 5

  /** The `Alarm` dict: `active` is `Active`, `last` is `Last`. */
  datatype AlarmState = AlarmState(active: Option<bool>, last: Option<nat>)

  /** The state a camera starts in and returns to after OFF. */
  const Idle := AlarmState(None, None)

  /**
   * What every reachable `Alarm` satisfies: no stop time while unset, a
   * stop time while an OFF is pending. (While active, `Last` may be set:
   * a Start during the pending window does not clear it.)
   */
  predicate WellFormed(a: AlarmState) {
    && (a.active == None ==> a.last == None)
    && (a.active == Some(false) ==> a.last.Some?)
  }

  /** `code in events.split(',')` */
  predicate Subscribed(code: string, events: string)
    ensures Subscribed(code, events) ==> !Contains(code, ",")
  {
    PiecesFreeOfSeparator(events, ",");
    code in Split(events, ",")
  }

  /** The new alarm state and the notifications published on the way (true = ON, false = OFF). */
  datatype Step = Step(alarm: AlarmState, published: seq<bool>)

  /** `ParseAlarm(Alarm)` at time `now`; the two dict lookups may raise `KeyError`. */
  function OnRecord(a: AlarmState, rec: map<string, string>, events: string, now: nat): (r: Result<Step, Failure>)
    ensures r.Ok? ==> |r.value.published| <= 1
    ensures WellFormed(a) && r.Ok? ==> WellFormed(r.value.alarm)
  {
    if "Code" !in rec then Err(KeyError("Code"))
    else if !Subscribed(rec["Code"], events) then Ok(Step(a, []))
    else if "action" !in rec then Err(KeyError("action"))
    else if rec["action"] == "Start" then
      Ok(Step(a.(active := Some(true)), if a.active == None then [true] else []))
    else if rec["action"] == "Stop" then
      Ok(Step(AlarmState(Some(false), Some(now)), []))
    else
      Ok(Step(a, []))
  }

  /** The OFF condition of `OnTimer`: a Stop that has stood longer than ALARM_DELAY. */
  predicate OffDue(a: AlarmState, now: nat)
    requires a.active == Some(false) ==> a.last.Some?
  {
    a.active == Some(false) && now - a.last.value > ALARM_DELAY
  }

  /** `OnTimer()` at time `now`. */
  function OnTick(a: AlarmState, now: nat): (r: Step)
    requires a.active == Some(false) ==> a.last.Some?
    ensures |r.published| <= 1
    ensures WellFormed(r.alarm) || r.alarm == a
  {
    if OffDue(a, now) then Step(Idle, [false]) else Step(a, [])
  }

  /** A record whose code is not subscribed changes nothing and publishes nothing. */
  lemma UnsubscribedIgnored(a: AlarmState, rec: map<string, string>, events: string, now: nat)
    requires "Code" in rec && !Subscribed(rec["Code"], events)
    ensures OnRecord(a, rec, events, now) == Ok(Step(a, []))
  {
  }

  /**
   * A subscribed Start publishes ON exactly when the alarm was unset and
   * always leaves it active; the stop time is left as it was.
   */
  lemma StartPublishesOnOnlyFromUnset(a: AlarmState, rec: map<string, string>, events: string, now: nat)
    requires "Code" in rec && Subscribed(rec["Code"], events)
    requires "action" in rec && rec["action"] == "Start"
    ensures OnRecord(a, rec, events, now).Ok?
    ensures OnRecord(a, rec, events, now).value.alarm == AlarmState(Some(true), a.last)
    ensures OnRecord(a, rec, events, now).value.published == (if a.active == None then [true] else [])
  {
  }

  /** A subscribed Stop makes the alarm inactive, records `now` and publishes nothing. */
  lemma StopRecordsTime(a: AlarmState, rec: map<string, string>, events: string, now: nat)
    requires "Code" in rec && Subscribed(rec["Code"], events)
    requires "action" in rec && rec["action"] == "Stop"
    ensures OnRecord(a, rec, events, now) == Ok(Step(AlarmState(Some(false), Some(now)), []))
  {
  }

  /** Any other action value changes nothing. */
  lemma OtherActionIgnored(a: AlarmState, rec: map<string, string>, events: string, now: nat)
    requires "Code" in rec && Subscribed(rec["Code"], events)
    requires "action" in rec && rec["action"] != "Start" && rec["action"] != "Stop"
    ensures OnRecord(a, rec, events, now) == Ok(Step(a, []))
  {
  }

  /** A subscribed record without an `action` key raises `KeyError('action')`. */
  lemma MissingActionRaises(a: AlarmState, rec: map<string, string>, events: string, now: nat)
    requires "Code" in rec && Subscribed(rec["Code"], events) && "action" !in rec
    ensures OnRecord(a, rec, events, now) == Err(KeyError("action"))
  {
  }

  /**
   * The timer publishes OFF and resets the alarm exactly when a Stop has
   * stood strictly longer than ALARM_DELAY; otherwise it changes nothing.
   */
  lemma TickPublishesOffOnlyWhenDue(a: AlarmState, now: nat)
    requires WellFormed(a)
    ensures OnTick(a, now).published == [false] <==> (a.active == Some(false) && now - a.last.value > ALARM_DELAY)
    ensures OnTick(a, now).published == [false] ==> OnTick(a, now).alarm == Idle
    ensures OnTick(a, now).published != [false] ==> OnTick(a, now) == Step(a, [])
  {
  }

  /** At exactly ALARM_DELAY seconds after the Stop the timer still waits (strict comparison). */
  lemma TickWaitsThroughWindow(t: nat, now: nat)
    requires now - t <= ALARM_DELAY
    ensures OnTick(AlarmState(Some(false), Some(t)), now) == Step(AlarmState(Some(false), Some(t)), [])
  {
  }

  /** A Start inside the window cancels the pending OFF: no later tick publishes it. */
  lemma StartCancelsPendingOff(stopped: AlarmState, rec: map<string, string>, events: string, now: nat, later: nat)
    requires stopped.active == Some(false) && stopped.last.Some?
    requires "Code" in rec && Subscribed(rec["Code"], events)
    requires "action" in rec && rec["action"] == "Start"
    ensures var s := OnRecord(stopped, rec, events, now).value;
      s.published == [] && s.alarm.active == Some(true) && OnTick(s.alarm, later) == Step(s.alarm, [])
  {
  }

  /**
   * The stop time survives a Start in the window: the alarm is active and
   * `Last` is still set, so "Last is set iff inactive" does not hold.
   */
  lemma StartKeepsStopTime(t: nat, rec: map<string, string>, events: string, now: nat)
    requires "Code" in rec && Subscribed(rec["Code"], events)
    requires "action" in rec && rec["action"] == "Start"
    ensures OnRecord(AlarmState(Some(false), Some(t)), rec, events, now) == Ok(Step(AlarmState(Some(true), Some(t)), []))
  {
  }

  // ----- the published log never carries two ONs in a row -----

  /** No ON directly follows another ON. */
  ghost predicate NoRepeatedOn(p: seq<bool>) {
    forall i :: 0 <= i < |p| - 1 ==> !(p[i] && p[i + 1])
  }

  /** The last thing published was ON. */
  predicate LastIsOn(p: seq<bool>) {
    |p| > 0 && p[|p| - 1]
  }

  /** The alarm agrees with the log: after an ON, the alarm is not unset until OFF goes out. */
  ghost predicate Agrees(a: AlarmState, p: seq<bool>) {
    WellFormed(a) && NoRepeatedOn(p) && (LastIsOn(p) ==> a.active.Some?)
  }

  lemma RecordKeepsAgreement(a: AlarmState, p: seq<bool>, rec: map<string, string>, events: string, now: nat)
    requires Agrees(a, p) && OnRecord(a, rec, events, now).Ok?
    ensures var s := OnRecord(a, rec, events, now).value; Agrees(s.alarm, p + s.published)
  {
    var s := OnRecord(a, rec, events, now).value;
    var q := p + s.published;
    if s.published == [true] {
      forall i | 0 <= i < |q| - 1 ensures !(q[i] && q[i + 1]) {
        if i + 1 == |p| {
          assert q[i] == p[|p| - 1];
        } else {
          assert q[i] == p[i] && q[i + 1] == p[i + 1];
        }
      }
    } else {
      assert q == p;
    }
  }

  lemma TickKeepsAgreement(a: AlarmState, p: seq<bool>, now: nat)
    requires Agrees(a, p)
    ensures var s := OnTick(a, now); Agrees(s.alarm, p + s.published)
  {
    var s := OnTick(a, now);
    var q := p + s.published;
    if s.published == [false] {
      forall i | 0 <= i < |q| - 1 ensures !(q[i] && q[i + 1]) {
        if i + 1 < |p| {
          assert q[i] == p[i] && q[i + 1] == p[i + 1];
        }
      }
    } else {
      assert q == p;
    }
  }

  /** What reaches `ParseAlarm` and `OnTimer`: a record, or a timer tick, each with its time. */
  datatype Input = Record(rec: map<string, string>, at: nat) | Tick(at: nat)

  /** One input applied; a record whose lookup raises changes nothing. */
  function Apply(s: Step, input: Input, events: string): (r: Step)
    requires WellFormed(s.alarm)
    ensures WellFormed(r.alarm)
    ensures r.published == s.published || (|r.published| == |s.published| + 1 && r.published[..|s.published|] == s.published)
  {
    match input
    case Record(rec, t) =>
      (match OnRecord(s.alarm, rec, events, t)
       case Ok(st) => Step(st.alarm, s.published + st.published)
       case Err(_) => s)
    case Tick(t) =>
      var st := OnTick(s.alarm, t);
      Step(st.alarm, s.published + st.published)
  }

  /** A run of inputs, in order. */
  function Replay(s: Step, inputs: seq<Input>, events: string): (r: Step)
    requires WellFormed(s.alarm)
    ensures WellFormed(r.alarm)
    ensures |s.published| <= |r.published| && r.published[..|s.published|] == s.published
    decreases |inputs|
  {
    if inputs == [] then s else Replay(Apply(s, inputs[0], events), inputs[1..], events)
  }

  /** Every run keeps the alarm in agreement with the log: ON is never published twice without an OFF between. */
  lemma {:induction false} ReplayNeverRepeatsOn(s: Step, inputs: seq<Input>, events: string)
    requires Agrees(s.alarm, s.published)
    ensures Agrees(Replay(s, inputs, events).alarm, Replay(s, inputs, events).published)
    ensures NoRepeatedOn(Replay(s, inputs, events).published)
    decreases |inputs|
  {
    if inputs != [] {
      var next := Apply(s, inputs[0], events);
      if inputs[0].Tick? {
        TickKeepsAgreement(s.alarm, s.published, inputs[0].at);
      } else if OnRecord(s.alarm, inputs[0].rec, events, inputs[0].at).Ok? {
        RecordKeepsAgreement(s.alarm, s.published, inputs[0].rec, events, inputs[0].at);
      }
      ReplayNeverRepeatsOn(next, inputs[1..], events);
    }
  }

  /**
   * Start, Start, Stop, Start for a subscribed code, all inside the window,
   * and any tick afterwards: exactly one ON, and no OFF.
   */
  lemma StartStartStopStartPublishesOneOn(
    start: map<string, string>, stop: map<string, string>, events: string, t0: nat, t1: nat, t2: nat, t3: nat, t4: nat)
    requires "Code" in start && Subscribed(start["Code"], events) && "action" in start && start["action"] == "Start"
    requires "Code" in stop && Subscribed(stop["Code"], events) && "action" in stop && stop["action"] == "Stop"
    ensures Replay(Step(Idle, []), [Record(start, t0), Record(start, t1), Record(stop, t2), Record(start, t3), Tick(t4)], events).published == [true]
  {
    var inputs := [Record(start, t0), Record(start, t1), Record(stop, t2), Record(start, t3), Tick(t4)];
    var s0 := Step(Idle, []);
    var s1 := Apply(s0, inputs[0], events);
    assert s1 == Step(AlarmState(Some(true), None), [true]);
    var s2 := Apply(s1, inputs[1], events);
    assert s2 == s1;
    var s3 := Apply(s2, inputs[2], events);
    assert s3 == Step(AlarmState(Some(false), Some(t2)), [true]);
    var s4 := Apply(s3, inputs[3], events);
    assert s4 == Step(AlarmState(Some(true), Some(t2)), [true]);
    var s5 := Apply(s4, inputs[4], events);
    assert s5 == s4;
    calc {
      Replay(s0, inputs, events);
      Replay(s1, inputs[1..], events);
      Replay(s2, inputs[2..], events);
      Replay(s3, inputs[3..], events);
      Replay(s4, inputs[4..], events);
      Replay(s5, inputs[5..], events);
    }
  }

  /**
   * Start then Stop, then a tick: OFF follows exactly when the tick comes
   * more than ALARM_DELAY seconds after the Stop.
   */
  lemma StartStopTick(start: map<string, string>, stop: map<string, string>, events: string, t0: nat, t1: nat, t2: nat)
    requires "Code" in start && Subscribed(start["Code"], events) && "action" in start && start["action"] == "Start"
    requires "Code" in stop && Subscribed(stop["Code"], events) && "action" in stop && stop["action"] == "Stop"
    ensures Replay(Step(Idle, []), [Record(start, t0), Record(stop, t1), Tick(t2)], events).published ==
      (if t2 - t1 > ALARM_DELAY then [true, false] else [true])
  {
    var inputs := [Record(start, t0), Record(stop, t1), Tick(t2)];
    var s0 := Step(Idle, []);
    var s1 := Apply(s0, inputs[0], events);
    var s2 := Apply(s1, inputs[1], events);
    assert s2 == Step(AlarmState(Some(false), Some(t1)), [true]);
    var s3 := Apply(s2, inputs[2], events);
    calc {
      Replay(s0, inputs, events);
      Replay(s1, inputs[1..], events);
      Replay(s2, inputs[2..], events);
      Replay(s3, inputs[3..], events);
    }
  }

  /** A Stop with no Start before it still leads to OFF once the window has passed. */
  lemma LoneStopPublishesOff(stop: map<string, string>, events: string, t1: nat, t2: nat)
    requires "Code" in stop && Subscribed(stop["Code"], events) && "action" in stop && stop["action"] == "Stop"
    requires t2 - t1 > ALARM_DELAY
    ensures Replay(Step(Idle, [false]), [Record(stop, t1), Tick(t2)], events).published == [false, false]
  {
    var inputs := [Record(stop, t1), Tick(t2)];
    var s0 := Step(Idle, [false]);
    var s1 := Apply(s0, inputs[0], events);
    assert s1 == Step(AlarmState(Some(false), Some(t1)), [false]);
    var s2 := Apply(s1, inputs[1], events);
    calc {
      Replay(s0, inputs, events);
      Replay(s1, inputs[1..], events);
      Replay(s2, inputs[2..], events);
    }
  }
}
