/**
 * `DahuaMaster`: the camera list, the reconnect bookkeeping after a batch
 * of finished transfers, and the timer fan-out. Curl handles are named by
 * the index of their camera; re-arming a handle (`remove_handle` then
 * `add_handle`) is recorded in the `Rearmed` log.
 */
module Master {
  import opened Wrappers
  import opened Debounce
  import opened Camera

  /** Seconds from a finished transfer to its re-arm deadline. */
  const RECONNECT_DELAY: nat := 5

  /** Python truthiness of `Camera.Reconnect`: set and non-zero. */
  predicate Pending(r: Option<nat>) {
    r.Some? && r.value != 0
  }

  /** A finished transfer, success or error: ignored while a reconnect is pending. */
  function Completed(s: CameraState, now: nat): (r: CameraState)
    ensures Pending(r.reconnect)
    ensures r.alarm == s.alarm && r.published == s.published
  {
    if Pending(s.reconnect) then s
    else s.(connected := Some(false), reconnect := Some(now + RECONNECT_DELAY))
  }

  /** An entry of curl's error list: the handle, the error number and its text. */
  datatype TransferError = TransferError(handle: nat, errNo: int, errStr: string)

  /** The handles of a batch in the order they are handled: successes, then errors. */
  function Finished(success: seq<nat>, errors: seq<TransferError>): (r: seq<nat>)
    ensures |r| == |success| + |errors|
    ensures r[..|success|] == success
    ensures forall k :: 0 <= k < |errors| ==> errors[k].handle in r
  {
    var r := success + seq(|errors|, k requires 0 <= k < |errors| => errors[k].handle);
    assert forall k :: 0 <= k < |errors| ==> r[|success| + k] == errors[k].handle;
    r
  }

  predicate HandlesKnown(handles: seq<nat>, count: nat) {
    forall k :: 0 <= k < |handles| ==> handles[k] < count
  }

  /** The finished transfers of a batch handled in order. */
  function CompleteAll(states: seq<CameraState>, handles: seq<nat>, now: nat): (r: seq<CameraState>)
    requires HandlesKnown(handles, |states|)
    ensures |r| == |states|
    decreases |handles|
  {
    if handles == [] then states
    else
      var prev := CompleteAll(states, handles[..|handles| - 1], now);
      var h := handles[|handles| - 1];
      prev[h := Completed(prev[h], now)]
  }

  /**
   * After a batch each camera is handled as if its transfer had finished
   * once, however often it appears in the batch; cameras that do not appear
   * keep every field.
   */
  lemma {:induction false} CompleteAllAt(states: seq<CameraState>, handles: seq<nat>, now: nat, j: nat)
    requires HandlesKnown(handles, |states|) && j < |states|
    ensures CompleteAll(states, handles, now)[j] == if j in handles then Completed(states[j], now) else states[j]
    decreases |handles|
  {
    if handles != [] {
      var init := handles[..|handles| - 1];
      CompleteAllAt(states, init, now, j);
      assert handles == init + [handles[|handles| - 1]];
    }
  }

  /** A batch handled in two parts is the batch handled at once. */
  lemma {:induction false} CompleteAllAppend(states: seq<CameraState>, a: seq<nat>, b: seq<nat>, now: nat)
    requires HandlesKnown(a + b, |states|)
    ensures HandlesKnown(a, |states|) && HandlesKnown(b, |states|)
    ensures CompleteAll(states, a + b, now) == CompleteAll(CompleteAll(states, a, now), b, now)
    decreases |b|
  {
    assert forall k :: 0 <= k < |a| ==> a[k] == (a + b)[k];
    assert forall k :: 0 <= k < |b| ==> b[k] == (a + b)[|a| + k];
    if b == [] {
      assert a + b == a;
    } else {
      var b' := b[..|b| - 1];
      assert (a + b)[..|a + b| - 1] == a + b';
      CompleteAllAppend(states, a, b', now);
    }
  }

  /** A second finish before the re-arm changes nothing. */
  lemma CompletedOnce(s: CameraState, t0: nat, t1: nat)
    ensures Completed(Completed(s, t0), t1) == Completed(s, t0)
  {
  }

  /** A finish while a reconnect is already pending is ignored. */
  lemma CompletedIgnoredWhilePending(s: CameraState, now: nat)
    requires Pending(s.reconnect)
    ensures Completed(s, now) == s
  {
  }

  /** A camera with no pending reconnect is marked disconnected and gets a deadline RECONNECT_DELAY ahead. */
  lemma CompletedSchedules(s: CameraState, now: nat)
    requires !Pending(s.reconnect)
    ensures Completed(s, now) == s.(connected := Some(false), reconnect := Some(now + RECONNECT_DELAY))
  {
  }

  /** The sweep's test: a pending deadline strictly before `now`. */
  predicate Due(s: CameraState, now: nat) {
    Pending(s.reconnect) && s.reconnect.value < now
  }

  /** The sweep's effect on one camera. */
  function Swept(s: CameraState, now: nat): (r: CameraState)
    ensures !Due(r, now)
    ensures r.connected == s.connected && r.alarm == s.alarm && r.published == s.published
    ensures r.reconnect != s.reconnect ==> Due(s, now) && r.reconnect == None
  {
    if Due(s, now) then s.(reconnect := None) else s
  }

  function SweepAll(states: seq<CameraState>, now: nat): (r: seq<CameraState>)
    ensures |r| == |states|
  {
    seq(|states|, j requires 0 <= j < |states| => Swept(states[j], now))
  }

  /** After a sweep no camera is due, and no alarm or published log has changed. */
  lemma SweptAllSettled(states: seq<CameraState>, now: nat)
    ensures forall j :: 0 <= j < |states| ==> !Due(SweepAll(states, now)[j], now)
    ensures forall j :: 0 <= j < |states| ==>
      SweepAll(states, now)[j].alarm == states[j].alarm && SweepAll(states, now)[j].published == states[j].published
  {
  }

  /** The cameras the sweep re-arms, in camera order. */
  function DueIndices(states: seq<CameraState>, now: nat): (r: seq<nat>)
    ensures forall k :: 0 <= k < |r| ==> r[k] < |states| && Due(states[r[k]], now)
    ensures forall j :: 0 <= j < |states| && Due(states[j], now) ==> j in r
    ensures forall k, l :: 0 <= k < l < |r| ==> r[k] < r[l]
    decreases |states|
  {
    if states == [] then []
    else
      var n := |states| - 1;
      var prev := DueIndices(states[..n], now);
      assert forall j :: 0 <= j < n ==> states[..n][j] == states[j];
      prev + (if Due(states[n], now) then [n] else [])
  }

  /** A camera whose transfer finished in this batch is not re-armed by the same batch's sweep. */
  lemma {:induction false} JustFinishedNotRearmed(states: seq<CameraState>, handles: seq<nat>, now: nat, j: nat)
    requires HandlesKnown(handles, |states|) && j < |states|
    requires j in handles && !Pending(states[j].reconnect)
    ensures j !in DueIndices(CompleteAll(states, handles, now), now)
  {
    CompleteAllAt(states, handles, now, j);
  }

  /** One more camera swept. */
  lemma SweepStep(states: seq<CameraState>, i: nat, now: nat)
    requires i < |states|
    ensures SweepAll(states[..i + 1], now) + states[i + 1..] ==
      (SweepAll(states[..i], now) + states[i..])[i := Swept(states[i], now)]
    ensures DueIndices(states[..i + 1], now) == DueIndices(states[..i], now) + if Due(states[i], now) then [i] else []
  {
    assert states[..i + 1][..i] == states[..i];
  }

  /** When no camera is due, the sweep re-arms nothing. */
  lemma {:induction false} NoneDueNoneRearmed(states: seq<CameraState>, now: nat)
    requires forall j :: 0 <= j < |states| ==> !Due(states[j], now)
    ensures DueIndices(states, now) == []
    decreases |states|
  {
    if states != [] {
      var n := |states| - 1;
      assert forall j :: 0 <= j < n ==> states[..n][j] == states[j];
      NoneDueNoneRearmed(states[..n], now);
    }
  }

  /** A second sweep at the same time re-arms nothing. */
  lemma SweepTwiceRearmsNothing(states: seq<CameraState>, now: nat)
    ensures SweepAll(SweepAll(states, now), now) == SweepAll(states, now)
    ensures DueIndices(SweepAll(states, now), now) == []
  {
    SweptAllSettled(states, now);
    NoneDueNoneRearmed(SweepAll(states, now), now);
  }

  /** The bookkeeping of one batch: completions, then the sweep. */
  datatype Batch = Batch(states: seq<CameraState>, rearmed: seq<nat>)

  function Cycle(states: seq<CameraState>, handles: seq<nat>, now: nat): (r: Batch)
    requires HandlesKnown(handles, |states|)
    ensures |r.states| == |states|
    ensures forall j :: 0 <= j < |states| ==> !Due(r.states[j], now)
    ensures forall k :: 0 <= k < |r.rearmed| ==> r.rearmed[k] < |states|
  {
    var done := CompleteAll(states, handles, now);
    SweptAllSettled(done, now);
    Batch(SweepAll(done, now), DueIndices(done, now))
  }

  /**
   * A dropped connection is re-armed exactly once: a second failure before
   * the deadline adds nothing, the first sweep after the deadline re-arms
   * it and clears the deadline, and a later sweep does nothing more.
   */
  lemma ReconnectOnce(s: CameraState, t0: nat, t1: nat, t2: nat, t3: nat)
    requires s.reconnect == None
    requires t1 <= t0 + RECONNECT_DELAY < t2
    ensures Cycle([s], [0], t0).rearmed == []
    ensures Cycle(Cycle([s], [0], t0).states, [0], t1) == Batch(Cycle([s], [0], t0).states, [])
    ensures Cycle(Cycle([s], [0], t0).states, [], t2).rearmed == [0]
    ensures Cycle(Cycle(Cycle([s], [0], t0).states, [], t2).states, [], t3).rearmed == []
  {
    var s1 := Completed(s, t0);
    CycleOneCamera(s, [0], t0);
    assert !Due(s1, t0);
    CycleOneCamera(s1, [0], t1);
    assert Completed(s1, t1) == s1 && !Due(s1, t1);
    CycleOneCamera(s1, [], t2);
    var s2 := s1.(reconnect := None);
    assert Due(s1, t2) && Swept(s1, t2) == s2;
    CycleOneCamera(s2, [], t3);
  }

  /** A batch on a single camera, spelled out. */
  lemma CycleOneCamera(s: CameraState, handles: seq<nat>, now: nat)
    requires handles == [] || handles == [0]
    ensures var done := if handles == [] then s else Completed(s, now);
      Cycle([s], handles, now) == Batch([Swept(done, now)], if Due(done, now) then [0] else [])
  {
    var done := if handles == [] then s else Completed(s, now);
    if handles == [0] {
      CompleteOneCamera(s, now);
    }
    SweepOneCamera(done, now);
  }

  lemma CompleteOneCamera(s: CameraState, now: nat)
    ensures CompleteAll([s], [0], now) == [Completed(s, now)]
  {
    assert [0][..0] == [];
  }

  lemma SweepOneCamera(s: CameraState, now: nat)
    ensures SweepAll([s], now) == [Swept(s, now)]
    ensures DueIndices([s], now) == if Due(s, now) then [0] else []
  {
    assert [s][..0] == [];
  }

  class DahuaMaster {
    const Cameras: seq<DahuaCamera>
    const NumCurlObjs: nat
    /** Handles taken off the multi handle and added back, in order. */
    var Rearmed: seq<nat>

    ghost predicate Valid()
      reads this, Cameras
    {
      && NumCurlObjs == |Cameras|
      && (forall i, j :: 0 <= i < j < |Cameras| ==> Cameras[i] != Cameras[j])
      && (forall i :: 0 <= i < |Cameras| ==> Cameras[i].Index == i && Cameras[i].Valid())
    }

    function States(): (r: seq<CameraState>)
      reads Cameras
      ensures |r| == |Cameras|
    {
      seq(|Cameras|, j requires 0 <= j < |Cameras| reads Cameras => Cameras[j].State())
    }

    /** One camera per configured events list, each with its own handle. */
    constructor (configs: seq<string>)
      ensures Valid() && fresh(Cameras)
      ensures |Cameras| == |configs| && Rearmed == []
      ensures forall i :: 0 <= i < |Cameras| ==> Cameras[i].Events == configs[i] && Cameras[i].State() == Initial
    {
      var cameras: seq<DahuaCamera> := [];
      var count := 0;
      for index := 0 to |configs|
        invariant |cameras| == index && count == index
        invariant fresh(cameras)
        invariant forall i, j :: 0 <= i < j < index ==> cameras[i] != cameras[j]
        invariant forall i :: 0 <= i < index ==>
          cameras[i].Index == i && cameras[i].Events == configs[i] && cameras[i].State() == Initial && cameras[i].Valid()
      {
        var camera := new DahuaCamera(index, configs[index]);
        cameras := cameras + [camera];
        count := count + 1;
      }
      Cameras := cameras;
      NumCurlObjs := count;
      Rearmed := [];
    }

    /** `OnTimer()`: every camera's timer, each on its own camera only. */
    method OnTimer(now: nat)
      requires Valid()
      modifies Cameras
      ensures Valid()
      ensures forall j :: 0 <= j < |Cameras| ==> Cameras[j].State() == Ticked(old(Cameras[j].State()), now)
    {
      for i := 0 to |Cameras|
        invariant Valid()
        invariant forall j :: 0 <= j < i ==> Cameras[j].State() == Ticked(old(Cameras[j].State()), now)
        invariant forall j :: i <= j < |Cameras| ==> Cameras[j].State() == old(Cameras[j].State())
      {
        Cameras[i].OnTimer(now);
      }
    }

    /** One finished transfer of camera `k`. */
    method Complete(k: nat, now: nat)
      requires Valid() && k < |Cameras|
      modifies Cameras[k]
      ensures Valid()
      ensures States() == old(States())[k := Completed(old(States())[k], now)]
    {
      var camera := Cameras[k];
      if Pending(camera.Reconnect) {
        return;
      }
      camera.OnDisconnect();
      camera.Reconnect := Some(now + RECONNECT_DELAY);
      assert forall j :: 0 <= j < |Cameras| && j != k ==> Cameras[j] != camera;
    }

    /** The two completion loops of a batch: successes first, then errors. */
    method OnFinished(success: seq<nat>, errors: seq<TransferError>, now: nat)
      requires Valid() && HandlesKnown(Finished(success, errors), |Cameras|)
      modifies Cameras
      ensures Valid()
      ensures States() == CompleteAll(old(States()), Finished(success, errors), now)
    {
      var handles := Finished(success, errors);
      assert handles[..|success|] == success;
      OnSuccess(success, now);
      OnError(errors, now);
      assert Finished([], errors) == handles[|success|..];
      CompleteAllAppend(old(States()), success, handles[|success|..], now);
      assert success + handles[|success|..] == handles;
    }

    /** The loop over curl's success list. */
    method OnSuccess(success: seq<nat>, now: nat)
      requires Valid() && HandlesKnown(success, |Cameras|)
      modifies Cameras
      ensures Valid()
      ensures States() == CompleteAll(old(States()), success, now)
    {
      for i := 0 to |success|
        invariant Valid()
        invariant States() == CompleteAll(old(States()), success[..i], now)
      {
        assert success[..i + 1][..i] == success[..i];
        Complete(success[i], now);
      }
      assert success[..|success|] == success;
    }

    /** The loop over curl's error list. */
    method OnError(errors: seq<TransferError>, now: nat)
      requires Valid() && HandlesKnown(Finished([], errors), |Cameras|)
      modifies Cameras
      ensures Valid()
      ensures States() == CompleteAll(old(States()), Finished([], errors), now)
    {
      ghost var handles := Finished([], errors);
      for i := 0 to |errors|
        invariant Valid()
        invariant States() == CompleteAll(old(States()), handles[..i], now)
      {
        assert handles[..i + 1][..i] == handles[..i] && handles[i] == errors[i].handle;
        Complete(errors[i].handle, now);
      }
      assert handles[..|errors|] == handles;
    }

    /** The sweep: re-arm and clear every camera whose deadline is strictly before `now`. */
    method Sweep(now: nat)
      requires Valid()
      modifies this, Cameras
      ensures Valid()
      ensures States() == SweepAll(old(States()), now)
      ensures Rearmed == old(Rearmed) + DueIndices(old(States()), now)
    {
      ghost var before := States();
      for i := 0 to |Cameras|
        invariant Valid()
        invariant States() == SweepAll(before[..i], now) + before[i..]
        invariant Rearmed == old(Rearmed) + DueIndices(before[..i], now)
      {
        SweepStep(before, i, now);
        SweepCamera(i, now);
      }
      assert before[..|Cameras|] == before && before[|Cameras|..] == [];
    }

    /** The body of the sweep loop, for camera `i`. */
    method SweepCamera(i: nat, now: nat)
      requires Valid() && i < |Cameras|
      modifies this, Cameras[i]
      ensures Valid()
      ensures States() == old(States())[i := Swept(old(States())[i], now)]
      ensures Rearmed == old(Rearmed) + if Due(old(States())[i], now) then [i] else []
    {
      var camera := Cameras[i];
      if Pending(camera.Reconnect) && camera.Reconnect.value < now {
        Rearmed := Rearmed + [i];
        camera.Reconnect := None;
      }
      assert forall j :: 0 <= j < |Cameras| && j != i ==> Cameras[j] != camera;
    }

    /** Lines 170-204: the bookkeeping runs only when the running-handle count has dropped. */
    method AfterPerform(numHandles: int, success: seq<nat>, errors: seq<TransferError>, now: nat)
      requires Valid() && HandlesKnown(Finished(success, errors), |Cameras|)
      modifies this, Cameras
      ensures Valid()
      ensures numHandles == NumCurlObjs ==> States() == old(States()) && Rearmed == old(Rearmed)
      ensures numHandles != NumCurlObjs ==>
        && States() == Cycle(old(States()), Finished(success, errors), now).states
        && Rearmed == old(Rearmed) + Cycle(old(States()), Finished(success, errors), now).rearmed
    {
      if numHandles != NumCurlObjs {
        OnFinished(success, errors, now);
        Sweep(now);
      }
    }
  }
}
