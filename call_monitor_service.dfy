/** `CallMonitorService`: the capture state (recorder and job), the permission
    gate of `startCapture`, and the alert gate of the read loop: a frame raises a
    notification when it was read, its probability reaches 0.75, and more than
    10 s have passed since the previous alert. The recorder, the clock and the
    (placeholder) probability are inputs; a frame carries all three. */
module CallMonitorService {
  import opened Wrappers
  import opened Ints

  const ALERT_NOTIF_ID: int := 2001
  const SAMPLE_RATE: int := 16000
  const FRAME_SIZE: int := 1024
  const ALERT_THRESHOLD: real := 0.75
  const ALERT_COOLDOWN: int := 10000

  /** One pass of the read loop: how many shorts `read` returned, the probability
      computed for the frame, and the wall clock at the time. */
  datatype Frame = Frame(read: int, probability: real, now: int)

  /** A posted notification: its id, the percentage in its text, and when it fired. */
  datatype Alert = Alert(id: int, percent: int, time: int)

  /** The state the read loop changes: `lastAlertTime`, the next `alertId`, and the
      notifications posted so far. */
  datatype Gate = Gate(lastAlertTime: int, nextId: int, alerts: seq<Alert>)

  /** The guard of lines 100 and 104-105. */
  predicate Fires(f: Frame, lastAlertTime: int) {
    f.read > 0 && f.probability >= ALERT_THRESHOLD && f.now - lastAlertTime > ALERT_COOLDOWN
  }

  /** One loop pass over the gate. */
  function StepGate(g: Gate, f: Frame): Gate {
    if Fires(f, g.lastAlertTime) then
      Gate(f.now, g.nextId + 1, g.alerts + [Alert(g.nextId, FloatToInt(f.probability * 100.0), f.now)])
    else g
  }

  /** The loop over a sequence of frames. */
  function RunGate(g: Gate, frames: seq<Frame>): Gate
    decreases |frames|
  {
    if |frames| == 0 then g else RunGate(StepGate(g, frames[0]), frames[1..])
  }

  /** What the loop keeps true: alert ids run consecutively from `firstId`, `nextId`
      is the one after the last, consecutive alerts are more than the cooldown
      apart, and `lastAlertTime` is the time of the latest alert. */
  ghost predicate Consistent(g: Gate, firstId: int, start: int) {
    && g.nextId == firstId + |g.alerts|
    && (forall k :: 0 <= k < |g.alerts| ==> g.alerts[k].id == firstId + k)
    && (forall k :: 0 < k < |g.alerts| ==> g.alerts[k].time - g.alerts[k - 1].time > ALERT_COOLDOWN)
    && (|g.alerts| == 0 ==> g.lastAlertTime == start)
    && (|g.alerts| > 0 ==> g.lastAlertTime == g.alerts[|g.alerts| - 1].time)
    && (|g.alerts| > 0 ==> g.alerts[0].time - start > ALERT_COOLDOWN)
  }

  /** A frame that does not fire (nothing read, below threshold, or inside the
      cooldown) leaves the gate as it was; one that fires posts exactly one alert
      with the next id, at its own time. */
  lemma StepEffect(g: Gate, f: Frame)
    ensures !Fires(f, g.lastAlertTime) ==> StepGate(g, f) == g
    ensures Fires(f, g.lastAlertTime) ==>
              var r := StepGate(g, f);
              && r.alerts[..|g.alerts|] == g.alerts && |r.alerts| == |g.alerts| + 1
              && r.alerts[|g.alerts|].id == g.nextId && r.nextId == g.nextId + 1
              && r.alerts[|g.alerts|].time == f.now && r.lastAlertTime == f.now
              && r.alerts[|g.alerts|].percent >= 75
  {
    if Fires(f, g.lastAlertTime) {
      var p := f.probability * 100.0;
      assert p >= 75.0;
      assert TruncReal(p) >= 75;
      assert StepGate(g, f).alerts[..|g.alerts|] == g.alerts;
    }
  }

  /** One pass keeps the gate consistent and only ever appends. */
  lemma StepConsistent(g: Gate, f: Frame, firstId: int, start: int)
    requires Consistent(g, firstId, start)
    ensures Consistent(StepGate(g, f), firstId, start)
    ensures |StepGate(g, f).alerts| >= |g.alerts|
    ensures StepGate(g, f).alerts[..|g.alerts|] == g.alerts
  {
    var g2 := StepGate(g, f);
    if Fires(f, g.lastAlertTime) {
      var n := |g.alerts|;
      assert g2.alerts[n].time - g.lastAlertTime > ALERT_COOLDOWN;
      assert g2.alerts[..n] == g.alerts;
      forall k | 0 < k < |g2.alerts|
        ensures g2.alerts[k].time - g2.alerts[k - 1].time > ALERT_COOLDOWN
      {
        if k < n {
          assert g2.alerts[k] == g.alerts[k] && g2.alerts[k - 1] == g.alerts[k - 1];
        }
      }
    }
  }

  /** The loop keeps the gate consistent. */
  lemma {:induction false} RunGateConsistent(g: Gate, frames: seq<Frame>, firstId: int, start: int)
    requires Consistent(g, firstId, start)
    ensures Consistent(RunGate(g, frames), firstId, start)
    ensures |RunGate(g, frames).alerts| >= |g.alerts|
    ensures RunGate(g, frames).alerts[..|g.alerts|] == g.alerts
    decreases |frames|
  {
    if |frames| > 0 {
      var g2 := StepGate(g, frames[0]);
      StepConsistent(g, frames[0], firstId, start);
      RunGateConsistent(g2, frames[1..], firstId, start);
      var r := RunGate(g2, frames[1..]);
      assert r.alerts[..|g2.alerts|] == g2.alerts;
      assert r.alerts[..|g.alerts|] == r.alerts[..|g2.alerts|][..|g.alerts|];
    }
  }

  /** From the state a fresh capture starts in, every alert id is distinct and
      increasing (2001, 2002, ...), and alerts are more than ten seconds apart. */
  lemma AlertsSpacedAndNumbered(lastAlertTime: int, frames: seq<Frame>)
    ensures var r := RunGate(Gate(lastAlertTime, ALERT_NOTIF_ID, []), frames);
            && (forall k :: 0 <= k < |r.alerts| ==> r.alerts[k].id == ALERT_NOTIF_ID + k)
            && (forall k :: 0 < k < |r.alerts| ==> r.alerts[k].time - r.alerts[k - 1].time > ALERT_COOLDOWN)
            && r.nextId == ALERT_NOTIF_ID + |r.alerts|
  {
    RunGateConsistent(Gate(lastAlertTime, ALERT_NOTIF_ID, []), frames, ALERT_NOTIF_ID, lastAlertTime);
  }

  /** Two qualifying frames less than ten seconds apart raise a single alert. */
  lemma CooldownSuppresses(g: Gate, f1: Frame, f2: Frame)
    requires Fires(f1, g.lastAlertTime)
    requires f2.now - f1.now <= ALERT_COOLDOWN
    ensures |RunGate(g, [f1, f2]).alerts| == |g.alerts| + 1
  {
    var g1 := StepGate(g, f1);
    assert !Fires(f2, g1.lastAlertTime);
    assert [f1, f2][1..] == [f2];
    assert [f2][1..] == [];
    calc {
      RunGate(g, [f1, f2]);
      RunGate(g1, [f2]);
      RunGate(StepGate(g1, f2), []);
      g1;
    }
  }

  /** Frames that read nothing never change the gate, whatever their probability. */
  lemma {:induction false} EmptyReadsIgnored(g: Gate, frames: seq<Frame>)
    requires forall k :: 0 <= k < |frames| ==> frames[k].read <= 0
    ensures RunGate(g, frames) == g
    decreases |frames|
  {
    if |frames| > 0 {
      EmptyReadsIgnored(g, frames[1..]);
    }
  }

  /** The platform recorder: the buffer size it was created with, and whether it is recording. */
  datatype Recorder = Recorder(bufferSize: int, recording: bool)

  class CallMonitorService {
    var recorder: Option<Recorder>
    var jobActive: bool
    var lastAlertTime: int
    /** The read loop's `alertId`; it restarts at 2001 with each capture job. */
    var alertId: int
    var notified: seq<Alert>
    /** Whether the service asked to stop itself. */
    var stopRequested: bool
    /** How many recorders were stopped and released. */
    var released: nat

    constructor ()
      ensures recorder.None? && !jobActive && lastAlertTime == 0 && alertId == ALERT_NOTIF_ID
      ensures notified == [] && !stopRequested && released == 0
    {
      recorder := None;
      jobActive := false;
      lastAlertTime := 0;
      alertId := ALERT_NOTIF_ID;
      notified := [];
      stopRequested := false;
      released := 0;
    }

    /** `startCapture`: nothing when a recorder exists; without the microphone
        permission the service stops itself; otherwise a recording recorder with a
        buffer of at least one second, and a fresh loop job. */
    method StartCapture(hasPermission: bool, minBufferSize: int)
      modifies this
      ensures old(recorder).Some? ==>
                recorder == old(recorder) && jobActive == old(jobActive)
                && alertId == old(alertId) && stopRequested == old(stopRequested)
      ensures old(recorder).None? && !hasPermission ==>
                recorder.None? && stopRequested && jobActive == old(jobActive) && alertId == old(alertId)
      ensures old(recorder).None? && hasPermission ==>
                recorder == Some(Recorder(Max(minBufferSize, SAMPLE_RATE), true))
                && jobActive && alertId == ALERT_NOTIF_ID && stopRequested == old(stopRequested)
      ensures lastAlertTime == old(lastAlertTime) && notified == old(notified) && released == old(released)
    {
      if recorder.Some? {
        return;
      }
      if !hasPermission {
        stopRequested := true;
        return;
      }
      var bufferSize := Max(minBufferSize, SAMPLE_RATE);
      recorder := Some(Recorder(bufferSize, false));
      recorder := Some(recorder.value.(recording := true));
      alertId := ALERT_NOTIF_ID;
      jobActive := true;
    }

    /** One pass of the read loop. */
    method ReadFrame(f: Frame)
      requires recorder.Some? && jobActive
      modifies this`lastAlertTime, this`alertId, this`notified
      ensures Gate(lastAlertTime, alertId, notified) == StepGate(old(Gate(lastAlertTime, alertId, notified)), f)
    {
      if f.read > 0 {
        var probability := f.probability;
        if probability >= ALERT_THRESHOLD && f.now - lastAlertTime > ALERT_COOLDOWN {
          notified := notified + [Alert(alertId, FloatToInt(probability * 100.0), f.now)];
          alertId := alertId + 1;
          lastAlertTime := f.now;
        }
      }
    }

    /** The read loop over the frames the recorder delivers while the job runs. */
    method Monitor(frames: seq<Frame>)
      requires recorder.Some? && jobActive
      modifies this`lastAlertTime, this`alertId, this`notified
      ensures Gate(lastAlertTime, alertId, notified) == RunGate(old(Gate(lastAlertTime, alertId, notified)), frames)
    {
      var i := 0;
      while i < |frames|
        invariant 0 <= i <= |frames|
        invariant RunGate(old(Gate(lastAlertTime, alertId, notified)), frames)
               == RunGate(Gate(lastAlertTime, alertId, notified), frames[i..])
      {
        assert frames[i..][1..] == frames[i + 1..];
        ReadFrame(frames[i]);
        i := i + 1;
      }
    }

    /** `stopCapture`: the job is cancelled and any recorder stopped, released and
        dropped; with nothing capturing it only clears the fields. */
    method StopCapture()
      modifies this`recorder, this`jobActive, this`released
      ensures recorder.None? && !jobActive
      ensures released == old(released) + (if old(recorder).Some? then 1 else 0)
    {
      jobActive := false;
      if recorder.Some? {
        recorder := Some(recorder.value.(recording := false));
        released := released + 1;
      }
      recorder := None;
    }
  }

  /** Starting twice never creates a second recorder. */
  method StartTwice(hasPermission: bool, minBufferSize: int, otherMin: int)
    returns (first: Option<Recorder>, second: Option<Recorder>)
    ensures first == second
    ensures hasPermission <==> first.Some?
  {
    var s := new CallMonitorService();
    s.StartCapture(hasPermission, minBufferSize);
    first := s.recorder;
    s.StartCapture(hasPermission, otherMin);
    second := s.recorder;
  }
}
