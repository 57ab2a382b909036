/**
 * The client-side proctoring component: it turns face-tracking results and
 * object detections into proctoring events, keeps the newest events in a
 * local log, sends every event to the relay server tagged with the session
 * id, and buffers recorded video chunks until the recorder stops.
 *
 * Clock readings are parameters (`now`, in milliseconds); the face-mesh
 * geometry test is the boolean `offCenter`; a detection frame is the
 * sequence of predicted class names.
 */
module ProctorClient {
  import opened Wrappers
  import opened Wire

  /** A local log entry. `kind` is the entry's `type`; `ts` is the instant the ISO timestamp names. */
  datatype EventLog = EventLog(kind: string, detail: Option<string>, ts: int)

  /** The bytes of one recorded video chunk. */
  type Blob = seq<bv8>

  const MaxLogs: nat := 200
  const NoFaceAfter: int := 10000
  const FocusLostAfter: int := 5000
  const ObjectCooldown: int := 3000
  const Interesting: seq<string> := ["cell phone", "book", "laptop"]

  function Min(a: int, b: int): int {
    if a <= b then a else b
  }

  function NoFaceEvent(now: int): EventLog {
    EventLog("NoFace", Some("No face seen >10s"), now)
  }

  function FocusLostEvent(now: int): EventLog {
    EventLog("FocusLost", Some("User looking away >5s"), now)
  }

  function ObjectEvent(cls: string, now: int): EventLog {
    EventLog("ObjectDetected", Some(cls), now)
  }

  function UploadedEvent(now: int): EventLog {
    EventLog("VideoUploaded", Some("Chunk uploaded"), now)
  }

  /** The message sent for a logged event: its fields plus the component's session id. */
  function Tagged(sessionId: string, e: EventLog): (m: Message)
    ensures m.sessionId == Some(sessionId) && m.candidateId == None
    ensures m.kind == Some(e.kind) && m.detail == e.detail && m.ts == Some(e.ts)
  {
    Message(Some(sessionId), Some(e.kind), e.detail, Some(e.ts), None)
  }

  function Raised(alert: Option<EventLog>): seq<EventLog> {
    match alert
    case Some(e) => [e]
    case None => []
  }

  // ---------------------------------------------------------------------
  // The local log

  /** The log-state updater of `pushLog`: the new entry first, at most `MaxLogs` entries kept. */
  function Prepend(e: EventLog, s: seq<EventLog>): (r: seq<EventLog>)
    ensures |r| == Min(|s| + 1, MaxLogs)
    ensures r[0] == e
    ensures forall i :: 1 <= i < |r| ==> r[i] == s[i - 1]
    ensures |s| >= MaxLogs ==> r[1..] == s[..MaxLogs - 1]
  {
    ([e] + s)[..Min(|s| + 1, MaxLogs)]
  }

  /** The newest `n` entries of a history kept oldest first, listed newest first. */
  function Newest(h: seq<EventLog>, n: nat): (r: seq<EventLog>)
    ensures |r| == Min(|h|, n)
  {
    seq(Min(|h|, n), i requires 0 <= i < Min(|h|, n) => h[|h| - 1 - i])
  }

  /** Applying `pushLog` to the log of a history gives the log of the longer history. */
  lemma PushLogKeepsNewest(e: EventLog, h: seq<EventLog>)
    ensures Prepend(e, Newest(h, MaxLogs)) == Newest(h + [e], MaxLogs)
  {
    var a := Prepend(e, Newest(h, MaxLogs));
    var b := Newest(h + [e], MaxLogs);
    forall i | 0 <= i < |a|
      ensures a[i] == b[i]
    {
      if i > 0 {
        assert a[i] == Newest(h, MaxLogs)[i - 1] == h[|h| - i] == (h + [e])[|h| - i];
      }
    }
  }

  /** The messages sent for a history of logged events, in order. */
  function Outgoing(sessionId: string, h: seq<EventLog>): (r: seq<ClientMessage>)
    ensures |r| == |h|
  {
    seq(|h|, i requires 0 <= i < |h| => ProctorEvent(Tagged(sessionId, h[i])))
  }

  // ---------------------------------------------------------------------
  // Face timers

  datatype FaceFrame = FaceFrame(facePresent: bool, offCenter: bool, now: int)
  datatype Timers = Timers(lastFaceSeen: int, lastLookingCenter: int)
  datatype FaceOutcome = FaceOutcome(timers: Timers, alert: Option<EventLog>)

  /**
   * One face-mesh result. `NoFace` is raised exactly when no face is seen and
   * more than 10 s passed since one was; `FocusLost` exactly when an
   * off-centre face is seen and more than 5 s passed since the last centred
   * one. A timer is reset by what it watches and after its alert fires.
   */
  function FaceStep(t: Timers, f: FaceFrame): (r: FaceOutcome)
    ensures r.alert == Some(NoFaceEvent(f.now)) <==> !f.facePresent && f.now - t.lastFaceSeen > NoFaceAfter
    ensures r.alert == Some(FocusLostEvent(f.now)) <==>
              f.facePresent && f.offCenter && f.now - t.lastLookingCenter > FocusLostAfter
    ensures r.alert.Some? ==> r.alert == Some(NoFaceEvent(f.now)) || r.alert == Some(FocusLostEvent(f.now))
    ensures r.timers.lastFaceSeen == if f.facePresent || r.alert.Some? then f.now else t.lastFaceSeen
    ensures r.timers.lastLookingCenter ==
              if f.facePresent && (!f.offCenter || r.alert.Some?) then f.now else t.lastLookingCenter
  {
    if f.facePresent then
      if f.offCenter then
        if f.now - t.lastLookingCenter > FocusLostAfter then
          FaceOutcome(Timers(f.now, f.now), Some(FocusLostEvent(f.now)))
        else
          FaceOutcome(Timers(f.now, t.lastLookingCenter), None)
      else
        FaceOutcome(Timers(f.now, f.now), None)
    else if f.now - t.lastFaceSeen > NoFaceAfter then
      FaceOutcome(Timers(f.now, t.lastLookingCenter), Some(NoFaceEvent(f.now)))
    else
      FaceOutcome(t, None)
  }

  /** The timers after a run of face results. */
  function FaceRun(t: Timers, frames: seq<FaceFrame>): Timers
    decreases |frames|
  {
    if frames == [] then t
    else FaceStep(FaceRun(t, frames[..|frames| - 1]), frames[|frames| - 1]).timers
  }

  /** The alerts raised during a run of face results, in order. */
  function FaceAlerts(t: Timers, frames: seq<FaceFrame>): seq<EventLog>
    decreases |frames|
  {
    if frames == [] then []
    else
      var prefix := frames[..|frames| - 1];
      FaceAlerts(t, prefix) + Raised(FaceStep(FaceRun(t, prefix), frames[|frames| - 1]).alert)
  }

  /** The clock never runs backwards and never reads earlier than `start`. */
  ghost predicate Chronological(frames: seq<FaceFrame>, start: int) {
    && (forall i :: 0 <= i < |frames| ==> start <= frames[i].now)
    && (forall i, j :: 0 <= i < j < |frames| ==> frames[i].now <= frames[j].now)
  }

  function Latest(frames: seq<FaceFrame>, start: int): int {
    if frames == [] then start else frames[|frames| - 1].now
  }

  predicate Centred(f: FaceFrame) {
    f.facePresent && !f.offCenter
  }

  /**
   * Over a chronological run, each timer only moves forward, stays at or
   * after every frame that resets it, and stays at or after every alert it
   * raised; all alerts carry the time of a frame of the run.
   */
  lemma {:induction false} FaceRunBounds(t: Timers, frames: seq<FaceFrame>, start: int)
    requires t.lastFaceSeen <= start && t.lastLookingCenter <= start
    requires Chronological(frames, start)
    ensures var r := FaceRun(t, frames);
      && t.lastFaceSeen <= r.lastFaceSeen <= Latest(frames, start)
      && t.lastLookingCenter <= r.lastLookingCenter <= Latest(frames, start)
    ensures forall i :: 0 <= i < |frames| && frames[i].facePresent ==>
              frames[i].now <= FaceRun(t, frames).lastFaceSeen
    ensures forall i :: 0 <= i < |frames| && Centred(frames[i]) ==>
              frames[i].now <= FaceRun(t, frames).lastLookingCenter
    ensures forall a :: a in FaceAlerts(t, frames) ==> a.ts <= Latest(frames, start)
    ensures forall a :: a in FaceAlerts(t, frames) && a.kind == "NoFace" ==>
              a.ts <= FaceRun(t, frames).lastFaceSeen
    ensures forall a :: a in FaceAlerts(t, frames) && a.kind == "FocusLost" ==>
              a.ts <= FaceRun(t, frames).lastLookingCenter
    decreases |frames|
  {
    if frames != [] {
      var prefix := frames[..|frames| - 1];
      var f := frames[|frames| - 1];
      assert Chronological(prefix, start) by {
        forall i | 0 <= i < |prefix| ensures start <= prefix[i].now {
          assert prefix[i] == frames[i];
        }
        forall i, j | 0 <= i < j < |prefix| ensures prefix[i].now <= prefix[j].now {
          assert prefix[i] == frames[i] && prefix[j] == frames[j];
        }
      }
      FaceRunBounds(t, prefix, start);
      var t0 := FaceRun(t, prefix);
      assert Latest(prefix, start) <= f.now by {
        if prefix != [] {
          assert prefix[|prefix| - 1] == frames[|frames| - 2];
        }
      }
      forall i | 0 <= i < |frames| && frames[i].facePresent
        ensures frames[i].now <= FaceRun(t, frames).lastFaceSeen
      {
        if i < |prefix| {
          assert prefix[i] == frames[i];
        }
      }
      forall i | 0 <= i < |frames| && Centred(frames[i])
        ensures frames[i].now <= FaceRun(t, frames).lastLookingCenter
      {
        if i < |prefix| {
          assert prefix[i] == frames[i];
        }
      }
    }
  }

  lemma ChronologicalPrefix(frames: seq<FaceFrame>, f: FaceFrame, start: int)
    requires Chronological(frames + [f], start)
    ensures Chronological(frames, start)
    ensures Latest(frames, start) <= f.now
  {
    var all := frames + [f];
    forall i | 0 <= i < |frames| ensures start <= frames[i].now {
      assert frames[i] == all[i];
    }
    forall i, j | 0 <= i < j < |frames| ensures frames[i].now <= frames[j].now {
      assert frames[i] == all[i] && frames[j] == all[j];
    }
    assert f == all[|frames|];
    if frames != [] {
      assert frames[|frames| - 1] == all[|frames| - 1];
    }
  }

  /**
   * A `NoFace` alert at time `now` means more than 10 s passed since the
   * component was set up (`t`), since every face seen before, and since every
   * earlier `NoFace` alert.
   */
  lemma NoFaceRequiresAbsence(t: Timers, frames: seq<FaceFrame>, f: FaceFrame, start: int)
    requires t.lastFaceSeen <= start && t.lastLookingCenter <= start
    requires Chronological(frames + [f], start)
    requires FaceStep(FaceRun(t, frames), f).alert == Some(NoFaceEvent(f.now))
    ensures !f.facePresent
    ensures f.now - t.lastFaceSeen > NoFaceAfter
    ensures forall i :: 0 <= i < |frames| && frames[i].facePresent ==> f.now - frames[i].now > NoFaceAfter
    ensures forall a :: a in FaceAlerts(t, frames) && a.kind == "NoFace" ==> f.now - a.ts > NoFaceAfter
  {
    ChronologicalPrefix(frames, f, start);
    FaceRunBounds(t, frames, start);
  }

  /**
   * A `FocusLost` alert at time `now` means more than 5 s passed since the
   * component was set up (`t`), since every centred face seen before, and
   * since every earlier `FocusLost` alert.
   */
  lemma FocusLostRequiresLookingAway(t: Timers, frames: seq<FaceFrame>, f: FaceFrame, start: int)
    requires t.lastFaceSeen <= start && t.lastLookingCenter <= start
    requires Chronological(frames + [f], start)
    requires FaceStep(FaceRun(t, frames), f).alert == Some(FocusLostEvent(f.now))
    ensures f.facePresent && f.offCenter
    ensures f.now - t.lastLookingCenter > FocusLostAfter
    ensures forall i :: 0 <= i < |frames| && Centred(frames[i]) ==> f.now - frames[i].now > FocusLostAfter
    ensures forall a :: a in FaceAlerts(t, frames) && a.kind == "FocusLost" ==> f.now - a.ts > FocusLostAfter
  {
    ChronologicalPrefix(frames, f, start);
    FaceRunBounds(t, frames, start);
  }

  // ---------------------------------------------------------------------
  // Object detections

  /** The time a class was last logged; a class never logged reads as 0. */
  function LastLogged(times: map<string, int>, cls: string): (r: int)
    ensures cls in times ==> r == times[cls]
    ensures cls !in times ==> r == 0
  {
    if cls in times then times[cls] else 0
  }

  datatype DetectOutcome = DetectOutcome(times: map<string, int>, alerts: seq<EventLog>)

  /**
   * One prediction of a frame: an interesting class out of its cooldown is
   * logged once and its time set to `now`; anything else changes nothing.
   */
  function DetectStep(times: map<string, int>, cls: string, now: int): (r: DetectOutcome)
    ensures r.alerts == [] || r.alerts == [ObjectEvent(cls, now)]
    ensures r.alerts != [] <==> cls in Interesting && now - LastLogged(times, cls) > ObjectCooldown
    ensures r.times == if r.alerts != [] then times[cls := now] else times
  {
    if cls in Interesting && now - LastLogged(times, cls) > ObjectCooldown then
      DetectOutcome(times[cls := now], [ObjectEvent(cls, now)])
    else
      DetectOutcome(times, [])
  }

  /** All predictions of a frame, in order: at most one event per prediction. */
  function DetectFrame(times: map<string, int>, classes: seq<string>, now: int): (r: DetectOutcome)
    ensures |r.alerts| <= |classes|
    decreases |classes|
  {
    if classes == [] then DetectOutcome(times, [])
    else
      var r := DetectFrame(times, classes[..|classes| - 1], now);
      var s := DetectStep(r.times, classes[|classes| - 1], now);
      DetectOutcome(s.times, r.alerts + s.alerts)
  }

  lemma DetectFrameExtend(times: map<string, int>, classes: seq<string>, i: nat, now: int)
    requires i < |classes|
    ensures var before := DetectFrame(times, classes[..i], now);
      var step := DetectStep(before.times, classes[i], now);
      DetectFrame(times, classes[..i + 1], now) == DetectOutcome(step.times, before.alerts + step.alerts)
  {
    assert classes[..i + 1][..i] == classes[..i];
  }

  /** A frame raises an alert for `cls`: it is interesting, predicted, and out of its cooldown. */
  predicate Fired(times: map<string, int>, classes: seq<string>, now: int, cls: string) {
    cls in Interesting && cls in classes && now - LastLogged(times, cls) > ObjectCooldown
  }

  /**
   * A frame sets the logged time of exactly the classes that fired and leaves
   * every other entry as it was.
   */
  lemma {:induction false} DetectFrameTimes(times: map<string, int>, classes: seq<string>, now: int)
    ensures var r := DetectFrame(times, classes, now);
      && (forall c :: Fired(times, classes, now, c) ==> c in r.times && r.times[c] == now)
      && (forall c :: !Fired(times, classes, now, c) ==>
            (c in r.times <==> c in times) && (c in times ==> r.times[c] == times[c]))
    decreases |classes|
  {
    if classes != [] {
      var p := classes[..|classes| - 1];
      var x := classes[|classes| - 1];
      DetectFrameTimes(times, p, now);
      var r0 := DetectFrame(times, p, now);
      assert DetectFrame(times, classes, now).times == DetectStep(r0.times, x, now).times;
      assert classes == p + [x];
      assert forall c :: c in classes <==> c in p || c == x;
    }
  }

  /**
   * A frame logs exactly one `ObjectDetected` event for each class that fired,
   * however often the class was predicted, and no other event.
   */
  lemma {:induction false} DetectFrameAlerts(times: map<string, int>, classes: seq<string>, now: int)
    ensures var r := DetectFrame(times, classes, now);
      && (forall c :: Fired(times, classes, now, c) ==> ObjectEvent(c, now) in r.alerts)
      && (forall k :: 0 <= k < |r.alerts| ==>
            r.alerts[k].detail.Some? && r.alerts[k] == ObjectEvent(r.alerts[k].detail.value, now) &&
            Fired(times, classes, now, r.alerts[k].detail.value))
      && (forall k1, k2 :: 0 <= k1 < k2 < |r.alerts| ==> r.alerts[k1] != r.alerts[k2])
    decreases |classes|
  {
    if classes != [] {
      var p := classes[..|classes| - 1];
      var x := classes[|classes| - 1];
      DetectFrameAlerts(times, p, now);
      DetectFrameTimes(times, p, now);
      var r0 := DetectFrame(times, p, now);
      var s := DetectStep(r0.times, x, now);
      var r := DetectFrame(times, classes, now);
      assert r.alerts == r0.alerts + s.alerts;
      assert classes == p + [x];
      assert forall c :: c in classes <==> c in p || c == x;
      if s.alerts != [] {
        assert !Fired(times, p, now, x);
        assert LastLogged(r0.times, x) == LastLogged(times, x);
        forall k | 0 <= k < |r0.alerts| ensures r0.alerts[k] != ObjectEvent(x, now) {
          assert r0.alerts[k] == ObjectEvent(r0.alerts[k].detail.value, now);
        }
        forall k1, k2 | 0 <= k1 < k2 < |r.alerts| ensures r.alerts[k1] != r.alerts[k2] {
          if k2 < |r0.alerts| {
            assert r.alerts[k1] == r0.alerts[k1] && r.alerts[k2] == r0.alerts[k2];
          } else {
            assert r.alerts[k1] == r0.alerts[k1] && r.alerts[k2] == ObjectEvent(x, now);
          }
        }
        forall k | 0 <= k < |r.alerts|
          ensures r.alerts[k].detail.Some? && r.alerts[k] == ObjectEvent(r.alerts[k].detail.value, now) &&
            Fired(times, classes, now, r.alerts[k].detail.value)
        {
          if k < |r0.alerts| { assert r.alerts[k] == r0.alerts[k]; }
        }
      } else {
        assert r.alerts == r0.alerts;
        assert x in Interesting && now - LastLogged(times, x) > ObjectCooldown ==> Fired(times, p, now, x);
      }
    }
  }

  /** A frame with no interesting class changes nothing and logs nothing. */
  lemma {:induction false} UninterestingFrameIgnored(times: map<string, int>, classes: seq<string>, now: int)
    requires forall i :: 0 <= i < |classes| ==> classes[i] !in Interesting
    ensures DetectFrame(times, classes, now) == DetectOutcome(times, [])
    decreases |classes|
  {
    if classes != [] {
      var p := classes[..|classes| - 1];
      assert forall i :: 0 <= i < |p| ==> p[i] == classes[i];
      UninterestingFrameIgnored(times, p, now);
      assert classes[|classes| - 1] !in Interesting;
    }
  }

  /** A frame logs an event for `cls` exactly when `cls` fired in it. */
  lemma AlertIffFired(times: map<string, int>, classes: seq<string>, now: int, cls: string)
    ensures ObjectEvent(cls, now) in DetectFrame(times, classes, now).alerts <==> Fired(times, classes, now, cls)
  {
    DetectFrameAlerts(times, classes, now);
    var r := DetectFrame(times, classes, now);
    if ObjectEvent(cls, now) in r.alerts {
      var k :| 0 <= k < |r.alerts| && r.alerts[k] == ObjectEvent(cls, now);
      assert r.alerts[k].detail.value == cls;
    }
  }

  /**
   * After a frame logged `cls` at `t1`, a later frame within 3000 ms logs no
   * event for `cls`, whatever it predicts.
   */
  lemma ThrottledWithinCooldown(times: map<string, int>, f1: seq<string>, t1: int,
                                f2: seq<string>, t2: int, cls: string)
    requires ObjectEvent(cls, t1) in DetectFrame(times, f1, t1).alerts
    requires t1 <= t2 <= t1 + ObjectCooldown
    ensures ObjectEvent(cls, t2) !in DetectFrame(DetectFrame(times, f1, t1).times, f2, t2).alerts
  {
    AlertIffFired(times, f1, t1, cls);
    DetectFrameTimes(times, f1, t1);
    AlertIffFired(DetectFrame(times, f1, t1).times, f2, t2, cls);
  }

  /** One call of `handleObjectDetections`: the predicted classes and the clock reading. */
  datatype Detection = Detection(classes: seq<string>, now: int)

  /** The logged times after a run of detection frames. */
  function DetectRun(times: map<string, int>, ds: seq<Detection>): map<string, int>
    decreases |ds|
  {
    if ds == [] then times
    else
      var d := ds[|ds| - 1];
      DetectFrame(DetectRun(times, ds[..|ds| - 1]), d.classes, d.now).times
  }

  /** The events logged during a run of detection frames, in order. */
  function DetectAlerts(times: map<string, int>, ds: seq<Detection>): seq<EventLog>
    decreases |ds|
  {
    if ds == [] then []
    else
      var p := ds[..|ds| - 1];
      var d := ds[|ds| - 1];
      DetectAlerts(times, p) + DetectFrame(DetectRun(times, p), d.classes, d.now).alerts
  }

  /** Handling one more frame after a run. */
  lemma DetectRunSnoc(times: map<string, int>, ds: seq<Detection>, d: Detection)
    ensures DetectRun(times, ds + [d]) == DetectFrame(DetectRun(times, ds), d.classes, d.now).times
    ensures DetectAlerts(times, ds + [d]) == DetectAlerts(times, ds) + DetectFrame(DetectRun(times, ds), d.classes, d.now).alerts
  {
    assert (ds + [d])[..|ds|] == ds;
  }

  /** Every event in `a` is an `ObjectDetected` for a class whose logged time in `r` is at or after it. */
  ghost predicate LoggedBy(a: seq<EventLog>, r: map<string, int>) {
    forall k :: 0 <= k < |a| ==>
      && a[k].detail.Some? && a[k] == ObjectEvent(a[k].detail.value, a[k].ts)
      && a[k].detail.value in r && a[k].ts <= r[a[k].detail.value]
  }

  lemma LoggedAt(a: seq<EventLog>, r: map<string, int>, k: int)
    requires LoggedBy(a, r) && 0 <= k < |a|
    ensures a[k].detail.Some? && a[k] == ObjectEvent(a[k].detail.value, a[k].ts)
    ensures a[k].detail.value in r && a[k].ts <= LastLogged(r, a[k].detail.value)
  {
  }

  /** What one event of a frame is: an `ObjectDetected` at the frame's time for a class that fired. */
  lemma FrameAlertAt(times: map<string, int>, d: Detection, k: int)
    requires 0 <= k < |DetectFrame(times, d.classes, d.now).alerts|
    ensures var e := DetectFrame(times, d.classes, d.now).alerts[k];
      && e.detail.Some? && e == ObjectEvent(e.detail.value, d.now)
      && d.now - LastLogged(times, e.detail.value) > ObjectCooldown
  {
    DetectFrameAlerts(times, d.classes, d.now);
  }

  /** One frame after a run keeps every earlier event at or before its class's logged time. */
  lemma FrameKeepsLogged(a0: seq<EventLog>, r0: map<string, int>, d: Detection)
    requires LoggedBy(a0, r0)
    ensures LoggedBy(a0 + DetectFrame(r0, d.classes, d.now).alerts, DetectFrame(r0, d.classes, d.now).times)
  {
    DetectFrameTimes(r0, d.classes, d.now);
    DetectFrameAlerts(r0, d.classes, d.now);
    var f := DetectFrame(r0, d.classes, d.now);
    var a := a0 + f.alerts;
    forall k | 0 <= k < |a|
      ensures a[k].detail.Some? && a[k] == ObjectEvent(a[k].detail.value, a[k].ts)
      ensures a[k].detail.value in f.times && a[k].ts <= f.times[a[k].detail.value]
    {
      if k < |a0| {
        assert a[k] == a0[k];
        LoggedAt(a0, r0, k);
        var c := a0[k].detail.value;
        if Fired(r0, d.classes, d.now, c) {
          assert f.times[c] == d.now;
        } else {
          assert f.times[c] == r0[c];
        }
      } else {
        var e := f.alerts[k - |a0|];
        assert a[k] == e;
        assert e.detail.Some? && e.ts == d.now && e == ObjectEvent(e.detail.value, d.now);
        assert Fired(r0, d.classes, d.now, e.detail.value);
      }
    }
  }

  /** Every event of a run names a class whose logged time is at or after the event. */
  lemma {:induction false} DetectRunLogged(times: map<string, int>, ds: seq<Detection>)
    ensures LoggedBy(DetectAlerts(times, ds), DetectRun(times, ds))
    decreases |ds|
  {
    if ds != [] {
      var p := ds[..|ds| - 1];
      DetectRunLogged(times, p);
      FrameKeepsLogged(DetectAlerts(times, p), DetectRun(times, p), ds[|ds| - 1]);
    }
  }

  /** Two events of `a` about the same class are more than the cooldown apart, in order. */
  ghost predicate Spaced(a: seq<EventLog>) {
    forall i, j :: 0 <= i < j < |a| && a[i].detail == a[j].detail ==> a[j].ts - a[i].ts > ObjectCooldown
  }

  lemma SpacedAt(a: seq<EventLog>, i: int, j: int)
    requires Spaced(a) && 0 <= i < j < |a| && a[i].detail == a[j].detail
    ensures a[j].ts - a[i].ts > ObjectCooldown
  {
  }

  /**
   * Over any run of detection frames, two `ObjectDetected` events for the same
   * class are more than 3000 ms apart, the later one being the later event.
   */
  lemma {:induction false} DetectRunSpacing(times: map<string, int>, ds: seq<Detection>)
    ensures Spaced(DetectAlerts(times, ds))
    decreases |ds|
  {
    if ds != [] {
      var p := ds[..|ds| - 1];
      var d := ds[|ds| - 1];
      DetectRunSpacing(times, p);
      DetectRunLogged(times, p);
      var a0 := DetectAlerts(times, p);
      var r0 := DetectRun(times, p);
      DetectFrameAlerts(r0, d.classes, d.now);
      var f := DetectFrame(r0, d.classes, d.now);
      var a := DetectAlerts(times, ds);
      assert a == a0 + f.alerts;
      forall i, j | 0 <= i < j < |a| && a[i].detail == a[j].detail
        ensures a[j].ts - a[i].ts > ObjectCooldown
      {
        if j < |a0| {
          assert a[i] == a0[i] && a[j] == a0[j];
          SpacedAt(a0, i, j);
        } else if i < |a0| {
          assert a[i] == a0[i] && a[j] == f.alerts[j - |a0|];
          LoggedAt(a0, r0, i);
          FrameAlertAt(r0, d, j - |a0|);
        }
      }
    }
  }

  // ---------------------------------------------------------------------
  // Recorded chunks

  /** The total size of a list of chunks. */
  function TotalSize(blobs: seq<Blob>): nat
    decreases |blobs|
  {
    if blobs == [] then 0 else TotalSize(blobs[..|blobs| - 1]) + |blobs[|blobs| - 1]|
  }

  /** The bytes of the blob built from a list of chunks: its size is the sum of theirs. */
  function Concat(blobs: seq<Blob>): (r: Blob)
    ensures |r| == TotalSize(blobs)
    decreases |blobs|
  {
    if blobs == [] then [] else Concat(blobs[..|blobs| - 1]) + blobs[|blobs| - 1]
  }

  /** The blob of two lists of chunks is the blob of the first followed by the blob of the second. */
  lemma {:induction false} ConcatAppend(a: seq<Blob>, b: seq<Blob>)
    ensures Concat(a + b) == Concat(a) + Concat(b)
    decreases |b|
  {
    if b == [] {
      assert a + b == a;
    } else {
      var b0 := b[..|b| - 1];
      assert (a + b)[..|a + b| - 1] == a + b0;
      ConcatAppend(a, b0);
    }
  }

  /** The chunks that `ondataavailable` keeps: the non-empty ones, in order. */
  function NonEmpty(blobs: seq<Blob>): (r: seq<Blob>)
    ensures forall i :: 0 <= i < |r| ==> |r[i]| > 0
    ensures |r| <= |blobs|
    decreases |blobs|
  {
    if blobs == [] then []
    else
      var b := blobs[|blobs| - 1];
      NonEmpty(blobs[..|blobs| - 1]) + (if |b| > 0 then [b] else [])
  }

  /** Dropping empty chunks loses no byte: the uploaded blob holds everything recorded. */
  lemma {:induction false} EmptyChunksAddNothing(blobs: seq<Blob>)
    ensures Concat(NonEmpty(blobs)) == Concat(blobs)
    decreases |blobs|
  {
    if blobs != [] {
      var p := blobs[..|blobs| - 1];
      var b := blobs[|blobs| - 1];
      EmptyChunksAddNothing(p);
      if |b| > 0 {
        var q := NonEmpty(p) + [b];
        assert q[..|q| - 1] == NonEmpty(p);
      } else {
        assert NonEmpty(blobs) == NonEmpty(p);
        assert Concat(blobs) == Concat(p) + b == Concat(p);
      }
    }
  }

  // ---------------------------------------------------------------------
  // The component

  /** The state the component keeps between callbacks, from set-up on. */
  class Proctor {
    const sessionId: string
    ghost const mountTime: int

    var lastFaceSeen: int
    var lastLookingCenter: int
    var lastObjectLogTimes: map<string, int>
    var logs: seq<EventLog>
    var emitted: seq<ClientMessage>
    var chunks: seq<Blob>

    /** Every event passed to `pushLog`, oldest first. */
    ghost var history: seq<EventLog>
    /** Every face result handled, oldest first. */
    ghost var faceFrames: seq<FaceFrame>
    /** Every chunk handed to `ondataavailable` since the recorder last stopped. */
    ghost var recorded: seq<Blob>
    /** Every detection frame handled, oldest first. */
    ghost var detections: seq<Detection>

    /** The log shows the newest events and the socket carried every event once, in order. */
    ghost predicate LogValid()
      reads this`logs, this`emitted, this`history
    {
      && logs == Newest(history, MaxLogs)
      && emitted == [JoinSession(Some(sessionId))] + Outgoing(sessionId, history)
    }

    /** The face timers are those of the face results handled since set-up. */
    ghost predicate TimersValid()
      reads this`lastFaceSeen, this`lastLookingCenter, this`faceFrames
    {
      Timers(lastFaceSeen, lastLookingCenter) == FaceRun(Timers(mountTime, mountTime), faceFrames)
    }

    /** The buffer holds the non-empty chunks recorded since the last stop. */
    ghost predicate ChunksValid()
      reads this`chunks, this`recorded
    {
      chunks == NonEmpty(recorded)
    }

    /**
     * The object times are those of the detection frames handled since
     * set-up. Only `HandleObjectDetections` writes the two fields it reads, so
     * every other method keeps it by its `modifies` frame.
     */
    ghost predicate DetectValid()
      reads this`lastObjectLogTimes, this`detections
    {
      lastObjectLogTimes == DetectRun(map[], detections)
    }

    ghost predicate Valid()
      reads this
    {
      LogValid() && TimersValid() && ChunksValid()
    }

    /** Set-up at time `mountTime`: join the session and start both face timers. */
    constructor (sessionId: string, mountTime: int)
      ensures Valid() && DetectValid()
      ensures this.sessionId == sessionId && this.mountTime == mountTime
      ensures lastFaceSeen == mountTime && lastLookingCenter == mountTime
      ensures lastObjectLogTimes == map[] && logs == [] && chunks == []
      ensures emitted == [JoinSession(Some(sessionId))]
      ensures history == [] && faceFrames == [] && recorded == []
      ensures detections == []
    {
      this.sessionId := sessionId;
      this.mountTime := mountTime;
      lastFaceSeen := mountTime;
      lastLookingCenter := mountTime;
      lastObjectLogTimes := map[];
      logs := [];
      emitted := [JoinSession(Some(sessionId))];
      chunks := [];
      history := [];
      faceFrames := [];
      recorded := [];
      detections := [];
    }

    /** Logs `e` locally, newest first and capped, and sends it once, tagged with the session id. */
    method PushLog(e: EventLog)
      requires LogValid()
      modifies this`logs, this`emitted, this`history
      ensures LogValid()
      ensures history == old(history) + [e]
      ensures logs == Prepend(e, old(logs))
      ensures emitted == old(emitted) + [ProctorEvent(Tagged(sessionId, e))]
    {
      PushLogKeepsNewest(e, history);
      var h := history + [e];
      assert Outgoing(sessionId, h) == Outgoing(sessionId, history) + [ProctorEvent(Tagged(sessionId, e))];
      logs := Prepend(e, logs);
      emitted := emitted + [ProctorEvent(Tagged(sessionId, e))];
      history := h;
    }

    /** One face-mesh result at time `now`. */
    method HandleFaceResults(facePresent: bool, offCenter: bool, now: int)
      requires Valid()
      modifies this`lastFaceSeen, this`lastLookingCenter, this`faceFrames, this`logs, this`emitted, this`history
      ensures Valid()
      ensures faceFrames == old(faceFrames) + [FaceFrame(facePresent, offCenter, now)]
      ensures var r := FaceStep(Timers(old(lastFaceSeen), old(lastLookingCenter)), FaceFrame(facePresent, offCenter, now));
        && Timers(lastFaceSeen, lastLookingCenter) == r.timers
        && history == old(history) + Raised(r.alert)
    {
      ghost var frames := faceFrames + [FaceFrame(facePresent, offCenter, now)];
      ghost var r := FaceStep(Timers(lastFaceSeen, lastLookingCenter), FaceFrame(facePresent, offCenter, now));
      assert frames[..|frames| - 1] == faceFrames;
      assert FaceRun(Timers(mountTime, mountTime), frames) == r.timers;
      if facePresent {
        lastFaceSeen := now;
        if offCenter {
          if now - lastLookingCenter > FocusLostAfter {
            PushLog(FocusLostEvent(now));
            lastLookingCenter := now;
          }
        } else {
          lastLookingCenter := now;
        }
      } else {
        if now - lastFaceSeen > NoFaceAfter {
          PushLog(NoFaceEvent(now));
          lastFaceSeen := now;
        }
      }
      faceFrames := frames;
    }

    /** The `forEach` callback for one prediction of class `cls`, at time `now`. */
    method HandlePrediction(cls: string, now: int)
      requires LogValid()
      modifies this`lastObjectLogTimes, this`logs, this`emitted, this`history
      ensures LogValid()
      ensures var s := DetectStep(old(lastObjectLogTimes), cls, now);
        lastObjectLogTimes == s.times && history == old(history) + s.alerts
    {
      if cls in Interesting {
        if now - LastLogged(lastObjectLogTimes, cls) > ObjectCooldown {
          lastObjectLogTimes := lastObjectLogTimes[cls := now];
          PushLog(ObjectEvent(cls, now));
        }
      }
    }

    /** The `forEach` over one frame's predictions, all read at time `now`. */
    method ForEachPrediction(predictions: seq<string>, now: int)
      requires LogValid()
      modifies this`lastObjectLogTimes, this`logs, this`emitted, this`history
      ensures LogValid()
      ensures lastObjectLogTimes == DetectFrame(old(lastObjectLogTimes), predictions, now).times
      ensures history == old(history) + DetectFrame(old(lastObjectLogTimes), predictions, now).alerts
    {
      ghost var times0, history0 := lastObjectLogTimes, history;
      ghost var done := DetectOutcome(times0, []);
      var i := 0;
      while i < |predictions|
        invariant 0 <= i <= |predictions|
        invariant LogValid()
        invariant done == DetectFrame(times0, predictions[..i], now)
        invariant lastObjectLogTimes == done.times && history == history0 + done.alerts
      {
        DetectFrameExtend(times0, predictions, i, now);
        ghost var step := DetectStep(done.times, predictions[i], now);
        HandlePrediction(predictions[i], now);
        done := DetectOutcome(step.times, done.alerts + step.alerts);
        i := i + 1;
      }
      assert predictions[..i] == predictions;
    }

    /**
     * One frame of object predictions, read at time `now`. Over every frame
     * handled since set-up, two events for the same class stay more than
     * 3000 ms apart.
     */
    method HandleObjectDetections(predictions: seq<string>, now: int)
      requires Valid() && DetectValid()
      modifies this`lastObjectLogTimes, this`logs, this`emitted, this`history, this`detections
      ensures Valid() && DetectValid()
      ensures detections == old(detections) + [Detection(predictions, now)]
      ensures lastObjectLogTimes == DetectFrame(old(lastObjectLogTimes), predictions, now).times
      ensures history == old(history) + DetectFrame(old(lastObjectLogTimes), predictions, now).alerts
      ensures DetectAlerts(map[], detections) ==
              DetectAlerts(map[], old(detections)) + DetectFrame(old(lastObjectLogTimes), predictions, now).alerts
      ensures Spaced(DetectAlerts(map[], detections))
    {
      ghost var ds := detections + [Detection(predictions, now)];
      DetectRunSnoc(map[], detections, Detection(predictions, now));
      DetectRunSpacing(map[], ds);
      ForEachPrediction(predictions, now);
      detections := ds;
    }

    /** The recorder's `ondataavailable`: only a non-empty chunk is buffered. */
    method OnDataAvailable(data: Blob)
      requires Valid()
      modifies this`chunks, this`recorded
      ensures Valid()
      ensures recorded == old(recorded) + [data]
      ensures chunks == if |data| > 0 then old(chunks) + [data] else old(chunks)
    {
      var r := recorded + [data];
      assert r[..|r| - 1] == recorded;
      if |data| > 0 {
        chunks := chunks + [data];
      }
      recorded := r;
    }

    /**
     * The recorder's `onstop`: returns the bytes of the uploaded blob, which
     * hold every chunk recorded since the last stop; logs `VideoUploaded` only
     * when the upload did not throw; empties the buffer in both cases.
     */
    method OnStop(uploadThrows: bool, now: int) returns (body: Blob)
      requires Valid()
      modifies this`chunks, this`recorded, this`logs, this`emitted, this`history
      ensures Valid()
      ensures body == Concat(old(recorded))
      ensures chunks == [] && recorded == []
      ensures history == old(history) + (if uploadThrows then [] else [UploadedEvent(now)])
    {
      EmptyChunksAddNothing(recorded);
      body := Concat(chunks);
      if !uploadThrows {
        PushLog(UploadedEvent(now));
      }
      chunks := [];
      recorded := [];
    }
  }
}
