/**
 * The application controller (class ProctoringSystem): session start and stop, the
 * detection loop with its 100 ms cadence gate, the fan-out of one frame to the five
 * monitors, and the green/red classification of their results in the status overlay.
 */
module Controller {
  import opened Common
  import opened Perception
  import opened Notices
  import PersonMonitor
  import IdentityMonitor
  import FaceCountMonitor
  import AttentionMonitor
  import MobileMonitor

  /** Minimum milliseconds between the starts of two detections. */
  const DetectionInterval: int := 100

  /** The five monitors' results for one frame, in the order the overlay unpacks them. */
  datatype Results = Results(
    person: Option<PersonMonitor.Report>,
    identity: IdentityMonitor.Report,
    faces: Option<FaceCountMonitor.Report>,
    attention: AttentionMonitor.Report,
    mobile: Option<MobileMonitor.Report>)

  /** Which overlay lines are drawn green. */
  datatype Lights = Lights(person: bool, identity: bool, faces: bool, attention: bool, mobile: bool)

  /** The colour choices of `drawStatusOverlay`; a missing result is red. */
  function StatusLights(r: Results): (l: Lights)
    ensures r.person.None? ==> !l.person
    ensures r.faces.None? ==> !l.faces
    ensures r.mobile.None? ==> !l.mobile
  {
    Lights(
      r.person.Some? && r.person.value.status == PersonMonitor.PersonPresent,
      r.identity.CorrectPerson?,
      r.faces.Some? && r.faces.value.status == FaceCountMonitor.SingleFace,
      r.attention == AttentionMonitor.PayingAttention,
      r.mobile == Some(MobileMonitor.NoMobile))
  }

  /** The five monitors' states. */
  datatype Monitors = Monitors(
    person: PersonMonitor.State,
    identity: IdentityMonitor.State,
    faces: FaceCountMonitor.State,
    attention: AttentionMonitor.State,
    mobile: MobileMonitor.State)

  /** The controller's own fields together with its monitors. */
  datatype State = State(isMonitoring: bool, lastDetectionTime: int, monitors: Monitors)

  const InitialMonitors: Monitors := Monitors(PersonMonitor.Initial, IdentityMonitor.Initial,
    FaceCountMonitor.Initial, AttentionMonitor.Initial, MobileMonitor.Initial)

  /** As the constructor leaves it. */
  const Initial: State := State(false, 0, InitialMonitors)

  /** The session flag agrees with every monitor's, and the attention invariant holds. */
  predicate Valid(s: State) {
    var m := s.monitors;
    && (s.isMonitoring <==> m.person.isActive)
    && (s.isMonitoring <==> m.identity.isActive)
    && (s.isMonitoring <==> m.faces.isActive)
    && (s.isMonitoring <==> m.attention.isActive)
    && (s.isMonitoring <==> m.mobile.isActive)
    && AttentionMonitor.Inv(m.attention)
  }

  datatype Session = Session(next: State, notices: seq<Notice>)

  /** `startMonitoring()`: a no-op while monitoring; otherwise starts all five monitors. */
  function StartSession(s: State, now: int): (o: Session)
    ensures s.isMonitoring ==> o == Session(s, [])
    ensures !s.isMonitoring ==>
      && o.next.isMonitoring && o.next.lastDetectionTime == s.lastDetectionTime
      && o.next.monitors.person == PersonMonitor.Started(s.monitors.person, now)
      && o.next.monitors.identity == IdentityMonitor.Started(s.monitors.identity)
      && o.next.monitors.faces == FaceCountMonitor.Started(s.monitors.faces)
      && o.next.monitors.attention == AttentionMonitor.Started(s.monitors.attention)
      && o.next.monitors.mobile == MobileMonitor.Started(s.monitors.mobile)
      && o.notices == [MonitoringStarted]
    ensures Valid(o.next) <==> Valid(s) || !s.isMonitoring
  {
    if s.isMonitoring then Session(s, [])
    else
      var m := s.monitors;
      Session(State(true, s.lastDetectionTime,
                    Monitors(PersonMonitor.Started(m.person, now), IdentityMonitor.Started(m.identity),
                             FaceCountMonitor.Started(m.faces), AttentionMonitor.Started(m.attention),
                             MobileMonitor.Started(m.mobile))),
              [MonitoringStarted])
  }

  /**
   * `stopMonitoring()`: a no-op unless monitoring; otherwise clears every active flag
   * and nothing else, so no counter, timer or reference is reset.
   */
  function StopSession(s: State): (o: Session)
    ensures !s.isMonitoring ==> o == Session(s, [])
    ensures s.isMonitoring ==>
      && !o.next.isMonitoring && o.next.lastDetectionTime == s.lastDetectionTime
      && o.next.monitors.person == s.monitors.person.(isActive := false)
      && o.next.monitors.identity == s.monitors.identity.(isActive := false)
      && o.next.monitors.faces == s.monitors.faces.(isActive := false)
      && o.next.monitors.attention == s.monitors.attention.(isActive := false)
      && o.next.monitors.mobile == s.monitors.mobile.(isActive := false)
      && o.notices == [MonitoringStopped, SessionEnded]
    ensures Valid(s) ==> Valid(o.next)
  {
    if !s.isMonitoring then Session(s, [])
    else
      var m := s.monitors;
      Session(State(false, s.lastDetectionTime,
                    Monitors(PersonMonitor.Stopped(m.person), IdentityMonitor.Stopped(m.identity),
                             FaceCountMonitor.Stopped(m.faces), AttentionMonitor.Stopped(m.attention),
                             MobileMonitor.Stopped(m.mobile))),
              [MonitoringStopped, SessionEnded])
  }

  /** The face detector's answer for a frame, or the error it threw. */
  datatype FaceScan = FacesFound(detections: Detections) | FaceDetectorFailed

  function Listed(n: Option<Notice>): seq<Notice> {
    if n.Some? then [n.value] else []
  }

  datatype Performed = Performed(next: Monitors, results: Option<Results>, notices: seq<Notice>)

  /**
   * `performDetection()`: every monitor evaluates the same frame; the notices come in
   * the order the monitors are called. A face-detector error skips all of them and
   * is logged instead.
   */
  function Perform(m: Monitors, scan: FaceScan, inf: MobileMonitor.Inference, now: int,
                   metric: IdentityMonitor.Metric): (p: Performed)
    ensures p.results.None? <==> scan.FaceDetectorFailed?
    ensures scan.FaceDetectorFailed? ==> p.next == m && p.notices == [DetectionFailed]
    // Every monitor steps on the same frame and the same `now`, independently of the others.
    ensures scan.FacesFound? ==>
      var d := scan.detections;
      && p.next.person == PersonMonitor.Detect(m.person, d, now).next
      && p.next.identity == IdentityMonitor.Verify(m.identity, d, metric).next
      && p.next.faces == FaceCountMonitor.Detect(m.faces, d, now).next
      && p.next.attention == AttentionMonitor.Track(m.attention, d, now).next
      && p.next.mobile == MobileMonitor.Detect(m.mobile, MobileMonitor.ScanOf(inf), now).next
    // The results are the five monitors' own reports, and the notices are their
    // violations in the order the monitors are called.
    ensures scan.FacesFound? ==>
      var d := scan.detections;
      var i := IdentityMonitor.Verify(m.identity, d, metric);
      var f := FaceCountMonitor.Detect(m.faces, d, now);
      var a := AttentionMonitor.Track(m.attention, d, now);
      var b := MobileMonitor.Detect(m.mobile, MobileMonitor.ScanOf(inf), now);
      && p.results == Some(Results(PersonMonitor.Detect(m.person, d, now).report, i.report, f.report, a.report, b.report))
      && p.notices == Listed(i.violation) + Listed(f.violation) + Listed(a.notice) + Listed(b.violation)
    ensures |p.notices| <= 4
  {
    match scan
    case FaceDetectorFailed => Performed(m, None, [DetectionFailed])
    case FacesFound(d) =>
      var p := PersonMonitor.Detect(m.person, d, now);
      var i := IdentityMonitor.Verify(m.identity, d, metric);
      var f := FaceCountMonitor.Detect(m.faces, d, now);
      var a := AttentionMonitor.Track(m.attention, d, now);
      var b := MobileMonitor.Detect(m.mobile, MobileMonitor.ScanOf(inf), now);
      Performed(Monitors(p.next, i.next, f.next, a.next, b.next),
                Some(Results(p.report, i.report, f.report, a.report, b.report)),
                Listed(i.violation) + Listed(f.violation) + Listed(a.notice) + Listed(b.violation))
  }

  datatype LoopOutcome = LoopOutcome(next: State, ran: bool, results: Option<Results>, notices: seq<Notice>)

  /** One call of `runDetectionLoop()` at `now`. */
  function LoopStep(s: State, now: int, scan: FaceScan, inf: MobileMonitor.Inference,
                    metric: IdentityMonitor.Metric): (o: LoopOutcome)
    ensures o.ran <==> s.isMonitoring && now - s.lastDetectionTime >= DetectionInterval
    ensures !o.ran ==> o == LoopOutcome(s, false, None, [])
    ensures o.next.isMonitoring == s.isMonitoring
    ensures o.next.lastDetectionTime == if o.ran then now else s.lastDetectionTime
    ensures Valid(s) ==> Valid(o.next)
    // Overlay consistency within one frame: a matching identity implies a single face,
    // a single face implies a person present, and the person, face-count and device
    // results are never missing from a frame that was evaluated.
    ensures Valid(s) && o.results.Some? ==>
      var r := o.results.value;
      && r.person.Some? && r.faces.Some? && r.mobile.Some?
      && (StatusLights(r).identity ==> StatusLights(r).faces)
      && (StatusLights(r).faces ==> StatusLights(r).person)
  {
    if !s.isMonitoring || now - s.lastDetectionTime < DetectionInterval then LoopOutcome(s, false, None, [])
    else
      var p := Perform(s.monitors, scan, inf, now, metric);
      LoopOutcome(State(true, now, p.next), true, p.results, p.notices)
  }

  /**
   * A frame whose overlay is all green saw exactly one face and raised no violation
   * (an ATTENTION_RESTORED event may still be logged).
   */
  lemma AllGreenFrame(s: State, now: int, scan: FaceScan, inf: MobileMonitor.Inference, metric: IdentityMonitor.Metric)
    requires Valid(s) && s.isMonitoring
    requires var o := LoopStep(s, now, scan, inf, metric);
      && o.results.Some?
      && var l := StatusLights(o.results.value);
      l.person && l.identity && l.faces && l.attention && l.mobile
    ensures scan.FacesFound? && FaceCount(scan.detections) == 1
    ensures forall n :: n in LoopStep(s, now, scan, inf, metric).notices ==> !n.IsViolation()
  {
  }

  /** What the environment does to the controller. */
  datatype Command =
    | StartCmd(at: int)
    | StopCmd
    | LoopCmd(at: int, scan: FaceScan, inf: MobileMonitor.Inference)

  function Exec(s: State, c: Command, metric: IdentityMonitor.Metric): LoopOutcome {
    match c
    case StartCmd(t) => var o := StartSession(s, t); LoopOutcome(o.next, false, None, o.notices)
    case StopCmd => var o := StopSession(s); LoopOutcome(o.next, false, None, o.notices)
    case LoopCmd(t, scan, inf) => LoopStep(s, t, scan, inf, metric)
  }

  function Run(s: State, cs: seq<Command>, metric: IdentityMonitor.Metric): State
    decreases |cs|
  {
    if cs == [] then s else Exec(Run(s, cs[..|cs| - 1], metric), cs[|cs| - 1], metric).next
  }

  /** The times at which a detection ran, in order. */
  function DetectionTimes(s: State, cs: seq<Command>, metric: IdentityMonitor.Metric): seq<int>
    decreases |cs|
  {
    if cs == [] then []
    else
      var before := cs[..|cs| - 1];
      DetectionTimes(s, before, metric)
        + (if Exec(Run(s, before, metric), cs[|cs| - 1], metric).ran then [cs[|cs| - 1].at] else [])
  }

  /**
   * Cadence: across any sequence of starts, stops and loop calls, two detections
   * start at least 100 ms apart, and `lastDetectionTime` is the latest start.
   */
  lemma {:induction false} DetectionsSpaced(s: State, cs: seq<Command>, metric: IdentityMonitor.Metric)
    ensures var v := DetectionTimes(s, cs, metric);
      && (forall i :: 0 < i < |v| ==> v[i] - v[i - 1] >= DetectionInterval)
      && (|v| > 0 ==> v[0] - s.lastDetectionTime >= DetectionInterval)
      && Run(s, cs, metric).lastDetectionTime == (if |v| == 0 then s.lastDetectionTime else v[|v| - 1])
    decreases |cs|
  {
    if cs != [] {
      var before := cs[..|cs| - 1];
      var c := cs[|cs| - 1];
      var t := Run(s, before, metric);
      var o := Exec(t, c, metric);
      DetectionsSpaced(s, before, metric);
      ExecClock(t, c, metric);
      var v0 := DetectionTimes(s, before, metric);
      assert Run(s, cs, metric) == o.next;
      assert DetectionTimes(s, cs, metric) == v0 + (if o.ran then [c.at] else []);
    }
  }

  /** One command moves the detection clock only by running a detection at least 100 ms after the last. */
  lemma ExecClock(s: State, c: Command, metric: IdentityMonitor.Metric)
    ensures var o := Exec(s, c, metric);
      && (o.ran ==> c.LoopCmd? && c.at - s.lastDetectionTime >= DetectionInterval)
      && o.next.lastDetectionTime == (if o.ran then c.at else s.lastDetectionTime)
  {
  }

  /** Every reachable controller state is valid. */
  lemma {:induction false} ValidAlways(s: State, cs: seq<Command>, metric: IdentityMonitor.Metric)
    requires Valid(s)
    ensures Valid(Run(s, cs, metric))
    decreases |cs|
  {
    if cs != [] {
      ValidAlways(s, cs[..|cs| - 1], metric);
    }
  }

  class ProctoringSystem {
    const person: PersonMonitor.PersonDetection
    const identity: IdentityMonitor.IdentityVerification
    const faces: FaceCountMonitor.MultipleFaceDetection
    const attention: AttentionMonitor.AttentionTracking
    const mobile: MobileMonitor.MobileDetection
    var isMonitoring: bool
    var lastDetectionTime: int

    function Snapshot(): State
      reads this, person, identity, faces, attention, mobile
    {
      State(isMonitoring, lastDetectionTime,
            Monitors(person.Snapshot(), identity.Snapshot(), faces.Snapshot(), attention.Snapshot(), mobile.Snapshot()))
    }

    constructor ()
      ensures Snapshot() == Initial && Valid(Snapshot())
      ensures fresh(person) && fresh(identity) && fresh(faces) && fresh(attention) && fresh(mobile)
    {
      person := new PersonMonitor.PersonDetection();
      identity := new IdentityMonitor.IdentityVerification();
      faces := new FaceCountMonitor.MultipleFaceDetection();
      attention := new AttentionMonitor.AttentionTracking();
      mobile := new MobileMonitor.MobileDetection();
      isMonitoring := false;
      lastDetectionTime := 0;
    }

    /** `startMonitoring()`; `notices` are the events it logs. */
    method StartMonitoring(now: int) returns (notices: seq<Notice>)
      modifies this, person, identity, faces, attention, mobile
      ensures Session(Snapshot(), notices) == StartSession(old(Snapshot()), now)
      ensures old(Valid(Snapshot())) || !old(isMonitoring) ==> Valid(Snapshot())
    {
      if isMonitoring {
        return [];
      }
      notices := [MonitoringStarted];
      isMonitoring := true;
      person.Start(now);
      identity.Start();
      faces.Start();
      attention.Start();
      mobile.Start();
    }

    /** `stopMonitoring()`; `notices` are the events it logs. */
    method StopMonitoring() returns (notices: seq<Notice>)
      modifies this, person, identity, faces, attention, mobile
      ensures Session(Snapshot(), notices) == StopSession(old(Snapshot()))
      ensures old(Valid(Snapshot())) ==> Valid(Snapshot())
    {
      if !isMonitoring {
        return [];
      }
      notices := [MonitoringStopped];
      isMonitoring := false;
      person.Stop();
      identity.Stop();
      faces.Stop();
      attention.Stop();
      mobile.Stop();
      notices := notices + [SessionEnded];
    }

    /** `performDetection()` on one frame's detector outputs. */
    method PerformDetection(scan: FaceScan, inf: MobileMonitor.Inference, now: int, metric: IdentityMonitor.Metric)
      returns (results: Option<Results>, notices: seq<Notice>)
      requires AttentionMonitor.Inv(Snapshot().monitors.attention)
      modifies person, identity, faces, attention, mobile
      ensures Performed(Snapshot().monitors, results, notices) == Perform(old(Snapshot().monitors), scan, inf, now, metric)
      ensures isMonitoring == old(isMonitoring) && lastDetectionTime == old(lastDetectionTime)
    {
      if scan.FaceDetectorFailed? {
        return None, [DetectionFailed];
      }
      var d := scan.detections;
      var personResult := person.DetectPerson(d, now);
      var identityResult, identityNotice := identity.VerifyIdentity(d, metric);
      var multipleResult, multipleNotice := faces.DetectMultipleFaces(d, now);
      var attentionResult, attentionNotice := attention.TrackAttention(d, now);
      var mobileResult, mobileNotice := mobile.DetectMobile(inf, now);
      results := Some(Results(personResult, identityResult, multipleResult, attentionResult, mobileResult));
      notices := Listed(identityNotice) + Listed(multipleNotice) + Listed(attentionNotice) + Listed(mobileNotice);
    }

    /** One call of `runDetectionLoop()`; `ran` tells whether a detection was performed. */
    method RunDetectionLoop(now: int, scan: FaceScan, inf: MobileMonitor.Inference, metric: IdentityMonitor.Metric)
      returns (ran: bool, results: Option<Results>, notices: seq<Notice>)
      modifies this, person, identity, faces, attention, mobile
      requires Valid(Snapshot())
      ensures LoopOutcome(Snapshot(), ran, results, notices) == LoopStep(old(Snapshot()), now, scan, inf, metric)
      ensures Valid(Snapshot())
    {
      if !isMonitoring {
        return false, None, [];
      }
      ran, results, notices := false, None, [];
      var currentTime := now;
      if currentTime - lastDetectionTime >= DetectionInterval {
        results, notices := PerformDetection(scan, inf, currentTime, metric);
        lastDetectionTime := currentTime;
        ran := true;
      }
    }
  }
}
