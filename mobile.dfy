/**
 * The device monitor (class MobileDetection): a frame in which a phone-like object
 * is found raises a counter by one, a frame without one lowers it by one but never
 * below zero. MOBILE_DETECTED is raised when the counter is at least 5 and more
 * than 3000 ms have passed since the last one.
 */
module MobileMonitor {
  import opened Common
  import opened Notices

  /** Counter value from which a violation may be raised. */
  const AlertThreshold: nat := 5
  /** Milliseconds that must strictly pass between two violations. */
  const ViolationCooldown: int := 3000
  /** A prediction is considered only when its score is strictly above this. */
  const ConfidenceThreshold: real := 0.5
  /** The COCO class of a cell phone. */
  const CellPhoneClass: int := 77

  /** What a detection says it saw: a COCO class, or the fallback's rectangle. */
  datatype Label = CocoClass(id: int) | RectangularObject

  /** One reported device: `[y1, x1, y2, x2]`, a score and what it is. */
  datatype DeviceDetection = DeviceDetection(bbox: seq<real>, score: real, kind: Label)

  /** The three tensors of the object model, read back as flat arrays. */
  datatype Tensors = Tensors(boxes: seq<real>, scores: seq<real>, classes: seq<int>)

  /** The model reports one class and four box coordinates per score. */
  predicate Shaped(t: Tensors) {
    |t.classes| == |t.scores| && |t.boxes| == 4 * |t.scores|
  }

  type ModelOutput = t: Tensors | Shaped(t) witness Tensors([], [], [])

  /** `isPhoneLikeObject`: cell phone, book or laptop. */
  function IsPhoneLikeObject(classId: int): (b: bool)
    ensures b <==> classId == 63 || classId == 77 || classId == 78
  {
    classId in [77, 78, 63]
  }

  /** Whether `processPredictions` keeps prediction `i`. */
  function Keep(p: ModelOutput, i: nat): bool
    requires i < |p.scores|
  {
    p.scores[i] > ConfidenceThreshold && (p.classes[i] == CellPhoneClass || IsPhoneLikeObject(p.classes[i]))
  }

  /** The detection built from prediction `i`. */
  function DetectionAt(p: ModelOutput, i: nat): DeviceDetection
    requires i < |p.scores|
  {
    DeviceDetection([p.boxes[i * 4], p.boxes[i * 4 + 1], p.boxes[i * 4 + 2], p.boxes[i * 4 + 3]],
                    p.scores[i], CocoClass(p.classes[i]))
  }

  /** Indices below `n` of the predictions that are kept, in increasing order. */
  function KeptIndices(p: ModelOutput, n: nat): (idx: seq<nat>)
    requires n <= |p.scores|
    ensures forall k :: 0 <= k < |idx| ==> idx[k] < n
    decreases n
  {
    if n == 0 then []
    else KeptIndices(p, n - 1) + (if Keep(p, n - 1) then [n - 1] else [])
  }

  /** The kept predictions as detections, in prediction order. */
  function Kept(p: ModelOutput): (ds: seq<DeviceDetection>) {
    var idx := KeptIndices(p, |p.scores|);
    seq(|idx|, k requires 0 <= k < |idx| => DetectionAt(p, idx[k]))
  }

  /**
   * The filter is exact and keeps order: the kept indices are strictly increasing,
   * and an index below `n` is among them exactly when its score exceeds 0.5 and its
   * class is 63, 77 or 78.
   */
  lemma {:induction false} KeptIndicesExact(p: ModelOutput, n: nat)
    requires n <= |p.scores|
    ensures var idx := KeptIndices(p, n);
      && (forall j, k :: 0 <= j < k < |idx| ==> idx[j] < idx[k])
      && (forall i :: 0 <= i < n ==>
            (i in idx <==> (p.scores[i] > ConfidenceThreshold && p.classes[i] in {63, 77, 78})))
    decreases n
  {
    if n > 0 {
      KeptIndicesExact(p, n - 1);
    }
  }

  /** `processPredictions`: the model's predictions that look like a phone, built in one pass. */
  method ProcessPredictions(p: ModelOutput) returns (detections: seq<DeviceDetection>)
    ensures detections == Kept(p)
    ensures forall k :: 0 <= k < |detections| ==>
      detections[k].score > ConfidenceThreshold && detections[k].kind.CocoClass?
      && detections[k].kind.id in {63, 77, 78}
  {
    detections := [];
    var i := 0;
    while i < |p.scores|
      invariant 0 <= i <= |p.scores|
      invariant |detections| == |KeptIndices(p, i)|
      invariant forall k :: 0 <= k < |detections| ==> detections[k] == DetectionAt(p, KeptIndices(p, i)[k])
    {
      if p.scores[i] > ConfidenceThreshold {
        var classId := p.classes[i];
        if classId == CellPhoneClass || IsPhoneLikeObject(classId) {
          detections := detections + [DeviceDetection([p.boxes[i * 4], p.boxes[i * 4 + 1], p.boxes[i * 4 + 2], p.boxes[i * 4 + 3]],
                                                      p.scores[i], CocoClass(classId))];
        }
      }
      i := i + 1;
    }
    forall k | 0 <= k < |detections|
      ensures detections[k].score > ConfidenceThreshold && detections[k].kind.CocoClass?
              && detections[k].kind.id in {63, 77, 78}
    {
      KeptIndicesExact(p, |p.scores|);
      var idx := KeptIndices(p, |p.scores|);
      assert idx[k] in idx;
    }
  }

  /** How the detector ran this frame: the model, the fallback heuristic, or it threw. */
  datatype Inference = ModelRan(output: ModelOutput) | FallbackRan(detections: seq<DeviceDetection>) | Failed

  /** What the counter logic sees: the devices found, or an error. */
  datatype Scan = Found(detections: seq<DeviceDetection>) | ScanError

  function ScanOf(inf: Inference): Scan {
    match inf
    case ModelRan(p) => Found(Kept(p))
    case FallbackRan(ds) => Found(ds)
    case Failed => ScanError
  }

  /** The object `detectMobile` resolves to. */
  datatype Report = MobileDetected(detections: seq<DeviceDetection>) | NoMobile | DetectionError

  /** The monitor's fields. */
  datatype State = State(isActive: bool, mobileDetectionCount: nat, lastViolationTime: int)

  /** As the constructor leaves it. */
  const Initial: State := State(false, 0, 0)

  /** `start()`: the counter restarts; the cooldown clock does not. */
  function Started(s: State): State {
    s.(isActive := true, mobileDetectionCount := 0)
  }

  /** `stop()`: only the flag changes. */
  function Stopped(s: State): State {
    s.(isActive := false)
  }

  datatype Outcome = Outcome(next: State, report: Option<Report>, violation: Option<Notice>)

  /** The counter and cooldown logic of `detectMobile` at time `now`. */
  function Detect(s: State, scan: Scan, now: int): (o: Outcome)
    ensures o.next.isActive == s.isActive
    ensures o.report.Some? <==> s.isActive
    ensures !s.isActive || scan.ScanError? ==> o.next == s && o.violation == None
    ensures s.isActive && scan.ScanError? ==> o.report == Some(DetectionError)
    ensures s.isActive && scan.Found? && |scan.detections| > 0 ==>
      o.next.mobileDetectionCount == s.mobileDetectionCount + 1 && o.report == Some(MobileDetected(scan.detections))
    ensures s.isActive && scan.Found? && |scan.detections| == 0 ==>
      o.next.mobileDetectionCount == (if s.mobileDetectionCount == 0 then 0 else s.mobileDetectionCount - 1)
      && o.report == Some(NoMobile)
    ensures o.violation.Some? <==>
      s.isActive && scan.Found? && |scan.detections| > 0
      && s.mobileDetectionCount + 1 >= AlertThreshold && now - s.lastViolationTime > ViolationCooldown
    ensures o.violation.Some? ==> o.violation.value == MobileSeen
    ensures o.next.lastViolationTime == if o.violation.Some? then now else s.lastViolationTime
  {
    if !s.isActive then Outcome(s, None, None)
    else match scan
      case ScanError => Outcome(s, Some(DetectionError), None)
      case Found(ds) =>
        if |ds| > 0 then
          var count := s.mobileDetectionCount + 1;
          if count >= AlertThreshold && now - s.lastViolationTime > ViolationCooldown then
            Outcome(State(true, count, now), Some(MobileDetected(ds)), Some(MobileSeen))
          else
            Outcome(s.(mobileDetectionCount := count), Some(MobileDetected(ds)), None)
        else
          var count := if s.mobileDetectionCount == 0 then 0 else s.mobileDetectionCount - 1;
          Outcome(s.(mobileDetectionCount := count), Some(NoMobile), None)
  }

  function Apply(s: State, e: Event<Scan>): Outcome {
    match e
    case Begin(_) => Outcome(Started(s), None, None)
    case End => Outcome(Stopped(s), None, None)
    case Tick(scan, t) => Detect(s, scan, t)
  }

  /** The state after a session history. */
  function Run(s: State, es: seq<Event<Scan>>): State
    decreases |es|
  {
    if es == [] then s else Apply(Run(s, es[..|es| - 1]), es[|es| - 1]).next
  }

  /** The times at which a history raised MOBILE_DETECTED, in order. */
  function ViolationTimes(s: State, es: seq<Event<Scan>>): seq<int>
    decreases |es|
  {
    if es == [] then []
    else
      var before := es[..|es| - 1];
      ViolationTimes(s, before)
        + (if Apply(Run(s, before), es[|es| - 1]).violation.Some? then [es[|es| - 1].at] else [])
  }

  /**
   * Cooldown: across any history, restarts included, consecutive violations are
   * more than 3000 ms apart and `lastViolationTime` is always the latest one.
   */
  lemma {:induction false} ViolationsSpaced(s: State, es: seq<Event<Scan>>)
    ensures var v := ViolationTimes(s, es);
      && (forall i :: 0 < i < |v| ==> v[i] - v[i - 1] > ViolationCooldown)
      && (|v| > 0 ==> v[0] - s.lastViolationTime > ViolationCooldown)
      && Run(s, es).lastViolationTime == (if |v| == 0 then s.lastViolationTime else v[|v| - 1])
    decreases |es|
  {
    if es != [] {
      ViolationsSpaced(s, es[..|es| - 1]);
    }
  }

  /** A tick in which a device was found. */
  predicate Hit(e: Event<Scan>) {
    e.Tick? && e.input.Found? && |e.input.detections| > 0
  }

  /** A tick in which the detector ran and found nothing. */
  predicate Miss(e: Event<Scan>) {
    e.Tick? && e.input.Found? && |e.input.detections| == 0
  }

  function Hits(es: seq<Event<Scan>>): (n: nat)
    ensures n <= |es|
    decreases |es|
  {
    if es == [] then 0 else Hits(es[..|es| - 1]) + (if Hit(es[|es| - 1]) then 1 else 0)
  }

  /** No hits exactly when no event is a hit; all hits exactly when every event is one. */
  lemma {:induction false} HitsExtremes(es: seq<Event<Scan>>)
    ensures Hits(es) == 0 <==> forall k :: 0 <= k < |es| ==> !Hit(es[k])
    ensures Hits(es) == |es| <==> forall k :: 0 <= k < |es| ==> Hit(es[k])
    decreases |es|
  {
    if es != [] {
      var before := es[..|es| - 1];
      HitsExtremes(before);
      assert forall k :: 0 <= k < |before| ==> before[k] == es[k];
    }
  }

  /** Within a session the counter never exceeds its starting value plus the hits seen. */
  lemma {:induction false} CountBoundedByHits(s: State, es: seq<Event<Scan>>)
    requires forall i :: 0 <= i < |es| ==> es[i].Tick?
    ensures Run(s, es).isActive == s.isActive
    ensures Run(s, es).mobileDetectionCount <= s.mobileDetectionCount + Hits(es)
    decreases |es|
  {
    if es != [] {
      CountBoundedByHits(s, es[..|es| - 1]);
    }
  }

  /** After `start()`, a violation needs at least five frames with a device in the session. */
  lemma ViolationNeedsFiveHits(s: State, es: seq<Event<Scan>>, scan: Scan, t: int)
    requires forall i :: 0 <= i < |es| ==> es[i].Tick?
    requires Detect(Run(Started(s), es), scan, t).violation.Some?
    ensures Hits(es + [Tick(scan, t)]) >= AlertThreshold
  {
    CountBoundedByHits(Started(s), es);
    var all := es + [Tick(scan, t)];
    assert all[..|all| - 1] == es;
  }

  /** Hit, miss, hit, miss, ... */
  predicate Alternating(es: seq<Event<Scan>>) {
    forall i :: 0 <= i < |es| ==> if i % 2 == 0 then Hit(es[i]) else Miss(es[i])
  }

  /**
   * The floor-at-zero decrement: frames alternating hit and miss, starting from a
   * zero counter, only move the counter between 1 and 0 and never raise anything.
   */
  lemma {:induction false} AlternationNeverReachesThreshold(s: State, es: seq<Event<Scan>>)
    requires s.isActive && s.mobileDetectionCount == 0
    requires Alternating(es)
    ensures Run(s, es).isActive
    ensures Run(s, es).mobileDetectionCount == |es| % 2
    ensures ViolationTimes(s, es) == []
    decreases |es|
  {
    if es != [] {
      var before := es[..|es| - 1];
      assert Alternating(before) by {
        forall i | 0 <= i < |before| ensures if i % 2 == 0 then Hit(before[i]) else Miss(before[i]) {
          assert before[i] == es[i];
        }
      }
      AlternationNeverReachesThreshold(s, before);
    }
  }

  class MobileDetection {
    var isActive: bool
    var mobileDetectionCount: nat
    var lastViolationTime: int

    function Snapshot(): State
      reads this
    {
      State(isActive, mobileDetectionCount, lastViolationTime)
    }

    constructor ()
      ensures Snapshot() == Initial
    {
      isActive := false;
      mobileDetectionCount := 0;
      lastViolationTime := 0;
    }

    method Start()
      modifies this
      ensures Snapshot() == Started(old(Snapshot()))
    {
      isActive := true;
      mobileDetectionCount := 0;
    }

    method Stop()
      modifies this
      ensures Snapshot() == Stopped(old(Snapshot()))
    {
      isActive := false;
    }

    /** One frame; `violation` is the MOBILE_DETECTED notice logged, if any. */
    method DetectMobile(inf: Inference, now: int) returns (r: Option<Report>, violation: Option<Notice>)
      modifies this
      ensures Outcome(Snapshot(), r, violation) == Detect(old(Snapshot()), ScanOf(inf), now)
    {
      violation := None;
      if !isActive {
        return None, None;
      }
      var detections: seq<DeviceDetection>;
      match inf {
        case Failed =>
          return Some(DetectionError), None;
        case ModelRan(p) =>
          detections := ProcessPredictions(p);
        case FallbackRan(ds) =>
          detections := ds;
      }
      var mobileDetected := |detections| > 0;
      if mobileDetected {
        mobileDetectionCount := mobileDetectionCount + 1;
        if mobileDetectionCount >= AlertThreshold && now - lastViolationTime > ViolationCooldown {
          violation := Some(MobileSeen);
          lastViolationTime := now;
        }
        r := Some(MobileDetected(detections));
      } else {
        mobileDetectionCount := if mobileDetectionCount == 0 then 0 else mobileDetectionCount - 1;
        r := Some(NoMobile);
      }
    }
  }
}
