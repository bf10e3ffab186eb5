/**
 * The attention monitor (class AttentionTracking). A pure geometric heuristic judges
 * from the first face's landmarks whether the head is turned away and in which
 * direction; a small state machine records when a look-away began, raises
 * LOOKING_AWAY on every frame once it has lasted more than 5000 ms, and emits
 * ATTENTION_RESTORED when the person looks back.
 */
module AttentionMonitor {
  import opened Common
  import opened Perception
  import opened Notices

  /** A deviation ratio above this counts as looking away. */
  const HeadPoseThreshold: real := 0.15
  /** Look-away milliseconds beyond which every away frame raises LOOKING_AWAY. */
  const MaxLookAwayTime: int := 5000

  // ---------------------------------------------------------------------------
  // Geometry (analyzeAttention, getEyeCenter, getMouthCenter)
  // ---------------------------------------------------------------------------

  function X(p: Point): real { p.x }
  function Y(p: Point): real { p.y }

  /** One coordinate summed over the points, as the `reduce` calls do. */
  function Sum(ps: seq<Point>, coord: Point -> real): real
    decreases |ps|
  {
    if ps == [] then 0.0 else Sum(ps[..|ps| - 1], coord) + coord(ps[|ps| - 1])
  }

  /** `getEyeCenter` / `getMouthCenter` (the two are the same computation): the mean point. */
  function Centroid(ps: seq<Point>): (c: Point)
    requires |ps| > 0
    ensures (|ps| as real) * c.x == Sum(ps, X) && (|ps| as real) * c.y == Sum(ps, Y)
  {
    Point(Sum(ps, X) / (|ps| as real), Sum(ps, Y) / (|ps| as real))
  }

  /** A sum of `n` values that all lie in [lo, hi] lies in [n * lo, n * hi]. */
  lemma {:induction false} SumWithin(ps: seq<Point>, coord: Point -> real, lo: real, hi: real)
    requires forall i :: 0 <= i < |ps| ==> lo <= coord(ps[i]) <= hi
    ensures (|ps| as real) * lo <= Sum(ps, coord) <= (|ps| as real) * hi
    decreases |ps|
  {
    if ps != [] {
      var m := (|ps| - 1) as real;
      SumWithin(ps[..|ps| - 1], coord, lo, hi);
      assert (m + 1.0) * lo == m * lo + lo && (m + 1.0) * hi == m * hi + hi;
    }
  }

  /** The mean lies within any axis-aligned box that holds all the points. */
  lemma CentroidWithin(ps: seq<Point>, lo: Point, hi: Point)
    requires |ps| > 0
    requires forall i :: 0 <= i < |ps| ==> lo.x <= ps[i].x <= hi.x && lo.y <= ps[i].y <= hi.y
    ensures lo.x <= Centroid(ps).x <= hi.x && lo.y <= Centroid(ps).y <= hi.y
  {
    SumWithin(ps, X, lo.x, hi.x);
    SumWithin(ps, Y, lo.y, hi.y);
    var n := |ps| as real;
    DivideBounds(Sum(ps, X), n, lo.x, hi.x);
    DivideBounds(Sum(ps, Y), n, lo.y, hi.y);
  }

  lemma DivideBounds(sum: real, n: real, lo: real, hi: real)
    requires n > 0.0 && n * lo <= sum <= n * hi
    ensures lo <= sum / n <= hi
  {
    var q := sum / n;
    assert q * n == sum;
  }

  function Abs(x: real): real {
    if x < 0.0 then -x else x
  }

  /**
   * A JavaScript quotient of two non-negative numbers: finite, `Infinity` (positive
   * over zero) or `NaN` (zero over zero).
   */
  datatype Ratio = Finite(value: real) | Infinity | NotANumber

  function Divide(num: real, den: real): Ratio
    requires num >= 0.0 && den >= 0.0
  {
    if den != 0.0 then Finite(num / den) else if num != 0.0 then Infinity else NotANumber
  }

  /** JavaScript's `ratio > t`: `Infinity` exceeds everything, `NaN` nothing. */
  predicate Exceeds(r: Ratio, t: real) {
    match r
    case Finite(v) => v > t
    case Infinity => true
    case NotANumber => false
  }

  /**
   * The comparison with a ratio, `Infinity` and `NaN` included, is the comparison of
   * the numerator with the threshold times the denominator.
   */
  lemma ExceedsIsCrossMultiplied(num: real, den: real, t: real)
    requires num >= 0.0 && den >= 0.0 && t >= 0.0
    ensures Exceeds(Divide(num, den), t) <==> num > t * den
  {
    if den != 0.0 {
      assert num / den * den == num;
      if num / den > t {
        assert num / den * den > t * den;
      } else {
        assert num / den * den <= t * den;
      }
    }
  }

  datatype Direction = Center | Left | Right | Up | Down

  /** The object `analyzeAttention` returns. */
  datatype Analysis = Analysis(isLookingAway: bool, direction: Direction,
                               horizontalDeviation: Ratio, verticalDeviation: Ratio)

  /** The midpoint of the two eye centres. */
  function EyeCenter(l: FaceLandmarks): Point {
    var leftEye := Centroid(l.leftEye);
    var rightEye := Centroid(l.rightEye);
    Point((leftEye.x + rightEye.x) / 2.0, (leftEye.y + rightEye.y) / 2.0)
  }

  /** The nose tip, the fourth nose landmark. */
  function NoseTip(l: FaceLandmarks): Point {
    l.nose[3]
  }

  /** |nose.x - eyeCenter.x| / |rightEye.x - leftEye.x|. */
  function HorizontalDeviation(l: FaceLandmarks): Ratio {
    Divide(Abs(NoseTip(l).x - EyeCenter(l).x), Abs(Centroid(l.rightEye).x - Centroid(l.leftEye).x))
  }

  /** |nose.y - eyeCenter.y| / |mouth.y - eyeCenter.y|. */
  function VerticalDeviation(l: FaceLandmarks): Ratio {
    Divide(Abs(NoseTip(l).y - EyeCenter(l).y), Abs(Centroid(l.mouth).y - EyeCenter(l).y))
  }

  /** `analyzeAttention(landmarks)`. */
  function AnalyzeAttention(l: FaceLandmarks): (a: Analysis)
    ensures a.horizontalDeviation == HorizontalDeviation(l) && a.verticalDeviation == VerticalDeviation(l)
    ensures a.isLookingAway <==> Exceeds(HorizontalDeviation(l), HeadPoseThreshold) || Exceeds(VerticalDeviation(l), HeadPoseThreshold)
    ensures a.direction == Center <==> !a.isLookingAway
    ensures Exceeds(HorizontalDeviation(l), HeadPoseThreshold) ==>
      a.direction == (if NoseTip(l).x > EyeCenter(l).x then Right else Left)
    ensures a.isLookingAway && !Exceeds(HorizontalDeviation(l), HeadPoseThreshold) ==>
      a.direction == (if NoseTip(l).y < EyeCenter(l).y then Up else Down)
  {
    var nose := NoseTip(l);
    var eyeCenter := EyeCenter(l);
    var horizontal := HorizontalDeviation(l);
    var vertical := VerticalDeviation(l);
    var isLookingAway := Exceeds(horizontal, HeadPoseThreshold) || Exceeds(vertical, HeadPoseThreshold);
    var direction :=
      if !isLookingAway then Center
      else if Exceeds(horizontal, HeadPoseThreshold) then (if nose.x > eyeCenter.x then Right else Left)
      else if Exceeds(vertical, HeadPoseThreshold) then (if nose.y < eyeCenter.y then Up else Down)
      else Center;
    Analysis(isLookingAway, direction, horizontal, vertical)
  }

  /**
   * Looking away, stated without division: the nose is off the eye centre by more
   * than 0.15 of the eye span horizontally, or by more than 0.15 of the eye-to-mouth
   * distance vertically. Degenerate spans (zero) make any offset count, as JavaScript's
   * `Infinity` does.
   */
  lemma LookingAwayGeometry(l: FaceLandmarks)
    ensures var nose, eye := NoseTip(l), EyeCenter(l);
      AnalyzeAttention(l).isLookingAway <==>
        (|| Abs(nose.x - eye.x) > HeadPoseThreshold * Abs(Centroid(l.rightEye).x - Centroid(l.leftEye).x)
         || Abs(nose.y - eye.y) > HeadPoseThreshold * Abs(Centroid(l.mouth).y - eye.y))
  {
    var nose, eye := NoseTip(l), EyeCenter(l);
    ExceedsIsCrossMultiplied(Abs(nose.x - eye.x), Abs(Centroid(l.rightEye).x - Centroid(l.leftEye).x), HeadPoseThreshold);
    ExceedsIsCrossMultiplied(Abs(nose.y - eye.y), Abs(Centroid(l.mouth).y - eye.y), HeadPoseThreshold);
  }

  // ---------------------------------------------------------------------------
  // State machine (trackAttention, start, stop)
  // ---------------------------------------------------------------------------

  /** The object `trackAttention` resolves to. */
  datatype Report = NoFace | NoLandmarks | LookingAway(duration: int, direction: Direction) | PayingAttention

  /** The monitor's fields. */
  datatype State = State(isActive: bool, lookingAwayCount: nat, lookAwayStartTime: Option<int>, isLookingAway: bool)

  /**
   * The away flag is set exactly when a start time is recorded, and the away-frame
   * counter is zero whenever the person is not looking away.
   */
  predicate Inv(s: State) {
    (s.isLookingAway <==> s.lookAwayStartTime.Some?) && (!s.isLookingAway ==> s.lookingAwayCount == 0)
  }

  /** As the constructor leaves it. */
  const Initial: State := State(false, 0, None, false)

  /** `start()`: active, with all away-state cleared. */
  function Started(s: State): (r: State)
    ensures Inv(r)
  {
    State(true, 0, None, false)
  }

  /** `stop()`: only the flag changes. */
  function Stopped(s: State): State {
    s.(isActive := false)
  }

  /** `now - lookAwayStartTime`; JavaScript turns a `null` start into 0. */
  function Elapsed(now: int, start: Option<int>): int {
    now - (if start.Some? then start.value else 0)
  }

  /** How a frame bears on attention: no usable face, or the heuristic's verdict. */
  datatype Gaze = Inconclusive | Away(direction: Direction) | Attentive

  /** Only the first face is looked at. */
  function GazeOf(d: Detections): Gaze {
    if FaceCount(d) == 0 || d.value[0].landmarks.None? then Inconclusive
    else
      var a := AnalyzeAttention(d.value[0].landmarks.value);
      if a.isLookingAway then Away(a.direction) else Attentive
  }

  datatype Outcome = Outcome(next: State, report: Report, notice: Option<Notice>)

  /** `trackAttention(detections)` at time `now`. */
  function Track(s: State, d: Detections, now: int): (o: Outcome)
    ensures Inv(s) ==> Inv(o.next)
    ensures o.next.isActive == s.isActive
    ensures o.report == NoFace <==> !s.isActive || FaceCount(d) == 0
    ensures o.report == NoLandmarks <==> s.isActive && FaceCount(d) > 0 && d.value[0].landmarks.None?
    ensures o.report.NoFace? || o.report.NoLandmarks? ==> o.next == s && o.notice == None
    ensures s.isActive && GazeOf(d).Away? ==>
      && o.report == LookingAway(Elapsed(now, o.next.lookAwayStartTime), GazeOf(d).direction)
      && o.next.isLookingAway && o.next.lookingAwayCount == s.lookingAwayCount + 1
      && o.next.lookAwayStartTime == (if s.isLookingAway then s.lookAwayStartTime else Some(now))
      && (o.notice.Some? <==> o.report.duration > MaxLookAwayTime)
      && (o.notice.Some? ==> o.notice.value == LookingAwayFor(o.report.duration / 1000))
    ensures s.isActive && GazeOf(d).Attentive? ==>
      && o.report == PayingAttention
      && o.next == State(true, 0, None, false)
      && (o.notice.Some? <==> s.isLookingAway)
      && (o.notice.Some? ==> o.notice.value == AttentionRestored(Elapsed(now, s.lookAwayStartTime) / 1000))
  {
    if !s.isActive || FaceCount(d) == 0 then Outcome(s, NoFace, None)
    else
      var landmarks := d.value[0].landmarks;
      if landmarks.None? then Outcome(s, NoLandmarks, None)
      else
        var a := AnalyzeAttention(landmarks.value);
        if a.isLookingAway then
          var start := if !s.isLookingAway then Some(now) else s.lookAwayStartTime;
          var duration := Elapsed(now, start);
          Outcome(State(true, s.lookingAwayCount + 1, start, true),
                  LookingAway(duration, a.direction),
                  if duration > MaxLookAwayTime then Some(LookingAwayFor(duration / 1000)) else None)
        else
          Outcome(State(true, 0, None, false),
                  PayingAttention,
                  if s.isLookingAway then Some(AttentionRestored(Elapsed(now, s.lookAwayStartTime) / 1000)) else None)
  }

  function Apply(s: State, e: Event<Detections>): Outcome {
    match e
    case Begin(_) => Outcome(Started(s), NoFace, None)
    case End => Outcome(Stopped(s), NoFace, None)
    case Tick(d, t) => Track(s, d, t)
  }

  /** The state after a session history. */
  function Run(s: State, es: seq<Event<Detections>>): State
    decreases |es|
  {
    if es == [] then s else Apply(Run(s, es[..|es| - 1]), es[|es| - 1]).next
  }

  /** The invariant holds after any history from any state that satisfies it. */
  lemma {:induction false} InvAlways(s: State, es: seq<Event<Detections>>)
    requires Inv(s)
    ensures Inv(Run(s, es))
    decreases |es|
  {
    if es != [] {
      InvAlways(s, es[..|es| - 1]);
    }
  }

  /** Ticks that continue a look-away: away, or inconclusive. */
  predicate Continues(e: Event<Detections>) {
    e.Tick? && !GazeOf(e.input).Attentive?
  }

  function AwayTicks(es: seq<Event<Detections>>): nat
    decreases |es|
  {
    if es == [] then 0
    else AwayTicks(es[..|es| - 1]) + (if es[|es| - 1].Tick? && GazeOf(es[|es| - 1].input).Away? then 1 else 0)
  }

  /**
   * Edge-triggered start: in a look-away episode (an away frame at `t0` followed by
   * away or inconclusive frames) the start time is recorded once, at `t0`, and stays;
   * the counter counts the away frames.
   */
  lemma {:induction false} EpisodeKeepsStart(s: State, es: seq<Event<Detections>>)
    requires s.isActive && Inv(s) && !s.isLookingAway
    requires |es| > 0 && es[0].Tick? && GazeOf(es[0].input).Away?
    requires forall i :: 0 <= i < |es| ==> Continues(es[i])
    ensures Run(s, es) == State(true, AwayTicks(es), Some(es[0].at), true)
    decreases |es|
  {
    if |es| > 1 {
      var before := es[..|es| - 1];
      assert before[0] == es[0];
      assert forall i :: 0 <= i < |before| ==> before[i] == es[i];
      EpisodeKeepsStart(s, before);
    } else {
      assert es[..0] == [];
    }
  }

  /**
   * Looking back after an episode that began at `t0` emits ATTENTION_RESTORED with
   * the whole episode's length and clears every part of the away-state.
   */
  lemma RestoreEndsEpisode(s: State, es: seq<Event<Detections>>, d: Detections, t: int)
    requires s.isActive && Inv(s) && !s.isLookingAway
    requires |es| > 0 && es[0].Tick? && GazeOf(es[0].input).Away?
    requires forall i :: 0 <= i < |es| ==> Continues(es[i])
    requires GazeOf(d).Attentive?
    ensures Track(Run(s, es), d, t) == Outcome(State(true, 0, None, false), PayingAttention,
                                               Some(AttentionRestored((t - es[0].at) / 1000)))
  {
    EpisodeKeepsStart(s, es);
  }

  class AttentionTracking {
    var isActive: bool
    var lookingAwayCount: nat
    var lookAwayStartTime: Option<int>
    var isLookingAway: bool

    function Snapshot(): State
      reads this
    {
      State(isActive, lookingAwayCount, lookAwayStartTime, isLookingAway)
    }

    /** Looking away exactly when a start time is recorded. */
    ghost predicate Valid()
      reads this
    {
      Inv(Snapshot())
    }

    constructor ()
      ensures Snapshot() == Initial && Valid()
    {
      isActive := false;
      lookingAwayCount := 0;
      lookAwayStartTime := None;
      isLookingAway := false;
    }

    method Start()
      modifies this
      ensures Snapshot() == Started(old(Snapshot())) && Valid()
    {
      isActive := true;
      lookingAwayCount := 0;
      lookAwayStartTime := None;
      isLookingAway := false;
    }

    method Stop()
      modifies this
      ensures Snapshot() == Stopped(old(Snapshot()))
      ensures old(Valid()) ==> Valid()
    {
      isActive := false;
    }

    /** One frame; `notice` is the LOOKING_AWAY violation or ATTENTION_RESTORED event logged, if any. */
    method TrackAttention(d: Detections, now: int) returns (r: Report, notice: Option<Notice>)
      modifies this
      requires Valid()
      ensures Outcome(Snapshot(), r, notice) == Track(old(Snapshot()), d, now)
      ensures Valid()
      // the reported duration is measured from the recorded start, never from a null start
      ensures r.LookingAway? ==> lookAwayStartTime.Some? && r.duration == now - lookAwayStartTime.value
    {
      notice := None;
      if !isActive || d.None? || |d.value| == 0 {
        return NoFace, None;
      }
      var detection := d.value[0];
      var landmarks := detection.landmarks;
      if landmarks.None? {
        return NoLandmarks, None;
      }
      var attentionResult := AnalyzeAttention(landmarks.value);
      if attentionResult.isLookingAway {
        if !isLookingAway {
          lookAwayStartTime := Some(now);
          isLookingAway := true;
        }
        lookingAwayCount := lookingAwayCount + 1;
        var lookAwayDuration := Elapsed(now, lookAwayStartTime);
        if lookAwayDuration > MaxLookAwayTime {
          notice := Some(LookingAwayFor(lookAwayDuration / 1000));
        }
        r := LookingAway(lookAwayDuration, attentionResult.direction);
      } else {
        if isLookingAway {
          var totalLookAwayTime := Elapsed(now, lookAwayStartTime);
          notice := Some(AttentionRestored(totalLookAwayTime / 1000));
        }
        lookingAwayCount := 0;
        lookAwayStartTime := None;
        isLookingAway := false;
        r := PayingAttention;
      }
    }
  }
}
