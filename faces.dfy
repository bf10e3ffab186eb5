/**
 * The face-count monitor (class MultipleFaceDetection): a frame with two or more
 * faces extends a streak; zero or one face ends it. MULTIPLE_FACES is raised when the
 * streak has reached 3 frames and more than 5000 ms have passed since the last one.
 */
module FaceCountMonitor {
  import opened Common
  import opened Perception
  import opened Notices

  /** Consecutive multi-face frames before a violation may be raised. */
  const AlertThreshold: nat := 3
  /** Milliseconds that must strictly pass between two violations. */
  const ViolationCooldown: int := 5000

  datatype Status = NoFaces | SingleFace | MultipleFaces

  /** The `{ status, count }` object `detectMultipleFaces` resolves to. */
  datatype Report = Report(status: Status, count: nat)

  /** The monitor's fields. */
  datatype State = State(isActive: bool, multipleFaceCount: nat, lastViolationTime: int)

  /** As the constructor leaves it. */
  const Initial: State := State(false, 0, 0)

  /** `start()`: the streak restarts; the cooldown clock does not. */
  function Started(s: State): State {
    s.(isActive := true, multipleFaceCount := 0)
  }

  /** `stop()`: only the flag changes. */
  function Stopped(s: State): State {
    s.(isActive := false)
  }

  datatype Outcome = Outcome(next: State, report: Option<Report>, violation: Option<Notice>)

  /** `detectMultipleFaces(detections)` at time `now`. */
  function Detect(s: State, d: Detections, now: int): (o: Outcome)
    ensures !s.isActive ==> o == Outcome(s, None, None)
    ensures s.isActive ==> o.next.isActive && o.report.Some? && o.report.value.count == FaceCount(d)
    ensures s.isActive && FaceCount(d) <= 1 ==>
      o.next.multipleFaceCount == 0 && o.report.value.status == (if FaceCount(d) == 0 then NoFaces else SingleFace)
    ensures s.isActive && FaceCount(d) >= 2 ==>
      o.next.multipleFaceCount == s.multipleFaceCount + 1 && o.report.value.status == MultipleFaces
    ensures o.violation.Some? <==>
      s.isActive && FaceCount(d) >= 2 && s.multipleFaceCount + 1 >= AlertThreshold
      && now - s.lastViolationTime > ViolationCooldown
    ensures o.violation.Some? ==> o.violation.value == MultipleFacesSeen(FaceCount(d))
    ensures o.next.lastViolationTime == if o.violation.Some? then now else s.lastViolationTime
  {
    if !s.isActive then Outcome(s, None, None)
    else
      var faceCount := FaceCount(d);
      if faceCount == 0 then Outcome(s.(multipleFaceCount := 0), Some(Report(NoFaces, 0)), None)
      else if faceCount == 1 then Outcome(s.(multipleFaceCount := 0), Some(Report(SingleFace, 1)), None)
      else
        var count := s.multipleFaceCount + 1;
        if count >= AlertThreshold && now - s.lastViolationTime > ViolationCooldown then
          Outcome(State(true, count, now), Some(Report(MultipleFaces, faceCount)), Some(MultipleFacesSeen(faceCount)))
        else
          Outcome(s.(multipleFaceCount := count), Some(Report(MultipleFaces, faceCount)), None)
  }

  function Apply(s: State, e: Event<Detections>): Outcome {
    match e
    case Begin(_) => Outcome(Started(s), None, None)
    case End => Outcome(Stopped(s), None, None)
    case Tick(d, t) => Detect(s, d, t)
  }

  /** The state after a session history. */
  function Run(s: State, es: seq<Event<Detections>>): State
    decreases |es|
  {
    if es == [] then s else Apply(Run(s, es[..|es| - 1]), es[|es| - 1]).next
  }

  /** The times at which a history raised MULTIPLE_FACES, in order. */
  function ViolationTimes(s: State, es: seq<Event<Detections>>): seq<int>
    decreases |es|
  {
    if es == [] then []
    else
      var before := es[..|es| - 1];
      ViolationTimes(s, before)
        + (if Apply(Run(s, before), es[|es| - 1]).violation.Some? then [es[|es| - 1].at] else [])
  }

  /**
   * Cooldown: across any history, restarts included, consecutive violations are
   * more than 5000 ms apart, the first is more than 5000 ms after the initial
   * last-violation time, and `lastViolationTime` is always the latest one.
   */
  lemma {:induction false} ViolationsSpaced(s: State, es: seq<Event<Detections>>)
    ensures var v := ViolationTimes(s, es);
      && (forall i :: 0 < i < |v| ==> v[i] - v[i - 1] > ViolationCooldown)
      && (|v| > 0 ==> v[0] - s.lastViolationTime > ViolationCooldown)
      && Run(s, es).lastViolationTime == (if |v| == 0 then s.lastViolationTime else v[|v| - 1])
    decreases |es|
  {
    if es != [] {
      ViolationsSpaced(s, es[..|es| - 1]);
    }
  }

  /** A tick that shows two or more faces. */
  predicate Crowded(e: Event<Detections>) {
    e.Tick? && FaceCount(e.input) >= 2
  }

  /** Length of the run of crowded ticks at the end of a history. */
  function Streak(es: seq<Event<Detections>>): (n: nat)
    ensures n <= |es|
    decreases |es|
  {
    if es == [] || !Crowded(es[|es| - 1]) then 0 else Streak(es[..|es| - 1]) + 1
  }

  /** The last `Streak(es)` events are crowded frames and the one before them is not. */
  lemma {:induction false} StreakIsTrailingRun(es: seq<Event<Detections>>)
    ensures forall k :: |es| - Streak(es) <= k < |es| ==> Crowded(es[k])
    ensures Streak(es) < |es| ==> !Crowded(es[|es| - 1 - Streak(es)])
    decreases |es|
  {
    if es != [] && Crowded(es[|es| - 1]) {
      var before := es[..|es| - 1];
      StreakIsTrailingRun(before);
      assert forall k :: 0 <= k < |before| ==> before[k] == es[k];
    }
  }

  /**
   * Within a session (ticks only, monitor running) the counter is the length of the
   * current crowded streak, plus the starting count if no frame broke the streak.
   */
  lemma {:induction false} CountIsStreak(s: State, es: seq<Event<Detections>>)
    requires s.isActive
    requires forall i :: 0 <= i < |es| ==> es[i].Tick?
    ensures Run(s, es).isActive
    ensures Run(s, es).multipleFaceCount == Streak(es) + (if Streak(es) == |es| then s.multipleFaceCount else 0)
    decreases |es|
  {
    if es != [] {
      CountIsStreak(s, es[..|es| - 1]);
    }
  }

  /**
   * Debounce: after `start()`, no violation is raised before the third consecutive
   * multi-face frame; whenever one is raised, the last three frames all showed two
   * or more faces.
   */
  lemma ViolationNeedsThreeCrowdedFrames(s: State, es: seq<Event<Detections>>, d: Detections, t: int)
    requires forall i :: 0 <= i < |es| ==> es[i].Tick?
    requires Detect(Run(Started(s), es), d, t).violation.Some?
    ensures Streak(es + [Tick(d, t)]) >= AlertThreshold
    ensures |es| >= AlertThreshold - 1
  {
    CountIsStreak(Started(s), es);
    assert (es + [Tick(d, t)])[..|es|] == es;
  }

  class MultipleFaceDetection {
    var isActive: bool
    var multipleFaceCount: nat
    var lastViolationTime: int

    function Snapshot(): State
      reads this
    {
      State(isActive, multipleFaceCount, lastViolationTime)
    }

    constructor ()
      ensures Snapshot() == Initial
    {
      isActive := false;
      multipleFaceCount := 0;
      lastViolationTime := 0;
    }

    method Start()
      modifies this
      ensures Snapshot() == Started(old(Snapshot()))
    {
      isActive := true;
      multipleFaceCount := 0;
    }

    method Stop()
      modifies this
      ensures Snapshot() == Stopped(old(Snapshot()))
    {
      isActive := false;
    }

    /** One frame; `violation` is the MULTIPLE_FACES notice logged, if any. */
    method DetectMultipleFaces(d: Detections, now: int) returns (r: Option<Report>, violation: Option<Notice>)
      modifies this
      ensures Outcome(Snapshot(), r, violation) == Detect(old(Snapshot()), d, now)
    {
      violation := None;
      if !isActive {
        return None, None;
      }
      var faceCount := if d.Some? then |d.value| else 0;
      if faceCount == 0 {
        multipleFaceCount := 0;
        r := Some(Report(NoFaces, 0));
      } else if faceCount == 1 {
        multipleFaceCount := 0;
        r := Some(Report(SingleFace, 1));
      } else {
        multipleFaceCount := multipleFaceCount + 1;
        if multipleFaceCount >= AlertThreshold && now - lastViolationTime > ViolationCooldown {
          violation := Some(MultipleFacesSeen(faceCount));
          lastViolationTime := now;
        }
        r := Some(Report(MultipleFaces, faceCount));
      }
    }
  }
}
