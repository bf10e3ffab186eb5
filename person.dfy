/**
 * The presence monitor (class PersonDetection): each frame records when a face was
 * last seen; an independent one-second timer raises NO_PERSON on every firing once
 * no face has been seen for more than 3000 ms. Unlike the other monitors it has no
 * cooldown.
 */
module PersonMonitor {
  import opened Common
  import opened Perception
  import opened Notices

  /** Milliseconds of absence after which the timer raises NO_PERSON. */
  const NoPersonThreshold: int := 3000

  datatype Status = PersonPresent | NoPerson

  /** The `{ status, count }` object `detectPerson` resolves to. */
  datatype Report = Report(status: Status, count: nat)

  /** The monitor's fields. */
  datatype State = State(isActive: bool, lastDetectionTime: int)

  /** As the constructor leaves it. */
  const Initial: State := State(false, 0)

  /** `start()`: active, and absence is measured from now. */
  function Started(s: State, now: int): State {
    State(true, now)
  }

  /** `stop()`: only the flag changes. */
  function Stopped(s: State): State {
    s.(isActive := false)
  }

  datatype Outcome = Outcome(next: State, report: Option<Report>)

  /** `detectPerson(detections)` at time `now`. */
  function Detect(s: State, d: Detections, now: int): (o: Outcome)
    ensures o.next.isActive == s.isActive
    ensures o.report.Some? <==> s.isActive
    ensures o.report.Some? ==> (o.report.value.status == PersonPresent <==> FaceCount(d) > 0)
    ensures o.report.Some? ==> o.report.value.count == FaceCount(d)
    ensures o.next.lastDetectionTime == if s.isActive && FaceCount(d) > 0 then now else s.lastDetectionTime
  {
    if !s.isActive then Outcome(s, None)
    else if FaceCount(d) > 0 then Outcome(s.(lastDetectionTime := now), Some(Report(PersonPresent, FaceCount(d))))
    else Outcome(s, Some(Report(NoPerson, 0)))
  }

  /** `checkNoPersonTimeout()` at time `now`: the notice it logs, if any; it changes nothing. */
  function Timeout(s: State, now: int): (n: Option<Notice>)
    ensures n.Some? <==> s.isActive && now - s.lastDetectionTime > NoPersonThreshold
    ensures n.Some? ==> n.value == NoPersonFor((now - s.lastDetectionTime) / 1000)
  {
    if s.isActive && now - s.lastDetectionTime > NoPersonThreshold
    then Some(NoPersonFor((now - s.lastDetectionTime) / 1000))
    else None
  }

  /** What can happen to the presence monitor: the other monitors' events plus a timer firing. */
  datatype Happening = Activate(at: int) | Deactivate | Frame(detections: Detections, at: int) | Poll(at: int)

  function Apply(s: State, h: Happening): State {
    match h
    case Activate(t) => Started(s, t)
    case Deactivate => Stopped(s)
    case Frame(d, t) => Detect(s, d, t).next
    case Poll(_) => s
  }

  /** The state after a history of happenings. */
  function Run(s: State, hs: seq<Happening>): State
    decreases |hs|
  {
    if hs == [] then s else Apply(Run(s, hs[..|hs| - 1]), hs[|hs| - 1])
  }

  /** Every NO_PERSON notice a history produces, in order. */
  function Raised(s: State, hs: seq<Happening>): seq<Notice>
    decreases |hs|
  {
    if hs == [] then []
    else
      var before := hs[..|hs| - 1];
      var more := match hs[|hs| - 1]
        case Poll(t) => (match Timeout(Run(s, before), t) case Some(n) => [n] case None => [])
        case _ => [];
      Raised(s, before) + more
  }

  /** Happenings that cannot end an absence: timer firings and frames without faces. */
  predicate Absent(h: Happening) {
    h.Poll? || (h.Frame? && FaceCount(h.detections) == 0)
  }

  /** Number of timer firings later than `deadline`. */
  function LatePolls(hs: seq<Happening>, deadline: int): nat
    decreases |hs|
  {
    if hs == [] then 0
    else LatePolls(hs[..|hs| - 1], deadline) + (if hs[|hs| - 1].Poll? && hs[|hs| - 1].at > deadline then 1 else 0)
  }

  lemma {:induction false} RunAppend(s: State, a: seq<Happening>, b: seq<Happening>)
    ensures Run(s, a + b) == Run(Run(s, a), b)
    decreases |b|
  {
    if b == [] {
      assert a + b == a;
    } else {
      assert (a + b)[..|a + b| - 1] == a + b[..|b| - 1];
      RunAppend(s, a, b[..|b| - 1]);
    }
  }

  /**
   * No cooldown: while nobody is seen, the state does not move and every timer
   * firing more than 3000 ms after the last sighting raises NO_PERSON again.
   */
  lemma {:induction false} EveryLatePollRaises(s: State, hs: seq<Happening>)
    requires s.isActive
    requires forall i :: 0 <= i < |hs| ==> Absent(hs[i])
    ensures Run(s, hs) == s
    ensures |Raised(s, hs)| == LatePolls(hs, s.lastDetectionTime + NoPersonThreshold)
    decreases |hs|
  {
    if hs != [] {
      EveryLatePollRaises(s, hs[..|hs| - 1]);
    }
  }

  /** A happening at or after `t` (a stop has no time and qualifies). */
  predicate NotBefore(h: Happening, t: int) {
    match h
    case Activate(a) => a >= t
    case Deactivate => true
    case Frame(_, a) => a >= t
    case Poll(a) => a >= t
  }

  lemma {:induction false} LastSightingNeverEarlier(s: State, hs: seq<Happening>, t: int)
    requires s.lastDetectionTime >= t
    requires forall i :: 0 <= i < |hs| ==> NotBefore(hs[i], t)
    ensures Run(s, hs).lastDetectionTime >= t
    decreases |hs|
  {
    if hs != [] {
      LastSightingNeverEarlier(s, hs[..|hs| - 1], t);
    }
  }

  /**
   * `start()` at `t` leaves a 3000 ms grace period: with a clock that does not run
   * backwards, no timer firing up to `t + 3000` raises anything, whatever happens
   * in between.
   */
  lemma QuietAfterStart(s: State, t: int, hs: seq<Happening>, p: int)
    requires forall i :: 0 <= i < |hs| ==> NotBefore(hs[i], t)
    requires p <= t + NoPersonThreshold
    ensures Timeout(Run(s, [Activate(t)] + hs), p) == None
  {
    RunAppend(s, [Activate(t)], hs);
    LastSightingNeverEarlier(Started(s, t), hs, t);
  }

  /**
   * A frame with a face at `t` silences the timer again: no firing up to
   * `t + 3000` raises anything until absence recurs and outlasts the threshold.
   */
  lemma QuietAfterSighting(s: State, pre: seq<Happening>, d: Detections, t: int, hs: seq<Happening>, p: int)
    requires FaceCount(d) > 0
    requires forall i :: 0 <= i < |hs| ==> NotBefore(hs[i], t)
    requires p <= t + NoPersonThreshold
    ensures Timeout(Run(s, pre + [Frame(d, t)] + hs), p) == None
  {
    RunAppend(s, pre + [Frame(d, t)], hs);
    RunAppend(s, pre, [Frame(d, t)]);
    var mid := Run(s, pre + [Frame(d, t)]);
    if mid.isActive {
      LastSightingNeverEarlier(mid, hs, t);
    } else {
      LastSightingNeverEarlier(mid.(lastDetectionTime := t), hs, t);
      InactiveTimeIrrelevant(mid, hs, t);
    }
  }

  /** While stopped, the sighting time matters only if a later start overwrites it anyway. */
  lemma {:induction false} InactiveTimeIrrelevant(s: State, hs: seq<Happening>, t: int)
    requires !s.isActive
    ensures Run(s, hs).isActive ==> Run(s, hs) == Run(s.(lastDetectionTime := t), hs)
    ensures !Run(s, hs).isActive <==> !Run(s.(lastDetectionTime := t), hs).isActive
    decreases |hs|
  {
    if hs != [] {
      InactiveTimeIrrelevant(s, hs[..|hs| - 1], t);
    }
  }

  class PersonDetection {
    var isActive: bool
    var lastDetectionTime: int

    function Snapshot(): State
      reads this
    {
      State(isActive, lastDetectionTime)
    }

    constructor ()
      ensures Snapshot() == Initial
    {
      isActive := false;
      lastDetectionTime := 0;
    }

    method Start(now: int)
      modifies this
      ensures Snapshot() == Started(old(Snapshot()), now)
    {
      isActive := true;
      lastDetectionTime := now;
    }

    method Stop()
      modifies this
      ensures Snapshot() == Stopped(old(Snapshot()))
    {
      isActive := false;
    }

    method DetectPerson(d: Detections, now: int) returns (r: Option<Report>)
      modifies this
      ensures Outcome(Snapshot(), r) == Detect(old(Snapshot()), d, now)
    {
      if !isActive {
        return None;
      }
      var personDetected := d.Some? && |d.value| > 0;
      if personDetected {
        lastDetectionTime := now;
        r := Some(Report(PersonPresent, |d.value|));
      } else {
        r := Some(Report(NoPerson, 0));
      }
    }

    /** The timer callback; reads the fields and changes nothing. */
    method CheckNoPersonTimeout(now: int) returns (notice: Option<Notice>)
      ensures notice.Some? <==> isActive && now - lastDetectionTime > NoPersonThreshold
      ensures notice.Some? ==> notice.value == NoPersonFor((now - lastDetectionTime) / 1000)
    {
      if !isActive {
        return None;
      }
      var timeSinceLastDetection := now - lastDetectionTime;
      if timeSinceLastDetection > NoPersonThreshold {
        notice := Some(NoPersonFor(timeSinceLastDetection / 1000));
      } else {
        notice := None;
      }
    }
  }
}
