/**
 * The identity monitor (class IdentityVerification): compares the single face of a
 * frame with a reference descriptor captured once. Mismatches are counted; the count
 * survives frames with no face or several faces and is cleared only by a match (or a
 * restart). WRONG_PERSON is raised on every mismatch once the count is at least 5.
 */
module IdentityMonitor {
  import opened Common
  import opened Perception
  import opened Notices

  /** A frame matches when `1 - distance` is at least this. */
  const SimilarityThreshold: real := 0.6
  /** Mismatches in a row after which every further mismatch raises WRONG_PERSON. */
  const WrongPersonThreshold: nat := 5

  /**
   * Descriptor distance (face-api's euclideanDistance, foreign code): any function
   * of the reference and the observed descriptor.
   */
  type Metric = (Descriptor, Descriptor) -> real

  /** The object `verifyIdentity` resolves to. */
  datatype Report =
    | NoReference
    | NoFace
    | MultipleFaces
    | CorrectPerson(similarity: real)
    | WrongPerson(similarity: real)

  /** The monitor's fields. */
  datatype State = State(isActive: bool, reference: Option<Descriptor>, wrongPersonCount: nat)

  /** As the constructor leaves it. */
  const Initial: State := State(false, None, 0)

  /** `start()`: the mismatch count restarts; the reference is kept. */
  function Started(s: State): State {
    s.(isActive := true, wrongPersonCount := 0)
  }

  /** `stop()`: only the flag changes. */
  function Stopped(s: State): State {
    s.(isActive := false)
  }

  /** What `setReference` was handed: the faces found in the frame, or a thrown error. */
  datatype Capture = Captured(faces: seq<Face>) | CaptureFailed

  datatype ReferenceOutcome = ReferenceOutcome(next: State, ok: bool, notice: Option<Notice>)

  /** `setReference(video)`: succeeds exactly when one face is seen, and then keeps its descriptor. */
  function CaptureReference(s: State, c: Capture): (r: ReferenceOutcome)
    ensures r.ok <==> c.Captured? && |c.faces| == 1
    ensures r.ok ==> r.next == s.(reference := Some(c.faces[0].descriptor)) && r.notice == Some(ReferenceSet)
    ensures !r.ok ==> r.next == s && r.notice == None
  {
    match c
    case CaptureFailed => ReferenceOutcome(s, false, None)
    case Captured(faces) =>
      if |faces| == 1 then ReferenceOutcome(s.(reference := Some(faces[0].descriptor)), true, Some(ReferenceSet))
      else ReferenceOutcome(s, false, None)
  }

  /** Similarity of the only face of a frame to the reference. */
  function Similarity(reference: Descriptor, d: Detections, metric: Metric): real
    requires FaceCount(d) == 1
  {
    1.0 - metric(reference, d.value[0].descriptor)
  }

  datatype Outcome = Outcome(next: State, report: Report, violation: Option<Notice>)

  /** `verifyIdentity(detections)`, with the descriptor distance supplied by `metric`. */
  function Verify(s: State, d: Detections, metric: Metric): (o: Outcome)
    ensures o.next.isActive == s.isActive && o.next.reference == s.reference
    ensures o.report == NoReference <==> !s.isActive || s.reference.None?
    ensures o.report == NoFace <==> s.isActive && s.reference.Some? && FaceCount(d) == 0
    ensures o.report == MultipleFaces <==> s.isActive && s.reference.Some? && FaceCount(d) > 1
    ensures !(o.report.CorrectPerson? || o.report.WrongPerson?) ==> o.next == s && o.violation == None
    ensures s.isActive && s.reference.Some? && FaceCount(d) == 1 ==>
      var sim := Similarity(s.reference.value, d, metric);
      && (o.report == CorrectPerson(sim) <==> sim >= SimilarityThreshold)
      && (o.report == WrongPerson(sim) <==> sim < SimilarityThreshold)
    ensures o.report.CorrectPerson? ==> o.next.wrongPersonCount == 0
    ensures o.report.WrongPerson? ==> o.next.wrongPersonCount == s.wrongPersonCount + 1
    ensures o.violation.Some? <==> o.report.WrongPerson? && s.wrongPersonCount + 1 >= WrongPersonThreshold
    ensures o.violation.Some? ==> o.violation.value == WrongPersonSeen(o.report.similarity)
  {
    if !s.isActive || s.reference.None? then Outcome(s, NoReference, None)
    else if FaceCount(d) == 0 then Outcome(s, NoFace, None)
    else if FaceCount(d) > 1 then Outcome(s, MultipleFaces, None)
    else
      var sim := Similarity(s.reference.value, d, metric);
      if sim >= SimilarityThreshold then Outcome(s.(wrongPersonCount := 0), CorrectPerson(sim), None)
      else
        var count := s.wrongPersonCount + 1;
        Outcome(s.(wrongPersonCount := count), WrongPerson(sim),
                if count >= WrongPersonThreshold then Some(WrongPersonSeen(sim)) else None)
  }

  function Apply(s: State, e: Event<Detections>, metric: Metric): Outcome {
    match e
    case Begin(_) => Outcome(Started(s), NoReference, None)
    case End => Outcome(Stopped(s), NoReference, None)
    case Tick(d, _) => Verify(s, d, metric)
  }

  /** The state after a session history. */
  function Run(s: State, es: seq<Event<Detections>>, metric: Metric): State
    decreases |es|
  {
    if es == [] then s else Apply(Run(s, es[..|es| - 1], metric), es[|es| - 1], metric).next
  }

  /** How a frame compares with the reference; frames without exactly one face are inconclusive. */
  datatype Verdict = Inconclusive | Match | Mismatch

  function Judge(reference: Descriptor, d: Detections, metric: Metric): Verdict {
    if FaceCount(d) != 1 then Inconclusive
    else if Similarity(reference, d, metric) >= SimilarityThreshold then Match
    else Mismatch
  }

  /** Mismatching ticks since the last matching one, inconclusive ticks skipped. */
  function MismatchStreak(reference: Descriptor, es: seq<Event<Detections>>, metric: Metric): nat
    requires forall i :: 0 <= i < |es| ==> es[i].Tick?
    decreases |es|
  {
    if es == [] then 0
    else
      var before := MismatchStreak(reference, es[..|es| - 1], metric);
      match Judge(reference, es[|es| - 1].input, metric)
      case Inconclusive => before
      case Match => 0
      case Mismatch => before + 1
  }

  /** Whether some tick of the history matched. */
  predicate SawMatch(reference: Descriptor, es: seq<Event<Detections>>, metric: Metric)
    requires forall i :: 0 <= i < |es| ==> es[i].Tick?
  {
    exists i :: 0 <= i < |es| && Judge(reference, es[i].input, metric) == Match
  }

  /**
   * Within a session the mismatch count is the current mismatch streak: frames with
   * no face or several faces neither extend nor break it, and only a match clears it.
   */
  lemma {:induction false} CountIsMismatchStreak(s: State, es: seq<Event<Detections>>, metric: Metric)
    requires s.isActive && s.reference.Some?
    requires forall i :: 0 <= i < |es| ==> es[i].Tick?
    ensures Run(s, es, metric).isActive && Run(s, es, metric).reference == s.reference
    ensures Run(s, es, metric).wrongPersonCount
      == MismatchStreak(s.reference.value, es, metric)
         + (if SawMatch(s.reference.value, es, metric) then 0 else s.wrongPersonCount)
    decreases |es|
  {
    if es != [] {
      var before := es[..|es| - 1];
      CountIsMismatchStreak(s, before, metric);
      var last := es[|es| - 1];
      var ref := s.reference.value;
      if Judge(ref, last.input, metric) == Match {
        assert SawMatch(ref, es, metric);
      } else {
        assert SawMatch(ref, es, metric) <==> SawMatch(ref, before, metric) by {
          if SawMatch(ref, es, metric) {
            var i :| 0 <= i < |es| && Judge(ref, es[i].input, metric) == Match;
            assert i < |before| && before[i] == es[i];
          }
          if SawMatch(ref, before, metric) {
            var i :| 0 <= i < |before| && Judge(ref, before[i].input, metric) == Match;
            assert es[i] == before[i];
          }
        }
      }
    }
  }

  /**
   * No one-shot flag: after `start()`, a frame raises WRONG_PERSON exactly when it
   * mismatches and brings the streak to 5 or more, so the first violation comes with
   * the fifth mismatch in a row and every further mismatch raises again.
   */
  lemma ViolationIffStreakAtLeastFive(s: State, es: seq<Event<Detections>>, d: Detections, t: int, metric: Metric)
    requires s.reference.Some?
    requires forall i :: 0 <= i < |es| ==> es[i].Tick?
    ensures var all := es + [Tick(d, t)];
      Verify(Run(Started(s), es, metric), d, metric).violation.Some?
      <==> Judge(s.reference.value, d, metric) == Mismatch
           && MismatchStreak(s.reference.value, all, metric) >= WrongPersonThreshold
  {
    CountIsMismatchStreak(Started(s), es, metric);
    var all := es + [Tick(d, t)];
    assert all[..|all| - 1] == es;
  }

  class IdentityVerification {
    var isActive: bool
    var referenceDescriptor: Option<Descriptor>
    var wrongPersonCount: nat

    function Snapshot(): State
      reads this
    {
      State(isActive, referenceDescriptor, wrongPersonCount)
    }

    constructor ()
      ensures Snapshot() == Initial
    {
      isActive := false;
      referenceDescriptor := None;
      wrongPersonCount := 0;
    }

    method Start()
      modifies this
      ensures Snapshot() == Started(old(Snapshot()))
    {
      isActive := true;
      wrongPersonCount := 0;
    }

    method Stop()
      modifies this
      ensures Snapshot() == Stopped(old(Snapshot()))
    {
      isActive := false;
    }

    /** The explicit capture; `notice` is the REFERENCE_SET event logged on success. */
    method SetReference(c: Capture) returns (ok: bool, notice: Option<Notice>)
      modifies this
      ensures ReferenceOutcome(Snapshot(), ok, notice) == CaptureReference(old(Snapshot()), c)
    {
      if c.CaptureFailed? {
        return false, None;
      }
      var detections := c.faces;
      if |detections| == 1 {
        referenceDescriptor := Some(detections[0].descriptor);
        return true, Some(ReferenceSet);
      } else {
        return false, None;
      }
    }

    /** One frame; `violation` is the WRONG_PERSON notice logged, if any. */
    method VerifyIdentity(d: Detections, metric: Metric) returns (r: Report, violation: Option<Notice>)
      modifies this
      ensures Outcome(Snapshot(), r, violation) == Verify(old(Snapshot()), d, metric)
    {
      violation := None;
      if !isActive || referenceDescriptor.None? {
        return NoReference, None;
      }
      if d.None? || |d.value| == 0 {
        return NoFace, None;
      }
      if |d.value| > 1 {
        return MultipleFaces, None;
      }
      var distance := metric(referenceDescriptor.value, d.value[0].descriptor);
      var similarity := 1.0 - distance;
      if similarity >= SimilarityThreshold {
        wrongPersonCount := 0;
        r := CorrectPerson(similarity);
      } else {
        wrongPersonCount := wrongPersonCount + 1;
        if wrongPersonCount >= WrongPersonThreshold {
          violation := Some(WrongPersonSeen(similarity));
        }
        r := WrongPerson(similarity);
      }
    }
  }
}
