/**
 * What the face detector hands to the monitors each frame. The detector itself
 * (face-api's detectAllFaces with landmarks and descriptors) is foreign code and
 * is not part of this model; its output is an input here.
 */
module Perception {
  import opened Common

  /** A landmark position in image coordinates. */
  datatype Point = Point(x: real, y: real)

  /** The landmark groups the gaze heuristic reads. */
  datatype Landmarks = Landmarks(leftEye: seq<Point>, rightEye: seq<Point>, nose: seq<Point>, mouth: seq<Point>)

  /**
   * The 68-point landmark model always reports 6 points per eye, 9 nose points and
   * 20 mouth points, so every group the heuristic averages is non-empty and the nose
   * tip (index 3) exists.
   */
  predicate Complete(l: Landmarks) {
    |l.leftEye| > 0 && |l.rightEye| > 0 && |l.nose| > 3 && |l.mouth| > 0
  }

  type FaceLandmarks = l: Landmarks | Complete(l)
    witness Landmarks([Point(0.0, 0.0)], [Point(0.0, 0.0)],
                      [Point(0.0, 0.0), Point(0.0, 0.0), Point(0.0, 0.0), Point(0.0, 0.0)],
                      [Point(0.0, 0.0)])

  /** An identity descriptor (a fixed-length embedding vector). */
  type Descriptor = seq<real>

  /** One face observation of one frame. */
  datatype Face = Face(landmarks: Option<FaceLandmarks>, descriptor: Descriptor)

  /** The detector's answer for one frame; `None` is a missing (null/undefined) list. */
  type Detections = Option<seq<Face>>

  /** Number of faces, a missing list counting as none. */
  function FaceCount(d: Detections): (n: nat)
    ensures n == 0 <==> d.None? || d.value == []
  {
    if d.None? then 0 else |d.value|
  }
}
