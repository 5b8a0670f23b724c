/** Eye and mouth aspect ratios computed from a face's landmark list. */
module Geometry {
  import opened Wrappers

  /** A landmark as the detector reports it, normalised to the image size. */
  datatype Landmark = Landmark(x: real, y: real)

  /** A landmark scaled to pixel coordinates. */
  datatype Pixel = Pixel(x: real, y: real)

  /** Euclidean distance is kept abstract: any non-negative function of two
      pixels may stand for it. */
  type Distance = d: (Pixel, Pixel) -> real | forall p, q :: d(p, q) >= 0.0
    witness (p: Pixel, q: Pixel) => 0.0

  const LeftEye: seq<nat> := [33, 160, 158, 133, 153, 144]
  const RightEye: seq<nat> := [362, 385, 387, 263, 373, 380]
  const TopLip: nat := 13
  const BottomLip: nat := 14
  const LeftMouth: nat := 78
  const RightMouth: nat := 308
  const Mouth: seq<nat> := [TopLip, BottomLip, LeftMouth, RightMouth]

  /** Guard against a zero denominator, `1e-8`. */
  const Epsilon: real := 0.00000001

  function Denormalize(l: Landmark, width: int, height: int): Pixel {
    Pixel(l.x * width as real, l.y * height as real)
  }

  /** Every index names a landmark of the list. */
  predicate InRange(landmarks: seq<Landmark>, idxs: seq<nat>) {
    forall k :: 0 <= k < |idxs| ==> idxs[k] < |landmarks|
  }

  function MaxIndex(idxs: seq<nat>): nat
    requires |idxs| > 0
  {
    if |idxs| == 1 then idxs[0]
    else var m := MaxIndex(idxs[1..]); if idxs[0] < m then m else idxs[0]
  }

  /** A list of indices is in range exactly when the landmark list is longer
      than its largest index. */
  lemma {:induction false} InRangeIffLongerThanMax(landmarks: seq<Landmark>, idxs: seq<nat>)
    requires |idxs| > 0
    ensures InRange(landmarks, idxs) <==> MaxIndex(idxs) < |landmarks|
  {
    if |idxs| > 1 {
      InRangeIffLongerThanMax(landmarks, idxs[1..]);
      assert forall k :: 1 <= k < |idxs| ==> idxs[k] == idxs[1..][k - 1];
    }
  }

  /** The eye points in pixel space, or None as soon as one index is out of
      range (the early `return 0.0f` inside the `map`). */
  function EyePoints(landmarks: seq<Landmark>, idxs: seq<nat>, width: int, height: int): (r: Option<seq<Pixel>>)
    ensures r.Some? <==> InRange(landmarks, idxs)
    ensures r.Some? ==> |r.value| == |idxs|
    ensures r.Some? ==> forall k :: 0 <= k < |idxs| ==>
      r.value[k] == Denormalize(landmarks[idxs[k]], width, height)
    decreases |idxs|
  {
    if idxs == [] then Some([])
    else if idxs[0] >= |landmarks| then None
    else
      match EyePoints(landmarks, idxs[1..], width, height)
      case None => None
      case Some(rest) => Some([Denormalize(landmarks[idxs[0]], width, height)] + rest)
  }

  /** Eye aspect ratio of one eye; 0.0 when one of its six indices is out of range. */
  function EarForEye(landmarks: seq<Landmark>, eye: seq<nat>, width: int, height: int, dist: Distance): (r: real)
    requires |eye| == 6
    ensures r >= 0.0
    ensures !InRange(landmarks, eye) ==> r == 0.0
  {
    match EyePoints(landmarks, eye, width, height)
    case None => 0.0
    case Some(p) =>
      (dist(p[1], p[5]) + dist(p[2], p[4])) / (2.0 * dist(p[0], p[3]) + Epsilon)
  }

  /** The mean of the two eyes' aspect ratios. */
  function ComputeEAR(landmarks: seq<Landmark>, width: int, height: int, dist: Distance): (r: real)
    ensures r >= 0.0
  {
    (EarForEye(landmarks, LeftEye, width, height, dist)
      + EarForEye(landmarks, RightEye, width, height, dist)) / 2.0
  }

  /** Mouth aspect ratio; 0.0 when one of the four mouth indices is out of range. */
  function ComputeMAR(landmarks: seq<Landmark>, width: int, height: int, dist: Distance): (r: real)
    ensures r >= 0.0
    ensures !InRange(landmarks, Mouth) ==> r == 0.0
  {
    if !InRange(landmarks, Mouth) then 0.0
    else
      assert Mouth[0] < |landmarks| && Mouth[1] < |landmarks| && Mouth[2] < |landmarks| && Mouth[3] < |landmarks|;
      var top := Denormalize(landmarks[TopLip], width, height);
      var bottom := Denormalize(landmarks[BottomLip], width, height);
      var left := Denormalize(landmarks[LeftMouth], width, height);
      var right := Denormalize(landmarks[RightMouth], width, height);
      dist(top, bottom) / (dist(left, right) + Epsilon)
  }

  /** Which eye and mouth computations fall back to 0.0, by landmark count:
      the left eye needs more than 160 landmarks, the mouth more than 308,
      the right eye more than 387. With only the left eye in range, the EAR
      is half that eye's ratio, since the missing eye still counts as 0.0. */
  lemma LandmarkFallback(landmarks: seq<Landmark>, width: int, height: int, dist: Distance)
    ensures InRange(landmarks, LeftEye) <==> |landmarks| > 160
    ensures InRange(landmarks, RightEye) <==> |landmarks| > 387
    ensures InRange(landmarks, Mouth) <==> |landmarks| > 308
    ensures |landmarks| <= 160 ==> ComputeEAR(landmarks, width, height, dist) == 0.0
    ensures 160 < |landmarks| <= 387 ==>
      ComputeEAR(landmarks, width, height, dist) == EarForEye(landmarks, LeftEye, width, height, dist) / 2.0
    ensures |landmarks| <= 308 ==> ComputeMAR(landmarks, width, height, dist) == 0.0
  {
    InRangeIffLongerThanMax(landmarks, LeftEye);
    InRangeIffLongerThanMax(landmarks, RightEye);
    InRangeIffLongerThanMax(landmarks, Mouth);
    assert MaxIndex(Mouth) == 308 by {
      assert Mouth == [13, 14, 78, 308];
      assert Mouth[1..] == [14, 78, 308] && Mouth[2..] == [78, 308] && Mouth[3..] == [308];
      assert MaxIndex(Mouth[2..]) == 308;
      assert MaxIndex(Mouth[1..]) == 308;
    }
  }
}
