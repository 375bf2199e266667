/**
  Landmark extraction: from the raw result of a pose detector to the six
  named body points of one photograph.

  The detector's result object is duck-typed in the program (attributes are
  probed with `hasattr`/`getattr`); here its possible shapes are datatypes.
 */
module Landmarks {
  import opened Wrappers
  import opened Geometry

  /** Positional indices of the four raw points used, in the 33-point body scheme. */
  const LeftShoulder: nat := 11
  const RightShoulder: nat := 12
  const LeftHip: nat := 23
  const RightHip: nat := 24

  /** Fractions of the way from the shoulder line to the hip line. */
  const RatioMidBust: real := 0.44    // nipple line, the fullest point
  const RatioUnderBust: real := 0.53  // inframammary fold, the band line

  /** One raw detector point; any coordinate may be missing. */
  datatype RawLandmark = RawLandmark(x: Option<real>, y: Option<real>, z: Option<real>)

  /** What the `pose_landmarks` attribute of a detector result can hold. */
  datatype PoseShape =
    | PoseList(poses: seq<seq<RawLandmark>>)  // current API: a list of poses, each a list of points
    | LegacyPose(landmark: seq<RawLandmark>)  // legacy API: one pose with a `landmark` sequence
    | Unrecognised                            // anything else, `None` included

  /** A detector result for one photograph. */
  datatype PoseResults =
    | NoResults                                // the result itself is `None`
    | Results(poseLandmarks: Option<PoseShape>) // `None` here: no `pose_landmarks` attribute

  /** The six named points of one photograph. */
  datatype ExtractedLandmarks = ExtractedLandmarks(
    shoulderLeft: LandmarkCoords,
    shoulderRight: LandmarkCoords,
    midBust: LandmarkCoords,
    underBust: LandmarkCoords,
    hipLeft: LandmarkCoords,
    hipRight: LandmarkCoords)

  /**
    The point list of the detected pose: the first pose of a non-empty pose
    list, or the `landmark` sequence of a legacy pose; absent otherwise.
   */
  function GetLandmarksList(results: PoseResults): (list: Option<seq<RawLandmark>>)
    ensures list.Some? <==>
      results.Results? && results.poseLandmarks.Some? &&
      match results.poseLandmarks.value
      case PoseList(poses) => |poses| > 0
      case LegacyPose(_) => true
      case Unrecognised => false
    ensures results.Results? && results.poseLandmarks.Some? && results.poseLandmarks.value.PoseList? && list.Some? ==>
      list.value == results.poseLandmarks.value.poses[0]
    ensures results.Results? && results.poseLandmarks.Some? && results.poseLandmarks.value.LegacyPose? ==>
      list == Some(results.poseLandmarks.value.landmark)
  {
    match results
    case NoResults => None
    case Results(None) => None
    case Results(Some(shape)) =>
      match shape
      case PoseList(poses) => if |poses| > 0 then Some(poses[0]) else None
      case LegacyPose(landmark) => Some(landmark)
      case Unrecognised => None
  }

  /** A raw point is usable when it has both an `x` and a `y`. */
  predicate Usable(p: RawLandmark) {
    p.x.Some? && p.y.Some?
  }

  /** The point at `index` is present in `list` and usable. */
  predicate Available(list: seq<RawLandmark>, index: nat) {
    index < |list| && Usable(list[index])
  }

  /**
    The point at `index` as coordinates: absent when the index is out of range
    or the point lacks `x` or `y`; a missing `z` reads as 0.
   */
  function LandmarkFromList(list: seq<RawLandmark>, index: nat): (p: Option<LandmarkCoords>)
    ensures p.Some? <==> Available(list, index)
    ensures p.Some? ==> p.value.x == list[index].x.value && p.value.y == list[index].y.value
    ensures p.Some? && list[index].z.Some? ==> p.value.z == list[index].z.value
    ensures p.Some? && list[index].z.None? ==> p.value.z == 0.0
  {
    if index >= |list| then None
    else
      var raw := list[index];
      if raw.x.None? || raw.y.None? then None
      else Some(LandmarkCoords(raw.x.value, raw.y.value, if raw.z.Some? then raw.z.value else 0.0))
  }

  /** All four raw points the extraction needs are available. */
  predicate HasRequiredPoints(list: seq<RawLandmark>) {
    Available(list, LeftShoulder) && Available(list, RightShoulder) &&
    Available(list, LeftHip) && Available(list, RightHip)
  }

  /** The six named points built from the four raw ones: the raw points kept, the bust and band points derived. */
  function Derive(shoulderLeft: LandmarkCoords, shoulderRight: LandmarkCoords,
                  hipLeft: LandmarkCoords, hipRight: LandmarkCoords): (e: ExtractedLandmarks)
    ensures e.shoulderLeft == shoulderLeft && e.shoulderRight == shoulderRight
    ensures e.hipLeft == hipLeft && e.hipRight == hipRight
  {
    var shoulderMid := Midpoint(shoulderLeft, shoulderRight);
    var hipMid := Midpoint(hipLeft, hipRight);
    ExtractedLandmarks(
      shoulderLeft, shoulderRight,
      InterpolateVertical(shoulderMid, hipMid, RatioMidBust),
      InterpolateVertical(shoulderMid, hipMid, RatioUnderBust),
      hipLeft, hipRight)
  }

  /**
    The six named points of one photograph, or absent. Extraction is
    all-or-nothing: it is absent exactly when no point list is found or one of
    the four required raw points is missing or unusable.
   */
  function ExtractLandmarks(results: PoseResults): (e: Option<ExtractedLandmarks>)
    ensures e.Some? <==> GetLandmarksList(results).Some? && HasRequiredPoints(GetLandmarksList(results).value)
    ensures e.Some? ==>
      var list := GetLandmarksList(results).value;
      && Some(e.value.shoulderLeft) == LandmarkFromList(list, LeftShoulder)
      && Some(e.value.shoulderRight) == LandmarkFromList(list, RightShoulder)
      && Some(e.value.hipLeft) == LandmarkFromList(list, LeftHip)
      && Some(e.value.hipRight) == LandmarkFromList(list, RightHip)
  {
    match GetLandmarksList(results)
    case None => None
    case Some(list) =>
      var shoulderLeft := LandmarkFromList(list, LeftShoulder);
      var shoulderRight := LandmarkFromList(list, RightShoulder);
      var hipLeft := LandmarkFromList(list, LeftHip);
      var hipRight := LandmarkFromList(list, RightHip);
      if shoulderLeft.None? || shoulderRight.None? || hipLeft.None? || hipRight.None? then None
      else Some(Derive(shoulderLeft.value, shoulderRight.value, hipLeft.value, hipRight.value))
  }

  /** The midpoint of the two shoulders of an extracted set. */
  function ShoulderMid(e: ExtractedLandmarks): LandmarkCoords {
    Midpoint(e.shoulderLeft, e.shoulderRight)
  }

  /** The midpoint of the two hips of an extracted set. */
  function HipMid(e: ExtractedLandmarks): LandmarkCoords {
    Midpoint(e.hipLeft, e.hipRight)
  }

  /**
    The derived points of an extraction lie on the torso axis, from the
    shoulder midpoint towards the hip midpoint, at the two calibration
    fractions.
   */
  lemma ExtractedBustPoints(results: PoseResults)
    requires ExtractLandmarks(results).Some?
    ensures var e := ExtractLandmarks(results).value;
      && e.midBust == InterpolateVertical(ShoulderMid(e), HipMid(e), RatioMidBust)
      && e.underBust == InterpolateVertical(ShoulderMid(e), HipMid(e), RatioUnderBust)
  {
  }

  /**
    Down the image (y grows downwards), the bust line and then the band line
    come between the shoulder line and the hip line.
   */
  lemma BustPointsOrdered(results: PoseResults)
    requires ExtractLandmarks(results).Some?
    requires ShoulderMid(ExtractLandmarks(results).value).y <= HipMid(ExtractLandmarks(results).value).y
    ensures var e := ExtractLandmarks(results).value;
      ShoulderMid(e).y <= e.midBust.y <= e.underBust.y <= HipMid(e).y
  {
  }

  /**
    The bust-to-band distance of an extraction is 0.09 (the gap between the two
    fractions) of the distance from the shoulder midpoint to the hip midpoint.
   */
  lemma BustSpan(e: ExtractedLandmarks, sqrt: real -> real)
    requires IsSquareRoot(sqrt)
    requires e == Derive(e.shoulderLeft, e.shoulderRight, e.hipLeft, e.hipRight)
    ensures Distance(e.midBust, e.underBust, sqrt) == (RatioUnderBust - RatioMidBust) * Distance(ShoulderMid(e), HipMid(e), sqrt)
    ensures e.midBust == e.underBust <==> ShoulderMid(e) == HipMid(e)
  {
    InterpolationSpan(ShoulderMid(e), HipMid(e), RatioMidBust, RatioUnderBust, sqrt);
  }

  /** Every extraction is derived from its own four raw points. */
  lemma ExtractedIsDerived(results: PoseResults)
    requires ExtractLandmarks(results).Some?
    ensures var e := ExtractLandmarks(results).value;
      e == Derive(e.shoulderLeft, e.shoulderRight, e.hipLeft, e.hipRight)
  {
  }

  /**
    The two result shapes are equivalent: a one-pose list and a legacy pose
    holding the same points give the same extraction, and only the first pose
    of a longer list is read.
   */
  lemma ShapeEquivalence(points: seq<RawLandmark>, others: seq<seq<RawLandmark>>)
    ensures ExtractLandmarks(Results(Some(PoseList([points])))) == ExtractLandmarks(Results(Some(LegacyPose(points))))
    ensures ExtractLandmarks(Results(Some(PoseList([points] + others)))) == ExtractLandmarks(Results(Some(PoseList([points]))))
  {
    assert ([points] + others)[0] == points;
  }

  /** A result with no detected pose extracts to absent, whatever its shape. */
  lemma NoPoseIsAbsent()
    ensures ExtractLandmarks(NoResults).None?
    ensures ExtractLandmarks(Results(None)).None?
    ensures ExtractLandmarks(Results(Some(PoseList([])))).None?
    ensures ExtractLandmarks(Results(Some(Unrecognised))).None?
  {
  }
}
