/**
  The fit pipeline: both photographs' detector results and the weeks
  postpartum in, one fit result out. Extraction failing on either photograph
  is a normal outcome, reported through the `landmarksDetected` flag.
 */
module Fit {
  import opened Wrappers
  import opened Geometry
  import opened Landmarks
  import opened Volume
  import opened Growth
  import opened Sizing

  datatype BraFitResult = BraFitResult(
    volumeEstimate: real,
    volumeAdjusted: real,
    recommendedSize: string,
    landmarksDetected: bool)

  /** The result when either photograph yields no landmark set. */
  const NotDetected := BraFitResult(0.0, 0.0, "", false)

  /**
    The full pipeline. When either extraction is absent the result is the
    all-zero, empty-label, not-detected result. Otherwise the estimate comes
    from both landmark sets, the adjusted volume from the estimate and the
    weeks postpartum, and the size from the adjusted volume. The flag is
    authoritative: it is set exactly when the size label is not empty.
   */
  function ComputeBraFit(frontPoseResults: PoseResults, sidePoseResults: PoseResults,
                         weeksPostpartum: int, sqrt: real -> real): (r: BraFitResult)
    requires IsSquareRoot(sqrt)
    ensures r.landmarksDetected <==> ExtractLandmarks(frontPoseResults).Some? && ExtractLandmarks(sidePoseResults).Some?
    ensures !r.landmarksDetected ==> r == NotDetected
    ensures r.landmarksDetected ==>
      && r.volumeEstimate == VolumeEstimate(ExtractLandmarks(frontPoseResults).value, ExtractLandmarks(sidePoseResults).value, sqrt)
      && r.volumeAdjusted == ApplyGrowthCurve(r.volumeEstimate, weeksPostpartum)
      && r.recommendedSize == VolumeToBraSize(r.volumeAdjusted)
      && r.recommendedSize in Labels(VolumeSizeMap)
    ensures r.landmarksDetected <==> r.recommendedSize != ""
    ensures 0.0 <= r.volumeEstimate <= r.volumeAdjusted
  {
    var frontLandmarks := ExtractLandmarks(frontPoseResults);
    var sideLandmarks := ExtractLandmarks(sidePoseResults);
    if frontLandmarks.None? || sideLandmarks.None? then
      NotDetected
    else
      var volumeEstimate := VolumeEstimate(frontLandmarks.value, sideLandmarks.value, sqrt);
      var volumeAdjusted := ApplyGrowthCurve(volumeEstimate, weeksPostpartum);
      var recommendedSize := VolumeToBraSize(volumeAdjusted);
      BraFitResult(volumeEstimate, volumeAdjusted, recommendedSize, true)
  }

  /**
    Either photograph failing extraction fails the whole fit, whatever the
    other photograph and the weeks postpartum.
   */
  lemma AbsentPath(frontPoseResults: PoseResults, sidePoseResults: PoseResults, weeksPostpartum: int, sqrt: real -> real)
    requires IsSquareRoot(sqrt)
    requires ExtractLandmarks(frontPoseResults).None? || ExtractLandmarks(sidePoseResults).None?
    ensures ComputeBraFit(frontPoseResults, sidePoseResults, weeksPostpartum, sqrt) == BraFitResult(0.0, 0.0, "", false)
  {
  }

  /**
    Both result shapes give the same fit: one-pose lists and legacy poses
    holding the same points are interchangeable, for either photograph.
   */
  lemma PipelineShapeEquivalence(front: seq<RawLandmark>, side: seq<RawLandmark>, weeksPostpartum: int, sqrt: real -> real)
    requires IsSquareRoot(sqrt)
    ensures ComputeBraFit(Results(Some(PoseList([front]))), Results(Some(PoseList([side]))), weeksPostpartum, sqrt)
         == ComputeBraFit(Results(Some(LegacyPose(front))), Results(Some(LegacyPose(side))), weeksPostpartum, sqrt)
  {
    ShapeEquivalence(front, []);
    ShapeEquivalence(side, []);
  }

  /**
    A degenerate pose is not an error: with both photographs detected but the
    front shoulders coinciding, both volumes are zero and the size is the
    first of the table.
   */
  lemma DegeneratePose(frontPoseResults: PoseResults, sidePoseResults: PoseResults, weeksPostpartum: int, sqrt: real -> real)
    requires IsSquareRoot(sqrt)
    requires ExtractLandmarks(frontPoseResults).Some? && ExtractLandmarks(sidePoseResults).Some?
    requires ExtractLandmarks(frontPoseResults).value.shoulderLeft == ExtractLandmarks(frontPoseResults).value.shoulderRight
    ensures ComputeBraFit(frontPoseResults, sidePoseResults, weeksPostpartum, sqrt) == BraFitResult(0.0, 0.0, "32A", true)
  {
    SizeBoundaries(0.0);
  }

  /**
    Early postpartum never gives a smaller size: for the same photographs, a
    week count before 6 lands on the same table entry or a later one than a
    week count from 6 on.
   */
  lemma EngorgementNeverLowersSize(frontPoseResults: PoseResults, sidePoseResults: PoseResults,
                                   earlyWeeks: int, lateWeeks: int, sqrt: real -> real)
    requires IsSquareRoot(sqrt)
    requires earlyWeeks < EngorgementWeeks <= lateWeeks
    ensures var early := ComputeBraFit(frontPoseResults, sidePoseResults, earlyWeeks, sqrt);
            var late := ComputeBraFit(frontPoseResults, sidePoseResults, lateWeeks, sqrt);
            FirstFit(VolumeSizeMap, late.volumeAdjusted) <= FirstFit(VolumeSizeMap, early.volumeAdjusted)
  {
    var early := ComputeBraFit(frontPoseResults, sidePoseResults, earlyWeeks, sqrt);
    var late := ComputeBraFit(frontPoseResults, sidePoseResults, lateWeeks, sqrt);
    SizeMonotonic(late.volumeAdjusted, early.volumeAdjusted);
  }

  /**
    The worked example: front shoulder span 2, side bust-to-band and shoulder
    spans 1, week 10. The estimate is 960.96, left unadjusted, and above every
    threshold of the table.
   */
  lemma PipelineExample(frontPoseResults: PoseResults, sidePoseResults: PoseResults, sqrt: real -> real)
    requires IsSquareRoot(sqrt)
    requires ExtractLandmarks(frontPoseResults).Some? && ExtractLandmarks(sidePoseResults).Some?
    requires var front := ExtractLandmarks(frontPoseResults).value;
             Distance(front.shoulderLeft, front.shoulderRight, sqrt) == 2.0
    requires var side := ExtractLandmarks(sidePoseResults).value;
             && Distance(side.midBust, side.underBust, sqrt) == 1.0
             && Distance(side.shoulderLeft, side.shoulderRight, sqrt) == 1.0
    ensures ComputeBraFit(frontPoseResults, sidePoseResults, 10, sqrt) == BraFitResult(960.96, 960.96, CatchAllLabel, true)
  {
    VolumeExample(ExtractLandmarks(frontPoseResults).value, ExtractLandmarks(sidePoseResults).value, sqrt);
    SizeBoundaries(960.96);
  }
}
