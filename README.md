# Bra Fit Finder: a Dafny model of the size-estimation pipeline

This project models the domain logic of Bra Fit Finder, which estimates a
nursing-bra size from a front and a side photograph. A pose detector (outside
the model) reports body landmarks for each photograph. The pipeline then:

1. normalises the detector's result, which comes in two shapes: a list of
   poses (the first one is used) or a legacy pose object with a `landmark`
   sequence;
2. extracts the two shoulders and the two hips (points 11, 12, 23 and 24 of
   the 33-point body scheme), all or nothing, and derives the bust line
   (44% of the way from the shoulder midpoint to the hip midpoint) and the
   band line (53%);
3. estimates a volume with a hemi-ellipsoid formula from the front shoulder
   span, the side bust-to-band distance and the side shoulder span;
4. raises the volume by 15% before week 6 postpartum;
5. maps the adjusted volume to a size label through an ordered threshold
   table with inclusive upper bounds and a catch-all last entry;
6. returns a fit result whose `landmarksDetected` flag says whether both
   photographs gave landmarks.

Everything in the core is pure, so the model is datatypes, functions and
lemmas. Python floats are `real`. The one loop in the source, the scan of
the size table, is the recursive function `Sizing.FirstFit`.

Files, one module each:

- `wrappers.dfy` — `Option`.
- `geometry.dfy` — landmark points, midpoint, interpolation, distance.
- `landmarks.dfy` — detector result shapes, normalisation, point reading,
  extraction.
- `volume.dfy` — the hemi-ellipsoid volume estimate and its constants.
- `growth.dfy` — the postpartum growth adjustment.
- `sizing.dfy` — the size table and the first-fit scan.
- `fit.dfy` — the pipeline and its result record.

The square root in the distance (`math.sqrt`) is not modelled. Every function
that needs a distance takes the root as a parameter `sqrt`. It requires only
`Geometry.IsSquareRoot(sqrt)`: for every non-negative `s`, `sqrt(s)` is
non-negative and squares back to `s`. Every property below holds for any
such function.

## Model

| member | source | states |
|---|---|---|
| `Geometry.Midpoint` | logic.py:76-82 | the midpoint is as far from `a` as `b` is from it, componentwise; the midpoint of a point with itself is that point |
| `Geometry.MidpointSymmetric` | logic.py:76-82 | the midpoint does not depend on argument order |
| `Geometry.MidpointExample` | logic.py:76-82 | shoulders at (0,0,0) and (1,0,0) meet at (0.5,0,0) |
| `Geometry.InterpolateVertical` | logic.py:85-98 | fraction 0 gives the shoulder midpoint, fraction 1 the hip midpoint, and coinciding ends give that point |
| `Geometry.InterpolationExample` | logic.py:85-98 | between (0,0,0) and (0,1,0) the 0.44 and 0.53 points are (0,0.44,0) and (0,0.53,0) |
| `Geometry.InterpolationSpan` | logic.py:85-98 | two interpolations between the same ends are (g − f) times the end-to-end distance apart |
| `Geometry.SquaredDistance` | logic.py:103 | the squared Euclidean distance is non-negative and zero exactly when the points coincide |
| `Geometry.Distance` | logic.py:101-103 | the distance is non-negative, squares to the squared distance, and is zero exactly when the points coincide |
| `Geometry.DistanceSymmetric` | logic.py:101-103 | the distance does not depend on argument order |
| `Geometry.SquaredDistanceExample` | logic.py:103 | a span of 2 along one axis has squared distance 4 |
| `Geometry.DistanceExample` | logic.py:101-103 | a span of 2 along one axis has distance 2 |
| `Landmarks.GetLandmarksList` | logic.py:48-60 | a point list exists exactly for a non-empty pose list (its first pose) or a legacy pose (its `landmark` sequence); a missing result, a missing `pose_landmarks`, an empty list or any other shape gives absent |
| `Landmarks.LandmarkFromList` | logic.py:63-73 | a point is read exactly when its index is in range and it has `x` and `y`; `x` and `y` are kept, and a missing `z` becomes 0 |
| `Landmarks.Derive` | logic.py:139-155 | the four raw points are kept unchanged in the extracted set |
| `Landmarks.ExtractLandmarks` | logic.py:123-155 | extraction succeeds exactly when a point list exists and all four required points are readable; the shoulders and hips are then the points read at 11, 12, 23 and 24 |
| `Landmarks.ExtractedBustPoints` | logic.py:139-146 | the bust and band points are the interpolations at 0.44 and 0.53 between the shoulder and hip midpoints |
| `Landmarks.BustPointsOrdered` | logic.py:139-146 | when the shoulders are above the hips, the bust line and then the band line lie between them |
| `Landmarks.BustSpan` | logic.py:139-146 | the bust-to-band distance is 0.09 of the shoulder-to-hip-midpoint distance, and the two points coincide exactly when those midpoints do |
| `Landmarks.ExtractedIsDerived` | logic.py:148-155 | every extracted set is derived from its own four raw points |
| `Landmarks.ShapeEquivalence` | logic.py:53-59 | a one-pose list and a legacy pose with the same points extract alike, and only the first pose of a list is read |
| `Landmarks.NoPoseIsAbsent` | logic.py:53-60 | no result, no `pose_landmarks`, an empty pose list and an unrecognised shape all extract to absent |
| `Volume.VolumeEstimate` | logic.py:158-201 | the estimate is non-negative; it is zero exactly when the front shoulders, the side bust and band points, or the side shoulders coincide |
| `Volume.VolumeClosedForm` | logic.py:193-201 | the estimate equals 480.48 (0.52 × 0.35 × 2.0 × 0.60 × 2200) times the three measured distances |
| `Volume.VolumeFromSideTorso` | logic.py:175-181 | for an extracted side set, the estimate is 480.48 × 0.09 times the front shoulder span, the side torso length and the side shoulder span; it is zero exactly when one of those three is |
| `Volume.VolumeExample` | logic.py:158-201 | spans of 2, 1 and 1 give 960.96 |
| `Growth.ApplyGrowthCurve` | logic.py:204-213 | ×1.15 strictly before week 6, unchanged from week 6 on; a non-negative volume is never lowered; unchanged exactly from week 6 on or for volume 0 |
| `Growth.GrowthBoundary` | logic.py:211-213 | weeks 0 and 5 are adjusted, week 6 is not |
| `Growth.GrowthMonotonic` | logic.py:211-213 | the adjustment keeps the order of volumes |
| `Sizing.FirstFit` | logic.py:249-251 | the scan stops at the first entry whose bound admits the volume; every earlier entry rejects it |
| `Sizing.VolumeToBraSize` | logic.py:245-253 | the size is always one of the table's labels and never empty |
| `Sizing.CatchAllFits` | logic.py:249-253 | for any table that ends in the catch-all, the scan stops inside the table, so the fallback after the loop is never reached |
| `Sizing.SizeMapWellFormed` | logic.py:224-242 | thresholds strictly increase, the catch-all is last, and labels are distinct |
| `Sizing.FirstFitMonotonic` | logic.py:249-251 | for any table, a larger volume never stops the scan at an earlier entry |
| `Sizing.FirstFitBand` | logic.py:249-251 | in an ascending table the scan stops at entry k exactly when the volume is at most k's bound and above the previous bound |
| `Sizing.SizeBand` | logic.py:245-253 | the size is entry k's label exactly when the volume lies in entry k's band |
| `Sizing.SizeBoundaries` | logic.py:224-253 | volumes up to 2.5 give 32A, 2.50001 gives 32B, 20.0 gives 38D, and anything above 20.0 gives "Size Check Required" |
| `Sizing.SizeMonotonic` | logic.py:245-253 | a larger volume never maps to an earlier entry of the table |
| `Fit.ComputeBraFit` | logic.py:256-285 | detected exactly when both extractions succeed; otherwise the result is (0, 0, "", false); when detected, the volumes and size chain through the three steps and the size is a table label; the flag is set exactly when the label is non-empty; 0 ≤ estimate ≤ adjusted |
| `Fit.AbsentPath` | logic.py:268-274 | either extraction absent gives (0.0, 0.0, "", false) |
| `Fit.PipelineShapeEquivalence` | logic.py:265-266 | one-pose lists and legacy poses with the same points give the same fit |
| `Fit.DegeneratePose` | logic.py:276-285 | coinciding front shoulders give zero volumes and size 32A, detected, not an error |
| `Fit.EngorgementNeverLowersSize` | logic.py:276-278 | for the same photographs, a week before 6 never gives an earlier table entry than a week from 6 on |
| `Fit.PipelineExample` | logic.py:276-285 | spans 2, 1 and 1 at week 10 give (960.96, 960.96, "Size Check Required", true) |

## Left out

- `math.sqrt` (logic.py:103) is the parameter `sqrt`, constrained by `Geometry.IsSquareRoot`; its computation is not modelled.
- IEEE-754 behaviour: rounding, NaN and infinities are not modelled. Coordinates and volumes are exact reals. The `float("inf")` catch-all is the `Unbounded` bound.
- The fallback `return` after the table scan (logic.py:253) is not modelled as a branch. Over reals the catch-all admits every volume, and `Sizing.CatchAllFits` proves the scan never falls through.
- Python duck typing: `hasattr`/`getattr` probing is replaced by the datatypes `PoseResults`, `PoseShape` and `RawLandmark`. `float(...)` coercion of non-float coordinates is not modelled; coordinates are already reals.
- A first pose that is not a sequence of points is not modelled: poses are typed as sequences of points.
- The `landmarks_list is None` guard in `_landmark_from_list` (logic.py:65) is not modelled. `extract_landmarks` never passes `None`, so the list is a sequence.
- `VOLUME_SIZE_MAP` relies on dict insertion order. The model uses an explicit ordered sequence of (bound, label) entries instead.
- app.py is not part of this model: it covers page layout, uploads, image decoding, and pose-detector creation and calls.
- download_model.py is not part of this model: it downloads the detector model over the network and checks files.
