/**
  The volume estimate: a hemi-ellipsoid approximation whose width comes from
  the front photograph and whose height and projection come from the side
  photograph, scaled to the range the size table expects.
 */
module Volume {
  import opened Geometry
  import opened Landmarks

  /** Single-breast width as a fraction of the bi-acromial (shoulder) width. */
  const RatioBreastWidth: real := 0.35
  /** The bust-to-band distance is a radius; the height is its diameter. */
  const RadiusToDiameter: real := 2.0
  /** Breast projection as a fraction of the whole side profile depth. */
  const RatioProjection: real := 0.60
  /** The hemi-ellipsoid coefficient for full diameters. */
  const EllipsoidCoefficient: real := 0.52
  /** Calibrates normalised-coordinate volumes to the size table's range. */
  const ScaleFactor: real := 2200.0

  /** The five calibration constants folded into one. */
  const VolumeCoefficient: real := 480.48

  /** Width of one breast, from the front shoulders. */
  function BreastWidth(front: ExtractedLandmarks, sqrt: real -> real): (w: real)
    requires IsSquareRoot(sqrt)
  {
    Distance(front.shoulderLeft, front.shoulderRight, sqrt) * RatioBreastWidth
  }

  /** Height of the breast, from the side bust and band points. */
  function BreastHeight(side: ExtractedLandmarks, sqrt: real -> real): (h: real)
    requires IsSquareRoot(sqrt)
  {
    Distance(side.midBust, side.underBust, sqrt) * RadiusToDiameter
  }

  /** Projection of the breast, from the side shoulders used as a depth proxy. */
  function BreastProjection(side: ExtractedLandmarks, sqrt: real -> real): (p: real)
    requires IsSquareRoot(sqrt)
  {
    Distance(side.shoulderLeft, side.shoulderRight, sqrt) * RatioProjection
  }

  /**
    The volume estimate of a front and a side landmark set. It is never
    negative, and it is zero exactly when one of the three measured pairs of
    points is degenerate (the two points coincide).
   */
  function VolumeEstimate(front: ExtractedLandmarks, side: ExtractedLandmarks, sqrt: real -> real): (v: real)
    requires IsSquareRoot(sqrt)
    ensures 0.0 <= v
    ensures Degenerate(front, side) ==> v == 0.0
    ensures !Degenerate(front, side) ==> 0.0 < v
  {
    var volumeUnscaled := EllipsoidCoefficient * BreastWidth(front, sqrt) * BreastHeight(side, sqrt) * BreastProjection(side, sqrt);
    ProductSign(BreastWidth(front, sqrt), BreastHeight(side, sqrt), BreastProjection(side, sqrt));
    volumeUnscaled * ScaleFactor
  }

  /** One of the three measured pairs of points coincides. */
  predicate Degenerate(front: ExtractedLandmarks, side: ExtractedLandmarks) {
    || front.shoulderLeft == front.shoulderRight
    || side.midBust == side.underBust
    || side.shoulderLeft == side.shoulderRight
  }

  /** Signs of the scaled product of three non-negative measurements. */
  lemma ProductSign(w: real, h: real, p: real)
    requires 0.0 <= w && 0.0 <= h && 0.0 <= p
    ensures 0.0 <= EllipsoidCoefficient * w * h * p * ScaleFactor
    ensures w == 0.0 || h == 0.0 || p == 0.0 ==> EllipsoidCoefficient * w * h * p * ScaleFactor == 0.0
    ensures 0.0 < w && 0.0 < h && 0.0 < p ==> 0.0 < EllipsoidCoefficient * w * h * p * ScaleFactor
  {
    var c := EllipsoidCoefficient * ScaleFactor;
    calc {
      EllipsoidCoefficient * w * h * p * ScaleFactor;
      c * (w * h * p);
    }
    if 0.0 < w && 0.0 < h && 0.0 < p {
      calc {
        c * (w * h * p);
      > { assert 0.0 < w * h; assert 0.0 < (w * h) * p; }
        0.0;
      }
    } else if w == 0.0 || h == 0.0 || p == 0.0 {
      assert w * h * p == 0.0;
    } else {
      assert false;
    }
    assert 0.0 <= w * h;
    assert 0.0 <= (w * h) * p;
  }

  /**
    The estimate is the folded coefficient 480.48 times the three raw
    distances: front shoulder span, side bust-to-band distance and side
    shoulder span.
   */
  lemma VolumeClosedForm(front: ExtractedLandmarks, side: ExtractedLandmarks, sqrt: real -> real)
    requires IsSquareRoot(sqrt)
    ensures VolumeEstimate(front, side, sqrt)
         == VolumeCoefficient
            * Distance(front.shoulderLeft, front.shoulderRight, sqrt)
            * Distance(side.midBust, side.underBust, sqrt)
            * Distance(side.shoulderLeft, side.shoulderRight, sqrt)
  {
    var a := Distance(front.shoulderLeft, front.shoulderRight, sqrt);
    var b := Distance(side.midBust, side.underBust, sqrt);
    var c := Distance(side.shoulderLeft, side.shoulderRight, sqrt);
    calc {
      VolumeEstimate(front, side, sqrt);
      EllipsoidCoefficient * (a * RatioBreastWidth) * (b * RadiusToDiameter) * (c * RatioProjection) * ScaleFactor;
      (EllipsoidCoefficient * RatioBreastWidth * RadiusToDiameter * RatioProjection * ScaleFactor) * (a * b * c);
      VolumeCoefficient * (a * b * c);
      VolumeCoefficient * a * b * c;
    }
  }

  /**
    For a side set produced by extraction, the height measurement is fixed by
    the side torso: the estimate is 480.48 * 0.09 times the front shoulder span,
    the side shoulder-to-hip-midpoint distance and the side shoulder span.
   */
  lemma VolumeFromSideTorso(front: ExtractedLandmarks, side: ExtractedLandmarks, sqrt: real -> real)
    requires IsSquareRoot(sqrt)
    requires side == Derive(side.shoulderLeft, side.shoulderRight, side.hipLeft, side.hipRight)
    ensures VolumeEstimate(front, side, sqrt)
         == VolumeCoefficient * (RatioUnderBust - RatioMidBust)
            * Distance(front.shoulderLeft, front.shoulderRight, sqrt)
            * Distance(ShoulderMid(side), HipMid(side), sqrt)
            * Distance(side.shoulderLeft, side.shoulderRight, sqrt)
    ensures VolumeEstimate(front, side, sqrt) == 0.0 <==>
      front.shoulderLeft == front.shoulderRight || ShoulderMid(side) == HipMid(side) || side.shoulderLeft == side.shoulderRight
  {
    VolumeClosedForm(front, side, sqrt);
    BustSpan(side, sqrt);
    var a := Distance(front.shoulderLeft, front.shoulderRight, sqrt);
    var t := Distance(ShoulderMid(side), HipMid(side), sqrt);
    var c := Distance(side.shoulderLeft, side.shoulderRight, sqrt);
    var k := RatioUnderBust - RatioMidBust;
    calc {
      VolumeCoefficient * a * (k * t) * c;
      VolumeCoefficient * k * a * t * c;
    }
  }

  /**
    The worked example: a front shoulder span of 2 and side bust-to-band and
    shoulder spans of 1 give 0.52 * 0.7 * 2.0 * 0.6 * 2200 = 960.96.
   */
  lemma VolumeExample(front: ExtractedLandmarks, side: ExtractedLandmarks, sqrt: real -> real)
    requires IsSquareRoot(sqrt)
    requires Distance(front.shoulderLeft, front.shoulderRight, sqrt) == 2.0
    requires Distance(side.midBust, side.underBust, sqrt) == 1.0
    requires Distance(side.shoulderLeft, side.shoulderRight, sqrt) == 1.0
    ensures VolumeEstimate(front, side, sqrt) == 960.96
  {
    VolumeClosedForm(front, side, sqrt);
  }
}
