/** The postpartum growth adjustment of the volume estimate. */
module Growth {

  /** Below this many weeks postpartum the volume is raised for engorgement. */
  const EngorgementWeeks: int := 6
  /** The early-postpartum factor: 15% more volume. */
  const EngorgementFactor: real := 1.15

  /**
    The adjusted volume: raised by 15% strictly before week 6 (week 0 meaning
    not yet given birth), unchanged from week 6 on. A non-negative volume is
    never lowered, and it is left unchanged exactly from week 6 on or when it
    is zero.
   */
  function ApplyGrowthCurve(volume: real, weeksPostpartum: int): (adjusted: real)
    ensures weeksPostpartum >= EngorgementWeeks ==> adjusted == volume
    ensures weeksPostpartum < EngorgementWeeks ==> adjusted == volume * EngorgementFactor
    ensures 0.0 <= volume ==> volume <= adjusted
    ensures adjusted == volume <==> weeksPostpartum >= EngorgementWeeks || volume == 0.0
  {
    if weeksPostpartum < EngorgementWeeks then volume * EngorgementFactor else volume
  }

  /** The boundary cases: weeks 0 and 5 are adjusted, week 6 is not. */
  lemma GrowthBoundary(volume: real)
    ensures ApplyGrowthCurve(volume, 0) == volume * 1.15
    ensures ApplyGrowthCurve(volume, 5) == volume * 1.15
    ensures ApplyGrowthCurve(volume, 6) == volume
  {
  }

  /** The adjustment keeps the order of volumes for the same week count. */
  lemma GrowthMonotonic(v1: real, v2: real, weeksPostpartum: int)
    requires v1 <= v2
    ensures ApplyGrowthCurve(v1, weeksPostpartum) <= ApplyGrowthCurve(v2, weeksPostpartum)
  {
  }
}
