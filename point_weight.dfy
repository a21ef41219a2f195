/**
 * The preference-point weighting rule used throughout the system: an
 * applicant with no points carries weight 1, an applicant with `v > 0`
 * points carries weight `v * v`.
 */
module PointWeight {

  /** `dwg_results = [0] * 21`: one result slot per point value 0..20. */
  const NumCategories := 21

  /** Weight of one applicant in point category `points`. */
  function Marginal(points: int): (w: int)
    ensures w >= 1
    ensures w >= points
  {
    if points == 0 then 1 else points * points
  }

  /** Weight of `count` applicants in point category `points`. */
  function Weight(points: int, count: int): (w: int)
    ensures w == count * Marginal(points)
  {
    if points == 0 then count else points * points * count
  }

  /** Removing one applicant removes exactly one marginal weight. */
  lemma WeightStep(points: int, count: int)
    ensures Weight(points, count) - Marginal(points) == Weight(points, count - 1)
  {
  }
}
