/**
 * `PointStat` of the drawing-statistics loader: one point category's
 * numbers for one year, with its applicants weighted by the point rule.
 */
module PointStats {
  import opened PointWeight
  import opened Ratios

  /** The dictionary `convert_to_dict` builds, one field per key. */
  datatype PointStatDict = PointStatDict(
    year: int, points: int, applicants: int, adjustedApps: int, successes: int, percentSuccess: real)

  class PointStat {
    const year: int
    const points: int
    var adjustedApps: int
    var applicants: int
    var successes: int
    var percentSuccessful: real

    /** The adjusted applicants are always the applicants weighed by the point rule. */
    predicate Valid()
      reads this
    {
      adjustedApps == Weight(points, applicants)
    }

    constructor (year: int, pointCategory: int)
      ensures Valid()
      ensures this.year == year && points == pointCategory
      ensures adjustedApps == 0 && applicants == 0 && successes == 0 && percentSuccessful == 0.0
    {
      this.year := year;
      points := pointCategory;
      adjustedApps := 0;
      applicants := 0;
      successes := 0;
      percentSuccessful := 0.0;
    }

    /** `set_apps`: stores the applicants and re-weighs them. */
    method SetApps(applicants: int)
      modifies this`applicants, this`adjustedApps
      ensures Valid() && this.applicants == applicants
    {
      this.applicants := applicants;
      if points == 0 {
        adjustedApps := applicants;
      } else {
        adjustedApps := applicants * (points * points);
      }
    }

    /** `set_successes`: stores the successes, nothing else. */
    method SetSuccesses(numSuccessful: int)
      modifies this`successes
      ensures successes == numSuccessful
    {
      successes := numSuccessful;
    }

    /**
     * `set_perc_success`: the successes as a percentage of the applicants;
     * with no applicants the percentage is left as it was.
     */
    method SetPercSuccess()
      modifies this`percentSuccessful
      ensures applicants == 0 ==> percentSuccessful == old(percentSuccessful)
      ensures applicants != 0 ==> percentSuccessful == Percentage(successes, applicants)
      ensures applicants != 0 && 0 <= successes <= applicants ==> 0.0 <= percentSuccessful <= 100.0
    {
      if applicants != 0 {
        percentSuccessful := Percentage(successes, applicants);
      }
    }

    /** `convert_to_dict`: the current fields, one key each. */
    function ConvertToDict(): (d: PointStatDict)
      reads this
      ensures d.year == year && d.points == points
      ensures d.applicants == applicants && d.successes == successes && d.percentSuccess == percentSuccessful
      ensures Valid() ==> d.adjustedApps == Weight(d.points, d.applicants)
    {
      PointStatDict(year, points, applicants, adjustedApps, successes, percentSuccessful)
    }
  }
}
