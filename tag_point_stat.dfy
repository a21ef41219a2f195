/**
 * `PointStat` of the tag statistics: one point category's
 * numbers for one year of one tag, with the points its applicants spent.
 */
module TagPointStats {
  import opened PointWeight
  import opened Ratios

  /** The dictionary `convert_to_dict` builds, one field per key. */
  datatype PointStatDict = PointStatDict(
    year: int, points: int, applicants: int, ptsSpent: int, successes: int, percentSuccess: real)

  class PointStat {
    const year: int
    const points: int
    var ptsSpent: int
    var applicants: int
    var successes: int
    var percentSuccessful: real

    /** The points spent are always the applicants weighed by the point rule. */
    predicate Valid()
      reads this
    {
      ptsSpent == Weight(points, applicants)
    }

    constructor (year: int, pointCategory: int)
      ensures Valid()
      ensures this.year == year && points == pointCategory
      ensures ptsSpent == 0 && applicants == 0 && successes == 0 && percentSuccessful == 0.0
    {
      this.year := year;
      points := pointCategory;
      ptsSpent := 0;
      applicants := 0;
      successes := 0;
      percentSuccessful := 0.0;
    }

    /** `set_apps`: stores the applicants and the points they spent. */
    method SetApps(applicants: int)
      modifies this`applicants, this`ptsSpent
      ensures Valid() && this.applicants == applicants
    {
      this.applicants := applicants;
      if points == 0 {
        ptsSpent := applicants;
      } else {
        ptsSpent := applicants * (points * points);
      }
    }

    /** `set_successes`: stores the successes, nothing else. */
    method SetSuccesses(numSuccessful: int)
      modifies this`successes
      ensures successes == numSuccessful
    {
      successes := numSuccessful;
    }

    /**
     * `set_perc_success`: the successes as a percentage of the applicants;
     * with no applicants the percentage is left as it was.
     */
    method SetPercSuccess()
      modifies this`percentSuccessful
      ensures applicants == 0 ==> percentSuccessful == old(percentSuccessful)
      ensures applicants != 0 ==> percentSuccessful == Percentage(successes, applicants)
      ensures applicants != 0 && 0 <= successes <= applicants ==> 0.0 <= percentSuccessful <= 100.0
    {
      if applicants != 0 {
        percentSuccessful := Percentage(successes, applicants);
      }
    }

    /** `convert_to_dict`: the current fields, one key each. */
    function ConvertToDict(): (d: PointStatDict)
      reads this
      ensures d.year == year && d.points == points
      ensures d.applicants == applicants && d.successes == successes && d.percentSuccess == percentSuccessful
      ensures Valid() ==> d.ptsSpent == Weight(d.points, d.applicants)
    {
      PointStatDict(year, points, applicants, ptsSpent, successes, percentSuccessful)
    }
  }
}
