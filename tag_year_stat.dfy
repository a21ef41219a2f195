/**
 * `YearStat` of the tag statistics: one tag's totals for one year. Its
 * "average points per applicant" is stored as a hundredfold average, as
 * the source computes it (`total / applicants * 100`).
 */
module TagYearStats {
  import opened Ratios

  /** The dictionary `convert_to_dict` builds: exactly six keys. */
  datatype YearStatDict = YearStatDict(
    year: int, applicants: int, ptsSpent: int, successes: int, percentSuccess: real, avgPtPerApp: real)

  class YearStat {
    const year: int
    var applicants: int
    var successes: int
    var percentSuccessful: real
    var ptsSpent: int
    var avgPtsPerApp: real

    constructor (year: int)
      ensures this.year == year
      ensures applicants == 0 && successes == 0 && percentSuccessful == 0.0 && ptsSpent == 0 && avgPtsPerApp == 0.0
    {
      this.year := year;
      applicants := 0;
      successes := 0;
      percentSuccessful := 0.0;
      ptsSpent := 0;
      avgPtsPerApp := 0.0;
    }

    /** `set_apps`: stores the applicants, nothing else. */
    method SetApps(applicants: int)
      modifies this`applicants
      ensures this.applicants == applicants
    {
      this.applicants := applicants;
    }

    /** `set_pts_spent`: stores the points spent, nothing else. */
    method SetPtsSpent(ptsSpent: int)
      modifies this`ptsSpent
      ensures this.ptsSpent == ptsSpent
    {
      this.ptsSpent := ptsSpent;
    }

    /** `set_successes`: stores the successes, nothing else. */
    method SetSuccesses(numSuccessful: int)
      modifies this`successes
      ensures successes == numSuccessful
    {
      successes := numSuccessful;
    }

    /**
     * `set_perc_success`: the successes as a percentage of the applicants;
     * with no applicants the percentage is left as it was.
     */
    method SetPercSuccess()
      modifies this`percentSuccessful
      ensures applicants == 0 ==> percentSuccessful == old(percentSuccessful)
      ensures applicants != 0 ==> percentSuccessful == Percentage(successes, applicants)
      ensures applicants != 0 && 0 <= successes <= applicants ==> 0.0 <= percentSuccessful <= 100.0
    {
      if applicants != 0 {
        percentSuccessful := Percentage(successes, applicants);
      }
    }

    /**
     * `set_avg_pts_per_app`: a hundred times the weighted points per
     * applicant; with no applicants the value is left as it was.
     */
    method SetAvgPtsPerApp(totalWeightedPts: int)
      modifies this`avgPtsPerApp
      ensures applicants == 0 ==> avgPtsPerApp == old(avgPtsPerApp)
      ensures applicants != 0 ==> avgPtsPerApp * applicants as real == totalWeightedPts as real * 100.0
    {
      if applicants != 0 {
        avgPtsPerApp := Percentage(totalWeightedPts, applicants);
      }
    }

    /** `convert_to_dict`: the six current fields, one key each. */
    function ConvertToDict(): (d: YearStatDict)
      reads this
      ensures d.year == year && d.applicants == applicants && d.ptsSpent == ptsSpent
      ensures d.successes == successes && d.percentSuccess == percentSuccessful && d.avgPtPerApp == avgPtsPerApp
    {
      YearStatDict(year, applicants, ptsSpent, successes, percentSuccessful, avgPtsPerApp)
    }
  }
}
