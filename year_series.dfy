/**
 * What the region and district query objects share: the five-year window
 * ending at `end_year`, the aggregated groups the database returns, the
 * four per-year lists of a record and how one group is written into them,
 * and the runs of equal keys a sorted group stream falls into.
 */
module YearSeries {
  import opened Results

  /** `num_years`. */
  const NumYears := 5

  /** `self.start = end_year - num_years + 1`. */
  function Start(endYear: int): int
  {
    endYear - NumYears + 1
  }

  /** `self.years`: `range(self.start, self.end + 1)` as a list. */
  function Years(endYear: int): (ys: seq<int>)
    ensures |ys| == NumYears && ys[0] == Start(endYear) && ys[NumYears - 1] == endYear
    ensures forall i :: 0 <= i < |ys| ==> ys[i] == Start(endYear) + i
  {
    seq(NumYears, i => Start(endYear) + i)
  }

  /** One aggregated group: its key (region or district) and year, and the four sums. */
  datatype Group = Group(key: string, year: int, numApps: int, numTags: int, ptsSpent: int, wgtAvgHelper: int)

  /** What writing a group into a record can raise. */
  datatype Raised = IndexError | ZeroDivisionError

  /** The lists `num apps`, `num tags`, `pts spent` and `avg pts per app` of a record. */
  datatype Series = Series(numApps: seq<int>, numTags: seq<int>, ptsSpent: seq<int>, avgPts: seq<real>)

  /** The four lists have one length. */
  predicate Even(s: Series)
  {
    |s.numTags| == |s.numApps| && |s.ptsSpent| == |s.numApps| && |s.avgPts| == |s.numApps|
  }

  /** `[0] * num_years` for each list. */
  function Zeroed(): (s: Series)
    ensures Even(s) && |s.numApps| == NumYears
    ensures forall i :: 0 <= i < NumYears ==>
      s.numApps[i] == 0 && s.numTags[i] == 0 && s.ptsSpent[i] == 0 && s.avgPts[i] == 0.0
  {
    Series(seq(NumYears, _ => 0), seq(NumYears, _ => 0), seq(NumYears, _ => 0), seq(NumYears, _ => 0.0))
  }

  /**
   * The position Python's `xs[i] = v` writes for a list of length `n`:
   * counted from the end when `i` is negative; IndexError outside `[-n, n)`.
   */
  function Slot(n: nat, i: int): (r: Result<nat, Raised>)
    ensures r.Ok? <==> -(n as int) <= i < n
    ensures r.Ok? ==> r.value < n && (if i >= 0 then r.value == i else r.value == n as int + i)
    ensures r.Err? ==> r.error == IndexError
  {
    if 0 <= i < n then Ok(i)
    else if -(n as int) <= i < 0 then Ok(n as int + i)
    else Err(IndexError)
  }

  /** `result['wgt_avg_helper'] / result['num apps']`, before rounding. */
  function Average(g: Group): (r: Result<real, Raised>)
    ensures r.Err? <==> g.numApps == 0
    ensures r.Err? ==> r.error == ZeroDivisionError
    ensures r.Ok? ==> r.value * g.numApps as real == g.wgtAvgHelper as real
  {
    if g.numApps == 0 then Err(ZeroDivisionError)
    else
      var q := g.wgtAvgHelper as real / g.numApps as real;
      assert q * g.numApps as real == g.wgtAvgHelper as real;
      Ok(q)
  }

  /** The four assignments at position `k`: that position takes the group's values, no other changes. */
  function Write(s: Series, k: nat, g: Group, avg: real): (t: Series)
    requires Even(s) && k < |s.numApps|
    ensures Even(t) && |t.numApps| == |s.numApps|
    ensures t.numApps[k] == g.numApps && t.numTags[k] == g.numTags && t.ptsSpent[k] == g.ptsSpent && t.avgPts[k] == avg
    ensures forall j :: 0 <= j < |s.numApps| && j != k ==>
      t.numApps[j] == s.numApps[j] && t.numTags[j] == s.numTags[j] && t.ptsSpent[j] == s.ptsSpent[j] && t.avgPts[j] == s.avgPts[j]
  {
    Series(s.numApps[k := g.numApps], s.numTags[k := g.numTags], s.ptsSpent[k := g.ptsSpent], s.avgPts[k := avg])
  }

  /** The keys of the groups, in order. */
  function Keys(gs: seq<Group>): (ks: seq<string>)
    ensures |ks| == |gs| && forall i :: 0 <= i < |gs| ==> ks[i] == gs[i].key
  {
    seq(|gs|, i requires 0 <= i < |gs| => gs[i].key)
  }

  /** The key of each maximal run of equal consecutive keys, in order. */
  function Heads(ks: seq<string>): seq<string>
  {
    if |ks| <= 1 then ks
    else
      var n := |ks| - 1;
      if ks[n] == ks[n - 1] then Heads(ks[..n]) else Heads(ks[..n]) + [ks[n]]
  }

  /**
   * The runs: one per key change, so neighbouring runs differ, the first
   * run starts with the first key and the last run holds the last key.
   */
  lemma {:induction false} HeadsShape(ks: seq<string>)
    ensures |Heads(ks)| <= |ks| && (|Heads(ks)| == 0 <==> ks == [])
    ensures ks != [] ==> Heads(ks)[0] == ks[0] && Heads(ks)[|Heads(ks)| - 1] == ks[|ks| - 1]
    ensures forall i :: 0 < i < |Heads(ks)| ==> Heads(ks)[i] != Heads(ks)[i - 1]
  {
    if |ks| > 1 {
      var n := |ks| - 1;
      HeadsShape(ks[..n]);
    }
  }

  /** Keys that come back after another key give a second run: unsorted input repeats a key. */
  lemma UnsortedRepeats(a: string, b: string)
    requires a != b
    ensures Heads([a, b, a]) == [a, b, a]
  {
    assert [a, b, a][..2] == [a, b];
    assert [a, b][..1] == [a];
    assert Heads([a, b]) == [a, b];
  }
}
