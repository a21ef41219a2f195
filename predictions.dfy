/**
 * The aggregation of `get_point_predictions` (the bag simulation's web
 * handler): `NUM_DWGS` independent drawings for the forecast applicant
 * counts, summed per point category, and each category's sum turned into
 * a success percentage.
 */
module Predictions {
  import opened Results
  import opened PointWeight
  import opened Sums
  import opened ApplicantBag
  import opened Ratios

  /** `NUM_DWGS`: how many drawings are simulated per request. */
  const NumDwgs := 10

  /** The request body: forecast applicants per point value, tags and tag id. */
  datatype Request = Request(calculated: seq<int>, numTags: int, tag: string)

  /**
   * The reply: the request body together with the keys "total tags obtained"
   * and "calculated success perc", each present once the handler has set it.
   */
  datatype Response = Response(
    request: Request,
    totalTagsObtained: Option<seq<int>>,
    calculatedSuccessPerc: Option<seq<real>>)

  /** The numbers one drawing's `randint` calls return: two shuffles, then the draws. */
  datatype Supply = Supply(shuffle1: seq<int>, shuffle2: seq<int>, draws: seq<int>)

  /** Every number lies in the range its `randint` call asks for. */
  predicate Fits(e: seq<int>, s: Supply)
  {
    && |s.shuffle1| == |s.shuffle2| == BagSize(e)
    && Indices(s.shuffle1, BagSize(e)) && Indices(s.shuffle2, BagSize(e)) && Indices(s.draws, BagSize(e))
  }

  /** The outcome of one drawing of the bag simulation for `e`, fed by `s`. */
  function TrialOf(e: seq<int>, numTags: int, s: Supply): Result<Tally, Stop>
    requires Fits(e, s)
  {
    Trial(e, numTags, s.shuffle1, s.shuffle2, s.draws)
  }

  /** Every one of the drawings fed by `supply` completes. */
  predicate AllComplete(e: seq<int>, numTags: int, supply: seq<Supply>)
    requires forall k :: 0 <= k < |supply| ==> Fits(e, supply[k])
  {
    forall k :: 0 <= k < |supply| ==> TrialOf(e, numTags, supply[k]).Ok?
  }

  /** The result vectors of completed drawings, one per supply, in order. */
  function TrialResults(e: seq<int>, numTags: int, supply: seq<Supply>): (ts: seq<seq<int>>)
    requires forall k :: 0 <= k < |supply| ==> Fits(e, supply[k])
    requires AllComplete(e, numTags, supply)
    ensures |ts| == |supply| && forall k :: 0 <= k < |supply| ==> |ts[k]| == NumCategories
  {
    seq(|supply|, k requires 0 <= k < |supply| => TrialOf(e, numTags, supply[k]).value.results)
  }

  /** A simulation object as its constructor leaves it. */
  predicate Initial(sim: DrawSimul, e: seq<int>, tag: string, numTags: int)
    reads sim, sim.appsBag
  {
    && sim.Valid() && sim.appsBag.bag == [] && sim.drawIds == {} && sim.dwgResults == Zeros(NumCategories)
    && sim.expectedApps == e && sim.tag == tag && sim.numTags == numTags
  }

  /**
   * The two loops over `all_simulations`: `NUM_DWGS` objects are created,
   * each with a bag of its own, and then each is run, its result vector
   * taking its place. A drawing that stops ends the request.
   */
  method RunTrials(e: seq<int>, tag: string, numTags: int, supply: seq<Supply>)
    returns (r: Result<seq<seq<int>>, Stop>)
    requires |supply| == NumDwgs
    requires forall k :: 0 <= k < |supply| ==> Fits(e, supply[k])
    ensures r.Ok? ==> |r.value| == NumDwgs
    ensures r.Ok? ==> forall k :: 0 <= k < NumDwgs ==>
      TrialOf(e, numTags, supply[k]).Ok? && r.value[k] == TrialOf(e, numTags, supply[k]).value.results
    ensures r.Err? ==> exists k :: 0 <= k < NumDwgs && TrialOf(e, numTags, supply[k]) == Err(r.error)
  {
    var sims := NewSimulations(e, tag, numTags);
    var trials: seq<seq<int>> := [];
    var i := 0;
    while i < NumDwgs
      invariant 0 <= i <= NumDwgs && |trials| == i
      invariant forall k :: 0 <= k < NumDwgs ==> fresh(sims[k]) && fresh(sims[k].appsBag)
      invariant forall k :: i <= k < NumDwgs ==> Initial(sims[k], e, tag, numTags)
      invariant forall j, k :: 0 <= j < k < NumDwgs ==> sims[j] != sims[k] && sims[j].appsBag != sims[k].appsBag
      invariant forall k :: 0 <= k < i ==>
        TrialOf(e, numTags, supply[k]).Ok? && trials[k] == TrialOf(e, numTags, supply[k]).value.results
    {
      var out := RunOne(sims[i], e, tag, numTags, supply[i]);
      match out
      case Err(why) =>
        return Err(why);
      case Ok(results) =>
        trials := trials + [results];
      i := i + 1;
    }
    r := Ok(trials);
  }

  /** The first loop: `NUM_DWGS` objects, each fresh and with a bag of its own. */
  method NewSimulations(e: seq<int>, tag: string, numTags: int) returns (sims: seq<DrawSimul>)
    ensures |sims| == NumDwgs
    ensures forall k :: 0 <= k < NumDwgs ==> fresh(sims[k]) && fresh(sims[k].appsBag)
    ensures forall k :: 0 <= k < NumDwgs ==> Initial(sims[k], e, tag, numTags)
    ensures forall j, k :: 0 <= j < k < NumDwgs ==> sims[j] != sims[k] && sims[j].appsBag != sims[k].appsBag
  {
    sims := [];
    while |sims| < NumDwgs
      invariant |sims| <= NumDwgs
      invariant forall k :: 0 <= k < |sims| ==> fresh(sims[k]) && fresh(sims[k].appsBag)
      invariant forall k :: 0 <= k < |sims| ==> Initial(sims[k], e, tag, numTags)
      invariant forall j, k :: 0 <= j < k < |sims| ==> sims[j] != sims[k] && sims[j].appsBag != sims[k].appsBag
    {
      var sim := new DrawSimul(e, tag, numTags);
      sims := sims + [sim];
    }
  }

  /** `sim.run_drawing()` on an object still as its constructor left it. */
  method RunOne(sim: DrawSimul, e: seq<int>, tag: string, numTags: int, s: Supply)
    returns (r: Result<seq<int>, Stop>)
    requires Fits(e, s) && Initial(sim, e, tag, numTags)
    modifies sim.appsBag, sim`drawIds, sim`dwgResults
    ensures r.Ok? ==> TrialOf(e, numTags, s).Ok? && r.value == TrialOf(e, numTags, s).value.results
    ensures r.Err? ==> TrialOf(e, numTags, s) == Err(r.error)
  {
    assert Entries(sim.appsBag.bag) + Layout(e) == Layout(e);
    r := sim.RunDrawing(s.shuffle1, s.shuffle2, s.draws);
  }

  /** Entry `index` summed over the trials. */
  function Column(trials: seq<seq<int>>, index: nat): int
    requires forall t :: 0 <= t < |trials| ==> index < |trials[t]|
  {
    if trials == [] then 0 else Column(trials[..|trials| - 1], index) + trials[|trials| - 1][index]
  }

  /**
   * `total_results`: a zero per entry of the first trial, then for each
   * index the sum of that entry over all trials.
   */
  method SumTrials(trials: seq<seq<int>>) returns (total: seq<int>)
    requires |trials| > 0 && forall t :: 0 <= t < |trials| ==> |trials[0]| <= |trials[t]|
    ensures |total| == |trials[0]|
    ensures forall i :: 0 <= i < |total| ==> total[i] == Column(trials, i)
  {
    total := Zeros(|trials[0]|);
    var index := 0;
    while index < |total|
      invariant 0 <= index <= |total| == |trials[0]|
      invariant forall i :: 0 <= i < index ==> total[i] == Column(trials, i)
      invariant forall i :: index <= i < |total| ==> total[i] == 0
    {
      total := AddColumn(trials, total, index);
      index := index + 1;
    }
  }

  /** The inner loop of `SumTrials`: entry `index` of every trial added into `total[index]`. */
  method AddColumn(trials: seq<seq<int>>, total: seq<int>, index: nat) returns (next: seq<int>)
    requires index < |total| && total[index] == 0
    requires forall t :: 0 <= t < |trials| ==> index < |trials[t]|
    ensures next == total[index := Column(trials, index)]
  {
    next := total;
    var iteration := 0;
    while iteration < |trials|
      invariant 0 <= iteration <= |trials|
      invariant next == total[index := Column(trials[..iteration], index)]
    {
      assert trials[..iteration + 1][..iteration] == trials[..iteration];
      next := next[index := next[index] + trials[iteration][index]];
      iteration := iteration + 1;
    }
    assert trials[..iteration] == trials;
  }

  /** All entries of all trials. */
  function SumAll(trials: seq<seq<int>>): int
  {
    if trials == [] then 0 else SumAll(trials[..|trials| - 1]) + Sum(trials[|trials| - 1])
  }

  /** Adding two vectors entry by entry adds their sums. */
  lemma {:induction false} SumPointwise(a: seq<int>, b: seq<int>, c: seq<int>)
    requires |a| == |b| == |c| && forall i :: 0 <= i < |c| ==> c[i] == a[i] + b[i]
    ensures Sum(c) == Sum(a) + Sum(b)
  {
    if c != [] {
      var n := |c| - 1;
      SumPointwise(a[..n], b[..n], c[..n]);
    }
  }

  /** A vector of zeros sums to zero. */
  lemma AllZeros(z: seq<int>)
    requires forall i :: 0 <= i < |z| ==> z[i] == 0
    ensures Sum(z) == 0
  {
    assert z == Zeros(|z|);
    SumZeros(|z|);
  }

  /** The column sums of equally long trials add up to all their entries. */
  lemma {:induction false} SumOfColumns(trials: seq<seq<int>>, total: seq<int>)
    requires forall t :: 0 <= t < |trials| ==> |trials[t]| == |total|
    requires forall i :: 0 <= i < |total| ==> total[i] == Column(trials, i)
    ensures Sum(total) == SumAll(trials)
  {
    if trials == [] {
      AllZeros(total);
    } else {
      var n := |trials| - 1;
      var before := seq(|total|, i requires 0 <= i < |total| => Column(trials[..n], i));
      SumOfColumns(trials[..n], before);
      SumPointwise(before, trials[n], total);
    }
  }

  /** Trials that each hand out `c` tags hand out `|trials| * c` together. */
  lemma {:induction false} SumAllConstant(trials: seq<seq<int>>, c: int)
    requires forall t :: 0 <= t < |trials| ==> Sum(trials[t]) == c
    ensures SumAll(trials) == |trials| * c
  {
    if trials != [] {
      SumAllConstant(trials[..|trials| - 1], c);
    }
  }

  /** A column of entries within `[0, hi]` sums to within `[0, |trials| * hi]`. */
  lemma {:induction false} ColumnWithin(trials: seq<seq<int>>, index: nat, hi: int)
    requires forall t :: 0 <= t < |trials| ==> index < |trials[t]| && 0 <= trials[t][index] <= hi
    ensures 0 <= Column(trials, index) <= |trials| * hi
  {
    if trials != [] {
      ColumnWithin(trials[..|trials| - 1], index, hi);
    }
  }

  /**
   * One category's success percentage (before Python's rounding to one
   * decimal): none when nobody applies, otherwise the tags won over the
   * ten drawings per applicant, as a percentage. The literal 10 of the
   * handler is `NUM_DWGS`, so a category never exceeds 100%.
   */
  function SuccessPercent(result: int, apps: int): (p: real)
    ensures apps == 0 ==> p == 0.0
    ensures 0 <= result <= NumDwgs * Count(apps) ==> 0.0 <= p <= 100.0
  {
    if apps == 0 then 0.0
    else
      assert 0 <= result <= NumDwgs * Count(apps) && apps < 0 ==> result == 0;
      Percentage(result, apps * 10)
  }

  /** The `enumerate(total_results)` loop: one percentage per entry, in order. */
  method SuccessPercentages(total: seq<int>, apps: seq<int>) returns (perc: seq<real>)
    requires |total| <= |apps|
    ensures |perc| == |total|
    ensures forall i :: 0 <= i < |total| ==> perc[i] == SuccessPercent(total[i], apps[i])
  {
    perc := [];
    for i := 0 to |total|
      invariant |perc| == i
      invariant forall j :: 0 <= j < i ==> perc[j] == SuccessPercent(total[j], apps[j])
    {
      perc := perc + [SuccessPercent(total[i], apps[i])];
    }
  }

  /**
   * Ten finished drawings of the same forecast: the totals hand out ten
   * times `num_tags`, and no category gets more than ten times its
   * applicants.
   */
  lemma TotalsWithin(e: seq<int>, numTags: int, supply: seq<Supply>, trials: seq<seq<int>>, total: seq<int>)
    requires |e| >= NumCategories && |supply| == |trials| == NumDwgs
    requires forall k :: 0 <= k < NumDwgs ==> Fits(e, supply[k])
    requires forall k :: 0 <= k < NumDwgs ==>
      TrialOf(e, numTags, supply[k]).Ok? && trials[k] == TrialOf(e, numTags, supply[k]).value.results
    requires forall k :: 0 <= k < NumDwgs ==> |trials[k]| == NumCategories
    requires |total| == NumCategories && forall i :: 0 <= i < |total| ==> total[i] == Column(trials, i)
    ensures Sum(total) == NumDwgs * Count(numTags)
    ensures forall v :: 0 <= v < NumCategories ==> 0 <= total[v] <= NumDwgs * Count(e[v])
  {
    forall k | 0 <= k < NumDwgs
      ensures Sum(trials[k]) == Count(numTags)
      ensures forall v :: 0 <= v < NumCategories ==> 0 <= trials[k][v] <= Count(e[v])
    {
      TrialOutcome(e, numTags, supply[k].shuffle1, supply[k].shuffle2, supply[k].draws);
    }
    SumOfColumns(trials, total);
    SumAllConstant(trials, Count(numTags));
    forall v | 0 <= v < NumCategories
      ensures 0 <= total[v] <= NumDwgs * Count(e[v])
    {
      ColumnWithin(trials, v, Count(e[v]));
    }
  }

  /**
   * `get_point_predictions` without the web plumbing: the drawing run
   * `NUM_DWGS` times for the forecast in `calculated`, the per-category
   * totals, and the success percentages, added to the request body. A
   * drawing that stops ends the request with its reason; a forecast shorter
   * than the 21 totals raises IndexError in the percentage loop.
   */
  method GetPointPredictions(request: Request, supply: seq<Supply>) returns (r: Result<Response, Stop>)
    requires |supply| == NumDwgs
    requires forall k :: 0 <= k < NumDwgs ==> Fits(request.calculated, supply[k])
    ensures Count(request.numTags) > NumApplicants(request.calculated) ==> r.Err?
    ensures AllComplete(request.calculated, request.numTags, supply) ==>
      (r.Ok? <==> |request.calculated| >= NumCategories)
    ensures r.Err? ==>
      || (exists k :: 0 <= k < NumDwgs && TrialOf(request.calculated, request.numTags, supply[k]) == Err(r.error))
      || (AllComplete(request.calculated, request.numTags, supply) && r.error == IndexError)
    ensures r.Ok? ==>
      && AllComplete(request.calculated, request.numTags, supply)
      && r.value.request == request
      && r.value.totalTagsObtained.Some? && r.value.calculatedSuccessPerc.Some?
      && var total, perc := r.value.totalTagsObtained.value, r.value.calculatedSuccessPerc.value;
      && |total| == |perc| == NumCategories
      && (forall v :: 0 <= v < NumCategories ==>
            total[v] == Column(TrialResults(request.calculated, request.numTags, supply), v))
      && Sum(total) == NumDwgs * Count(request.numTags)
      && (forall v :: 0 <= v < NumCategories ==>
            && 0 <= total[v] <= NumDwgs * Count(request.calculated[v])
            && perc[v] == SuccessPercent(total[v], request.calculated[v])
            && 0.0 <= perc[v] <= 100.0)
  {
    var e := request.calculated;
    var trials := RunTrials(e, request.tag, request.numTags, supply);
    if trials.Err? {
      return Err(trials.error);
    }
    var all := trials.value;
    assert all == TrialResults(e, request.numTags, supply);
    if Count(request.numTags) > NumApplicants(e) {
      TrialOutcome(e, request.numTags, supply[0].shuffle1, supply[0].shuffle2, supply[0].draws);
      assert false;
    }
    TrialOutcome(e, request.numTags, supply[0].shuffle1, supply[0].shuffle2, supply[0].draws);
    forall k | 0 <= k < NumDwgs
      ensures |all[k]| == NumCategories
    {
      TrialOutcome(e, request.numTags, supply[k].shuffle1, supply[k].shuffle2, supply[k].draws);
    }
    var total := SumTrials(all);
    if |e| < |total| {
      // `next_year_apps[i]` past the end of the forecast
      return Err(IndexError);
    }
    TotalsWithin(e, request.numTags, supply, all, total);
    var perc := SuccessPercentages(total, e);
    var response := Response(request, None, None);
    if |total| > 0 {
      response := Response(request, Some(total), Some(perc));
    }
    r := Ok(response);
  }
}
