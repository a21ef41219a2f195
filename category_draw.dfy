/**
 * Value-level meaning of one weighted drawing over the category weight table
 * of `MongoDB_Data_Input/DrawSimul.py`: the categories in list order (head
 * first, so descending point value), the cumulative-weight selection, the
 * removal of one applicant, and a whole drawing fed by supplied random
 * numbers. The linked-list classes in module PointCatList are proved to
 * compute exactly these functions.
 */
module CategoryDraw {
  import opened Results
  import opened PointWeight
  import opened Sums

  /** The value held by one `PointCatNode`: `point_val`, `apps`, `adj_apps`. */
  datatype Cat = Cat(points: int, apps: int, weight: int)

  /** `random.randint(1, num_apps)` raises ValueError when `num_apps < 1`. */
  datatype DrawError = EmptyRange

  /** Sum of the weights, i.e. of `adj_apps` over the nodes. */
  function SumWeights(cs: seq<Cat>): int
  {
    if cs == [] then 0 else SumWeights(cs[..|cs| - 1]) + cs[|cs| - 1].weight
  }

  /** Sum of the applicant counts `apps` over the nodes. */
  function SumApps(cs: seq<Cat>): int
  {
    if cs == [] then 0 else SumApps(cs[..|cs| - 1]) + cs[|cs| - 1].apps
  }

  /** Node `k` from the head holds point value `|cs| - 1 - k` (what `init_ll` builds). */
  predicate Descending(cs: seq<Cat>)
  {
    forall k :: 0 <= k < |cs| ==> cs[k].points == |cs| - 1 - k
  }

  /** Every node's weight is the weight its count and point value give. */
  predicate WeightsAgree(cs: seq<Cat>)
  {
    forall k :: 0 <= k < |cs| ==> cs[k].weight == Weight(cs[k].points, cs[k].apps)
  }

  /** Replacing one category changes the total weight by the difference. */
  lemma {:induction false} SumWeightsUpdate(cs: seq<Cat>, k: nat, c: Cat)
    requires k < |cs|
    ensures SumWeights(cs[k := c]) == SumWeights(cs) - cs[k].weight + c.weight
    decreases |cs|
  {
    var n := |cs| - 1;
    if k < n {
      assert cs[k := c][..n] == cs[..n][k := c];
      SumWeightsUpdate(cs[..n], k, c);
    } else {
      assert cs[k := c][..n] == cs[..n];
    }
  }

  /** Replacing one category changes the applicant total by the difference. */
  lemma {:induction false} SumAppsUpdate(cs: seq<Cat>, k: nat, c: Cat)
    requires k < |cs|
    ensures SumApps(cs[k := c]) == SumApps(cs) - cs[k].apps + c.apps
    decreases |cs|
  {
    var n := |cs| - 1;
    if k < n {
      assert cs[k := c][..n] == cs[..n][k := c];
      SumAppsUpdate(cs[..n], k, c);
    } else {
      assert cs[k := c][..n] == cs[..n];
    }
  }

  /**
   * With non-negative counts, the total weight is positive exactly when some
   * applicant is left: weight amplifies applicants but never invents them.
   */
  lemma {:induction false} PositiveWeightIffApplicants(cs: seq<Cat>)
    requires WeightsAgree(cs)
    requires forall k :: 0 <= k < |cs| ==> cs[k].apps >= 0
    ensures SumWeights(cs) >= SumApps(cs) >= 0
    ensures SumWeights(cs) >= 1 <==> SumApps(cs) >= 1
    decreases |cs|
  {
    if cs != [] {
      var n := |cs| - 1;
      PositiveWeightIffApplicants(cs[..n]);
      var c := cs[n];
      assert c.weight == c.apps * Marginal(c.points);
      assert c.weight >= c.apps by {
        MulAtLeast(c.apps, Marginal(c.points));
      }
      assert c.weight >= 1 <==> c.apps >= 1 by {
        MulAtLeast(c.apps, Marginal(c.points));
      }
    }
  }

  lemma MulAtLeast(a: int, m: int)
    requires a >= 0 && m >= 1
    ensures a * m >= a
    ensures a * m >= 1 <==> a >= 1
  {
  }

  /** Total weight of the first `n` nodes. */
  function Prefix(cs: seq<Cat>, n: nat): (p: int)
    requires n <= |cs|
    ensures n == |cs| ==> p == SumWeights(cs)
  {
    assert cs[..|cs|] == cs;
    SumWeights(cs[..n])
  }

  /** `apps_up_to` once the scan stands on node `i`: the running total through it. */
  function Through(cs: seq<Cat>, i: nat): (t: int)
    requires i < |cs|
    ensures t == Prefix(cs, i) + cs[i].weight
  {
    assert cs[..i + 1][..i] == cs[..i];
    Prefix(cs, i + 1)
  }

  /**
   * The cumulative scan of `run_drawing`, resumed at node `k`: the first node
   * at or after `k` whose running total of weights reaches `r`.
   */
  function SelectFrom(cs: seq<Cat>, r: int, k: nat): (j: nat)
    requires k < |cs| && Prefix(cs, k) < r <= SumWeights(cs)
    ensures k <= j < |cs|
    ensures Prefix(cs, j) < r <= Through(cs, j)
    ensures forall i :: k <= i < j ==> Through(cs, i) < r
    decreases |cs| - k
  {
    if r <= Through(cs, k) then k
    else
      assert Prefix(cs, |cs|) == SumWeights(cs);
      assert Prefix(cs, k + 1) == Through(cs, k);
      SelectFrom(cs, r, k + 1)
  }

  /**
   * The node the scan stops at for random number `r` in `[1, total]`: the
   * first node in list order whose running total reaches `r`. It always
   * exists, and it always has positive weight (and so an applicant left).
   */
  function Select(cs: seq<Cat>, r: int): (k: nat)
    requires 1 <= r <= SumWeights(cs)
    ensures k < |cs|
    ensures Prefix(cs, k) < r <= Through(cs, k)
    ensures forall i :: 0 <= i < k ==> Through(cs, i) < r
    ensures cs[k].weight >= 1
    ensures WeightsAgree(cs) ==> cs[k].apps >= 1
  {
    assert cs[..0] == [];
    assert cs != [];
    var k := SelectFrom(cs, r, 0);
    assert WeightsAgree(cs) ==> cs[k].weight == cs[k].apps * Marginal(cs[k].points);
    k
  }

  /** The first node whose running total reaches `r` is unique. */
  lemma SelectUnique(cs: seq<Cat>, r: int, k: nat)
    requires 1 <= r <= SumWeights(cs)
    requires k < |cs| && r <= Through(cs, k)
    requires forall i :: 0 <= i < k ==> Through(cs, i) < r
    ensures k == Select(cs, r)
  {
  }

  /**
   * When one category holds all the weight, every admissible random number
   * selects it: the draw is deterministic whatever the random source does.
   */
  lemma {:induction false} SoleCategorySelected(cs: seq<Cat>, k: nat, r: int)
    requires k < |cs|
    requires forall i :: 0 <= i < |cs| && i != k ==> cs[i].weight == 0
    requires 1 <= r <= SumWeights(cs)
    ensures Select(cs, r) == k
  {
    PrefixOfSole(cs, k);
    assert SumWeights(cs) == Prefix(cs, |cs|) == cs[k].weight;
    assert Through(cs, k) == cs[k].weight;
    forall i | 0 <= i < k ensures Through(cs, i) < r {
      assert Through(cs, i) == Prefix(cs, i + 1);
    }
    SelectUnique(cs, r, k);
  }

  /** Prefix sums of a table in which only node `k` may carry weight. */
  lemma {:induction false} PrefixOfSole(cs: seq<Cat>, k: nat)
    requires k < |cs|
    requires forall i :: 0 <= i < |cs| && i != k ==> cs[i].weight == 0
    ensures forall n :: 0 <= n <= k ==> Prefix(cs, n) == 0
    ensures forall n :: k < n <= |cs| ==> Prefix(cs, n) == cs[k].weight
  {
    forall n | 0 <= n <= |cs|
      ensures Prefix(cs, n) == if n <= k then 0 else cs[k].weight
    {
      PrefixOfSoleAt(cs, k, n);
    }
  }

  lemma {:induction false} PrefixOfSoleAt(cs: seq<Cat>, k: nat, n: nat)
    requires k < |cs| && n <= |cs|
    requires forall i :: 0 <= i < |cs| && i != k ==> cs[i].weight == 0
    ensures Prefix(cs, n) == if n <= k then 0 else cs[k].weight
  {
    if n > 0 {
      assert cs[..n][..n - 1] == cs[..n - 1];
      PrefixOfSoleAt(cs, k, n - 1);
    }
  }

  /** The state one drawing loop carries: the nodes, `dwg_results`, `num_apps`. */
  datatype DrawState = DrawState(cats: seq<Cat>, results: seq<int>, total: int)

  /** What holds of that state before and after every draw. */
  predicate Consistent(s: DrawState)
  {
    && s.total == SumWeights(s.cats)
    && |s.results| == NumCategories
    && |s.cats| <= NumCategories
    && Descending(s.cats)
    && WeightsAgree(s.cats)
  }

  /**
   * A category after one of its applicants has been drawn: a node whose
   * weight agreed with its count still does.
   */
  function Taken(c: Cat): (d: Cat)
    ensures d.points == c.points && d.apps == c.apps - 1
    ensures d.weight == c.weight - Marginal(c.points)
    ensures c.weight == Weight(c.points, c.apps) ==> d.weight == Weight(d.points, d.apps)
  {
    WeightStep(c.points, c.apps);
    Cat(c.points, c.apps - 1, c.weight - Marginal(c.points))
  }

  /**
   * One draw for random number `r` in `[1, num_apps]`: the selected node
   * loses one applicant and one marginal weight, its point value's slot of
   * `dwg_results` gains 1, and `num_apps` loses the same marginal weight.
   */
  function Draw(s: DrawState, r: int): (t: DrawState)
    requires Consistent(s) && 1 <= r <= s.total
    ensures Consistent(t)
    ensures |t.cats| == |s.cats|
    ensures Sum(t.results) == Sum(s.results) + 1
    ensures SumApps(t.cats) == SumApps(s.cats) - 1
    ensures var k := Select(s.cats, r);
      && s.cats[k].apps >= 1
      && t.cats == s.cats[k := Taken(s.cats[k])]
      && t.results == s.results[s.cats[k].points := s.results[s.cats[k].points] + 1]
      && t.total == s.total - Marginal(s.cats[k].points)
  {
    var k := Select(s.cats, r);
    var c := s.cats[k];
    var m := Marginal(c.points);
    var c' := Taken(c);
    WeightStep(c.points, c.apps);
    SumWeightsUpdate(s.cats, k, c');
    SumAppsUpdate(s.cats, k, c');
    SumUpdate(s.results, c.points, s.results[c.points] + 1);
    DrawState(s.cats[k := c'], s.results[c.points := s.results[c.points] + 1], s.total - m)
  }

  /**
   * The supplied random numbers are what `randint(1, num_apps)` can return:
   * each lies in `[1, num_apps]` of the state it is drawn in, for as long as
   * `num_apps >= 1` (after that the drawing has failed and the rest is unused).
   */
  predicate RandsFit(s: DrawState, rs: seq<int>)
    requires Consistent(s)
    decreases |rs|
  {
    rs == [] || s.total < 1 || (1 <= rs[0] <= s.total && RandsFit(Draw(s, rs[0]), rs[1..]))
  }

  /** The drawing loop `for _ in range(num_tags)`, one supplied number per draw. */
  function Steps(s: DrawState, rs: seq<int>): (r: Result<DrawState, DrawError>)
    requires Consistent(s) && RandsFit(s, rs)
    ensures r.Ok? ==> |r.value.results| == NumCategories && |r.value.cats| == |s.cats|
    decreases |rs|
  {
    if rs == [] then Ok(s)
    else if s.total < 1 then Err(EmptyRange)
    else Steps(Draw(s, rs[0]), rs[1..])
  }

  /** `Draw` spelled out for the category `k` that `Select` names. */
  lemma DrawAt(s: DrawState, r: int, k: nat)
    requires Consistent(s) && 1 <= r <= s.total && k == Select(s.cats, r)
    ensures Draw(s, r) == DrawState(s.cats[k := Taken(s.cats[k])],
                                    s.results[s.cats[k].points := s.results[s.cats[k].points] + 1],
                                    s.total - Marginal(s.cats[k].points))
  {
  }

  /** One step of `Steps` when numbers remain and `num_apps >= 1`. */
  lemma StepOnce(s: DrawState, rs: seq<int>)
    requires Consistent(s) && RandsFit(s, rs) && rs != [] && s.total >= 1
    ensures 1 <= rs[0] <= s.total
    ensures RandsFit(Draw(s, rs[0]), rs[1..])
    ensures Steps(s, rs) == Steps(Draw(s, rs[0]), rs[1..])
  {
  }

  /**
   * A completed drawing keeps the state consistent (in particular `num_apps`
   * still equals the sum of the node weights), awards exactly one tag per
   * supplied number, and removes exactly that many applicants.
   */
  lemma {:induction false} StepsCount(s: DrawState, rs: seq<int>)
    requires Consistent(s) && RandsFit(s, rs)
    ensures Steps(s, rs).Ok? ==>
      var t := Steps(s, rs).value;
      && Consistent(t)
      && |t.cats| == |s.cats|
      && Sum(t.results) == Sum(s.results) + |rs|
      && SumApps(t.cats) == SumApps(s.cats) - |rs|
    decreases |rs|
  {
    if rs != [] && s.total >= 1 {
      StepsCount(Draw(s, rs[0]), rs[1..]);
    }
  }

  /**
   * How a later state `t` of one drawing relates to an earlier state `s`:
   * point values stay, `dwg_results` slots only grow, node `k` has lost as
   * many applicants as its point value's slot gained tags, a node that lost
   * applicants still has a non-negative count, and slots of point values
   * with no node never change.
   */
  predicate Accounted(s: DrawState, t: DrawState)
  {
    && |s.cats| == |t.cats| && |s.cats| <= NumCategories
    && |s.results| == NumCategories && |t.results| == NumCategories
    && (forall k :: 0 <= k < |s.cats| ==> t.cats[k].points == s.cats[k].points)
    && (forall v :: 0 <= v < NumCategories ==> t.results[v] >= s.results[v])
    && (forall k :: 0 <= k < |s.cats| ==>
          t.results[|s.cats| - 1 - k] - s.results[|s.cats| - 1 - k] == s.cats[k].apps - t.cats[k].apps)
    && (forall k :: 0 <= k < |s.cats| && t.cats[k].apps < s.cats[k].apps ==> t.cats[k].apps >= 0)
    && (forall v :: |s.cats| <= v < NumCategories ==> t.results[v] == s.results[v])
  }

  lemma AccountedRefl(s: DrawState)
    requires Consistent(s)
    ensures Accounted(s, s)
  {
  }

  lemma AccountedTrans(a: DrawState, b: DrawState, c: DrawState)
    requires Accounted(a, b) && Accounted(b, c)
    ensures Accounted(a, c)
  {
    forall k | 0 <= k < |a.cats| && c.cats[k].apps < a.cats[k].apps
      ensures c.cats[k].apps >= 0
    {
      var v := |a.cats| - 1 - k;
      assert b.results[v] >= a.results[v] && c.results[v] >= b.results[v];
    }
  }

  /** One draw accounts for its tag in the selected node. */
  lemma DrawAccounted(s: DrawState, r: int)
    requires Consistent(s) && 1 <= r <= s.total
    ensures Accounted(s, Draw(s, r))
  {
    var t := Draw(s, r);
    var k := Select(s.cats, r);
    forall j | 0 <= j < |s.cats|
      ensures t.results[|s.cats| - 1 - j] - s.results[|s.cats| - 1 - j] == s.cats[j].apps - t.cats[j].apps
    {
      if j != k {
        assert t.cats[j] == s.cats[j];
      }
    }
  }

  /** Every completed drawing is accounted for, node by node. */
  lemma {:induction false} StepsAccounted(s: DrawState, rs: seq<int>)
    requires Consistent(s) && RandsFit(s, rs)
    ensures Steps(s, rs).Ok? ==> Accounted(s, Steps(s, rs).value)
    decreases |rs|
  {
    if rs == [] {
      AccountedRefl(s);
    } else if s.total >= 1 {
      var s1 := Draw(s, rs[0]);
      StepsAccounted(s1, rs[1..]);
      DrawAccounted(s, rs[0]);
      if Steps(s, rs).Ok? {
        AccountedTrans(s, s1, Steps(s, rs).value);
      }
    }
  }

  /**
   * With non-negative counts, a drawing fails (`randint(1, 0)`) exactly when
   * more tags are drawn than there are applicants; otherwise it completes
   * and no count goes negative.
   */
  lemma {:induction false} StepsFailIffOversubscribed(s: DrawState, rs: seq<int>)
    requires Consistent(s) && RandsFit(s, rs)
    requires forall k :: 0 <= k < |s.cats| ==> s.cats[k].apps >= 0
    ensures Steps(s, rs).Err? <==> |rs| > SumApps(s.cats)
    ensures Steps(s, rs).Ok? ==>
      var t := Steps(s, rs).value;
      |t.cats| == |s.cats| && forall k :: 0 <= k < |t.cats| ==> t.cats[k].apps >= 0
    decreases |rs|
  {
    PositiveWeightIffApplicants(s.cats);
    if rs != [] && s.total >= 1 {
      var s1 := Draw(s, rs[0]);
      DrawAccounted(s, rs[0]);
      assert forall k :: 0 <= k < |s1.cats| ==> s1.cats[k].apps >= 0;
      StepsFailIffOversubscribed(s1, rs[1..]);
    }
  }

  /**
   * The nodes `init_ll` builds from `expected_apps`, head first: because
   * `add_node` prepends, node `k` holds point value `|e| - 1 - k`.
   */
  function Table(e: seq<int>): (cs: seq<Cat>)
    ensures |cs| == |e| && Descending(cs) && WeightsAgree(cs)
    ensures forall k :: 0 <= k < |cs| ==> cs[k].apps == e[|e| - 1 - k]
  {
    seq(|e|, k requires 0 <= k < |e| => Cat(|e| - 1 - k, e[|e| - 1 - k], Weight(|e| - 1 - k, e[|e| - 1 - k])))
  }

  /** Appending a category to `expected_apps` puts its node in front of the others. */
  lemma TableSnoc(e: seq<int>, x: int)
    ensures Table(e + [x]) == [Cat(|e|, x, Weight(|e|, x))] + Table(e)
  {
    var l, r := Table(e + [x]), [Cat(|e|, x, Weight(|e|, x))] + Table(e);
    forall k | 0 <= k < |l| ensures l[k] == r[k] {
      if k > 0 {
        assert (e + [x])[|e| - k] == e[|e| - 1 - (k - 1)];
      }
    }
  }

  /** Sum of `Weight(v, e[v])` over the point values, in ascending order. */
  function TotalWeight(e: seq<int>): int
  {
    if e == [] then 0 else TotalWeight(e[..|e| - 1]) + Weight(|e| - 1, e[|e| - 1])
  }

  lemma {:induction false} SumWeightsCons(c: Cat, cs: seq<Cat>)
    ensures SumWeights([c] + cs) == c.weight + SumWeights(cs)
    decreases |cs|
  {
    if cs != [] {
      var n := |cs| - 1;
      assert ([c] + cs)[..n + 1] == [c] + cs[..n];
      SumWeightsCons(c, cs[..n]);
    }
  }

  /**
   * Before the first draw, `num_apps` (the sum of the node weights) is the
   * weighted applicant total of `expected_apps`, whatever order the list has.
   */
  lemma {:induction false} TableWeight(e: seq<int>)
    ensures SumWeights(Table(e)) == TotalWeight(e)
    decreases |e|
  {
    if e != [] {
      var n := |e| - 1;
      assert e == e[..n] + [e[n]];
      TableSnoc(e[..n], e[n]);
      SumWeightsCons(Cat(n, e[n], Weight(n, e[n])), Table(e[..n]));
      TableWeight(e[..n]);
    }
  }

  /** `Sum(e)`, the plain applicant total, is what the table's counts add up to. */
  lemma {:induction false} TableApps(e: seq<int>)
    ensures SumApps(Table(e)) == Sum(e)
    decreases |e|
  {
    if e != [] {
      var n := |e| - 1;
      assert e == e[..n] + [e[n]];
      TableSnoc(e[..n], e[n]);
      SumAppsCons(Cat(n, e[n], Weight(n, e[n])), Table(e[..n]));
      TableApps(e[..n]);
    }
  }

  lemma {:induction false} SumAppsCons(c: Cat, cs: seq<Cat>)
    ensures SumApps([c] + cs) == c.apps + SumApps(cs)
    decreases |cs|
  {
    if cs != [] {
      var n := |cs| - 1;
      assert ([c] + cs)[..n + 1] == [c] + cs[..n];
      SumAppsCons(c, cs[..n]);
    }
  }

  /** The state `run_drawing` starts its draws from: fresh results, `num_apps` summed. */
  function Start(cs: seq<Cat>): (s: DrawState)
    requires |cs| <= NumCategories && Descending(cs) && WeightsAgree(cs)
    ensures Consistent(s) && s.cats == cs && s.results == Zeros(NumCategories)
  {
    DrawState(cs, Zeros(NumCategories), SumWeights(cs))
  }

  /**
   * One whole drawing from the table `init_ll` builds for non-negative
   * `expected_apps` (at most 21 categories): it fails exactly when more tags
   * are drawn than there are applicants; otherwise the 21 result slots sum to
   * the number of tags drawn and category `v` wins between 0 and
   * `expected_apps[v]` tags (none at all past the last category).
   */
  lemma DrawingOutcome(e: seq<int>, rs: seq<int>)
    requires |e| <= NumCategories && forall v :: 0 <= v < |e| ==> e[v] >= 0
    requires RandsFit(Start(Table(e)), rs)
    ensures Steps(Start(Table(e)), rs).Err? <==> |rs| > Sum(e)
    ensures Steps(Start(Table(e)), rs).Ok? ==>
      var res := Steps(Start(Table(e)), rs).value.results;
      && |res| == NumCategories
      && Sum(res) == |rs|
      && (forall v :: 0 <= v < |e| ==> 0 <= res[v] <= e[v])
      && (forall v :: |e| <= v < NumCategories ==> res[v] == 0)
  {
    var s := Start(Table(e));
    TableApps(e);
    StepsFailIffOversubscribed(s, rs);
    StepsCount(s, rs);
    SumZeros(NumCategories);
    StepsAccounted(s, rs);
    if Steps(s, rs).Ok? {
      ResultsWithinTable(e, Steps(s, rs).value);
    }
  }

  /** A state accounted against the start of a drawing holds, per point value, at most its applicants in tags. */
  lemma ResultsWithinTable(e: seq<int>, t: DrawState)
    requires |e| <= NumCategories && forall v :: 0 <= v < |e| ==> e[v] >= 0
    requires Accounted(Start(Table(e)), t)
    ensures forall v :: 0 <= v < |e| ==> 0 <= t.results[v] <= e[v]
    ensures forall v :: |e| <= v < NumCategories ==> t.results[v] == 0
  {
    var s := Start(Table(e));
    forall v | 0 <= v < |e| ensures 0 <= t.results[v] <= e[v] {
      var k := |e| - 1 - v;
      assert t.results[|s.cats| - 1 - k] - s.results[|s.cats| - 1 - k] == s.cats[k].apps - t.cats[k].apps;
    }
  }
}
