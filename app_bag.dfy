/**
 * The per-applicant variant of the drawing, `Drawing_Simulation/DrawSimul.py`:
 * every applicant is put into a bag once per unit of weight, the bag is
 * shuffled by swaps, and tags are drawn by picking random bag positions,
 * retrying whenever the picked applicant already holds a tag. Random numbers
 * are supplied as sequences of integers. The first part gives the value-level
 * meaning (bag layout, shuffle, retrying pick, whole drawing) and its
 * properties; the classes below are proved to compute it.
 */
module ApplicantBag {
  import opened Results
  import opened PointWeight
  import opened Sums

  // ---------------------------------------------------------------------
  // The bag as values
  // ---------------------------------------------------------------------

  /** What a bag slot tells the drawing: `app_id` and `point_val` of an `ApplicantNode`. */
  datatype Entry = Entry(appId: int, pointVal: int)

  /** How many times `range(n)` iterates: `n`, or none when `n` is negative. */
  function Count(n: int): nat
  {
    if n < 0 then 0 else n
  }

  /** Applicants of all categories of `e`: the first `app_id` a further category would get. */
  function NumApplicants(e: seq<int>): nat
  {
    if e == [] then 0 else NumApplicants(e[..|e| - 1]) + Count(e[|e| - 1])
  }

  /** Number of bag slots filled for `e`: each applicant once per unit of weight. */
  function BagSize(e: seq<int>): nat
  {
    if e == [] then 0 else BagSize(e[..|e| - 1]) + Count(e[|e| - 1]) * Marginal(|e| - 1)
  }

  /** The point category of applicant `id`: the one whose range of `app_id`s holds it. */
  function CatOf(e: seq<int>, id: int): (v: nat)
    requires 0 <= id < NumApplicants(e)
    ensures v < |e| && NumApplicants(e[..v]) <= id < NumApplicants(e[..v]) + Count(e[v])
    decreases |e|
  {
    var k := |e| - 1;
    assert e[..k + 1] == e;
    if id >= NumApplicants(e[..k]) then k
    else
      var v := CatOf(e[..k], id);
      assert e[..k][..v] == e[..v];
      v
  }

  /** The slots the `while new_app.apps > 0` loop adds: `m` copies of one applicant. */
  function Copies(id: int, p: int, m: nat): (c: seq<Entry>)
    ensures |c| == m
  {
    if m == 0 then [] else Copies(id, p, m - 1) + [Entry(id, p)]
  }

  /** The slots of applicants `first .. first + n - 1` of point category `p`, `m` copies each. */
  function Block(first: int, p: int, n: nat, m: nat): seq<Entry>
  {
    if n == 0 then [] else Block(first, p, n - 1, m) + Copies(first + n - 1, p, m)
  }

  /** The bag `add_applicants_to_bag` fills for `expected_apps`, before any shuffle. */
  function Layout(e: seq<int>): (b: seq<Entry>)
    ensures |b| == BagSize(e)
  {
    if e == [] then []
    else
      var k := |e| - 1;
      BlockSize(NumApplicants(e[..k]), k, Count(e[k]), Marginal(k));
      Layout(e[..k]) + Block(NumApplicants(e[..k]), k, Count(e[k]), Marginal(k))
  }

  /** One more category of `e` adds its block of applicants to the layout. */
  lemma LayoutNext(e: seq<int>, i: nat)
    requires i < |e|
    ensures NumApplicants(e[..i + 1]) == NumApplicants(e[..i]) + Count(e[i])
    ensures Layout(e[..i + 1]) == Layout(e[..i]) + Block(NumApplicants(e[..i]), i, Count(e[i]), Marginal(i))
  {
    assert e[..i + 1][..i] == e[..i];
  }

  lemma {:induction false} BlockSize(first: int, p: int, n: nat, m: nat)
    ensures |Block(first, p, n, m)| == n * m
  {
    if n > 0 {
      BlockSize(first, p, n - 1, m);
    }
  }

  /** How many slots of `s` hold `x`. */
  function Occ(s: seq<Entry>, x: Entry): nat
  {
    if s == [] then 0 else Occ(s[..|s| - 1], x) + if s[|s| - 1] == x then 1 else 0
  }

  lemma {:induction false} OccAppend(a: seq<Entry>, b: seq<Entry>, x: Entry)
    ensures Occ(a + b, x) == Occ(a, x) + Occ(b, x)
    decreases |b|
  {
    if b == [] {
      assert a + b == a;
    } else {
      var n := |b| - 1;
      assert (a + b)[..|a + b| - 1] == a + b[..n];
      OccAppend(a, b[..n], x);
    }
  }

  /** `Occ` is the multiplicity in the multiset of the slots. */
  lemma {:induction false} OccMultiset(s: seq<Entry>, x: Entry)
    ensures multiset(s)[x] == Occ(s, x)
  {
    if s != [] {
      var n := |s| - 1;
      assert s == s[..n] + [s[n]];
      OccMultiset(s[..n], x);
    }
  }

  lemma {:induction false} CopiesCount(id: int, p: int, m: nat, x: Entry)
    ensures x == Entry(id, p) ==> Occ(Copies(id, p, m), x) == m
    ensures x != Entry(id, p) ==> Occ(Copies(id, p, m), x) == 0
  {
    if m > 0 {
      CopiesCount(id, p, m - 1, x);
      OccAppend(Copies(id, p, m - 1), [Entry(id, p)], x);
      assert Occ([Entry(id, p)], x) == if x == Entry(id, p) then 1 else 0 by {
        assert [Entry(id, p)][..0] == [];
      }
    }
  }

  /** Each applicant of a block has `m` slots in it, and nothing else has any. */
  lemma {:induction false} BlockCount(first: int, p: int, n: nat, m: nat, x: Entry)
    ensures x.pointVal == p && first <= x.appId < first + n ==> Occ(Block(first, p, n, m), x) == m
    ensures !(x.pointVal == p && first <= x.appId < first + n) ==> Occ(Block(first, p, n, m), x) == 0
  {
    if n > 0 {
      BlockCount(first, p, n - 1, m, x);
      CopiesCount(first + n - 1, p, m, x);
      OccAppend(Block(first, p, n - 1, m), Copies(first + n - 1, p, m), x);
    }
  }

  lemma {:induction false} LayoutOcc(e: seq<int>, x: Entry)
    ensures Occ(Layout(e), x) ==
      if 0 <= x.appId < NumApplicants(e) && x.pointVal == CatOf(e, x.appId) then Marginal(x.pointVal) else 0
  {
    if e != [] {
      var k := |e| - 1;
      LayoutOcc(e[..k], x);
      BlockCount(NumApplicants(e[..k]), k, Count(e[k]), Marginal(k), x);
      OccAppend(Layout(e[..k]), Block(NumApplicants(e[..k]), k, Count(e[k]), Marginal(k)), x);
    }
  }

  /**
   * The filled bag holds exactly the applicants `0 .. N - 1` (`N` the sum of
   * `expected_apps`), each with the point value of its category and each
   * `Marginal(point_val)` times, and nothing else.
   */
  lemma LayoutCount(e: seq<int>, x: Entry)
    ensures multiset(Layout(e))[x] ==
      if 0 <= x.appId < NumApplicants(e) && x.pointVal == CatOf(e, x.appId) then Marginal(x.pointVal) else 0
  {
    OccMultiset(Layout(e), x);
    LayoutOcc(e, x);
  }

  // ---------------------------------------------------------------------
  // Shuffling
  // ---------------------------------------------------------------------

  /** Every supplied number is a valid position of a bag of `n` slots. */
  predicate Indices(rs: seq<int>, n: int)
  {
    forall i :: 0 <= i < |rs| ==> 0 <= rs[i] < n
  }

  /** The swap of one pass of `randomize_bag`: slot `i` takes slot `j`'s applicant and back. */
  function Swap<T>(s: seq<T>, i: int, j: int): (t: seq<T>)
    requires 0 <= i < |s| && 0 <= j < |s|
    ensures |t| == |s| && t[i] == s[j] && t[j] == s[i]
    ensures forall k :: 0 <= k < |s| && k != i && k != j ==> t[k] == s[k]
  {
    s[j := s[i]][i := s[j]]
  }

  /** `randomize_bag` with `rs[c]` the index `randint` returns for `curr_index == c`. */
  function Shuffled<T>(s: seq<T>, rs: seq<int>): (t: seq<T>)
    requires |rs| <= |s| && Indices(rs, |s|)
    ensures |t| == |s|
    ensures forall k :: 0 <= k < |t| ==> t[k] in s
  {
    if rs == [] then s
    else
      var n := |rs| - 1;
      Swap(Shuffled(s, rs[..n]), n, rs[n])
  }

  /** Shuffling only rearranges: the bag stays a permutation of itself. */
  lemma {:induction false} ShuffledPermutes<T>(s: seq<T>, rs: seq<int>)
    requires |rs| <= |s| && Indices(rs, |s|)
    ensures multiset(Shuffled(s, rs)) == multiset(s)
  {
    if rs != [] {
      var n := |rs| - 1;
      ShuffledPermutes(s, rs[..n]);
    }
  }

  // ---------------------------------------------------------------------
  // Drawing
  // ---------------------------------------------------------------------

  /**
   * Why a drawing stops: `randint(0, -1)` on an empty bag, the supplied
   * numbers ran out, or `dwg_results[point_val]` has no slot for the
   * point value drawn.
   */
  datatype Stop = EmptyRange | OutOfNumbers | IndexError

  /** The outcome of one `draw_rand_id`: the applicant drawn and how many numbers it took. */
  datatype Picked = Chosen(entry: Entry, used: nat) | Stopped(why: Stop)

  /** The `app_id`s in a bag. */
  function IdSet(view: seq<Entry>): set<int>
  {
    set x | x in view :: x.appId
  }

  /**
   * `draw_rand_id` over the bag `view` with the ids `ids` already drawn: take
   * the slot the next number names; an applicant already drawn means another
   * try with the following number.
   */
  function Pick(view: seq<Entry>, ids: set<int>, rs: seq<int>): (r: Picked)
    requires Indices(rs, |view|)
    ensures r.Chosen? ==> 1 <= r.used <= |rs| && view[rs[r.used - 1]] == r.entry && r.entry.appId !in ids
    ensures r == Stopped(EmptyRange) <==> |view| == 0
    ensures r != Stopped(IndexError)
    decreases |rs|
  {
    if |view| == 0 then Stopped(EmptyRange)
    else if rs == [] then Stopped(OutOfNumbers)
    else if view[rs[0]].appId in ids then
      match Pick(view, ids, rs[1..])
      case Chosen(x, u) => Chosen(x, u + 1)
      case Stopped(w) => Stopped(w)
    else Chosen(view[rs[0]], 1)
  }

  /**
   * The numbers a pick spends before its choice all named applicants already
   * drawn; a pick that runs out of numbers found only such applicants.
   */
  lemma {:induction false} PickRetries(view: seq<Entry>, ids: set<int>, rs: seq<int>)
    requires Indices(rs, |view|)
    ensures Pick(view, ids, rs).Chosen? ==>
      forall j :: 0 <= j < Pick(view, ids, rs).used - 1 ==> view[rs[j]].appId in ids
    ensures Pick(view, ids, rs) == Stopped(OutOfNumbers) ==>
      |view| > 0 && forall j :: 0 <= j < |rs| ==> view[rs[j]].appId in ids
    decreases |rs|
  {
    if |view| > 0 && rs != [] && view[rs[0]].appId in ids {
      PickRetries(view, ids, rs[1..]);
      forall j | 1 <= j < |rs| ensures rs[j] == rs[1..][j - 1] { }
    }
  }

  /** A number naming an applicant already drawn is spent and the pick goes on with the rest. */
  lemma PickRetry(view: seq<Entry>, ids: set<int>, rs: seq<int>)
    requires Indices(rs, |view|) && rs != [] && view[rs[0]].appId in ids
    ensures Pick(view, ids, rs) ==
      if Pick(view, ids, rs[1..]).Chosen? then Chosen(Pick(view, ids, rs[1..]).entry, Pick(view, ids, rs[1..]).used + 1)
      else Pick(view, ids, rs[1..])
  {
  }

  /** A number naming an applicant not yet drawn picks that applicant. */
  lemma PickFresh(view: seq<Entry>, ids: set<int>, rs: seq<int>)
    requires Indices(rs, |view|) && rs != [] && view[rs[0]].appId !in ids
    ensures Pick(view, ids, rs) == Chosen(view[rs[0]], 1)
  {
  }

  /**
   * Once every applicant in the bag holds a tag, no supply of numbers, however
   * long, ends the retrying: `draw_rand_id` recurses for ever.
   */
  lemma {:induction false} AllDrawnNeverChosen(view: seq<Entry>, ids: set<int>, rs: seq<int>)
    requires Indices(rs, |view|) && |view| > 0 && IdSet(view) <= ids
    ensures Pick(view, ids, rs) == Stopped(OutOfNumbers)
    decreases |rs|
  {
    if rs != [] {
      assert view[rs[0]] in view;
      AllDrawnNeverChosen(view, ids, rs[1..]);
    }
  }

  /** Every point value in the bag indexes a slot of `dwg_results`. */
  predicate PointsWithin(view: seq<Entry>, n: int)
  {
    forall i :: 0 <= i < |view| ==> 0 <= view[i].pointVal < n
  }

  /** Every point value in the bag is a category number, so never negative. */
  predicate Natural(view: seq<Entry>)
  {
    forall i :: 0 <= i < |view| ==> 0 <= view[i].pointVal
  }

  /**
   * One whole `draw_rand_id` against a `dwg_results` of `n` slots: the pick,
   * unless the chosen applicant's point value has no slot, which raises
   * IndexError before its id is recorded.
   */
  function Attempt(view: seq<Entry>, ids: set<int>, n: int, rs: seq<int>): (r: Picked)
    requires Indices(rs, |view|) && Natural(view)
    ensures r.Chosen? ==> r == Pick(view, ids, rs) && 0 <= r.entry.pointVal < n
    ensures r == Stopped(IndexError) <==> Pick(view, ids, rs).Chosen? && Pick(view, ids, rs).entry.pointVal >= n
    ensures r.Stopped? && r != Stopped(IndexError) ==> r == Pick(view, ids, rs)
  {
    match Pick(view, ids, rs)
    case Chosen(x, u) =>
      assert view[rs[u - 1]] == x;
      if x.pointVal < n then Chosen(x, u) else Stopped(IndexError)
    case Stopped(w) => Stopped(w)
  }

  /** Drawn ids and `dwg_results`. */
  datatype Tally = Tally(ids: set<int>, results: seq<int>)

  /** The `for _ in range(num_tags)` loop of `run_drawing`: `n` draws in a row. */
  function Tags(view: seq<Entry>, ids: set<int>, res: seq<int>, rs: seq<int>, n: nat): (r: Result<Tally, Stop>)
    requires Indices(rs, |view|) && Natural(view)
    ensures r.Ok? ==> |r.value.results| == |res|
    ensures n == 0 ==> r == Ok(Tally(ids, res))
    decreases n
  {
    if n == 0 then Ok(Tally(ids, res))
    else
      match Attempt(view, ids, |res|, rs)
      case Stopped(w) => Err(w)
      case Chosen(x, u) => Tags(view, ids + {x.appId}, res[x.pointVal := res[x.pointVal] + 1], rs[u..], n - 1)
  }

  /** A draw that stops stops a drawing of `n > 0` tags. */
  lemma TagsStopped(view: seq<Entry>, ids: set<int>, res: seq<int>, rs: seq<int>, n: nat)
    requires Indices(rs, |view|) && Natural(view) && n > 0 && Attempt(view, ids, |res|, rs).Stopped?
    ensures Tags(view, ids, res, rs, n) == Err(Attempt(view, ids, |res|, rs).why)
  {
  }

  /**
   * A draw that picks applicant `x`, spending `u` numbers, leaves `n - 1`
   * tags to draw from there, and the drawing ends as that one does.
   */
  lemma TagsChosen(view: seq<Entry>, ids: set<int>, res: seq<int>, rs: seq<int>, n: nat, x: Entry, u: nat)
    requires Indices(rs, |view|) && Natural(view) && n > 0 && Attempt(view, ids, |res|, rs) == Chosen(x, u)
    ensures 0 <= x.pointVal < |res| && u <= |rs| && Indices(rs[u..], |view|)
    ensures Tags(view, ids, res, rs, n) == Tags(view, ids + {x.appId}, res[x.pointVal := res[x.pointVal] + 1], rs[u..], n - 1)
  {
    assert view[rs[u - 1]] == x;
  }

  /**
   * A completed drawing of `n` tags adds exactly `n` new ids, all from the bag,
   * and `n` to the sum of `dwg_results`.
   */
  lemma {:induction false} TagsCount(view: seq<Entry>, ids: set<int>, res: seq<int>, rs: seq<int>, n: nat)
    requires Indices(rs, |view|) && Natural(view)
    ensures Tags(view, ids, res, rs, n).Ok? ==>
      var t := Tags(view, ids, res, rs, n).value;
      && Sum(t.results) == Sum(res) + n
      && ids <= t.ids && |t.ids| == |ids| + n && t.ids - ids <= IdSet(view)
    decreases n
  {
    if n > 0 && Attempt(view, ids, |res|, rs).Chosen? {
      var x, u := Attempt(view, ids, |res|, rs).entry, Attempt(view, ids, |res|, rs).used;
      var ids', res' := ids + {x.appId}, res[x.pointVal := res[x.pointVal] + 1];
      assert x in view;
      SumUpdate(res, x.pointVal, res[x.pointVal] + 1);
      TagsCount(view, ids', res', rs[u..], n - 1);
    }
  }

  /**
   * More tags than applicants not yet drawn: the drawing cannot complete,
   * whatever numbers are supplied.
   */
  lemma {:induction false} TagsNeverFinish(view: seq<Entry>, ids: set<int>, res: seq<int>, rs: seq<int>, n: nat)
    requires Indices(rs, |view|) && Natural(view)
    requires |IdSet(view) - ids| < n
    ensures Tags(view, ids, res, rs, n).Err?
    decreases n
  {
    match Attempt(view, ids, |res|, rs)
    case Stopped(_) =>
    case Chosen(x, u) =>
      assert x in view;
      var ids' := ids + {x.appId};
      assert IdSet(view) - ids == (IdSet(view) - ids') + {x.appId};
      TagsNeverFinish(view, ids', res[x.pointVal := res[x.pointVal] + 1], rs[u..], n - 1);
  }

  /** The integers `a .. b - 1`. */
  function Interval(a: int, b: int): (s: set<int>)
    ensures forall i :: i in s <==> a <= i < b
    ensures a <= b ==> |s| == b - a
    decreases b - a
  {
    if b <= a then {} else Interval(a, b - 1) + {b - 1}
  }

  /** A subset is no larger than its superset. */
  lemma {:induction false} SubsetSize<T>(A: set<T>, B: set<T>)
    requires A <= B
    ensures |A| <= |B|
    decreases |A|
  {
    if A != {} {
      var x :| x in A;
      SubsetSize(A - {x}, B - {x});
    }
  }

  /** Every slot of `view` is an applicant of `e` carrying its category's point value. */
  predicate ViewOf(e: seq<int>, view: seq<Entry>)
  {
    forall i :: 0 <= i < |view| ==>
      0 <= view[i].appId < NumApplicants(e) && view[i].pointVal == CatOf(e, view[i].appId)
  }

  /** The ids of `S` that belong to point category `v` of `e`. */
  function Among(e: seq<int>, S: set<int>, v: int): set<int>
  {
    set id | id in S && 0 <= id < NumApplicants(e) && CatOf(e, id) == v
  }

  /** A category cannot have more ids than it has applicants. */
  lemma AmongWithin(e: seq<int>, S: set<int>, v: nat)
    requires v < |e|
    ensures |Among(e, S, v)| <= Count(e[v])
  {
    var lo := NumApplicants(e[..v]);
    SubsetSize(Among(e, S, v), Interval(lo, lo + Count(e[v])));
  }

  /** Any arrangement of the filled bag: its slots and its set of ids. */
  lemma ViewOfLayout(e: seq<int>, view: seq<Entry>)
    requires multiset(view) == multiset(Layout(e))
    ensures ViewOf(e, view) && IdSet(view) == Interval(0, NumApplicants(e))
  {
    LayoutSlots(e, view);
    LayoutIds(e, view);
  }

  /** Every slot of an arrangement of the filled bag is an applicant with its category's point value. */
  lemma LayoutSlots(e: seq<int>, view: seq<Entry>)
    requires multiset(view) == multiset(Layout(e))
    ensures ViewOf(e, view)
  {
    forall i | 0 <= i < |view|
      ensures 0 <= view[i].appId < NumApplicants(e) && view[i].pointVal == CatOf(e, view[i].appId)
    {
      LayoutCount(e, view[i]);
    }
  }

  /** Every applicant `0 .. N - 1` has a slot in any arrangement of the filled bag. */
  lemma LayoutIds(e: seq<int>, view: seq<Entry>)
    requires multiset(view) == multiset(Layout(e)) && ViewOf(e, view)
    ensures IdSet(view) == Interval(0, NumApplicants(e))
  {
    forall id | 0 <= id < NumApplicants(e) ensures id in IdSet(view) {
      var x := Entry(id, CatOf(e, id));
      LayoutCount(e, x);
      assert x in multiset(view);
    }
  }

  /** Adding a new id to `A` adds one to the size of its own category and leaves the others. */
  lemma AmongAdd(e: seq<int>, A: set<int>, id: int, v: int)
    requires id !in A && 0 <= id < NumApplicants(e)
    ensures |Among(e, A + {id}, v)| == |Among(e, A, v)| + if CatOf(e, id) == v then 1 else 0
  {
    if CatOf(e, id) == v {
      assert Among(e, A + {id}, v) == Among(e, A, v) + {id};
    } else {
      assert Among(e, A + {id}, v) == Among(e, A, v);
    }
  }

  /**
   * Per point value, `tRes` is `res` plus the ids of `tIds` drawn beyond `ids`
   * in that category.
   */
  predicate Tallied(e: seq<int>, res: seq<int>, ids: set<int>, tIds: set<int>, tRes: seq<int>)
  {
    |tRes| == |res| && forall v :: 0 <= v < |res| ==> tRes[v] == res[v] + |Among(e, tIds - ids, v)|
  }

  /** The tags a completed drawing adds, per point value, are its newly drawn ids of that category. */
  lemma {:induction false} TagsTally(e: seq<int>, view: seq<Entry>, ids: set<int>, res: seq<int>, rs: seq<int>, n: nat)
    requires Indices(rs, |view|) && Natural(view) && ViewOf(e, view)
    ensures Tags(view, ids, res, rs, n).Ok? ==>
      Tallied(e, res, ids, Tags(view, ids, res, rs, n).value.ids, Tags(view, ids, res, rs, n).value.results)
    decreases n
  {
    if n == 0 {
      assert Tags(view, ids, res, rs, n).value.ids - ids == {};
    } else {
      match Attempt(view, ids, |res|, rs)
      case Stopped(_) =>
      case Chosen(x, u) =>
      var ids', res' := ids + {x.appId}, res[x.pointVal := res[x.pointVal] + 1];
      TagsTally(e, view, ids', res', rs[u..], n - 1);
      TagsCount(view, ids', res', rs[u..], n - 1);
      if Tags(view, ids', res', rs[u..], n - 1).Ok? {
        var t := Tags(view, ids', res', rs[u..], n - 1).value;
        assert x in view;
        TallyStep(e, res, ids, x, t.ids, t.results);
      }
    }
  }

  /** One draw of `x` followed by a drawing tallied from there is tallied from before the draw. */
  lemma TallyStep(e: seq<int>, res: seq<int>, ids: set<int>, x: Entry, tIds: set<int>, tRes: seq<int>)
    requires x.appId !in ids && 0 <= x.appId < NumApplicants(e) && x.pointVal == CatOf(e, x.appId)
    requires 0 <= x.pointVal < |res| && ids + {x.appId} <= tIds
    requires Tallied(e, res[x.pointVal := res[x.pointVal] + 1], ids + {x.appId}, tIds, tRes)
    ensures Tallied(e, res, ids, tIds, tRes)
  {
    var ids' := ids + {x.appId};
    assert tIds - ids == (tIds - ids') + {x.appId};
    forall v | 0 <= v < |res| ensures tRes[v] == res[v] + |Among(e, tIds - ids, v)| {
      AmongAdd(e, tIds - ids', x.appId, v);
    }
  }

  /** When every point value has a slot, the drawing never raises IndexError. */
  lemma {:induction false} TagsInRange(view: seq<Entry>, ids: set<int>, res: seq<int>, rs: seq<int>, n: nat)
    requires Indices(rs, |view|) && PointsWithin(view, |res|)
    ensures Natural(view) && Tags(view, ids, res, rs, n) != Err(IndexError)
    decreases n
  {
    var p := Pick(view, ids, rs);
    if p.Chosen? {
      assert view[rs[p.used - 1]] == p.entry;
    }
    if n > 0 && p.Chosen? {
      var x, u := p.entry, p.used;
      TagsInRange(view, ids + {x.appId}, res[x.pointVal := res[x.pointVal] + 1], rs[u..], n - 1);
    }
  }

  /**
   * One whole drawing of `n` tags from a freshly filled bag (however it was
   * shuffled), with no ids drawn and `dwg_results` zero: with more tags than
   * applicants it never completes; with at most 21 categories it never
   * raises IndexError; when it completes, `dwg_results` sums to `n`, exactly
   * `n` distinct applicants hold a tag, and point value `v` won at most
   * `expected_apps[v]` tags (none past the last category).
   */
  lemma DrawingOutcome(e: seq<int>, view: seq<Entry>, rs: seq<int>, n: nat)
    requires multiset(view) == multiset(Layout(e)) && Indices(rs, |view|)
    ensures Natural(view)
    ensures n > NumApplicants(e) ==> Tags(view, {}, Zeros(NumCategories), rs, n).Err?
    ensures |e| <= NumCategories ==> Tags(view, {}, Zeros(NumCategories), rs, n) != Err(IndexError)
    ensures Tags(view, {}, Zeros(NumCategories), rs, n).Ok? ==>
      var t := Tags(view, {}, Zeros(NumCategories), rs, n).value;
      && Sum(t.results) == n == |t.ids|
      && t.ids <= Interval(0, NumApplicants(e))
      && (forall v :: 0 <= v < |e| && v < NumCategories ==> 0 <= t.results[v] <= Count(e[v]))
      && (forall v :: |e| <= v < NumCategories ==> t.results[v] == 0)
  {
    ViewOfLayout(e, view);
    if |e| <= NumCategories {
      TagsInRange(view, {}, Zeros(NumCategories), rs, n);
    }
    if n > NumApplicants(e) {
      assert IdSet(view) - {} == IdSet(view);
      TagsNeverFinish(view, {}, Zeros(NumCategories), rs, n);
    } else {
      FreshTally(e, view, rs, n);
    }
  }

  /** The completed case of `DrawingOutcome`, from the bag's slots and ids. */
  lemma FreshTally(e: seq<int>, view: seq<Entry>, rs: seq<int>, n: nat)
    requires ViewOf(e, view) && IdSet(view) == Interval(0, NumApplicants(e))
    requires Indices(rs, |view|) && Natural(view)
    ensures Tags(view, {}, Zeros(NumCategories), rs, n).Ok? ==>
      var t := Tags(view, {}, Zeros(NumCategories), rs, n).value;
      && Sum(t.results) == n == |t.ids|
      && t.ids <= Interval(0, NumApplicants(e))
      && (forall v :: 0 <= v < |e| && v < NumCategories ==> 0 <= t.results[v] <= Count(e[v]))
      && (forall v :: |e| <= v < NumCategories ==> t.results[v] == 0)
  {
    var z := Zeros(NumCategories);
    if Tags(view, {}, z, rs, n).Ok? {
      var t := Tags(view, {}, z, rs, n).value;
      SumZeros(NumCategories);
      TagsCount(view, {}, z, rs, n);
      TagsTally(e, view, {}, z, rs, n);
      TallyBounds(e, t.ids, t.results);
    }
  }

  /** Tags counted from zero per category of `e` stay within each category's applicants. */
  lemma TallyBounds(e: seq<int>, ids: set<int>, results: seq<int>)
    requires Tallied(e, Zeros(NumCategories), {}, ids, results)
    ensures forall v :: 0 <= v < |e| && v < NumCategories ==> 0 <= results[v] <= Count(e[v])
    ensures forall v :: |e| <= v < NumCategories ==> results[v] == 0
  {
    assert ids - {} == ids;
    forall v | 0 <= v < |e| && v < NumCategories ensures 0 <= results[v] <= Count(e[v]) {
      AmongWithin(e, ids, v);
    }
    forall v | |e| <= v < NumCategories ensures results[v] == 0 {
      assert Among(e, ids, v) == {};
    }
  }

  /**
   * One `run_drawing` on a fresh `DrawSimul`: the bag filled for `e`, shuffled
   * by `r1` and then by `r2`, and `num_tags` draws with the numbers `rs`.
   */
  function Trial(e: seq<int>, numTags: int, r1: seq<int>, r2: seq<int>, rs: seq<int>): (r: Result<Tally, Stop>)
    requires |r1| == |r2| == BagSize(e) && Indices(r1, |r1|) && Indices(r2, |r2|) && Indices(rs, |r1|)
    ensures numTags <= 0 ==> r == Ok(Tally({}, Zeros(NumCategories)))
    ensures r.Ok? ==> |r.value.results| == NumCategories
  {
    assert [] + Layout(e) == Layout(e);
    PointsAfterFill([], e, r1, r2);
    Tags(Shuffled(Shuffled(Layout(e), r1), r2), {}, Zeros(NumCategories), rs, Count(numTags))
  }

  /**
   * Whatever the shuffles, a fresh drawing for more tags than applicants
   * never finishes, one for at most 21 categories never raises IndexError,
   * and a finished one hands out exactly `num_tags` tags, none to a category
   * beyond its applicants.
   */
  lemma TrialOutcome(e: seq<int>, numTags: int, r1: seq<int>, r2: seq<int>, rs: seq<int>)
    requires |r1| == |r2| == BagSize(e) && Indices(r1, |r1|) && Indices(r2, |r2|) && Indices(rs, |r1|)
    ensures Count(numTags) > NumApplicants(e) ==> Trial(e, numTags, r1, r2, rs).Err?
    ensures |e| <= NumCategories ==> Trial(e, numTags, r1, r2, rs) != Err(IndexError)
    ensures Trial(e, numTags, r1, r2, rs).Ok? ==>
      var t := Trial(e, numTags, r1, r2, rs).value.results;
      && |t| == NumCategories && Sum(t) == Count(numTags)
      && (forall v :: 0 <= v < |e| && v < NumCategories ==> 0 <= t[v] <= Count(e[v]))
      && (forall v :: |e| <= v < NumCategories ==> t[v] == 0)
  {
    var once := Shuffled(Layout(e), r1);
    ShuffledPermutes(Layout(e), r1);
    ShuffledPermutes(once, r2);
    assert multiset(Shuffled(once, r2)) == multiset(Layout(e));
    DrawingOutcome(e, Shuffled(once, r2), rs, Count(numTags));
  }

  // ---------------------------------------------------------------------
  // The classes
  // ---------------------------------------------------------------------

  /** A bag slot: one applicant, with the weight still to be put into the bag in `apps`. */
  class ApplicantNode {
    const appId: int
    const pointVal: int
    var apps: int

    constructor (appId: int, pointVal: int)
      ensures this.appId == appId && this.pointVal == pointVal
      ensures apps == Marginal(pointVal)
    {
      this.appId := appId;
      this.pointVal := pointVal;
      apps := if pointVal == 0 then 1 else pointVal * pointVal;
    }
  }

  /** What the drawing sees of a sequence of slots. */
  function Entries(b: seq<ApplicantNode>): (r: seq<Entry>)
    ensures |r| == |b|
    ensures forall i {:trigger r[i]} :: 0 <= i < |b| ==> r[i] == Entry(b[i].appId, b[i].pointVal)
  {
    if b == [] then [] else Entries(b[..|b| - 1]) + [Entry(b[|b| - 1].appId, b[|b| - 1].pointVal)]
  }

  /** Shuffling the nodes shuffles what the drawing sees the same way. */
  lemma {:induction false} EntriesShuffled(b: seq<ApplicantNode>, rs: seq<int>)
    requires |rs| <= |b| && Indices(rs, |b|)
    ensures Entries(Shuffled(b, rs)) == Shuffled(Entries(b), rs)
  {
    if rs != [] {
      var n := |rs| - 1;
      EntriesShuffled(b, rs[..n]);
    }
  }

  /** Appending to a bag built in two parts appends to its second part. */
  lemma Regroup(a: seq<Entry>, b: seq<Entry>, c: seq<Entry>)
    ensures a + b + c == a + (b + c)
  {
  }

  lemma EntriesSnoc(b: seq<ApplicantNode>, x: ApplicantNode)
    ensures Entries(b + [x]) == Entries(b) + [Entry(x.appId, x.pointVal)]
  {
    assert (b + [x])[..|b|] == b;
  }

  /** Non-negative point values stay so under any rearrangement. */
  lemma PointsKept(a: seq<Entry>, b: seq<Entry>)
    requires multiset(a) == multiset(b) && Natural(a)
    ensures Natural(b)
  {
    forall i | 0 <= i < |b| ensures 0 <= b[i].pointVal {
      assert b[i] in multiset(a);
      var j :| 0 <= j < |a| && a[j] == b[i];
    }
  }

  /** The filled bag only holds point values of categories of `e`. */
  lemma LayoutPoints(e: seq<int>)
    ensures PointsWithin(Layout(e), |e|)
  {
    forall i | 0 <= i < |Layout(e)| ensures 0 <= Layout(e)[i].pointVal < |e| {
      LayoutCount(e, Layout(e)[i]);
    }
  }

  /** A bag of non-negative point values stays so after filling and shuffling. */
  lemma PointsAfterFill(base: seq<Entry>, e: seq<int>, rands1: seq<int>, rands2: seq<int>)
    requires Natural(base)
    requires |rands1| == |rands2| == |base + Layout(e)|
    requires Indices(rands1, |rands1|) && Indices(rands2, |rands2|)
    ensures Natural(Shuffled(Shuffled(base + Layout(e), rands1), rands2))
  {
    var filled := base + Layout(e);
    LayoutPoints(e);
    assert Natural(filled) by {
      forall i | 0 <= i < |filled| ensures 0 <= filled[i].pointVal {
        if i >= |base| {
          assert filled[i] == Layout(e)[i - |base|];
        }
      }
    }
    ShuffledPermutes(filled, rands1);
    PointsKept(filled, Shuffled(filled, rands1));
    ShuffledPermutes(Shuffled(filled, rands1), rands2);
    PointsKept(Shuffled(filled, rands1), Shuffled(Shuffled(filled, rands1), rands2));
  }

  /** `AppBag`: a list of applicant slots and its length. */
  class AppBag {
    var bag: seq<ApplicantNode>
    var size: int

    predicate Valid()
      reads this
    {
      size == |bag|
    }

    constructor ()
      ensures Valid() && bag == []
    {
      bag := [];
      size := 0;
    }

    /** `add_to_bag`: appends one slot. */
    method AddToBag(applicant: ApplicantNode)
      requires Valid()
      modifies this
      ensures Valid() && bag == old(bag) + [applicant]
    {
      bag := bag + [applicant];
      size := size + 1;
    }

    /**
     * `randomize_bag`: for every position in turn, swap it with the position
     * `randint(0, size - 1)` gives, here `rands[curr_index]`.
     */
    method RandomizeBag(rands: seq<int>)
      requires Valid() && |rands| == size && Indices(rands, size)
      modifies this
      ensures Valid() && bag == Shuffled(old(bag), rands)
    {
      for curr := 0 to size
        invariant Valid() && |bag| == |old(bag)|
        invariant bag == Shuffled(old(bag), rands[..curr])
      {
        var randIndex := rands[curr];
        var currApplicant := bag[curr];
        var swapApplicant := bag[randIndex];
        bag := bag[randIndex := currApplicant];
        bag := bag[curr := swapApplicant];
        assert rands[..curr + 1][..curr] == rands[..curr];
      }
      assert rands[..size] == rands;
    }

    /** `draw_from_bag`: the slot at `index`, a negative index counting from the end. */
    method DrawFromBag(index: int) returns (applicant: ApplicantNode)
      requires Valid() && -size <= index < size
      ensures index >= 0 ==> applicant == bag[index]
      ensures index < 0 ==> applicant == bag[size + index]
      ensures applicant in bag
    {
      applicant := if index < 0 then bag[size + index] else bag[index];
    }
  }

  /** `DrawSimul` of the per-applicant drawing. */
  class DrawSimul {
    var tag: string
    var numTags: int
    var expectedApps: seq<int>
    const appsBag: AppBag
    var drawIds: set<int>
    var dwgResults: seq<int>

    /** One result slot per point value of 0 to 20, and no slot of the bag has a negative one. */
    predicate Valid()
      reads this, appsBag
    {
      && appsBag.Valid()
      && |dwgResults| == NumCategories
      && Natural(Entries(appsBag.bag))
    }

    constructor (expectedApps: seq<int>, tag: string, numTags: int)
      ensures Valid() && fresh(appsBag)
      ensures this.expectedApps == expectedApps && this.tag == tag && this.numTags == numTags
      ensures appsBag.bag == [] && drawIds == {} && dwgResults == Zeros(NumCategories)
    {
      this.tag := tag;
      this.numTags := numTags;
      this.expectedApps := expectedApps;
      appsBag := new AppBag();
      drawIds := {};
      dwgResults := Zeros(NumCategories);
    }

    /**
     * `draw_rand_id`, with `rands` the numbers its successive `randint` calls
     * return: the first applicant not yet drawn gets a tag in its point
     * value, unless that value has no slot; the outcome is `Attempt`'s.
     */
    method DrawRandId(rands: seq<int>) returns (r: Picked)
      requires Valid() && Indices(rands, appsBag.size)
      modifies this`drawIds, this`dwgResults
      ensures Valid()
      ensures r == Attempt(Entries(appsBag.bag), old(drawIds), |old(dwgResults)|, rands)
      ensures r.Chosen? ==>
        && drawIds == old(drawIds) + {r.entry.appId}
        && dwgResults == old(dwgResults)[r.entry.pointVal := old(dwgResults)[r.entry.pointVal] + 1]
      ensures r.Stopped? ==> drawIds == old(drawIds) && dwgResults == old(dwgResults)
      decreases |rands|
    {
      ghost var view := Entries(appsBag.bag);
      if appsBag.size == 0 {
        assert |view| == 0;
        return Stopped(EmptyRange);
      }
      if rands == [] {
        assert Pick(view, drawIds, rands) == Stopped(OutOfNumbers);
        return Stopped(OutOfNumbers);
      }
      var randApplicant := appsBag.DrawFromBag(rands[0]);
      assert view[rands[0]] == Entry(randApplicant.appId, randApplicant.pointVal);
      if randApplicant.appId in drawIds {
        PickRetry(view, drawIds, rands);
        r := DrawRandId(rands[1..]);
        if r.Chosen? {
          r := Chosen(r.entry, r.used + 1);
        }
        return;
      }
      PickFresh(view, drawIds, rands);
      if randApplicant.pointVal >= |dwgResults| {
        return Stopped(IndexError);
      }
      dwgResults := dwgResults[randApplicant.pointVal := dwgResults[randApplicant.pointVal] + 1];
      drawIds := drawIds + {randApplicant.appId};
      r := Chosen(Entry(randApplicant.appId, randApplicant.pointVal), 1);
    }

    /**
     * `add_applicants_to_bag`: fills the bag, then randomizes it twice, with
     * `rands1` and `rands2`.
     */
    method AddApplicantsToBag(rands1: seq<int>, rands2: seq<int>)
      requires Valid()
      requires |rands1| == |rands2| == appsBag.size + BagSize(expectedApps)
      requires Indices(rands1, |rands1|) && Indices(rands2, |rands2|)
      modifies appsBag
      ensures Valid()
      ensures Entries(appsBag.bag) == Shuffled(Shuffled(Entries(old(appsBag.bag)) + Layout(expectedApps), rands1), rands2)
    {
      ghost var base := Entries(appsBag.bag);
      FillBag();
      ghost var filled := appsBag.bag;
      appsBag.RandomizeBag(rands1);
      EntriesShuffled(filled, rands1);
      ghost var once := appsBag.bag;
      appsBag.RandomizeBag(rands2);
      EntriesShuffled(once, rands2);
      PointsAfterFill(base, expectedApps, rands1, rands2);
    }

    /**
     * The filling loops of `add_applicants_to_bag`: applicant `app_id` of
     * category `i` goes into the bag once per unit of its weight, ids counting
     * up from 0 across categories.
     */
    method FillBag()
      requires appsBag.Valid()
      modifies appsBag
      ensures appsBag.Valid() && Entries(appsBag.bag) == Entries(old(appsBag.bag)) + Layout(expectedApps)
    {
      ghost var base := Entries(appsBag.bag);
      ghost var e := expectedApps;
      var appId := 0;
      for i := 0 to |expectedApps|
        invariant appsBag.Valid() && Entries(appsBag.bag) == base + Layout(e[..i])
        invariant appId == NumApplicants(e[..i])
      {
        LayoutNext(e, i);
        var applicants := expectedApps[i];
        appId := AddCategory(appId, i, applicants);
        Regroup(base, Layout(e[..i]), Block(NumApplicants(e[..i]), i, Count(e[i]), Marginal(i)));
      }
      assert e[..|e|] == e;
    }

    /**
     * One pass of the `for i, applicants in enumerate(expected_apps)` loop of
     * `add_applicants_to_bag`: applicants `appId ..` of point value `i`,
     * returning the next `app_id`.
     */
    method AddCategory(appId: int, i: int, applicants: int) returns (next: int)
      requires appsBag.Valid()
      modifies appsBag
      ensures appsBag.Valid() && next == appId + Count(applicants)
      ensures Entries(appsBag.bag) == Entries(old(appsBag.bag)) + Block(appId, i, Count(applicants), Marginal(i))
    {
      ghost var base := Entries(appsBag.bag);
      next := appId;
      for app := 0 to Count(applicants)
        invariant appsBag.Valid()
        invariant Entries(appsBag.bag) == base + Block(appId, i, app, Marginal(i))
        invariant next == appId + app
      {
        AddApplicant(next, i);
        Regroup(base, Block(appId, i, app, Marginal(i)), Copies(appId + app, i, Marginal(i)));
        next := next + 1;
      }
    }

    /**
     * One pass of the `for app in range(applicants)` loop of
     * `add_applicants_to_bag`: a new node for applicant `appId` of point
     * value `i`, put into the bag by `while new_app.apps > 0` once per unit
     * of its weight.
     */
    method AddApplicant(appId: int, i: int)
      requires appsBag.Valid()
      modifies appsBag
      ensures appsBag.Valid() && Entries(appsBag.bag) == Entries(old(appsBag.bag)) + Copies(appId, i, Marginal(i))
    {
      ghost var base := Entries(appsBag.bag);
      var newApp := new ApplicantNode(appId, i);
      while newApp.apps > 0
        invariant appsBag.Valid() && 0 <= newApp.apps <= Marginal(i)
        invariant Entries(appsBag.bag) == base + Copies(appId, i, Marginal(i) - newApp.apps)
        decreases newApp.apps
      {
        EntriesSnoc(appsBag.bag, newApp);
        Regroup(base, Copies(appId, i, Marginal(i) - newApp.apps), [Entry(appId, i)]);
        appsBag.AddToBag(newApp);
        newApp.apps := newApp.apps - 1;
      }
    }

    /**
     * `run_drawing`: fill and randomize the bag, then draw `num_tags` tags.
     * The bag ends as `AddApplicantsToBag` leaves it and the drawing ends as
     * `Tags` says: the new `dwg_results` on success, the reason it stopped
     * otherwise.
     */
    method RunDrawing(rands1: seq<int>, rands2: seq<int>, rands: seq<int>) returns (r: Result<seq<int>, Stop>)
      requires Valid()
      requires |rands1| == |rands2| == appsBag.size + BagSize(expectedApps)
      requires Indices(rands1, |rands1|) && Indices(rands2, |rands2|) && Indices(rands, |rands1|)
      modifies appsBag, this`drawIds, this`dwgResults
      ensures Valid()
      ensures Entries(appsBag.bag) == Shuffled(Shuffled(Entries(old(appsBag.bag)) + Layout(expectedApps), rands1), rands2)
      ensures var out := Tags(Entries(appsBag.bag), old(drawIds), old(dwgResults), rands, Count(numTags));
        && (out.Ok? ==> r == Ok(dwgResults) && dwgResults == out.value.results && drawIds == out.value.ids)
        && (out.Err? ==> r == Err(out.error))
    {
      AddApplicantsToBag(rands1, rands2);
      r := DrawTags(rands);
    }

    /** The `for _ in range(self.num_tags)` loop of `run_drawing`. */
    method DrawTags(rands: seq<int>) returns (r: Result<seq<int>, Stop>)
      requires Valid() && Indices(rands, appsBag.size)
      modifies this`drawIds, this`dwgResults
      ensures Valid()
      ensures var out := Tags(Entries(appsBag.bag), old(drawIds), old(dwgResults), rands, Count(numTags));
        && (out.Ok? ==> r == Ok(dwgResults) && dwgResults == out.value.results && drawIds == out.value.ids)
        && (out.Err? ==> r == Err(out.error))
    {
      ghost var view := Entries(appsBag.bag);
      ghost var out := Tags(view, drawIds, dwgResults, rands, Count(numTags));
      var rest := rands;
      var t := 0;
      ghost var ids, res, n := drawIds, dwgResults, Count(numTags);
      while t < numTags
        invariant 0 <= t <= Count(numTags) && n == Count(numTags) - t
        invariant Valid() && view == Entries(appsBag.bag) && Indices(rest, |view|)
        invariant ids == drawIds && res == dwgResults
        invariant out == Tags(view, ids, res, rest, n)
      {
        var picked := DrawRandId(rest);
        match picked
        case Stopped(why) =>
          TagsStopped(view, ids, res, rest, n);
          return Err(why);
        case Chosen(x, used) =>
          TagsChosen(view, ids, res, rest, n, x, used);
          ids, res := ids + {x.appId}, res[x.pointVal := res[x.pointVal] + 1];
          rest := rest[used..];
        t := t + 1;
        n := n - 1;
      }
      r := Ok(dwgResults);
    }
  }
}
