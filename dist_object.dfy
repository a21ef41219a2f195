/**
 * The district-level query object (`DistObject`): its five-year window and
 * the loop of `query_districts_data` that turns the district/year sums,
 * which the database returns sorted by district and then year, into one
 * record per district appended to `data`.
 */
module Districts {
  import opened Results
  import opened Text
  import opened YearSeries

  /** A record of `data`: the district, the object's years, and the four lists of `district data`. */
  datatype DistRecord = DistRecord(district: string, years: seq<int>, districtData: Series)

  /** The loop's state: the values appended to `data` so far, and `curr_dist` (`None` before the first group). */
  datatype Pass = Pass(done: seq<Option<DistRecord>>, cur: Option<DistRecord>)

  /** How the loop ends: every group written, or an exception once `done` was appended. */
  datatype Outcome = Continue(pass: Pass) | Halt(done: seq<Option<DistRecord>>, error: Raised)

  /** `curr_dist` is `None` or holds four lists of one length. */
  predicate Ready(p: Pass)
  {
    p.cur.None? || Even(p.cur.value.districtData)
  }

  /**
   * The first half of an iteration: no current record, or another district,
   * starts a fresh one, the previous one appended when there is one.
   */
  function Begin(p: Pass, g: Group, years: seq<int>): (q: Pass)
    requires Ready(p)
    ensures q.cur.Some? && Even(q.cur.value.districtData)
  {
    if p.cur.None? || g.key != p.cur.value.district then
      Pass(if p.cur.Some? then p.done + [p.cur] else p.done, Some(DistRecord(g.key, years, Zeroed())))
    else p
  }

  /**
   * The second half: the average is computed first, and only then is the
   * group written into `curr_dist` at `year - start`.
   */
  function Place(q: Pass, g: Group, start: int): (o: Outcome)
    requires q.cur.Some? && Even(q.cur.value.districtData)
    ensures o.Continue? ==> o.pass.done == q.done && o.pass.cur.Some? && Even(o.pass.cur.value.districtData)
    ensures o.Halt? ==> o.done == q.done
  {
    var r := q.cur.value;
    match Average(g)
    case Err(e) => Halt(q.done, e)
    case Ok(avg) =>
      match Slot(|r.districtData.numApps|, g.year - start)
      case Err(e) => Halt(q.done, e)
      case Ok(k) => Continue(Pass(q.done, Some(r.(districtData := Write(r.districtData, k, g, avg)))))
  }

  /** One iteration for group `g`. */
  function Step(p: Pass, g: Group, start: int, years: seq<int>): (o: Outcome)
    requires Ready(p)
    ensures o.Continue? ==> o.pass.cur.Some? && Ready(o.pass)
  {
    Place(Begin(p, g, years), g, start)
  }

  /** The loop over the groups `gs`, from `curr_dist = None`. */
  function Fold(gs: seq<Group>, start: int, years: seq<int>): (o: Outcome)
    ensures o.Continue? ==> Ready(o.pass)
  {
    if gs == [] then Continue(Pass([], None))
    else
      match Fold(gs[..|gs| - 1], start, years)
      case Halt(d, e) => Halt(d, e)
      case Continue(p) => Step(p, gs[|gs| - 1], start, years)
  }

  /** Once an exception is raised, the later groups are never looked at. */
  lemma {:induction false} HaltSticks(gs: seq<Group>, i: nat, start: int, years: seq<int>)
    requires i <= |gs| && Fold(gs[..i], start, years).Halt?
    ensures Fold(gs, start, years) == Fold(gs[..i], start, years)
    decreases |gs| - i
  {
    if i < |gs| {
      assert gs[..i + 1][..i] == gs[..i];
      HaltSticks(gs, i + 1, start, years);
    } else {
      assert gs[..i] == gs;
    }
  }

  /** A record as the loop builds it: four lists of `num_years` entries and the object's years. */
  predicate Shaped(r: DistRecord, years: seq<int>)
  {
    Even(r.districtData) && |r.districtData.numApps| == NumYears && r.years == years
  }

  /** The records `p` has built, `curr_dist` last, are named `hs` in order and shaped. */
  predicate RunsOf(p: Pass, hs: seq<string>, years: seq<int>)
  {
    && p.cur.Some? && |p.done| + 1 == |hs|
    && (forall j :: 0 <= j < |p.done| ==> p.done[j].Some? && p.done[j].value.district == hs[j] && Shaped(p.done[j].value, years))
    && p.cur.value.district == hs[|p.done|] && Shaped(p.cur.value, years)
  }

  /** A group of the current district is written into `curr_dist`: no new record. */
  lemma SameRun(p0: Pass, g: Group, start: int, years: seq<int>, hs: seq<string>)
    requires RunsOf(p0, hs, years) && g.key == p0.cur.value.district
    requires Step(p0, g, start, years).Continue?
    ensures RunsOf(Step(p0, g, start, years).pass, hs, years)
  {
    var r0 := p0.cur.value;
    var avg := Average(g);
    var k := Slot(NumYears, g.year - start);
    assert avg.Ok? && k.Ok?;
    assert Step(p0, g, start, years).pass == Pass(p0.done, Some(r0.(districtData := Write(r0.districtData, k.value, g, avg.value))));
  }

  /** A group of another district appends `curr_dist` and starts a record for it. */
  lemma NewRun(p0: Pass, g: Group, start: int, years: seq<int>, hs: seq<string>)
    requires RunsOf(p0, hs, years) && g.key != p0.cur.value.district
    requires Step(p0, g, start, years).Continue?
    ensures RunsOf(Step(p0, g, start, years).pass, hs + [g.key], years)
  {
    var p := Step(p0, g, start, years).pass;
    assert p.done == p0.done + [p0.cur];
    forall j | 0 <= j < |p.done|
      ensures p.done[j].Some? && p.done[j].value.district == (hs + [g.key])[j] && Shaped(p.done[j].value, years)
    {
      if j < |p0.done| {
        assert p.done[j] == p0.done[j];
      }
    }
  }

  /**
   * For a non-empty group stream that raises nothing, the records are one
   * per run of equal districts, in order, each shaped with five-entry lists
   * and the object's own years; `curr_dist` holds the last district.
   */
  lemma {:induction false} DistrictsAreRuns(gs: seq<Group>, start: int, years: seq<int>)
    requires gs != [] && Fold(gs, start, years).Continue?
    ensures RunsOf(Fold(gs, start, years).pass, Heads(Keys(gs)), years)
    ensures Fold(gs, start, years).pass.cur.value.district == gs[|gs| - 1].key
  {
    var n := |gs| - 1;
    var ks := Keys(gs);
    if n > 0 {
      var before := Fold(gs[..n], start, years);
      if before.Halt? {
        assert false;
      }
      var p0 := before.pass;
      DistrictsAreRuns(gs[..n], start, years);
      assert Keys(gs[..n]) == ks[..n];
      assert Fold(gs, start, years) == Step(p0, gs[n], start, years);
      if ks[n] == ks[n - 1] {
        assert Heads(ks) == Heads(ks[..n]);
        SameRun(p0, gs[n], start, years, Heads(ks));
      } else {
        assert Heads(ks) == Heads(ks[..n]) + [ks[n]];
        NewRun(p0, gs[n], start, years, Heads(ks[..n]));
      }
    } else {
      assert ks == [gs[0].key];
    }
  }

  /**
   * The body of the `query_districts_data` loop for one group: `flush`
   * tells whether `curr_dist` is appended to `data` first, then the group is
   * written into `next` or an exception is raised.
   */
  method Visit(ghost done: seq<Option<DistRecord>>, cur: Option<DistRecord>, g: Group, start: int, years: seq<int>)
    returns (flush: bool, next: DistRecord, raised: Option<Raised>)
    requires Ready(Pass(done, cur))
    ensures flush <==> cur.Some? && g.key != cur.value.district
    ensures Begin(Pass(done, cur), g, years).done == if flush then done + [cur] else done
    ensures match Place(Begin(Pass(done, cur), g, years), g, start)
      case Continue(p) => raised == None && p.cur == Some(next)
      case Halt(_, e) => raised == Some(e)
  {
    ghost var before := Pass(done, cur);
    flush := false;
    if cur.None? || g.key != cur.value.district {
      flush := cur.Some?;
      next := DistRecord(g.key, years, Zeroed());
    } else {
      next := cur.value;
    }
    ghost var q := Pass(if flush then done + [cur] else done, Some(next));
    assert q == Begin(before, g, years);
    var yearInd := g.year - start;
    var avg := Average(g);
    if avg.Err? {
      return flush, next, Some(avg.error);
    }
    var slot := Slot(|next.districtData.numApps|, yearInd);
    if slot.Err? {
      return flush, next, Some(slot.error);
    }
    next := next.(districtData := Write(next.districtData, slot.value, g, avg.value));
    raised := None;
  }

  /** `DistObject`: the query settings and the records `query_districts_data` appends. */
  class DistObject {
    const start: int
    const end: int
    const years: seq<int>
    const region: string
    const species: string
    const residency: string
    var data: seq<Option<DistRecord>>

    /** The window is the five years `end_year - 4 .. end_year`. */
    constructor (species: string, residency: string, region: string, endYear: int)
      ensures this.species == Upper(species) && this.residency == Upper(residency) && this.region == region
      ensures start == endYear - 4 && end == endYear && years == Years(endYear)
      ensures data == []
    {
      start := Start(endYear);
      end := endYear;
      years := Years(endYear);
      this.region := region;
      this.species := Upper(species);
      this.residency := Upper(residency);
      data := [];
    }

    /**
     * The grouping loop of `query_districts_data` over the query's
     * `results`: records are only ever appended to `data`, the last one
     * always, so no results append just `None`.
     */
    method QueryDistrictsData(results: seq<Group>) returns (raised: Option<Raised>)
      modifies this`data
      ensures results == [] ==> raised == None && data == old(data) + [None]
      ensures match Fold(results, start, years)
        case Continue(p) => raised == None && data == old(data) + p.done + [p.cur]
        case Halt(d, e) => raised == Some(e) && data == old(data) + d
    {
      var currDist: Option<DistRecord> := None;
      ghost var done: seq<Option<DistRecord>> := [];
      var i := 0;
      while i < |results|
        invariant 0 <= i <= |results|
        invariant Fold(results[..i], start, years) == Continue(Pass(done, currDist))
        invariant data == old(data) + done
      {
        assert results[..i + 1][..i] == results[..i];
        ghost var q := Begin(Pass(done, currDist), results[i], years);
        assert Fold(results[..i + 1], start, years) == Place(q, results[i], start);
        var flush, next, err := Visit(done, currDist, results[i], start, years);
        if flush {
          data := data + [currDist];
          done := done + [currDist];
        }
        assert done == q.done;
        if err.Some? {
          HaltSticks(results, i + 1, start, years);
          return err;
        }
        currDist := Some(next);
        i := i + 1;
      }
      assert results[..i] == results;
      data := data + [currDist];
      raised := None;
    }
  }
}
