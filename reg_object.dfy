/**
 * The region-level query object (`RegionsObject`): its five-year window and
 * the loop of `set_data` that turns the region/year sums, which the
 * database returns sorted by region and then year, into one record per
 * region appended to `data`.
 */
module Regions {
  import opened Results
  import opened Text
  import opened YearSeries

  /** A record of `data`; `region` is `None` only in the placeholder `set_data` starts from. */
  datatype RegionRecord = RegionRecord(region: Option<string>, series: Series, years: seq<int>)

  /** `new_obj` before the first group: no region and four empty lists. */
  function Placeholder(years: seq<int>): (r: RegionRecord)
    ensures r.region.None? && Even(r.series) && |r.series.numApps| == 0 && r.years == years
  {
    RegionRecord(None, Series([], [], [], []), years)
  }

  /** The loop's state: the records appended so far, and `new_obj`. */
  datatype Pass = Pass(done: seq<RegionRecord>, cur: RegionRecord)

  /** How the loop ends: every group written, or an exception once `done` was appended. */
  datatype Outcome = Continue(pass: Pass) | Halt(done: seq<RegionRecord>, error: Raised)

  /**
   * The first half of an iteration: a region other than `new_obj`'s starts a
   * fresh record, the previous one appended unless it is the placeholder.
   */
  function Begin(p: Pass, g: Group, years: seq<int>): (q: Pass)
    ensures Even(p.cur.series) ==> Even(q.cur.series)
  {
    if Some(g.key) != p.cur.region then
      Pass(if p.cur.region.Some? then p.done + [p.cur] else p.done, RegionRecord(Some(g.key), Zeroed(), years))
    else p
  }

  /** The second half: the group written into `new_obj` at `year - start`. */
  function Place(q: Pass, g: Group, start: int): (o: Outcome)
    requires Even(q.cur.series)
    ensures o.Continue? ==> Even(o.pass.cur.series)
  {
    match Slot(|q.cur.series.numApps|, g.year - start)
    case Err(e) => Halt(q.done, e)
    case Ok(k) =>
      match Average(g)
      case Err(e) => Halt(q.done, e)
      case Ok(avg) => Continue(Pass(q.done, q.cur.(series := Write(q.cur.series, k, g, avg))))
  }

  /** One iteration for group `g`. */
  function Step(p: Pass, g: Group, start: int, years: seq<int>): (o: Outcome)
    requires Even(p.cur.series)
    ensures o.Continue? ==> Even(o.pass.cur.series)
  {
    Place(Begin(p, g, years), g, start)
  }

  /** The loop over the groups `gs`, from the placeholder. */
  function Fold(gs: seq<Group>, start: int, years: seq<int>): (o: Outcome)
    ensures o.Continue? ==> Even(o.pass.cur.series)
  {
    if gs == [] then Continue(Pass([], Placeholder(years)))
    else
      match Fold(gs[..|gs| - 1], start, years)
      case Halt(d, e) => Halt(d, e)
      case Continue(p) => Step(p, gs[|gs| - 1], start, years)
  }

  /** Once an exception is raised, the later groups are never looked at. */
  lemma {:induction false} HaltSticks(gs: seq<Group>, i: nat, start: int, years: seq<int>)
    requires i <= |gs| && Fold(gs[..i], start, years).Halt?
    ensures Fold(gs, start, years) == Fold(gs[..i], start, years)
    decreases |gs| - i
  {
    if i < |gs| {
      assert gs[..i + 1][..i] == gs[..i];
      HaltSticks(gs, i + 1, start, years);
    } else {
      assert gs[..i] == gs;
    }
  }

  /** A record as `set_data` builds it: a region, four lists of `num_years` entries, the object's years. */
  predicate Shaped(r: RegionRecord, years: seq<int>)
  {
    r.region.Some? && Even(r.series) && |r.series.numApps| == NumYears && r.years == years
  }

  /**
   * For a non-empty group stream that raises nothing, the records are one
   * per run of equal regions, in order, each shaped with five-entry lists.
   */
  lemma {:induction false} RecordsAreRuns(gs: seq<Group>, start: int, years: seq<int>)
    requires gs != [] && Fold(gs, start, years).Continue?
    ensures var p := Fold(gs, start, years).pass;
      var rs := p.done + [p.cur];
      && p.cur.region == Some(gs[|gs| - 1].key)
      && |rs| == |Heads(Keys(gs))|
      && forall j :: 0 <= j < |rs| ==> rs[j].region == Some(Heads(Keys(gs))[j]) && Shaped(rs[j], years)
  {
    var n := |gs| - 1;
    var ks := Keys(gs);
    if n > 0 {
      var before := Fold(gs[..n], start, years);
      if before.Halt? {
        assert false;
      }
      var p0 := before.pass;
      RecordsAreRuns(gs[..n], start, years);
      assert Keys(gs[..n]) == ks[..n];
      var rs0 := p0.done + [p0.cur];
      assert rs0[|p0.done|] == p0.cur;
      assert Shaped(p0.cur, years) && |p0.cur.series.numApps| == NumYears;
      var p := Fold(gs, start, years).pass;
      assert Step(p0, gs[n], start, years) == Continue(p);
      if ks[n] == ks[n - 1] {
        assert Heads(ks) == Heads(ks[..n]);
        var k := Slot(NumYears, gs[n].year - start);
        var avg := Average(gs[n]);
        assert k.Ok? && avg.Ok?;
        assert p == Pass(p0.done, p0.cur.(series := Write(p0.cur.series, k.value, gs[n], avg.value)));
        var rs := p.done + [p.cur];
        forall j | 0 <= j < |rs|
          ensures rs[j].region == Some(Heads(ks)[j]) && Shaped(rs[j], years)
        {
          if j < |p0.done| {
            assert rs[j] == rs0[j];
          }
        }
      } else {
        assert Heads(ks) == Heads(ks[..n]) + [ks[n]];
        assert p.done == rs0;
      }
    } else {
      assert ks == [gs[0].key];
    }
  }

  /**
   * The body of the `set_data` loop for one group: `flush` tells whether
   * `new_obj` is appended to `data` first, then the group is written into
   * `next` or an exception is raised.
   */
  method Visit(ghost done: seq<RegionRecord>, obj: RegionRecord, g: Group, start: int, years: seq<int>)
    returns (flush: bool, next: RegionRecord, raised: Option<Raised>)
    requires Even(obj.series)
    ensures flush <==> Some(g.key) != obj.region && obj.region.Some?
    ensures match Step(Pass(done, obj), g, start, years)
      case Continue(p) => raised == None && p == Pass(if flush then done + [obj] else done, next)
      case Halt(d, e) => raised == Some(e) && d == (if flush then done + [obj] else done)
  {
    ghost var before := Pass(done, obj);
    var yearInd := g.year - start;
    next := obj;
    flush := false;
    if Some(g.key) != obj.region {
      flush := obj.region.Some?;
      next := RegionRecord(Some(g.key), Zeroed(), years);
    }
    ghost var q := Pass(if flush then done + [obj] else done, next);
    assert q == Begin(before, g, years);
    var slot := Slot(|next.series.numApps|, yearInd);
    if slot.Err? {
      return flush, next, Some(slot.error);
    }
    var avg := Average(g);
    if avg.Err? {
      return flush, next, Some(avg.error);
    }
    next := next.(series := Write(next.series, slot.value, g, avg.value));
    raised := None;
  }

  /** `RegionsObject`: the query settings and the records `set_data` appends. */
  class RegionsObject {
    const residency: string
    const species: string
    const region: int
    const start: int
    const end: int
    const years: seq<int>
    var data: seq<RegionRecord>

    /** The window is the five years `end_year - 4 .. end_year`. */
    constructor (residency: string, species: string, endYear: int, region: int)
      ensures this.residency == Upper(residency) && this.species == Upper(species) && this.region == region
      ensures start == endYear - 4 && end == endYear && years == Years(endYear)
      ensures data == []
    {
      this.residency := Upper(residency);
      this.species := Upper(species);
      this.region := region;
      start := Start(endYear);
      end := endYear;
      years := Years(endYear);
      data := [];
    }

    /**
     * The grouping loop of `set_data` over the query's `results`: records
     * are only ever appended to `data`, the last one always, so no results
     * leave just the placeholder behind.
     */
    method SetData(results: seq<Group>) returns (raised: Option<Raised>)
      modifies this`data
      ensures results == [] ==> raised == None && data == old(data) + [Placeholder(years)]
      ensures match Fold(results, start, years)
        case Continue(p) => raised == None && data == old(data) + p.done + [p.cur]
        case Halt(d, e) => raised == Some(e) && data == old(data) + d
    {
      var newObj := Placeholder(years);
      ghost var done: seq<RegionRecord> := [];
      var i := 0;
      while i < |results|
        invariant 0 <= i <= |results|
        invariant Fold(results[..i], start, years) == Continue(Pass(done, newObj))
        invariant data == old(data) + done
      {
        assert results[..i + 1][..i] == results[..i];
        var flush, next, err := Visit(done, newObj, results[i], start, years);
        if flush {
          data := data + [newObj];
          done := done + [newObj];
        }
        if err.Some? {
          HaltSticks(results, i + 1, start, years);
          return err;
        }
        newObj := next;
        i := i + 1;
      }
      assert results[..i] == results;
      data := data + [newObj];
      raised := None;
    }
  }
}
