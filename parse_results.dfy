/**
 * The drawing-results normaliser (`parse_drawing_results.py`): finding the
 * columns of interest in a header line, turning one spreadsheet row into
 * the normalised record, and the two keys `main` derives from it.
 */
module ParseResults {
  import opened Results
  import opened Text
  import opened PointWeight

  /** The keys of `data_locations`. */
  datatype Field = LicenseNum | LicenseType | TagNum | Residency | PointVal | Applicants | Successes

  /** `data_locations`: a column position per key found in the header. */
  type Locations = map<Field, nat>

  /** What `process_line` raises. */
  datatype Failure = KeyError(key: Field) | IndexError | ValueError

  // ---------------------------------------------------------------------
  // parse_header
  // ---------------------------------------------------------------------

  /** Which of the keywords `parse_header` looks for a column title contains. */
  datatype Title = Title(
    itemType: bool, description: bool, district: bool, residency: bool,
    points: bool, appl: bool, success: bool)

  function TitleOf(header: string): Title
  {
    Title(
      Contains(header, "Item Type"), Contains(header, "Description"), Contains(header, "District"),
      Contains(header, "Residency"), Contains(header, "Points"), Contains(header, "Appl"),
      Contains(header, "# Success") || Contains(header, "Number of Success"))
  }

  function TitlesOf(headers: seq<string>): (ts: seq<Title>)
    ensures |ts| == |headers| && forall i :: 0 <= i < |headers| ==> ts[i] == TitleOf(headers[i])
  {
    seq(|headers|, i requires 0 <= i < |headers| => TitleOf(headers[i]))
  }

  /** The key the `if ... elif ...` chain of `parse_header` assigns for a column, if any. */
  function ChainField(t: Title): Option<Field>
  {
    if t.description then Some(LicenseType)
    else if t.district then Some(TagNum)
    else if t.residency then Some(Residency)
    else if t.points then Some(PointVal)
    else if t.appl then Some(Applicants)
    else if t.success then Some(Successes)
    else None
  }

  /**
   * A column titled `t` sets key `f`: "Item Type" is tested on its own,
   * before the chain, so one column can set `license_num` and a chain key.
   */
  predicate Names(t: Title, f: Field)
  {
    (f == LicenseNum && t.itemType) || ChainField(t) == Some(f)
  }

  /** One pass of the loop: column `i`, titled `t`, seen with `m` found so far. */
  function Record(m: Locations, t: Title, i: nat): Locations
  {
    var m1 := if t.itemType then m[LicenseNum := i] else m;
    match ChainField(t)
    case Some(f) => m1[f := i]
    case None => m1
  }

  /** The locations found in the columns titled `titles`: each names a column titled for its key. */
  function Locate(titles: seq<Title>): (r: Locations)
    ensures forall f :: f in r ==> r[f] < |titles| && Names(titles[r[f]], f)
  {
    if titles == [] then map[] else Record(Locate(titles[..|titles| - 1]), titles[|titles| - 1], |titles| - 1)
  }

  /** `parse_header`: the header line split on commas, scanned left to right. */
  method ParseHeader(headerLine: string) returns (locations: Locations)
    ensures locations == Locate(TitlesOf(Split(headerLine, ",")))
  {
    var headerArray := Split(headerLine, ",");
    ghost var titles := TitlesOf(headerArray);
    locations := map[];
    var i := 0;
    while i < |headerArray|
      invariant 0 <= i <= |headerArray|
      invariant locations == Locate(titles[..i])
    {
      assert titles[..i + 1][..i] == titles[..i];
      locations := RecordColumn(locations, headerArray[i], i);
      i := i + 1;
    }
    assert titles[..i] == titles;
  }

  /** The body of the loop of `parse_header`, for column `i` titled `header`. */
  method RecordColumn(locations: Locations, header: string, i: nat) returns (next: Locations)
    ensures next == Record(locations, TitleOf(header), i)
  {
    ghost var t := TitleOf(header);
    next := locations;
    if Contains(header, "Item Type") {
      next := next[LicenseNum := i];
    }
    if Contains(header, "Description") {
      next := next[LicenseType := i];
    } else if Contains(header, "District") {
      next := next[TagNum := i];
    } else if Contains(header, "Residency") {
      next := next[Residency := i];
    } else if Contains(header, "Points") {
      next := next[PointVal := i];
    } else if Contains(header, "Appl") {
      next := next[Applicants := i];
    } else if Contains(header, "# Success") || Contains(header, "Number of Success") {
      next := next[Successes := i];
    }
  }

  /**
   * A key is found exactly when some column names it, and then it holds the
   * LAST such column: a later match overwrites an earlier one.
   */
  lemma {:induction false} LocateLast(titles: seq<Title>, f: Field)
    ensures f !in Locate(titles) <==> forall j :: 0 <= j < |titles| ==> !Names(titles[j], f)
    ensures f in Locate(titles) ==>
      var k := Locate(titles)[f];
      && k < |titles| && Names(titles[k], f)
      && forall j :: k < j < |titles| ==> !Names(titles[j], f)
  {
    if titles != [] {
      var n := |titles| - 1;
      var pre := titles[..n];
      var m := Locate(pre);
      assert Locate(titles) == Record(m, titles[n], n);
      LocateLast(pre, f);
      RecordKey(m, titles[n], n, f);
      if Names(titles[n], f) {
        assert f in Locate(titles) && Locate(titles)[f] == n;
      } else {
        forall j | 0 <= j < n ensures titles[j] == pre[j] {
        }
        assert (f in Locate(titles)) == (f in m);
        assert (forall j :: 0 <= j < |titles| ==> !Names(titles[j], f)) <==> (forall j :: 0 <= j < n ==> !Names(pre[j], f));
      }
    }
  }

  /** One column sets key `f` to itself exactly when its title names `f`, and keeps `f` otherwise. */
  lemma RecordKey(m: Locations, t: Title, i: nat, f: Field)
    ensures f in Record(m, t, i) <==> f in m || Names(t, f)
    ensures Names(t, f) ==> Record(m, t, i)[f] == i
    ensures !Names(t, f) && f in m ==> Record(m, t, i)[f] == m[f]
  {
  }

  // ---------------------------------------------------------------------
  // process_line
  // ---------------------------------------------------------------------

  /** The normalised record: the ten entries of `imp_data`, in order. */
  datatype Row = Row(
    year: int, species: string, licenseNum: int, licenseType: string, district: string,
    tagNum: string, residency: string, pointVal: int, applicants: int, successes: int)

  /** `line[data_indices[f]]`. */
  function Cell(line: seq<string>, idx: Locations, f: Field): (r: Result<string, Failure>)
    ensures r.Ok? <==> f in idx && idx[f] < |line|
    ensures r.Ok? ==> r.value == line[idx[f]]
    ensures f !in idx ==> r == Err(KeyError(f))
  {
    if f !in idx then Err(KeyError(f))
    else if idx[f] >= |line| then Err(IndexError)
    else Ok(line[idx[f]])
  }

  /** Every key of `data_locations` is present and names a column of `line`. */
  predicate Located(line: seq<string>, idx: Locations)
  {
    && Cell(line, idx, LicenseNum).Ok? && Cell(line, idx, LicenseType).Ok? && Cell(line, idx, TagNum).Ok?
    && Cell(line, idx, Residency).Ok? && Cell(line, idx, PointVal).Ok?
    && Cell(line, idx, Applicants).Ok? && Cell(line, idx, Successes).Ok?
  }

  /** A cell the source treats as empty. */
  predicate Blank(s: string)
  {
    s == "" || s == " "
  }

  /**
   * The license number and type: read from their columns, or, when both
   * share one column, that cell unpacked from its split on `" - "`, which
   * must give exactly two pieces.
   */
  function License(num: string, typ: string, shared: bool): (r: Result<(string, string), Failure>)
    ensures !shared ==> r == Ok((num, typ))
    ensures shared ==> (r.Ok? <==> |Split(num, " - ")| == 2)
    ensures shared && r.Err? ==> r.error == ValueError
    ensures shared && r.Ok? ==> Find(num, " - ") != -1 && r.value.0 == num[..Find(num, " - ")]
    ensures shared && r.Ok? ==> r.value.0 + " - " + r.value.1 == num
    ensures shared && r.Ok? ==> !Contains(r.value.0, " - ") && !Contains(r.value.1, " - ")
  {
    if !shared then Ok((num, typ))
    else
      var parts := Split(num, " - ");
      if |parts| != 2 then Err(ValueError)
      else
        JoinSplit(num, " - ");
        assert Join(parts, " - ") == parts[0] + " - " + Join(parts[1..], " - ");
        Ok((parts[0], parts[1]))
  }

  /** The tag number: a cell longer than six characters is cut before its first space. */
  function TagOf(cell: string): (t: string)
    ensures |cell| <= 6 ==> t == cell
    ensures |cell| > 6 ==> t <= cell && !Contains(t, " ")
    ensures |cell| > 6 && !Contains(cell, " ") ==> t == cell
    ensures |cell| > 6 && Contains(cell, " ") ==> t == cell[..Find(cell, " ")]
  {
    if |cell| > 6 then
      assert Split(cell, " ")[0] <= cell by {
        if Find(cell, " ") == -1 {
          assert Split(cell, " ")[0] == cell;
        }
      }
      BeforeFirst(cell, " ")
    else cell
  }

  /** The point value: a blank cell counts as 0 points, anything else goes through `int(float(...))`. */
  function PointOf(cell: string): (r: Result<int, Failure>)
    ensures Blank(cell) ==> r == Ok(0)
    ensures !Blank(cell) ==> (r.Ok? <==> ParseTruncated(cell).Some?)
    ensures !Blank(cell) && r.Ok? ==> r.value == ParseTruncated(cell).value
  {
    if Blank(cell) then Ok(0)
    else
      match ParseTruncated(cell)
      case Some(v) => Ok(v)
      case None => Err(ValueError)
  }

  /** `int(s)`, raising ValueError on text it does not accept. */
  function Int(s: string): (r: Result<int, Failure>)
    ensures r.Ok? <==> ParseInt(s).Some?
    ensures r.Ok? ==> r.value == ParseInt(s).value
  {
    match ParseInt(s)
    case Some(v) => Ok(v)
    case None => Err(ValueError)
  }

  /**
   * What a non-blank row needs to become a record: every key located within
   * the row, the license cell(s) unpacked, and the license number, point
   * value and both counts converting.
   */
  predicate Convertible(line: seq<string>, idx: Locations)
  {
    && Located(line, idx) && !Blank(line[idx[Residency]])
    && (var license := License(line[idx[LicenseNum]], line[idx[LicenseType]], idx[LicenseNum] == idx[LicenseType]);
        license.Ok? && ParseInt(license.value.0).Some?)
    && PointOf(line[idx[PointVal]]).Ok?
    && ParseInt(line[idx[Applicants]]).Some? && ParseInt(line[idx[Successes]]).Some?
  }

  /**
   * `process_line`: `Ok(None)` is the empty list returned for a row without
   * residency (a totals row); otherwise the normalised record, or the
   * exception the first failing lookup or conversion raises.
   */
  function ProcessLine(year: int, line: seq<string>, idx: Locations): (r: Result<Option<Row>, Failure>)
    ensures r == Ok(None) <==> Residency in idx && idx[Residency] < |line| && Blank(line[idx[Residency]])
    ensures Residency !in idx ==> r == Err(KeyError(Residency))
    ensures r.Ok? && r.value.Some? <==> Convertible(line, idx)
    ensures r.Ok? && r.value.Some? ==>
      var row := r.value.value;
      && Located(line, idx)
      && row.year == year
      && row.residency == line[idx[Residency]] && !Blank(row.residency)
      && row.tagNum == TagOf(line[idx[TagNum]])
      && row.species == BeforeFirst(row.licenseType, " ")
      && row.district == BeforeFirst(row.tagNum, "-")
      && PointOf(line[idx[PointVal]]) == Ok(row.pointVal)
      && (Blank(line[idx[PointVal]]) ==> row.pointVal == 0)
      && (var license := License(line[idx[LicenseNum]], line[idx[LicenseType]], idx[LicenseNum] == idx[LicenseType]);
          license.Ok? && row.licenseType == license.value.1 && Some(row.licenseNum) == ParseInt(license.value.0))
      && Some(row.applicants) == ParseInt(line[idx[Applicants]])
      && Some(row.successes) == ParseInt(line[idx[Successes]])
      && (idx[LicenseNum] != idx[LicenseType] ==> row.licenseType == line[idx[LicenseType]])
  {
    var residency := Cell(line, idx, Residency);
    if residency.Err? then Err(residency.error)
    else if Blank(residency.value) then Ok(None)
    else
      var num := Cell(line, idx, LicenseNum);
      var typ := Cell(line, idx, LicenseType);
      if num.Err? then Err(num.error)
      else if typ.Err? then Err(typ.error)
      else
        var license := License(num.value, typ.value, idx[LicenseNum] == idx[LicenseType]);
        var tag := Cell(line, idx, TagNum);
        if license.Err? then Err(license.error)
        else if tag.Err? then Err(tag.error)
        else
          var tagNum := TagOf(tag.value);
          var pts := Cell(line, idx, PointVal);
          if pts.Err? then Err(pts.error)
          else
            var point := PointOf(pts.value);
            if point.Err? then Err(point.error)
            else
              var (licenseNum, licenseType) := license.value;
              var species := BeforeFirst(licenseType, " ");
              var district := BeforeFirst(tagNum, "-");
              var numVal := Int(licenseNum);
              var apps := Cell(line, idx, Applicants);
              if numVal.Err? then Err(numVal.error)
              else if apps.Err? then Err(apps.error)
              else
                var appsVal := Int(apps.value);
                var succ := Cell(line, idx, Successes);
                if appsVal.Err? then Err(appsVal.error)
                else if succ.Err? then Err(succ.error)
                else
                  var succVal := Int(succ.value);
                  if succVal.Err? then Err(succVal.error)
                  else
                    Ok(Some(Row(year, species, numVal.value, licenseType, district, tagNum,
                                residency.value, point.value, appsVal.value, succVal.value)))
  }

  // ---------------------------------------------------------------------
  // The document `main` stores for a row
  // ---------------------------------------------------------------------

  /** One stored document: the record plus `region` and `total_points`. */
  datatype Document = Document(
    dwgYear: int, species: string, licenseNum: int, licenseType: string, district: string,
    tagNum: string, region: char, residency: string, pointVal: int, applicants: int,
    successes: int, totalPoints: int)

  /**
   * `new_dict` with `total_points` added: the region is the first character
   * of the tag number (IndexError for an empty one), and the total points
   * weigh the applicants by the point-squared rule.
   */
  function ToDocument(row: Row): (r: Result<Document, Failure>)
    ensures r.Err? <==> row.tagNum == ""
    ensures r.Ok? ==> r.value.region == row.tagNum[0]
    ensures r.Ok? ==> r.value.totalPoints == Weight(row.pointVal, row.applicants)
    ensures r.Ok? ==> r.value.totalPoints == row.applicants * Marginal(row.pointVal)
  {
    if row.tagNum == "" then Err(IndexError)
    else
      var adjustedBasis := if row.pointVal == 0 then 1 else row.pointVal * row.pointVal;
      Ok(Document(row.year, row.species, row.licenseNum, row.licenseType, row.district,
                  row.tagNum, row.tagNum[0], row.residency, row.pointVal, row.applicants,
                  row.successes, row.applicants * adjustedBasis))
  }
}
