/**
 * The few Python string operations the core relies on, over `string`
 * (`seq<char>`): `str.find`, `str.split(sep)`, `str.upper()` on ASCII
 * letters, `int(s)` and `int(float(s))` for plain decimal text.
 */
module Text {
  import opened Results

  /** `sub` occurs in `s` at position `k`. */
  predicate OccursAt(s: string, sub: string, k: int)
  {
    0 <= k && k + |sub| <= |s| && s[k..k + |sub|] == sub
  }

  /** Lowest position at or after `from` where `sub` occurs, or -1. */
  function FindFrom(s: string, sub: string, from: nat): (r: int)
    requires from <= |s|
    ensures r == -1 || (from <= r && OccursAt(s, sub, r))
    ensures r == -1 ==> forall k :: from <= k <= |s| ==> !OccursAt(s, sub, k)
    ensures r != -1 ==> forall k :: from <= k < r ==> !OccursAt(s, sub, k)
    decreases |s| - from
  {
    if OccursAt(s, sub, from) then from
    else if from == |s| then -1
    else FindFrom(s, sub, from + 1)
  }

  /** Python's `s.find(sub)`: the first position of `sub` in `s`, or -1. */
  function Find(s: string, sub: string): (r: int)
    ensures r == -1 <==> forall k :: 0 <= k <= |s| ==> !OccursAt(s, sub, k)
    ensures r != -1 ==> OccursAt(s, sub, r) && forall k :: 0 <= k < r ==> !OccursAt(s, sub, k)
  {
    FindFrom(s, sub, 0)
  }

  /** Python's `sub in s`, written in the source as `s.find(sub) != -1`. */
  predicate Contains(s: string, sub: string)
  {
    Find(s, sub) != -1
  }

  /** An occurrence inside a prefix is an occurrence in the whole string. */
  lemma OccursInPrefix(s: string, sub: string, k: nat, j: int)
    requires k <= |s| && OccursAt(s[..k], sub, j)
    ensures OccursAt(s, sub, j) && j + |sub| <= k
  {
    assert s[..k][j..j + |sub|] == s[j..j + |sub|];
  }

  /** Python's `s.split(sep)` for a non-empty separator. */
  function Split(s: string, sep: string): (parts: seq<string>)
    requires sep != ""
    ensures |parts| >= 1
    ensures forall i :: 0 <= i < |parts| ==> !Contains(parts[i], sep)
    decreases |s|
  {
    var k := Find(s, sep);
    if k == -1 then [s]
    else
      assert !Contains(s[..k], sep) by {
        forall j | 0 <= j <= |s[..k]| ensures !OccursAt(s[..k], sep, j) {
          if OccursAt(s[..k], sep, j) {
            OccursInPrefix(s, sep, k, j);
          }
        }
      }
      [s[..k]] + Split(s[k + |sep|..], sep)
  }

  /** Python's `sep.join(parts)`. */
  function Join(parts: seq<string>, sep: string): string
  {
    if |parts| == 0 then ""
    else if |parts| == 1 then parts[0]
    else parts[0] + sep + Join(parts[1..], sep)
  }

  /** Splitting loses nothing: joining the pieces again gives the text back. */
  lemma {:induction false} JoinSplit(s: string, sep: string)
    requires sep != ""
    ensures Join(Split(s, sep), sep) == s
    decreases |s|
  {
    var k := Find(s, sep);
    if k != -1 {
      var rest := s[k + |sep|..];
      assert Split(s, sep) == [s[..k]] + Split(rest, sep);
      JoinSplit(rest, sep);
      JoinCons(s[..k], Split(rest, sep), sep);
      Around(s, k, k + |sep|);
    }
  }

  /** Joining a first part onto at least one more puts the separator between them. */
  lemma JoinCons(a: string, ps: seq<string>, sep: string)
    requires ps != []
    ensures Join([a] + ps, sep) == a + sep + Join(ps, sep)
  {
    assert ([a] + ps)[1..] == ps;
  }

  /** A text is its three pieces around two cut points. */
  lemma Around(s: string, i: nat, j: nat)
    requires i <= j <= |s|
    ensures s == s[..i] + s[i..j] + s[j..]
  {
  }

  /** Python's `s.split(sep)[0]`: the text before the first `sep`, or all of `s`. */
  function BeforeFirst(s: string, sep: string): (r: string)
    requires sep != ""
    ensures Find(s, sep) == -1 ==> r == s
    ensures Find(s, sep) != -1 ==> r == s[..Find(s, sep)]
  {
    Split(s, sep)[0]
  }

  function UpperChar(c: char): char
  {
    if 'a' <= c <= 'z' then (c as int - 'a' as int + 'A' as int) as char else c
  }

  /** Python's `s.upper()`, restricted to the ASCII letters. */
  function Upper(s: string): (r: string)
    ensures |r| == |s|
    ensures forall i :: 0 <= i < |s| ==> !('a' <= r[i] <= 'z')
    ensures forall i :: 0 <= i < |s| ==> (r[i] == s[i] || ('a' <= s[i] <= 'z' && r[i] as int == s[i] as int - 32))
  {
    seq(|s|, i requires 0 <= i < |s| => UpperChar(s[i]))
  }

  /** Upper-casing twice is the same as upper-casing once. */
  lemma UpperIdempotent(s: string)
    ensures Upper(Upper(s)) == Upper(s)
  {
    assert forall i :: 0 <= i < |s| ==> UpperChar(UpperChar(s[i])) == UpperChar(s[i]);
  }

  predicate IsSpace(c: char)
  {
    c == ' ' || c == '\t' || c == '\n' || c == '\r' || c == 11 as char || c == 12 as char
  }

  /**
   * Python's `s.strip()` on ASCII white space: the result neither starts nor
   * ends with white space, and text that already does not is kept whole.
   */
  function Strip(s: string): (r: string)
    ensures |r| <= |s|
    ensures r != "" ==> !IsSpace(r[0]) && !IsSpace(r[|r| - 1])
    ensures s == "" || (!IsSpace(s[0]) && !IsSpace(s[|s| - 1])) ==> r == s
    decreases |s|
  {
    if s == "" then ""
    else if IsSpace(s[0]) then Strip(s[1..])
    else if IsSpace(s[|s| - 1]) then Strip(s[..|s| - 1])
    else s
  }

  predicate IsDigit(c: char)
  {
    '0' <= c <= '9'
  }

  predicate AllDigits(s: string)
  {
    forall i :: 0 <= i < |s| ==> IsDigit(s[i])
  }

  /** The value of a string of decimal digits, most significant first. */
  function DigitsValue(ds: string): (n: nat)
    requires AllDigits(ds)
  {
    if ds == [] then 0
    else 10 * DigitsValue(ds[..|ds| - 1]) + (ds[|ds| - 1] as int - '0' as int)
  }

  /** The decimal spelling of a natural number, without leading zeros. */
  function NatToString(n: nat): (s: string)
    ensures |s| >= 1 && AllDigits(s)
  {
    if n < 10 then [('0' as int + n) as char]
    else NatToString(n / 10) + [('0' as int + n % 10) as char]
  }

  /** `DigitsValue` inverts `NatToString`. */
  lemma {:induction false} DigitsValueOfNatToString(n: nat)
    ensures DigitsValue(NatToString(n)) == n
  {
    if n >= 10 {
      var s := NatToString(n);
      assert s[..|s| - 1] == NatToString(n / 10);
      DigitsValueOfNatToString(n / 10);
    }
  }

  /** An optional sign, then the rest of the text; `neg` is true for `-`. */
  function SplitSign(t: string): (r: (bool, string))
    ensures |r.1| <= |t|
  {
    if t != "" && (t[0] == '-' || t[0] == '+') then (t[0] == '-', t[1..]) else (false, t)
  }

  /**
   * Python's `int(s)` for ASCII decimal text: surrounding white space, an
   * optional sign and at least one digit. Any other text is taken as a
   * ValueError; Python itself also accepts underscores between digits and
   * non-ASCII digits.
   */
  function ParseInt(s: string): (r: Option<int>)
    ensures s != "" && AllDigits(s) ==> r == Some(DigitsValue(s))
    ensures r.Some? ==> Strip(s) != "" && (r.value < 0 ==> Strip(s)[0] == '-')
  {
    var t := Strip(s);
    var (neg, ds) := SplitSign(t);
    if ds != "" && AllDigits(ds) then
      var v: int := DigitsValue(ds);
      Some(if neg then -v else v)
    else None
  }

  /** Python's `str(n)` for an integer. */
  function IntToString(n: int): string
  {
    if n < 0 then "-" + NatToString(-n) else NatToString(n)
  }

  /** `int(str(n)) == n`. */
  lemma ParseIntToString(n: int)
    ensures ParseInt(IntToString(n)) == Some(n)
  {
    var s := IntToString(n);
    var m: nat := if n < 0 then -n else n;
    DigitsValueOfNatToString(m);
    assert Strip(s) == s by {
      assert !IsSpace(s[0]) && !IsSpace(s[|s| - 1]);
    }
    if n < 0 {
      assert SplitSign(s) == (true, NatToString(m));
    } else {
      assert SplitSign(s) == (false, NatToString(m));
    }
  }

  /** Digit text holds no decimal point. */
  lemma NoDot(body: string)
    requires AllDigits(body)
    ensures Find(body, ".") == -1
  {
    forall k | 0 <= k <= |body| ensures !OccursAt(body, ".", k) {
      if k < |body| {
        assert body[k..k + 1][0] == body[k];
      }
    }
  }

  /**
   * `int(float(s))` for plain decimal text `[sign] digits [. digits]` with
   * at least one digit: the value truncated toward zero, so digit text
   * gives its own value and only a leading minus gives a negative one.
   */
  function ParseTruncated(s: string): (r: Option<int>)
    ensures s != "" && AllDigits(s) ==> r == Some(DigitsValue(s))
    ensures r.Some? ==> Strip(s) != "" && (r.value < 0 ==> Strip(s)[0] == '-')
  {
    var t := Strip(s);
    var (neg, body) := SplitSign(t);
    var dot := Find(body, ".");
    var whole := if dot == -1 then body else body[..dot];
    var frac := if dot == -1 then "" else body[dot + 1..];
    assert s != "" && AllDigits(s) ==> Find(s, ".") == -1 by {
      if s != "" && AllDigits(s) {
        NoDot(s);
      }
    }
    if AllDigits(whole) && AllDigits(frac) && (whole != "" || frac != "") then
      var v: int := DigitsValue(whole);
      Some(if neg then -v else v)
    else None
  }

  /** On text `int` accepts, `int(float(s))` gives the same number. */
  lemma ParseTruncatedAgrees(s: string)
    requires ParseInt(s).Some?
    ensures ParseTruncated(s) == ParseInt(s)
  {
    var t := Strip(s);
    var (neg, body) := SplitSign(t);
    NoDot(body);
  }
}
