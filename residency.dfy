/**
 * `reformat_residency` of the query server: the residency choice of a
 * request mapped onto the two values the documents store.
 */
module Residency {
  import opened Text

  /** Python's `s[:n]`: the first `n` characters, or all of `s` when it is shorter. */
  function Head(s: string, n: nat): (r: string)
    ensures |r| == if |s| < n then |s| else n
    ensures r <= s
  {
    if |s| < n then s else s[..n]
  }

  /** `c` is the upper-case ASCII letter `u` in either case. */
  predicate Letter(c: char, u: char)
    requires 'A' <= u <= 'Z'
  {
    c == u || c as int == u as int + 32
  }

  /**
   * The function as written: it compares a slice of at most two
   * characters with the three-letter "NON", so it never answers
   * "nonresident", whatever the choice.
   */
  function ReformatResidency(resChoice: string): (r: string)
    ensures r == "resident"
  {
    if Upper(Head(resChoice, 2)) == "NON" then "nonresident" else "resident"
  }

  /**
   * The function as intended: the first three characters are compared, so
   * exactly the choices that start with "non", in any case, are
   * non-resident.
   */
  function ReformatResidencyFixed(resChoice: string): (r: string)
    ensures r == "nonresident" || r == "resident"
    ensures r == "nonresident" <==>
      |resChoice| >= 3 && Letter(resChoice[0], 'N') && Letter(resChoice[1], 'O') && Letter(resChoice[2], 'N')
  {
    var h := Head(resChoice, 3);
    assert |h| == 3 ==> Upper(h)[0] == UpperChar(h[0]) && Upper(h)[1] == UpperChar(h[1]) && Upper(h)[2] == UpperChar(h[2]);
    assert |h| == 3 ==> (Upper(h) == "NON" <==> Upper(h)[0] == 'N' && Upper(h)[1] == 'O' && Upper(h)[2] == 'N');
    if Upper(h) == "NON" then "nonresident" else "resident"
  }

  /** The choices the query pages send: "nonresident" and "resident" in any case. */
  lemma ResidencyChoices()
    ensures ReformatResidency("nonresident") == "resident"
    ensures ReformatResidencyFixed("nonresident") == "nonresident"
    ensures ReformatResidencyFixed("NONRESIDENT") == "nonresident"
    ensures ReformatResidencyFixed("resident") == "resident"
  {
    assert Letter('n', 'N') && Letter('o', 'O') && !Letter('r', 'N');
  }
}
