/** Text helpers: substring search and the decimal text of integers. */
module Strings {

  /** `pat` occurs in `s` as a contiguous substring. */
  predicate Contains(s: string, pat: string) {
    exists i :: 0 <= i <= |s| - |pat| && OccursAt(s, pat, i)
  }

  predicate OccursAt(s: string, pat: string, i: int)
    requires 0 <= i <= |s| - |pat|
  {
    s[i..i + |pat|] == pat
  }

  /** Joining three texts does not depend on which two are joined first. */
  lemma JoinThree(a: string, b: string, c: string)
    ensures a + (b + c) == a + b + c
  {
  }

  /** A text occurs in any text built around it. */
  lemma {:induction false} ContainsMiddle(before: string, pat: string, after: string)
    ensures Contains(before + pat + after, pat)
  {
    var s := before + pat + after;
    assert s[|before|..|before| + |pat|] == pat;
    assert OccursAt(s, pat, |before|);
  }

  /** Decimal text of an integer, as Ruby's `Integer#to_s`. */
  function IntToString(n: int): (r: string)
    ensures |r| > 0
  {
    if n < 0 then "-" + NatToString(-n) else NatToString(n)
  }

  function NatToString(n: nat): (r: string)
    ensures |r| > 0
    ensures forall i :: 0 <= i < |r| ==> '0' <= r[i] <= '9'
    decreases n
  {
    var d := ['0' + (n % 10) as char];
    if n < 10 then d else NatToString(n / 10) + d
  }
}
