/// Shared vocabulary: optional values and results, the two character
/// classes the regular expressions of pdfinfo.go use, and the substring
/// searches the hand-written matchers are built from.
module Common {

  datatype Option<T> = None | Some(value: T) {
    /** The carried value, or `default` when there is none. */
    function GetOr(default: T): T {
      match this
      case Some(v) => v
      case None => default
    }

    /** This value if there is one, otherwise `other`. */
    function Or(other: Option<T>): Option<T> {
      if Some? then this else other
    }
  }

  datatype Result<T, E> = Success(value: T) | Failure(error: E)

  /** The RE2 character class `[\t ]`. */
  predicate IsBlank(c: char) {
    c == ' ' || c == '\t'
  }

  /** The RE2 class `\d`, which is ASCII-only. */
  predicate IsDigit(c: char) {
    '0' <= c <= '9'
  }

  predicate AllBlank(s: string) {
    forall i | 0 <= i < |s| :: IsBlank(s[i])
  }

  predicate AllDigits(s: string) {
    forall i | 0 <= i < |s| :: IsDigit(s[i])
  }

  /** `pat` occurs in `s` starting at index `k`. */
  predicate OccursAt(s: string, pat: string, k: int) {
    0 <= k && k + |pat| <= |s| && s[k..k + |pat|] == pat
  }

  /** Length of the longest prefix of `s` made of spaces and tabs. */
  function BlankRun(s: string): (n: nat)
    ensures n <= |s| && AllBlank(s[..n])
    ensures forall i | 0 <= i < n :: IsBlank(s[i])
    ensures n < |s| ==> !IsBlank(s[n])
  {
    if s == [] || !IsBlank(s[0]) then 0
    else
      var m := BlankRun(s[1..]);
      assert s[..m + 1] == [s[0]] + s[1..][..m];
      m + 1
  }

  /** Length of the longest prefix of `s` made of ASCII digits. */
  function DigitRun(s: string): (n: nat)
    ensures n <= |s| && AllDigits(s[..n])
    ensures forall i | 0 <= i < n :: IsDigit(s[i])
    ensures n < |s| ==> !IsDigit(s[n])
  {
    if s == [] || !IsDigit(s[0]) then 0
    else
      var m := DigitRun(s[1..]);
      assert s[..m + 1] == [s[0]] + s[1..][..m];
      m + 1
  }

  /** Index of the first `c` in `s`, if any. */
  function IndexOf(s: string, c: char): (r: Option<nat>)
    ensures r.None? <==> c !in s
    ensures r.Some? ==> r.value < |s| && s[r.value] == c && c !in s[..r.value]
  {
    if s == [] then None
    else if s[0] == c then Some(0)
    else
      match IndexOf(s[1..], c)
      case None => None
      case Some(i) =>
        assert s[..i + 1] == [s[0]] + s[1..][..i];
        Some(i + 1)
  }

  /** The largest index `j <= k` at which `pat` occurs in `s`, if any. */
  function LastOccurrenceFrom(s: string, pat: string, k: int): (r: Option<nat>)
    decreases k + 1
    ensures r.Some? ==> r.value <= k && OccursAt(s, pat, r.value)
    ensures r.Some? ==> forall j | r.value < j <= k :: !OccursAt(s, pat, j)
    ensures r.None? ==> forall j | j <= k :: !OccursAt(s, pat, j)
  {
    if k < 0 then None
    else if OccursAt(s, pat, k) then Some(k)
    else LastOccurrenceFrom(s, pat, k - 1)
  }

  /** The index of the last occurrence of `pat` in `s`, if any. */
  function LastOccurrence(s: string, pat: string): (r: Option<nat>)
    ensures r.Some? ==> OccursAt(s, pat, r.value)
    ensures r.Some? ==> forall j | r.value < j :: !OccursAt(s, pat, j)
    ensures r.None? ==> forall j :: !OccursAt(s, pat, j)
  {
    LastOccurrenceFrom(s, pat, |s| - |pat|)
  }

  /** A pattern holding a character that `s` lacks occurs nowhere in `s`. */
  lemma AbsentPattern(s: string, pat: string, c: char)
    requires c in pat && c !in s
    ensures forall k :: !OccursAt(s, pat, k)
  {
  }

  /** An occurrence inside the slice `s[lo..hi]` is an occurrence in `s` that fits in the slice. */
  lemma OccursInSlice(s: string, pat: string, lo: nat, hi: nat, k: int)
    requires lo <= hi <= |s|
    ensures OccursAt(s[lo..hi], pat, k - lo) <==> lo <= k && k + |pat| <= hi && OccursAt(s, pat, k)
  {
    if lo <= k && k + |pat| <= hi {
      var inSlice, inWhole := s[lo..hi][k - lo..k - lo + |pat|], s[k..k + |pat|];
      forall t | 0 <= t < |pat|
        ensures inSlice[t] == inWhole[t]
      {
      }
      assert inSlice == inWhole;
    }
  }
}
