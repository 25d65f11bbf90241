/**
 * Python string operations used by the pipeline: `pat in s`,
 * `s.split(pat)[0]`, `s.split(pat)[1]`, `s.strip()` and `sep.join(lines)`.
 */
module Text {

  import opened Py

  /** `pat` occurs in `s` starting at index `i`. */
  predicate MatchAt(s: string, pat: string, i: nat) {
    i + |pat| <= |s| && s[i..i + |pat|] == pat
  }

  /** The first occurrence of `pat` in `s` at or after `from`. */
  function FindFrom(s: string, pat: string, from: nat): (r: Option<nat>)
    decreases |s| - from
    ensures r.Some? ==> from <= r.value && MatchAt(s, pat, r.value)
    ensures r.Some? ==> forall j :: from <= j < r.value ==> !MatchAt(s, pat, j)
    ensures r.None? ==> forall j :: from <= j ==> !MatchAt(s, pat, j)
  {
    if from + |pat| > |s| then None
    else if s[from..from + |pat|] == pat then Some(from)
    else FindFrom(s, pat, from + 1)
  }

  /** `s.find(pat)`, as an Option. */
  function Find(s: string, pat: string): (r: Option<nat>)
    ensures r.Some? ==> MatchAt(s, pat, r.value) && forall j: nat :: j < r.value ==> !MatchAt(s, pat, j)
    ensures r.None? ==> forall j: nat :: !MatchAt(s, pat, j)
  {
    FindFrom(s, pat, 0)
  }

  /** `pat in s` */
  predicate Contains(s: string, pat: string) {
    Find(s, pat).Some?
  }

  /** `s.split(pat)[0]`: everything before the first occurrence, or all of `s`. */
  function Before(s: string, pat: string): (r: string)
    ensures Contains(s, pat) ==> r == s[..Find(s, pat).value]
    ensures !Contains(s, pat) ==> r == s
  {
    if Contains(s, pat) then s[..Find(s, pat).value] else s
  }

  /** Everything after the first occurrence of `pat`. */
  function After(s: string, pat: string): (r: string)
    requires Contains(s, pat)
    ensures r == s[Find(s, pat).value + |pat|..]
  {
    s[Find(s, pat).value + |pat|..]
  }

  /** `s.split(pat)[1]`: the text between the first and the second occurrence (or the end). */
  function SplitSecond(s: string, pat: string): string
    requires Contains(s, pat)
  {
    Before(After(s, pat), pat)
  }

  /** A match inside a slice is a match in the whole string, shifted by the slice's start. */
  lemma SliceMatches(s: string, pat: string, lo: nat, hi: nat)
    requires lo <= hi <= |s|
    ensures forall j: nat :: MatchAt(s[lo..hi], pat, j) ==> MatchAt(s, pat, lo + j)
  {
    var t := s[lo..hi];
    forall j: nat | MatchAt(t, pat, j)
      ensures MatchAt(s, pat, lo + j)
    {
      var w := s[lo + j..lo + j + |pat|];
      forall q | 0 <= q < |pat|
        ensures w[q] == pat[q]
      {
        assert w[q] == s[lo + j + q] == t[j + q] == t[j..j + |pat|][q];
      }
      assert w == pat;
    }
  }

  /** A slice of a string that does not contain `pat` does not contain it either. */
  lemma NoMatchInSlice(s: string, pat: string, lo: nat, hi: nat)
    requires lo <= hi <= |s|
    requires !Contains(s, pat)
    ensures !Contains(s[lo..hi], pat)
  {
    SliceMatches(s, pat, lo, hi);
  }

  /** `split(pat)[0]` never contains `pat`. */
  lemma BeforeHasNoMatch(s: string, pat: string)
    requires pat != []
    ensures !Contains(Before(s, pat), pat)
  {
    if Contains(s, pat) {
      var i := Find(s, pat).value;
      SliceMatches(s, pat, 0, i);
      assert s[0..i] == s[..i];
    }
  }

  /** The whitespace `str.strip()` removes (the characters for which `str.isspace()` holds). */
  predicate IsSpace(c: char) {
    var n := c as int;
    n == 32 || 9 <= n <= 13 || 28 <= n <= 31 || n == 0x85 || n == 0xA0 || n == 0x1680
    || 0x2000 <= n <= 0x200A || n == 0x2028 || n == 0x2029 || n == 0x202F || n == 0x205F
    || n == 0x3000
  }

  /** The first index at or after `i` that is not whitespace (or the end). */
  function SkipSpace(s: string, i: nat): (j: nat)
    requires i <= |s|
    decreases |s| - i
    ensures i <= j <= |s|
    ensures forall k :: i <= k < j ==> IsSpace(s[k])
    ensures j < |s| ==> !IsSpace(s[j])
  {
    if i < |s| && IsSpace(s[i]) then SkipSpace(s, i + 1) else i
  }

  /** The end of `s[lo..j]` once the trailing whitespace is cut off. */
  function TrimEnd(s: string, lo: nat, j: nat): (e: nat)
    requires lo <= j <= |s|
    decreases j
    ensures lo <= e <= j
    ensures forall k :: e <= k < j ==> IsSpace(s[k])
    ensures e > lo ==> !IsSpace(s[e - 1])
  {
    if j > lo && IsSpace(s[j - 1]) then TrimEnd(s, lo, j - 1) else j
  }

  /**
   * `s.strip()`: the longest slice of `s` that neither starts nor ends with
   * whitespace, obtained by cutting only whitespace off both ends.
   */
  function Strip(s: string): (r: string)
    ensures exists lo, hi ::
              && 0 <= lo <= hi <= |s| && r == s[lo..hi]
              && (forall k :: 0 <= k < lo ==> IsSpace(s[k]))
              && (forall k :: hi <= k < |s| ==> IsSpace(s[k]))
    ensures r != [] ==> !IsSpace(r[0]) && !IsSpace(r[|r| - 1])
  {
    var lo := SkipSpace(s, 0);
    var hi := TrimEnd(s, lo, |s|);
    s[lo..hi]
  }

  /** `sep.join(lines)` */
  function Join(lines: seq<string>, sep: string): string {
    if lines == [] then ""
    else if |lines| == 1 then lines[0]
    else lines[0] + sep + Join(lines[1..], sep)
  }

  /** Joining two non-empty blocks of lines puts one separator between them. */
  lemma {:induction false} JoinAppend(a: seq<string>, b: seq<string>, sep: string)
    requires a != [] && b != []
    ensures Join(a + b, sep) == Join(a, sep) + sep + Join(b, sep)
  {
    if |a| == 1 {
      assert (a + b)[1..] == b;
    } else {
      assert (a + b)[1..] == a[1..] + b;
      JoinAppend(a[1..], b, sep);
    }
  }
}
