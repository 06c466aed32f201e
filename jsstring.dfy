/**
 * The few `String.prototype` operations the routes use, written out over `seq<char>`:
 * `trim`, and `replace` with a plain string pattern (which replaces only the first occurrence).
 */
module JsString {
  import opened Wrappers

  /** The WhiteSpace and LineTerminator code points that `trim` removes (ECMA-262, section 22.1.3.32). */
  predicate IsTrimmable(c: char)
  {
    || c == '\t' || c == '\n' || c == '\U{0B}' || c == '\U{0C}' || c == '\r' || c == ' '
    || c == '\U{A0}' || c == '\U{1680}' || ('\U{2000}' <= c <= '\U{200A}')
    || c == '\U{2028}' || c == '\U{2029}' || c == '\U{202F}' || c == '\U{205F}'
    || c == '\U{3000}' || c == '\U{FEFF}'
  }

  predicate AllTrimmable(s: string)
  {
    forall k :: 0 <= k < |s| ==> IsTrimmable(s[k])
  }

  /** The index of the first character at or after `i` that `trim` keeps (`|s|` when there is none). */
  function FirstKept(s: string, i: nat): (j: nat)
    requires i <= |s|
    ensures i <= j <= |s|
    ensures forall k :: i <= k < j ==> IsTrimmable(s[k])
    ensures j < |s| ==> !IsTrimmable(s[j])
    decreases |s| - i
  {
    if i < |s| && IsTrimmable(s[i]) then FirstKept(s, i + 1) else i
  }

  /** The end of the kept slice: the index just past the last character before `j`, and not before `lo`, that is kept. */
  function EndKept(s: string, lo: nat, j: nat): (e: nat)
    requires lo <= j <= |s|
    ensures lo <= e <= j
    ensures forall k :: e <= k < j ==> IsTrimmable(s[k])
    ensures e > lo ==> !IsTrimmable(s[e - 1])
    decreases j
  {
    if j > lo && IsTrimmable(s[j - 1]) then EndKept(s, lo, j - 1) else j
  }

  /** `trim`: `s` with its leading and trailing trimmable characters removed. */
  function Trim(s: string): (r: string)
    ensures |r| <= |s|
    ensures r == [] || (!IsTrimmable(r[0]) && !IsTrimmable(r[|r| - 1]))
  {
    var lo := FirstKept(s, 0);
    var hi := EndKept(s, lo, |s|);
    assert hi > lo ==> s[lo..hi][0] == s[lo] && s[lo..hi][hi - lo - 1] == s[hi - 1];
    s[lo..hi]
  }

  /**
   * What `trim` promises: the result is a slice of `s` that is bordered only by trimmable
   * characters and neither starts nor ends with one.
   */
  lemma TrimSpec(s: string)
    ensures var r := Trim(s);
      && (r == [] || (!IsTrimmable(r[0]) && !IsTrimmable(r[|r| - 1])))
      && exists lo :: 0 <= lo <= |s| - |r| && s[lo..lo + |r|] == r
                   && AllTrimmable(s[..lo]) && AllTrimmable(s[lo + |r|..])
  {
    var lo := FirstKept(s, 0);
    var hi := EndKept(s, lo, |s|);
    var r := s[lo..hi];
    assert AllTrimmable(s[..lo]);
    assert AllTrimmable(s[hi..]);
    assert r != [] ==> r[0] == s[lo] && r[|r| - 1] == s[hi - 1];
  }

  /** A string already free of leading and trailing trimmable characters is left as it is. */
  lemma TrimKeepsTrimmed(s: string)
    requires s == [] || (!IsTrimmable(s[0]) && !IsTrimmable(s[|s| - 1]))
    ensures Trim(s) == s
  {
  }

  predicate OccursAt(s: string, pat: string, k: int)
  {
    0 <= k && k + |pat| <= |s| && s[k..k + |pat|] == pat
  }

  /** The index of the first occurrence of `pat` in `s` at or after `from`. */
  function IndexOfFrom(s: string, pat: string, from: nat): (r: Option<nat>)
    requires from <= |s|
    ensures r.Some? ==> from <= r.value && OccursAt(s, pat, r.value)
    ensures r.Some? ==> forall k :: from <= k < r.value ==> !OccursAt(s, pat, k)
    ensures r.None? ==> forall k :: from <= k <= |s| ==> !OccursAt(s, pat, k)
    decreases |s| - from
  {
    if OccursAt(s, pat, from) then Some(from)
    else if from == |s| then None
    else IndexOfFrom(s, pat, from + 1)
  }

  /** `s.replace(pat, "")` for a plain string `pat`: removes the first occurrence only. */
  function RemoveFirst(s: string, pat: string): (r: string)
    ensures IndexOfFrom(s, pat, 0).None? ==> r == s
    ensures IndexOfFrom(s, pat, 0).Some? ==>
      var i := IndexOfFrom(s, pat, 0).value;
      i <= |r| && s == r[..i] + pat + r[i..]
  {
    match IndexOfFrom(s, pat, 0)
    case None => s
    case Some(i) =>
      assert s == s[..i] + pat + s[i + |pat|..];
      s[..i] + s[i + |pat|..]
  }
}
