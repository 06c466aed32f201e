/**
 * `extractPublicId` from backend/routes/aiRoutes.js: the Cloudinary public id of a stored
 * file's URL. The two regular expressions it uses are written out by hand:
 *   match `/upload/(?:v<digits>/)?([^?#]+)` at its leftmost position, then
 *   replace `\.[^/.]+$` (one trailing extension) by nothing.
 */
module PublicId {
  import opened Wrappers

  /** The literal segment the pattern starts with. */
  const UploadSegment: string := "/upload/"

  /** The message of the Error thrown when the URL has no usable public id. */
  const NoPublicIdMessage: string := "Could not extract Cloudinary public ID from URL."

  predicate IsDigit(c: char)
  {
    '0' <= c <= '9'
  }

  /** `?` and `#` end the capture: they are exactly the characters outside `[^?#]`. */
  predicate IsPathEnd(c: char)
  {
    c == '?' || c == '#'
  }

  predicate UploadAt(url: string, i: int)
  {
    0 <= i && i + |UploadSegment| <= |url| && url[i..i + |UploadSegment|] == UploadSegment
  }

  /** The pattern matches at `i`: `/upload/` is there and is followed by at least one character of `[^?#]`. */
  predicate MatchesAt(url: string, i: int)
  {
    UploadAt(url, i) && i + |UploadSegment| < |url| && !IsPathEnd(url[i + |UploadSegment|])
  }

  /** `i` is the leftmost position at which the pattern matches. */
  predicate FirstMatchAt(url: string, i: int)
  {
    MatchesAt(url, i) && forall j :: 0 <= j < i ==> !MatchesAt(url, j)
  }

  /** `w` is a whole `v<digits>/` version segment. */
  predicate IsVersionSegment(w: string)
  {
    |w| >= 3 && w[0] == 'v' && w[|w| - 1] == '/' && forall k :: 1 <= k < |w| - 1 ==> IsDigit(w[k])
  }

  /** The greedy `[^?#]*`: the longest prefix of `s` holding neither `?` nor `#`. */
  function PathPrefix(s: string): (r: string)
    ensures |r| <= |s| && r == s[..|r|]
    ensures forall k :: 0 <= k < |r| ==> !IsPathEnd(r[k])
    ensures |r| < |s| ==> IsPathEnd(s[|r|])
  {
    if s == [] || IsPathEnd(s[0]) then [] else [s[0]] + PathPrefix(s[1..])
  }

  /** The greedy `\d*`: the length of the leading run of digits. */
  function DigitRun(s: string): (n: nat)
    ensures n <= |s|
    ensures forall k :: 0 <= k < n ==> IsDigit(s[k])
    ensures n < |s| ==> !IsDigit(s[n])
  {
    if s != [] && IsDigit(s[0]) then 1 + DigitRun(s[1..]) else 0
  }

  /** The length of the version segment `rest` starts with, or 0 when it starts with none. */
  function VersionLength(rest: string): (n: nat)
    ensures n <= |rest|
    ensures n != 0 ==> IsVersionSegment(rest[..n])
    ensures forall m :: 0 < m <= |rest| && IsVersionSegment(rest[..m]) ==> n == m
  {
    if rest != [] && rest[0] == 'v' then
      var d := DigitRun(rest[1..]);
      assert forall m :: 0 < m <= |rest| && IsVersionSegment(rest[..m]) ==> d == m - 2 by {
        forall m | 0 < m <= |rest| && IsVersionSegment(rest[..m]) ensures d == m - 2 {
          assert rest[..m][m - 1] == '/';
        }
      }
      if d > 0 && d + 1 < |rest| && rest[d + 1] == '/' then
        d + 2
      else 0
    else 0
  }

  /**
   * The first group of the pattern once `/upload/` has matched and `rest` follows it:
   * the optional version group is taken when the capture can still match after it,
   * and otherwise the engine backtracks and captures from the start of `rest`.
   */
  function CaptureAfter(rest: string): (r: Option<string>)
    ensures r.Some? <==> rest != [] && !IsPathEnd(rest[0])
    ensures r.Some? ==> r.value != []
  {
    var v := VersionLength(rest);
    if v != 0 && v < |rest| && !IsPathEnd(rest[v]) then Some(PathPrefix(rest[v..]))
    else if rest != [] && !IsPathEnd(rest[0]) then Some(PathPrefix(rest))
    else None
  }

  /** The leftmost position at or after `from` at which the pattern matches. */
  function MatchFrom(url: string, from: nat): (r: Option<nat>)
    requires from <= |url|
    ensures r.Some? ==> from <= r.value && MatchesAt(url, r.value)
    ensures r.Some? ==> forall j :: from <= j < r.value ==> !MatchesAt(url, j)
    ensures r.None? ==> forall j :: from <= j ==> !MatchesAt(url, j)
    decreases |url| - from
  {
    if from + |UploadSegment| >= |url| then None
    else if MatchesAt(url, from) then Some(from)
    else MatchFrom(url, from + 1)
  }

  /** The index of the last `.` in `s`. */
  function LastDot(s: string): (r: Option<nat>)
    ensures r.Some? ==> r.value < |s| && s[r.value] == '.'
    ensures r.Some? ==> forall k :: r.value < k < |s| ==> s[k] != '.'
    ensures r.None? ==> forall k :: 0 <= k < |s| ==> s[k] != '.'
  {
    if s == [] then None
    else if s[|s| - 1] == '.' then Some(|s| - 1)
    else LastDot(s[..|s| - 1])
  }

  /** `[^/.]+` up to the end of input. */
  predicate IsExtension(e: string)
  {
    e != [] && forall k :: 0 <= k < |e| ==> e[k] != '/' && e[k] != '.'
  }

  /** `s.replace(/\.[^/.]+$/, "")`. */
  function StripExtension(s: string): (r: string)
    ensures |r| <= |s| && r == s[..|r|]
    ensures r != s ==> |r| < |s| && s[|r|] == '.' && IsExtension(s[|r| + 1..])
  {
    match LastDot(s)
    case Some(j) => if IsExtension(s[j + 1..]) then s[..j] else s
    case None => s
  }

  /** The first group of the pattern when it matches at `i`. */
  function CaptureAt(url: string, i: nat): (c: string)
    requires MatchesAt(url, i)
    ensures c != [] && forall k :: 0 <= k < |c| ==> !IsPathEnd(c[k])
  {
    var rest := url[i + |UploadSegment|..];
    assert rest[0] == url[i + |UploadSegment|];
    CaptureAfter(rest).value
  }

  /**
   * `extractPublicId`: fails with its fixed message when the pattern matches nowhere,
   * and otherwise returns the first group of the leftmost match without its extension.
   */
  function ExtractPublicId(url: string): (r: Result<string, string>)
    ensures r.Failure? <==> forall j :: 0 <= j < |url| ==> !MatchesAt(url, j)
    ensures r.Failure? ==> r.error == NoPublicIdMessage
    ensures r.Success? ==> forall j :: FirstMatchAt(url, j) ==> r.value == StripExtension(CaptureAt(url, j))
  {
    match MatchFrom(url, 0)
    case None => Failure(NoPublicIdMessage)
    case Some(j) =>
      assert forall i :: FirstMatchAt(url, i) ==> i == j;
      Success(StripExtension(CaptureAt(url, j)))
  }

  /**
   * The capture after `/upload/`: it skips a leading version segment exactly when a
   * character other than `?` and `#` follows that segment, and it then runs up to the
   * first `?` or `#`. So `/upload/v12/?x` captures `v12/` itself.
   */
  lemma CaptureAfterSpec(rest: string)
    requires rest != [] && !IsPathEnd(rest[0])
    ensures forall m :: 0 < m < |rest| && IsVersionSegment(rest[..m]) && !IsPathEnd(rest[m]) ==>
      CaptureAfter(rest) == Some(PathPrefix(rest[m..]))
    ensures (forall m :: 0 < m < |rest| && IsVersionSegment(rest[..m]) ==> IsPathEnd(rest[m])) ==>
      CaptureAfter(rest) == Some(PathPrefix(rest))
  {
    var v := VersionLength(rest);
    if v != 0 && v < |rest| && !IsPathEnd(rest[v]) {
      assert IsVersionSegment(rest[..v]);
    }
  }

  /**
   * Removing the extension removes exactly one suffix `.e` whose `e` is non-empty and holds
   * no `/` or `.`; when `s` has no such suffix it is returned unchanged.
   */
  lemma {:induction false} StripExtensionSpec(s: string)
    ensures var r := StripExtension(s);
      && r == s[..|r|]
      && (r != s ==> |r| < |s| && s[|r|] == '.' && IsExtension(s[|r| + 1..]))
      && (r == s ==> forall k :: 0 <= k < |s| && s[k] == '.' ==> !IsExtension(s[k + 1..]))
  {
    var r := StripExtension(s);
    match LastDot(s)
    case None =>
    case Some(j) =>
      if r == s {
        forall k | 0 <= k < |s| && s[k] == '.' ensures !IsExtension(s[k + 1..]) {
          if k < j {
            assert s[k + 1..][j - k - 1] == '.';
          }
        }
      }
  }

  /** A suffix `.e` is removed whatever comes before it, so the result never loses more than one extension. */
  lemma StripOneExtension(p: string, e: string)
    requires IsExtension(e)
    ensures StripExtension(p + "." + e) == p
  {
    var s := p + "." + e;
    StripExtensionSpec(s);
    var r := StripExtension(s);
    assert s[|p|] == '.' && s[|p| + 1..] == e;
  }
}
