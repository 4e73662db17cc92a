/**
 * A scanner for the one pattern `extractImageUrl` looks for in chat content:
 *
 *   /https?:\/\/[^\s]+\.(jpg|jpeg|png|webp|gif)/i
 *
 * with the semantics of `String.prototype.match` (no `g` flag): the leftmost
 * starting position wins, and at that position the greedy `[^\s]+` makes the
 * backtracking search settle on the LAST dot of the white-space-free run that
 * is followed by one of the extensions. The `i` flag folds ASCII letters only
 * (a non-Unicode JavaScript pattern never maps a non-ASCII character onto an
 * ASCII one).
 */
module UrlScan {
  import opened Wrappers
  import opened Text

  /** ASCII lower-casing, the only folding that matters for this all-ASCII pattern. */
  function Lower(c: char): (r: char)
    ensures 'A' <= c <= 'Z' ==> r as int == c as int + 32
    ensures !('A' <= c <= 'Z') ==> r == c
  {
    if 'A' <= c <= 'Z' then (c as int + 32) as char else c
  }

  /** The lower-case literal `w` occurs at position `i` of `s`, ignoring ASCII case. */
  predicate MatchesAt(s: string, i: nat, w: string) {
    i + |w| <= |s| && forall j | 0 <= j < |w| :: Lower(s[i + j]) == w[j]
  }

  /** `https?:\/\/` at `p`: the length of the scheme, or 0 when there is none. */
  function SchemeLength(s: string, p: nat): (k: nat)
    ensures k == 0 || k == 7 || k == 8
    ensures k > 0 ==> p + k <= |s|
  {
    if MatchesAt(s, p, "https://") then 8
    else if MatchesAt(s, p, "http://") then 7
    else 0
  }

  /** `(jpg|jpeg|png|webp|gif)` at `i`, alternatives tried in order: the length matched, or 0. */
  function ExtensionLength(s: string, i: nat): (k: nat)
    ensures k == 0 || k == 3 || k == 4
    ensures k > 0 ==> i + k <= |s|
  {
    if MatchesAt(s, i, "jpg") then 3
    else if MatchesAt(s, i, "jpeg") then 4
    else if MatchesAt(s, i, "png") then 3
    else if MatchesAt(s, i, "webp") then 4
    else if MatchesAt(s, i, "gif") then 3
    else 0
  }

  /** `\.(jpg|…)` at `d`. */
  predicate DotExtensionAt(s: string, d: nat) {
    d < |s| && s[d] == '.' && ExtensionLength(s, d + 1) > 0
  }

  /**
   * The pattern matches `s[p..MatchEnd(s, d)]`, with the dot of the extension at `d`:
   * a scheme at `p`, then at least one character up to `d`, none of them white space.
   */
  ghost predicate IsUrlMatch(s: string, p: nat, d: nat) {
    && SchemeLength(s, p) > 0
    && p + SchemeLength(s, p) < d
    && DotExtensionAt(s, d)
    && forall j | p + SchemeLength(s, p) <= j < d :: !IsSpace(s[j])
  }

  /** The match `match()` reports: leftmost start, and at that start the last possible dot. */
  ghost predicate IsFirstMatch(s: string, p: nat, d: nat) {
    && IsUrlMatch(s, p, d)
    && (forall p': nat, d': nat | p' < p :: !IsUrlMatch(s, p', d'))
    && (forall d': nat | d < d' :: !IsUrlMatch(s, p, d'))
  }

  /** One past the last character of the match whose extension dot is at `d`. */
  function MatchEnd(s: string, d: nat): (e: nat)
    requires DotExtensionAt(s, d)
    ensures d + 4 <= e <= |s|
  {
    d + 1 + ExtensionLength(s, d + 1)
  }

  /** `u` is the text of the match at `p` whose extension dot is at `d`. */
  ghost predicate IsMatchText(s: string, p: nat, d: nat, u: string) {
    DotExtensionAt(s, d) && p <= d && u == s[p..MatchEnd(s, d)]
  }

  /** `u` occurs in `s` at position `i`. */
  predicate OccursAt(s: string, i: nat, u: string) {
    i + |u| <= |s| && s[i..i + |u|] == u
  }

  /** The end of the white-space-free run that starts at `q`. */
  function RunEnd(s: string, q: nat): (r: nat)
    requires q <= |s|
    ensures q <= r <= |s|
    ensures forall j | q <= j < r :: !IsSpace(s[j])
    ensures r < |s| ==> IsSpace(s[r])
    decreases |s| - q
  {
    if q == |s| || IsSpace(s[q]) then q else RunEnd(s, q + 1)
  }

  /** Backtracking of the greedy run: the largest extension dot in `[lo, hi)`. */
  function LastDot(s: string, lo: nat, hi: nat): (r: Option<nat>)
    requires hi <= |s|
    ensures r.Some? ==> lo <= r.value < hi && DotExtensionAt(s, r.value)
    ensures r.Some? ==> forall d | r.value < d < hi :: !DotExtensionAt(s, d)
    ensures r.None? ==> forall d | lo <= d < hi :: !DotExtensionAt(s, d)
    decreases hi
  {
    if hi <= lo then None
    else if DotExtensionAt(s, hi - 1) then Some(hi - 1)
    else LastDot(s, lo, hi - 1)
  }

  /** The pattern tried at `p`: the dot of the match starting there, if any. */
  function MatchAt(s: string, p: nat): (r: Option<nat>)
    ensures r.Some? ==> IsUrlMatch(s, p, r.value) && forall d': nat | r.value < d' :: !IsUrlMatch(s, p, d')
    ensures r.None? ==> forall d': nat :: !IsUrlMatch(s, p, d')
  {
    var k := SchemeLength(s, p);
    if k == 0 then None
    else
      var q := p + k;
      var run := RunEnd(s, q);
      var r := LastDot(s, q + 1, run);
      r
  }

  /** The scan of `match()`: try each start position from `p` on. */
  function MatchFrom(s: string, p: nat): (r: Option<(nat, nat)>)
    ensures r.Some? ==> p <= r.value.0 && IsUrlMatch(s, r.value.0, r.value.1)
    ensures r.Some? ==> forall p': nat, d': nat | p <= p' < r.value.0 :: !IsUrlMatch(s, p', d')
    ensures r.Some? ==> forall d': nat | r.value.1 < d' :: !IsUrlMatch(s, r.value.0, d')
    ensures r.None? ==> forall p': nat, d': nat | p <= p' :: !IsUrlMatch(s, p', d')
    decreases |s| - p
  {
    if p >= |s| then
      NoMatchPastEnd(s, p);
      None
    else
      match MatchAt(s, p)
      case Some(d) => Some((p, d))
      case None =>
        var r := MatchFrom(s, p + 1);
        NoMatchExtends(s, p, if r.Some? then r.value.0 else |s| + 1);
        r
  }

  /** No match starts at or after the end of the text. */
  lemma NoMatchPastEnd(s: string, p: nat)
    requires p >= |s|
    ensures forall p': nat, d': nat | p <= p' :: !IsUrlMatch(s, p', d')
  {
    forall p': nat, d': nat | p <= p'
      ensures !IsUrlMatch(s, p', d')
    {
      assert SchemeLength(s, p') == 0;
    }
  }

  /** No match at `p` and none in `(p, hi)` means none in `[p, hi)`. */
  lemma NoMatchExtends(s: string, p: nat, hi: nat)
    requires forall d': nat :: !IsUrlMatch(s, p, d')
    requires forall p': nat, d': nat | p + 1 <= p' < hi :: !IsUrlMatch(s, p', d')
    ensures forall p': nat, d': nat | p <= p' < hi :: !IsUrlMatch(s, p', d')
  {
  }

  /** `content.match(pattern)?.[0]`: the matched text, if the pattern occurs. */
  function FindImageUrl(s: string): (r: Option<string>)
    ensures r.None? <==> forall p: nat, d: nat :: !IsUrlMatch(s, p, d)
    ensures r.Some? ==> exists p: nat, d: nat :: IsFirstMatch(s, p, d) && IsMatchText(s, p, d, r.value)
  {
    match MatchFrom(s, 0)
    case Some((p, d)) =>
      var u := s[p..MatchEnd(s, d)];
      assert IsFirstMatch(s, p, d) && IsMatchText(s, p, d, u);
      Some(u)
    case None => None
  }

  /** There is only one first match. */
  lemma FirstMatchUnique(s: string, p1: nat, d1: nat, p2: nat, d2: nat)
    requires IsFirstMatch(s, p1, d1) && IsFirstMatch(s, p2, d2)
    ensures p1 == p2 && d1 == d2
  {
  }

  /** The scanner finds the first match: whatever `match()` would report, `FindImageUrl` returns. */
  lemma FindImageUrlOfFirstMatch(s: string, p: nat, d: nat)
    requires IsFirstMatch(s, p, d)
    ensures FindImageUrl(s) == Some(s[p..MatchEnd(s, d)])
  {
    var r := FindImageUrl(s);
    var p': nat, d': nat :| IsFirstMatch(s, p', d') && IsMatchText(s, p', d', r.value);
    FirstMatchUnique(s, p, d, p', d');
  }

  /** `u` ends with a dot and then `x`, ignoring ASCII case. */
  predicate EndsWithExtension(u: string, x: string) {
    |u| > |x| && u[|u| - |x| - 1] == '.' && MatchesAt(u, |u| - |x|, x)
  }

  predicate HasImageExtension(u: string) {
    || EndsWithExtension(u, "jpg") || EndsWithExtension(u, "jpeg") || EndsWithExtension(u, "png")
    || EndsWithExtension(u, "webp") || EndsWithExtension(u, "gif")
  }

  /** The shape the pattern promises of any text it matches. */
  predicate LooksLikeImageUrl(u: string) {
    && (MatchesAt(u, 0, "http://") || MatchesAt(u, 0, "https://"))
    && (forall i | 0 <= i < |u| :: !IsSpace(u[i]))
    && HasImageExtension(u)
  }

  /** The text of any match has the shape the pattern promises. */
  lemma MatchTextShape(s: string, p: nat, d: nat)
    requires IsUrlMatch(s, p, d)
    ensures LooksLikeImageUrl(s[p..MatchEnd(s, d)])
  {
    var u := s[p..MatchEnd(s, d)];
    MatchTextScheme(s, p, d, u);
    MatchTextNoSpace(s, p, d, u);
    MatchTextExtension(s, p, d, u);
  }

  lemma MatchTextScheme(s: string, p: nat, d: nat, u: string)
    requires IsUrlMatch(s, p, d) && u == s[p..MatchEnd(s, d)]
    ensures MatchesAt(u, 0, "http://") || MatchesAt(u, 0, "https://")
  {
    if SchemeLength(s, p) == 8 {
      assert forall j | 0 <= j < 8 :: u[j] == s[p + j];
    } else {
      assert forall j | 0 <= j < 7 :: u[j] == s[p + j];
    }
  }

  lemma MatchTextNoSpace(s: string, p: nat, d: nat, u: string)
    requires IsUrlMatch(s, p, d) && u == s[p..MatchEnd(s, d)]
    ensures forall i | 0 <= i < |u| :: !IsSpace(u[i])
  {
    forall i | 0 <= i < |u| ensures !IsSpace(u[i]) {
      assert u[i] == s[p + i];
      if i < SchemeLength(s, p) {
        SchemeCharNotSpace(s, p, i);
      } else if p + i > d {
        ExtensionCharNotSpace(s, d + 1, p + i - d - 1);
      }
    }
  }

  lemma SchemeCharNotSpace(s: string, p: nat, i: nat)
    requires i < SchemeLength(s, p)
    ensures !IsSpace(s[p + i])
  {
    var w := if SchemeLength(s, p) == 8 then "https://" else "http://";
    assert MatchesAt(s, p, w) && i < |w|;
    assert Lower(s[p + i]) == w[i];
    FoldedNotSpace(s[p + i]);
  }

  /** A character that folds to a letter, a colon, a slash or a dot is not white space. */
  lemma FoldedNotSpace(c: char)
    requires 'a' <= Lower(c) <= 'z' || Lower(c) == ':' || Lower(c) == '/' || Lower(c) == '.'
    ensures !IsSpace(c)
  {
  }

  lemma ExtensionCharNotSpace(s: string, i: nat, j: nat)
    requires j < ExtensionLength(s, i)
    ensures !IsSpace(s[i + j])
  {
    var w := if MatchesAt(s, i, "jpg") then "jpg"
             else if MatchesAt(s, i, "jpeg") then "jpeg"
             else if MatchesAt(s, i, "png") then "png"
             else if MatchesAt(s, i, "webp") then "webp"
             else "gif";
    assert MatchesAt(s, i, w) && j < |w|;
    assert Lower(s[i + j]) == w[j];
    FoldedNotSpace(s[i + j]);
  }

  lemma MatchTextExtension(s: string, p: nat, d: nat, u: string)
    requires IsUrlMatch(s, p, d) && u == s[p..MatchEnd(s, d)]
    ensures HasImageExtension(u)
  {
    var e := MatchEnd(s, d);
    if MatchesAt(s, d + 1, "jpg") {
      ExtensionInSlice(s, p, e, d, "jpg");
    } else if MatchesAt(s, d + 1, "jpeg") {
      ExtensionInSlice(s, p, e, d, "jpeg");
    } else if MatchesAt(s, d + 1, "png") {
      ExtensionInSlice(s, p, e, d, "png");
    } else if MatchesAt(s, d + 1, "webp") {
      ExtensionInSlice(s, p, e, d, "webp");
    } else {
      assert MatchesAt(s, d + 1, "gif");
      ExtensionInSlice(s, p, e, d, "gif");
    }
  }

  lemma ExtensionInSlice(s: string, lo: nat, hi: nat, d: nat, x: string)
    requires lo <= d && d + 1 + |x| == hi <= |s| && s[d] == '.' && MatchesAt(s, d + 1, x)
    ensures EndsWithExtension(s[lo..hi], x)
  {
    MatchesInSlice(s, lo, hi, d + 1, x);
  }

  /** A case-insensitive occurrence survives cutting out a slice around it. */
  lemma MatchesInSlice(s: string, lo: nat, hi: nat, i: nat, w: string)
    requires lo <= i && i + |w| <= hi <= |s| && MatchesAt(s, i, w)
    ensures MatchesAt(s[lo..hi], i - lo, w)
  {
    var t := s[lo..hi];
    forall j | 0 <= j < |w| ensures Lower(t[i - lo + j]) == w[j] {
      assert t[i - lo + j] == s[i + j];
    }
  }

  /** A URL found in content is a piece of that content and has the promised shape. */
  lemma FoundUrlShape(s: string)
    requires FindImageUrl(s).Some?
    ensures LooksLikeImageUrl(FindImageUrl(s).value)
    ensures exists i: nat :: OccursAt(s, i, FindImageUrl(s).value)
  {
    var (p, d) := MatchFrom(s, 0).value;
    MatchTextShape(s, p, d);
    assert OccursAt(s, p, FindImageUrl(s).value);
  }
}
