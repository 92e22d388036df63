/** The discovery cache directory name: `computeDiscoverCacheDir` strips an
    optional scheme from the server host, replaces every character a
    restrictive filesystem might refuse with '_' and joins the result to a
    parent directory. All of it is total string manipulation. */
module CacheDir {

  /** `pat` occurs in `s` starting at index `i`. */
  predicate OccursAt(s: string, pat: string, i: int) {
    0 <= i && i + |pat| <= |s| && s[i..i + |pat|] == pat
  }

  predicate Contains(s: string, pat: string) {
    exists i :: 0 <= i <= |s| - |pat| && OccursAt(s, pat, i)
  }

  /** `i` is the first index at which `pat` occurs in `s`. */
  predicate FirstOccurrence(s: string, pat: string, i: int) {
    OccursAt(s, pat, i) && forall j :: 0 <= j < i ==> !OccursAt(s, pat, j)
  }

  /** The first index at or after `i` where `pat` occurs in `s`, or -1. */
  function IndexFrom(s: string, pat: string, i: nat): (k: int)
    requires forall j :: 0 <= j < i ==> !OccursAt(s, pat, j)
    ensures k == -1 <==> !Contains(s, pat)
    ensures k != -1 ==> i <= k && FirstOccurrence(s, pat, k)
    decreases |s| - i
  {
    if i + |pat| > |s| then -1
    else if s[i..i + |pat|] == pat then assert OccursAt(s, pat, i); i
    else IndexFrom(s, pat, i + 1)
  }

  /** Go's `strings.Index`: the first index of `pat` in `s`, or -1. */
  function Index(s: string, pat: string): (k: int)
    ensures k == -1 <==> !Contains(s, pat)
    ensures k != -1 ==> FirstOccurrence(s, pat, k)
  {
    IndexFrom(s, pat, 0)
  }

  /** Go's `strings.Replace(s, pat, "", 1)`: remove the first occurrence of
      `pat`, if any. (With an empty `pat` Go inserts "" at the front, which
      leaves `s` as it is.) */
  function RemoveFirst(s: string, pat: string): (r: string)
    ensures !Contains(s, pat) ==> r == s
    ensures forall i :: FirstOccurrence(s, pat, i) ==> r == s[..i] + s[i + |pat|..]
  {
    var k := Index(s, pat);
    if k == -1 then s else s[..k] + s[k + |pat|..]
  }

  /** The characters kept by the pattern `[^(\w/\.)]`: ASCII letters and
      digits and '_' (that is `\w`), '/', '.', and, because they stand
      literally inside the brackets, '(' and ')'. */
  predicate Kept(c: char) {
    ('a' <= c <= 'z') || ('A' <= c <= 'Z') || ('0' <= c <= '9')
    || c == '_' || c == '/' || c == '.' || c == '(' || c == ')'
  }

  /** `overlyCautiousIllegalFileCharacters.ReplaceAllString(s, "_")`: the
      pattern matches exactly one character at a time, so every character
      it matches becomes one '_' and every other stays where it is. */
  function Sanitize(s: string): (r: string)
    ensures |r| == |s|
    ensures forall i :: 0 <= i < |s| ==> r[i] == if Kept(s[i]) then s[i] else '_'
    ensures forall i :: 0 <= i < |r| ==> Kept(r[i])
  {
    if s == [] then [] else [if Kept(s[0]) then s[0] else '_'] + Sanitize(s[1..])
  }

  /** `filepath.Join` of two elements: empty elements are skipped, the rest
      joined with '/'. The cleaning step of `filepath.Join` is not modelled. */
  function Join(parent: string, child: string): (r: string)
    ensures parent != [] && child != [] ==> r == parent + "/" + child
    ensures parent == [] ==> r == child
    ensures child == [] ==> r == parent
  {
    if parent == [] then child else if child == [] then parent else parent + "/" + child
  }

  /** Both scheme prefixes removed, first "https://" and then "http://". */
  function StripScheme(host: string): string {
    RemoveFirst(RemoveFirst(host, "https://"), "http://")
  }

  /** The cache directory for `host` under `parentDir`: the parent, a '/',
      and a segment as long as the scheme-less host in which every kept
      character of the host stays in place and every other one is '_'. */
  function ComputeDiscoverCacheDir(parentDir: string, host: string): (r: string)
    ensures var h := StripScheme(host);
      parentDir != [] && h != [] ==>
        && |r| == |parentDir| + 1 + |h|
        && r[..|parentDir|] == parentDir
        && r[|parentDir|] == '/'
        && forall i :: 0 <= i < |h| ==>
             (Kept(h[i]) ==> r[|parentDir| + 1 + i] == h[i])
             && (!Kept(h[i]) ==> r[|parentDir| + 1 + i] == '_')
    ensures forall i :: |parentDir| < i < |r| ==> Kept(r[i])
  {
    Join(parentDir, Sanitize(StripScheme(host)))
  }

  /** Sanitizing twice is sanitizing once. */
  lemma SanitizeIdempotent(s: string)
    ensures Sanitize(Sanitize(s)) == Sanitize(s)
  {
  }

  /** A host made only of kept characters is used as it is. */
  lemma SanitizeFixesExactlyKept(s: string)
    ensures Sanitize(s) == s <==> forall i :: 0 <= i < |s| ==> Kept(s[i])
  {
  }

  lemma HttpsPrefixOccurs(h: string)
    ensures OccursAt("https://" + h, "https://", 0)
  {
    assert ("https://" + h)[..8] == "https://";
  }

  /** A host written with the "https://" scheme names the same cache
      directory as the bare host, as long as the host holds no further
      "https://" (only the first occurrence is removed). */
  lemma StripHttpsScheme(parentDir: string, h: string)
    requires !Contains(h, "https://")
    ensures ComputeDiscoverCacheDir(parentDir, "https://" + h) == ComputeDiscoverCacheDir(parentDir, h)
  {
    HttpsPrefixOccurs(h);
    assert RemoveFirst("https://" + h, "https://") == h by {
      assert ("https://" + h)[8..] == h;
    }
  }

  /** "http://" followed by any string contains "https://" only inside
      that string: no occurrence can start within the prefix. */
  lemma HttpPrefixHidesNoHttps(h: string)
    requires !Contains(h, "https://")
    ensures !Contains("http://" + h, "https://")
  {
    var s := "http://" + h;
    forall i | 0 <= i <= |s| - 8
      ensures !OccursAt(s, "https://", i)
    {
      if i < 7 {
        assert s[i..i + 8][0] == s[i];
        assert s[i..i + 8][4] == s[i + 4];
        assert s[i] != 'h' || s[i + 4] != 's';
      } else {
        assert s[i..i + 8] == h[i - 7..i - 7 + 8];
        assert !OccursAt(h, "https://", i - 7);
      }
    }
  }

  /** The same for "http://", for a host that holds neither scheme. */
  lemma StripHttpScheme(parentDir: string, h: string)
    requires !Contains(h, "https://") && !Contains(h, "http://")
    ensures ComputeDiscoverCacheDir(parentDir, "http://" + h) == ComputeDiscoverCacheDir(parentDir, h)
  {
    HttpPrefixHidesNoHttps(h);
    var s := "http://" + h;
    assert OccursAt(s, "http://", 0) by {
      assert s[..7] == "http://";
    }
    assert RemoveFirst(s, "http://") == h by {
      assert s[7..] == h;
    }
  }

  /** Why the "http://" case needs the host free of "https://" as well:
      removing the first "https://" from the host can form a new "http://". */
  lemma HttpStripNeedsNoHttps()
    ensures var h := "httphttps://://x";
      !Contains(h, "http://") && StripScheme("http://" + h) != StripScheme(h)
  {
    HostHoldsNoHttp();
    RemoveHttpsFromHost();
    RemoveHttpFromShort();
    RemoveHttpsFromPrefixed();
    RemoveHttpFromDoubled();
  }

  lemma HostHoldsNoHttp()
    ensures !Contains("httphttps://://x", "http://")
  {
    var h := "httphttps://://x";
    forall i | 0 <= i <= |h| - 7 ensures !OccursAt(h, "http://", i) {
      assert h[i..i + 7][0] == h[i] && h[i..i + 7][4] == h[i + 4];
    }
  }

  lemma RemoveHttpsFromHost()
    ensures RemoveFirst("httphttps://://x", "https://") == "http://x"
  {
    var h := "httphttps://://x";
    assert h[4..12] == "https://";
    forall j | 0 <= j < 4 ensures !OccursAt(h, "https://", j) {
      assert h[j..j + 8][4] == h[j + 4];
    }
    assert FirstOccurrence(h, "https://", 4);
    assert h[..4] + h[12..] == "http://x";
  }

  lemma RemoveHttpFromShort()
    ensures RemoveFirst("http://x", "http://") == "x"
  {
    var h := "http://x";
    assert h[0..7] == "http://";
    assert FirstOccurrence(h, "http://", 0);
  }

  lemma RemoveHttpsFromPrefixed()
    ensures RemoveFirst("http://httphttps://://x", "https://") == "http://http://x"
  {
    var s := "http://httphttps://://x";
    assert s[11..19] == "https://";
    forall j | 0 <= j < 11 ensures !OccursAt(s, "https://", j) {
      assert s[j..j + 8][0] == s[j] && s[j..j + 8][4] == s[j + 4];
    }
    assert FirstOccurrence(s, "https://", 11);
    assert s[..11] + s[19..] == "http://http://x";
  }

  lemma RemoveHttpFromDoubled()
    ensures RemoveFirst("http://http://x", "http://") == "http://x"
  {
    var s := "http://http://x";
    assert s[0..7] == "http://";
    assert FirstOccurrence(s, "http://", 0);
  }
}
