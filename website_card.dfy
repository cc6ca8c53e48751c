/** The site card (components/website/WebsiteCard.tsx): the domain shown
    without its scheme, the timezone cell, and the tracking badge. */
module WebsiteCard {
  import opened Common
  import opened Text

  /** `\w`: an ASCII letter, digit or underscore. */
  predicate IsWordChar(c: char) {
    ('a' <= c <= 'z') || ('A' <= c <= 'Z') || ('0' <= c <= '9') || c == '_'
  }

  /** The longest prefix of word characters. */
  function WordPrefix(s: string): (w: string)
    ensures |w| <= |s| && w == s[..|w|]
    ensures forall i :: 0 <= i < |w| ==> IsWordChar(w[i])
    ensures |w| < |s| ==> !IsWordChar(s[|w|])
  {
    if |s| > 0 && IsWordChar(s[0]) then [s[0]] + WordPrefix(s[1..]) else ""
  }

  /** The text the pattern `(^\w+:|^)\/\/` matches at the start of s, if it
      matches: a word, a colon and two slashes, or two slashes alone. The
      first alternative is tried first; since `\w+` cannot match a colon, it
      can only succeed with the whole word prefix. */
  function SchemePrefix(s: string): (p: Option<string>)
    ensures p.Some? ==> StartsWith(s, p.value) && EndsWith(p.value, "//")
    ensures p.Some? ==> p.value == "//" || (|p.value| > 3 && p.value == WordPrefix(s) + "://")
    ensures p.None? ==> !StartsWith(s, "//")
    ensures |WordPrefix(s)| > 0 && StartsWith(s[|WordPrefix(s)|..], "://") ==> p == Some(WordPrefix(s) + "://")
    ensures !(|WordPrefix(s)| > 0 && StartsWith(s[|WordPrefix(s)|..], "://")) && StartsWith(s, "//") ==> p == Some("//")
  {
    var w := WordPrefix(s);
    if |w| > 0 && StartsWith(s[|w|..], "://") then
      assert s[..|w| + 3] == w + "://";
      Some(w + "://")
    else if StartsWith(s, "//") then Some("//")
    else None
  }

  /** The first replacement: the matched prefix removed. */
  function StripScheme(s: string): (r: string)
    ensures SchemePrefix(s).None? ==> r == s
    ensures SchemePrefix(s).Some? ==> s == SchemePrefix(s).value + r
  {
    match SchemePrefix(s)
    case None => s
    case Some(p) => s[|p|..]
  }

  /** The second replacement, `/\/$/`: one trailing slash removed. */
  function StripSlash(s: string): (r: string)
    ensures EndsWith(s, "/") ==> s == r + "/"
    ensures !EndsWith(s, "/") ==> r == s
  {
    if EndsWith(s, "/") then s[..|s| - 1] else s
  }

  /** `getDomainName(url)`. */
  function DomainName(url: string): string {
    StripSlash(StripScheme(url))
  }

  /** The domain is the url with at most one scheme prefix taken off the
      front and at most one slash taken off the end. */
  lemma DomainNameSplits(url: string)
    ensures exists p, q ::
      && (p == "" || p == "//" || (|p| > 3 && p == WordPrefix(url) + "://"))
      && (q == "" || q == "/")
      && url == p + DomainName(url) + q
  {
    var t := StripScheme(url);
    var p := if SchemePrefix(url).Some? then SchemePrefix(url).value else "";
    var q := if EndsWith(t, "/") then "/" else "";
    assert url == p + t;
    assert t == DomainName(url) + q;
    assert url == p + DomainName(url) + q;
  }

  /** Only one prefix comes off: a doubled scheme keeps its second copy. */
  lemma OneSchemeOnly(rest: string)
    ensures StripScheme("https://" + rest) == rest
  {
    var s := "https://" + rest;
    assert s[..5] == "https";
    forall i | 0 <= i < 5 ensures IsWordChar(s[i]) { }
    assert !IsWordChar(s[5]);
    WordPrefixIs(s, 5);
    assert s[5..][..3] == "://";
    assert s[8..] == rest;
  }

  /** The word prefix of s has length n when s starts with n word characters
      and a non-word one. */
  lemma {:induction false} WordPrefixIs(s: string, n: nat)
    requires n < |s| && !IsWordChar(s[n])
    requires forall i :: 0 <= i < n ==> IsWordChar(s[i])
    ensures WordPrefix(s) == s[..n]
    decreases n
  {
    if n > 0 {
      WordPrefixIs(s[1..], n - 1);
      assert s[..n] == [s[0]] + s[1..][..n - 1];
    }
  }

  /** Only one slash comes off the end. */
  lemma OneSlashOnly(s: string)
    ensures StripSlash(s + "//") == s + "/"
  {
    assert (s + "//")[..|s| + 1] == s + "/";
  }

  /** A url that starts with neither a scheme nor `//` and does not end in a
      slash is shown as it is. */
  lemma PlainDomainUnchanged(url: string)
    requires SchemePrefix(url).None? && !EndsWith(url, "/")
    ensures DomainName(url) == url
  {
  }

  /** `timezone.split("/").pop()`: the last segment. */
  function TimezoneLabel(tz: string): (r: string)
    ensures '/' !in r
    ensures '/' !in tz ==> r == tz
    ensures '/' in tz ==> exists k :: 0 <= k < |tz| && tz[k] == '/' && r == tz[k + 1..]
  {
    var r := AfterLast(tz, '/');
    assert |r| < |tz| ==> tz[|tz| - |r| - 1] == '/' && tz[|tz| - |r|..] == r;
    r
  }

  /** The badge under "Tracking". */
  function Badge(enableLocalTracking: bool): (r: string)
    ensures r == "Local" <==> enableLocalTracking
    ensures r == "Cloud" <==> !enableLocalTracking
  {
    if enableLocalTracking then "Local" else "Cloud"
  }
}
