/** The computations of the analytics page
    (components/WebsiteAnalyticsDashboard.tsx): the bounce-rate guard, the
    duration and relative-time labels, and the page-url fallback. */
module Dashboard {
  import opened Common
  import opened Text
  import opened PageViews
  import opened Aggregation

  /** JavaScript's `a % 60`: the remainder takes the sign of a. */
  function JsRem60(a: int): (r: int)
    ensures a >= 0 ==> 0 <= r < 60
    ensures a < 0 ==> -60 < r <= 0
    ensures (a - r) % 60 == 0
  {
    if a >= 0 then a % 60 else -((-a) % 60)
  }

  /** `formatDuration(seconds)` for an integral number of seconds. */
  function FormatDuration(s: int): string {
    var mins := s / 60;             // Math.floor(seconds / 60)
    var secs := JsRem60(s);         // seconds % 60
    if mins > 0 then IntToString(mins) + "m " + IntToString(secs) + "s"
    else IntToString(secs) + "s"
  }

  /** Under a minute the label is the number of seconds. */
  lemma DurationUnderMinute(s: int)
    requires 0 <= s < 60
    ensures FormatDuration(s) == NatToString(s) + "s"
  {
    assert s / 60 == 0 && JsRem60(s) == s;
  }

  /** From a minute on, the label splits minutes and the seconds below 60. */
  lemma DurationMinutes(s: int)
    requires s >= 60
    ensures FormatDuration(s) == NatToString(s / 60) + "m " + NatToString(s % 60) + "s"
    ensures s % 60 < 60 && s / 60 >= 1
  {
    assert JsRem60(s) == s % 60;
  }

  predicate AllDigits(s: string) {
    forall i :: 0 <= i < |s| ==> IsDigit(s[i])
  }

  /** Reads a duration label back: `<m>m <s>s` or `<s>s`. */
  function ParseDuration(f: string): Option<nat> {
    if |f| == 0 || f[|f| - 1] != 's' then None
    else if 'm' in f[..|f| - 1] then ParseMinutes(f[..|f| - 1])
    else ParseNat(f[..|f| - 1])
  }

  function ParseNat(s: string): Option<nat> {
    if |s| > 0 && AllDigits(s) then Some(ParseDigits(s)) else None
  }

  /** `<m>m <s>`: the minutes before the `m`, the seconds after the space. */
  function ParseMinutes(body: string): Option<nat> {
    var a := BeforeFirst(body, 'm');
    if |body| - |a| > 2 && body[|a| + 1] == ' ' then
      var mins := ParseNat(a);
      var secs := ParseNat(body[|a| + 2..]);
      if mins.Some? && secs.Some? then Some(mins.value * 60 + secs.value) else None
    else None
  }

  /** The label of a non-negative duration determines it. */
  lemma DurationRoundTrip(s: nat)
    ensures ParseDuration(FormatDuration(s)) == Some(s)
  {
    if s >= 60 {
      DurationMinutes(s);
      var m, c := s / 60, s % 60;
      ParseMinutesLabel(m, c);
    } else {
      DurationUnderMinute(s);
      ParseSecondsLabel(s);
    }
  }

  lemma DigitsHaveNoM(n: nat)
    ensures 'm' !in NatToString(n) && AllDigits(NatToString(n))
  {
    var a := NatToString(n);
    forall i | 0 <= i < |a| ensures a[i] != 'm' {
      assert IsDigit(a[i]);
    }
  }

  lemma ParseSecondsLabel(c: nat)
    ensures ParseDuration(NatToString(c) + "s") == Some(c)
  {
    var a := NatToString(c);
    var f := a + "s";
    DigitsHaveNoM(c);
    NatToStringRoundTrip(c);
    assert f[..|f| - 1] == a;
  }

  lemma ParseMinutesLabel(m: nat, c: nat)
    ensures ParseDuration(NatToString(m) + "m " + NatToString(c) + "s") == Some(m * 60 + c)
  {
    DigitsHaveNoM(m);
    DigitsHaveNoM(c);
    NatToStringRoundTrip(m);
    NatToStringRoundTrip(c);
    ParseMinutesOf(NatToString(m), NatToString(c));
  }

  lemma ParseMinutesOf(a: string, b: string)
    requires |a| > 0 && |b| > 0 && AllDigits(a) && AllDigits(b) && 'm' !in a
    ensures ParseDuration(a + "m " + b + "s") == Some(ParseDigits(a) * 60 + ParseDigits(b))
  {
    var f := a + "m " + b + "s";
    var body := a + ['m'] + (" " + b);
    assert f[..|f| - 1] == body;
    assert body[|a|] == 'm';
    BeforeFirstConcat(a, 'm', " " + b);
    assert body[|a| + 2..] == b;
    MinutesBody(body, a, b);
  }

  lemma MinutesBody(body: string, a: string, b: string)
    requires |a| > 0 && |b| > 0 && AllDigits(a) && AllDigits(b)
    requires BeforeFirst(body, 'm') == a && |body| == |a| + 2 + |b|
    requires body[|a| + 1] == ' ' && body[|a| + 2..] == b
    ensures ParseMinutes(body) == Some(ParseDigits(a) * 60 + ParseDigits(b))
  {
  }

  /** `formatTimeAgo(timestamp)` at time `now`; the unit is the largest that
      has elapsed, and a timestamp less than a minute old or in the future is
      "just now". */
  function FormatTimeAgo(timestamp: int, now: int): (r: string)
    ensures now - timestamp < 60000 ==> r == "just now"
    ensures 60000 <= now - timestamp < 3600000 ==>
              var m := (now - timestamp) / 60000; 1 <= m < 60 && r == NatToString(m) + "m ago"
    ensures 3600000 <= now - timestamp < 86400000 ==>
              var h := (now - timestamp) / 3600000; 1 <= h < 24 && r == NatToString(h) + "h ago"
    ensures now - timestamp >= 86400000 ==>
              var d := (now - timestamp) / 86400000; d >= 1 && r == NatToString(d) + "d ago"
  {
    var diffMs := now - timestamp;
    var diffMins := diffMs / 60000;
    var diffHours := diffMs / 3600000;
    var diffDays := diffMs / 86400000;
    if diffMins < 1 then "just now"
    else if diffMins < 60 then IntToString(diffMins) + "m ago"
    else if diffHours < 24 then IntToString(diffHours) + "h ago"
    else IntToString(diffDays) + "d ago"
  }

  /** The branch of `formatPageUrl` taken when `new URL(url)` throws. */
  function PageUrlFallback(url: string): (r: string)
    ensures StartsWith(r, "/")
    ensures StartsWith(url, "/") ==> r == url
    ensures !StartsWith(url, "/") ==> r == "/" + url
  {
    if StartsWith(url, "/") then url else "/" + url
  }

  /** Applying the fallback to its own output changes nothing. */
  lemma PageUrlFallbackIdempotent(url: string)
    ensures PageUrlFallback(PageUrlFallback(url)) == PageUrlFallback(url)
  {
  }

  /** `formatPageUrl(url)`. `pathname(url)` is the URL parser: the path of an
      absolute url, None where the constructor throws. */
  function FormatPageUrl(url: string, pathname: string -> Option<string>): (r: string)
    ensures pathname(url).None? ==> r == PageUrlFallback(url)
    ensures pathname(url).Some? ==> r == OrElse(pathname(url), "/")
    ensures r != ""
  {
    match pathname(url)
    case Some(p) => OrElse(Some(p), "/")
    case None => PageUrlFallback(url)
  }

  /** `bounceRate`: the share of unique visitors among page views as a rounded
      percentage, 0 without page views. */
  function BounceRate(o: Overview): (r: int)
    ensures o.totalPageViews == 0 ==> r == 0
    ensures o.totalPageViews > 0 ==>
              2 * o.totalPageViews * r - o.totalPageViews <= 200 * o.uniqueVisitors < 2 * o.totalPageViews * r + o.totalPageViews
  {
    if o.totalPageViews > 0 then RoundDiv(o.uniqueVisitors * 100, o.totalPageViews) else 0
  }

  /** For the overview the endpoint computes, the bounce rate is a percentage. */
  lemma BounceRateIsPercentage(views: seq<PageView>)
    ensures 0 <= BounceRate(OverviewOf(views)) <= 100
  {
    var o := OverviewOf(views);
    if o.totalPageViews > 0 {
      var r := BounceRate(o);
      var t := o.totalPageViews;
      var u := o.uniqueVisitors;
      assert 2 * t * r - t <= 200 * u < 2 * t * r + t;
      assert 200 * u <= 200 * t by { MulLeft(200, u, t); }
      if r > 100 {
        MulLeft(2 * t, 101, r);
        assert false;
      }
      if r < 0 {
        MulLeft(2 * t, r, -1);
        assert false;
      }
    }
  }

  lemma MulLeft(c: int, a: int, b: int)
    requires c >= 0 && a <= b
    ensures c * a <= c * b
  {
    assert c * b - c * a == c * (b - a);
  }
}
