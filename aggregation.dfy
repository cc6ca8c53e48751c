/** The analytics endpoint (app/api/website/id/route.ts): every rollup the
    dashboard shows, computed from one list of page-view records that the
    database returns newest first. Times are integer milliseconds since the
    epoch; the current time and the host's fixed offset from UTC are
    parameters. */
module Aggregation {
  import opened Common
  import opened Text
  import opened PageViews
  import opened Grouping
  import opened Sorting
  import opened Tallies

  const DayMs: int := 86400000
  const HourMs: int := 3600000

  /** `Math.round(a / b)` for b > 0: the nearest integer, halves rounded up. */
  function RoundDiv(a: int, b: int): (r: int)
    requires b > 0
    ensures 2 * b * r - b <= 2 * a < 2 * b * r + b
  {
    var q := (2 * a + b) / (2 * b);
    assert 2 * b * q <= 2 * a + b < 2 * b * q + 2 * b;
    q
  }

  // ---------------------------------------------------------------------------
  // Overview figures.

  datatype Overview = Overview(totalPageViews: nat, uniqueVisitors: nat, avgActiveTime: int, totalActiveTime: int)

  /** `new Set(views.map(v => v.ip).filter(ip => ip))`: the distinct non-empty ips. */
  function Visitors(views: seq<PageView>): (r: set<string>)
    ensures forall x :: x in r <==> exists i :: 0 <= i < |views| && views[i].ip == Some(x) && x != ""
    ensures |r| <= |views|
  {
    if |views| == 0 then {}
    else
      var init := views[..|views| - 1];
      var v := views[|views| - 1];
      var s := Visitors(init);
      VisitorsSnoc(views, init, s);
      if Truthy(v.ip) then s + {v.ip.value} else s
  }

  /** The visitors of one more event: those before, and its ip when it has one. */
  lemma VisitorsSnoc(views: seq<PageView>, init: seq<PageView>, s: set<string>)
    requires |views| > 0 && init == views[..|views| - 1]
    requires forall x :: x in s <==> exists i :: 0 <= i < |init| && init[i].ip == Some(x) && x != ""
    ensures var v := views[|views| - 1];
      var r := if Truthy(v.ip) then s + {v.ip.value} else s;
      forall x :: x in r <==> exists i :: 0 <= i < |views| && views[i].ip == Some(x) && x != ""
  {
    var v := views[|views| - 1];
    var r := if Truthy(v.ip) then s + {v.ip.value} else s;
    forall x ensures x in r <==> exists i :: 0 <= i < |views| && views[i].ip == Some(x) && x != "" {
      if x in r {
        if x in s {
          var i :| 0 <= i < |init| && init[i].ip == Some(x) && x != "";
          assert views[i] == init[i];
        } else {
          assert views[|views| - 1].ip == Some(x);
        }
      }
      if exists i :: 0 <= i < |views| && views[i].ip == Some(x) && x != "" {
        var i :| 0 <= i < |views| && views[i].ip == Some(x) && x != "";
        if i < |init| {
          assert init[i] == views[i];
        }
      }
    }
  }

  /** `views.reduce((sum, v) => sum + (v.activeTime || 0), 0)`. */
  function TotalActive(views: seq<PageView>): int {
    if |views| == 0 then 0 else TotalActive(views[..|views| - 1]) + ActiveOrZero(views[|views| - 1])
  }

  /** The average active time: the total over the number of ALL events, rounded. */
  function AvgActive(views: seq<PageView>): (r: int)
    ensures |views| == 0 ==> r == 0
    ensures |views| > 0 ==>
              2 * |views| * r - |views| <= 2 * TotalActive(views) < 2 * |views| * r + |views|
  {
    if |views| > 0 then RoundDiv(TotalActive(views), |views|) else 0
  }

  function OverviewOf(views: seq<PageView>): (o: Overview)
    ensures o.totalPageViews == |views|
    ensures o.uniqueVisitors <= o.totalPageViews
  {
    Overview(|views|, |Visitors(views)|, AvgActive(views), TotalActive(views))
  }

  /** Any number of events from one non-empty ip are one visitor. */
  lemma {:induction false} OneSharedIp(views: seq<PageView>, ip: string)
    requires |views| >= 1 && ip != ""
    requires forall i :: 0 <= i < |views| ==> views[i].ip == Some(ip)
    ensures Visitors(views) == {ip}
    ensures OverviewOf(views).uniqueVisitors == 1
  {
    assert views[0].ip == Some(ip);
  }

  // ---------------------------------------------------------------------------
  // Popular pages.

  datatype PopularPage = PopularPage(url: string, views: nat, avgTime: int)

  function PageWeight(p: PopularPage): int { p.views }
  function PageUrl(p: PopularPage): string { p.url }

  function Urls(views: seq<PageView>): (r: seq<string>)
    ensures |r| == |views|
    ensures forall i :: 0 <= i < |views| ==> r[i] == views[i].url
  {
    seq(|views|, i requires 0 <= i < |views| => views[i].url)
  }

  /** Each view as an item of the page reduction: keyed by url, adding its
      active time (or 0). */
  function PageItems(views: seq<PageView>): (r: seq<Item<string, ()>>)
    ensures |r| == |views| && KeysOf(r) == Urls(views)
    ensures forall i :: 0 <= i < |views| ==> r[i].value == ActiveOrZero(views[i])
  {
    var r := seq(|views|, i requires 0 <= i < |views| => Item(views[i].url, (), ActiveOrZero(views[i])));
    assert KeysOf(r) == Urls(views);
    r
  }

  /** The summed active time of the views of url u. */
  function ActiveSum(views: seq<PageView>, u: string): int {
    SumFor(PageItems(views), u)
  }

  /** `Object.values(pageStats).map(...)`: one entry per url, first-seen order. */
  function PageStats(views: seq<PageView>): seq<PopularPage> {
    var g := Groups(PageItems(views));
    seq(|g|, i requires 0 <= i < |g| =>
      PopularPage(g[i].key, g[i].count, if g[i].count > 0 then RoundDiv(g[i].sum, g[i].count) else 0))
  }

  /** `.sort((a, b) => b.views - a.views).slice(0, 10)`. */
  function PopularPages(views: seq<PageView>): seq<PopularPage> {
    Take(SortDesc(PageStats(views), PageWeight), 10)
  }

  /** p is the entry of one url of the log: its view count (at least one)
      and its rounded average active time. */
  ghost predicate PageOk(p: PopularPage, views: seq<PageView>) {
    && p.url in Urls(views)
    && p.views == Occ(Urls(views), p.url)
    && p.views >= 1
    && p.avgTime == RoundDiv(ActiveSum(views, p.url), p.views)
  }

  /** r describes the pages of views: an entry per url, without repeats. */
  ghost predicate PagesOf(r: seq<PopularPage>, views: seq<PageView>) {
    && (forall i :: 0 <= i < |r| ==> PageOk(r[i], views))
    && DistinctBy(r, PageUrl)
    && (forall u :: u in Urls(views) ==> exists i :: 0 <= i < |r| && r[i].url == u)
  }

  lemma PageStatsArePages(views: seq<PageView>)
    ensures PagesOf(PageStats(views), views)
    ensures |PageStats(views)| == |Dedup(Urls(views))|
  {
    var items := PageItems(views);
    GroupsSpec(items);
    var g := Groups(items);
    var r := PageStats(views);
    forall i | 0 <= i < |r| ensures PageOk(r[i], views) {
      assert r[i].url == g[i].key;
    }
    forall i, j | 0 <= i < j < |r| ensures PageUrl(r[i]) != PageUrl(r[j]) {
      assert r[i].url == g[i].key && r[j].url == g[j].key;
    }
    forall u | u in Urls(views) ensures exists i :: 0 <= i < |r| && r[i].url == u {
      var n :| 0 <= n < |views| && Urls(views)[n] == u;
      assert KeysOf(items)[n] == items[n].key;
      var i :| 0 <= i < |g| && g[i].key == items[n].key;
      assert r[i].url == u;
    }
  }

  lemma SortedPages(r: seq<PopularPage>, views: seq<PageView>)
    requires PagesOf(r, views)
    ensures PagesOf(SortDesc(r, PageWeight), views)
    ensures SortedDesc(SortDesc(r, PageWeight), PageWeight)
  {
    var s := SortDesc(r, PageWeight);
    SortDescSorted(r, PageWeight);
    SortDescDistinctBy(r, PageWeight, PageUrl);
    SortDescSameElements(r, PageWeight);
    forall i | 0 <= i < |s| ensures PageOk(s[i], views) {
      assert s[i] in r;
    }
    forall u | u in Urls(views) ensures exists i :: 0 <= i < |s| && s[i].url == u {
      var j :| 0 <= j < |r| && r[j].url == u;
      assert r[j] in s;
    }
  }

  /** The popular pages: at most ten, by non-increasing view count, one per
      url, each with the url's view count and rounded average active time. */
  lemma PopularPagesSpec(views: seq<PageView>)
    ensures var r := PopularPages(views);
      && |r| == Min(|Dedup(Urls(views))|, 10)
      && SortedDesc(r, PageWeight)
      && DistinctBy(r, PageUrl)
      && (forall i :: 0 <= i < |r| ==> PageOk(r[i], views))
  {
    PageStatsArePages(views);
    var s := SortDesc(PageStats(views), PageWeight);
    SortedPages(PageStats(views), views);
    TakePages(s, views, 10);
  }

  lemma TakePages(s: seq<PopularPage>, views: seq<PageView>, n: nat)
    requires PagesOf(s, views) && SortedDesc(s, PageWeight)
    ensures var r := Take(s, n);
      && SortedDesc(r, PageWeight)
      && DistinctBy(r, PageUrl)
      && (forall i :: 0 <= i < |r| ==> PageOk(r[i], views))
  {
    var r := Take(s, n);
    assert forall i :: 0 <= i < |r| ==> r[i] == s[i];
  }

  /** A url left out of the popular pages has no more views than any page in them. */
  lemma PopularPagesAreTop(views: seq<PageView>, u: string, i: nat)
    requires u in Urls(views)
    requires forall j :: 0 <= j < |PopularPages(views)| ==> PopularPages(views)[j].url != u
    requires i < |PopularPages(views)|
    ensures PopularPages(views)[i].views >= Occ(Urls(views), u)
  {
    PageStatsArePages(views);
    SortedPages(PageStats(views), views);
    var s := SortDesc(PageStats(views), PageWeight);
    var k :| 0 <= k < |s| && s[k].url == u;
    assert PageOk(s[k], views);
    TakePagesTop(s, 10, k, i);
  }

  /** In a list sorted by views, an entry the prefix leaves out has no more
      views than any entry it keeps. */
  lemma TakePagesTop(s: seq<PopularPage>, n: nat, k: nat, i: nat)
    requires SortedDesc(s, PageWeight)
    requires k < |s| && forall j :: 0 <= j < |Take(s, n)| ==> Take(s, n)[j].url != s[k].url
    requires i < |Take(s, n)|
    ensures Take(s, n)[i].views >= s[k].views
  {
    var r := Take(s, n);
    assert forall j :: 0 <= j < |r| ==> s[j].url != s[k].url;
    assert k >= |r|;
    assert r[i] == s[i];
    assert PageWeight(s[i]) >= PageWeight(s[k]);
  }

  /** A log without active times averages 0 on every page. */
  lemma PagesWithoutActiveTime(views: seq<PageView>)
    requires forall i :: 0 <= i < |views| ==> views[i].activeTime.None?
    ensures forall i :: 0 <= i < |PopularPages(views)| ==> PopularPages(views)[i].avgTime == 0
  {
    PopularPagesSpec(views);
    var r := PopularPages(views);
    forall i | 0 <= i < |r| ensures r[i].avgTime == 0 {
      assert PageOk(r[i], views);
      SumForZero(PageItems(views), r[i].url);
      RoundDivZero(r[i].views);
    }
  }

  lemma RoundDivZero(b: int)
    requires b > 0
    ensures RoundDiv(0, b) == 0
  {
  }

  lemma {:induction false} SumForZero<K(!new), P>(items: seq<Item<K, P>>, k: K)
    requires forall i :: 0 <= i < |items| ==> items[i].value == 0
    ensures SumFor(items, k) == 0
    decreases |items|
  {
    if |items| > 0 {
      var init := items[..|items| - 1];
      assert forall i :: 0 <= i < |init| ==> init[i] == items[i];
      SumForZero(init, k);
    }
  }

  // ---------------------------------------------------------------------------
  // Label rollups: traffic sources, devices, browsers, operating systems, countries.

  /** `views.map(v => f(v) || d)`. */
  function Labels(views: seq<PageView>, f: PageView -> Option<string>, d: string): (r: seq<string>)
    ensures |r| == |views|
    ensures forall i :: 0 <= i < |views| ==> r[i] == OrElse(f(views[i]), d)
  {
    seq(|views|, i requires 0 <= i < |views| => OrElse(f(views[i]), d))
  }

  function Referrer(v: PageView): Option<string> { v.referrer }
  function Device(v: PageView): Option<string> { v.device }
  function Browser(v: PageView): Option<string> { v.browser }
  function Os(v: PageView): Option<string> { v.os }
  function Country(v: PageView): Option<string> { v.country }

  /** Every referrer count, most frequent first. */
  function AllSources(views: seq<PageView>): seq<Tally<string>> {
    SortDesc(CountBy(Labels(views, Referrer, "Direct")), TallyCount)
  }

  function TrafficSources(views: seq<PageView>): seq<Tally<string>> {
    Take(AllSources(views), 10)
  }

  function Devices(views: seq<PageView>): seq<Tally<string>> {
    CountBy(Labels(views, Device, "Unknown"))
  }

  function Browsers(views: seq<PageView>): seq<Tally<string>> {
    CountBy(Labels(views, Browser, "Unknown"))
  }

  function OperatingSystems(views: seq<PageView>): seq<Tally<string>> {
    CountBy(Labels(views, Os, "Unknown"))
  }

  function Countries(views: seq<PageView>): seq<Tally<string>> {
    SortDesc(CountBy(Labels(views, Country, "Unknown")), TallyCount)
  }

  /** An unsorted label rollup (devices, browsers, operating systems) counts
      every event exactly once under its label or the default, in first-seen
      order of the labels. */
  lemma LabelRollup(views: seq<PageView>, f: PageView -> Option<string>, d: string)
    ensures var r := CountBy(Labels(views, f, d));
      && TallyOf(r, Labels(views, f, d))
      && TallySum(r) == |views|
      && |r| == |Dedup(Labels(views, f, d))|
      && forall i :: 0 <= i < |r| ==> r[i].key == Dedup(Labels(views, f, d))[i]
  {
    CountByIsTally(Labels(views, f, d));
    TallySumIsLength(CountBy(Labels(views, f, d)), Labels(views, f, d));
  }

  /** A sorted label rollup (countries, and the traffic sources before the
      slice) counts every event once and lists the labels most frequent first. */
  lemma SortedLabelRollup(views: seq<PageView>, f: PageView -> Option<string>, d: string)
    ensures var r := SortDesc(CountBy(Labels(views, f, d)), TallyCount);
      && TallyOf(r, Labels(views, f, d))
      && SortedDesc(r, TallyCount)
      && TallySum(r) == |views|
  {
    var xs := Labels(views, f, d);
    CountByIsTally(xs);
    SortedTally(CountBy(xs), xs, TallyCount);
    TallySumIsLength(SortDesc(CountBy(xs), TallyCount), xs);
  }

  /** The traffic sources: at most ten, most frequent first, a missing or empty
      referrer counted as "Direct"; before the slice the counts add up to the
      number of events. */
  lemma TrafficSourcesSpec(views: seq<PageView>)
    ensures var all := AllSources(views);
      && TallyOf(all, Labels(views, Referrer, "Direct"))
      && SortedDesc(all, TallyCount)
      && TallySum(all) == |views|
      && TrafficSources(views) == all[..|TrafficSources(views)|]
      && |TrafficSources(views)| == Min(|all|, 10)
    ensures forall i :: 0 <= i < |views| && !Truthy(views[i].referrer) ==>
              Labels(views, Referrer, "Direct")[i] == "Direct"
  {
    SortedLabelRollup(views, Referrer, "Direct");
  }

  /** Device, browser and OS rollups count every event, unknown ones under "Unknown". */
  lemma DeviceBrowserOsSpec(views: seq<PageView>)
    ensures TallyOf(Devices(views), Labels(views, Device, "Unknown")) && TallySum(Devices(views)) == |views|
    ensures TallyOf(Browsers(views), Labels(views, Browser, "Unknown")) && TallySum(Browsers(views)) == |views|
    ensures TallyOf(OperatingSystems(views), Labels(views, Os, "Unknown"))
    ensures TallySum(OperatingSystems(views)) == |views|
  {
    LabelRollup(views, Device, "Unknown");
    LabelRollup(views, Browser, "Unknown");
    LabelRollup(views, Os, "Unknown");
  }

  lemma CountriesSpec(views: seq<PageView>)
    ensures TallyOf(Countries(views), Labels(views, Country, "Unknown"))
    ensures SortedDesc(Countries(views), TallyCount)
    ensures TallySum(Countries(views)) == |views|
  {
    SortedLabelRollup(views, Country, "Unknown");
  }

  // ---------------------------------------------------------------------------
  // Campaigns.

  datatype Campaign = Campaign(campaign: string, source: string, medium: string, count: nat)

  function CampaignCount(c: Campaign): int { c.count }
  function CampaignName(c: Campaign): string { c.campaign }
  function ServerTime(v: PageView): int { v.serverTimestamp }

  predicate HasCampaign(v: PageView) { Truthy(v.utmCampaign) }

  /** `views.filter(v => v.utm_campaign)`. */
  function CampaignViews(views: seq<PageView>): seq<PageView> {
    Filter(views, HasCampaign)
  }

  function CampaignItems(cv: seq<PageView>): (r: seq<Item<string, (string, string)>>)
    ensures |r| == |cv|
    ensures forall i :: 0 <= i < |cv| ==>
              r[i] == Item(cv[i].utmCampaign.GetOr(""),
                           (OrElse(cv[i].utmSource, "Unknown"), OrElse(cv[i].utmMedium, "Unknown")), 0)
  {
    seq(|cv|, i requires 0 <= i < |cv| =>
      Item(cv[i].utmCampaign.GetOr(""), (OrElse(cv[i].utmSource, "Unknown"), OrElse(cv[i].utmMedium, "Unknown")), 0))
  }

  /** `Object.values(utmStats)`: one entry per campaign, first-seen order. */
  function CampaignStats(views: seq<PageView>): seq<Campaign> {
    var g := Groups(CampaignItems(CampaignViews(views)));
    seq(|g|, i requires 0 <= i < |g| => Campaign(g[i].key, g[i].first.0, g[i].first.1, g[i].count))
  }

  function Campaigns(views: seq<PageView>): seq<Campaign> {
    SortDesc(CampaignStats(views), CampaignCount)
  }

  function CampaignNames(views: seq<PageView>): seq<string> {
    KeysOf(CampaignItems(CampaignViews(views)))
  }

  /** c is the entry of one campaign: its number of events, and the source and
      medium of its first event, "Unknown" when missing. */
  ghost predicate CampaignOk(c: Campaign, views: seq<PageView>) {
    var cv := CampaignViews(views);
    var names := CampaignNames(views);
    && c.campaign in names
    && c.count == Occ(names, c.campaign)
    && c.count >= 1
    && var n := FirstIndex(names, c.campaign);
       && c.source == OrElse(cv[n].utmSource, "Unknown")
       && c.medium == OrElse(cv[n].utmMedium, "Unknown")
  }

  /** The names are those of the events that have a campaign. */
  lemma CampaignNamesSpec(views: seq<PageView>)
    ensures var cv := CampaignViews(views);
      && |CampaignNames(views)| == |cv|
      && forall i :: 0 <= i < |cv| ==> HasCampaign(cv[i]) && CampaignNames(views)[i] == cv[i].utmCampaign.value
  {
  }

  lemma CampaignStatsSpec(views: seq<PageView>)
    ensures forall i :: 0 <= i < |CampaignStats(views)| ==> CampaignOk(CampaignStats(views)[i], views)
    ensures DistinctBy(CampaignStats(views), CampaignName)
    ensures forall name :: name in CampaignNames(views) ==>
              exists i :: 0 <= i < |CampaignStats(views)| && CampaignStats(views)[i].campaign == name
  {
    var cv := CampaignViews(views);
    var items := CampaignItems(cv);
    var names := KeysOf(items);
    GroupsSpec(items);
    var g := Groups(items);
    var c := CampaignStats(views);
    forall i | 0 <= i < |c| ensures CampaignOk(c[i], views) {
      FirstPayloadIsFirst(items, g[i].key);
    }
    forall i, j | 0 <= i < j < |c| ensures CampaignName(c[i]) != CampaignName(c[j]) {
      assert c[i].campaign == g[i].key && c[j].campaign == g[j].key;
    }
    CampaignStatsCover(views);
  }

  /** Every campaign name of the log has an entry. */
  lemma CampaignStatsCover(views: seq<PageView>)
    ensures forall name :: name in CampaignNames(views) ==>
              exists i :: 0 <= i < |CampaignStats(views)| && CampaignStats(views)[i].campaign == name
  {
    var items := CampaignItems(CampaignViews(views));
    var names := KeysOf(items);
    var g := Groups(items);
    var c := CampaignStats(views);
    GroupsSpec(items);
    forall name | name in names ensures exists i :: 0 <= i < |c| && c[i].campaign == name {
      var n :| 0 <= n < |names| && names[n] == name;
      assert items[n].key == name;
      var i :| 0 <= i < |g| && g[i].key == items[n].key;
      assert c[i].campaign == name;
    }
  }

  /** The campaigns: only events with a campaign, one entry per campaign, most
      frequent first, each as CampaignOk describes. */
  lemma CampaignsSpec(views: seq<PageView>)
    ensures var r := Campaigns(views);
      && SortedDesc(r, CampaignCount)
      && DistinctBy(r, CampaignName)
      && (forall i :: 0 <= i < |r| ==> CampaignOk(r[i], views) && r[i].campaign != "")
      && forall name :: name in CampaignNames(views) ==> exists i :: 0 <= i < |r| && r[i].campaign == name
  {
    var c := CampaignStats(views);
    CampaignStatsSpec(views);
    CampaignNamesSpec(views);
    var r := Campaigns(views);
    SortDescSorted(c, CampaignCount);
    SortDescDistinctBy(c, CampaignCount, CampaignName);
    SortDescSameElements(c, CampaignCount);
    forall i | 0 <= i < |r| ensures CampaignOk(r[i], views) && r[i].campaign != "" {
      assert r[i] in c;
      var k :| 0 <= k < |CampaignNames(views)| && CampaignNames(views)[k] == r[i].campaign;
    }
    NamesSurviveSort(c, r, CampaignNames(views));
  }

  /** A list with the same elements covers the same names. */
  lemma NamesSurviveSort(c: seq<Campaign>, r: seq<Campaign>, names: seq<string>)
    requires forall x :: x in r <==> x in c
    requires forall name :: name in names ==> exists j :: 0 <= j < |c| && c[j].campaign == name
    ensures forall name :: name in names ==> exists i :: 0 <= i < |r| && r[i].campaign == name
  {
    forall name | name in names ensures exists i :: 0 <= i < |r| && r[i].campaign == name {
      var j :| 0 <= j < |c| && c[j].campaign == name;
      assert c[j] in r;
    }
  }

  /** When the log is newest first, the source and medium of a campaign come
      from its newest event. */
  lemma CampaignFromNewest(views: seq<PageView>, i: nat, m: nat)
    requires SortedDesc(views, ServerTime)
    requires i < |Campaigns(views)|
    requires m < |CampaignViews(views)|
    requires CampaignViews(views)[m].utmCampaign == Some(Campaigns(views)[i].campaign)
    ensures var cv := CampaignViews(views);
      var n := FirstIndex(CampaignNames(views), Campaigns(views)[i].campaign);
      cv[m].serverTimestamp <= cv[n].serverTimestamp
  {
    CampaignsSpec(views);
    CampaignNamesSpec(views);
    var cv := CampaignViews(views);
    FilterSorted(views, HasCampaign, ServerTime);
    var names := CampaignNames(views);
    assert names[m] == Campaigns(views)[i].campaign;
    var n := FirstIndex(names, Campaigns(views)[i].campaign);
    assert n <= m;
    if n < m {
      assert ServerTime(cv[n]) >= ServerTime(cv[m]);
    }
  }

  // ---------------------------------------------------------------------------
  // Daily and hourly series.

  /** `views.filter(v => v.serverTimestamp >= since)`. */
  function Since(views: seq<PageView>, since: int): (r: seq<PageView>)
    ensures forall i :: 0 <= i < |r| ==> r[i] in views && r[i].serverTimestamp >= since
    ensures forall i :: 0 <= i < |views| && views[i].serverTimestamp >= since ==> views[i] in r
  {
    Filter(views, (v: PageView) => v.serverTimestamp >= since)
  }

  /** The UTC day number of a timestamp: the date part of `toISOString()`. */
  function DayOf(ts: int): int { ts / DayMs }

  /** `new Date(ts).getHours()` for a host at a fixed offset from UTC. */
  function LocalHour(ts: int, offset: int): (h: int)
    ensures 0 <= h < 24
  {
    ((ts + offset) / HourMs) % 24
  }

  function Days(vs: seq<PageView>): (r: seq<int>)
    ensures |r| == |vs|
    ensures forall i :: 0 <= i < |vs| ==> r[i] == DayOf(vs[i].serverTimestamp)
  {
    seq(|vs|, i requires 0 <= i < |vs| => DayOf(vs[i].serverTimestamp))
  }

  function Hours(vs: seq<PageView>, offset: int): (r: seq<int>)
    ensures |r| == |vs|
    ensures forall i :: 0 <= i < |vs| ==> r[i] == LocalHour(vs[i].serverTimestamp, offset)
  {
    seq(|vs|, i requires 0 <= i < |vs| => LocalHour(vs[i].serverTimestamp, offset))
  }

  /** Sorting by this weight lists days in ascending order. */
  function DayWeight(t: Tally<int>): int { -t.key }

  /** The events of the last seven days counted per UTC day, oldest day first. */
  function DailyViews(views: seq<PageView>, now: int): seq<Tally<int>> {
    SortDesc(CountBy(Days(Since(views, now - 7 * DayMs))), DayWeight)
  }

  /** The events of the last 24 hours counted per local hour, all 24 hours. */
  function HourlyViews(views: seq<PageView>, now: int, offset: int): seq<Tally<int>> {
    var g := Groups(LabelItems(Hours(Since(views, now - DayMs), offset)));
    seq(24, i requires 0 <= i < 24 => Tally(i, CountOf(g, i)))
  }

  /** The daily series only has days with events of the last seven days, in
      strictly ascending order, each with its number of recent events. */
  lemma DailyViewsSpec(views: seq<PageView>, now: int)
    ensures var recent := Since(views, now - 7 * DayMs);
      var r := DailyViews(views, now);
      && TallyOf(r, Days(recent))
      && (forall i :: 0 <= i < |r| ==> r[i].count >= 1 && r[i].key >= DayOf(now - 7 * DayMs))
      && (forall i, j :: 0 <= i < j < |r| ==> r[i].key < r[j].key)
      && TallySum(r) == |recent|
  {
    var recent := Since(views, now - 7 * DayMs);
    var ds := Days(recent);
    CountByIsTally(ds);
    SortedTally(CountBy(ds), ds, DayWeight);
    var r := DailyViews(views, now);
    TallySumIsLength(r, ds);
    DaysAfterCut(recent, now - 7 * DayMs, r);
    AscendingDays(r);
  }

  /** Every day of a tally of recent days is a day at or after the cut-off,
      and has at least one event. */
  lemma DaysAfterCut(recent: seq<PageView>, cut: int, r: seq<Tally<int>>)
    requires forall k :: 0 <= k < |recent| ==> recent[k].serverTimestamp >= cut
    requires forall i :: 0 <= i < |r| ==> r[i].key in Days(recent) && r[i].count == Occ(Days(recent), r[i].key)
    ensures forall i :: 0 <= i < |r| ==> r[i].count >= 1 && r[i].key >= DayOf(cut)
  {
    var ds := Days(recent);
    forall i | 0 <= i < |r| ensures r[i].count >= 1 && r[i].key >= DayOf(cut) {
      var k :| 0 <= k < |ds| && ds[k] == r[i].key;
      DayMonotone(cut, recent[k].serverTimestamp);
      OccPositive(ds, k);
    }
  }

  /** Sorted by DayWeight with distinct days means strictly ascending days. */
  lemma AscendingDays(r: seq<Tally<int>>)
    requires SortedDesc(r, DayWeight) && DistinctBy(r, TallyKey)
    ensures forall i, j :: 0 <= i < j < |r| ==> r[i].key < r[j].key
  {
    forall i, j | 0 <= i < j < |r| ensures r[i].key < r[j].key {
      assert DayWeight(r[i]) >= DayWeight(r[j]);
      assert TallyKey(r[i]) != TallyKey(r[j]);
    }
  }

  /** An element at some position occurs at least once. */
  lemma OccPositive<T>(xs: seq<T>, k: nat)
    requires k < |xs|
    ensures Occ(xs, xs[k]) >= 1
  {
    assert xs == xs[..k] + [xs[k]] + xs[k + 1..];
    OccAppend(xs[..k] + [xs[k]], xs[k + 1..], xs[k]);
    OccAppend(xs[..k], [xs[k]], xs[k]);
    OccSingle(xs[k], xs[k]);
  }

  lemma DayMonotone(a: int, b: int)
    requires a <= b
    ensures DayOf(a) <= DayOf(b)
  {
  }

  /** The hourly series has exactly 24 entries, entry i for hour i with the
      number of events of the last 24 hours in that hour (0 when there are
      none); the counts add up to the number of those events. */
  lemma HourlyViewsSpec(views: seq<PageView>, now: int, offset: int)
    ensures var recent := Since(views, now - DayMs);
      var r := HourlyViews(views, now, offset);
      && |r| == 24
      && (forall i :: 0 <= i < 24 ==> r[i].key == i && r[i].count == Occ(Hours(recent, offset), i))
      && TallySum(r) == |recent|
  {
    var recent := Since(views, now - DayMs);
    var hs := Hours(recent, offset);
    var r := HourlyViews(views, now, offset);
    forall i | 0 <= i < 24 ensures r[i].count == Occ(hs, i) {
      CountOfGroups(LabelItems(hs), i);
    }
    var ks := seq(24, i requires 0 <= i < 24 => i);
    TallySumIsTotalOcc(r, ks, hs);
    forall h | h in hs ensures h in ks {
      assert ks[h] == h;
    }
    TotalOccCovering(ks, hs);
  }

  // ---------------------------------------------------------------------------
  // The whole snapshot.

  datatype Snapshot = Snapshot(
    overview: Overview,
    popularPages: seq<PopularPage>,
    trafficSources: seq<Tally<string>>,
    devices: seq<Tally<string>>,
    browsers: seq<Tally<string>>,
    operatingSystems: seq<Tally<string>>,
    countries: seq<Tally<string>>,
    campaigns: seq<Campaign>,
    dailyViews: seq<Tally<int>>,
    hourlyViews: seq<Tally<int>>,
    recentPageViews: seq<PageView>
  )

  function SnapshotOf(views: seq<PageView>, now: int, offset: int): (s: Snapshot)
    ensures |s.recentPageViews| == Min(|views|, 20)
    ensures s.recentPageViews == views[..|s.recentPageViews|]
    ensures |s.hourlyViews| == 24
  {
    Snapshot(
      OverviewOf(views),
      PopularPages(views),
      TrafficSources(views),
      Devices(views),
      Browsers(views),
      OperatingSystems(views),
      Countries(views),
      Campaigns(views),
      DailyViews(views, now),
      HourlyViews(views, now, offset),
      Take(views, 20))
  }

  /** `reduce` into a count dictionary, then its entries. */
  method CountByReduce(xs: seq<string>) returns (r: seq<Tally<string>>)
    ensures r == CountBy(xs)
  {
    var g := GroupByReduce(LabelItems(xs));
    r := seq(|g|, i requires 0 <= i < |g| => Tally(g[i].key, g[i].count));
  }

  /** The endpoint's computation, each rollup a reduction over a dictionary. */
  method ComputeSnapshot(views: seq<PageView>, now: int, offset: int) returns (s: Snapshot)
    ensures s == SnapshotOf(views, now, offset)
  {
    var pages := GroupByReduce(PageItems(views));
    var stats := seq(|pages|, i requires 0 <= i < |pages| =>
      PopularPage(pages[i].key, pages[i].count,
                  if pages[i].count > 0 then RoundDiv(pages[i].sum, pages[i].count) else 0));
    var referrers := CountByReduce(Labels(views, Referrer, "Direct"));
    var devices := CountByReduce(Labels(views, Device, "Unknown"));
    var browsers := CountByReduce(Labels(views, Browser, "Unknown"));
    var systems := CountByReduce(Labels(views, Os, "Unknown"));
    var countries := CountByReduce(Labels(views, Country, "Unknown"));
    var utm := GroupByReduce(CampaignItems(CampaignViews(views)));

    var campaigns := seq(|utm|, i requires 0 <= i < |utm| =>
      Campaign(utm[i].key, utm[i].first.0, utm[i].first.1, utm[i].count));
    var days := GroupByReduce(LabelItems(Days(Since(views, now - 7 * DayMs))));
    var daily := seq(|days|, i requires 0 <= i < |days| => Tally(days[i].key, days[i].count));
    var hours := GroupByReduce(LabelItems(Hours(Since(views, now - DayMs), offset)));
    s := Snapshot(
      OverviewOf(views),
      Take(SortDesc(stats, PageWeight), 10),
      Take(SortDesc(referrers, TallyCount), 10),
      devices,
      browsers,
      systems,
      SortDesc(countries, TallyCount),
      SortDesc(campaigns, CampaignCount),
      SortDesc(daily, DayWeight),
      seq(24, i requires 0 <= i < 24 => Tally(i, CountOf(hours, i))),
      Take(views, 20));
  }
}
