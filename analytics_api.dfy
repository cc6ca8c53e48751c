/** The request handling around the analytics computation in
    app/api/website/id/route.ts: authentication, the `websiteId` parameter,
    the ownership check against the site table, the fetch of the site's
    page views newest first, and the error responses. */
module AnalyticsApi {
  import opened Common
  import opened Text
  import opened PageViews
  import opened Sorting
  import Sites
  import opened Aggregation

  datatype Response =
    | Unauthorized                        // 401: nobody signed in
    | MissingWebsiteId                    // 400: no or empty `websiteId` parameter
    | UserNotFound                        // 404: no user row for the caller
    | SiteNotFound                        // 404: no such site among the caller's sites
    | ServerError                         // 500: a database call failed
    | Analytics(site: Sites.Site, data: Snapshot) // 200

  /** `prisma.website.findFirst({ where: { websiteId, userId } })`. */
  function FindSite(sites: seq<Sites.Site>, websiteId: string, u: Sites.UserId): (r: Option<Sites.Site>)
    ensures r.Some? ==> r.value in sites && r.value.websiteId == websiteId && r.value.userId == u
    ensures r.None? <==> forall s :: s in sites ==> !(s.websiteId == websiteId && s.userId == u)
  {
    if |sites| == 0 then None
    else if sites[0].websiteId == websiteId && sites[0].userId == u then Some(sites[0])
    else
      assert forall s :: s in sites ==> s == sites[0] || s in sites[1..];
      FindSite(sites[1..], websiteId, u)
  }

  predicate OfSite(websiteId: string, v: PageView) { v.websiteId == websiteId }

  /** `findMany({ where: { websiteId }, orderBy: { serverTimestamp: "desc" } })`;
      rows with equal timestamps stay in table order. */
  function Fetch(table: seq<PageView>, websiteId: string): seq<PageView> {
    SortDesc(Filter(table, (v: PageView) => OfSite(websiteId, v)), ServerTime)
  }

  /** The fetch returns exactly the site's rows, newest first. */
  lemma FetchSpec(table: seq<PageView>, websiteId: string)
    ensures SortedDesc(Fetch(table, websiteId), ServerTime)
    ensures forall v :: v in Fetch(table, websiteId) <==> v in table && v.websiteId == websiteId
  {
    var f := Filter(table, (v: PageView) => OfSite(websiteId, v));
    SortDescSorted(f, ServerTime);
    SortDescSameElements(f, ServerTime);
    forall v | v in table && v.websiteId == websiteId ensures v in f {
      var i :| 0 <= i < |table| && table[i] == v;
    }
  }

  /** GET /api/website/id?websiteId=... . `dbUp` is false when the database
      calls throw. */
  function Get(caller: Option<string>, websiteId: Option<string>, dbUp: bool,
               users: map<string, Sites.UserId>, sites: seq<Sites.Site>, table: seq<PageView>,
               now: int, offset: int): (r: Response)
    ensures caller.None? ==> r == Unauthorized
    ensures caller.Some? && !Truthy(websiteId) ==> r == MissingWebsiteId
    ensures caller.Some? && Truthy(websiteId) && !dbUp ==> r == ServerError
    ensures caller.Some? && Truthy(websiteId) && dbUp && caller.value !in users ==> r == UserNotFound
    ensures (caller.Some? && Truthy(websiteId) && dbUp && caller.value in users
             && !(exists s :: s in sites && s.websiteId == websiteId.value && s.userId == users[caller.value]))
            ==> r == SiteNotFound
    ensures r.Analytics? <==>
              && caller.Some? && Truthy(websiteId) && dbUp && caller.value in users
              && exists s :: s in sites && s.websiteId == websiteId.value && s.userId == users[caller.value]
    ensures r.Analytics? ==>
              && r.site in sites
              && r.site.websiteId == websiteId.value
              && r.site.userId == users[caller.value]
              && r.data == SnapshotOf(Fetch(table, websiteId.value), now, offset)
  {
    if caller.None? then Unauthorized
    else if !Truthy(websiteId) then MissingWebsiteId
    else if !dbUp then ServerError
    else if caller.value !in users then UserNotFound
    else match FindSite(sites, websiteId.value, users[caller.value])
      case None => SiteNotFound
      case Some(site) => Analytics(site, SnapshotOf(Fetch(table, websiteId.value), now, offset))
  }

  /** The analytics only ever show the requested site's records, and the
      recent list holds the newest of them. */
  lemma AnalyticsOfOwnSite(caller: Option<string>, websiteId: Option<string>, dbUp: bool,
                           users: map<string, Sites.UserId>, sites: seq<Sites.Site>, table: seq<PageView>,
                           now: int, offset: int)
    requires Get(caller, websiteId, dbUp, users, sites, table, now, offset).Analytics?
    ensures var r := Get(caller, websiteId, dbUp, users, sites, table, now, offset);
      var f := Fetch(table, websiteId.value);
      && (forall i :: 0 <= i < |r.data.recentPageViews| ==>
            r.data.recentPageViews[i] in table && r.data.recentPageViews[i].websiteId == r.site.websiteId)
      && (forall i, j :: 0 <= i < |r.data.recentPageViews| <= j < |f| ==>
            r.data.recentPageViews[i].serverTimestamp >= f[j].serverTimestamp)
  {
    var r := Get(caller, websiteId, dbUp, users, sites, table, now, offset);
    assert r.data == SnapshotOf(Fetch(table, websiteId.value), now, offset);
    RecentIsNewest(table, websiteId.value, now, offset);
  }

  /** The recent list of a site's snapshot holds records of that site, and
      none of the site's records it leaves out is newer. */
  lemma RecentIsNewest(table: seq<PageView>, websiteId: string, now: int, offset: int)
    ensures var f := Fetch(table, websiteId);
      var rec := SnapshotOf(f, now, offset).recentPageViews;
      && (forall i :: 0 <= i < |rec| ==> rec[i] in table && rec[i].websiteId == websiteId)
      && (forall i, j :: 0 <= i < |rec| <= j < |f| ==> rec[i].serverTimestamp >= f[j].serverTimestamp)
  {
    var f := Fetch(table, websiteId);
    FetchSpec(table, websiteId);
    PrefixIsNewest(f, SnapshotOf(f, now, offset).recentPageViews, table, websiteId);
  }

  /** A prefix of a newest-first list of one site's records. */
  lemma PrefixIsNewest(f: seq<PageView>, rec: seq<PageView>, table: seq<PageView>, websiteId: string)
    requires SortedDesc(f, ServerTime)
    requires forall v :: v in f ==> v in table && v.websiteId == websiteId
    requires |rec| <= |f| && rec == f[..|rec|]
    ensures forall i :: 0 <= i < |rec| ==> rec[i] in table && rec[i].websiteId == websiteId
    ensures forall i, j :: 0 <= i < |rec| <= j < |f| ==> rec[i].serverTimestamp >= f[j].serverTimestamp
  {
    forall i | 0 <= i < |rec| ensures rec[i] in table && rec[i].websiteId == websiteId {
      assert rec[i] == f[i];
    }
    forall i, j | 0 <= i < |rec| <= j < |f| ensures rec[i].serverTimestamp >= f[j].serverTimestamp {
      assert rec[i] == f[i];
      assert ServerTime(f[i]) >= ServerTime(f[j]);
    }
  }
}
