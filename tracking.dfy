/** The ingestion endpoint (app/api/track/route.ts): it validates a tracking
    request, derives the client ip, geolocation and user-agent fields, and
    records the event in the page-view table, correlating an exit with the
    entry it belongs to. The geolocation service and the user-agent parser are
    function parameters; the clock is the parameter `now`. */
module Tracking {
  import opened Common
  import opened Text
  import opened PageViews

  /** The JSON body. Absent, null and empty values are None; `pageViewId` is
      None when it is absent or empty. `entryTime` and `exitTime` are the
      millisecond values of the ISO strings the probe sends; `activeTime` is
      the number of milliseconds itself. */
  datatype TrackBody = TrackBody(
    websiteId: Option<string>,
    domain: Option<string>,
    kind: Option<string>,            // the `type` field
    url: Option<string>,
    referrer: Option<string>,
    userAgent: Option<string>,
    language: Option<string>,
    entryTime: Option<int>,
    exitTime: Option<int>,
    activeTime: Option<int>,
    pageViewId: Option<Id>,
    utmSource: Option<string>,
    utmMedium: Option<string>,
    utmCampaign: Option<string>,
    utmTerm: Option<string>,
    utmContent: Option<string>
  )

  /** The request headers the handler reads. */
  datatype Headers = Headers(
    realIp: Option<string>,              // x-real-ip
    forwardedFor: Option<string>,        // x-forwarded-for
    cfConnectingIp: Option<string>,      // cf-connecting-ip
    vercelForwardedFor: Option<string>,  // x-vercel-forwarded-for
    userAgent: Option<string>            // user-agent
  )

  /** An answer of the geolocation service. */
  datatype Geo = Geo(country: Option<string>, regionName: Option<string>, city: Option<string>, timezone: Option<string>)

  /** What the user-agent parser reports; None for a field it cannot tell. */
  datatype UaResult = UaResult(
    deviceType: Option<string>,
    browserName: Option<string>,
    browserVersion: Option<string>,
    osName: Option<string>,
    osVersion: Option<string>
  )

  datatype TrackResponse =
    | BadRequest                    // 400: websiteId or domain missing
    | EntryTracked(pageViewId: Id)  // 200, with the new record's id
    | ExitTracked                   // 200
    | OtherTracked(kind: string)    // 200: a type other than entry and exit; nothing stored

  const Loopback: string := "127.0.0.1"

  /** The first non-empty of the four candidates; the loopback address otherwise. */
  function ResolveIp(h: Headers): (ip: string)
    ensures ip != ""
    ensures var c := IpCandidates(h);
      || (exists i :: 0 <= i < 4 && Truthy(c[i]) && ip == c[i].value && forall j :: 0 <= j < i ==> !Truthy(c[j]))
      || ((forall j :: 0 <= j < 4 ==> !Truthy(c[j])) && ip == Loopback)
  {
    var c := IpCandidates(h);
    if Truthy(c[0]) then c[0].value
    else if Truthy(c[1]) then c[1].value
    else if Truthy(c[2]) then c[2].value
    else if Truthy(c[3]) then c[3].value
    else Loopback
  }

  /** `x-forwarded-for` names the client first: the trimmed text before the first comma. */
  function ForwardedClient(h: Headers): (r: Option<string>)
    ensures h.forwardedFor.None? ==> r.None?
    ensures h.forwardedFor.Some? ==> r == Some(Trim(BeforeFirst(h.forwardedFor.value, ',')))
  {
    match h.forwardedFor
    case None => None
    case Some(x) => Some(Trim(BeforeFirst(x, ',')))
  }

  function IpCandidates(h: Headers): seq<Option<string>> {
    [h.realIp, ForwardedClient(h), h.cfConnectingIp, h.vercelForwardedFor]
  }

  /** The forwarded client never contains a comma or surrounding white space. */
  lemma ForwardedClientClean(h: Headers)
    requires h.forwardedFor.Some?
    ensures ',' !in ForwardedClient(h).value
    ensures var c := ForwardedClient(h).value; |c| > 0 ==> !IsSpace(c[0]) && !IsSpace(c[|c| - 1])
  {
    var x := BeforeFirst(h.forwardedFor.value, ',');
    var a, b := TrimSpec(x);
    TrimEnds(x);
    var t := Trim(x);
    forall i | 0 <= i < |t| ensures t[i] != ',' {
      assert x[|a| + i] == t[i];
    }
  }

  /** No lookup for the loopback address or localhost: `lookup(ip)` is None
      when the request throws. */
  function GeoFor(ip: string, lookup: string -> Option<Geo>): (g: Option<Geo>)
    ensures ip == Loopback || ip == "localhost" ==> g.None?
    ensures ip != Loopback && ip != "localhost" ==> g == lookup(ip)
  {
    if ip != Loopback && ip != "localhost" then lookup(ip) else None
  }

  /** For a local address the service is never consulted: any lookup gives
      the same answer. */
  lemma LocalNeedsNoLookup(ip: string, l1: string -> Option<Geo>, l2: string -> Option<Geo>)
    requires ip == Loopback || ip == "localhost"
    ensures GeoFor(ip, l1) == GeoFor(ip, l2)
  {
  }

  /** `geoData?.field || null`. */
  function GeoField(g: Option<Geo>, f: Geo -> Option<string>): (r: Option<string>)
    ensures g.None? ==> r.None?
    ensures g.Some? ==> r == OrNull(f(g.value))
  {
    if g.None? then None else OrNull(f(g.value))
  }

  /** `body.userAgent || header || ""`. */
  function UaString(body: TrackBody, h: Headers): string {
    OrElse(body.userAgent, OrElse(h.userAgent, ""))
  }

  function Kind(body: TrackBody): (k: string)
    ensures !Truthy(body.kind) ==> k == "entry"
    ensures Truthy(body.kind) ==> k == body.kind.value
  {
    OrElse(body.kind, "entry")
  }

  /** `value || null` for a number: 0 is stored as null. */
  function NonZero(o: Option<int>): (r: Option<int>)
    ensures r.Some? <==> o.Some? && o.value != 0
    ensures r.Some? ==> r == o
  {
    if o.Some? && o.value != 0 then o else None
  }

  /** `body.t ? new Date(body.t) : new Date()`: the probe sends times as
      ISO strings, which are truthy whenever they are present. */
  function TimeOr(o: Option<int>, now: int): (t: int)
    ensures o.Some? ==> t == o.value
    ensures o.None? ==> t == now
  {
    if o.Some? then o.value else now
  }

  /** The Geo field selectors. */
  function GeoCountry(g: Geo): Option<string> { g.country }
  function GeoRegion(g: Geo): Option<string> { g.regionName }
  function GeoCity(g: Geo): Option<string> { g.city }
  function GeoTimezone(g: Geo): Option<string> { g.timezone }

  /** `pageViewData` stored as record `id` at time `now`; the entry, exit and
      active-time columns are added by the caller. */
  function BaseRecord(id: Id, body: TrackBody, h: Headers, lookup: string -> Option<Geo>,
                      parse: string -> UaResult, now: int): (v: PageView)
    requires Truthy(body.websiteId) && Truthy(body.domain)
    ensures v.id == id && v.kind == Kind(body)
    ensures v.websiteId == body.websiteId.value && v.domain == body.domain.value
    ensures v.url == OrElse(body.url, "")
    ensures v.referrer == OrNull(body.referrer) && v.language == OrNull(body.language)
    ensures v.utmSource == OrNull(body.utmSource) && v.utmMedium == OrNull(body.utmMedium)
    ensures v.utmCampaign == OrNull(body.utmCampaign) && v.utmTerm == OrNull(body.utmTerm)
    ensures v.utmContent == OrNull(body.utmContent)
    ensures v.userAgent == (if UaString(body, h) != "" then Some(UaString(body, h)) else None)
    ensures v.browserVersion == OrNull(parse(UaString(body, h)).browserVersion)
    ensures v.osVersion == OrNull(parse(UaString(body, h)).osVersion)
    ensures v.ip == Some(ResolveIp(h))
    ensures v.device == Some(OrElse(parse(UaString(body, h)).deviceType, "desktop"))
    ensures v.browser == Some(OrElse(parse(UaString(body, h)).browserName, "Unknown"))
    ensures v.os == Some(OrElse(parse(UaString(body, h)).osName, "Unknown"))
    ensures GeoFor(ResolveIp(h), lookup).None? ==>
              v.country.None? && v.region.None? && v.city.None? && v.timezone.None?
    ensures v.country == GeoField(GeoFor(ResolveIp(h), lookup), GeoCountry)
    ensures v.region == GeoField(GeoFor(ResolveIp(h), lookup), GeoRegion)
    ensures v.city == GeoField(GeoFor(ResolveIp(h), lookup), GeoCity)
    ensures v.timezone == GeoField(GeoFor(ResolveIp(h), lookup), GeoTimezone)
    ensures v.entryTime.None? && v.exitTime.None? && v.activeTime.None?
    ensures v.serverTimestamp == now
  {
    var ua := UaString(body, h);
    var u := parse(ua);
    var ip := ResolveIp(h);
    var geo := GeoFor(ip, lookup);
    PageView(
      id := id,
      kind := Kind(body),
      websiteId := body.websiteId.value,
      domain := body.domain.value,
      url := OrElse(body.url, ""),
      referrer := OrNull(body.referrer),
      entryTime := None,
      exitTime := None,
      activeTime := None,
      serverTimestamp := now,
      userAgent := if ua != "" then Some(ua) else None,
      device := Some(OrElse(u.deviceType, "desktop")),
      browser := Some(OrElse(u.browserName, "Unknown")),
      browserVersion := OrNull(u.browserVersion),
      os := Some(OrElse(u.osName, "Unknown")),
      osVersion := OrNull(u.osVersion),
      language := OrNull(body.language),
      ip := Some(ip),
      country := GeoField(geo, GeoCountry),
      region := GeoField(geo, GeoRegion),
      city := GeoField(geo, GeoCity),
      timezone := GeoField(geo, GeoTimezone),
      utmSource := OrNull(body.utmSource),
      utmMedium := OrNull(body.utmMedium),
      utmCampaign := OrNull(body.utmCampaign),
      utmTerm := OrNull(body.utmTerm),
      utmContent := OrNull(body.utmContent),
      createdAt := now,
      updatedAt := now)
  }

  /** The record an entry creates. */
  function EntryRecord(id: Id, body: TrackBody, h: Headers, lookup: string -> Option<Geo>,
                       parse: string -> UaResult, now: int): (v: PageView)
    requires Truthy(body.websiteId) && Truthy(body.domain)
    ensures v.entryTime == Some(TimeOr(body.entryTime, now))
    ensures v.exitTime.None? && v.activeTime.None?
    ensures v == BaseRecord(id, body, h, lookup, parse, now).(entryTime := v.entryTime)
  {
    BaseRecord(id, body, h, lookup, parse, now).(entryTime := Some(TimeOr(body.entryTime, now)))
  }

  /** The standalone record an exit creates when it cannot be matched: an exit
      record without entry time. */
  function ExitRecord(id: Id, body: TrackBody, h: Headers, lookup: string -> Option<Geo>,
                      parse: string -> UaResult, now: int): (v: PageView)
    requires Truthy(body.websiteId) && Truthy(body.domain)
    requires Kind(body) == "exit"
    ensures v.kind == "exit" && v.entryTime.None?
    ensures v.url == OrElse(body.url, "")
    ensures v.exitTime == Some(TimeOr(body.exitTime, now))
    ensures v.activeTime == NonZero(body.activeTime)
    ensures v == BaseRecord(id, body, h, lookup, parse, now).(exitTime := v.exitTime, activeTime := v.activeTime)
  {
    BaseRecord(id, body, h, lookup, parse, now).(exitTime := Some(TimeOr(body.exitTime, now)),
                                                 activeTime := NonZero(body.activeTime))
  }

  /** The update an exit applies to the record it names. */
  function WithExit(v: PageView, body: TrackBody, now: int): (w: PageView)
    ensures w.exitTime == Some(TimeOr(body.exitTime, now))
    ensures w.activeTime == NonZero(body.activeTime)
    ensures w.(exitTime := v.exitTime, activeTime := v.activeTime) == v
  {
    v.(exitTime := Some(TimeOr(body.exitTime, now)), activeTime := NonZero(body.activeTime))
  }

  /** A second exit for the same record overwrites what the first one wrote. */
  lemma SecondExitOverwrites(v: PageView, b1: TrackBody, n1: int, b2: TrackBody, n2: int)
    ensures WithExit(WithExit(v, b1, n1), b2, n2) == WithExit(v, b2, n2)
  {
  }

  class PageViewStore {
    /** The page-view table by record id. */
    var records: map<Id, PageView>
    /** The next id the table hands out. */
    var nextId: Id

    ghost predicate Valid()
      reads this
    {
      forall id :: id in records ==> id < nextId && records[id].id == id
    }

    constructor ()
      ensures Valid() && records == map[] && nextId == 1
    {
      records := map[];
      nextId := 1;
    }

    /** POST /api/track. */
    method Track(body: TrackBody, h: Headers, lookup: string -> Option<Geo>,
                 parse: string -> UaResult, now: int) returns (resp: TrackResponse)
      requires Valid()
      modifies this
      ensures Valid()
      ensures !Truthy(body.websiteId) || !Truthy(body.domain) ==>
                resp == BadRequest && records == old(records) && nextId == old(nextId)
      ensures Truthy(body.websiteId) && Truthy(body.domain) && Kind(body) == "entry" ==>
                && resp == EntryTracked(old(nextId))
                && old(nextId) !in old(records)
                && records == old(records)[old(nextId) := EntryRecord(old(nextId), body, h, lookup, parse, now)]
                && nextId == old(nextId) + 1
      ensures Truthy(body.websiteId) && Truthy(body.domain) && Kind(body) == "exit"
              && body.pageViewId.Some? && body.pageViewId.value in old(records) ==>
                && resp == ExitTracked
                && records == old(records)[body.pageViewId.value :=
                                             WithExit(old(records)[body.pageViewId.value], body, now)]
                && nextId == old(nextId)
      ensures Truthy(body.websiteId) && Truthy(body.domain) && Kind(body) == "exit"
              && !(body.pageViewId.Some? && body.pageViewId.value in old(records)) ==>
                && resp == ExitTracked
                && old(nextId) !in old(records)
                && records == old(records)[old(nextId) := ExitRecord(old(nextId), body, h, lookup, parse, now)]
                && nextId == old(nextId) + 1
      ensures Truthy(body.websiteId) && Truthy(body.domain) && Kind(body) != "entry" && Kind(body) != "exit" ==>
                resp == OtherTracked(Kind(body)) && records == old(records) && nextId == old(nextId)
    {
      if !Truthy(body.websiteId) || !Truthy(body.domain) {
        return BadRequest;
      }
      var kind := Kind(body);
      if kind == "entry" {
        var id := nextId;
        records := records[id := EntryRecord(id, body, h, lookup, parse, now)];
        nextId := nextId + 1;
        return EntryTracked(id);
      } else if kind == "exit" {
        if body.pageViewId.Some? && body.pageViewId.value in records {
          var id := body.pageViewId.value;
          records := records[id := WithExit(records[id], body, now)];
          return ExitTracked;
        }
        var id := nextId;
        records := records[id := ExitRecord(id, body, h, lookup, parse, now)];
        nextId := nextId + 1;
        return ExitTracked;
      }
      return OtherTracked(kind);
    }
  }
}
