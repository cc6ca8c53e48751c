/** The browser probe (public/analytics.js): it reads its two attributes,
    sends an entry event, keeps the page-view token in session storage,
    accumulates the time the page is visible, and sends an exit event when
    the page goes away. The clock is the parameter `now`; the network calls
    are the payloads the methods return. */
module Probe {
  import opened Common
  import opened Text
  import opened PageViews
  import Tracking

  /** What the page offers the probe. */
  datatype Env = Env(
    href: string,                       // window.location.href
    query: seq<(string, string)>,       // the decoded pairs of window.location.search
    referrer: string,                   // document.referrer
    userAgent: string,                  // navigator.userAgent
    language: string                    // navigator.language
  )

  datatype Utm = Utm(source: Option<string>, medium: Option<string>, campaign: Option<string>,
                     term: Option<string>, content: Option<string>)

  datatype EntryPayload = EntryPayload(
    websiteId: string, domain: string, entryTime: int, userAgent: string,
    referrer: string, url: string, language: string, utm: Utm)

  datatype ExitPayload = ExitPayload(
    pageViewId: Option<Id>, websiteId: string, domain: string, activeTime: int, exitTime: int)

  /** `URLSearchParams.get`: the value of the first pair with that name. */
  function QueryGet(query: seq<(string, string)>, name: string): (r: Option<string>)
    ensures r.None? <==> forall i :: 0 <= i < |query| ==> query[i].0 != name
    ensures r.Some? ==> exists i :: 0 <= i < |query| && query[i] == (name, r.value)
                                    && forall j :: 0 <= j < i ==> query[j].0 != name
  {
    if |query| == 0 then None
    else if query[0].0 == name then Some(query[0].1)
    else
      var r := QueryGet(query[1..], name);
      assert r.Some? ==> exists i :: 0 <= i < |query[1..]| && query[1..][i] == (name, r.value)
                                    && forall j :: 0 <= j < i ==> query[1..][j].0 != name;
      assert r.Some? ==> exists i :: 0 <= i < |query| && query[i] == (name, r.value)
                                    && forall j :: 0 <= j < i ==> query[j].0 != name by {
        if r.Some? {
          var i :| 0 <= i < |query[1..]| && query[1..][i] == (name, r.value)
                   && forall j :: 0 <= j < i ==> query[1..][j].0 != name;
          assert query[i + 1] == (name, r.value);
          forall j | 0 <= j < i + 1 ensures query[j].0 != name {
            if j > 0 { assert query[j] == query[1..][j - 1]; }
          }
        }
      }
      r
  }

  /** `getUTMParams`: each field is the parameter's value, or null when the
      parameter is absent or empty. */
  function UtmParams(query: seq<(string, string)>): (u: Utm)
    ensures u.source == OrNull(QueryGet(query, "utm_source"))
    ensures u.medium == OrNull(QueryGet(query, "utm_medium"))
    ensures u.campaign == OrNull(QueryGet(query, "utm_campaign"))
    ensures u.term == OrNull(QueryGet(query, "utm_term"))
    ensures u.content == OrNull(QueryGet(query, "utm_content"))
  {
    Utm(OrNull(QueryGet(query, "utm_source")), OrNull(QueryGet(query, "utm_medium")),
        OrNull(QueryGet(query, "utm_campaign")), OrNull(QueryGet(query, "utm_term")),
        OrNull(QueryGet(query, "utm_content")))
  }

  /** A UTM field is null exactly when its parameter is absent or empty. */
  lemma UtmNullIffAbsent(query: seq<(string, string)>)
    ensures UtmParams(query).source.None? <==> !Truthy(QueryGet(query, "utm_source"))
    ensures UtmParams(query).campaign.None? <==> !Truthy(QueryGet(query, "utm_campaign"))
  {
  }

  /** The `sendEntry` payload. */
  function EntryOf(websiteId: string, domain: string, env: Env, now: int): (p: EntryPayload)
    ensures p.referrer != ""
    ensures env.referrer == "" ==> p.referrer == "direct"
    ensures env.referrer != "" ==> p.referrer == env.referrer
    ensures p.entryTime == now && p.url == env.href && p.utm == UtmParams(env.query)
    ensures p.websiteId == websiteId && p.domain == domain
  {
    EntryPayload(websiteId, domain, now, env.userAgent,
                 if env.referrer != "" then env.referrer else "direct",
                 env.href, env.language, UtmParams(env.query))
  }

  /** The entry payload as the tracking endpoint reads it. */
  function EntryBody(p: EntryPayload): Tracking.TrackBody {
    Tracking.TrackBody(Some(p.websiteId), Some(p.domain), Some("entry"), Some(p.url),
                       Some(p.referrer), Some(p.userAgent), Some(p.language),
                       Some(p.entryTime), None, None, None,
                       p.utm.source, p.utm.medium, p.utm.campaign, p.utm.term, p.utm.content)
  }

  /** The exit payload as the tracking endpoint reads it. */
  function ExitBody(p: ExitPayload): Tracking.TrackBody {
    Tracking.TrackBody(Some(p.websiteId), Some(p.domain), Some("exit"), None, None, None, None,
                       None, Some(p.exitTime), Some(p.activeTime), p.pageViewId,
                       None, None, None, None, None)
  }

  /** What the probe sends is what the endpoint acts on: an entry from a probe
      with both attributes is stored as an entry, and it always carries a
      referrer (the literal `direct` when the page has none), so the
      aggregator's `Direct` default never applies to it. An exit is handled
      as an exit. */
  lemma PayloadsAreAccepted(websiteId: string, domain: string, env: Env, now: int, e: ExitPayload)
    requires websiteId != "" && domain != ""
    requires e.websiteId == websiteId && e.domain == domain
    ensures var b := EntryBody(EntryOf(websiteId, domain, env, now));
      && Truthy(b.websiteId) && Truthy(b.domain) && Tracking.Kind(b) == "entry"
      && forall id, h, lookup, parse ::
           Tracking.EntryRecord(id, b, h, lookup, parse, now).referrer == Some(EntryOf(websiteId, domain, env, now).referrer)
    ensures var b := ExitBody(e);
      Truthy(b.websiteId) && Truthy(b.domain) && Tracking.Kind(b) == "exit" && b.pageViewId == e.pageViewId
  {
  }

  class Tracker {
    const websiteId: string
    const domain: string
    /** When the current visible stretch began. */
    var entryTime: int
    /** The visible time accumulated so far, in milliseconds. */
    var totalActiveTime: int
    /** The `analytics_pageViewId` entry of session storage. */
    var token: Option<Id>

    /** The state right after the script starts: the clock reading and the
        session-storage entry left by an earlier page of the same tab. */
    constructor (websiteId: string, domain: string, now: int, stored: Option<Id>)
      requires websiteId != "" && domain != ""
      ensures this.websiteId == websiteId && this.domain == domain
      ensures entryTime == now && totalActiveTime == 0 && token == stored
    {
      this.websiteId := websiteId;
      this.domain := domain;
      entryTime := now;
      totalActiveTime := 0;
      token := stored;
    }

    /** The result of `sendEntry`: the token is stored only when the response
        carries a truthy `pageViewId`. */
    method OnEntryResponse(pageViewId: Option<Id>)
      modifies this
      ensures pageViewId.Some? ==> token == pageViewId
      ensures pageViewId.None? ==> token == old(token)
      ensures entryTime == old(entryTime) && totalActiveTime == old(totalActiveTime)
    {
      if pageViewId.Some? {
        token := pageViewId;
      }
    }

    /** The `visibilitychange` handler. */
    method OnVisibility(hidden: bool, now: int)
      modifies this
      ensures hidden ==> totalActiveTime == old(totalActiveTime) + (now - old(entryTime)) && entryTime == old(entryTime)
      ensures !hidden ==> totalActiveTime == old(totalActiveTime) && entryTime == now
      ensures now >= old(entryTime) ==> totalActiveTime >= old(totalActiveTime)
      ensures token == old(token)
    {
      if hidden {
        totalActiveTime := totalActiveTime + (now - entryTime);
      } else {
        entryTime := now;
      }
    }

    /** `sendExit`: adds the stretch since `entryTime` whether or not the page
        is hidden, sends the stored token, and removes it. */
    method SendExit(now: int) returns (p: ExitPayload)
      modifies this
      ensures totalActiveTime == old(totalActiveTime) + (now - old(entryTime))
      ensures entryTime == old(entryTime)
      ensures p == ExitPayload(old(token), websiteId, domain, totalActiveTime, now)
      ensures token.None?
    {
      totalActiveTime := totalActiveTime + (now - entryTime);
      p := ExitPayload(token, websiteId, domain, totalActiveTime, now);
      token := None;
    }

    /** Unloading fires both `beforeunload` and `pagehide`, each calling
        `sendExit`: the second payload carries no token, and its active time
        counts the stretch since `entryTime` a second time. */
    method Unload(t1: int, t2: int) returns (first: ExitPayload, second: ExitPayload)
      modifies this
      ensures first.pageViewId == old(token) && second.pageViewId.None?
      ensures first.activeTime == old(totalActiveTime) + (t1 - old(entryTime))
      ensures second.activeTime == first.activeTime + (t2 - old(entryTime))
    {
      first := SendExit(t1);
      second := SendExit(t2);
    }
  }

  /** The script's start: with an attribute missing it sends nothing and
      installs nothing; otherwise it sends the entry payload. */
  method Boot(websiteId: Option<string>, domain: Option<string>, env: Env, now: int, stored: Option<Id>)
    returns (t: Tracker?, entry: Option<EntryPayload>)
    ensures t == null <==> !Truthy(websiteId) || !Truthy(domain)
    ensures t == null <==> entry.None?
    ensures t != null ==>
              && fresh(t) && t.websiteId == websiteId.value && t.domain == domain.value
              && t.entryTime == now && t.totalActiveTime == 0 && t.token == stored
              && entry == Some(EntryOf(websiteId.value, domain.value, env, now))
  {
    if !Truthy(websiteId) || !Truthy(domain) {
      return null, None;
    }
    entry := Some(EntryOf(websiteId.value, domain.value, env, now));
    t := new Tracker(websiteId.value, domain.value, now, stored);
  }
}
