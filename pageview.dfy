/** The stored page-view record (the `PageView` interface of types/analytics.ts).
    Dates are integer milliseconds since the epoch; nullable columns are Options. */
module PageViews {
  import opened Common

  /** Record identifiers issued by the store. */
  type Id = nat

  datatype PageView = PageView(
    id: Id,
    kind: string,                 // the `type` column: "entry" or "exit"
    websiteId: string,
    domain: string,
    url: string,
    referrer: Option<string>,
    entryTime: Option<int>,
    exitTime: Option<int>,
    activeTime: Option<int>,      // milliseconds, as measured by the probe
    serverTimestamp: int,
    userAgent: Option<string>,
    device: Option<string>,
    browser: Option<string>,
    browserVersion: Option<string>,
    os: Option<string>,
    osVersion: Option<string>,
    language: Option<string>,
    ip: Option<string>,
    country: Option<string>,
    region: Option<string>,
    city: Option<string>,
    timezone: Option<string>,
    utmSource: Option<string>,
    utmMedium: Option<string>,
    utmCampaign: Option<string>,
    utmTerm: Option<string>,
    utmContent: Option<string>,
    createdAt: int,
    updatedAt: int
  )

  /** `view.activeTime || 0`: a missing (or zero) active time counts as 0. */
  function ActiveOrZero(v: PageView): int {
    if v.activeTime.Some? then v.activeTime.value else 0
  }
}
