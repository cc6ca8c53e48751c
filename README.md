# WebAnalyst in Dafny

A model of the logic of WebAnalyst, a self-hosted web-analytics service. These parts are modelled:

- **Probe.** A browser script (`public/analytics.js`) that sends an *entry* event when a page opens. It keeps the record id it gets back in session storage, adds up the time the page is visible, and sends an *exit* event when the page goes away.
- **Tracking endpoint** (`app/api/track/route.ts`). It validates each event and derives the client IP, the geolocation fields and the user-agent fields. It then stores the event in the page-view table. An exit is matched with its entry through the record id.
- **Analytics endpoint** (`app/api/website/id/route.ts`). After it checks that the caller owns the site, it reads the site's page views newest first. It rolls them up into one snapshot:
  - overview figures;
  - the top pages;
  - traffic sources, devices, browsers, operating systems and countries;
  - UTM campaigns;
  - a daily series and an hourly series;
  - the twenty most recent events.
- **Site registration** (`app/api/website/route.ts`). It registers a site for a user, and no user can own two sites with the same domain. It also lists the caller's sites.
- **Dashboard display logic.** This covers the duration, time-ago and URL labels, the bounce rate, the source, device, browser and country icons, the domain and timezone cells, and the row caps of each table.

What the project models, and how:

- **Records.** A page view is a `PageView` datatype (`pageview.dfy`). Times are integer milliseconds. Nullable columns are `Option`s.
- **JavaScript idioms.**
  - JavaScript truthiness of a string is `Truthy`.
  - `a || d` is `OrElse`, and `a || null` is `OrNull`.
  - `Math.round(a / b)` for b > 0 is `RoundDiv`, which is exact half-up rounding on integers.
- **Reductions into a dictionary.** Each one is specified by `Grouping.Groups`:
  - one bucket per key, in first-seen order;
  - its count;
  - its sum;
  - the payload of its first item.

  `Grouping.GroupByReduce` is the loop over a `map` accumulator, proved equal to it.
- **Sorts.** `Array.prototype.sort` with a `b.x - a.x` comparator is `Sorting.SortDesc`, a stable insertion sort. The model proves that it sorts and keeps the same elements, that it is stable, and that it keeps keys distinct.
- **The analytics snapshot** is the function `Aggregation.SnapshotOf`. The method `Aggregation.ComputeSnapshot` computes it with the dictionary loops.
- **The page-view table** is the class `Tracking.PageViewStore`, with a `map<Id, PageView>` and a fresh-id counter. The site table is `Sites.SiteRegistry`. The probe is `Probe.Tracker`, whose fields are its two timers and the session-storage token.
- **External services as parameters.**
  - The geolocation service is a function `string -> Option<Geo>`.
  - The user-agent parser is `string -> UaResult`.
  - The URL parser is `string -> Option<string>`.
  - The clock is a parameter `now`, and the host's time zone is a fixed `offset`.
  - The identity provider's `currentUser()` is an `Option` of the caller's external id.

Behaviour of the source that the model makes explicit:

- `activeTime` is measured in milliseconds by the probe (`public/analytics.js:67`). Yet the dashboard formats the average as seconds (`components/WebsiteAnalyticsDashboard.tsx:180`). The model keeps milliseconds throughout.
- The probe sends the referrer `direct` for an empty `document.referrer`. The aggregator labels a missing referrer `Direct`, which is a different bucket. Only exit records created by the fallback path have no referrer (`Probe.PayloadsAreAccepted`). Both labels are displayed as `Direct / None` (`SourcesTable.DirectLabelsShareName`).
- Both `beforeunload` and `pagehide` call `sendExit`.
  - The second call sends no `pageViewId`, so the endpoint creates a standalone exit record.
  - Its `activeTime` counts the current visible stretch a second time (`Probe.Tracker.Unload`).
  - `sendExit` while hidden also adds the time since the last show again (`Probe.Tracker.SendExit`).
- The exit update finds its record by id alone. An exit with the id of another site's record updates that record. `enableLocalTracking` is never read by the tracking endpoint, and `websiteId` is not checked against the site table.
- An exit update keeps the record's `type`, which stays `entry` (`Tracking.WithExit`).

## Model

| member | source | states |
|---|---|---|
| Grouping.Dedup | app/api/website/id/route.ts:77-85 | the keys of a dictionary built by a reduce: each key seen, exactly once, and no other |
| Grouping.GroupByReduce | app/api/website/id/route.ts:77-85 | the loop over a map accumulator (create the bucket if absent, then add) yields exactly `Groups(items)` |
| Grouping.GroupsSpec | app/api/website/id/route.ts:77-85 | every bucket's key occurs in the input, its count is the key's number of occurrences (at least 1), and its sum is the sum of the key's values; keys are distinct, and every input key has a bucket |
| Grouping.GroupsCountsSum | app/api/website/id/route.ts:77-85 | the bucket counts add up to the number of items |
| Grouping.FirstPayloadIsFirst | app/api/website/id/route.ts:177-184 | a bucket keeps the payload of the first item with its key (the entry is created once, then only counted) |
| Grouping.CountOfGroups | app/api/website/id/route.ts:233-236 | looking a key up in the groups gives its number of occurrences, 0 for a key never seen |
| Sorting.SortDescSorted | app/api/website/id/route.ts:92 | the sort by `b.w - a.w` lists elements by non-increasing weight |
| Sorting.SortDesc | app/api/website/id/route.ts:92 | the sort keeps the length and the multiset of elements |
| Sorting.SortDescStable | app/api/website/id/route.ts:107 | among elements of equal weight the sort keeps the input order |
| Sorting.SortDescDistinctBy | app/api/website/id/route.ts:107 | sorting keeps keys pairwise distinct |
| Sorting.SortDescSameElements | app/api/website/id/route.ts:170 | the sorted list contains exactly the input's elements |
| Sorting.TakeIsTop | app/api/website/id/route.ts:93 | after the sort, the first n elements outweigh everything the slice drops |
| Sorting.FilterSorted | app/api/website/id/route.ts:173-174 | filtering a newest-first list keeps it newest first |
| Tallies.CountByIsTally | app/api/website/id/route.ts:96-103 | a count dictionary has one entry per distinct label, carrying its number of occurrences, in first-seen order |
| Tallies.TallySumIsLength | app/api/website/id/route.ts:96-103 | the counts of a tally add up to the number of labels counted |
| Tallies.SortedTally | app/api/website/id/route.ts:105-107 | sorting a tally leaves a tally of the same labels, sorted by the weight |
| Tallies.TakeTally | app/api/website/id/route.ts:108 | a prefix of a tally still has correct, non-zero counts and no repeated label |
| Tallies.TakeTallyTop | app/api/website/id/route.ts:105-108 | a label the top-10 slice drops has a count no larger than any kept count |
| Aggregation.Visitors | app/api/website/id/route.ts:64-66 | the visitor set is exactly the non-empty ips of the events, so it is no larger than the event count |
| Aggregation.OverviewOf | app/api/website/id/route.ts:61-66 | the total is the number of events, and the unique visitors are at most the total |
| Aggregation.OneSharedIp | app/api/website/id/route.ts:64-66 | any N ≥ 1 events sharing one non-empty ip are exactly one unique visitor |
| Aggregation.RoundDiv | app/api/website/id/route.ts:74 | `Math.round(a / b)` for b > 0: the nearest integer, with halves rounded up |
| Aggregation.AvgActive | app/api/website/id/route.ts:69-74 | the average is 0 on an empty log, and otherwise round(Σ(activeTime or 0) / number of events), with the denominator counting events without active time |
| Aggregation.PageItems | app/api/website/id/route.ts:77-84 | each event contributes its url as key and `activeTime or 0` as value |
| Aggregation.PageStatsArePages | app/api/website/id/route.ts:77-91 | one entry per distinct url, views = the url's count, avgTime = round(sum / views) |
| Aggregation.PopularPagesSpec | app/api/website/id/route.ts:87-93 | at most 10 entries (min(distinct urls, 10)), sorted by non-increasing views, urls distinct, each entry correct |
| Aggregation.PopularPagesAreTop | app/api/website/id/route.ts:92-93 | a url left out of the top pages has no more views than any page shown |
| Aggregation.PagesWithoutActiveTime | app/api/website/id/route.ts:83-90 | with all active times null, every avgTime is 0 |
| Aggregation.Labels | app/api/website/id/route.ts:97 | each event is labelled with its field, or with the default when the field is null or empty |
| Aggregation.LabelRollup | app/api/website/id/route.ts:111-153 | the device, browser and OS rollups have one entry per distinct label (null mapped to `Unknown`), correct counts, first-seen order, and counts summing to the number of events |
| Aggregation.TrafficSourcesSpec | app/api/website/id/route.ts:96-108 | a null or empty referrer counts under `Direct`; the full list is sorted by non-increasing count and sums to the number of events; the result is its first min(n, 10) entries |
| Aggregation.DeviceBrowserOsSpec | app/api/website/id/route.ts:111-153 | devices, browsers and operating systems are correct tallies of their labels, each summing to the number of events, unsorted and uncapped |
| Aggregation.CountriesSpec | app/api/website/id/route.ts:156-170 | the country rollup is a tally of the country labels (null → `Unknown`), sorted by descending count, summing to the number of events |
| Aggregation.CampaignItems | app/api/website/id/route.ts:176-182 | a campaign event contributes its campaign name and its source and medium, `Unknown` when missing |
| Aggregation.CampaignNamesSpec | app/api/website/id/route.ts:173-174 | only events with a truthy `utm_campaign` take part |
| Aggregation.CampaignStatsSpec | app/api/website/id/route.ts:175-187 | exactly one entry per campaign name of the log (every name has an entry, no name two); its count is the number of its events, and its source and medium come from its first event in input order |
| Aggregation.CampaignsSpec | app/api/website/id/route.ts:189 | campaigns are sorted by descending count, every campaign of the log has an entry, names are distinct and non-empty, each entry as above |
| Aggregation.CampaignFromNewest | app/api/website/id/route.ts:175-184 | with the log newest first, a campaign's source and medium come from its newest event |
| Aggregation.Since | app/api/website/id/route.ts:195-197 | the window keeps exactly the events at or after the cut-off |
| Aggregation.LocalHour | app/api/website/id/route.ts:225 | the hour of an event is between 0 and 23 |
| Aggregation.DailyViewsSpec | app/api/website/id/route.ts:192-214 | the daily series covers only events of the last 7 days; its dates are strictly ascending, every count is at least 1 (no empty days), and the counts add up to the number of recent events |
| Aggregation.DayMonotone | app/api/website/id/route.ts:201 | a later timestamp never falls on an earlier UTC day |
| Aggregation.HourlyViewsSpec | app/api/website/id/route.ts:217-236 | exactly 24 entries, entry i for hour i, zero-filled, each count the number of events of the last 24 h in that hour, and the counts adding up to the number of those events |
| Aggregation.SnapshotOf | app/api/website/id/route.ts:239-266 | the recent list is the first min(n, 20) events of the newest-first log, and the hourly series has 24 entries (the other parts are the rollups above) |
| Aggregation.CountByReduce | app/api/website/id/route.ts:111-118 | the count reduce over a dictionary equals the specification `CountBy` |
| Aggregation.ComputeSnapshot | app/api/website/id/route.ts:60-266 | the endpoint's computation with dictionary loops yields exactly `SnapshotOf` |
| AnalyticsApi.FindSite | app/api/website/id/route.ts:36-41 | finds a site with the requested id and the caller's user id, None exactly when there is none |
| AnalyticsApi.FetchSpec | app/api/website/id/route.ts:51-58 | the fetch returns exactly the site's events, newest first |
| AnalyticsApi.Get | app/api/website/id/route.ts:5-48 | 401 without a caller, 400 without `websiteId`, 500 on a database failure, 404 without a user row, 404 when the user owns no site with that id; analytics exactly when the caller owns the requested site, computed from that site's events |
| AnalyticsApi.AnalyticsOfOwnSite | app/api/website/id/route.ts:266 | the recent events of a response all belong to the requested site and are at least as new as every event left out |
| Tracking.ResolveIp | app/api/track/route.ts:21-25 | the ip is the first non-empty of x-real-ip, the first trimmed segment of x-forwarded-for, cf-connecting-ip and x-vercel-forwarded-for, and otherwise `127.0.0.1`; it is never empty |
| Tracking.ForwardedClient | app/api/track/route.ts:22 | the x-forwarded-for candidate is the trimmed text before the first comma, absent with the header |
| Tracking.ForwardedClientClean | app/api/track/route.ts:22 | that candidate holds no comma and does not start or end with white space |
| Tracking.GeoFor | app/api/track/route.ts:28-39 | no lookup for `127.0.0.1` or `localhost`; otherwise the service's answer, None when it fails |
| Tracking.GeoField | app/api/track/route.ts:81-84 | a geo column is null when geo data is absent, and the field otherwise, null when it is empty |
| Tracking.Kind | app/api/track/route.ts:17 | an absent or empty `type` means `entry` |
| Tracking.NonZero | app/api/track/route.ts:120 | an active time of 0, or none, becomes null, and any other value is kept |
| Tracking.TimeOr | app/api/track/route.ts:96 | a time given in the body is used, and the server's clock otherwise |
| Tracking.BaseRecord | app/api/track/route.ts:42-90 | the record carries the body's site, domain and url (`""` by default), its referrer, language and five UTM fields (null when empty), the user agent (body before header, null when empty), the resolved ip, the parser's device (`desktop` by default), browser and os (`Unknown` by default) and versions, each geo column as `GeoField` of the lookup (null without geo data), and no entry or exit fields |
| Tracking.EntryRecord | app/api/track/route.ts:92-98 | an entry record has the body's entry time or now, and no exit time or active time |
| Tracking.ExitRecord | app/api/track/route.ts:136-142 | a standalone exit record has type `exit`, url defaulting to `""`, no entry time, and the body's exit and active times |
| Tracking.WithExit | app/api/track/route.ts:114-122 | an exit update sets exitTime and activeTime and leaves every other field, `type` included, as it was |
| Tracking.PageViewStore.Track | app/api/track/route.ts:6-155 | 400 with the store unchanged when `websiteId` or `domain` is missing; an entry adds exactly one record under a fresh id and returns it; an exit with a known id changes only that record's exit fields; any other exit adds one standalone record; other types write nothing |
| Probe.QueryGet | public/analytics.js:15-17 | `URLSearchParams.get`: the value of the first pair with the name, None when there is none |
| Probe.UtmParams | public/analytics.js:14-23 | each UTM field is the parameter's value, null when absent or empty |
| Probe.EntryOf | public/analytics.js:27-37 | the entry payload has the page url, the entry time and the UTM fields; its referrer is `direct` when `document.referrer` is empty, and never empty |
| Probe.PayloadsAreAccepted | public/analytics.js:26-92 | the endpoint reads a probe's entry as a valid entry whose stored referrer is the one sent, and its exit as an exit with the token sent |
| Probe.Boot | public/analytics.js:1-64 | with an attribute missing nothing is sent and nothing is set up; otherwise the entry payload is sent and the timers start at now |
| Probe.Tracker.OnEntryResponse | public/analytics.js:51-53 | the token is stored only when the response carries a truthy `pageViewId` |
| Probe.Tracker.OnVisibility | public/analytics.js:99-105 | hiding adds now − entryTime to the total; showing resets entryTime and keeps the total; with a forward clock the total never decreases |
| Probe.Tracker.SendExit | public/analytics.js:66-96 | adds now − entryTime even while hidden, sends the stored token with the total and now, then removes the token |
| Probe.Tracker.Unload | public/analytics.js:107-108 | the two unload handlers send two exits: the second has no token and counts the stretch since entryTime again |
| Sites.InsertKeepsUnique | app/api/website/route.ts:41-60 | adding a site whose domain its owner does not yet have keeps domains unique per user |
| Sites.SiteRegistry.Post | app/api/website/route.ts:5-62 | 401 without a caller or user row, 400 for an invalid body or a domain the caller already owns, with the table unchanged; otherwise exactly one row with the given fields and the caller's user id is appended and returned; uniqueness per user is kept |
| Sites.SiteRegistry.Get | app/api/website/route.ts:69-94 | 401 without a caller or user row; otherwise exactly the sites whose user id is the caller's |
| Sites.OwnedBy | app/api/website/route.ts:87-91 | the owner filter keeps exactly the sites of that user |
| Dashboard.JsRem60 | components/WebsiteAnalyticsDashboard.tsx:100 | JavaScript's remainder by 60 takes the sign of the dividend and differs from it by a multiple of 60 |
| Dashboard.DurationUnderMinute | components/WebsiteAnalyticsDashboard.tsx:98-102 | for 0 ≤ s < 60 the label is `{s}s` |
| Dashboard.DurationMinutes | components/WebsiteAnalyticsDashboard.tsx:99-101 | for s ≥ 60 the label is `{s div 60}m {s mod 60}s`, with the seconds below 60 |
| Dashboard.DurationRoundTrip | components/WebsiteAnalyticsDashboard.tsx:98-103 | a non-negative duration can be read back from its label |
| Dashboard.FormatTimeAgo | components/WebsiteAnalyticsDashboard.tsx:268-280 | `just now` under a minute, future timestamps included; then minutes 1–59, hours 1–23, and days only once 24 h have passed |
| Dashboard.PageUrlFallback | components/WebsiteAnalyticsDashboard.tsx:264 | the fallback always starts with `/`, and returns a url already starting with `/` unchanged |
| Dashboard.PageUrlFallbackIdempotent | components/WebsiteAnalyticsDashboard.tsx:264 | applying the fallback twice is applying it once |
| Dashboard.FormatPageUrl | components/WebsiteAnalyticsDashboard.tsx:259-266 | the parsed pathname or `/`, and the fallback when parsing fails; never empty |
| Dashboard.BounceRate | components/WebsiteAnalyticsDashboard.tsx:90-92 | 0 without page views; otherwise round(unique / total × 100) |
| Dashboard.BounceRateIsPercentage | components/WebsiteAnalyticsDashboard.tsx:90-92 | for the endpoint's overview the bounce rate lies between 0 and 100 |
| Icons.FirstRule | components/analytics/SourcesTable.tsx:86-98 | the first rule whose test holds, None when none holds |
| Icons.Pick | components/analytics/SourcesTable.tsx:86-98 | an `if … return` chain returns the icon of the first rule that fires, and the fallback when none does |
| Icons.FirstFiringWins | components/analytics/SourcesTable.tsx:88-96 | a rule that fires decides the icon unless an earlier one fires |
| Icons.FallbackIff | components/analytics/SourcesTable.tsx:97 | when no rule carries the fallback icon, the fallback shows exactly when no rule fires |
| Icons.NothingFiresOnEmpty | components/analytics/CountriesMap.tsx:138 | when every substring and equality pattern is non-empty, no rule fires on the empty name |
| SourcesTable.SourceIcon | components/analytics/SourcesTable.tsx:86-98 | 🌐 exactly when none of the listed names occurs in the lower-cased source |
| SourcesTable.SourceIconIgnoresCase | components/analytics/SourcesTable.tsx:87 | the icon does not depend on letter case |
| SourcesTable.GoogleComesFirst | components/analytics/SourcesTable.tsx:88-96 | a source containing google gets 🔍 whatever else it contains, `direct` included |
| SourcesTable.DirectEqualityRedundant | components/analytics/SourcesTable.tsx:94 | the `=== "direct"` half of the direct test never adds a match |
| SourcesTable.ParserInput | components/analytics/SourcesTable.tsx:103 | the parser gets the source itself if it starts with `http`, `https://` + source otherwise |
| SourcesTable.SourceName | components/analytics/SourcesTable.tsx:100-108 | `Direct / None` for `direct` in any case and for `""`; the hostname without its first `www.` when parsing succeeds; the source unchanged when it fails |
| SourcesTable.DirectLabelsShareName | components/analytics/SourcesTable.tsx:101 | both `Direct` and `direct` are shown as `Direct / None` |
| SourcesTable.Rows | components/analytics/SourcesTable.tsx:54 | at most 10 rows, the first ones |
| WebsiteCard.SchemePrefix | components/website/WebsiteCard.tsx:42 | the regex matches word + `://` whenever the text starts with a word followed by `://`, otherwise `//` whenever the text starts with `//`, and otherwise nothing; a match is a prefix ending in `//` |
| WebsiteCard.StripScheme | components/website/WebsiteCard.tsx:42 | the first replacement removes that prefix, and only it |
| WebsiteCard.StripSlash | components/website/WebsiteCard.tsx:42 | the second replacement removes exactly one trailing `/` if present |
| WebsiteCard.DomainNameSplits | components/website/WebsiteCard.tsx:40-46 | the url is the shown domain with at most one scheme prefix before it and at most one slash after it |
| WebsiteCard.OneSchemeOnly | components/website/WebsiteCard.tsx:42 | a doubled `https://` loses only its first copy |
| WebsiteCard.OneSlashOnly | components/website/WebsiteCard.tsx:42 | `x//` becomes `x/` |
| WebsiteCard.PlainDomainUnchanged | components/website/WebsiteCard.tsx:42 | a url with no leading `//` prefix and no trailing slash is shown unchanged |
| WebsiteCard.TimezoneLabel | components/website/WebsiteCard.tsx:114 | the last `/`-separated segment, or the whole string when it has no `/` |
| WebsiteCard.Badge | components/website/WebsiteCard.tsx:123-126 | `Local` if and only if local tracking is enabled, `Cloud` otherwise |
| CountriesMap.Key | components/analytics/CountriesMap.tsx:138 | the lower-cased country, `""` when null or empty |
| CountriesMap.CountryFlag | components/analytics/CountriesMap.tsx:137-150 | 🌍 exactly when no listed name or code matches |
| CountriesMap.MissingCountryIsWorld | components/analytics/CountriesMap.tsx:138 | a null, undefined or empty country gets 🌍 |
| CountriesMap.CountryFlagIgnoresCase | components/analytics/CountriesMap.tsx:138 | the flag does not depend on letter case |
| CountriesMap.NameMatchesAsSubstring | components/analytics/CountriesMap.tsx:139 | any text containing `united states` gets the US flag |
| CountriesMap.CodeMatchesOnlyWhole | components/analytics/CountriesMap.tsx:140 | `IN` gets the Indian flag, and `Finland`, which contains `in`, gets 🌍 |
| CountriesMap.Markers | components/analytics/CountriesMap.tsx:81 | at most 5 markers, the first countries |
| CountriesMap.ListRows | components/analytics/CountriesMap.tsx:106 | at most 10 rows, the first countries |
| CountriesMap.MarkersLeadList | components/analytics/CountriesMap.tsx:81 | the markers are the first rows of the list |
| DevicesTable.DeviceIcon | components/analytics/DevicesTable.tsx:89-106 | 💻 exactly when none of the tab's tests holds on the lower-cased name |
| DevicesTable.DeviceTabIcons | components/analytics/DevicesTable.tsx:92-97 | on the devices tab the icon is one of 🖥️ 📱 📲 💻 |
| DevicesTable.MissingNameIsLaptop | components/analytics/DevicesTable.tsx:90 | a null name gives 💻 on both tabs |
| DevicesTable.FirstTestsWin | components/analytics/DevicesTable.tsx:93 | desktop wins on the devices tab and windows on the systems tab, whatever else the name contains |
| DevicesTable.TabData | components/analytics/DevicesTable.tsx:16 | devices on the devices tab, operating systems otherwise |
| DevicesTable.Rows | components/analytics/DevicesTable.tsx:56 | at most 5 rows, the first ones |
| BrowsersTable.BrowserIcon | components/analytics/BrowsersTable.tsx:56-66 | 🌐 exactly when none of the listed browser names occurs |
| BrowsersTable.MissingBrowserIsGlobe | components/analytics/BrowsersTable.tsx:57 | a null browser gets 🌐 |
| BrowsersTable.ChromeComesFirst | components/analytics/BrowsersTable.tsx:58 | a name containing chrome gets 🟢 whatever else it contains |
| BrowsersTable.BrowserIconIgnoresCase | components/analytics/BrowsersTable.tsx:57 | the icon does not depend on letter case |
| BrowsersTable.Rows | components/analytics/BrowsersTable.tsx:26 | at most 8 rows, the first ones |
| Text.NatToStringRoundTrip | components/WebsiteAnalyticsDashboard.tsx:101 | the decimal rendering of a number reads back as that number |
| Text.TrimSpec | app/api/track/route.ts:22 | `trim` removes only white space, and only at the two ends |
| Text.ReplaceFirst | components/analytics/SourcesTable.tsx:104 | a string pattern passed to `replace` replaces only its first occurrence |

## Left out

- Database and identity provider: Prisma and Clerk are modelled only as the tables held by the classes plus an `Option` of the caller. Database failures (500) are modelled only as the `dbUp` flag of `AnalyticsApi.Get`. The 500 paths of the tracking and registration endpoints are not modelled. Neither is `actions/user.ts`, `lib/prisma.ts`, or any database default other than `serverTimestamp`, `createdAt` and `updatedAt` set to now.
- Record ids are natural numbers from a counter, not cuid strings. `updatedAt` is not changed by the exit update.
- Tracking.PageViewStore.Track: an update that throws for a known id is not modelled. An exit goes to the fallback path only when its id is absent or unknown. An invalid date string in the body, which makes Prisma throw and the endpoint answer 500, is not modelled either.
- External calls: the ip-api request, `UAParser`, `fetch`, `navigator.sendBeacon` and the `URL` constructor appear only as function parameters or as returned payloads. Their internals and their time-outs are not modelled.
- Clock and calendar:
  - `setDate(-7)` is modelled as now − 7 × 86 400 000 ms, and `setHours(-24)` as now − 86 400 000 ms. Daylight-saving changes are ignored.
  - UTC dates are day numbers (ts div 86 400 000). `localeCompare` on ISO date strings is replaced by ascending day order, which is the same order.
  - `getHours()` uses a fixed offset from UTC for the host.
- Probe.Boot: the entry payload and the probe's timer use the same `now`. In the source they are two separate `Date.now()` readings a few statements apart.
- Object key order: dictionary keys are enumerated in first-seen order. JavaScript enumerates integer-like keys (such as an hour) first, in ascending order. Keys that name `Object.prototype` members (for example a url equal to `constructor`) are not modelled.
- Floating point and locale formatting: bar percentages, `toFixed`, `toLocaleString`, `toLocaleDateString`, the `viewsPerVisit` ratio, and the chart geometry are not modelled.
- Dashboard.BounceRate: `Math.round(unique / total * 100)` is computed exactly in integers. Floating-point error at exact halves is not modelled.
- Lower-casing maps only the ASCII letters. `trim` removes the ASCII white space, NBSP, BOM and the line and paragraph separators, but not the other Unicode space separators.
- The query string is taken as already-decoded name/value pairs, so percent-decoding is not modelled.
- Concurrency: each request is one atomic step on the store, so races between an exit update and a dashboard read are not modelled.
- React components, state, effects and layout (dialogs, cards, charts, navigation) are not modelled, and neither are the type-only files `types/analytics.ts` and `types/website.ts`. The latter two give only the shapes of `PageView` and `Site`.
