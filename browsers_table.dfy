/** The browsers panel (components/analytics/BrowsersTable.tsx): the icon of
    a browser and the number of rows shown. */
module BrowsersTable {
  import opened Common
  import opened Text
  import opened Tallies
  import opened Icons

  const Globe: string := "\U{1F310}"
  const ChromeIcon: string := "\U{1F7E2}"

  /** The chain of `getBrowserIcon`, in source order. */
  const BrowserRules: seq<Rule> := [
    Rule([Has("chrome")], ChromeIcon),
    Rule([Has("safari")], "\U{1F535}"),
    Rule([Has("firefox")], "\U{1F7E0}"),
    Rule([Has("edge")], "\U{1F537}"),
    Rule([Has("opera")], "\U{1F534}"),
    Rule([Has("brave")], "\U{1F981}"),
    Rule([Has("samsung")], "\U{1F49C}")
  ]

  /** `getBrowserIcon(browser)`, matching on `browser?.toLowerCase() || ""`. */
  function BrowserIcon(browser: Option<string>): (icon: string)
    ensures icon == Globe <==>
              forall j :: 0 <= j < |BrowserRules| ==> !Fires(BrowserRules[j], Lower(OrElse(browser, "")))
  {
    FallbackIff(BrowserRules, Lower(OrElse(browser, "")), Globe);
    Pick(BrowserRules, Lower(OrElse(browser, "")), Globe)
  }

  /** A missing browser shows the globe. */
  lemma MissingBrowserIsGlobe()
    ensures BrowserIcon(None) == Globe
  {
    NothingFiresOnEmpty(BrowserRules);
  }

  /** chrome is tested first: a name containing it gets the chrome icon
      whatever else it contains. */
  lemma ChromeComesFirst(name: string)
    requires name != "" && Contains(Lower(name), "chrome")
    ensures BrowserIcon(Some(name)) == ChromeIcon
  {
    var b := Lower(OrElse(Some(name), ""));
    assert Passes(BrowserRules[0].tests[0], b);
    FirstFiringWins(BrowserRules, b, Globe, 0);
  }

  /** The icon does not depend on letter case. */
  lemma BrowserIconIgnoresCase(name: string)
    ensures BrowserIcon(Some(Lower(name))) == BrowserIcon(Some(name))
  {
    LowerIdempotent(name);
  }

  /** `browsers.slice(0, 8)`. */
  function Rows(browsers: seq<Tally<string>>): (r: seq<Tally<string>>)
    ensures |r| == Min(|browsers|, 8) && r == browsers[..|r|]
  {
    Take(browsers, 8)
  }
}
