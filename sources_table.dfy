/** The traffic-sources table (components/analytics/SourcesTable.tsx): the
    icon of a source, its display name, and the number of rows shown. */
module SourcesTable {
  import opened Common
  import opened Text
  import opened Tallies
  import opened Icons

  const Globe: string := "\U{1F310}"

  /** The chain of `getSourceIcon`, in source order. */
  const SourceRules: seq<Rule> := [
    Rule([Has("google")], "\U{1F50D}"),
    Rule([Has("facebook")], "\U{1F4D8}"),
    Rule([Has("twitter"), Has("x.com")], "\U{1F426}"),
    Rule([Has("github")], "\U{1F419}"),
    Rule([Has("linkedin")], "\U{1F4BC}"),
    Rule([Has("reddit")], "\U{1F916}"),
    Rule([Has("direct"), Is("direct")], "\U{1F517}"),
    Rule([Has("bing")], "\U{1F50E}"),
    Rule([Has("duckduckgo")], "\U{1F986}")
  ]

  /** `getSourceIcon(source)`. */
  function SourceIcon(source: string): (icon: string)
    ensures icon == Globe <==> forall j :: 0 <= j < |SourceRules| ==> !Fires(SourceRules[j], Lower(source))
  {
    FallbackIff(SourceRules, Lower(source), Globe);
    Pick(SourceRules, Lower(source), Globe)
  }

  /** The icon does not depend on letter case. */
  lemma SourceIconIgnoresCase(source: string)
    ensures SourceIcon(Lower(source)) == SourceIcon(source)
  {
    LowerIdempotent(source);
  }

  /** google is checked first: a source naming google gets its icon whatever
      else it names (`direct` included). */
  lemma GoogleComesFirst(source: string)
    requires Contains(Lower(source), "google")
    ensures SourceIcon(source) == "\U{1F50D}"
  {
    assert Passes(SourceRules[0].tests[0], Lower(source));
    FirstFiringWins(SourceRules, Lower(source), Globe, 0);
  }

  /** The `s === "direct"` half of the direct test adds nothing: a name equal
      to `direct` also contains it. */
  lemma DirectEqualityRedundant(s: string)
    ensures Passes(Is("direct"), s) ==> Passes(Has("direct"), s)
  {
    if s == "direct" {
      assert OccursAt(s, "direct", 0);
    }
  }

  /** The string handed to the URL parser: the source itself when it starts
      with `http`, `https://` in front of it otherwise. */
  function ParserInput(source: string): (u: string)
    ensures StartsWith(u, "http")
    ensures StartsWith(source, "http") ==> u == source
    ensures !StartsWith(source, "http") ==> u == "https://" + source
  {
    if StartsWith(source, "http") then source
    else
      assert ("https://" + source)[..4] == "http";
      "https://" + source
  }

  predicate IsDirect(source: string) {
    Lower(source) == "direct" || source == ""
  }

  /** `formatSourceName(source)`. `hostname(u)` is the URL parser: the host of
      u, None where the constructor throws. */
  function SourceName(source: string, hostname: string -> Option<string>): (r: string)
    ensures IsDirect(source) ==> r == "Direct / None"
    ensures !IsDirect(source) && hostname(ParserInput(source)).None? ==> r == source
    ensures !IsDirect(source) && hostname(ParserInput(source)).Some? ==>
              r == ReplaceFirst(hostname(ParserInput(source)).value, "www.", "")
  {
    if IsDirect(source) then "Direct / None"
    else match hostname(ParserInput(source))
      case None => source
      case Some(h) => ReplaceFirst(h, "www.", "")
  }

  /** The label the endpoint gives a missing referrer and the label the
      probe sends for an empty one are named alike, whatever the parser. */
  lemma DirectLabelsShareName(hostname: string -> Option<string>)
    ensures SourceName("Direct", hostname) == "Direct / None"
    ensures SourceName("direct", hostname) == "Direct / None"
  {
    assert Lower("Direct") == "direct";
    assert Lower("direct") == "direct";
  }

  /** `sources.slice(0, 10)`. */
  function Rows(sources: seq<Tally<string>>): (r: seq<Tally<string>>)
    ensures |r| == Min(|sources|, 10)
    ensures r == sources[..|r|]
  {
    Take(sources, 10)
  }
}
