/** The countries panel (components/analytics/CountriesMap.tsx): the flag of
    a country and the number of markers and rows shown. */
module CountriesMap {
  import opened Common
  import opened Text
  import opened Tallies
  import opened Icons

  const World: string := "\U{1F30D}"
  const UsFlag: string := "\U{1F1FA}\U{1F1F8}"
  const InFlag: string := "\U{1F1EE}\U{1F1F3}"

  /** The chain of `getCountryFlag`: full names by substring, codes by equality. */
  const FlagRules: seq<Rule> := [
    Rule([Has("united states"), Is("us"), Is("usa")], UsFlag),
    Rule([Has("india"), Is("in")], InFlag),
    Rule([Has("united kingdom"), Is("uk"), Is("gb")], "\U{1F1EC}\U{1F1E7}"),
    Rule([Has("germany"), Is("de")], "\U{1F1E9}\U{1F1EA}"),
    Rule([Has("france"), Is("fr")], "\U{1F1EB}\U{1F1F7}"),
    Rule([Has("canada"), Is("ca")], "\U{1F1E8}\U{1F1E6}"),
    Rule([Has("australia"), Is("au")], "\U{1F1E6}\U{1F1FA}"),
    Rule([Has("japan"), Is("jp")], "\U{1F1EF}\U{1F1F5}"),
    Rule([Has("china"), Is("cn")], "\U{1F1E8}\U{1F1F3}"),
    Rule([Has("brazil"), Is("br")], "\U{1F1E7}\U{1F1F7}")
  ]

  /** `country?.toLowerCase() || ""`. */
  function Key(country: Option<string>): (c: string)
    ensures !Truthy(country) ==> c == ""
    ensures Truthy(country) ==> c == Lower(country.value) && c != ""
  {
    Lower(OrElse(country, ""))
  }

  /** `getCountryFlag(country)`. */
  function CountryFlag(country: Option<string>): (flag: string)
    ensures flag == World <==> forall j :: 0 <= j < |FlagRules| ==> !Fires(FlagRules[j], Key(country))
  {
    FallbackIff(FlagRules, Key(country), World);
    Pick(FlagRules, Key(country), World)
  }

  /** No country, or an empty one, shows the globe. */
  lemma MissingCountryIsWorld(country: Option<string>)
    requires !Truthy(country)
    ensures CountryFlag(country) == World
  {
    NothingFiresOnEmpty(FlagRules);
  }

  /** The flag does not depend on letter case. */
  lemma CountryFlagIgnoresCase(s: string)
    ensures CountryFlag(Some(Lower(s))) == CountryFlag(Some(s))
  {
    LowerIdempotent(s);
  }

  /** A full name is found anywhere in the text: any country text naming the
      United States gets its flag. */
  lemma NameMatchesAsSubstring(s: string)
    requires Contains(Lower(s), "united states")
    ensures CountryFlag(Some(s)) == UsFlag
  {
    assert Key(Some(s)) == Lower(s);
    assert Passes(FlagRules[0].tests[0], Lower(s));
    FirstFiringWins(FlagRules, Lower(s), World, 0);
  }

  /** A code only counts when it is the whole text: `in` inside `Finland`
      does not make it India, yet the code `IN` alone does. */
  lemma CodeMatchesOnlyWhole()
    ensures CountryFlag(Some("IN")) == InFlag
    ensures CountryFlag(Some("Finland")) == World
  {
    assert Key(Some("IN")) == "in";
    assert !Fires(FlagRules[0], "in") by {
      assert !Contains("in", "united states");
    }
    assert Fires(FlagRules[1], "in") by {
      assert Passes(FlagRules[1].tests[1], "in");
    }
    var f := "finland";
    assert Key(Some("Finland")) == f;
    forall j | 0 <= j < |FlagRules| ensures !Fires(FlagRules[j], f) {
      forall k | 0 <= k < |FlagRules[j].tests| ensures !Passes(FlagRules[j].tests[k], f) {
        match FlagRules[j].tests[k]
        case Is(w) => assert |w| <= 3;
        case Has(p) => NotContained(f, p);
      }
    }
  }

  /** "finland" contains none of the names the chain looks for. */
  lemma NotContained(f: string, p: string)
    requires f == "finland"
    requires p in ["united states", "india", "united kingdom", "germany", "france", "canada",
                   "australia", "japan", "china", "brazil"]
    ensures !Contains(f, p)
  {
    forall i | 0 <= i <= |f| - |p| ensures !OccursAt(f, p, i) {
      assert f[i..i + |p|][0] != p[0] || f[i..i + |p|][1] != p[1] || f[i..i + |p|][2] != p[2];
    }
  }

  /** `countries.slice(0, 5)` on the map, `countries.slice(0, 10)` in the list. */
  function Markers(countries: seq<Tally<string>>): (r: seq<Tally<string>>)
    ensures |r| == Min(|countries|, 5) && r == countries[..|r|]
  {
    Take(countries, 5)
  }

  function ListRows(countries: seq<Tally<string>>): (r: seq<Tally<string>>)
    ensures |r| == Min(|countries|, 10) && r == countries[..|r|]
  {
    Take(countries, 10)
  }

  /** The map marks the first countries of the list. */
  lemma MarkersLeadList(countries: seq<Tally<string>>)
    ensures Markers(countries) == ListRows(countries)[..|Markers(countries)|]
  {
  }
}
