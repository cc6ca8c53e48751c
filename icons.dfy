/** The icon and flag pickers of the analytics tables are ordered chains of
    `if (test) return icon;` over a lower-cased name, ending in a fallback
    icon. Here a chain is a list of rules; each rule has the tests joined by
    `||` in its `if` and the icon it returns. */
module Icons {
  import opened Common
  import opened Text

  datatype Test =
    | Has(sub: string)    // name.includes(sub)
    | Is(word: string)    // name === word

  datatype Rule = Rule(tests: seq<Test>, icon: string)

  predicate Passes(t: Test, s: string) {
    match t
    case Has(p) => Contains(s, p)
    case Is(w) => s == w
  }

  /** The rule's condition holds for s. */
  predicate Fires(r: Rule, s: string) {
    exists k :: 0 <= k < |r.tests| && Passes(r.tests[k], s)
  }

  /** The first rule whose condition holds. */
  function FirstRule(rules: seq<Rule>, s: string): (i: Option<nat>)
    ensures i.Some? ==> i.value < |rules| && Fires(rules[i.value], s) &&
                        forall j :: 0 <= j < i.value ==> !Fires(rules[j], s)
    ensures i.None? ==> forall j :: 0 <= j < |rules| ==> !Fires(rules[j], s)
  {
    if |rules| == 0 then None
    else if Fires(rules[0], s) then Some(0)
    else match FirstRule(rules[1..], s)
      case None => None
      case Some(k) =>
        assert forall j :: 1 <= j < k + 1 ==> rules[j] == rules[1..][j - 1];
        Some(k + 1)
  }

  /** Running the chain: the icon of the first rule that fires, the fallback
      when none does. */
  function Pick(rules: seq<Rule>, s: string, fallback: string): (icon: string)
    ensures (forall j :: 0 <= j < |rules| ==> !Fires(rules[j], s)) ==> icon == fallback
    ensures forall i ::
              (0 <= i < |rules| && Fires(rules[i], s) && forall j :: 0 <= j < i ==> !Fires(rules[j], s))
              ==> icon == rules[i].icon
  {
    match FirstRule(rules, s)
    case None => fallback
    case Some(i) => rules[i].icon
  }

  /** The first rule wins: a rule that fires decides the icon unless an
      earlier one fires too. */
  lemma FirstFiringWins(rules: seq<Rule>, s: string, fallback: string, i: nat)
    requires i < |rules| && Fires(rules[i], s)
    ensures exists k :: 0 <= k <= i && Fires(rules[k], s) && Pick(rules, s, fallback) == rules[k].icon
  {
    var f := FirstRule(rules, s);
    assert f.Some? && f.value <= i;
  }

  /** The result is always one of the chain's icons or the fallback. */
  lemma PickIsListed(rules: seq<Rule>, s: string, fallback: string)
    ensures Pick(rules, s, fallback) == fallback ||
            exists i :: 0 <= i < |rules| && Pick(rules, s, fallback) == rules[i].icon
  {
  }

  /** When no rule returns the fallback icon, the fallback shows exactly when
      no rule fires. */
  lemma FallbackIff(rules: seq<Rule>, s: string, fallback: string)
    requires forall i :: 0 <= i < |rules| ==> rules[i].icon != fallback
    ensures Pick(rules, s, fallback) == fallback <==> forall j :: 0 <= j < |rules| ==> !Fires(rules[j], s)
  {
  }

  /** When no test has an empty pattern, no rule fires on the empty name. */
  lemma NothingFiresOnEmpty(rules: seq<Rule>)
    requires forall i, k :: 0 <= i < |rules| && 0 <= k < |rules[i].tests| ==>
               match rules[i].tests[k]
               case Has(p) => p != ""
               case Is(w) => w != ""
    ensures forall j :: 0 <= j < |rules| ==> !Fires(rules[j], "")
  {
    forall j, k | 0 <= j < |rules| && 0 <= k < |rules[j].tests| ensures !Passes(rules[j].tests[k], "") {
      match rules[j].tests[k]
      case Has(p) => assert !Contains("", p);
      case Is(w) =>
    }
  }

  /** Matching is on the lower-cased name, so the case of the input does not
      matter. */
  lemma PickIgnoresCase(rules: seq<Rule>, s: string, fallback: string)
    ensures Pick(rules, Lower(Lower(s)), fallback) == Pick(rules, Lower(s), fallback)
  {
    LowerIdempotent(s);
  }
}
