/** Ordered keyword classification, the shape shared by both industry detectors and the
    website-to-location mapping: rules are tried in order, a rule fires when one of its
    keywords occurs in the text, and the first rule that fires gives the category. */
module Keywords {
  import opened Wrappers
  import opened Text

  datatype Rule = Rule(category: string, keywords: seq<string>)

  /** A regular expression alternation `/k1|k2|.../` tested against `text`. */
  predicate Fires(r: Rule, text: string) {
    exists i :: 0 <= i < |r.keywords| && Contains(text, r.keywords[i])
  }

  /** The index of the first rule at or after `from` that fires. */
  function FirstFiring(rules: seq<Rule>, text: string, from: nat): (r: Option<nat>)
    requires from <= |rules|
    ensures r.Some? ==> from <= r.value < |rules| && Fires(rules[r.value], text)
    ensures r.Some? ==> forall j :: from <= j < r.value ==> !Fires(rules[j], text)
    ensures r.None? ==> forall j :: from <= j < |rules| ==> !Fires(rules[j], text)
    decreases |rules| - from
  {
    if from == |rules| then None
    else if Fires(rules[from], text) then Some(from)
    else FirstFiring(rules, text, from + 1)
  }

  /** The category of the first rule that fires, or `default` when none does. */
  function Classify(rules: seq<Rule>, default: string, text: string): (r: string)
    ensures (exists i :: 0 <= i < |rules| && r == rules[i].category) || r == default
  {
    match FirstFiring(rules, text, 0)
    case Some(i) => rules[i].category
    case None => default
  }

  /** First match wins: the result is the category of rule `i` when rule `i` fires and no earlier
      rule does, and the default when no rule fires. */
  lemma ClassifyFirstMatch(rules: seq<Rule>, default: string, text: string, i: nat)
    ensures i < |rules| && Fires(rules[i], text) && (forall j :: 0 <= j < i ==> !Fires(rules[j], text))
      ==> Classify(rules, default, text) == rules[i].category
    ensures (forall j :: 0 <= j < |rules| ==> !Fires(rules[j], text))
      ==> Classify(rules, default, text) == default
  {
    var r := FirstFiring(rules, text, 0);
    if i < |rules| && Fires(rules[i], text) && (forall j :: 0 <= j < i ==> !Fires(rules[j], text)) {
      assert r.Some?;
      assert r.value == i;
    }
  }

  /** A keyword longer than the text cannot occur in it. */
  lemma TooLongNotContained(s: string, sub: string)
    requires |sub| > |s|
    ensures !Contains(s, sub)
  {
  }
}
