/** First-match keyword rules: an ordered table of labels with keyword lists, where the
    first rule with a keyword occurring in the (already lower-cased) text wins. The JavaScript
    section detector, the query-intent chain and the document-type chain of the Python
    analyser all follow this scheme. */
module KeywordRules {
  import opened Text

  /** The label of the first rule with a keyword in `normalized`, or `fallback`. */
  function FirstMatch<L>(rules: seq<(L, seq<string>)>, normalized: string, fallback: L): L {
    if rules == [] then fallback
    else if ContainsAny(normalized, rules[0].1) then rules[0].0
    else FirstMatch(rules[1..], normalized, fallback)
  }

  /** Some rule fires for `normalized`. */
  predicate AnyFires<L>(rules: seq<(L, seq<string>)>, normalized: string) {
    exists i :: 0 <= i < |rules| && ContainsAny(normalized, rules[i].1)
  }

  /** Rule `i` fires and no earlier rule does. */
  predicate FirstFiring<L>(rules: seq<(L, seq<string>)>, normalized: string, i: nat)
    requires i < |rules|
  {
    ContainsAny(normalized, rules[i].1) && forall j :: 0 <= j < i ==> !ContainsAny(normalized, rules[j].1)
  }

  /** With no rule labelled `fallback`: the fallback is answered exactly when no rule fires,
      and otherwise the answer is the label of the first rule that fires. */
  lemma {:induction false} FirstMatchSpec<L>(rules: seq<(L, seq<string>)>, normalized: string, fallback: L)
    requires forall i :: 0 <= i < |rules| ==> rules[i].0 != fallback
    ensures FirstMatch(rules, normalized, fallback) == fallback <==> !AnyFires(rules, normalized)
    ensures AnyFires(rules, normalized) ==>
      exists i :: 0 <= i < |rules| && FirstFiring(rules, normalized, i) && FirstMatch(rules, normalized, fallback) == rules[i].0
  {
    if rules != [] {
      var rest := rules[1..];
      FirstMatchSpec(rest, normalized, fallback);
      if !ContainsAny(normalized, rules[0].1) {
        assert forall i :: 1 <= i < |rules| ==> rules[i] == rest[i - 1];
        if AnyFires(rules, normalized) {
          var i :| 0 <= i < |rules| && ContainsAny(normalized, rules[i].1);
          assert AnyFires(rest, normalized) by { assert ContainsAny(normalized, rest[i - 1].1); }
          var k :| 0 <= k < |rest| && FirstFiring(rest, normalized, k) && FirstMatch(rest, normalized, fallback) == rest[k].0;
          assert FirstFiring(rules, normalized, k + 1);
        } else {
          assert !AnyFires(rest, normalized) by {
            forall k | 0 <= k < |rest| ensures !ContainsAny(normalized, rest[k].1) {
              assert rest[k] == rules[k + 1];
            }
          }
        }
      } else {
        assert FirstFiring(rules, normalized, 0);
      }
    }
  }

  /** The answer is the fallback or one of the labels of the table. */
  lemma {:induction false} FirstMatchLabel<L>(rules: seq<(L, seq<string>)>, normalized: string, fallback: L)
    ensures var r := FirstMatch(rules, normalized, fallback);
      r == fallback || exists i :: 0 <= i < |rules| && rules[i].0 == r
  {
    if rules != [] && !ContainsAny(normalized, rules[0].1) {
      FirstMatchLabel(rules[1..], normalized, fallback);
      var r := FirstMatch(rules, normalized, fallback);
      if r != fallback {
        var i :| 0 <= i < |rules[1..]| && rules[1..][i].0 == r;
        assert rules[i + 1].0 == r;
      }
    }
  }
}
