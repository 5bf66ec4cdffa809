/** The field rules the resolvers check before touching a table: every rule is
    evaluated and each failed one contributes one entry, in rule order. */
module Validation {
  import opened Errors

  /** One field check of a handler: whether it holds, and the message pushed
      onto `errors` when it does not. */
  datatype Rule = Rule(holds: bool, message: string)

  /** `validator.isEmpty(s)`. */
  predicate IsEmpty(s: string)
  {
    |s| == 0
  }

  /** `validator.isLength(s, { min })`, counting sequence elements. */
  predicate IsLength(s: string, min: nat)
  {
    |s| >= min
  }

  /** The shape every length rule of the resolvers has:
      `!(isEmpty(s) || !isLength(s, { min }))`. */
  predicate LongEnough(s: string, min: nat)
  {
    !IsEmpty(s) && IsLength(s, min)
  }

  /** Every rule holds. */
  predicate Passes(rules: seq<Rule>)
  {
    forall i :: 0 <= i < |rules| ==> rules[i].holds
  }

  /** The `errors` list built by a sequence of `if (!rule) errors.push(...)`. */
  function Violations(rules: seq<Rule>): (vs: seq<Violation>)
    ensures |vs| <= |rules|
    ensures vs == [] <==> Passes(rules)
    decreases |rules|
  {
    if rules == [] then []
    else (if rules[0].holds then [] else [Violation(rules[0].message)]) + Violations(rules[1..])
  }

  /** Every entry is the message of a rule that failed. */
  lemma {:induction false} EntriesAreFailedRules(rules: seq<Rule>)
    ensures forall v :: v in Violations(rules) ==>
      exists i :: 0 <= i < |rules| && !rules[i].holds && v == Violation(rules[i].message)
    decreases |rules|
  {
    if rules != [] {
      EntriesAreFailedRules(rules[1..]);
      forall v | v in Violations(rules)
        ensures exists i :: 0 <= i < |rules| && !rules[i].holds && v == Violation(rules[i].message)
      {
        if v !in Violations(rules[1..]) {
          assert !rules[0].holds && v == Violation(rules[0].message);
        } else {
          var k :| 0 <= k < |rules[1..]| && !rules[1..][k].holds && v == Violation(rules[1..][k].message);
          assert rules[k + 1] == rules[1..][k];
        }
      }
    }
  }

  /** No short-circuit: the entries of later rules do not depend on whether
      earlier rules failed. */
  lemma {:induction false} ViolationsAppend(a: seq<Rule>, b: seq<Rule>)
    ensures Violations(a + b) == Violations(a) + Violations(b)
    decreases |a|
  {
    if a != [] {
      assert (a + b)[0] == a[0];
      assert (a + b)[1..] == a[1..] + b;
      ViolationsAppend(a[1..], b);
      var head := if a[0].holds then [] else [Violation(a[0].message)];
      assert Violations(a + b) == head + (Violations(a[1..]) + Violations(b));
      assert Violations(a) == head + Violations(a[1..]);
    } else {
      assert a + b == b;
    }
  }

  /** When every rule fails there is exactly one entry per rule, in rule order. */
  lemma {:induction false} AllRulesFail(rules: seq<Rule>)
    requires forall i :: 0 <= i < |rules| ==> !rules[i].holds
    ensures |Violations(rules)| == |rules|
    ensures forall i :: 0 <= i < |rules| ==> Violations(rules)[i] == Violation(rules[i].message)
    decreases |rules|
  {
    if rules != [] {
      AllRulesFail(rules[1..]);
    }
  }

  /** A single rule contributes nothing or its own message. */
  lemma OneRule(r: Rule)
    ensures Violations([r]) == if r.holds then [] else [Violation(r.message)]
  {
  }
}
