/** Ordered first-match selection. The templates pick a block of text with an
    `if (x.includes(a)) … else if (x.includes(b)) …` chain; a rule table read top
    to bottom is the reference definition those chains are proved against. */
module Selection {
  import opened Strings

  /** A rule fires when the tested string contains any one of its patterns. */
  datatype Rule<T> = Rule(patterns: seq<string>, outcome: T)

  predicate Fires<T>(rule: Rule<T>, s: string)
  {
    exists p :: p in rule.patterns && Contains(s, p)
  }

  /** The outcome of the first rule at or after position `k` that fires, else `fallback`. */
  function ChooseFrom<T>(rules: seq<Rule<T>>, k: nat, s: string, fallback: T): T
    decreases |rules| - k
  {
    if k >= |rules| then fallback
    else if Fires(rules[k], s) then rules[k].outcome
    else ChooseFrom(rules, k + 1, s, fallback)
  }

  function Choose<T>(rules: seq<Rule<T>>, s: string, fallback: T): T
  {
    ChooseFrom(rules, 0, s, fallback)
  }

  /** Index of the first rule at or after `k` that fires; `|rules|` when none does. */
  function FirstFiringFrom<T>(rules: seq<Rule<T>>, k: nat, s: string): (i: nat)
    requires k <= |rules|
    ensures k <= i <= |rules|
    ensures i < |rules| ==> Fires(rules[i], s)
    ensures forall j :: k <= j < i ==> !Fires(rules[j], s)
    decreases |rules| - k
  {
    if k == |rules| then k
    else if Fires(rules[k], s) then k
    else FirstFiringFrom(rules, k + 1, s)
  }

  function FirstFiring<T>(rules: seq<Rule<T>>, s: string): (i: nat)
    ensures i <= |rules|
    ensures i < |rules| ==> Fires(rules[i], s)
    ensures forall j :: 0 <= j < i ==> !Fires(rules[j], s)
  {
    FirstFiringFrom(rules, 0, s)
  }

  /** Earlier rules win: the chosen outcome is that of the first rule that fires, and the
      fallback exactly when no rule fires. */
  lemma {:induction false} ChooseFromIsFirstFiring<T>(rules: seq<Rule<T>>, k: nat, s: string, fallback: T)
    requires k <= |rules|
    ensures ChooseFrom(rules, k, s, fallback)
         == if FirstFiringFrom(rules, k, s) < |rules| then rules[FirstFiringFrom(rules, k, s)].outcome else fallback
    decreases |rules| - k
  {
    if k < |rules| && !Fires(rules[k], s) {
      ChooseFromIsFirstFiring(rules, k + 1, s, fallback);
    }
  }

  lemma ChooseIsFirstFiring<T>(rules: seq<Rule<T>>, s: string, fallback: T)
    ensures Choose(rules, s, fallback)
         == if FirstFiring(rules, s) < |rules| then rules[FirstFiring(rules, s)].outcome else fallback
    ensures FirstFiring(rules, s) == |rules| <==> forall j :: 0 <= j < |rules| ==> !Fires(rules[j], s)
  {
    ChooseFromIsFirstFiring(rules, 0, s, fallback);
  }
}
