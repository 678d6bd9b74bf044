/**
  Keyword tables: the coordinator reads a query by testing, in a fixed order,
  whether the lower-cased query contains certain words. A table lists those
  tests in priority order; it is the reference against which the if-chains of
  the coordinator are checked.
*/
module Keywords {
  import opened Optional
  import opened Strings

  /** One row of a keyword table: it fires on a text that contains every one
      of its keywords, and then stands for `tag`. */
  datatype Rule<T> = Rule(keywords: seq<string>, tag: T)

  /** Every keyword from position `j` on occurs in `q`. */
  predicate OccurFrom(q: string, keys: seq<string>, j: nat)
    decreases |keys| - j
  {
    j >= |keys| || (Contains(q, keys[j]) && OccurFrom(q, keys, j + 1))
  }

  predicate Fires<T>(rule: Rule<T>, q: string)
  {
    OccurFrom(q, rule.keywords, 0)
  }

  /** A one-keyword rule fires exactly when its keyword occurs. */
  lemma FiresOne<T>(q: string, a: string, t: T)
    ensures Fires(Rule([a], t), q) <==> Contains(q, a)
  {
    assert OccurFrom(q, [a], 1);
  }

  /** A two-keyword rule fires exactly when both keywords occur. */
  lemma FiresTwo<T>(q: string, a: string, b: string, t: T)
    ensures Fires(Rule([a, b], t), q) <==> Contains(q, a) && Contains(q, b)
  {
    assert OccurFrom(q, [a, b], 2);
    assert OccurFrom(q, [a, b], 1) <==> Contains(q, b);
  }

  /** The tag of the first rule, from position `i` on, that fires on `q`. */
  function FirstFrom<T>(rules: seq<Rule<T>>, q: string, i: nat): Option<T>
    requires i <= |rules|
    decreases |rules| - i
  {
    if i == |rules| then None
    else if Fires(rules[i], q) then Some(rules[i].tag)
    else FirstFrom(rules, q, i + 1)
  }

  /** `FirstFrom` finds nothing exactly when no rule fires, and otherwise the
      tag of a rule that fires with no firing rule before it. */
  lemma {:induction false} FirstFromSpec<T>(rules: seq<Rule<T>>, q: string, i: nat)
    requires i <= |rules|
    decreases |rules| - i
    ensures FirstFrom(rules, q, i) == None <==> forall j :: i <= j < |rules| ==> !Fires(rules[j], q)
    ensures FirstFrom(rules, q, i).Some? ==>
      exists j :: i <= j < |rules| && Fires(rules[j], q) && rules[j].tag == FirstFrom(rules, q, i).value
                  && forall l :: i <= l < j ==> !Fires(rules[l], q)
  {
    if i < |rules| && !Fires(rules[i], q) {
      FirstFromSpec(rules, q, i + 1);
    }
  }

  /** The tag of the first rule of the table that fires on `q`. */
  function First<T>(rules: seq<Rule<T>>, q: string): Option<T>
  {
    FirstFrom(rules, q, 0)
  }

  /** The tags of all rules, from position `i` on, that fire on `q`, in table order. */
  function AllFrom<T>(rules: seq<Rule<T>>, q: string, i: nat): seq<T>
    requires i <= |rules|
    decreases |rules| - i
  {
    if i == |rules| then []
    else (if Fires(rules[i], q) then [rules[i].tag] else []) + AllFrom(rules, q, i + 1)
  }

  /** The tags of all rules of the table that fire on `q`. */
  function All<T>(rules: seq<Rule<T>>, q: string): seq<T>
  {
    AllFrom(rules, q, 0)
  }
}
