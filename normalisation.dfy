/**
  The coordinator's own list helpers: `_parse_list`, which reads a
  certification cell as a list of clean names, and `_has_all`, which asks
  whether every required name is among the held ones once both are stripped
  and lower-cased.
*/
module Normalisation {
  import opened Strings
  import opened Roster
  import ConflictDetection

  /** The coordinator's `_parse_list`: nothing for an empty cell, and the
      stripped non-empty items of a list or of a comma-separated text. */
  function ParseList(v: ListValue): (r: seq<string>)
    ensures forall i :: 0 <= i < |r| ==> r[i] != [] && IsTrimmed(r[i])
  {
    if IsFalsy(v) then []
    else match v
      case Items(xs) => TrimmedNonEmpty(xs)
      case Text(s) => SplitList(s)
  }

  /** Reading a parsed list again changes nothing. */
  lemma ParseListIdempotent(v: ListValue)
    ensures ParseList(Items(ParseList(v))) == ParseList(v)
  {
    TrimmedNonEmptyKeeps(ParseList(v));
  }

  /** Clean, comma-free names written as a comma-separated cell read back
      as the same list. */
  lemma ParseListJoin(items: seq<string>)
    requires forall i :: 0 <= i < |items| ==> items[i] != [] && IsTrimmed(items[i]) && ',' !in items[i]
    ensures ParseList(Text(Join(items))) == items
  {
    SplitListJoin(items);
  }

  /** The coordinator and the validator read a text cell, and a list cell of
      clean names, the same way; they differ only on list cells holding
      padded or empty items, which the validator keeps as they are. */
  lemma ParseListAgreesWithValidator(v: ListValue)
    requires v.Items? ==> forall i :: 0 <= i < |v.items| ==> v.items[i] != [] && IsTrimmed(v.items[i])
    ensures ParseList(v) == ConflictDetection.ParseList(v)
  {
    if v.Items? {
      TrimmedNonEmptyKeeps(v.items);
    }
  }

  /** The normal forms of the held names. */
  function NormalSet(actual: seq<string>): set<string>
  {
    set a | a in actual :: Normal(a)
  }

  /** Every required name, stripped and lower-cased, is among the held
      names, stripped and lower-cased. */
  predicate CoversAll(required: seq<string>, actual: seq<string>)
  {
    forall i :: 0 <= i < |required| ==> Normal(required[i]) in NormalSet(actual)
  }

  /** `_has_all`: scans the required names and stops at the first one not
      held. */
  method HasAll(required: seq<string>, actual: seq<string>) returns (covered: bool)
    ensures covered <==> CoversAll(required, actual)
  {
    var actualLower := set a | a in actual :: Normal(a);
    for i := 0 to |required|
      invariant forall j :: 0 <= j < i ==> Normal(required[j]) in actualLower
    {
      if Normal(required[i]) !in actualLower {
        return false;
      }
    }
    return true;
  }

  /** Holding more never hurts, and every list covers itself. */
  lemma CoversAllMonotone(required: seq<string>, actual: seq<string>, more: seq<string>)
    ensures CoversAll(required, actual) ==> CoversAll(required, actual + more)
    ensures CoversAll(actual, actual)
  {
    assert forall a :: a in actual ==> a in actual + more;
    assert forall i :: 0 <= i < |actual| ==> actual[i] in actual;
  }

  /** Letter case and padding of the held names do not matter. */
  lemma CoversAllIgnoresCase(required: seq<string>, actual: seq<string>)
    ensures CoversAll(required, actual) <==> CoversAll(required, ConflictDetection.LowerAll(actual))
  {
    var lowered := ConflictDetection.LowerAll(actual);
    forall x | x in NormalSet(lowered)
      ensures x in NormalSet(actual)
    {
      var b :| b in lowered && Normal(b) == x;
      var i :| 0 <= i < |lowered| && lowered[i] == b;
      LowerTrimCommute(actual[i]);
    }
    forall x | x in NormalSet(actual)
      ensures x in NormalSet(lowered)
    {
      var a :| a in actual && Normal(a) == x;
      var i :| 0 <= i < |actual| && actual[i] == a;
      assert lowered[i] in lowered;
      LowerTrimCommute(a);
    }
    assert NormalSet(actual) == NormalSet(lowered);
  }
}
