/**
  String helpers standing in for the Python built-ins the coordinator relies on:
  `str.lower()` (ASCII letters only), `str.strip()`, `in` on strings (substring
  test) and `str.split(",")`.
*/
module Strings {

  /** Lower-cases one ASCII letter and leaves every other character alone. */
  function LowerChar(c: char): char
  {
    if 'A' <= c <= 'Z' then (c as int + 32) as char else c
  }

  /** `s.lower()`, for ASCII upper-case letters. */
  function Lower(s: string): string
  {
    seq(|s|, i requires 0 <= i < |s| => LowerChar(s[i]))
  }

  /** Lower-casing works character by character, so it distributes over
      concatenation. */
  lemma LowerAppend(a: string, b: string)
    ensures Lower(a + b) == Lower(a) + Lower(b)
  {
  }

  /** Lower-casing twice is lower-casing once. */
  lemma LowerIdempotent(s: string)
    ensures Lower(Lower(s)) == Lower(s)
  {
    assert forall i :: 0 <= i < |s| ==> LowerChar(LowerChar(s[i])) == LowerChar(s[i]);
  }

  /** The part of `str.strip()`'s whitespace modelled here: ASCII
      whitespace, the separators U+001C..U+001F, NEL and NO-BREAK SPACE.
      The other Unicode space separators are left out. */
  predicate IsSpace(c: char)
  {
    ('\t' <= c <= '\r') || ((28 as char) <= c <= ' ') || c == (0x85 as char) || c == (0xA0 as char)
  }

  /** `s.lstrip()`. */
  function TrimStart(s: string): string
  {
    if s != [] && IsSpace(s[0]) then TrimStart(s[1..]) else s
  }

  /** `s.rstrip()`. */
  function TrimEnd(s: string): string
  {
    if s != [] && IsSpace(s[|s| - 1]) then TrimEnd(s[..|s| - 1]) else s
  }

  /** `s.strip()`. */
  function Trim(s: string): string
  {
    TrimEnd(TrimStart(s))
  }

  /** A string is trimmed when neither end is whitespace. */
  predicate IsTrimmed(s: string)
  {
    s == [] || (!IsSpace(s[0]) && !IsSpace(s[|s| - 1]))
  }

  /** `lstrip()` cuts a prefix off and leaves no whitespace in front. */
  lemma {:induction false} TrimStartShape(s: string)
    ensures |TrimStart(s)| <= |s| && TrimStart(s) == s[|s| - |TrimStart(s)|..]
    ensures TrimStart(s) == [] || !IsSpace(TrimStart(s)[0])
  {
    if s != [] && IsSpace(s[0]) {
      TrimStartShape(s[1..]);
    }
  }

  /** `rstrip()` cuts a suffix off and leaves no whitespace at the end. */
  lemma {:induction false} TrimEndShape(s: string)
    ensures |TrimEnd(s)| <= |s| && TrimEnd(s) == s[..|TrimEnd(s)|]
    ensures TrimEnd(s) == [] || !IsSpace(TrimEnd(s)[|TrimEnd(s)| - 1])
  {
    if s != [] && IsSpace(s[|s| - 1]) {
      TrimEndShape(s[..|s| - 1]);
    }
  }

  /** `strip()` leaves a string that neither starts nor ends with whitespace,
      no longer than the original, and made of the original's characters. */
  lemma TrimShape(s: string)
    ensures |Trim(s)| <= |s| && IsTrimmed(Trim(s))
    ensures forall c :: c in Trim(s) ==> c in s
  {
    var t := TrimStart(s);
    TrimStartShape(s);
    TrimEndShape(t);
    var r := TrimEnd(t);
    if r != [] {
      assert r[0] == t[0];
    }
    assert forall c :: c in r ==> c in t;
    assert forall c :: c in t ==> c in s;
  }

  /** Stripping a string that is already stripped changes nothing. */
  lemma TrimOfTrimmed(s: string)
    requires IsTrimmed(s)
    ensures Trim(s) == s
  {
  }

  /** `s.strip().lower()`: the form in which the coordinator compares
      locations, certifications and identifiers. */
  function Normal(s: string): string
  {
    Lower(Trim(s))
  }

  /** Lower-casing neither makes nor removes whitespace, so it commutes with
      `strip()`. */
  lemma LowerTrimCommute(s: string)
    ensures Trim(Lower(s)) == Lower(Trim(s))
    ensures Normal(Lower(s)) == Normal(s)
  {
    TrimStartLower(s);
    TrimEndLower(TrimStart(s));
    LowerIdempotent(Trim(s));
  }

  lemma {:induction false} TrimStartLower(s: string)
    ensures TrimStart(Lower(s)) == Lower(TrimStart(s))
  {
    if s != [] {
      assert Lower(s)[1..] == Lower(s[1..]);
      if IsSpace(s[0]) {
        TrimStartLower(s[1..]);
      }
    }
  }

  lemma {:induction false} TrimEndLower(s: string)
    ensures TrimEnd(Lower(s)) == Lower(TrimEnd(s))
  {
    if s != [] {
      assert Lower(s)[..|s| - 1] == Lower(s[..|s| - 1]);
      if IsSpace(s[|s| - 1]) {
        TrimEndLower(s[..|s| - 1]);
      }
    }
  }

  /** `t` is a prefix of `s`. */
  predicate StartsWith(s: string, t: string)
  {
    |t| <= |s| && s[..|t|] == t
  }

  /** Python's `t in s` for two strings: `t` occurs in `s` as a contiguous run. */
  predicate Contains(s: string, t: string)
  {
    StartsWith(s, t) || (s != [] && Contains(s[1..], t))
  }

  /** An occurrence of `t` at position `k` of `s` makes `t in s` true. */
  lemma {:induction false} ContainsAt(s: string, t: string, k: nat)
    requires k + |t| <= |s| && s[k..k + |t|] == t
    ensures Contains(s, t)
  {
    if k > 0 {
      assert s[1..][k - 1..k - 1 + |t|] == t;
      ContainsAt(s[1..], t, k - 1);
    }
  }

  /** `t` occurs in `s` at some position. */
  lemma {:induction false} ContainsWitness(s: string, t: string) returns (k: nat)
    requires Contains(s, t)
    ensures k + |t| <= |s| && s[k..k + |t|] == t
  {
    if StartsWith(s, t) {
      k := 0;
    } else {
      var k' := ContainsWitness(s[1..], t);
      k := k' + 1;
      assert s[k..k + |t|] == s[1..][k'..k' + |t|];
    }
  }

  /** An occurrence inside an occurrence is an occurrence. */
  lemma ContainsTransitive(s: string, t: string, u: string)
    requires Contains(s, t) && Contains(t, u)
    ensures Contains(s, u)
  {
    var k := ContainsWitness(s, t);
    var m := ContainsWitness(t, u);
    forall i | 0 <= i < |u|
      ensures s[k + m + i] == u[i]
    {
      assert s[k..k + |t|][m + i] == t[m + i];
      assert t[m..m + |u|][i] == u[i];
    }
    assert s[k + m..k + m + |u|] == u;
    ContainsAt(s, u, k + m);
  }

  /** A run holding a character that `s` lacks never occurs in `s`. */
  lemma MissingChar(s: string, t: string, c: char)
    requires c in t && c !in s
    ensures !Contains(s, t)
  {
    if Contains(s, t) {
      var k := ContainsWitness(s, t);
    }
  }

  /** No character of `s` is one of `cs`. */
  predicate Avoids(s: string, cs: string)
  {
    forall i :: 0 <= i < |s| ==> s[i] !in cs
  }

  /** A string that avoids `cs` lacks each character of `cs`. */
  lemma AvoidsChar(s: string, cs: string, c: char)
    requires Avoids(s, cs) && c in cs
    ensures c !in s
  {
  }

  /** A run without a space occurs in two words joined by a space only if it
      occurs in one of them. */
  lemma NotContainsSpaced(a: string, b: string, t: string)
    requires ' ' !in t && !Contains(a, t) && !Contains(b, t)
    ensures !Contains(a + " " + b, t)
  {
    var s := a + " " + b;
    if Contains(s, t) {
      var k := ContainsWitness(s, t);
      if k + |t| <= |a| {
        assert a[k..k + |t|] == t by {
          forall i | 0 <= i < |t| ensures a[k + i] == t[i] {
            assert s[k..k + |t|][i] == s[k + i];
          }
        }
        ContainsAt(a, t, k);
      } else if k > |a| {
        var m := k - |a| - 1;
        assert b[m..m + |t|] == t by {
          forall i | 0 <= i < |t| ensures b[m + i] == t[i] {
            assert s[k..k + |t|][i] == s[k + i];
          }
        }
        ContainsAt(b, t, m);
      } else {
        SpaceInRun(a, b, t, k);
        assert false;
      }
    }
  }

  /** A run of `a + " " + b` that covers the joining space holds a space. */
  lemma SpaceInRun(a: string, b: string, t: string, k: nat)
    requires k <= |a| < k + |t| <= |a| + 1 + |b|
    requires (a + " " + b)[k..k + |t|] == t
    ensures ' ' in t
  {
    assert t[|a| - k] == (a + " " + b)[|a|];
  }

  /** A run longer than `s` never occurs in it. */
  lemma {:induction false} ContainsLength(s: string, t: string)
    requires |s| < |t|
    ensures !Contains(s, t)
  {
    if s != [] {
      ContainsLength(s[1..], t);
    }
  }

  /** `s.split(",")`: the pieces between commas, empty pieces included; never empty. */
  function Split(s: string): (parts: seq<string>)
    ensures |parts| >= 1
    ensures forall i :: 0 <= i < |parts| ==> ',' !in parts[i]
  {
    if s == [] then [""]
    else if s[0] == ',' then [""] + Split(s[1..])
    else
      var rest := Split(s[1..]);
      [[s[0]] + rest[0]] + rest[1..]
  }

  /** `",".join(parts)`. */
  function Join(parts: seq<string>): string
  {
    if parts == [] then ""
    else if |parts| == 1 then parts[0]
    else parts[0] + "," + Join(parts[1..])
  }

  /** Joining comma-free parts and splitting again gives the parts back. */
  lemma {:induction false} SplitJoin(parts: seq<string>)
    requires |parts| >= 1
    requires forall i :: 0 <= i < |parts| ==> ',' !in parts[i]
    ensures Split(Join(parts)) == parts
  {
    if |parts| == 1 {
      SplitNoComma(parts[0]);
    } else {
      SplitJoin(parts[1..]);
      SplitPrefix(parts[0], Join(parts[1..]));
    }
  }

  /** A comma-free string splits into itself. */
  lemma {:induction false} SplitNoComma(s: string)
    requires ',' !in s
    ensures Split(s) == [s]
  {
    if s != [] {
      SplitNoComma(s[1..]);
      assert [s[0]] + s[1..] == s;
    }
  }

  /** Splitting `a + "," + b` for comma-free `a` puts `a` in front of the parts of `b`. */
  lemma {:induction false} SplitPrefix(a: string, b: string)
    requires ',' !in a
    ensures Split(a + "," + b) == [a] + Split(b)
  {
    if a == [] {
      assert a + "," + b == [','] + b;
    } else {
      var s := a + "," + b;
      assert s[0] == a[0] && s[1..] == a[1..] + "," + b;
      SplitPrefix(a[1..], b);
      assert [s[0]] + a[1..] == a;
    }
  }

  /** `[x.strip() for x in parts if x.strip()]`: every part stripped, empty ones dropped. */
  function TrimmedNonEmpty(parts: seq<string>): (r: seq<string>)
    ensures |r| <= |parts|
    ensures forall i :: 0 <= i < |r| ==> r[i] != [] && IsTrimmed(r[i])
  {
    if parts == [] then []
    else
      var t := Trim(parts[0]);
      TrimShape(parts[0]);
      var rest := TrimmedNonEmpty(parts[1..]);
      if t != [] then [t] + rest else rest
  }

  /** Parts that are already stripped and non-empty pass through unchanged. */
  lemma {:induction false} TrimmedNonEmptyKeeps(parts: seq<string>)
    requires forall i :: 0 <= i < |parts| ==> parts[i] != [] && IsTrimmed(parts[i])
    ensures TrimmedNonEmpty(parts) == parts
  {
    if parts != [] {
      TrimmedNonEmptyKeeps(parts[1..]);
      TrimOfTrimmed(parts[0]);
    }
  }

  /** The items of a comma-separated text: `[x.strip() for x in s.split(",") if x.strip()]`. */
  function SplitList(s: string): (r: seq<string>)
    ensures forall i :: 0 <= i < |r| ==> r[i] != [] && IsTrimmed(r[i]) && ',' !in r[i]
  {
    var parts := Split(s);
    TrimmedNonEmptyNoComma(parts);
    TrimmedNonEmpty(parts)
  }

  /** Stripping and dropping parts never introduces a comma. */
  lemma {:induction false} TrimmedNonEmptyNoComma(parts: seq<string>)
    requires forall i :: 0 <= i < |parts| ==> ',' !in parts[i]
    ensures forall i :: 0 <= i < |TrimmedNonEmpty(parts)| ==> ',' !in TrimmedNonEmpty(parts)[i]
  {
    if parts != [] {
      TrimmedNonEmptyNoComma(parts[1..]);
      TrimShape(parts[0]);
    }
  }

  /** Joining stripped, non-empty, comma-free items with "," and reading the
      text back as a list gives the same items. */
  lemma SplitListJoin(items: seq<string>)
    requires forall i :: 0 <= i < |items| ==> items[i] != [] && IsTrimmed(items[i]) && ',' !in items[i]
    ensures SplitList(Join(items)) == items
  {
    if items == [] {
      assert Split("") == [""];
      assert Trim("") == "";
    } else {
      SplitJoin(items);
      TrimmedNonEmptyKeeps(items);
    }
  }

  /** Reading back comma-joined pieces that may carry padding gives each
      piece stripped, in order, with the blank ones dropped. */
  lemma SplitListJoinPadded(parts: seq<string>)
    requires |parts| >= 1
    requires forall i :: 0 <= i < |parts| ==> ',' !in parts[i]
    ensures SplitList(Join(parts)) == TrimmedNonEmpty(parts)
  {
    SplitJoin(parts);
  }

  /** An item survives stripping and filtering exactly when it is the
      non-empty stripped form of one of the pieces. */
  lemma {:induction false} TrimmedNonEmptyMembers(parts: seq<string>, x: string)
    ensures x in TrimmedNonEmpty(parts) <==> x != [] && exists i :: 0 <= i < |parts| && Trim(parts[i]) == x
  {
    if parts != [] {
      TrimmedNonEmptyMembers(parts[1..], x);
      if exists i :: 0 <= i < |parts| && Trim(parts[i]) == x {
        var i :| 0 <= i < |parts| && Trim(parts[i]) == x;
        if i > 0 {
          assert parts[1..][i - 1] == parts[i];
        }
      }
      if exists i :: 0 <= i < |parts[1..]| && Trim(parts[1..][i]) == x {
        var i :| 0 <= i < |parts[1..]| && Trim(parts[1..][i]) == x;
        assert parts[i + 1] == parts[1..][i];
      }
    }
  }
}
