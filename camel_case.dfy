/**
 * `convertToCamelCase` of `logic.ts`: the payload keys rewritten from
 * snake_case before a backend call. Each `_` followed by a lower-case ASCII
 * letter becomes that letter in upper case; nothing else in a key changes, and
 * the values are copied as they are, one level deep.
 */
module CamelCase {
  import opened Values

  predicate IsLower(c: char)
  {
    'a' <= c <= 'z'
  }

  /** `toUpperCase` on a letter `a`–`z`. */
  function Upper(c: char): (r: char)
    requires IsLower(c)
    ensures 'A' <= r <= 'Z' && !IsLower(r)
  {
    (c as int - 32) as char
  }

  /**
   * `key.replace(/_([a-z])/g, g => g[1].toUpperCase())`. The global match scans
   * from the left and a match consumes its letter, so in "a__b" only the second
   * `_` starts a match.
   */
  function CamelKey(s: string): string
    decreases |s|
  {
    if |s| == 0 then ""
    else if |s| >= 2 && s[0] == '_' && IsLower(s[1]) then [Upper(s[1])] + CamelKey(s[2..])
    else [s[0]] + CamelKey(s[1..])
  }

  /** How many matches the global replace finds. */
  function Matches(s: string): nat
    decreases |s|
  {
    if |s| == 0 then 0
    else if |s| >= 2 && s[0] == '_' && IsLower(s[1]) then 1 + Matches(s[2..])
    else Matches(s[1..])
  }

  /** Somewhere an `_` is followed by a lower-case letter. */
  predicate HasMatch(s: string)
  {
    exists i :: 0 <= i < |s| - 1 && s[i] == '_' && IsLower(s[i + 1])
  }

  /** Each match turns two characters into one. */
  lemma {:induction false} CamelKeyLength(s: string)
    ensures |CamelKey(s)| == |s| - Matches(s)
    decreases |s|
  {
    if |s| >= 2 && s[0] == '_' && IsLower(s[1]) {
      CamelKeyLength(s[2..]);
    } else if |s| > 0 {
      CamelKeyLength(s[1..]);
    }
  }

  /** A key starting with anything but a lower-case letter gives a result that does too. */
  lemma FirstNotLower(s: string)
    requires |s| > 0 && !IsLower(s[0])
    ensures |CamelKey(s)| > 0 && !IsLower(CamelKey(s)[0])
  {
  }

  lemma HasMatchTail(s: string, k: nat)
    requires k <= |s| && HasMatch(s[k..])
    ensures HasMatch(s)
  {
    var i :| 0 <= i < |s[k..]| - 1 && s[k..][i] == '_' && IsLower(s[k..][i + 1]);
    assert s[k + i] == '_' && IsLower(s[k + i + 1]);
  }

  /** The rewritten key never holds an `_` followed by a lower-case letter. */
  lemma {:induction false} NoMatchLeft(s: string)
    ensures !HasMatch(CamelKey(s))
    decreases |s|
  {
    if |s| == 0 {
    } else {
      var k := if |s| >= 2 && s[0] == '_' && IsLower(s[1]) then 2 else 1;
      var rest := s[k..];
      NoMatchLeft(rest);
      var r := CamelKey(s);
      var tail := CamelKey(rest);
      assert r == [r[0]] + tail;
      forall i | 0 <= i < |r| - 1 ensures !(r[i] == '_' && IsLower(r[i + 1])) {
        if i == 0 {
          if r[0] == '_' {
            assert k == 1 && s[0] == '_';
            assert |rest| > 0 && rest[0] == s[1];
            assert !IsLower(rest[0]);
            FirstNotLower(rest);
            assert r[1] == tail[0];
          }
        } else {
          assert tail[i - 1] == r[i] && tail[i] == r[i + 1];
        }
      }
    }
  }

  /** A key with no match comes back unchanged. */
  lemma {:induction false} NoMatchUnchanged(s: string)
    requires !HasMatch(s)
    ensures CamelKey(s) == s
    decreases |s|
  {
    if |s| > 0 {
      assert !(|s| >= 2 && s[0] == '_' && IsLower(s[1]));
      assert !HasMatch(s[1..]) by {
        if HasMatch(s[1..]) {
          HasMatchTail(s, 1);
        }
      }
      NoMatchUnchanged(s[1..]);
      assert [s[0]] + s[1..] == s;
    }
  }

  lemma {:induction false} MatchCounted(s: string)
    requires HasMatch(s)
    ensures Matches(s) > 0
    decreases |s|
  {
    if !(|s| >= 2 && s[0] == '_' && IsLower(s[1])) {
      var i :| 0 <= i < |s| - 1 && s[i] == '_' && IsLower(s[i + 1]);
      assert i > 0;
      assert s[1..][i - 1] == s[i] && s[1..][i] == s[i + 1];
      MatchCounted(s[1..]);
    }
  }

  /** The rewrite leaves a key alone exactly when it has no match. */
  lemma CamelKeyFixed(s: string)
    ensures CamelKey(s) == s <==> !HasMatch(s)
  {
    if HasMatch(s) {
      MatchCounted(s);
      CamelKeyLength(s);
    } else {
      NoMatchUnchanged(s);
    }
  }

  /** Rewriting twice is rewriting once. */
  lemma CamelKeyIdempotent(s: string)
    ensures CamelKey(CamelKey(s)) == CamelKey(s)
  {
    NoMatchLeft(s);
    NoMatchUnchanged(CamelKey(s));
  }

  /** A field of the payload, in the order `for…in` visits it. */
  datatype Field = Field(key: string, value: Value)

  /** `newObj` after the loop: each field under its rewritten key, later fields overwriting earlier ones. */
  function Converted(fields: seq<Field>): map<string, Value>
    decreases |fields|
  {
    if |fields| == 0 then map[]
    else
      var last := fields[|fields| - 1];
      Converted(fields[..|fields| - 1])[CamelKey(last.key) := last.value]
  }

  /** The keys of the result are exactly the rewritten input keys. */
  lemma {:induction false} ConvertedKeys(fields: seq<Field>)
    ensures forall k :: k in Converted(fields) <==> exists i :: 0 <= i < |fields| && CamelKey(fields[i].key) == k
    decreases |fields|
  {
    if |fields| > 0 {
      var n := |fields| - 1;
      var front := fields[..n];
      ConvertedKeys(front);
      forall k ensures k in Converted(fields) <==> exists i :: 0 <= i < |fields| && CamelKey(fields[i].key) == k {
        if k != CamelKey(fields[n].key) {
          if k in Converted(front) {
            var i :| 0 <= i < n && CamelKey(front[i].key) == k;
            assert fields[i] == front[i];
          }
          if exists i :: 0 <= i < |fields| && CamelKey(fields[i].key) == k {
            var i :| 0 <= i < |fields| && CamelKey(fields[i].key) == k;
            assert front[i] == fields[i];
          }
        }
      }
    }
  }

  /** When two keys rewrite to the same key, the field visited last gives the value. */
  lemma {:induction false} ConvertedLastWins(fields: seq<Field>, i: int)
    requires 0 <= i < |fields|
    requires forall j :: i < j < |fields| ==> CamelKey(fields[j].key) != CamelKey(fields[i].key)
    ensures CamelKey(fields[i].key) in Converted(fields)
    ensures Converted(fields)[CamelKey(fields[i].key)] == fields[i].value
    decreases |fields|
  {
    var n := |fields| - 1;
    if i < n {
      var front := fields[..n];
      assert front[i] == fields[i];
      assert forall j :: i < j < |front| ==> front[j] == fields[j];
      ConvertedLastWins(front, i);
      assert CamelKey(fields[n].key) != CamelKey(fields[i].key);
    }
  }

  /** "a_b" and then "aB" both land on "aB", and the value of "aB" stays. */
  lemma CollisionLaterWins(v1: Value, v2: Value)
    ensures Converted([Field("a_b", v1), Field("aB", v2)]) == map["aB" := v2]
  {
    assert CamelKey("b") == "b";
    assert CamelKey("a_b") == "aB";
    assert CamelKey("B") == "B";
    assert CamelKey("aB") == "aB";
    var fields := [Field("a_b", v1), Field("aB", v2)];
    assert fields[..1] == [Field("a_b", v1)] && fields[..1][..0] == [];
    assert Converted(fields[..1]) == map["aB" := v1];
    assert Converted(fields) == map["aB" := v1]["aB" := v2];
  }

  /** The `for…in` loop. */
  method ConvertToCamelCase(fields: seq<Field>) returns (newObj: map<string, Value>)
    ensures newObj == Converted(fields)
  {
    newObj := map[];
    var i := 0;
    while i < |fields|
      invariant 0 <= i <= |fields|
      invariant newObj == Converted(fields[..i])
    {
      assert fields[..i + 1][..i] == fields[..i];
      var newKey := CamelKey(fields[i].key);
      newObj := newObj[newKey := fields[i].value];
      i := i + 1;
    }
    assert fields[..i] == fields;
  }
}
