/**
 * The node-key scheme: `key(...parts)` joins its parts with "::", and the
 * sidebar takes keys apart again with `split("::")`. Nothing is escaped.
 */
module Keys {
  import opened Values

  /**
   * One argument of `key(...)`: a string, a number, or a field read off an untyped
   * record (`schema.name`, `srv.id`).
   */
  datatype Part = S(text: string) | N(num: int) | V(value: Value)

  /** How `join` prints an element: `null` and `undefined` as "", anything else with `String`. */
  function JoinText(v: Value): (r: string)
  {
    if Nullish(v) then "" else ToStr(v)
  }

  function PartText(p: Part): string
  {
    match p
    case S(t) => t
    case N(n) => IntToString(n)
    case V(v) => JoinText(v)
  }

  function Texts(parts: seq<Part>): (r: seq<string>)
    ensures |r| == |parts|
    ensures forall i :: 0 <= i < |parts| ==> r[i] == PartText(parts[i])
  {
    if |parts| == 0 then [] else [PartText(parts[0])] + Texts(parts[1..])
  }

  /** `parts.join("::")` */
  function Join(parts: seq<string>): string
  {
    if |parts| == 0 then ""
    else if |parts| == 1 then parts[0]
    else parts[0] + "::" + Join(parts[1..])
  }

  /**
   * `s.split("::")`: the delimiter is searched from the left and occurrences do
   * not overlap, so ":::" splits as "" then ":".
   */
  function Split(s: string): (r: seq<string>)
    ensures |r| >= 1
    decreases |s|
  {
    if |s| < 2 then [s]
    else if s[0] == ':' && s[1] == ':' then [""] + Split(s[2..])
    else
      var rest := Split(s[1..]);
      [[s[0]] + rest[0]] + rest[1..]
  }

  /** `key(...parts)` */
  function Key(parts: seq<Part>): string
  {
    Join(Texts(parts))
  }

  /** The node kind a key names: the text before its first "::" (`const [type] = key.split("::")`). */
  function KindOf(k: string): string
  {
    Split(k)[0]
  }

  predicate HasDelimiter(p: string)
  {
    exists i :: 0 <= i < |p| - 1 && p[i] == ':' && p[i + 1] == ':'
  }

  /**
   * A part that survives a split when something follows it: no "::" inside and
   * no ':' at its end (a trailing ':' joins with the delimiter into ":::").
   */
  predicate Segment(p: string)
  {
    !HasDelimiter(p) && (|p| == 0 || p[|p| - 1] != ':')
  }

  /** Parts that come back from `Split(Join(ps))`: every part but the last is a Segment. */
  predicate WellFormedParts(ps: seq<string>)
  {
    |ps| >= 1 && !HasDelimiter(ps[|ps| - 1]) && forall i :: 0 <= i < |ps| - 1 ==> Segment(ps[i])
  }

  lemma {:induction false} SplitWithoutDelimiter(p: string)
    requires !HasDelimiter(p)
    ensures Split(p) == [p]
    decreases |p|
  {
    if |p| >= 2 {
      assert !(p[0] == ':' && p[1] == ':');
      assert !HasDelimiter(p[1..]) by {
        forall i | 0 <= i < |p[1..]| - 1 ensures !(p[1..][i] == ':' && p[1..][i + 1] == ':') {
          assert p[1..][i] == p[i + 1] && p[1..][i + 1] == p[i + 2];
        }
      }
      SplitWithoutDelimiter(p[1..]);
      assert [p[0]] + p[1..] == p;
    }
  }

  lemma {:induction false} SplitSegmentThen(p: string, rest: string)
    requires Segment(p)
    ensures Split(p + "::" + rest) == [p] + Split(rest)
    decreases |p|
  {
    var s := p + "::" + rest;
    if |p| == 0 {
      assert s[2..] == rest;
    } else {
      assert s[0] == p[0];
      if |p| == 1 {
        assert s[1] == ':' && p[0] != ':';
      } else {
        assert s[1] == p[1];
        assert !(p[0] == ':' && p[1] == ':');
      }
      var q := p[1..];
      assert Segment(q) by {
        forall i | 0 <= i < |q| - 1 ensures !(q[i] == ':' && q[i + 1] == ':') {
          assert q[i] == p[i + 1] && q[i + 1] == p[i + 2];
        }
      }
      assert s[1..] == q + "::" + rest;
      SplitSegmentThen(q, rest);
      assert [p[0]] + q == p;
    }
  }

  /** Splitting a key gives back exactly the parts it was joined from. */
  lemma {:induction false} SplitJoin(ps: seq<string>)
    requires WellFormedParts(ps)
    ensures Split(Join(ps)) == ps
    decreases |ps|
  {
    if |ps| == 1 {
      SplitWithoutDelimiter(ps[0]);
    } else {
      assert WellFormedParts(ps[1..]) by {
        assert ps[1..][|ps[1..]| - 1] == ps[|ps| - 1];
        forall i | 0 <= i < |ps[1..]| - 1 ensures Segment(ps[1..][i]) {
          assert ps[1..][i] == ps[i + 1];
        }
      }
      SplitJoin(ps[1..]);
      SplitSegmentThen(ps[0], Join(ps[1..]));
      assert [ps[0]] + ps[1..] == ps;
    }
  }

  /** On well-formed parts, two keys are equal only when their parts are. */
  lemma JoinInjective(ps: seq<string>, qs: seq<string>)
    requires WellFormedParts(ps) && WellFormedParts(qs)
    requires Join(ps) == Join(qs)
    ensures ps == qs
  {
    SplitJoin(ps);
    SplitJoin(qs);
  }

  /** The kind of a key is its first part, whenever that part is a Segment. */
  lemma {:induction false} KindOfJoin(ps: seq<string>)
    requires |ps| >= 1 && Segment(ps[0])
    ensures KindOf(Join(ps)) == ps[0]
  {
    if |ps| == 1 {
      SplitWithoutDelimiter(ps[0]);
    } else {
      SplitSegmentThen(ps[0], Join(ps[1..]));
    }
  }

  /**
   * Keeping "::" out of every part is not enough: a part ending in ':' moves a
   * colon into the next part, so two different part lists give one key.
   */
  lemma TrailingColonCollision()
    ensures !HasDelimiter("a:") && !HasDelimiter(":b")
    ensures Join(["a:", "b"]) == Join(["a", ":b"]) && ["a:", "b"] != ["a", ":b"]
    ensures Split(Join(["a:", "b"])) == ["a", ":b"]
  {
    assert Join(["a:", "b"]) == "a:::b";
    assert Join(["a", ":b"]) == "a:::b";
    assert !HasDelimiter(":b");
    SplitWithoutDelimiter(":b");
    assert "a" + "::" + ":b" == "a:::b";
    SplitSegmentThen("a", ":b");
  }

  // The node kinds, in hierarchy order.
  const ServerKind := "server"
  const DatabaseKind := "database"
  const SchemaKind := "schema"
  const SchemaTableKind := "schema_table"
  const TableKind := "table"
  const TableColumnKind := "table_column"
  const TableIndexKind := "table_index"
  const TableTriggerKind := "table_trigger"
  const ColumnKind := "column"
  const IndexKind := "index"
  const TriggerKind := "trigger"

  /** The three groups a table node holds: columns, indexes and triggers. */
  predicate IsGroupKind(kind: string)
  {
    kind == TableColumnKind || kind == TableIndexKind || kind == TableTriggerKind
  }

  /** Every kind name is a Segment: it has no ':' at all. */
  predicate IsKindName(k: string)
  {
    k in {ServerKind, DatabaseKind, SchemaKind, SchemaTableKind, TableKind,
          TableColumnKind, TableIndexKind, TableTriggerKind, ColumnKind, IndexKind, TriggerKind}
  }

  lemma KindNamesAreSegments(k: string)
    requires IsKindName(k)
    ensures Segment(k) && forall i :: 0 <= i < |k| ==> k[i] != ':'
  {
  }

  // `server::<id>`, `database::<id>::<db>` and so on, as the loaders build them.
  function ServerKey(sid: int): string { Key([S(ServerKind), N(sid)]) }
  function DatabaseKey(sid: int, db: string): string { Key([S(DatabaseKind), N(sid), S(db)]) }
  function SchemaLevelKey(kind: string, sid: int, db: string, schema: string): string
  {
    Key([S(kind), N(sid), S(db), S(schema)])
  }
  function TableLevelKey(kind: string, sid: int, db: string, schema: string, table: string): string
  {
    Key([S(kind), N(sid), S(db), S(schema), S(table)])
  }
  function LeafKey(kind: string, sid: int, db: string, schema: string, table: string, name: string): string
  {
    Key([S(kind), N(sid), S(db), S(schema), S(table), S(name)])
  }

  lemma {:induction false} JoinSnoc(ps: seq<string>, x: string)
    requires |ps| >= 1
    ensures Join(ps + [x]) == Join(ps) + "::" + x
    decreases |ps|
  {
    if |ps| > 1 {
      assert (ps + [x])[1..] == ps[1..] + [x];
      JoinSnoc(ps[1..], x);
    }
  }

  /** A key with one more part is the shorter key, the delimiter, and that part. */
  lemma KeySnoc(ps: seq<Part>, p: Part)
    requires |ps| >= 1
    ensures Key(ps + [p]) == Key(ps) + "::" + PartText(p)
  {
    assert Texts(ps + [p]) == Texts(ps) + [PartText(p)];
    JoinSnoc(Texts(ps), PartText(p));
  }

  /** Two keys that share their leading parts are equal exactly when their last parts print the same. */
  lemma KeyLastPart(ps: seq<Part>, p: Part, q: Part)
    requires |ps| >= 1
    ensures Key(ps + [p]) == Key(ps + [q]) <==> PartText(p) == PartText(q)
  {
    KeySnoc(ps, p);
    KeySnoc(ps, q);
    var a := Key(ps) + "::";
    if Key(ps + [p]) == Key(ps + [q]) {
      assert (a + PartText(p))[|a|..] == PartText(p);
      assert (a + PartText(q))[|a|..] == PartText(q);
    }
  }

  /** The kind of every key `key(kind, ...)` builds is `kind`, whatever the other parts hold. */
  lemma KindOfKey(parts: seq<Part>)
    requires |parts| >= 1 && parts[0].S? && IsKindName(parts[0].text)
    ensures KindOf(Key(parts)) == parts[0].text
  {
    KindNamesAreSegments(parts[0].text);
    KindOfJoin(Texts(parts));
  }

  /** Keys built for different kinds never collide. */
  lemma DistinctKindsDistinctKeys(ps: seq<Part>, qs: seq<Part>)
    requires |ps| >= 1 && ps[0].S? && IsKindName(ps[0].text)
    requires |qs| >= 1 && qs[0].S? && IsKindName(qs[0].text)
    requires ps[0] != qs[0]
    ensures Key(ps) != Key(qs)
  {
    KindOfKey(ps);
    KindOfKey(qs);
  }
}
