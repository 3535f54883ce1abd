/**
 * The array methods the state updates are written with: `map` with a
 * conditional replacement, `filter`, `find`, and `?.map` on an array that may be
 * missing.
 */
module Lists {
  import opened Outcomes

  /** `xs.map((x) => (p(x) ? f(x) : x))`. */
  function MapWhere<T>(xs: seq<T>, p: T -> bool, f: T -> T): (r: seq<T>)
    ensures |r| == |xs|
    ensures forall i :: 0 <= i < |xs| ==> r[i] == if p(xs[i]) then f(xs[i]) else xs[i]
    decreases |xs|
  {
    if |xs| == 0 then []
    else
      var last := xs[|xs| - 1];
      MapWhere(xs[..|xs| - 1], p, f) + [if p(last) then f(last) else last]
  }

  /** `xs?.map(...)`: a missing array stays missing. */
  function MapWhereOpt<T>(xs: Option<seq<T>>, p: T -> bool, f: T -> T): (r: Option<seq<T>>)
    ensures r.Some? <==> xs.Some?
    ensures xs.Some? ==> r.value == MapWhere(xs.value, p, f)
  {
    match xs
    case None => None
    case Some(v) => Some(MapWhere(v, p, f))
  }

  /** A replacement that applies to no element changes nothing. */
  lemma MapWhereNone<T>(xs: seq<T>, p: T -> bool, f: T -> T)
    requires forall i :: 0 <= i < |xs| ==> !p(xs[i])
    ensures MapWhere(xs, p, f) == xs
  {
  }

  /** How many elements `p` holds of. */
  function Count<T>(xs: seq<T>, p: T -> bool): nat
    decreases |xs|
  {
    if |xs| == 0 then 0 else Count(xs[..|xs| - 1], p) + (if p(xs[|xs| - 1]) then 1 else 0)
  }

  /** `xs.filter(keep)`. */
  function Filter<T(==)>(xs: seq<T>, keep: T -> bool): (r: seq<T>)
    ensures forall i :: 0 <= i < |r| ==> r[i] in xs && keep(r[i])
    ensures forall i :: 0 <= i < |xs| && keep(xs[i]) ==> xs[i] in r
    ensures |r| == Count(xs, keep)
    decreases |xs|
  {
    if |xs| == 0 then []
    else
      var front := Filter(xs[..|xs| - 1], keep);
      var last := xs[|xs| - 1];
      assert forall i :: 0 <= i < |xs| - 1 ==> xs[..|xs| - 1][i] == xs[i];
      if keep(last) then front + [last] else front
  }

  /** Filtering works piece by piece, so what is kept stays in its order. */
  lemma {:induction false} FilterAppend<T>(a: seq<T>, b: seq<T>, keep: T -> bool)
    ensures Filter(a + b, keep) == Filter(a, keep) + Filter(b, keep)
    decreases |b|
  {
    if |b| == 0 {
      assert a + b == a;
    } else {
      var n := |b| - 1;
      assert (a + b)[..|a + b| - 1] == a + b[..n];
      assert (a + b)[|a + b| - 1] == b[n];
      FilterAppend(a, b[..n], keep);
    }
  }

  /** A filter that keeps every element changes nothing. */
  lemma {:induction false} FilterAll<T>(xs: seq<T>, keep: T -> bool)
    requires forall i :: 0 <= i < |xs| ==> keep(xs[i])
    ensures Filter(xs, keep) == xs
    decreases |xs|
  {
    if |xs| > 0 {
      var n := |xs| - 1;
      FilterAll(xs[..n], keep);
      assert xs[..n] + [xs[n]] == xs;
    }
  }

  /** `xs.find(p)`: the first element `p` holds of, if any. */
  function FindFirst<T(==)>(xs: seq<T>, p: T -> bool): (r: Option<T>)
    ensures r.None? <==> forall i :: 0 <= i < |xs| ==> !p(xs[i])
    ensures r.Some? ==> exists i :: 0 <= i < |xs| && xs[i] == r.value && p(r.value) &&
                                     forall j :: 0 <= j < i ==> !p(xs[j])
    decreases |xs|
  {
    if |xs| == 0 then None
    else if p(xs[0]) then Some(xs[0])
    else
      var r := FindFirst(xs[1..], p);
      assert forall i :: 1 <= i < |xs| ==> xs[i] == xs[1..][i - 1];
      if r.Some? then
        var i :| 0 <= i < |xs[1..]| && xs[1..][i] == r.value && p(r.value) &&
                 forall j :: 0 <= j < i ==> !p(xs[1..][j]);
        assert xs[i + 1] == r.value;
        r
      else r
  }
}
