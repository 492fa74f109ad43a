/** The two array idioms every table update in the application is built from:
    `xs.map(x => p(x) ? f(x) : x)` and `xs.find(p)`. */
module Tables {
  import opened Wrappers

  /** `xs.map(x => p(x) ? f(x) : x)`: rewrite the matching entries in place. */
  function MapWhere<T>(xs: seq<T>, p: T -> bool, f: T -> T): (r: seq<T>)
    ensures |r| == |xs|
    ensures forall i :: 0 <= i < |xs| && p(xs[i]) ==> r[i] == f(xs[i])
    ensures forall i :: 0 <= i < |xs| && !p(xs[i]) ==> r[i] == xs[i]
  {
    if xs == [] then []
    else [if p(xs[0]) then f(xs[0]) else xs[0]] + MapWhere(xs[1..], p, f)
  }

  /** `xs.map(x => p(x) ? y : x)`: every matching entry replaced by `y`. */
  function ReplaceWhere<T>(xs: seq<T>, p: T -> bool, y: T): (r: seq<T>)
    ensures |r| == |xs|
    ensures forall i :: 0 <= i < |xs| ==> r[i] == if p(xs[i]) then y else xs[i]
  {
    MapWhere(xs, p, _ => y)
  }

  /** `xs.find(p)`: the first matching entry, if any. */
  function FindFirst<T>(xs: seq<T>, p: T -> bool): (r: Option<T>)
    ensures r.None? <==> forall i :: 0 <= i < |xs| ==> !p(xs[i])
    ensures r.Some? ==> exists i :: 0 <= i < |xs| && xs[i] == r.value && p(xs[i])
                          && forall j :: 0 <= j < i ==> !p(xs[j])
  {
    if xs == [] then None
    else if p(xs[0]) then Some(xs[0])
    else
      var r := FindFirst(xs[1..], p);
      assert r.Some? ==> exists i :: 0 <= i < |xs| - 1 && xs[1..][i] == r.value && p(xs[1..][i])
                          && forall j :: 0 <= j < i ==> !p(xs[1..][j]);
      assert r.Some? ==> exists i :: 1 <= i < |xs| && xs[i] == r.value && p(xs[i])
                          && forall j :: 0 <= j < i ==> !p(xs[j]) by {
        if r.Some? {
          var i :| 0 <= i < |xs| - 1 && xs[1..][i] == r.value && p(xs[1..][i])
                   && forall j :: 0 <= j < i ==> !p(xs[1..][j]);
          assert forall j :: 0 <= j < i + 1 ==> !p(xs[j]) by {
            forall j | 0 <= j < i + 1 ensures !p(xs[j]) {
              if j > 0 { assert xs[j] == xs[1..][j - 1]; }
            }
          }
        }
      }
      r
  }

  /** The entry the first match finds is unique: it is the first matching index. */
  lemma FindFirstAt<T>(xs: seq<T>, p: T -> bool, i: int)
    requires 0 <= i < |xs| && p(xs[i])
    requires forall j :: 0 <= j < i ==> !p(xs[j])
    ensures FindFirst(xs, p) == Some(xs[i])
  {
    var r := FindFirst(xs, p);
    var k :| 0 <= k < |xs| && xs[k] == r.value && p(xs[k]) && forall j :: 0 <= j < k ==> !p(xs[j]);
    assert !(k < i) && !(i < k);
  }

  /** `find` returns the entry at the first matching index, whichever index that is. */
  lemma FindFirstIsFirst<T>(xs: seq<T>, p: T -> bool)
    ensures forall i :: 0 <= i < |xs| && p(xs[i]) && (forall j :: 0 <= j < i ==> !p(xs[j])) ==>
              FindFirst(xs, p) == Some(xs[i])
  {
    forall i | 0 <= i < |xs| && p(xs[i]) && (forall j :: 0 <= j < i ==> !p(xs[j]))
      ensures FindFirst(xs, p) == Some(xs[i])
    {
      FindFirstAt(xs, p, i);
    }
  }

  /** With no matching entry, the map is the identity. */
  lemma MapWhereNoMatch<T>(xs: seq<T>, p: T -> bool, f: T -> T)
    requires forall i :: 0 <= i < |xs| ==> !p(xs[i])
    ensures MapWhere(xs, p, f) == xs
  {
  }

  /** Mapping twice gives the same table as mapping once when the rewrite is
      idempotent on the entries it still matches after rewriting them. */
  lemma MapWhereIdempotent<T>(xs: seq<T>, p: T -> bool, f: T -> T)
    requires forall i :: 0 <= i < |xs| && p(xs[i]) && p(f(xs[i])) ==> f(f(xs[i])) == f(xs[i])
    ensures MapWhere(MapWhere(xs, p, f), p, f) == MapWhere(xs, p, f)
  {
    var once := MapWhere(xs, p, f);
    var twice := MapWhere(once, p, f);
    forall i | 0 <= i < |xs| ensures twice[i] == once[i] {
    }
  }

  /** Mapping twice with an involution that keeps entries matching restores the table. */
  lemma MapWhereInvolution<T>(xs: seq<T>, p: T -> bool, f: T -> T)
    requires forall i :: 0 <= i < |xs| && p(xs[i]) ==> p(f(xs[i])) && f(f(xs[i])) == xs[i]
    ensures MapWhere(MapWhere(xs, p, f), p, f) == xs
  {
    var once := MapWhere(xs, p, f);
    var twice := MapWhere(once, p, f);
    forall i | 0 <= i < |xs| ensures twice[i] == xs[i] {
      if p(xs[i]) { assert p(once[i]); }
    }
  }

  /** When the rewrite keeps entries matching, finding after the map finds the
      rewritten first match. */
  lemma FindAfterMapWhere<T>(xs: seq<T>, p: T -> bool, f: T -> T)
    requires forall i :: 0 <= i < |xs| && p(xs[i]) ==> p(f(xs[i]))
    ensures FindFirst(MapWhere(xs, p, f), p)
            == match FindFirst(xs, p) case Some(x) => Some(f(x)) case None => None
  {
    var ys := MapWhere(xs, p, f);
    match FindFirst(xs, p)
    case None =>
      MapWhereNoMatch(xs, p, f);
    case Some(x) =>
      var i :| 0 <= i < |xs| && xs[i] == x && p(xs[i]) && forall j :: 0 <= j < i ==> !p(xs[j]);
      assert forall j :: 0 <= j < i ==> !p(ys[j]);
      FindFirstAt(ys, p, i);
  }

  /** Replacing twice leaves only the second replacement. */
  lemma ReplaceWhereTwice<T>(xs: seq<T>, p: T -> bool, y: T, z: T)
    requires p(y)
    ensures ReplaceWhere(ReplaceWhere(xs, p, y), p, z) == ReplaceWhere(xs, p, z)
  {
    var a := ReplaceWhere(ReplaceWhere(xs, p, y), p, z);
    var b := ReplaceWhere(xs, p, z);
    forall i | 0 <= i < |xs| ensures a[i] == b[i] { }
  }

  /** Replacing the matching entries by the value they already hold changes nothing. */
  lemma ReplaceWhereSame<T>(xs: seq<T>, p: T -> bool, y: T)
    requires forall i :: 0 <= i < |xs| && p(xs[i]) ==> xs[i] == y
    ensures ReplaceWhere(xs, p, y) == xs
  {
  }
}
