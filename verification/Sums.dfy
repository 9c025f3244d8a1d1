/**
 Finite sums over sets, and the SQL aggregates COUNT(*) FILTER (WHERE p) and SUM(f) over a
 relation. A relation is a bag of rows; it is listed here as a sequence, and `CountBag` and
 `TotalBag` show that neither aggregate depends on the order of the listing.
 */
module Sums {

  // ---- sums over a set of keys ----

  ghost function SumSet<T(!new)>(s: set<T>, f: T -> int): int {
    if s == {} then 0 else
      var x :| x in s;
      f(x) + SumSet(s - {x}, f)
  }

  lemma {:induction false} SumRemove<T(!new)>(s: set<T>, x: T, f: T -> int)
    requires x in s
    ensures SumSet(s, f) == f(x) + SumSet(s - {x}, f)
    decreases |s|
  {
    var y :| y in s && SumSet(s, f) == f(y) + SumSet(s - {y}, f);
    if x != y {
      SumRemove(s - {y}, x, f);
      SumRemove(s - {x}, y, f);
      assert s - {y} - {x} == s - {x} - {y};
    }
  }

  lemma {:induction false} SumAdd<T(!new)>(s: set<T>, x: T, f: T -> int)
    requires x !in s
    ensures SumSet(s + {x}, f) == SumSet(s, f) + f(x)
  {
    SumRemove(s + {x}, x, f);
    assert s + {x} - {x} == s;
  }

  lemma {:induction false} SumExt<T(!new)>(s: set<T>, f: T -> int, g: T -> int)
    requires forall x :: x in s ==> f(x) == g(x)
    ensures SumSet(s, f) == SumSet(s, g)
    decreases |s|
  {
    if s != {} {
      var x :| x in s;
      SumRemove(s, x, f);
      SumRemove(s, x, g);
      SumExt(s - {x}, f, g);
    }
  }

  lemma {:induction false} SumMonotone<T(!new)>(s: set<T>, t: set<T>, f: T -> int, g: T -> int)
    requires s <= t
    requires forall x :: x in s ==> f(x) <= g(x)
    requires forall x :: x in t ==> 0 <= g(x)
    ensures SumSet(s, f) <= SumSet(t, g)
    decreases |t|
  {
    if t != {} {
      var x :| x in t;
      SumRemove(t, x, g);
      if x in s { SumRemove(s, x, f); }
      assert s - {x} <= t - {x};
      SumMonotone(s - {x}, t - {x}, f, g);
      if x !in s { assert s - {x} == s; }
    }
  }

  /** The GROUP BY keys of s under `key`, and the members of one group. */
  ghost function Image<T(!new), U(!new)>(s: set<T>, key: T -> U): set<U> {
    set x | x in s :: key(x)
  }

  ghost function Fiber<T(!new), U(!new)>(s: set<T>, key: T -> U, u: U): set<T> {
    set x | x in s && key(x) == u
  }

  /** Summing group totals over the groups of `key` gives the ungrouped total. */
  lemma {:induction false} SumByGroup<T(!new), U(!new)>(s: set<T>, key: T -> U, f: T -> int, total: U -> int)
    requires forall u :: u in Image(s, key) ==> total(u) == SumSet(Fiber(s, key, u), f)
    ensures SumSet(Image(s, key), total) == SumSet(s, f)
    decreases |s|
  {
    var groups := Image(s, key);
    if s != {} {
      var y :| y in s;
      var u := key(y);
      var group := Fiber(s, key, u);
      var rest := s - group;
      assert y in group;
      var restGroups := Image(rest, key);
      forall v | v in restGroups ensures total(v) == SumSet(Fiber(rest, key, v), f) {
        assert Fiber(rest, key, v) == Fiber(s, key, v);
      }
      assert rest < s;
      SubsetSmaller(rest, s);
      SumByGroup(rest, key, f, total);
      assert u in groups && groups - {u} == restGroups;
      SumRemove(groups, u, total);
      SumSplit(group, rest, f);
      assert group + rest == s;
    } else {
      assert groups == {};
    }
  }

  lemma {:induction false} SubsetSmaller<T>(a: set<T>, b: set<T>)
    requires a < b
    ensures |a| < |b|
  {
    assert |b - a| + |a| == |b| by { assert (b - a) + a == b; }
    assert b - a != {};
  }

  lemma {:induction false} SumSplit<T(!new)>(a: set<T>, b: set<T>, f: T -> int)
    requires a !! b
    ensures SumSet(a + b, f) == SumSet(a, f) + SumSet(b, f)
    decreases |a|
  {
    if a == {} {
      assert a + b == b;
    } else {
      var x :| x in a;
      SumRemove(a, x, f);
      SumRemove(a + b, x, f);
      assert a + b - {x} == (a - {x}) + b;
      SumSplit(a - {x}, b, f);
    }
  }

  // ---- aggregates over a relation ----

  /** COUNT(*) FILTER (WHERE p): how many rows satisfy p, repeated rows counted each time. */
  function CountWhere<T>(rows: seq<T>, p: T -> bool): nat {
    if rows == [] then 0
    else CountWhere(rows[..|rows| - 1], p) + if p(rows[|rows| - 1]) then 1 else 0
  }

  /** COALESCE(SUM(f), 0). */
  function Total<T>(rows: seq<T>, f: T -> int): int {
    if rows == [] then 0 else Total(rows[..|rows| - 1], f) + f(rows[|rows| - 1])
  }

  lemma {:induction false} CountAppend<T>(rows: seq<T>, r: T, p: T -> bool)
    ensures CountWhere(rows + [r], p) == CountWhere(rows, p) + (if p(r) then 1 else 0)
  {
    assert (rows + [r])[..|rows|] == rows;
  }

  /** The count is the number of positions whose row satisfies p. */
  lemma {:induction false} CountOfIndices<T>(rows: seq<T>, p: T -> bool, hits: set<int>)
    requires forall i :: i in hits <==> 0 <= i < |rows| && p(rows[i])
    ensures CountWhere(rows, p) == |hits|
  {
    assert hits == set i | 0 <= i < |rows| && p(rows[i]);
    if rows != [] {
      var l := |rows| - 1;
      CountOfIndices(rows[..l], p, hits - {l});
      assert l in hits <==> p(rows[l]);
    }
  }

  lemma {:induction false} TotalAppend<T>(rows: seq<T>, r: T, f: T -> int)
    ensures Total(rows + [r], f) == Total(rows, f) + f(r)
  {
  }

  lemma {:induction false} CountConcat<T>(a: seq<T>, b: seq<T>, p: T -> bool)
    ensures CountWhere(a + b, p) == CountWhere(a, p) + CountWhere(b, p)
    decreases |b|
  {
    if b == [] {
      assert a + b == a;
      CountZero(b, p);
    } else {
      var l := |b| - 1;
      assert b == b[..l] + [b[l]] && a + b == (a + b[..l]) + [b[l]];
      CountAppend(a + b[..l], b[l], p);
      CountAppend(b[..l], b[l], p);
      CountConcat(a, b[..l], p);
    }
  }

  lemma {:induction false} TotalConcat<T>(a: seq<T>, b: seq<T>, f: T -> int)
    ensures Total(a + b, f) == Total(a, f) + Total(b, f)
    decreases |b|
  {
    if b == [] {
      assert a + b == a;
    } else {
      var l := |b| - 1;
      assert b == b[..l] + [b[l]] && a + b == (a + b[..l]) + [b[l]];
      TotalAppend(a + b[..l], b[l], f);
      TotalConcat(a, b[..l], f);
    }
  }

  lemma {:induction false} CountBag<T>(a: seq<T>, b: seq<T>, p: T -> bool)
    requires multiset(a) == multiset(b)
    ensures CountWhere(a, p) == CountWhere(b, p)
    decreases |a|
  {
    if a == [] {
      SameBagLength(a, b);
    } else {
      var x := a[0];
      var pre, post := Without(a, b);
      assert a == [x] + a[1..];
      CountConcat([x], a[1..], p);
      CountConcat(pre, [x] + post, p);
      CountConcat([x], post, p);
      CountConcat(pre, post, p);
      assert b == pre + ([x] + post);
      CountBag(a[1..], pre + post, p);
    }
  }

  lemma {:induction false} TotalBag<T>(a: seq<T>, b: seq<T>, f: T -> int)
    requires multiset(a) == multiset(b)
    ensures Total(a, f) == Total(b, f)
    decreases |a|
  {
    if a == [] {
      SameBagLength(a, b);
    } else {
      var x := a[0];
      var pre, post := Without(a, b);
      assert a == [x] + a[1..];
      TotalConcat([x], a[1..], f);
      TotalConcat(pre, [x] + post, f);
      TotalConcat([x], post, f);
      TotalConcat(pre, post, f);
      assert b == pre + ([x] + post);
      TotalBag(a[1..], pre + post, f);
    }
  }

  lemma {:induction false} SameBagLength<T>(a: seq<T>, b: seq<T>)
    requires multiset(a) == multiset(b)
    ensures |a| == |b|
  {
    assert |multiset(a)| == |a| && |multiset(b)| == |b|;
  }

  /** Splits b around one occurrence of a's first row. */
  lemma {:induction false} Without<T>(a: seq<T>, b: seq<T>) returns (pre: seq<T>, post: seq<T>)
    requires a != [] && multiset(a) == multiset(b)
    ensures b == pre + [a[0]] + post
    ensures multiset(a[1..]) == multiset(pre + post)
  {
    assert a[0] in multiset(b);
    var i :| 0 <= i < |b| && b[i] == a[0];
    pre, post := b[..i], b[i + 1..];
    assert b == pre + [a[0]] + post;
    assert a == [a[0]] + a[1..];
    assert multiset(b) == multiset(pre) + multiset{a[0]} + multiset(post);
    assert multiset(a) == multiset{a[0]} + multiset(a[1..]);
    assert multiset(pre + post) == multiset(pre) + multiset(post);
    assert multiset(a[1..]) == multiset(a) - multiset{a[0]};
  }

  lemma {:induction false} CountWeaken<T>(rows: seq<T>, p: T -> bool, q: T -> bool)
    requires forall i :: 0 <= i < |rows| && p(rows[i]) ==> q(rows[i])
    ensures CountWhere(rows, p) <= CountWhere(rows, q)
    ensures CountWhere(rows, p) == CountWhere(rows, q)
            <==> (forall i :: 0 <= i < |rows| && q(rows[i]) ==> p(rows[i]))
  {
    if rows != [] {
      var l := |rows| - 1;
      CountWeaken(rows[..l], p, q);
      assert forall i :: 0 <= i < l ==> rows[..l][i] == rows[i];
      if forall i :: 0 <= i < l && q(rows[..l][i]) ==> p(rows[..l][i]) {
        assert forall i :: 0 <= i < l && q(rows[i]) ==> p(rows[i]);
      }
    }
  }

  /** Two listings that agree row by row under p and q have the same count. */
  lemma {:induction false} CountSame<T>(a: seq<T>, b: seq<T>, p: T -> bool, q: T -> bool)
    requires |a| == |b| && forall i :: 0 <= i < |a| ==> (p(a[i]) <==> q(b[i]))
    ensures CountWhere(a, p) == CountWhere(b, q)
  {
    if a != [] {
      CountSame(a[..|a| - 1], b[..|b| - 1], p, q);
    }
  }

  lemma {:induction false} TotalSame<T>(a: seq<T>, b: seq<T>, f: T -> int, g: T -> int)
    requires |a| == |b| && forall i :: 0 <= i < |a| ==> f(a[i]) == g(b[i])
    ensures Total(a, f) == Total(b, g)
  {
    if a != [] {
      TotalSame(a[..|a| - 1], b[..|b| - 1], f, g);
    }
  }

  lemma {:induction false} CountZero<T>(rows: seq<T>, p: T -> bool)
    ensures CountWhere(rows, p) == 0 <==> (forall i :: 0 <= i < |rows| ==> !p(rows[i]))
  {
    if rows != [] {
      var l := |rows| - 1;
      CountZero(rows[..l], p);
      assert forall i :: 0 <= i < l ==> rows[..l][i] == rows[i];
      if forall i :: 0 <= i < l ==> !p(rows[..l][i]) {
        assert forall i :: 0 <= i < l ==> !p(rows[i]);
      }
    }
  }

  /** Counting two disjoint conditions apart. */
  lemma {:induction false} CountSplit<T(!new)>(rows: seq<T>, p: T -> bool, q: T -> bool, r: T -> bool)
    requires forall x :: (p(x) <==> q(x) || r(x)) && !(q(x) && r(x))
    ensures CountWhere(rows, p) == CountWhere(rows, q) + CountWhere(rows, r)
  {
    if rows != [] {
      CountSplit(rows[..|rows| - 1], p, q, r);
    }
  }

  function CountsAt<T, K>(rows: seq<T>, at: K -> T -> bool): K -> int {
    (k: K) => CountWhere(rows, at(k))
  }

  /** COUNT(*) of each group adds up to COUNT(*) without GROUP BY; keys may have no rows. */
  lemma {:induction false} CountByGroup<T(!new), K(!new)>(rows: seq<T>, keys: set<K>, p: T -> bool,
                                                          at: K -> T -> bool, key: T -> K)
    requires forall k, x :: k in keys ==> (at(k)(x) <==> p(x) && key(x) == k)
    requires forall x :: x in rows && p(x) ==> key(x) in keys
    ensures SumSet(keys, CountsAt(rows, at)) == CountWhere(rows, p)
  {
    if rows == [] {
      ZeroSum(keys, CountsAt(rows, at));
    } else {
      var init, last := rows[..|rows| - 1], rows[|rows| - 1];
      var k := key(last);
      CountByGroup(init, keys, p, at, key);
      if p(last) {
        SumRemove(keys, k, CountsAt(rows, at));
        SumRemove(keys, k, CountsAt(init, at));
        SumExt(keys - {k}, CountsAt(rows, at), CountsAt(init, at));
      } else {
        SumExt(keys, CountsAt(rows, at), CountsAt(init, at));
      }
    }
  }

  lemma {:induction false} ZeroSum<T(!new)>(s: set<T>, f: T -> int)
    requires forall x :: x in s ==> f(x) == 0
    ensures SumSet(s, f) == 0
  {
    if s != {} {
      var x :| x in s;
      SumRemove(s, x, f);
      ZeroSum(s - {x}, f);
    }
  }
}
