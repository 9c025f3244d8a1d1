/** WHERE, ORDER BY and LIMIT over a listed relation. SQL fixes no order among equal ranks. */
module Query {
  import opened Sums

  /** An ORDER BY key; `major` puts NULLs first or last. */
  datatype Rank = Rank(major: int, minor: int)

  predicate RankLe(a: Rank, b: Rank) {
    a.major < b.major || (a.major == b.major && a.minor <= b.minor)
  }

  predicate SortedBy<T>(s: seq<T>, key: T -> Rank) {
    forall i, j :: 0 <= i < j < |s| ==> RankLe(key(s[i]), key(s[j]))
  }

  /** s is one of the answers to `source ORDER BY key`. */
  ghost predicate OrderedListing<T>(s: seq<T>, source: seq<T>, key: T -> Rank) {
    SortedBy(s, key) && multiset(s) == multiset(source)
  }

  function Where<T>(rows: seq<T>, p: T -> bool): seq<T> {
    if rows == [] then []
    else
      var kept := Where(rows[..|rows| - 1], p);
      if p(rows[|rows| - 1]) then kept + [rows[|rows| - 1]] else kept
  }

  method OrderBy<T>(source: seq<T>, key: T -> Rank) returns (s: seq<T>)
    ensures OrderedListing(s, source, key)
  {
    s := [];
    for n := 0 to |source|
      invariant OrderedListing(s, source[..n], key)
    {
      s := Insert(s, source[n], key);
      assert source[..n + 1] == source[..n] + [source[n]];
    }
    assert source[..|source|] == source;
  }

  method Insert<T>(s: seq<T>, x: T, key: T -> Rank) returns (r: seq<T>)
    requires SortedBy(s, key)
    ensures SortedBy(r, key) && multiset(r) == multiset(s) + multiset{x}
  {
    var i := |s|;
    while 0 < i && !RankLe(key(s[i - 1]), key(x))
      invariant 0 <= i <= |s|
      invariant forall j :: i <= j < |s| ==> RankLe(key(x), key(s[j]))
    {
      i := i - 1;
    }
    InsertKeepsBag(s, i, x);
    r := s[..i] + [x] + s[i..];
  }

  lemma {:induction false} InsertKeepsBag<T>(s: seq<T>, i: nat, x: T)
    requires i <= |s|
    ensures multiset(s[..i] + [x] + s[i..]) == multiset(s) + multiset{x}
  {
    assert s == s[..i] + s[i..];
  }

  lemma {:induction false} WhereCount<T>(rows: seq<T>, p: T -> bool)
    ensures |Where(rows, p)| == CountWhere(rows, p) <= |rows|
    ensures forall i :: 0 <= i < |Where(rows, p)| ==> p(Where(rows, p)[i]) && Where(rows, p)[i] in rows
  {
    if rows == [] {
      CountZero(rows, p);
    } else {
      var l := |rows| - 1;
      assert rows == rows[..l] + [rows[l]];
      WhereCount(rows[..l], p);
      CountAppend(rows[..l], rows[l], p);
    }
  }

  /** Filtering first by a weaker condition changes no count and no total. */
  lemma {:induction false} WhereThenCount<T>(rows: seq<T>, q: T -> bool, p: T -> bool)
    requires forall x :: x in rows && p(x) ==> q(x)
    ensures CountWhere(Where(rows, q), p) == CountWhere(rows, p)
  {
    if rows != [] {
      var l := |rows| - 1;
      assert rows == rows[..l] + [rows[l]];
      WhereThenCount(rows[..l], q, p);
      CountAppend(rows[..l], rows[l], p);
      CountAppend(Where(rows[..l], q), rows[l], p);
    }
  }

  lemma {:induction false} WhereThenTotal<T>(rows: seq<T>, q: T -> bool, f: T -> int)
    requires forall x :: x in rows && !q(x) ==> f(x) == 0
    ensures Total(Where(rows, q), f) == Total(rows, f)
  {
    if rows != [] {
      var l := |rows| - 1;
      assert rows == rows[..l] + [rows[l]];
      WhereThenTotal(rows[..l], q, f);
      TotalAppend(Where(rows[..l], q), rows[l], f);
    }
  }

  lemma {:induction false} WhereAppend<T>(rows: seq<T>, x: T, p: T -> bool)
    ensures Where(rows + [x], p) == if p(x) then Where(rows, p) + [x] else Where(rows, p)
  {
    assert (rows + [x])[..|rows|] == rows;
  }

  lemma {:induction false} WhereConcat<T>(a: seq<T>, b: seq<T>, p: T -> bool)
    ensures Where(a + b, p) == Where(a, p) + Where(b, p)
    decreases |b|
  {
    if b == [] {
      assert a + b == a;
    } else {
      var l := |b| - 1;
      assert (a + b)[..|a + b| - 1] == a + b[..l];
      WhereConcat(a, b[..l], p);
    }
  }

  lemma {:induction false} WhereBagCount<T>(a: seq<T>, p: T -> bool, x: T)
    ensures multiset(Where(a, p))[x] == if p(x) then multiset(a)[x] else 0
  {
    if a != [] {
      var l := |a| - 1;
      assert a == a[..l] + [a[l]];
      WhereBagCount(a[..l], p, x);
    }
  }

  lemma {:induction false} WhereBag<T(!new)>(a: seq<T>, b: seq<T>, p: T -> bool)
    requires multiset(a) == multiset(b)
    ensures multiset(Where(a, p)) == multiset(Where(b, p))
  {
    forall x ensures multiset(Where(a, p))[x] == multiset(Where(b, p))[x] {
      WhereBagCount(a, p, x);
      WhereBagCount(b, p, x);
    }
  }
}
