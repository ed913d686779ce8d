/** Python's `sorted` for a total order, and the string order it uses. */
module Sorting {
  /** The order in which a directory or an object store lists names: any, fixed for the proofs. */
  type Enumeration = set<string> -> seq<string>

  ghost predicate Enumerates(listing: Enumeration) {
    forall s :: (forall k :: k in listing(s) <==> k in s)
  }

  ghost predicate TotalOrder<T(!new)>(leq: (T, T) -> bool) {
    && (forall a, b :: leq(a, b) || leq(b, a))
    && (forall a, b :: leq(a, b) && leq(b, a) ==> a == b)
    && (forall a, b, c :: leq(a, b) && leq(b, c) ==> leq(a, c))
  }

  ghost predicate SortedBy<T>(xs: seq<T>, leq: (T, T) -> bool) {
    forall i, j :: 0 <= i < j < |xs| ==> leq(xs[i], xs[j])
  }

  function Insert<T>(x: T, xs: seq<T>, leq: (T, T) -> bool): seq<T> {
    if xs == [] || leq(x, xs[0]) then [x] + xs else [xs[0]] + Insert(x, xs[1..], leq)
  }

  function Sort<T>(xs: seq<T>, leq: (T, T) -> bool): seq<T> {
    if xs == [] then [] else Insert(xs[0], Sort(xs[1..], leq), leq)
  }

  lemma TailSorted<T(!new)>(xs: seq<T>, leq: (T, T) -> bool)
    requires SortedBy(xs, leq) && xs != []
    ensures SortedBy(xs[1..], leq) && forall y :: y in xs[1..] ==> leq(xs[0], y)
  {
  }

  lemma ConsSorts<T(!new)>(x: T, xs: seq<T>, leq: (T, T) -> bool)
    requires SortedBy(xs, leq) && forall y :: y in xs ==> leq(x, y)
    ensures SortedBy([x] + xs, leq)
  {
  }

  lemma {:induction false} InsertAdds<T(!new)>(x: T, xs: seq<T>, leq: (T, T) -> bool)
    ensures multiset(Insert(x, xs, leq)) == multiset(xs) + multiset{x}
  {
    if xs != [] && !leq(x, xs[0]) {
      InsertAdds(x, xs[1..], leq);
      assert xs == [xs[0]] + xs[1..];
    }
  }

  lemma {:induction false} InsertSorts<T(!new)>(x: T, xs: seq<T>, leq: (T, T) -> bool)
    requires TotalOrder(leq) && SortedBy(xs, leq)
    ensures SortedBy(Insert(x, xs, leq), leq)
  {
    if xs != [] && !leq(x, xs[0]) {
      var rest := Insert(x, xs[1..], leq);
      TailSorted(xs, leq);
      InsertSorts(x, xs[1..], leq);
      InsertAdds(x, xs[1..], leq);
      forall y | y in rest ensures leq(xs[0], y) {
        assert y in multiset(rest);
        assert y in multiset(xs[1..]) || y == x;
      }
      ConsSorts(xs[0], rest, leq);
    } else if xs != [] {
      forall y | y in xs ensures leq(x, y) {
        HeadIsLeast(xs, y, leq);
      }
      ConsSorts(x, xs, leq);
    }
  }

  lemma {:induction false} SortSorts<T(!new)>(xs: seq<T>, leq: (T, T) -> bool)
    requires TotalOrder(leq)
    ensures SortedBy(Sort(xs, leq), leq)
    ensures multiset(Sort(xs, leq)) == multiset(xs)
    ensures |Sort(xs, leq)| == |xs|
  {
    if xs != [] {
      SortSorts(xs[1..], leq);
      InsertSorts(xs[0], Sort(xs[1..], leq), leq);
    }
    SortPermutes(xs, leq);
  }

  lemma {:induction false} SortPermutes<T(!new)>(xs: seq<T>, leq: (T, T) -> bool)
    ensures multiset(Sort(xs, leq)) == multiset(xs) && |Sort(xs, leq)| == |xs|
  {
    if xs != [] {
      SortPermutes(xs[1..], leq);
      InsertAdds(xs[0], Sort(xs[1..], leq), leq);
      assert xs == [xs[0]] + xs[1..];
    }
    assert |multiset(Sort(xs, leq))| == |multiset(xs)|;
  }

  lemma HeadIsLeast<T(!new)>(xs: seq<T>, y: T, leq: (T, T) -> bool)
    requires TotalOrder(leq) && SortedBy(xs, leq) && xs != [] && y in multiset(xs)
    ensures leq(xs[0], y)
  {
    assert leq(y, y);
    var i :| 0 <= i < |xs| && xs[i] == y;
  }

  /** A sorted arrangement is unique. */
  lemma {:induction false} SortedUnique<T(!new)>(xs: seq<T>, ys: seq<T>, leq: (T, T) -> bool)
    requires TotalOrder(leq) && SortedBy(xs, leq) && SortedBy(ys, leq)
    requires multiset(xs) == multiset(ys)
    ensures xs == ys
  {
    assert |xs| == |multiset(xs)| == |multiset(ys)| == |ys|;
    if xs != [] {
      assert ys[0] in multiset(ys) && xs[0] in multiset(xs);
      HeadIsLeast(xs, ys[0], leq);
      HeadIsLeast(ys, xs[0], leq);
      assert xs[0] == ys[0];
      assert xs == [xs[0]] + xs[1..] && ys == [ys[0]] + ys[1..];
      assert multiset(xs[1..]) == multiset(xs) - multiset{xs[0]};
      assert multiset(ys[1..]) == multiset(ys) - multiset{ys[0]};
      SortedUnique(xs[1..], ys[1..], leq);
    }
  }

  // --- strings ---------------------------------------------------------------------------------------

  predicate LexLess(a: string, b: string) {
    if b == [] then false
    else if a == [] then true
    else a[0] < b[0] || (a[0] == b[0] && LexLess(a[1..], b[1..]))
  }

  predicate LexLeq(a: string, b: string) {
    a == b || LexLess(a, b)
  }

  lemma {:induction false} LexTrichotomy(a: string, b: string)
    ensures a == b || LexLess(a, b) || LexLess(b, a)
    ensures !(LexLess(a, b) && LexLess(b, a)) && !LexLess(a, a)
  {
    if a != [] && b != [] {
      LexTrichotomy(a[1..], b[1..]);
      assert a == [a[0]] + a[1..] && b == [b[0]] + b[1..];
    }
    if a != [] {
      LexTrichotomy1(a);
    }
  }

  lemma {:induction false} LexTrichotomy1(a: string)
    ensures !LexLess(a, a)
  {
    if a != [] { LexTrichotomy1(a[1..]); }
  }

  lemma {:induction false} LexTransitive(a: string, b: string, c: string)
    requires LexLess(a, b) && LexLess(b, c)
    ensures LexLess(a, c)
  {
    if a != [] && a[0] == b[0] == c[0] {
      LexTransitive(a[1..], b[1..], c[1..]);
    }
  }

  lemma LexIsTotal()
    ensures TotalOrder(LexLeq)
  {
    forall a, b ensures LexLeq(a, b) || LexLeq(b, a) { LexTrichotomy(a, b); }
    forall a, b ensures LexLeq(a, b) && LexLeq(b, a) ==> a == b { LexTrichotomy(a, b); }
    forall a, b, c | LexLeq(a, b) && LexLeq(b, c) ensures LexLeq(a, c) {
      if a != b && b != c { LexTransitive(a, b, c); }
    }
  }

  lemma {:induction false} LexSamePrefix(p: string, a: string, b: string)
    ensures LexLess(p + a, p + b) <==> LexLess(a, b)
  {
    if p == [] {
      assert p + a == a && p + b == b;
    } else {
      assert (p + a)[1..] == p[1..] + a && (p + b)[1..] == p[1..] + b;
      LexSamePrefix(p[1..], a, b);
    }
  }
}
