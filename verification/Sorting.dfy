/** Sorting by a strict order, gathering by parts, and the byte order of identifiers. */
module Sorting {

  /** A strict total order among the elements of a sequence. */
  ghost predicate Orders<T(!new)>(less: (T, T) -> bool, s: seq<T>) {
    && (forall x <- s :: !less(x, x))
    && (forall x <- s, y <- s :: x != y ==> less(x, y) || less(y, x))
    && (forall x <- s, y <- s, z <- s :: less(x, y) && less(y, z) ==> less(x, z))
  }

  predicate Distinct<T(==)>(s: seq<T>) {
    forall i, j :: 0 <= i < j < |s| ==> s[i] != s[j]
  }

  ghost predicate Ascending<T(!new)>(less: (T, T) -> bool, s: seq<T>) {
    forall i, j :: 0 <= i < j < |s| ==> less(s[i], s[j])
  }

  function Insert<T>(less: (T, T) -> bool, x: T, s: seq<T>): (r: seq<T>)
    ensures multiset(r) == multiset(s) + multiset{x}
  {
    if s == [] then [x]
    else if less(x, s[0]) then [x] + s
    else
      assert s == [s[0]] + s[1..];
      [s[0]] + Insert(less, x, s[1..])
  }

  /** The elements in ascending order. */
  function Sort<T>(less: (T, T) -> bool, s: seq<T>): (r: seq<T>)
    ensures multiset(r) == multiset(s) && |r| == |s|
  {
    if s == [] then []
    else
      assert s == [s[0]] + s[1..];
      var r := Insert(less, s[0], Sort(less, s[1..]));
      assert |multiset(r)| == |multiset(s)|;
      r
  }

  lemma SameElements<T>(a: seq<T>, b: seq<T>)
    requires multiset(a) == multiset(b)
    ensures forall x :: x in a <==> x in b
  {
    forall x ensures x in a <==> x in b {
      assert x in a <==> x in multiset(a);
      assert x in b <==> x in multiset(b);
    }
  }

  /** A strict order in which elements may tie, and ties are an equivalence. */
  ghost predicate Weak<T(!new)>(less: (T, T) -> bool, s: seq<T>) {
    && (forall x <- s :: !less(x, x))
    && (forall x <- s, y <- s, z <- s :: less(x, y) && less(y, z) ==> less(x, z))
    && (forall x <- s, y <- s, z <- s :: !less(x, y) && !less(y, z) ==> !less(x, z))
  }

  /** Nothing is below what comes before it. */
  ghost predicate Level<T(!new)>(less: (T, T) -> bool, s: seq<T>) {
    forall i, j :: 0 <= i < j < |s| ==> !less(s[j], s[i])
  }

  lemma WeakPart<T(!new)>(less: (T, T) -> bool, a: seq<T>, b: seq<T>)
    requires Weak(less, a) && forall y <- b :: y in a
    ensures Weak(less, b)
  {
  }

  lemma OrdersAreWeak<T(!new)>(less: (T, T) -> bool, s: seq<T>)
    requires Orders(less, s)
    ensures Weak(less, s)
  {
  }

  lemma LevelTail<T(!new)>(less: (T, T) -> bool, s: seq<T>)
    requires Level(less, s) && s != []
    ensures Level(less, s[1..])
  {
  }

  lemma InsertPast<T(!new)>(less: (T, T) -> bool, x: T, s: seq<T>)
    requires s != [] && !less(x, s[0])
    ensures Insert(less, x, s) == [s[0]] + Insert(less, x, s[1..])
    ensures |Insert(less, x, s)| == |s| + 1
  {
    assert |multiset(Insert(less, x, s))| == |s| + 1;
  }

  lemma {:induction false} InsertLevels<T(!new)>(less: (T, T) -> bool, x: T, s: seq<T>)
    requires Weak(less, [x] + s) && Level(less, s)
    ensures Level(less, Insert(less, x, s))
  {
    hide Weak, Level, Insert;
    if s == [] || less(x, s[0]) {
      LevelBelow(less, x, s);
    } else {
      WeakPart(less, [x] + s, [x] + s[1..]);
      LevelTail(less, s);
      InsertLevels(less, x, s[1..]);
      InsertPast(less, x, s);
      var r := Insert(less, x, s[1..]);
      forall j | 0 <= j < |r| ensures !less(r[j], s[0]) {
        assert r[j] in multiset(r);
        assert r[j] == x || r[j] in multiset(s[1..]);
        NoneBelow(less, x, s, r[j]);
      }
      LevelCons(less, s[0], r);
    }
  }

  /** A new element below the first goes to the front. */
  lemma LevelBelow<T(!new)>(less: (T, T) -> bool, x: T, s: seq<T>)
    requires Weak(less, [x] + s) && Level(less, s) && (s == [] || less(x, s[0]))
    ensures Level(less, Insert(less, x, s))
  {
    assert x in [x] + s;
    forall j | 0 <= j < |s| ensures !less(s[j], x) { assert s[j] in [x] + s && s[0] in [x] + s; }
  }

  lemma NoneBelow<T(!new)>(less: (T, T) -> bool, x: T, s: seq<T>, y: T)
    requires Weak(less, [x] + s) && Level(less, s) && s != [] && !less(x, s[0]) && (y == x || y in s)
    ensures !less(y, s[0])
  {
    assert s[0] in [x] + s;
  }

  lemma LevelCons<T(!new)>(less: (T, T) -> bool, x: T, s: seq<T>)
    requires Level(less, s) && forall j :: 0 <= j < |s| ==> !less(s[j], x)
    ensures Level(less, [x] + s)
  {
  }

  lemma {:induction false} SortLevels<T(!new)>(less: (T, T) -> bool, s: seq<T>)
    requires Weak(less, s)
    ensures Level(less, Sort(less, s))
  {
    hide Weak, Level, Insert;
    if s == [] {
      assert Level(less, Sort(less, s)) by { LevelOfNothing(less, Sort(less, s)); }
    } else {
      var tail := s[1..];
      WeakPart(less, s, tail);
      SortLevels(less, tail);
      SameElements(Sort(less, tail), tail);
      WeakPart(less, s, [s[0]] + Sort(less, tail));
      InsertLevels(less, s[0], Sort(less, tail));
    }
  }

  lemma LevelOfNothing<T(!new)>(less: (T, T) -> bool, s: seq<T>)
    requires s == []
    ensures Level(less, s)
  {
  }

  lemma SortAscends<T(!new)>(less: (T, T) -> bool, s: seq<T>)
    requires Orders(less, s) && Distinct(s)
    ensures Ascending(less, Sort(less, s))
  {
    hide Orders, Weak, Level, Distinct, Ascending, Sort;
    OrdersAreWeak(less, s);
    SortLevels(less, s);
    DistinctForgetsOrder(s, Sort(less, s));
    OrdersForgetsOrder(less, s, Sort(less, s));
    DistinctLevelAscends(less, Sort(less, s));
  }

  lemma DistinctLevelAscends<T(!new)>(less: (T, T) -> bool, s: seq<T>)
    requires Orders(less, s) && Level(less, s) && Distinct(s)
    ensures Ascending(less, s)
  {
    forall i, j | 0 <= i < j < |s| ensures less(s[i], s[j]) { assert s[i] in s && s[j] in s; }
  }

  /** One occurrence set apart. */
  lemma Pick<T>(s: seq<T>, i: nat)
    requires i < |s|
    ensures multiset(s) == multiset(s[..i] + s[i + 1..]) + multiset{s[i]}
  {
    assert s == s[..i] + [s[i]] + s[i + 1..];
  }

  /** Equal collections stay equal when one equal element leaves each. */
  lemma SameRest<T>(a: seq<T>, i: nat, b: seq<T>, j: nat)
    requires i < |a| && j < |b| && a[i] == b[j] && multiset(a) == multiset(b)
    ensures multiset(a[..i] + a[i + 1..]) == multiset(b[..j] + b[j + 1..])
  {
    Pick(a, i);
    Pick(b, j);
    var p, q := multiset(a[..i] + a[i + 1..]), multiset(b[..j] + b[j + 1..]);
    assert p == p + multiset{a[i]} - multiset{a[i]};
    assert q == q + multiset{a[i]} - multiset{a[i]};
  }

  lemma SameFirst<T(!new)>(less: (T, T) -> bool, a: seq<T>, b: seq<T>)
    requires Orders(less, a) && Ascending(less, a) && Ascending(less, b)
    requires a != [] && b != [] && a[0] in b && b[0] in a
    ensures a[0] == b[0]
  {
    assert a[0] in a;
  }

  lemma RestAscends<T(!new)>(less: (T, T) -> bool, a: seq<T>)
    requires Orders(less, a) && Ascending(less, a) && a != []
    ensures Orders(less, a[1..]) && Ascending(less, a[1..])
  {
    assert forall y :: y in a[1..] ==> y in a;
  }

  lemma SameTail<T(!new)>(less: (T, T) -> bool, a: seq<T>, b: seq<T>)
    requires Orders(less, a) && multiset(a) == multiset(b) && Ascending(less, a) && Ascending(less, b) && a != []
    ensures b != [] && a[0] == b[0] && multiset(a[1..]) == multiset(b[1..])
  {
    hide Orders, Ascending;
    assert a[0] in multiset(b);
    assert b[0] in multiset(a);
    SameFirst(less, a, b);
    SameRest(a, 0, b, 0);
    assert a[..0] + a[0 + 1..] == a[1..] && b[..0] + b[0 + 1..] == b[1..];
  }

  /** Only one arrangement ascends. */
  lemma {:induction false} OneArrangement<T(!new)>(less: (T, T) -> bool, a: seq<T>, b: seq<T>)
    requires Orders(less, a) && multiset(a) == multiset(b) && Ascending(less, a) && Ascending(less, b)
    ensures a == b
  {
    hide Orders, Ascending;
    if a == [] {
      assert |multiset(b)| == 0;
    } else {
      SameTail(less, a, b);
      RestAscends(less, a);
      AscendingTail(less, b);
      OneArrangement(less, a[1..], b[1..]);
      assert a == [a[0]] + a[1..] && b == [b[0]] + b[1..];
    }
  }

  lemma AscendingTail<T(!new)>(less: (T, T) -> bool, b: seq<T>)
    requires Ascending(less, b) && b != []
    ensures Ascending(less, b[1..])
  {
  }

  lemma Twice<T>(s: seq<T>, i: nat, j: nat)
    requires i < j < |s| && s[i] == s[j]
    ensures multiset(s)[s[i]] >= 2
  {
    Pick(s, j);
    assert (s[..j] + s[j + 1..])[i] == s[i];
  }

  lemma Once<T>(s: seq<T>, i: nat)
    requires i < |s| && Distinct(s)
    ensures multiset(s)[s[i]] == 1
  {
    Pick(s, i);
    var others := s[..i] + s[i + 1..];
    forall k | 0 <= k < |others| ensures others[k] != s[i] {
      assert others[k] == if k < i then s[k] else s[k + 1];
    }
    assert multiset(others)[s[i]] == 0;
  }

  /** Distinct lists of the same elements hold each of them once. */
  lemma SameSet<T>(a: seq<T>, b: seq<T>)
    requires Distinct(a) && Distinct(b) && forall x :: x in a <==> x in b
    ensures multiset(a) == multiset(b)
  {
    forall x ensures multiset(a)[x] == multiset(b)[x] {
      if x in a {
        var i :| 0 <= i < |a| && a[i] == x;
        var j :| 0 <= j < |b| && b[j] == x;
        Once(a, i);
        Once(b, j);
      } else {
        assert x !in multiset(a) && x !in multiset(b);
      }
    }
  }

  lemma DistinctForgetsOrder<T>(a: seq<T>, b: seq<T>)
    requires Distinct(a) && multiset(a) == multiset(b)
    ensures Distinct(b)
  {
    SameElements(a, b);
    forall i, j | 0 <= i < j < |b| ensures b[i] != b[j] {
      if b[i] == b[j] {
        Twice(b, i, j);
        var k :| 0 <= k < |a| && a[k] == b[i];
        Once(a, k);
      }
    }
  }

  /** Distinct elements of a sequence are no more than it has. */
  lemma {:induction false} DistinctFits<T>(a: seq<T>, b: seq<T>)
    requires Distinct(a) && forall x <- a :: x in b
    ensures |a| <= |b|
  {
    if a != [] {
      var front, x := a[..|a| - 1], a[|a| - 1];
      assert x in a;
      var j :| 0 <= j < |b| && b[j] == x;
      var rest := b[..j] + b[j + 1..];
      assert b == b[..j] + [x] + b[j + 1..];
      forall y <- front ensures y in rest {
        var i :| 0 <= i < |front| && front[i] == y;
        assert a[i] == y && a[i] in a && y in b;
      }
      DistinctFits(front, rest);
    }
  }

  /** The order of the input does not matter. */
  lemma SortForgetsOrder<T(!new)>(less: (T, T) -> bool, a: seq<T>, b: seq<T>)
    requires Orders(less, a) && Distinct(a) && multiset(a) == multiset(b)
    ensures Sort(less, a) == Sort(less, b)
  {
    hide Orders, Ascending, Distinct, Sort;
    DistinctForgetsOrder(a, b);
    OrdersForgetsOrder(less, a, b);
    OrdersForgetsOrder(less, a, Sort(less, a));
    SortAscends(less, a);
    SortAscends(less, b);
    OneArrangement(less, Sort(less, a), Sort(less, b));
  }

  lemma OrdersForgetsOrder<T(!new)>(less: (T, T) -> bool, a: seq<T>, b: seq<T>)
    requires Orders(less, a) && multiset(a) == multiset(b)
    ensures Orders(less, b)
  {
    SameElements(a, b);
  }

  /* ----- Gathering ----- */

  function Range(n: nat): (r: seq<nat>)
    ensures |r| == n && forall i :: 0 <= i < n ==> r[i] == i
  {
    seq(n, i => i)
  }

  /** What every element yields, in order. */
  function Gather<A, B>(f: A -> seq<B>, s: seq<A>): seq<B> {
    if s == [] then [] else Gather(f, s[..|s| - 1]) + f(s[|s| - 1])
  }

  lemma {:induction false} GatherAppend<A, B>(f: A -> seq<B>, a: seq<A>, b: seq<A>)
    ensures Gather(f, a + b) == Gather(f, a) + Gather(f, b)
  {
    if b == [] {
      assert a + b == a;
    } else {
      assert (a + b)[..|a + b| - 1] == a + b[..|b| - 1];
      GatherAppend(f, a, b[..|b| - 1]);
    }
  }

  /** Gathering forgets the order in which the elements came, up to the order of what they yield. */
  lemma {:induction false} GatherPermutes<A, B>(f: A -> seq<B>, a: seq<A>, b: seq<A>)
    requires multiset(a) == multiset(b)
    ensures multiset(Gather(f, a)) == multiset(Gather(f, b))
  {
    if a == [] {
      assert |multiset(b)| == |b|;
    } else {
      var x := a[|a| - 1];
      assert x in multiset(b);
      var j :| 0 <= j < |b| && b[j] == x;
      SameRest(a, |a| - 1, b, j);
      assert a[..|a| - 1] + a[|a| - 1 + 1..] == a[..|a| - 1];
      GatherPermutes(f, a[..|a| - 1], b[..j] + b[j + 1..]);
      GatherSplit(f, b, j);
    }
  }

  lemma GatherSplit<A, B>(f: A -> seq<B>, s: seq<A>, j: nat)
    requires j < |s|
    ensures multiset(Gather(f, s)) == multiset(Gather(f, s[..j] + s[j + 1..])) + multiset(f(s[j]))
  {
    hide Gather;
    var before, after := s[..j], s[j + 1..];
    assert s == before + [s[j]] + after;
    GatherAppend(f, before, after);
    GatherAppend(f, before + [s[j]], after);
    GatherSnoc(f, before, s[j]);
  }

  lemma GatherNothing<A, B>(f: A -> seq<B>)
    ensures Gather(f, []) == []
  {
  }

  lemma GatherSnoc<A, B>(f: A -> seq<B>, s: seq<A>, x: A)
    ensures Gather(f, s + [x]) == Gather(f, s) + f(x)
  {
    assert (s + [x])[..|s|] == s;
  }

  /** Replacing one element exchanges what it yields. */
  lemma GatherUpdate<A, B>(f: A -> seq<B>, s: seq<A>, w: nat, x: A)
    requires w < |s|
    ensures multiset(Gather(f, s[w := x])) + multiset(f(s[w])) == multiset(Gather(f, s)) + multiset(f(x))
    ensures |Gather(f, s[w := x])| + |f(s[w])| == |Gather(f, s)| + |f(x)|
  {
    var t := s[w := x];
    GatherSplit(f, s, w);
    GatherSplit(f, t, w);
    assert s[..w] + s[w + 1..] == t[..w] + t[w + 1..];
    var rest := multiset(Gather(f, s[..w] + s[w + 1..]));
    assert |multiset(Gather(f, s))| == |rest| + |multiset(f(s[w]))|;
    assert |multiset(Gather(f, t))| == |rest| + |multiset(f(x))|;
  }

  lemma {:induction false} GatherMember<A, B>(f: A -> seq<B>, s: seq<A>, y: B)
    ensures y in Gather(f, s) <==> exists x <- s :: y in f(x)
  {
    if s != [] {
      GatherMember(f, s[..|s| - 1], y);
      assert s == s[..|s| - 1] + [s[|s| - 1]];
    }
  }

  /* ----- Identifiers ----- */

  /** Byte order of strings. */
  predicate Before(a: string, b: string) {
    b != [] && (a == [] || a[0] < b[0] || (a[0] == b[0] && Before(a[1..], b[1..])))
  }

  lemma {:induction false} BeforeIrreflexive(a: string)
    ensures !Before(a, a)
  {
    if a != [] { BeforeIrreflexive(a[1..]); }
  }

  lemma {:induction false} BeforeConnects(a: string, b: string)
    ensures a != b ==> Before(a, b) || Before(b, a)
  {
    if a != [] && b != [] && a[0] == b[0] {
      BeforeConnects(a[1..], b[1..]);
      assert a == [a[0]] + a[1..] && b == [b[0]] + b[1..];
    }
  }

  lemma {:induction false} BeforeTransitive(a: string, b: string, c: string)
    requires Before(a, b) && Before(b, c)
    ensures Before(a, c)
  {
    if a != [] && a[0] == b[0] && b[0] == c[0] { BeforeTransitive(a[1..], b[1..], c[1..]); }
  }
}
