/** The order in which validation reports: sorted, without repeats, at most 128. */
module Issues {
  import opened Wire
  import opened Sorting

  const MOST: nat := 128

  /** Neighbours that repeat, removed. */
  function Dedup<T(==)>(s: seq<T>): (r: seq<T>)
    ensures |r| <= |s|
  {
    if |s| < 2 then s
    else
      var front := Dedup(s[..|s| - 1]);
      if s[|s| - 1] == s[|s| - 2] then front else front + [s[|s| - 1]]
  }

  function FirstOf<T>(s: seq<T>): seq<T> { if |s| > MOST then s[..MOST] else s }

  /** What is reported of the issues that the evaluator found. */
  function Report<T(==)>(less: (T, T) -> bool, found: seq<T>): seq<T> { FirstOf(Dedup(Sort(less, found))) }

  /** The Go core compares one text of the three parts; the parts are separated by NUL. */
  function KeyText(i: Issue): string { i.instancePath + (['\0'] + (i.schemaPath + (['\0'] + i.code))) }

  predicate GoLess(a: Issue, b: Issue) { Before(KeyText(a), KeyText(b)) }

  /** The Rust core compares the three parts one after the other. */
  predicate RustLess(a: Issue, b: Issue) {
    || Before(a.instancePath, b.instancePath)
    || (a.instancePath == b.instancePath
        && (Before(a.schemaPath, b.schemaPath) || (a.schemaPath == b.schemaPath && Before(a.code, b.code))))
  }

  method NormalizeIssues(found: seq<Issue>) returns (unique: seq<Issue>)
    ensures unique == Report(GoLess, found)
  {
    hide Sort, GoLess, Dedup;
    var issues := Sort(GoLess, found);
    unique := [];
    DedupNext(issues[..0], None);
    for i := 0 to |issues|
      invariant unique == Dedup(issues[..i])
    {
      DedupNext(issues[..i], Some(issues[i]));
      assert issues[..i + 1] == issues[..i] + [issues[i]];
      if |unique| == 0 || unique[|unique| - 1] != issues[i] { unique := unique + [issues[i]]; }
    }
    assert issues[..|issues|] == issues;
    if |unique| > 128 { unique := unique[..128]; }
  }

  /** One more element joins unless it repeats its neighbour. */
  lemma {:induction false} DedupNext<T>(s: seq<T>, x: Option<T>)
    ensures s != [] ==> Dedup(s) != [] && Dedup(s)[|Dedup(s)| - 1] == s[|s| - 1]
    ensures s == [] ==> Dedup(s) == []
    ensures x.Some? ==> Dedup(s + [x.value]) == if s != [] && s[|s| - 1] == x.value then Dedup(s)
            else Dedup(s) + [x.value]
    decreases |s|
  {
    if |s| >= 2 { DedupNext(s[..|s| - 1], None); }
    if x.Some? { assert (s + [x.value])[..|s|] == s; }
  }

  /* ----- What the report is ----- */

  /** The same findings, in any order and number. */
  ghost predicate SameFindings<T(!new)>(a: seq<T>, b: seq<T>) { forall x :: x in a <==> x in b }

  predicate NoNeighbours<T(==)>(s: seq<T>) {
    forall i, j :: 0 <= i < |s| && 0 <= j < |s| && j == i + 1 ==> s[i] != s[j]
  }

  lemma {:induction false} DedupLevels<T(!new)>(less: (T, T) -> bool, s: seq<T>)
    requires Level(less, s)
    ensures Level(less, Dedup(s)) && NoNeighbours(Dedup(s)) && SameFindings(Dedup(s), s)
    ensures s != [] ==> Dedup(s) != [] && Dedup(s)[|Dedup(s)| - 1] == s[|s| - 1]
  {
    if |s| >= 2 {
      var front, x := s[..|s| - 1], s[|s| - 1];
      assert s == front + [x];
      DedupLevels(less, front);
      var r := Dedup(front);
      if x != s[|s| - 2] {
        forall k | 0 <= k < |r| ensures !less(x, r[k]) {
          assert r[k] in front;
          var i :| 0 <= i < |front| && front[i] == r[k];
        }
      }
    }
  }

  lemma LevelAscends<T(!new)>(less: (T, T) -> bool, s: seq<T>)
    requires Orders(less, s) && Level(less, s) && NoNeighbours(s)
    ensures Ascending(less, s)
  {
    forall i, j | 0 <= i < j < |s| ensures less(s[i], s[j]) {
      assert s[i] in s && s[i + 1] in s && s[j] in s;
      assert less(s[i], s[i + 1]);
    }
  }

  lemma AscendingIsDistinct<T(!new)>(less: (T, T) -> bool, s: seq<T>)
    requires Orders(less, s) && Ascending(less, s)
    ensures Distinct(s)
  {
    forall i, j | 0 <= i < j < |s| ensures s[i] != s[j] { assert s[i] in s && less(s[i], s[j]); }
  }

  /** Two orders that agree on what was found report the same, whatever the order or number of findings. */
  lemma ReportsAgree<T(!new)>(less: (T, T) -> bool, other: (T, T) -> bool, a: seq<T>, b: seq<T>)
    requires Orders(less, a) && (forall x :: x in a <==> x in b)
    requires forall x <- a, y <- a :: less(x, y) <==> other(x, y)
    ensures Report(less, a) == Report(other, b)
  {
    hide Ascending, Dedup, Sort, Distinct;
    DistinctReport(less, a);
    DistinctReport(other, b);
    var p, q := Dedup(Sort(less, a)), Dedup(Sort(other, b));
    SameSet(p, q);
    SameAscending(less, other, a, q);
    SubsetOrders(less, a, p);
    OneArrangement(less, p, q);
  }

  lemma SubsetOrders<T(!new)>(less: (T, T) -> bool, a: seq<T>, p: seq<T>)
    requires Orders(less, a) && forall x <- p :: x in a
    ensures Orders(less, p)
  {
  }

  lemma SameAscending<T(!new)>(less: (T, T) -> bool, other: (T, T) -> bool, a: seq<T>, q: seq<T>)
    requires Ascending(other, q) && forall x <- q :: x in a
    requires forall x <- a, y <- a :: less(x, y) <==> other(x, y)
    ensures Ascending(less, q)
  {
    forall i, j | 0 <= i < j < |q| ensures less(q[i], q[j]) { assert q[i] in q && q[j] in q; }
  }

  lemma DistinctReport<T(!new)>(less: (T, T) -> bool, a: seq<T>)
    requires Orders(less, a)
    ensures var p := Dedup(Sort(less, a)); Ascending(less, p) && Distinct(p) && forall x :: x in p <==> x in a
  {
    hide Orders, Weak, Level, NoNeighbours, Ascending, Dedup, Sort, Distinct;
    var s := Sort(less, a);
    SameElements(s, a);
    OrdersAreWeak(less, a);
    SortLevels(less, a);
    DedupLevels(less, s);
    SubsetOrders(less, a, Dedup(s));
    LevelAscends(less, Dedup(s));
    AscendingIsDistinct(less, Dedup(s));
  }

  /** Where the order decides, a report is the first 128 of the different findings, in order: whatever it leaves out
      comes after all of them. */
  lemma ReportsTheFirst<T(!new)>(less: (T, T) -> bool, found: seq<T>)
    requires Orders(less, found)
    ensures var r := Report(less, found);
            && |r| <= 128 && Ascending(less, r) && Distinct(r) && (forall x <- r :: x in found)
            && forall y <- found :: y !in r ==> |r| == 128 && forall x <- r :: less(x, y)
  {
    hide Sort, Dedup, Orders;
    DistinctReport(less, found);
    var p := Dedup(Sort(less, found));
    var r := FirstOf(p);
    forall i | 0 <= i < |r| ensures p[i] == r[i] {}
    forall x <- r ensures x in p {
      var i :| 0 <= i < |r| && r[i] == x;
    }
    forall y <- found | y !in r ensures |r| == 128 && forall x <- r :: less(x, y) {
      assert y in p;
      var j :| 0 <= j < |p| && p[j] == y;
      assert (forall k :: 0 <= k < |r| ==> r[k] in r) && j >= |r|;
      forall x <- r ensures less(x, y) {
        var i :| 0 <= i < |r| && r[i] == x;
        assert less(p[i], p[j]);
      }
    }
  }

  /* ----- When two orders report alike ----- */

  /** An element of the common beginning does not come again. */
  lemma NoReturn<T(!new)>(less: (T, T) -> bool, d: seq<T>, q: seq<T>, i: nat, k: nat)
    requires Level(less, d) && NoNeighbours(d) && i < k < |d| && k <= |q| && d[..k] == q[..k]
    requires i + 1 < k ==> less(q[i], q[i + 1])
    ensures d[k] != q[i]
  {
    assert d[..k][i] == q[..k][i];
    if i + 1 < k { assert d[..k][i + 1] == q[..k][i + 1]; }
  }

  /** Both orders rank the first n elements of one arrangement against those of the other alike. */
  ghost predicate RankAlike<T(!new)>(less: (T, T) -> bool, other: (T, T) -> bool, d: seq<T>, q: seq<T>, n: nat)
    requires n <= |q|
  {
    forall i, k :: 0 <= i < n && 0 <= k < n && k < |d| ==> (less(q[i], d[k]) <==> other(q[i], d[k]))
  }

  /** Where the orders agree on the first n elements, so do the arrangements. */
  lemma {:induction false} SameBeginning<T(!new)>(less: (T, T) -> bool, other: (T, T) -> bool, d: seq<T>, q: seq<T>,
                                                  n: nat)
    requires Level(less, d) && NoNeighbours(d) && SameFindings(d, q)
    requires Orders(other, q) && Ascending(other, q) && n <= |q| && RankAlike(less, other, d, q, n)
    ensures n <= |d| && d[..n] == q[..n]
    ensures n == |q| ==> d == q
  {
    hide NoNeighbours;
    if n > 0 {
      SameBeginning(less, other, d, q, n - 1);
      var x := q[n - 1];
      assert x in q;
      forall m | 0 <= m < n - 1 ensures d[m] == q[m] && d[m] != x {
        assert d[..n - 1][m] == q[..n - 1][m] && q[m] in q;
      }
      var m :| 0 <= m < |d| && d[m] == x;
      if d[n - 1] != x {
        assert d[n - 1] in d;
        var i :| 0 <= i < |q| && q[i] == d[n - 1];
        NoReturn(less, d, q, i, n - 1);
      }
      assert d[..n] == d[..n - 1] + [d[n - 1]] && q[..n] == q[..n - 1] + [q[n - 1]];
    }
    if n == |q| {
      assert q[..n] == q;
      NothingAfter(less, other, d, q);
    }
  }

  lemma NothingAfter<T(!new)>(less: (T, T) -> bool, other: (T, T) -> bool, d: seq<T>, q: seq<T>)
    requires Level(less, d) && NoNeighbours(d) && SameFindings(d, q)
    requires Ascending(other, q) && RankAlike(less, other, d, q, |q|)
    requires |q| <= |d| && d[..|q|] == q
    ensures d == q
  {
    hide NoNeighbours, Level;
    var n := |q|;
    if |d| > n {
      assert d[n] in d;
      var i :| 0 <= i < n && q[i] == d[n];
      if i + 1 < n { assert d[..n][i + 1] == d[i + 1] && other(q[i], q[i + 1]); }
      NoReturn(less, d, q, i, n);
    }
    assert d[..|d|] == d;
  }

  /** Two reports whose elements the orders compare alike are one report. */
  lemma AlikeReports<T(!new)>(less: (T, T) -> bool, other: (T, T) -> bool, a: seq<T>, found: seq<T>)
    requires Weak(less, found) && Orders(other, found) && SameFindings(a, found)
    requires forall x <- Report(other, found), y <- Report(less, a) :: less(x, y) <==> other(x, y)
    ensures Report(less, a) == Report(other, found)
  {
    hide Orders, Ascending, Dedup, Sort, Level, NoNeighbours;
    DistinctReport(other, found);
    SortLevels(less, a);
    SameElements(Sort(less, a), a);
    DedupLevels(less, Sort(less, a));
    var d, q := Dedup(Sort(less, a)), Dedup(Sort(other, found));
    SubsetOrders(other, found, q);
    var n := if |q| > MOST then MOST else |q|;
    assert RankAlike(less, other, d, q, n) by {
      forall i, k | 0 <= i < n && 0 <= k < n && k < |d| ensures less(q[i], d[k]) <==> other(q[i], d[k]) {
        assert FirstOf(q)[i] in FirstOf(q) && FirstOf(d)[k] in FirstOf(d);
      }
    }
    SameBeginning(less, other, d, q, n);
  }

  /** A report comes from the findings, and a short list is reported whole. */
  lemma ReportedFindings<T(!new)>(less: (T, T) -> bool, a: seq<T>, x: T)
    requires Weak(less, a)
    ensures x in Report(less, a) ==> x in a
    ensures |a| <= MOST ==> (x in Report(less, a) <==> x in a)
  {
    hide Sort, Dedup, Level, NoNeighbours;
    SortLevels(less, a);
    SameElements(Sort(less, a), a);
    DedupLevels(less, Sort(less, a));
  }

  lemma AgreeingReports<T(!new)>(less: (T, T) -> bool, other: (T, T) -> bool, a: seq<T>, found: seq<T>)
    requires Weak(less, found) && Orders(other, found) && SameFindings(a, found)
    requires forall x <- Report(other, found), y <- found :: less(x, y) <==> other(x, y)
    ensures Report(less, a) == Report(other, found)
  {
    hide Orders, Weak, Report;
    WeakPart(less, found, a);
    forall y <- Report(less, a) ensures y in found { ReportedFindings(less, a, y); }
    AlikeReports(less, other, a, found);
  }

  lemma NotBelowFirst<T(!new)>(less: (T, T) -> bool, x: T, s: seq<T>, j: nat)
    requires Weak(less, [x] + s) && Level(less, s) && j < |s| && !less(x, s[j])
    ensures !less(x, s[0])
  {
    assert x in [x] + s && s[j] in [x] + s && s[0] in [x] + s;
    if j > 0 { assert !less(s[j], s[0]); }
  }

  /** What is inserted goes behind everything that it is not below. */
  lemma {:induction false} InsertBehind<T(!new)>(less: (T, T) -> bool, x: T, s: seq<T>, j: nat) returns (k: nat, i: nat)
    requires Weak(less, [x] + s) && Level(less, s) && j < |s| && !less(x, s[j])
    ensures k < i < |s| + 1 == |Insert(less, x, s)| && Insert(less, x, s)[k] == s[j] && Insert(less, x, s)[i] == x
  {
    hide Weak, Level, Insert;
    NotBelowFirst(less, x, s, j);
    var tail := s[1..];
    InsertPast(less, x, s);
    WeakPart(less, [x] + s, [x] + tail);
    LevelTail(less, s);
    var r := Insert(less, x, tail);
    if j == 0 {
      assert x in multiset(r);
      i :| 0 <= i < |r| && r[i] == x;
      k, i := 0, i + 1;
    } else {
      k, i := InsertBehind(less, x, tail, j - 1);
      k, i := k + 1, i + 1;
    }
  }

  lemma PartsBelow<T(!new)>(less: (T, T) -> bool, other: (T, T) -> bool, q: seq<T>, s: seq<T>, p: nat, j: nat)
    requires Orders(other, q) && Ascending(other, q) && Level(less, s)
    requires p < |FirstOf(q)| && j < |q| && j != p && less(q[p], q[j]) && !other(q[p], q[j])
    ensures FirstOf(s) != FirstOf(q)
  {
    assert j < p && FirstOf(q)[j] == q[j] && FirstOf(q)[p] == q[p];
    assert p < |FirstOf(s)| ==> FirstOf(s)[j] == s[j] && FirstOf(s)[p] == s[p];
  }

  lemma PartsBehind<T(!new)>(other: (T, T) -> bool, q: seq<T>, s: seq<T>, p: nat, k: nat, i: nat)
    requires Orders(other, q) && Ascending(other, q) && Distinct(s)
    requires p < |FirstOf(q)| && k < i < |s| && s[i] == q[p] && other(q[p], s[k])
    ensures FirstOf(s) != FirstOf(q)
  {
    assert FirstOf(q)[p] == q[p];
    assert p < |FirstOf(s)| ==> FirstOf(s)[p] == s[p];
    if k < p {
      assert FirstOf(q)[k] == q[k] && q[k] in q && q[p] in q;
      assert p < |FirstOf(s)| ==> FirstOf(s)[k] == s[k];
    }
  }

  /** Where the orders differ on a reported element, some order of the findings is reported differently. */
  lemma SomeOrderParts<T(!new)>(less: (T, T) -> bool, other: (T, T) -> bool, found: seq<T>, x: T, y: T)
      returns (a: seq<T>)
    requires Weak(less, found) && Orders(other, found)
    requires x in Report(other, found) && y in found && (less(x, y) <==> !other(x, y))
    ensures SameFindings(a, found) && Report(less, a) != Report(other, found)
  {
    hide Dedup, Sort, Level, Distinct, Ascending, Orders, Weak, Insert;
    var q := Dedup(Sort(other, found));
    DistinctReport(other, found);
    SubsetOrders(other, found, q);
    var p :| 0 <= p < |FirstOf(q)| && FirstOf(q)[p] == x;
    var others := q[..p] + q[p + 1..];
    a := [x] + others;
    Pick(q, p);
    SameElements(a, q);
    DistinctForgetsOrder(q, a);
    WeakPart(less, found, a);
    var s := Sort(less, a);
    DistinctForgetsOrder(a, s);
    DedupDistinct(s);
    if less(x, y) {
      var j :| 0 <= j < |q| && q[j] == y;
      assert j != p by { WeakAt(less, a, x); }
      SortLevels(less, a);
      PartsBelow(less, other, q, s, p, j);
    } else {
      assert y in others by { assert y in a && y != x by { OrdersAt(other, q, x); } }
      var k, i := LatestBehind(less, x, others, y);
      PartsBehind(other, q, s, p, k, i);
    }
  }

  lemma WeakAt<T(!new)>(less: (T, T) -> bool, a: seq<T>, x: T)
    requires Weak(less, a) && x in a
    ensures !less(x, x)
  {
  }

  lemma OrdersAt<T(!new)>(less: (T, T) -> bool, a: seq<T>, x: T)
    requires Orders(less, a) && x in a
    ensures !less(x, x)
  {
  }

  /** The element that comes first before sorting ends up behind those that tie with it. */
  lemma LatestBehind<T(!new)>(less: (T, T) -> bool, x: T, others: seq<T>, y: T) returns (k: nat, i: nat)
    requires Weak(less, [x] + others) && y in others && !less(x, y)
    ensures var s := Sort(less, [x] + others); k < i < |s| && s[k] == y && s[i] == x
  {
    hide Sort, Level, Weak, Insert;
    var rest := Sort(less, others);
    WeakPart(less, [x] + others, others);
    SortLevels(less, others);
    SameElements(rest, others);
    WeakPart(less, [x] + others, [x] + rest);
    var l :| 0 <= l < |rest| && rest[l] == y;
    k, i := InsertBehind(less, x, rest, l);
    SortFirst(less, x, others);
  }

  lemma SortFirst<T>(less: (T, T) -> bool, x: T, s: seq<T>)
    ensures Sort(less, [x] + s) == Insert(less, x, Sort(less, s))
  {
    assert ([x] + s)[1..] == s;
  }

  /** A core that sorts by a weak order reports every order of the findings as one that sorts by a total order does
      exactly when the two orders agree wherever a reported element is compared with a finding. */
  lemma ReportsAgreeExactly<T(!new)>(less: (T, T) -> bool, other: (T, T) -> bool, found: seq<T>)
    requires Weak(less, found) && Orders(other, found)
    ensures (forall a :: SameFindings(a, found) ==> Report(less, a) == Report(other, found))
            <==> (forall x <- Report(other, found), y <- found :: less(x, y) <==> other(x, y))
  {
    hide Orders, Weak, Report;
    if x, y :| x in Report(other, found) && y in found && (less(x, y) <==> !other(x, y)) {
      var a := SomeOrderParts(less, other, found, x, y);
    } else {
      forall a | SameFindings(a, found) ensures Report(less, a) == Report(other, found) {
        AgreeingReports(less, other, a, found);
      }
    }
  }

  /* ----- The two cores' orders ----- */

  /** One text runs on behind the separator, where it compares differently with what follows the other. */
  predicate Strays(a: string, x: string, b: string, y: string) {
    || (a + ['\0'] <= b && !Before(x, b[|a| + 1..] + (['\0'] + y)))
    || (b + ['\0'] <= a && Before(a[|b| + 1..] + (['\0'] + x), y))
  }

  /** Comparing joined texts compares their parts exactly unless they stray. */
  lemma {:induction false} JoinedOrder(a: string, b: string, x: string, y: string)
    ensures (Before(a + (['\0'] + x), b + (['\0'] + y)) <==> Before(a, b) || (a == b && Before(x, y)))
            <==> !Strays(a, x, b, y)
  {
    var s, t := a + (['\0'] + x), b + (['\0'] + y);
    if a == [] || b == [] {
      if a == [] { assert s[0] == '\0' && s[1..] == x; } else {
        assert s[0] == a[0] && s[1..] == a[1..] + (['\0'] + x);
      }
      if b == [] { assert t[0] == '\0' && t[1..] == y; } else {
        assert t[0] == b[0] && t[1..] == b[1..] + (['\0'] + y);
      }
    } else {
      assert s[1..] == a[1..] + (['\0'] + x) && t[1..] == b[1..] + (['\0'] + y);
      JoinedOrder(a[1..], b[1..], x, y);
      StraysTail(a, x, b, y);
      assert a == [a[0]] + a[1..] && b == [b[0]] + b[1..];
    }
  }

  lemma StraysTail(a: string, x: string, b: string, y: string)
    requires a != [] && b != []
    ensures Strays(a, x, b, y) <==> a[0] == b[0] && Strays(a[1..], x, b[1..], y)
  {
    hide Before;
    assert a[1..] + ['\0'] == (a + ['\0'])[1..] && b[1..] + ['\0'] == (b + ['\0'])[1..];
    if a + ['\0'] <= b { assert b[1..][|a[1..]| + 1..] == b[|a| + 1..]; }
    if b + ['\0'] <= a { assert a[1..][|b[1..]| + 1..] == a[|b| + 1..]; }
  }

  /** Where the two cores' orders part: one path is the other followed by NUL and more, and the rest compares
      differently with the other's schema path; or the paths are equal and the same holds of schema path and code. */
  predicate Parted(a: Issue, b: Issue) {
    || Strays(a.instancePath, a.schemaPath + (['\0'] + a.code), b.instancePath, b.schemaPath + (['\0'] + b.code))
    || (a.instancePath == b.instancePath && Strays(a.schemaPath, a.code, b.schemaPath, b.code))
  }

  lemma OrdersPartExactly(a: Issue, b: Issue)
    ensures (GoLess(a, b) <==> RustLess(a, b)) <==> !Parted(a, b)
  {
    hide Before;
    JoinedOrder(a.instancePath, b.instancePath, a.schemaPath + (['\0'] + a.code), b.schemaPath + (['\0'] + b.code));
    JoinedOrder(a.schemaPath, b.schemaPath, a.code, b.code);
    BeforeIrreflexive(a.instancePath);
  }

  /** The message of an issue is made from its code. */
  predicate Keyed(found: seq<Issue>) { forall i <- found :: i.messageKey == "toolgate.validation." + i.code }

  lemma RustOrders(found: seq<Issue>)
    requires Keyed(found)
    ensures Orders(RustLess, found)
  {
    forall x <- found ensures !RustLess(x, x) {
      BeforeIrreflexive(x.instancePath);
      BeforeIrreflexive(x.schemaPath);
      BeforeIrreflexive(x.code);
    }
    forall x <- found, y <- found | x != y ensures RustLess(x, y) || RustLess(y, x) {
      BeforeConnects(x.instancePath, y.instancePath);
      BeforeConnects(x.schemaPath, y.schemaPath);
      BeforeConnects(x.code, y.code);
    }
    forall x <- found, y <- found, z <- found | RustLess(x, y) && RustLess(y, z) ensures RustLess(x, z) {
      RustTransitive(x, y, z);
    }
  }

  lemma RustTransitive(x: Issue, y: Issue, z: Issue)
    requires RustLess(x, y) && RustLess(y, z)
    ensures RustLess(x, z)
  {
    hide Before;
    if Before(x.instancePath, y.instancePath) && Before(y.instancePath, z.instancePath) {
      BeforeTransitive(x.instancePath, y.instancePath, z.instancePath);
    }
    if Before(x.schemaPath, y.schemaPath) && Before(y.schemaPath, z.schemaPath) {
      BeforeTransitive(x.schemaPath, y.schemaPath, z.schemaPath);
    }
    if Before(x.code, y.code) && Before(y.code, z.code) { BeforeTransitive(x.code, y.code, z.code); }
  }

  lemma GoWeak(found: seq<Issue>)
    ensures Weak(GoLess, found)
  {
    hide Before, KeyText;
    forall x <- found ensures !GoLess(x, x) { BeforeIrreflexive(KeyText(x)); }
    forall x <- found, y <- found, z <- found | GoLess(x, y) && GoLess(y, z) ensures GoLess(x, z) {
      BeforeTransitive(KeyText(x), KeyText(y), KeyText(z));
    }
    forall x <- found, y <- found, z <- found | !GoLess(x, y) && !GoLess(y, z) ensures !GoLess(x, z) {
      NotBeforeTransitive(KeyText(x), KeyText(y), KeyText(z));
    }
  }

  lemma NotBeforeTransitive(a: string, b: string, c: string)
    requires !Before(a, b) && !Before(b, c)
    ensures !Before(a, c)
  {
    hide Before;
    BeforeConnects(a, b);
    BeforeConnects(b, c);
    if Before(a, c) {
      if Before(b, a) { BeforeTransitive(b, a, c); }
    }
  }

  /** Whatever the order and number in which their evaluators find the issues, both cores report them alike exactly
      when no reported issue parts from a finding. */
  lemma CoresReportAlikeExactly(found: seq<Issue>)
    requires Keyed(found)
    ensures (forall go :: SameFindings(go, found) ==> Report(GoLess, go) == Report(RustLess, found))
            <==> (forall x <- Report(RustLess, found), y <- found :: !Parted(x, y))
  {
    hide GoLess, RustLess, Orders, Weak, Report, Parted;
    GoWeak(found);
    RustOrders(found);
    ReportsAgreeExactly(GoLess, RustLess, found);
    forall x <- Report(RustLess, found), y <- found ensures (GoLess(x, y) <==> RustLess(x, y)) <==> !Parted(x, y) {
      OrdersPartExactly(x, y);
    }
  }

  /** When no two findings share one text, that decides every single order of the findings. */
  lemma CoresReportOneOrderAlike(go: seq<Issue>, rust: seq<Issue>)
    requires Keyed(rust) && SameFindings(go, rust) && forall x <- rust, y <- rust :: KeyText(x) == KeyText(y) ==> x == y
    ensures Report(GoLess, go) == Report(RustLess, rust)
            <==> (forall x <- Report(RustLess, rust), y <- rust :: !Parted(x, y))
  {
    hide RustLess, Report, Parted, KeyText, Before, Weak, Orders;
    CoresReportAlikeExactly(rust);
    GoWeak(rust);
    forall x <- rust, y <- rust | x != y ensures GoLess(x, y) || GoLess(y, x) {
      BeforeConnects(KeyText(x), KeyText(y));
    }
    assert Orders(GoLess, go) by { TotalOrders(GoLess, rust, go); }
    forall a | SameFindings(a, rust) ensures Report(GoLess, a) == Report(GoLess, go) {
      ReportsAgree(GoLess, GoLess, go, a);
    }
  }

  lemma TotalOrders<T(!new)>(less: (T, T) -> bool, found: seq<T>, a: seq<T>)
    requires Weak(less, found) && SameFindings(a, found) && forall x <- found, y <- found ::
             x != y ==> less(x, y) || less(y, x)
    ensures Orders(less, a)
  {
  }

  /** So for at most 128 findings, exactly when no two of them part. */
  lemma CoresReportFewAlike(found: seq<Issue>)
    requires Keyed(found) && |found| <= MOST
    ensures (forall go :: SameFindings(go, found) ==> Report(GoLess, go) == Report(RustLess, found))
            <==> (forall x <- found, y <- found :: !Parted(x, y))
  {
    hide Orders, Weak, Report, Parted, RustLess;
    CoresReportAlikeExactly(found);
    RustOrders(found);
    OrdersAreWeak(RustLess, found);
    forall x ensures x in Report(RustLess, found) <==> x in found { ReportedFindings(RustLess, found, x); }
  }

  predicate Plain(i: Issue) { '\0' !in i.instancePath && '\0' !in i.schemaPath }

  lemma PlainNeverPart(a: Issue, b: Issue)
    requires Plain(a) && Plain(b)
    ensures !Parted(a, b)
  {
    hide Before;
    PlainNeverStrays(a.instancePath, b.instancePath);
    PlainNeverStrays(a.schemaPath, b.schemaPath);
  }

  lemma PlainNeverStrays(a: string, b: string)
    requires '\0' !in a && '\0' !in b
    ensures !(a + ['\0'] <= b) && !(b + ['\0'] <= a)
  {
    assert (a + ['\0'])[|a|] == '\0' && (b + ['\0'])[|b|] == '\0';
    assert (|a| < |b| ==> b[|a|] in b) && (|b| < |a| ==> a[|b|] in a);
  }

  /** In particular, paths without NUL are reported alike. */
  lemma CoresReportAlike(go: seq<Issue>, rust: seq<Issue>)
    requires Keyed(rust) && (forall i <- rust :: Plain(i)) && (forall i :: i in go <==> i in rust)
    ensures Report(GoLess, go) == Report(RustLess, rust)
  {
    hide Orders, Weak, Report, Parted, Plain;
    CoresReportAlikeExactly(rust);
    RustOrders(rust);
    OrdersAreWeak(RustLess, rust);
    forall x <- Report(RustLess, rust), y <- rust ensures !Parted(x, y) {
      ReportedFindings(RustLess, rust, x);
      PlainNeverPart(x, y);
    }
  }

  /** The database stores no NUL, so a view that reports one is never answered. Where neither core reports one, both
      report the same, whatever else was found. */
  lemma AnsweredReportsAlike(go: seq<Issue>, rust: seq<Issue>)
    requires Keyed(rust) && SameFindings(go, rust)
    requires (forall i <- Report(GoLess, go) :: Plain(i)) && (forall i <- Report(RustLess, rust) :: Plain(i))
    ensures Report(GoLess, go) == Report(RustLess, rust)
  {
    hide GoLess, RustLess, Orders, Weak, Report, Parted, Plain;
    GoWeak(rust);
    RustOrders(rust);
    forall x <- Report(RustLess, rust), y <- Report(GoLess, go) ensures GoLess(x, y) <==> RustLess(x, y) {
      PlainNeverPart(x, y);
      OrdersPartExactly(x, y);
    }
    AlikeReports(GoLess, RustLess, go, rust);
  }

  /** With NUL in an instance key two type errors are reported in different orders: one under a declared property
      "x", the other under a further key that begins with "x" and NUL. */
  lemma SeparatorInPath()
    ensures var a := Issue("type", "/x", "#/properties/x/type", "toolgate.validation.type");
            var b := Issue("type", "/x\0!", "#/additionalProperties/type", "toolgate.validation.type");
            Parted(a, b) && Report(RustLess, [a, b]) == [a, b] && Report(GoLess, [a, b]) == [b, a]
  {
    hide RustLess, GoLess, Parted;
    var a := Issue("type", "/x", "#/properties/x/type", "toolgate.validation.type");
    var b := Issue("type", "/x\0!", "#/additionalProperties/type", "toolgate.validation.type");
    KeysOfOneBeginning(a, b);
    OrdersPartExactly(a, b);
    ReportOfTwo(RustLess, a, b);
    ReportOfTwo(GoLess, a, b);
  }

  lemma KeysOfOneBeginning(a: Issue, b: Issue)
    requires a.instancePath == "/x" && b.instancePath == "/x\0!" && a.schemaPath != "" && a.schemaPath[0] == '#'
    ensures RustLess(a, b) && Parted(a, b)
  {
    var x, y := a.schemaPath + (['\0'] + a.code), b.schemaPath + (['\0'] + b.code);
    assert "/x" + ['\0'] <= "/x\0!" && "/x\0!"[3..] == "!";
    assert x[0] == '#' && ("!" + (['\0'] + y))[0] == '!';
    assert "/x"[1..] == "x" && "/x\0!"[1..] == "x\0!" && "x"[1..] == "" && "x\0!"[1..] == "\0!";
  }

  lemma ReportOfTwo<T>(less: (T, T) -> bool, a: T, b: T)
    requires a != b
    ensures Report(less, [a, b]) == if less(a, b) then [a, b] else [b, a]
  {
    hide Sort, Dedup;
    SortFirst(less, a, [b]);
    SortFirst(less, b, []);
    assert [b] + [] == [b] && [a] + [b] == [a, b];
    assert |Sort(less, [])| == 0;
    assert Sort(less, [b]) == Insert(less, b, []) == [b];
    assert Insert(less, a, [b]) == if less(a, b) then [a] + [b] else [b] + [a];
    assert Sort(less, [a, b]) == Insert(less, a, [b]);
    assert [b] + [a] == [b, a];
    DedupOfTwo(a, b);
    DedupOfTwo(b, a);
  }

  lemma DedupOfTwo<T>(a: T, b: T)
    requires a != b
    ensures Dedup([a, b]) == [a, b]
  {
    assert [a, b][..1] == [a];
  }

  /* ----- Missing paths ----- */

  /** The Go core keeps repeated missing paths, the Rust core does not; they agree exactly when the first 128 in
      order repeat nothing. */
  lemma MissingAgreesExactly(missing: seq<string>)
    ensures FirstOf(Sort(Before, missing)) == Report(Before, missing) <==> Distinct(FirstOf(Sort(Before, missing)))
  {
    hide Orders, Before, Sort, Ascending;
    StringsOrder(missing);
    DistinctReport(Before, missing);
    var s := Sort(Before, missing);
    if Distinct(FirstOf(s)) {
      if |s| <= MOST { DedupDistinct(s); } else { DedupPrefix(s, MOST); DedupDistinct(s[..MOST]); }
    }
  }

  /** So for at most 128 missing paths, exactly when none repeats. */
  lemma FewMissingAgreeExactly(missing: seq<string>)
    requires |missing| <= MOST
    ensures FirstOf(Sort(Before, missing)) == Report(Before, missing) <==> Distinct(missing)
  {
    hide Before, Sort, Distinct, Report;
    MissingAgreesExactly(missing);
    if Distinct(missing) {
      DistinctForgetsOrder(missing, Sort(Before, missing));
    } else if Distinct(Sort(Before, missing)) {
      DistinctForgetsOrder(Sort(Before, missing), missing);
    }
  }

  /** Two branches of an `allOf` that both require "a" part the cores. */
  lemma BothBranchesMiss()
    ensures FirstOf(Sort(Before, ["/a", "/a"])) == ["/a", "/a"] && Report(Before, ["/a", "/a"]) == ["/a"]
  {
    var s := ["/a", "/a"];
    assert s[1..] == ["/a"] && ["/a"][1..] == [] && s[..1] == ["/a"];
    assert Sort(Before, ["/a"]) == ["/a"];
    assert Sort(Before, s) == s;
  }

  lemma StringsOrder(s: seq<string>)
    ensures Orders(Before, s)
  {
    forall x <- s ensures !Before(x, x) { BeforeIrreflexive(x); }
    forall x <- s, y <- s | x != y ensures Before(x, y) || Before(y, x) { BeforeConnects(x, y); }
    forall x <- s, y <- s, z <- s | Before(x, y) && Before(y, z) ensures Before(x, z) { BeforeTransitive(x, y, z); }
  }

  lemma {:induction false} DedupDistinct<T>(s: seq<T>)
    requires Distinct(s)
    ensures Dedup(s) == s
  {
    if |s| >= 2 {
      DedupDistinct(s[..|s| - 1]);
      assert s == s[..|s| - 1] + [s[|s| - 1]];
    }
  }

  /** Removing repeats from a longer list starts with removing them from its beginning. */
  lemma {:induction false} DedupPrefix<T>(s: seq<T>, n: nat)
    requires n <= |s|
    ensures Dedup(s[..n]) <= Dedup(s)
  {
    if n < |s| && |s| >= 2 {
      assert s[..|s| - 1][..n] == s[..n];
      DedupPrefix(s[..|s| - 1], n);
    } else {
      assert n == |s| ==> s[..n] == s;
    }
  }
}
