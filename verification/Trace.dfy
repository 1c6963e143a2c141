/** The workflow trace that the core puts in a response header and the SDK decodes. */
module Trace {
  import opened Wire
  import opened Sorting
  import opened Retrieval
  import opened Workflow
  import opened WireJson
  import opened WireGrammar

  datatype WorkflowTrace = WorkflowTrace(version: Text, retrieved: seq<nat>, included: Option<seq<nat>>,
                                         exposed: Option<seq<nat>>)

  /* ----- Writing ----- */

  /** The first catalog position of an identifier, if any. */
  function IndexOf(catalog: seq<Tool>, id: string, from: nat): seq<nat>
    decreases |catalog| - from
  {
    if from >= |catalog| then [] else if catalog[from].id == id then [from] else IndexOf(catalog, id, from + 1)
  }

  function IndexIn(catalog: seq<Tool>): Tool -> seq<nat> { (t: Tool) => IndexOf(catalog, t.id, 0) }

  function CatalogIndices(catalog: seq<Tool>, subset: seq<Tool>): seq<nat> { Gather(IndexIn(catalog), subset) }

  method FindIndices(catalog: seq<Tool>, subset: seq<Tool>) returns (out: seq<nat>)
    ensures out == CatalogIndices(catalog, subset)
  {
    out := [];
    for n := 0 to |subset|
      invariant out == CatalogIndices(catalog, subset[..n])
    {
      ghost var before := out;
      for i := 0 to |catalog|
        invariant out == before && IndexOf(catalog, subset[n].id, 0) == IndexOf(catalog, subset[n].id, i)
      {
        if catalog[i].id == subset[n].id {
          out := out + [i];
          break;
        }
      }
      assert out == before + IndexIn(catalog)(subset[n]);
      assert subset[..n + 1] == subset[..n] + [subset[n]];
    }
    assert subset[..|subset|] == subset;
  }

  /** What the core emits; nothing is selected when the selector failed. */
  function Emit(version: Text, catalog: seq<Tool>, candidates: seq<Tool>, selected: Option<seq<Tool>>,
                limit: nat): WorkflowTrace {
    WorkflowTrace(version, CatalogIndices(catalog, candidates),
                  if selected.Some? then Some(CatalogIndices(catalog, Expose(selected.value, 0))) else None,
                  if selected.Some? then Some(CatalogIndices(catalog, Expose(selected.value, limit))) else None)
  }

  function Ascii(s: string): (t: Text)
    ensures |t| == |s|
  {
    seq(|s|, i requires 0 <= i < |s| => (s[i] as int % 0x1_0000) as Unit)
  }

  const VERSION: Text := Ascii("catalog_version")
  const RETRIEVED: Text := Ascii("retrieved")
  const INCLUDED: Text := Ascii("included")
  const EXPOSED: Text := Ascii("exposed")

  function Numbers(s: seq<nat>): Json { Arr(seq(|s|, i requires 0 <= i < |s| => Num(s[i] as real))) }

  function NumbersOrNull(s: Option<seq<nat>>): Json { if s.Some? then Numbers(s.value) else Null }

  function TraceJson(t: WorkflowTrace): Json {
    Obj([Member(VERSION, Str(t.version)), Member(RETRIEVED, Numbers(t.retrieved)),
         Member(INCLUDED, NumbersOrNull(t.included)), Member(EXPOSED, NumbersOrNull(t.exposed))])
  }

  /* ----- Reading ----- */

  function Get(members: seq<Member>, key: Text): Option<Json> {
    if members == [] then None else if members[0].key == key then Some(members[0].value) else Get(members[1..], key)
  }

  predicate IsVersion(t: Text) { |t| == 64 && forall u <- t :: IsDigit(u) || 97 <= u <= 102 }

  predicate IsIndex(v: Json) { v.Num? && v.n.Floor as real == v.n && 0.0 <= v.n < 10000.0 }

  predicate IsIndices(v: Json) {
    && v.Arr? && |v.items| <= 64 && (forall i :: 0 <= i < |v.items| ==> IsIndex(v.items[i]))
    && (forall i, j :: 0 <= i < j < |v.items| ==> v.items[i] != v.items[j])
  }

  function Indices(v: Json): seq<nat>
    requires IsIndices(v)
  {
    seq(|v.items|, i requires 0 <= i < |v.items| => v.items[i].n.Floor)
  }

  predicate Within(a: seq<nat>, b: seq<nat>) { forall x <- a :: x in b }

  function DecodeFields(version: Json, retrieved: Json, included: Json, exposed: Json): Option<WorkflowTrace> {
    if !version.Str? || !IsVersion(version.s) || !IsIndices(retrieved) then None
    else if included.Null? then
      if exposed.Null? then Some(WorkflowTrace(version.s, Indices(retrieved), None, None)) else None
    else if !IsIndices(included) || !IsIndices(exposed) || |exposed.items| > 8
            || !Within(Indices(included), Indices(retrieved)) || !Within(Indices(exposed), Indices(included)) then None
    else Some(WorkflowTrace(version.s, Indices(retrieved), Some(Indices(included)), Some(Indices(exposed))))
  }

  function DecodeValue(v: Json): Option<WorkflowTrace> {
    if !v.Obj? || KeysOf(v.members) != {VERSION, RETRIEVED, INCLUDED, EXPOSED} then None
    else match (Get(v.members, VERSION), Get(v.members, RETRIEVED), Get(v.members, INCLUDED), Get(v.members, EXPOSED))
      case (Some(version), Some(retrieved), Some(included), Some(exposed)) =>
        DecodeFields(version, retrieved, included, exposed)
      case _ => None
  }

  /** `parse` is the platform's JSON.parse; anything malformed reads as unknown. */
  function Decode(parse: Text -> Option<Json>, raw: Text): Option<WorkflowTrace> {
    if |raw| > 4096 then None else match parse(raw) case Some(v) => DecodeValue(v) case None => None
  }

  /* ----- What survives ----- */

  predicate DistinctNats(s: seq<nat>) { forall i, j :: 0 <= i < j < |s| ==> s[i] != s[j] }

  predicate Bounded(s: seq<nat>) { |s| <= 64 && DistinctNats(s) && forall x <- s :: x < 10000 }

  /** The traces that mean something. */
  predicate ValidTrace(t: WorkflowTrace) {
    && IsVersion(t.version) && Bounded(t.retrieved)
    && (t.included.None? <==> t.exposed.None?)
    && (t.included.Some? ==>
          && Bounded(t.included.value) && Bounded(t.exposed.value) && |t.exposed.value| <= 8
          && Within(t.included.value, t.retrieved) && Within(t.exposed.value, t.included.value))
  }

  lemma NumbersRead(s: seq<nat>)
    ensures IsIndices(Numbers(s)) <==> Bounded(s)
    ensures Bounded(s) ==> Indices(Numbers(s)) == s
  {
    var v := Numbers(s);
    forall i | 0 <= i < |s| ensures v.items[i] == Num(s[i] as real) && (IsIndex(v.items[i]) <==> s[i] < 10000) {
      assert (s[i] as real).Floor == s[i];
    }
    if IsIndices(v) {
      forall i, j | 0 <= i < j < |s| ensures s[i] != s[j] { assert v.items[i] != v.items[j]; }
      forall x <- s ensures x < 10000 {
        var i :| 0 <= i < |s| && s[i] == x;
        assert IsIndex(v.items[i]);
      }
    }
    if Bounded(s) {
      forall i | 0 <= i < |s| ensures IsIndex(v.items[i]) { assert s[i] in s; }
      forall i, j | 0 <= i < j < |s| ensures v.items[i] != v.items[j] { assert s[i] != s[j]; }
      assert Indices(v) == s;
    }
  }

  /** The decoder returns a written trace unchanged exactly when it is valid, and otherwise nothing. */
  lemma DecodesExactly(t: WorkflowTrace)
    ensures DecodeValue(TraceJson(t)) == if ValidTrace(t) then Some(t) else None
  {
    hide DecodeFields, ValidTrace, Numbers, NumbersOrNull;
    var members := TraceJson(t).members;
    assert members[1..][0] == members[1] && members[1..][1..][0] == members[2]
           && members[1..][1..][1..][0] == members[3];
    assert Get(members, VERSION) == Some(Str(t.version));
    assert Get(members, RETRIEVED) == Some(Numbers(t.retrieved));
    assert Get(members[1..], INCLUDED) == Get(members[1..][1..], INCLUDED);
    assert Get(members, INCLUDED) == Some(NumbersOrNull(t.included));
    assert Get(members[1..], EXPOSED) == Get(members[1..][1..][1..], EXPOSED);
    assert Get(members, EXPOSED) == Some(NumbersOrNull(t.exposed));
    FieldsRead(t);
  }

  lemma FieldsRead(t: WorkflowTrace)
    ensures DecodeFields(Str(t.version), Numbers(t.retrieved), NumbersOrNull(t.included), NumbersOrNull(t.exposed)) ==
            if ValidTrace(t) then Some(t) else None
  {
    hide IsIndices, Bounded, Indices, Numbers, Within, IsVersion;
    NumbersRead(t.retrieved);
    if t.included.Some? { NumbersRead(t.included.value); NumbersAreArrays(t.included.value); }
    if t.exposed.Some? { NumbersRead(t.exposed.value); NumbersAreArrays(t.exposed.value); }
    NullIsNoArray();
  }

  lemma NullIsNoArray()
    ensures !IsIndices(Null)
  {
  }

  lemma NumbersAreArrays(s: seq<nat>)
    ensures Numbers(s).Arr? && |Numbers(s).items| == |s|
  {
  }

  /* ----- What the core emits is valid ----- */

  lemma {:induction false} IndexFound(catalog: seq<Tool>, i: nat, from: nat)
    requires DistinctTools(catalog) && from <= i < |catalog|
    ensures IndexOf(catalog, catalog[i].id, from) == [i]
    decreases i - from
  {
    if from < i {
      assert catalog[from].id != catalog[i].id;
      IndexFound(catalog, i, from + 1);
    }
  }

  /** Indices name the tools they were taken from, one for one. */
  lemma {:induction false} IndicesName(catalog: seq<Tool>, subset: seq<Tool>)
    requires DistinctTools(catalog) && forall t <- subset :: t in catalog
    ensures var s := CatalogIndices(catalog, subset);
            |s| == |subset| && forall k :: 0 <= k < |s| ==> s[k] < |catalog| && catalog[s[k]] == subset[k]
  {
    hide IndexOf;
    if subset != [] {
      var front, last := subset[..|subset| - 1], subset[|subset| - 1];
      assert subset == front + [last];
      IndicesName(catalog, front);
      assert last in subset;
      var i :| 0 <= i < |catalog| && catalog[i] == last;
      IndexFound(catalog, i, 0);
    }
  }

  lemma IndicesBounded(catalog: seq<Tool>, subset: seq<Tool>)
    requires DistinctTools(catalog) && |catalog| <= 10000 && (forall t <- subset :: t in catalog)
    requires DistinctTools(subset) && |subset| <= 64
    ensures Bounded(CatalogIndices(catalog, subset))
  {
    IndicesName(catalog, subset);
    var s := CatalogIndices(catalog, subset);
    forall i, j | 0 <= i < j < |s| ensures s[i] != s[j] { assert subset[i].id != subset[j].id; }
  }

  lemma IndicesWithin(catalog: seq<Tool>, a: seq<Tool>, b: seq<Tool>)
    requires DistinctTools(catalog) && (forall t <- b :: t in catalog) && (forall t <- a :: t in b)
    ensures Within(CatalogIndices(catalog, a), CatalogIndices(catalog, b))
  {
    IndicesName(catalog, a);
    IndicesName(catalog, b);
    var s, r := CatalogIndices(catalog, a), CatalogIndices(catalog, b);
    forall x <- s ensures x in r {
      var k :| 0 <= k < |s| && s[k] == x;
      assert a[k] in b;
      var n :| 0 <= n < |b| && b[n] == a[k];
      assert catalog[r[n]] == catalog[s[k]];
      assert r[n] == s[k];
    }
  }

  lemma ToolsFit(a: seq<Tool>, b: seq<Tool>)
    requires DistinctTools(a) && forall t <- a :: t in b
    ensures |a| <= |b|
  {
    ToolsOrder(a);
    DistinctFits(a, b);
  }

  /** Exposed tools are among the selected ones, each once. */
  lemma ExposedAmong(selected: seq<Tool>, limit: nat)
    requires DistinctTools(selected)
    ensures var e := Expose(selected, limit);
            && DistinctTools(e) && |e| == (if 0 < limit < |selected| then limit else |selected|)
            && (forall t <- e :: t in Expose(selected, 0)) && (forall t <- Expose(selected, 0) :: t in selected)
  {
    hide ById;
    FewAreAll(selected);
  }

  lemma EmittedBounded(version: Text, catalog: seq<Tool>, candidates: seq<Tool>, selected: Option<seq<Tool>>,
                       limit: nat)
    requires DistinctTools(catalog) && |catalog| <= 10000
    requires DistinctTools(candidates) && |candidates| <= MOST && forall t <- candidates :: t in catalog
    requires selected.Some? ==> DistinctTools(selected.value) && forall t <- selected.value :: t in candidates
    ensures var t := Emit(version, catalog, candidates, selected, limit);
            Bounded(t.retrieved) && (t.included.Some? ==> Bounded(t.included.value))
                && (t.exposed.Some? ==> Bounded(t.exposed.value))
  {
    hide DistinctTools, Bounded, CatalogIndices, Expose;
    IndicesBounded(catalog, candidates);
    if selected.Some? {
      ToolsFit(selected.value, candidates);
      ExposedAmong(selected.value, 0);
      ExposedAmong(selected.value, limit);
      IndicesBounded(catalog, Expose(selected.value, 0));
      IndicesBounded(catalog, Expose(selected.value, limit));
    }
  }

  /** A trace tells the candidates by their catalog positions, then all selected tools in the order of their
      identifiers, then the first of those, as many as the cap allows; neither of these two if the selector failed. */
  lemma EmitsExactly(version: Text, catalog: seq<Tool>, candidates: seq<Tool>, selected: Option<seq<Tool>>, limit: nat)
    requires DistinctTools(catalog) && forall t <- candidates :: t in catalog
    requires selected.Some? ==> DistinctTools(selected.value) && forall t <- selected.value :: t in candidates
    ensures var t := Emit(version, catalog, candidates, selected, limit);
            && t.version == version && Names(catalog, t.retrieved, candidates)
            && (t.included.Some? <==> selected.Some?) && (t.exposed.Some? <==> selected.Some?)
            && (selected.Some? ==>
                  var s, all := selected.value, t.included.value;
                  && |all| == |s| && (forall i <- all :: i < |catalog| && catalog[i] in s)
                  && (forall i, j :: 0 <= i < j < |all| ==> all[i] < |catalog| && all[j] < |catalog|
                                                            && Before(catalog[all[i]].id, catalog[all[j]].id))
                  && t.exposed.value == if 0 < limit < |s| then all[..limit] else all)
  {
    hide DistinctTools, CatalogIndices, Expose;
    IndicesName(catalog, candidates);
    if selected.Some? {
      var s := selected.value;
      var e := Expose(s, 0);
      ExposesTheFirst(s, 0);
      assert forall x <- e :: x in catalog;
      IndicesName(catalog, e);
      ExposedPrefix(s, limit);
      IndicesCut(catalog, e, if 0 < limit < |s| then limit else |s|);
      var all := CatalogIndices(catalog, e);
      forall i <- all ensures i < |catalog| && catalog[i] in s {
        var k :| 0 <= k < |all| && all[k] == i;
        assert e[k] in e;
      }
    }
  }

  predicate Names(catalog: seq<Tool>, indices: seq<nat>, tools: seq<Tool>) {
    |indices| == |tools| && forall k :: 0 <= k < |indices| ==> indices[k] < |catalog| && catalog[indices[k]] == tools[k]
  }

  lemma ExposedPrefix(selected: seq<Tool>, limit: nat)
    requires DistinctTools(selected)
    ensures Expose(selected, limit) == Expose(selected, 0)[..if 0 < limit < |selected| then limit else |selected|]
    ensures |Expose(selected, 0)| == |selected|
  {
    hide Sort, DistinctTools;
    ExposesTheFirst(selected, 0);
  }

  lemma {:induction false} IndicesCut(catalog: seq<Tool>, tools: seq<Tool>, n: nat)
    requires DistinctTools(catalog) && (forall t <- tools :: t in catalog) && n <= |tools|
    ensures |CatalogIndices(catalog, tools)| == |tools|
    ensures CatalogIndices(catalog, tools[..n]) == CatalogIndices(catalog, tools)[..n]
  {
    IndicesName(catalog, tools);
    IndicesName(catalog, tools[..n]);
    var s, r := CatalogIndices(catalog, tools), CatalogIndices(catalog, tools[..n]);
    forall k | 0 <= k < n ensures r[k] == s[k] { assert catalog[r[k]] == catalog[s[k]]; }
  }

  /** Every emitted trace is valid exactly when at most eight tools are exposed, which any cap up to eight ensures. */
  lemma EmittedIsValid(version: Text, catalog: seq<Tool>, candidates: seq<Tool>, selected: Option<seq<Tool>>,
                       limit: nat)
    requires IsVersion(version) && DistinctTools(catalog) && |catalog| <= 10000
    requires DistinctTools(candidates) && |candidates| <= MOST && forall t <- candidates :: t in catalog
    requires selected.Some? ==> DistinctTools(selected.value) && forall t <- selected.value :: t in candidates
    ensures ValidTrace(Emit(version, catalog, candidates, selected, limit))
            <==> (selected.Some? ==> |Expose(selected.value, limit)| <= 8)
    ensures 0 < limit <= 8 ==> ValidTrace(Emit(version, catalog, candidates, selected, limit))
  {
    hide Expose, DistinctTools, Bounded, Within, CatalogIndices, IsVersion;
    EmittedBounded(version, catalog, candidates, selected, limit);
    if selected.Some? {
      var all, exposed := Expose(selected.value, 0), Expose(selected.value, limit);
      ExposedAmong(selected.value, 0);
      ExposedAmong(selected.value, limit);
      IndicesName(catalog, exposed);
      IndicesWithin(catalog, all, candidates);
      IndicesWithin(catalog, exposed, all);
    }
  }

  /* ----- Its text is short ----- */

  function Decimal(n: nat): Text {
    if n < 10 then [(48 + n) as Unit] else Decimal(n / 10) + [(48 + n % 10) as Unit]
  }

  /** Small integers print as their decimal digits. */
  ghost predicate PrintsDecimals(c: Codec) { forall n: nat :: n < 10000 ==> c.show(n as real) == Decimal(n) }

  lemma DecimalIsShort(n: nat)
    requires n < 10000
    ensures 1 <= |Decimal(n)| <= 4
  {
    var a := n / 10;
    var b := a / 10;
    var d := b / 10;
    assert |Decimal(d)| == 1;
    assert |Decimal(b)| <= 2;
    assert |Decimal(a)| <= 3;
  }

  predicate Short(c: Codec, v: Json) { v.Num? && |c.show(v.n)| <= 4 }

  lemma {:induction false} ItemsAreShort(c: Codec, items: seq<Json>)
    requires items != [] && forall v <- items :: Short(c, v)
    ensures |YieldItems(PrintItems(c, items))| <= 5 * |items|
  {
    assert items[0] in items && PrintItems(c, items)[1..] == PrintItems(c, items[1..]);
    var first := PrintItems(c, items)[0];
    assert first == Item(Number([], c.show(items[0].n)), []);
    assert |Yield(first.value)| <= 4;
    if |items| > 1 { ItemsAreShort(c, items[1..]); }
  }

  lemma NumbersAreShort(c: Codec, s: seq<nat>)
    requires PrintsDecimals(c) && Bounded(s)
    ensures |Yield(PrintTree(c, Numbers(s)))| <= 2 + 5 * |s|
  {
    hide YieldItems, Decimal;
    var items := Numbers(s).items;
    forall v <- items ensures Short(c, v) {
      var i :| 0 <= i < |items| && items[i] == v;
      assert s[i] in s;
      DecimalIsShort(s[i]);
    }
    if s != [] { ItemsAreShort(c, items); }
  }

  lemma FieldIsShort(c: Codec, s: Option<seq<nat>>)
    requires PrintsDecimals(c) && (s.Some? ==> Bounded(s.value))
    ensures |Yield(PrintTree(c, NumbersOrNull(s)))| <= 400
  {
    hide Numbers;
    if s.Some? { NumbersAreShort(c, s.value); }
  }

  lemma {:induction false} EscapeLength(t: Text)
    ensures |Escape(t)| <= 6 * |t|
  {
    hide HexDigit;
    if t == [] {
    } else if |t| > 1 && Leading(t[0]) && Trailing(t[1]) {
      EscapeLength(t[2..]);
    } else {
      EscapeLength(t[1..]);
    }
  }

  lemma TraceIsShort(c: Codec, t: WorkflowTrace)
    requires PrintsDecimals(c) && IsVersion(t.version) && Bounded(t.retrieved)
    requires (t.included.Some? ==> Bounded(t.included.value)) && (t.exposed.Some? ==> Bounded(t.exposed.value))
    ensures |Print(c, TraceJson(t))| <= 2000
  {
    hide Escape, Bounded, Numbers, NumbersOrNull, YieldPair, YieldPairs, YieldItems, PrintPairs, Print;
    FieldIsShort(c, Some(t.retrieved));
    assert NumbersOrNull(Some(t.retrieved)) == Numbers(t.retrieved) by { NumbersOrNullOf(t.retrieved); }
    FieldIsShort(c, t.included);
    FieldIsShort(c, t.exposed);
    EscapeLength(t.version);
    EscapeLength(VERSION);
    EscapeLength(RETRIEVED);
    EscapeLength(INCLUDED);
    EscapeLength(EXPOSED);
    FourPairs(c, TraceJson(t).members);
  }

  lemma NumbersOrNullOf(s: seq<nat>)
    ensures NumbersOrNull(Some(s)) == Numbers(s)
  {
  }

  /** The text of an object of four members. */
  lemma FourPairs(c: Codec, members: seq<Member>)
    requires |members| == 4
    ensures |Print(c, Obj(members))| ==
            17 + |Escape(members[0].key)| + |Escape(members[1].key)|
            + |Escape(members[2].key)| + |Escape(members[3].key)|
            + |Yield(PrintTree(c, members[0].value))| + |Yield(PrintTree(c, members[1].value))|
            + |Yield(PrintTree(c, members[2].value))| + |Yield(PrintTree(c, members[3].value))|
  {
    hide Escape, YieldPair, Yield, PrintTree, Print;
    var m1, m2, m3 := members[1..], members[1..][1..], members[1..][1..][1..];
    assert m1[0] == members[1] && m2[0] == members[2] && m3[0] == members[3] && m3[1..] == [];
    var p, q, r, s := PrintPairs(c, members), PrintPairs(c, m1), PrintPairs(c, m2), PrintPairs(c, m3);
    assert p[1..] == q && q[1..] == r && r[1..] == s;
    OnePair(c, m3);
    assert |YieldPairs(s)| == |YieldPair(s[0])| + 1;
    OnePair(c, m2);
    assert |YieldPairs(r)| == |YieldPair(r[0])| + 1 + |YieldPairs(s)|;
    OnePair(c, m1);
    assert |YieldPairs(q)| == |YieldPair(q[0])| + 1 + |YieldPairs(r)|;
    OnePair(c, members);
    assert |YieldPairs(p)| == |YieldPair(p[0])| + 1 + |YieldPairs(q)|;
    ObjectLength(c, members);
  }

  lemma OnePair(c: Codec, members: seq<Member>)
    requires members != []
    ensures |YieldPair(PrintPairs(c, members)[0])| ==
            3 + |Escape(members[0].key)| + |Yield(PrintTree(c, members[0].value))|
  {
    hide Escape, Yield, PrintTree;
  }

  lemma ObjectLength(c: Codec, members: seq<Member>)
    requires members != []
    ensures |Print(c, Obj(members))| == 1 + |YieldPairs(PrintPairs(c, members))|
  {
    hide YieldPairs, PrintPairs;
    var tree := Object([], [], PrintPairs(c, members));
    assert PrintTree(c, Obj(members)) == tree && tree.pairs != [];
    assert Core(tree) == [OPEN_OBJECT] + YieldPairs(tree.pairs);
  }

  /* ----- Through any parser of the grammar ----- */

  /** Small integers also read back from their digits. */
  ghost predicate ReadsDecimals(c: Codec) { forall n: nat :: n < 10000 ==> c.read(Decimal(n)) == Some(n as real) }

  lemma {:induction false} DigitsOf(n: nat)
    ensures Decimal(n) != [] && (forall u <- Decimal(n) :: IsDigit(u)) && (n > 0 ==> Decimal(n)[0] != 48)
  {
    if n >= 10 { DigitsOf(n / 10); }
  }

  lemma {:induction false} AllDigits(t: Text)
    requires forall u <- t :: IsDigit(u)
    ensures DigitRun(t) == |t|
  {
    if t != [] { AllDigits(t[1..]); }
  }

  lemma DecimalIsNumber(n: nat)
    ensures IsNumber(Decimal(n))
  {
    var t := Decimal(n);
    DigitsOf(n);
    AllDigits(t);
    if n == 0 { assert t == [48]; }
    assert t[|t|..] == [];
  }

  lemma NumbersTravel(cfg: Config, s: seq<nat>, depth: nat)
    requires PrintsDecimals(cfg.codec) && ReadsDecimals(cfg.codec) && Bounded(s) && cfg.maxArray >= 64
             && depth < MAX_DEPTH
    ensures Native(cfg.codec, Numbers(s)) && Sendable(Numbers(s), Limits(cfg.maxArray, MAX_PROPERTIES), depth)
  {
    var items := Numbers(s).items;
    forall i | 0 <= i < |items|
      ensures Native(cfg.codec, items[i]) && Sendable(items[i], Limits(cfg.maxArray, MAX_PROPERTIES), depth + 1)
    {
      assert s[i] in s;
      DecimalIsNumber(s[i]);
      assert (s[i] as real).Floor == s[i];
    }
  }

  lemma FieldTravels(cfg: Config, s: Option<seq<nat>>, depth: nat)
    requires PrintsDecimals(cfg.codec) && ReadsDecimals(cfg.codec) && (s.Some? ==> Bounded(s.value))
    requires cfg.maxArray >= 64 && depth < MAX_DEPTH
    ensures Native(cfg.codec, NumbersOrNull(s))
            && Sendable(NumbersOrNull(s), Limits(cfg.maxArray, MAX_PROPERTIES), depth)
  {
    if s.Some? { NumbersTravel(cfg, s.value, depth); }
  }

  lemma TraceKeys()
    ensures VERSION !in DANGEROUS && RETRIEVED !in DANGEROUS && INCLUDED !in DANGEROUS && EXPOSED !in DANGEROUS
    ensures |VERSION| == 15 && |RETRIEVED| == 9 && |INCLUDED| == 8 && |EXPOSED| == 7
  {
    assert RETRIEVED[0] == 114;
  }

  /** A parser that reads every grammatical text as the value it spells, as the platform's own parser does. */
  ghost predicate Conforms(cfg: Config, parse: Text -> Option<Json>) {
    forall tree :: Grammatical(cfg, tree, 0) ==> parse(Yield(tree)) == Some(ValueOf(cfg.codec, tree))
  }

  lemma BoundedConforms(cfg: Config)
    ensures Conforms(cfg, (raw: Text) => Parse(cfg, raw))
  {
    hide Grammatical, Yield, ValueOf, ParseValue;
    forall tree | Grammatical(cfg, tree, 0) ensures Parse(cfg, Yield(tree)) == Some(ValueOf(cfg.codec, tree)) {
      ValueParses(cfg, tree, 0, []);
      assert Yield(tree) + [] == Yield(tree);
    }
  }

  /** Such a parser reads back every trace with bounded indices. */
  lemma TraceParses(cfg: Config, parse: Text -> Option<Json>, t: WorkflowTrace)
    requires Conforms(cfg, parse)
    requires PrintsDecimals(cfg.codec) && ReadsDecimals(cfg.codec) && cfg.maxArray >= 64 && Bounded(t.retrieved)
    requires (t.included.Some? ==> Bounded(t.included.value)) && (t.exposed.Some? ==> Bounded(t.exposed.value))
    ensures parse(Print(cfg.codec, TraceJson(t))) == Some(TraceJson(t))
  {
    hide Numbers, NumbersOrNull, Bounded, PrintsDecimals, ReadsDecimals, Grammatical, Yield, ValueOf, PrintTree,
         VERSION, RETRIEVED, INCLUDED, EXPOSED, DANGEROUS;
    TraceKeys();
    FieldTravels(cfg, Some(t.retrieved), 1);
    NumbersOrNullOf(t.retrieved);
    FieldTravels(cfg, t.included, 1);
    FieldTravels(cfg, t.exposed, 1);
    PrintsGrammatically(cfg, TraceJson(t), 0);
  }

  /** The SDK reads back every trace the core emits, unchanged, exactly when at most eight tools are exposed; under the
      caps the SDK offers, none of which exceeds eight, it always does. */
  lemma TraceSurvives(cfg: Config, parse: Text -> Option<Json>, version: Text, catalog: seq<Tool>,
                      candidates: seq<Tool>,
                      selected: Option<seq<Tool>>, limit: nat)
    requires Conforms(cfg, parse) && PrintsDecimals(cfg.codec) && ReadsDecimals(cfg.codec) && cfg.maxArray >= 64
    requires IsVersion(version) && DistinctTools(catalog) && |catalog| <= 10000
    requires DistinctTools(candidates) && |candidates| <= MOST && forall t <- candidates :: t in catalog
    requires selected.Some? ==> DistinctTools(selected.value) && forall t <- selected.value :: t in candidates
    ensures var t := Emit(version, catalog, candidates, selected, limit);
            && (Decode(parse, Print(cfg.codec, TraceJson(t))) == Some(t)
                <==> (selected.Some? ==> |Expose(selected.value, limit)| <= 8))
            && (0 < limit <= 8 ==> Decode(parse, Print(cfg.codec, TraceJson(t))) == Some(t))
  {
    hide DistinctTools, IsVersion, Print, DecodeValue, ValidTrace, Bounded, CatalogIndices, Expose, PrintsDecimals,
         ReadsDecimals, Conforms;
    var t := Emit(version, catalog, candidates, selected, limit);
    EmittedIsValid(version, catalog, candidates, selected, limit);
    DecodesExactly(t);
    EmittedBounded(version, catalog, candidates, selected, limit);
    TraceIsShort(cfg.codec, t);
    TraceParses(cfg, parse, t);
  }
}
