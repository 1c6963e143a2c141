/** Tool selection: retrieval, the closed-distribution check, the single-Choice profile and the
    order-insensitive reduction of one answer per candidate. Probabilities are reals. */
module Selector {
  import opened Wire
  import opened Sorting
  import opened Operation

  type Probabilities = map<string, real>

  /** One answer of a selector response. */
  datatype RawAnswer = RawAnswer(kind: string, choice: string, confidence: Option<real>, probabilities: Probabilities)

  datatype Envelope = Envelope(model: string, answers: map<string, RawAnswer>)

  datatype ChoiceResult = ChoiceResult(choice: string, probabilities: Probabilities, model: string)

  const INVALID := Failure(502, "SELECTOR_INVALID_RESPONSE")

  const TOLERANCE: real := 0.0001

  function Threshold(e: Effect): real { if e == Read then 0.70 else 0.85 }

  function Margin(e: Effect): real { if e == Read then 0.15 else 0.25 }

  /* ----- Closed distributions ----- */

  function Sum(p: Probabilities, keys: seq<string>): real
    requires forall k <- keys :: k in p
  {
    if keys == [] then 0.0 else Sum(p, keys[..|keys| - 1]) + p[keys[|keys| - 1]]
  }

  function Elements(keys: seq<string>): set<string> { set k <- keys :: k }

  /** A distribution over exactly the keys, summing to one within the tolerance, with the choice at a maximum. */
  predicate Closed(choice: string, p: Probabilities, keys: seq<string>) {
    && p.Keys == Elements(keys)
    && (forall k <- keys :: k in p && 0.0 <= p[k] <= 1.0)
    && -TOLERANCE <= Sum(p, keys) - 1.0 <= TOLERANCE
    && choice in keys && (forall k <- keys :: p[k] <= p[choice])
  }

  predicate Acceptable(e: Envelope, keys: seq<string>) {
    && e.answers.Keys == {"selection"} && e.model != ""
    && var a := e.answers["selection"];
       a.kind == "choice" && a.confidence.Some? && 0.0 <= a.confidence.value <= 1.0
           && Closed(a.choice, a.probabilities, keys)
  }

  function Decoded(e: Envelope, keys: seq<string>): Result<ChoiceResult, Failure> {
    if Acceptable(e, keys)
    then Ok(ChoiceResult(e.answers["selection"].choice, e.answers["selection"].probabilities, e.model))
    else Err(INVALID)
  }

  /** An answer is accepted exactly if it is the only one and a proper distribution over exactly the keys asked, which
      names a key of the highest probability; it is passed on unchanged. */
  lemma DecodedExactly(e: Envelope, keys: seq<string>)
    ensures var r := Decoded(e, keys);
            && (r.Ok? <==>
                  && e.model != "" && e.answers.Keys == {"selection"}
                  && var a := e.answers["selection"];
                     && a.kind == "choice" && a.confidence.Some? && 0.0 <= a.confidence.value <= 1.0
                     && (forall k :: k in a.probabilities <==> k in keys)
                     && (forall k <- keys :: 0.0 <= a.probabilities[k] <= 1.0)
                     && 0.9999 <= Sum(a.probabilities, keys) <= 1.0001
                     && a.choice in keys && forall k <- keys :: a.probabilities[k] <= a.probabilities[a.choice])
            && (r.Ok? ==>
                  && r.value.choice == e.answers["selection"].choice && r.value.model == e.model
                  && r.value.probabilities == e.answers["selection"].probabilities)
            && (r.Err? ==> r.error == Failure(502, "SELECTOR_INVALID_RESPONSE"))
  {
    if e.answers.Keys == {"selection"} {
      var p := e.answers["selection"].probabilities;
      assert p.Keys == Elements(keys) <==> forall k :: k in p <==> k in keys;
    }
  }

  lemma SameKeys(p: Probabilities, keys: seq<string>)
    requires Distinct(keys) && forall k <- keys :: k in p
    ensures |p| == |keys| <==> p.Keys == Elements(keys)
  {
    ElementsCount(keys);
    if |p| == |keys| {
      SubsetOfSameSize(Elements(keys), p.Keys);
    }
  }

  lemma {:induction false} ElementsCount(keys: seq<string>)
    requires Distinct(keys)
    ensures |Elements(keys)| == |keys|
  {
    if keys != [] {
      var front := keys[..|keys| - 1];
      ElementsCount(front);
      assert keys == front + [keys[|keys| - 1]];
      ElementsSnoc(front, keys[|keys| - 1]);
    }
  }

  lemma ElementsSnoc(front: seq<string>, k: string)
    ensures Elements(front + [k]) == Elements(front) + {k}
  {
    forall x ensures x in Elements(front + [k]) <==> x in Elements(front) + {k} {
      assert x in front + [k] <==> x in front || x == k;
    }
  }

  lemma {:induction false} SubsetOfSameSize<T>(a: set<T>, b: set<T>)
    requires a <= b && |a| == |b|
    ensures a == b
  {
    if a != {} {
      var x :| x in a;
      SubsetOfSameSize(a - {x}, b - {x});
    } else {
      assert b == {};
    }
  }

  /** Accepts exactly the complete closed answers and returns them unchanged. */
  method DecodeChoice(e: Envelope, keys: seq<string>) returns (r: Result<ChoiceResult, Failure>)
    requires Distinct(keys)
    ensures r == Decoded(e, keys)
  {
    if "selection" !in e.answers || |e.answers| != 1 {
      if "selection" in e.answers { SoleKey(e.answers.Keys, "selection"); }
      return Err(INVALID);
    }
    SoleKey(e.answers.Keys, "selection");
    var a := e.answers["selection"];
    if a.kind != "choice" || a.choice !in keys || |a.probabilities| != |keys| || a.confidence.None?
       || a.confidence.value < 0.0 || a.confidence.value > 1.0 || e.model == "" {
      if a.choice in keys && forall k <- keys :: k in a.probabilities { SameKeys(a.probabilities, keys); }
      return Err(INVALID);
    }
    var totals := Totals(a.probabilities, keys);
    if totals.None? { return Err(INVALID); }
    var (sum, top) := totals.value;
    SameKeys(a.probabilities, keys);
    if sum - 1.0 > TOLERANCE || 1.0 - sum > TOLERANCE || a.probabilities[a.choice] != top {
      return Err(INVALID);
    }
    r := Ok(ChoiceResult(a.choice, a.probabilities, e.model));
  }

  /** The sum and the largest of the probabilities, when every key has a proper one. */
  method Totals(p: Probabilities, keys: seq<string>) returns (r: Option<(real, real)>)
    ensures r.Some? <==> forall k <- keys :: k in p && 0.0 <= p[k] <= 1.0
    ensures r.Some? ==> r.value.0 == Sum(p, keys)
    ensures r.Some? ==> forall k <- keys :: p[k] <= r.value.1
    ensures r.Some? && keys != [] ==> exists k <- keys :: p[k] == r.value.1
  {
    hide Sum;
    var sum, top, i := 0.0, 0.0, 0;
    SumNothing(p, keys);
    ghost var at: nat := 0;
    while i < |keys|
      invariant 0 <= i <= |keys|
      invariant 0.0 <= top <= 1.0 && forall j :: 0 <= j < i ==> keys[j] in p && 0.0 <= p[keys[j]] <= top
      invariant sum == Sum(p, keys[..i])
      invariant if i == 0 then top == 0.0 else at < i && p[keys[at]] == top
    {
      if keys[i] !in p || p[keys[i]] < 0.0 || p[keys[i]] > 1.0 {
        assert keys[i] in keys;
        return None;
      }
      SumNext(p, keys, i);
      sum := sum + p[keys[i]];
      if i == 0 || p[keys[i]] > top { at := i; }
      if p[keys[i]] > top { top := p[keys[i]]; }
      i := i + 1;
    }
    assert keys[..i] == keys && (keys != [] ==> keys[at] in keys);
    r := Some((sum, top));
  }

  lemma SumNothing(p: Probabilities, keys: seq<string>)
    ensures Sum(p, keys[..0]) == 0.0
  {
  }

  lemma SumNext(p: Probabilities, keys: seq<string>, i: nat)
    requires i < |keys| && forall k <- keys[..i + 1] :: k in p
    ensures Sum(p, keys[..i + 1]) == Sum(p, keys[..i]) + p[keys[i]]
  {
    assert keys[..i + 1][..i] == keys[..i];
  }

  lemma SoleKey(s: set<string>, k: string)
    requires k in s
    ensures |s| == 1 <==> s == {k}
  {
    if |s| == 1 { SubsetOfSameSize({k}, s); }
  }

  /* ----- One answer per candidate ----- */

  datatype Pair = Pair(tool: Tool, answer: ChoiceResult)

  datatype Scored = Scored(tool: Tool, probability: real, negative: real)

  /** An absent key reads as zero. */
  function Prob(p: Probabilities, k: string): real { if k in p then p[k] else 0.0 }

  function Positive(x: Pair): seq<Scored> {
    if x.answer.choice == "t0001"
    then [Scored(x.tool, Prob(x.answer.probabilities, "t0001"), Prob(x.answer.probabilities, "none"))] else []
  }

  /** Higher probability first, then the smaller identifier. */
  predicate Ahead(a: Scored, b: Scored) {
    if a.probability == b.probability then Before(a.tool.id, b.tool.id) else a.probability > b.probability
  }

  function Zip(tools: seq<Tool>, answers: seq<ChoiceResult>): seq<Pair>
    requires |tools| == |answers|
  {
    seq(|tools|, i requires 0 <= i < |tools| => Pair(tools[i], answers[i]))
  }

  function Second(s: seq<Scored>): real
    requires s != []
  {
    if |s| > 1 && s[1].probability > s[0].negative then s[1].probability else s[0].negative
  }

  predicate Wins(s: seq<Scored>)
    requires s != []
  {
    var top := s[0];
    top.probability >= Threshold(top.tool.effect) && top.probability - Second(s) >= Margin(top.tool.effect)
  }

  function Offer(s: seq<Scored>): seq<Candidate> {
    var n := if |s| < 5 then |s| else 5;
    seq(n, i requires 0 <= i < n => AsCandidate(s[i].tool))
  }

  function Judge(s: seq<Scored>): Selection {
    if s == [] then Abstained("selector_abstained")
    else if Wins(s) then Chosen(s[0].tool)
    else if |s| < 2 then Abstained("selector_abstained")
    else Ambiguous(Offer(s), "low_confidence")
  }

  function Ranking(pairs: seq<Pair>): seq<Scored> { Sort(Ahead, Gather(Positive, pairs)) }

  function Reduce(pairs: seq<Pair>): Selection { Judge(Ranking(pairs)) }

  method Positives(tools: seq<Tool>, answers: seq<ChoiceResult>) returns (positives: seq<Scored>)
    requires |tools| == |answers|
    ensures positives == Gather(Positive, Zip(tools, answers))
  {
    ghost var pairs := Zip(tools, answers);
    positives := [];
    for i := 0 to |answers|
      invariant positives == Gather(Positive, pairs[..i])
    {
      var a := answers[i];
      if a.choice == "t0001" {
        positives := positives + [Scored(tools[i], Prob(a.probabilities, "t0001"), Prob(a.probabilities, "none"))];
      }
      assert pairs[..i + 1][..i] == pairs[..i];
    }
    assert pairs[..|answers|] == pairs;
  }

  method ReduceBinary(tools: seq<Tool>, answers: seq<ChoiceResult>) returns (r: Result<Selection, Failure>)
    ensures r == if |tools| != |answers| then Err(INVALID) else Ok(Reduce(Zip(tools, answers)))
  {
    hide Positive, Gather, Sort, Zip;
    if |tools| != |answers| { return Err(INVALID); }
    var positives := Positives(tools, answers);
    positives := Sort(Ahead, positives);
    if |positives| == 0 { return Ok(Abstained("selector_abstained")); }
    var top := positives[0];
    var threshold, margin := 0.70, 0.15;
    if top.tool.effect != Read { threshold, margin := 0.85, 0.25; }
    var second := top.negative;
    if |positives| > 1 && positives[1].probability > second { second := positives[1].probability; }
    if top.probability >= threshold && top.probability - second >= margin { return Ok(Chosen(top.tool)); }
    if |positives| < 2 { return Ok(Abstained("selector_abstained")); }
    var choices := BestFive(positives);
    r := Ok(Ambiguous(choices, "low_confidence"));
  }

  method BestFive(positives: seq<Scored>) returns (choices: seq<Candidate>)
    ensures choices == Offer(positives)
  {
    choices := [];
    for i := 0 to if |positives| < 5 then |positives| else 5
      invariant choices == Offer(positives)[..i]
    {
      choices := choices + [AsCandidate(positives[i].tool)];
    }
  }

  method RustPositives(tools: seq<Tool>, answers: seq<ChoiceResult>) returns (r: Option<seq<Scored>>)
    requires |tools| == |answers|
    ensures var pairs := Zip(tools, answers);
            r == if forall x <- pairs :: Complete(x) then Some(Gather(Positive, pairs)) else None
  {
    ghost var pairs := Zip(tools, answers);
    var positives: seq<Scored> := [];
    for i := 0 to |tools|
      invariant positives == Gather(Positive, pairs[..i])
      invariant forall x <- pairs[..i] :: Complete(x)
    {
      assert pairs[i] in pairs;
      var p := answers[i].probabilities;
      if answers[i].choice == "t0001" {
        if "t0001" !in p || "none" !in p {
          assert !Complete(pairs[i]);
          return None;
        }
        positives := positives + [Scored(tools[i], p["t0001"], p["none"])];
      }
      assert pairs[..i + 1] == pairs[..i] + [pairs[i]];
      assert pairs[..i + 1][..i] == pairs[..i];
    }
    assert pairs[..|tools|] == pairs;
    r := Some(positives);
  }

  /** The Rust reduction is the Go reduction, but it refuses a positive answer that lacks a probability. */
  method RustReduceBinary(tools: seq<Tool>, answers: seq<ChoiceResult>) returns (r: Result<Selection, Failure>)
    ensures |tools| != |answers| ==> r == Err(INVALID)
    ensures |tools| == |answers| ==>
              r == if forall x <- Zip(tools, answers) :: Complete(x) then Ok(Reduce(Zip(tools, answers)))
                  else Err(INVALID)
  {
    hide Complete, Positive, Gather, Judge, Sort, Zip;
    if |tools| != |answers| { return Err(INVALID); }
    var found := RustPositives(tools, answers);
    if found.None? { return Err(INVALID); }
    var selection := RustJudge(Sort(Ahead, found.value));
    r := Ok(selection);
  }

  method RustJudge(positives: seq<Scored>) returns (r: Selection)
    ensures r == Judge(positives)
  {
    if positives == [] { return Abstained("selector_abstained"); }
    var top := positives[0];
    var bounds := if top.tool.effect == Read then (0.70, 0.15) else (0.85, 0.25);
    var second := if |positives| > 1 then positives[1].probability else 0.0;
    if top.negative > second { second := top.negative; }
    if top.probability >= bounds.0 && top.probability - second >= bounds.1 { return Chosen(top.tool); }
    if |positives| < 2 { return Abstained("selector_abstained"); }
    r := Ambiguous(Offer(positives), "low_confidence");
  }

  predicate Complete(x: Pair) {
    x.answer.choice == "t0001" ==> "t0001" in x.answer.probabilities && "none" in x.answer.probabilities
  }

  /** The selector only reduces closed answers, so there the two cores compute the same. */
  lemma ClosedIsComplete(x: Pair)
    requires Closed(x.answer.choice, x.answer.probabilities, ["none", "t0001"])
    ensures Complete(x)
  {
    assert "t0001" in ["none", "t0001"] && "none" in ["none", "t0001"];
  }

  /* ----- What the reduction means ----- */

  predicate DistinctPairs(pairs: seq<Pair>) {
    forall i, j :: 0 <= i < j < |pairs| ==> pairs[i].tool.id != pairs[j].tool.id
  }

  predicate DistinctScored(s: seq<Scored>) {
    forall i, j :: 0 <= i < j < |s| ==> s[i].tool.id != s[j].tool.id
  }

  lemma ScoredOrders(s: seq<Scored>)
    requires DistinctScored(s)
    ensures Orders(Ahead, s) && Distinct(s)
  {
    forall x <- s ensures !Ahead(x, x) { BeforeIrreflexive(x.tool.id); }
    forall x <- s, y <- s | x != y ensures Ahead(x, y) || Ahead(y, x) {
      var i :| 0 <= i < |s| && s[i] == x;
      var j :| 0 <= j < |s| && s[j] == y;
      BeforeConnects(x.tool.id, y.tool.id);
    }
    forall x <- s, y <- s, z <- s | Ahead(x, y) && Ahead(y, z) ensures Ahead(x, z) {
      if x.probability == y.probability == z.probability { BeforeTransitive(x.tool.id, y.tool.id, z.tool.id); }
    }
  }

  lemma {:induction false} PositivesDistinct(pairs: seq<Pair>)
    requires DistinctPairs(pairs)
    ensures DistinctScored(Gather(Positive, pairs))
    ensures forall s <- Gather(Positive, pairs) :: exists i :: 0 <= i < |pairs| && s in Positive(pairs[i])
  {
    if pairs != [] {
      var front := pairs[..|pairs| - 1];
      PositivesDistinct(front);
      forall s <- Gather(Positive, pairs) ensures exists i :: 0 <= i < |pairs| && s in Positive(pairs[i]) {
        if s in Gather(Positive, front) {
          var i :| 0 <= i < |front| && s in Positive(front[i]);
          assert s in Positive(pairs[i]);
        } else {
          assert s in Positive(pairs[|pairs| - 1]);
        }
      }
      var g := Gather(Positive, front);
      forall s <- g ensures s.tool.id != pairs[|pairs| - 1].tool.id {
        var i :| 0 <= i < |front| && s in Positive(front[i]);
      }
    }
  }

  /** The outcome depends on the set of pairs alone, whatever order the answers arrive in. */
  lemma ReduceForgetsOrder(a: seq<Pair>, b: seq<Pair>)
    requires DistinctPairs(a) && multiset(a) == multiset(b)
    ensures Reduce(a) == Reduce(b)
  {
    PositivesDistinct(a);
    ScoredOrders(Gather(Positive, a));
    GatherPermutes(Positive, a, b);
    SortForgetsOrder(Ahead, Gather(Positive, a), Gather(Positive, b));
  }

  /** What an answer says for its tool and against it; what it does not mention counts as zero. */
  predicate Says(x: Pair, yes: real, no: real) {
    && x.answer.choice == "t0001"
    && yes == (if "t0001" in x.answer.probabilities then x.answer.probabilities["t0001"] else 0.0)
    && no == (if "none" in x.answer.probabilities then x.answer.probabilities["none"] else 0.0)
  }

  lemma SaysIsPositive(x: Pair, yes: real, no: real)
    ensures Says(x, yes, no) <==> Positive(x) == [Scored(x.tool, yes, no)]
    ensures Positive(x) != [] ==> Says(x, Positive(x)[0].probability, Positive(x)[0].negative)
  {
  }

  /** An answer that reaches its tool's threshold, and leads its own negative and every other positive answer by the
      margin: seventy and fifteen per cent for a tool that only reads, eighty-five and twenty-five for any other. */
  ghost predicate Clears(pairs: seq<Pair>, i: nat)
    requires i < |pairs|
  {
    var margin := if pairs[i].tool.effect == Read then 0.15 else 0.25;
    exists yes, no :: Says(pairs[i], yes, no)
      && yes >= (if pairs[i].tool.effect == Read then 0.70 else 0.85) && yes - no >= margin
      && forall j, other, less :: 0 <= j < |pairs| && j != i && Says(pairs[j], other, less) ==> yes - other >= margin
  }

  lemma ClearsBy(pairs: seq<Pair>, i: nat)
    requires i < |pairs|
    ensures Clears(pairs, i) <==>
            && Positive(pairs[i]) != []
            && var s := Positive(pairs[i])[0];
               && s.probability >= Threshold(s.tool.effect) && s.probability - s.negative >= Margin(s.tool.effect)
               && forall j :: 0 <= j < |pairs| && j != i && Positive(pairs[j]) != [] ==>
                    s.probability - Positive(pairs[j])[0].probability >= Margin(s.tool.effect)
  {
    hide Positive;
    forall j, yes, no | 0 <= j < |pairs|
      ensures Says(pairs[j], yes, no) <==> Positive(pairs[j]) == [Scored(pairs[j].tool, yes, no)]
    {
      SaysIsPositive(pairs[j], yes, no);
    }
    forall j | 0 <= j < |pairs| && Positive(pairs[j]) != []
      ensures Says(pairs[j], Positive(pairs[j])[0].probability, Positive(pairs[j])[0].negative)
    {
      SaysIsPositive(pairs[j], 0.0, 0.0);
    }
  }

  /** The ranking holds exactly the positives, best first. */
  lemma RankingRanks(pairs: seq<Pair>)
    requires DistinctPairs(pairs)
    ensures DistinctScored(Ranking(pairs)) && Ascending(Ahead, Ranking(pairs))
    ensures forall s :: s in Ranking(pairs) <==> exists i :: 0 <= i < |pairs| && Positive(pairs[i]) == [s]
  {
    hide Ahead, Positive, DistinctPairs, DistinctScored, Orders, Ascending, Distinct;
    var found := Gather(Positive, pairs);
    PositivesDistinct(pairs);
    ScoredOrders(found);
    SortAscends(Ahead, found);
    SameElements(Ranking(pairs), found);
    RankedDistinct(found, Ranking(pairs));
    forall s ensures s in found <==> exists i :: 0 <= i < |pairs| && Positive(pairs[i]) == [s] {
      FoundPositive(pairs, s);
    }
  }

  lemma FoundPositive(pairs: seq<Pair>, s: Scored)
    requires DistinctPairs(pairs)
    ensures s in Gather(Positive, pairs) <==> exists i :: 0 <= i < |pairs| && Positive(pairs[i]) == [s]
  {
    GatherMember(Positive, pairs, s);
    if i :| 0 <= i < |pairs| && Positive(pairs[i]) == [s] { assert pairs[i] in pairs && s in Positive(pairs[i]); }
    if s in Gather(Positive, pairs) {
      PositivesDistinct(pairs);
      var i :| 0 <= i < |pairs| && s in Positive(pairs[i]);
      assert Positive(pairs[i]) == [s];
    }
  }

  lemma RankedDistinct(a: seq<Scored>, b: seq<Scored>)
    requires DistinctScored(a) && multiset(a) == multiset(b)
    ensures DistinctScored(b)
  {
    assert Distinct(a);
    DistinctForgetsOrder(a, b);
    SameElements(a, b);
    forall i, j | 0 <= i < j < |b| ensures b[i].tool.id != b[j].tool.id {
      assert b[i] in a && b[j] in a && b[i] != b[j];
    }
  }

  /** Selection in plain terms: a tool is chosen exactly when its answer clears; at most one answer can. */
  lemma ChosenExactly(pairs: seq<Pair>, i: nat)
    requires DistinctPairs(pairs) && i < |pairs|
    ensures Reduce(pairs) == Chosen(pairs[i].tool) <==> Clears(pairs, i)
  {
    hide Ranking, Clears;
    RankingRanks(pairs);
    if Clears(pairs, i) { ClearingIsChosen(pairs, i); }
    if Reduce(pairs) == Chosen(pairs[i].tool) { ChosenClears(pairs, i); }
  }

  lemma ClearingIsChosen(pairs: seq<Pair>, i: nat)
    requires DistinctPairs(pairs) && i < |pairs| && Clears(pairs, i)
    ensures Reduce(pairs) == Chosen(pairs[i].tool)
  {
    hide Ranking, DistinctPairs, Clears;
    RankingRanks(pairs);
    ClearsBy(pairs, i);
    var s := Positive(pairs[i])[0];
    var ranked := Ranking(pairs);
    assert s in ranked;
    var j :| 0 <= j < |pairs| && Positive(pairs[j]) == [ranked[0]];
    assert j == i;
    if |ranked| > 1 {
      assert ranked[1] in ranked;
      var k :| 0 <= k < |pairs| && Positive(pairs[k]) == [ranked[1]];
      assert ranked[0].tool.id != ranked[1].tool.id;
    }
  }

  lemma ChosenClears(pairs: seq<Pair>, i: nat)
    requires DistinctPairs(pairs) && i < |pairs| && Reduce(pairs) == Chosen(pairs[i].tool)
    ensures Clears(pairs, i)
  {
    hide Ranking, Clears;
    RankingRanks(pairs);
    ClearsBy(pairs, i);
    var ranked := Ranking(pairs);
    assert ranked[0] in ranked;
    var k :| 0 <= k < |pairs| && Positive(pairs[k]) == [ranked[0]];
    assert k == i;
    forall j | 0 <= j < |pairs| && j != i && Positive(pairs[j]) != []
      ensures ranked[0].probability - Positive(pairs[j])[0].probability >= Margin(ranked[0].tool.effect)
    {
      var t := Positive(pairs[j])[0];
      assert Positive(pairs[j]) == [t];
      assert t in ranked;
      var n :| 0 <= n < |ranked| && ranked[n] == t;
      assert t.tool.id != ranked[0].tool.id;
      assert n == 1 || Ahead(ranked[1], ranked[n]);
    }
  }

  /** When nothing clears, the offer is the first five of the positive answers, or all if there are no more: highest
      probability first, then the smaller identifier; with fewer than two it abstains. */
  lemma OfferedOtherwise(pairs: seq<Pair>) returns (s: seq<Scored>)
    requires DistinctPairs(pairs) && forall i :: 0 <= i < |pairs| ==> !Clears(pairs, i)
    ensures forall i, j :: 0 <= i < j < |s| ==>
              s[i].probability > s[j].probability
              || (s[i].probability == s[j].probability && Before(s[i].tool.id, s[j].tool.id))
    ensures forall x :: x in s <==>
              exists i :: 0 <= i < |pairs| && pairs[i].tool == x.tool && Says(pairs[i], x.probability, x.negative)
    ensures Reduce(pairs) == Abstained("selector_abstained") <==> |s| < 2
    ensures |s| >= 2 ==>
              && Reduce(pairs).Ambiguous? && Reduce(pairs).reason == "low_confidence"
              && var choices := Reduce(pairs).choices;
                 && |choices| == (if |s| < 5 then |s| else 5)
                 && forall i :: 0 <= i < |choices| ==>
                      choices[i] == AsCandidate(s[i].tool)
  {
    hide Ranking, Clears, Positive;
    RankingRanks(pairs);
    s := Ranking(pairs);
    forall x ensures x in s <==>
      exists i :: 0 <= i < |pairs| && pairs[i].tool == x.tool && Says(pairs[i], x.probability, x.negative)
    {
      forall i | 0 <= i < |pairs|
        ensures Positive(pairs[i]) == [x] <==> pairs[i].tool == x.tool && Says(pairs[i], x.probability, x.negative)
      {
        SaysIsPositive(pairs[i], x.probability, x.negative);
        SaysFor(pairs[i], x);
      }
    }
    if s != [] && Wins(s) {
      assert s[0] in s;
      var i :| 0 <= i < |pairs| && Positive(pairs[i]) == [s[0]];
      SaysFor(pairs[i], s[0]);
      ChosenExactly(pairs, i);
    }
  }

  lemma SaysFor(x: Pair, s: Scored)
    ensures Positive(x) == [s] ==> s.tool == x.tool
  {
  }

  /** Whatever the answers, the outcome is drawn from the catalog the candidates came from. */
  lemma ReduceSelectable(tools: seq<Tool>, pairs: seq<Pair>)
    requires DistinctPairs(pairs) && forall x <- pairs :: x.tool in tools
    ensures Selectable(tools, Reduce(pairs))
  {
    hide Ranking;
    RankingRanks(pairs);
    var s := Ranking(pairs);
    forall x | x in s ensures x.tool in tools {
      var i :| 0 <= i < |pairs| && Positive(pairs[i]) == [x];
      assert pairs[i] in pairs;
    }
    if Reduce(pairs).Ambiguous? { OfferKnown(tools, s); }
  }

  lemma OfferKnown(tools: seq<Tool>, s: seq<Scored>)
    requires DistinctScored(s) && |s| >= 2 && forall x <- s :: x.tool in tools
    ensures 2 <= |Offer(s)| <= 5 && DistinctCandidates(Offer(s)) && CandidateIds(Offer(s)) <= ToolIds(tools)
  {
    forall c <- Offer(s) ensures c.id in ToolIds(tools) {
      var i :| 0 <= i < |Offer(s)| && Offer(s)[i] == c;
      assert s[i] in s && s[i].tool in tools;
    }
  }
}
