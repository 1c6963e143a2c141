/** Lexical retrieval: the tools an actor may use, all of them when few, else the 64 that match best. */
module Retrieval {
  import opened Wire
  import opened Sorting

  /** The normalised tokens of a text. */
  type Tokenizer = string -> set<string>

  const FEW: nat := 32
  const MOST: nat := 64

  datatype Scored = Scored(tool: Tool, score: nat)

  function Join(parts: seq<string>): string {
    if parts == [] then "" else if |parts| == 1 then parts[0] else parts[0] + " " + Join(parts[1..])
  }

  function Hits(query: set<string>, field: set<string>): nat { |query * field| }

  function Score(tokens: Tokenizer, query: set<string>, t: Tool): nat {
    10 * Hits(query, tokens(t.name)) + 5 * Hits(query, tokens(Join(t.aliases))) + 3 * Hits(query, tokens(t.title))
    + 2 * Hits(query, tokens(Join(t.tags))) + Hits(query, tokens(t.description))
  }

  predicate ById(a: Tool, b: Tool) { Before(a.id, b.id) }

  /** Higher score first, then the smaller identifier. */
  predicate Better(a: Scored, b: Scored) {
    if a.score == b.score then Before(a.tool.id, b.tool.id) else a.score > b.score
  }

  function IfAllowed(allowed: seq<string>): Tool -> seq<Tool> { (t: Tool) => if t.id in allowed then [t] else [] }

  function IfScored(tokens: Tokenizer, query: set<string>): Tool -> seq<Scored> {
    (t: Tool) => if Score(tokens, query, t) > 0 then [Scored(t, Score(tokens, query, t))] else []
  }

  function Allowed(tools: seq<Tool>, allowed: seq<string>): seq<Tool> { Gather(IfAllowed(allowed), tools) }

  function Matching(tokens: Tokenizer, query: set<string>, tools: seq<Tool>): seq<Scored> {
    Sort(Better, Gather(IfScored(tokens, query), tools))
  }

  /** The tools of the best matches. */
  function Heads(s: seq<Scored>): (r: seq<Tool>)
    ensures |r| == if |s| <= MOST then |s| else MOST
  {
    seq(if |s| <= MOST then |s| else MOST, i requires 0 <= i < |s| => s[i].tool)
  }

  function Retrieve(tokens: Tokenizer, tools: seq<Tool>, allowed: seq<string>, text: string)
    : Result<seq<Tool>, Failure>
  {
    var query := tokens(text);
    var mine := Allowed(tools, allowed);
    if |query| > 256 then Err(Failure(413, "PAYLOAD_TOO_LARGE"))
    else if |mine| <= FEW then Ok(Sort(ById, mine))
    else Ok(Heads(Matching(tokens, query, mine)))
  }

  /** Adds a field's weight for every query token it contains. */
  method AddHits(score: nat, query: set<string>, field: set<string>, weight: nat) returns (r: nat)
    ensures r == score + weight * Hits(query, field)
  {
    r := score;
    var rest := query;
    assert query - rest == {};
    while rest != {}
      invariant rest <= query && r == score + weight * Hits(query - rest, field)
      decreases |rest|
    {
      var q :| q in rest;
      NextToken(query, rest, q, field);
      if q in field { r := r + weight; }
      rest := rest - {q};
    }
    assert query - rest == query;
  }

  lemma NextToken(query: set<string>, rest: set<string>, q: string, field: set<string>)
    requires rest <= query && q in rest
    ensures Hits(query - (rest - {q}), field) == Hits(query - rest, field) + (if q in field then 1 else 0)
  {
    assert (query - (rest - {q})) * field == (query - rest) * field + (if q in field then {q} else {});
  }

  method RetrieveTools(tokens: Tokenizer, tools: seq<Tool>, actor: Actor, intent: string, context: string)
    returns (r: Result<seq<Tool>, Failure>)
    ensures r == Retrieve(tokens, tools, actor.allowed, intent + " " + context)
  {
    hide Score, Better, ById;
    var query := tokens(intent + " " + context);
    if |query| > 256 { return Err(Failure(413, "PAYLOAD_TOO_LARGE")); }
    var allowed := FilterAllowed(tools, actor.allowed);
    if |allowed| <= FEW { return Ok(Sort(ById, allowed)); }
    var scores := ScoreAll(tokens, query, allowed);
    scores := Sort(Better, scores);
    var out := FirstTools(scores);
    r := Ok(out);
  }

  method FilterAllowed(tools: seq<Tool>, ids: seq<string>) returns (allowed: seq<Tool>)
    ensures allowed == Allowed(tools, ids)
  {
    allowed := [];
    for i := 0 to |tools|
      invariant allowed == Gather(IfAllowed(ids), tools[..i])
    {
      assert tools[..i + 1][..i] == tools[..i];
      if tools[i].id in ids { allowed := allowed + [tools[i]]; }
    }
    assert tools[..|tools|] == tools;
  }

  method FirstTools(scores: seq<Scored>) returns (out: seq<Tool>)
    ensures out == Heads(scores)
  {
    out := [];
    for i := 0 to |scores|
      invariant i < MOST && i <= |Heads(scores)| && out == Heads(scores)[..i]
    {
      out := out + [scores[i].tool];
      if |out| == MOST { return; }
    }
  }

  method ScoreOne(tokens: Tokenizer, query: set<string>, t: Tool) returns (score: nat)
    ensures score == Score(tokens, query, t)
  {
    hide Hits;
    score := AddHits(0, query, tokens(t.name), 10);
    score := AddHits(score, query, tokens(Join(t.aliases)), 5);
    score := AddHits(score, query, tokens(t.title), 3);
    score := AddHits(score, query, tokens(Join(t.tags)), 2);
    score := AddHits(score, query, tokens(t.description), 1);
  }

  method ScoreAll(tokens: Tokenizer, query: set<string>, tools: seq<Tool>) returns (scores: seq<Scored>)
    ensures scores == Gather(IfScored(tokens, query), tools)
  {
    hide Score;
    scores := [];
    for i := 0 to |tools|
      invariant scores == Gather(IfScored(tokens, query), tools[..i])
    {
      var t := tools[i];
      var score := ScoreOne(tokens, query, t);
      assert tools[..i + 1][..i] == tools[..i];
      if score > 0 { scores := scores + [Scored(t, score)]; }
    }
    assert tools[..|tools|] == tools;
  }

  /* ----- What is retrieved ----- */

  lemma ToolsOrder(s: seq<Tool>)
    requires DistinctTools(s)
    ensures Orders(ById, s) && Distinct(s)
  {
    forall x <- s ensures !ById(x, x) { BeforeIrreflexive(x.id); }
    forall x <- s, y <- s | x != y ensures ById(x, y) || ById(y, x) {
      var i :| 0 <= i < |s| && s[i] == x;
      var j :| 0 <= j < |s| && s[j] == y;
      BeforeConnects(x.id, y.id);
    }
    forall x <- s, y <- s, z <- s | ById(x, y) && ById(y, z) ensures ById(x, z) { BeforeTransitive(x.id, y.id, z.id); }
  }

  predicate DistinctScored(s: seq<Scored>) {
    forall i, j :: 0 <= i < j < |s| ==> s[i].tool.id != s[j].tool.id
  }

  lemma ScoredOrder(s: seq<Scored>)
    requires DistinctScored(s)
    ensures Orders(Better, s) && Distinct(s)
  {
    forall x <- s ensures !Better(x, x) { BeforeIrreflexive(x.tool.id); }
    forall x <- s, y <- s | x != y ensures Better(x, y) || Better(y, x) {
      var i :| 0 <= i < |s| && s[i] == x;
      var j :| 0 <= j < |s| && s[j] == y;
      BeforeConnects(x.tool.id, y.tool.id);
    }
    forall x <- s, y <- s, z <- s | Better(x, y) && Better(y, z) ensures Better(x, z) {
      if x.score == y.score == z.score { BeforeTransitive(x.tool.id, y.tool.id, z.tool.id); }
    }
  }

  lemma {:induction false} AllowedExactly(tools: seq<Tool>, allowed: seq<string>)
    requires DistinctTools(tools)
    ensures DistinctTools(Allowed(tools, allowed))
    ensures forall t :: t in Allowed(tools, allowed) <==> t in tools && t.id in allowed
  {
    if tools != [] {
      var front, last := tools[..|tools| - 1], tools[|tools| - 1];
      assert tools == front + [last];
      AllowedExactly(front, allowed);
      forall t <- Allowed(front, allowed) ensures t.id != last.id { assert t in front; }
    }
  }

  lemma {:induction false} ScoredExactly(tokens: Tokenizer, query: set<string>, tools: seq<Tool>)
    requires DistinctTools(tools)
    ensures var found := Gather(IfScored(tokens, query), tools);
            && DistinctScored(found)
            && (forall s :: s in found <==> s.tool in tools && s.score == Score(tokens, query, s.tool) > 0)
  {
    hide Score;
    if tools != [] {
      var front, last := tools[..|tools| - 1], tools[|tools| - 1];
      assert tools == front + [last];
      ScoredExactly(tokens, query, front);
      forall s <- Gather(IfScored(tokens, query), front) ensures s.tool.id != last.id { assert s.tool in front; }
    }
  }

  lemma MatchingRanks(tokens: Tokenizer, query: set<string>, tools: seq<Tool>)
    requires DistinctTools(tools)
    ensures var s := Matching(tokens, query, tools);
            && Ascending(Better, s) && DistinctScored(s)
            && (forall x :: x in s <==> x.tool in tools && x.score == Score(tokens, query, x.tool) > 0)
  {
    hide Score, Better, Orders, Ascending, Distinct, DistinctScored, DistinctTools;
    var found := Gather(IfScored(tokens, query), tools);
    ScoredExactly(tokens, query, tools);
    ScoredOrder(found);
    SortAscends(Better, found);
    SameElements(Matching(tokens, query, tools), found);
    RankedDistinct(found, Matching(tokens, query, tools));
  }

  lemma RankedDistinct(found: seq<Scored>, s: seq<Scored>)
    requires DistinctScored(found) && Distinct(found) && multiset(s) == multiset(found)
    ensures DistinctScored(s)
  {
    SameElements(s, found);
    DistinctForgetsOrder(found, s);
    forall i, j | 0 <= i < j < |s| ensures s[i].tool.id != s[j].tool.id {
      assert s[i] in found && s[j] in found && s[i] != s[j];
    }
  }

  /** The order of the catalog does not matter. */
  lemma RetrieveForgetsOrder(tokens: Tokenizer, a: seq<Tool>, b: seq<Tool>, allowed: seq<string>, text: string)
    requires DistinctTools(a) && multiset(a) == multiset(b)
    ensures Retrieve(tokens, a, allowed, text) == Retrieve(tokens, b, allowed, text)
  {
    hide Score, Better, ById, Orders, DistinctTools, DistinctScored, Distinct;
    var query := tokens(text);
    GatherPermutes(IfAllowed(allowed), a, b);
    var x, y := Allowed(a, allowed), Allowed(b, allowed);
    assert |multiset(x)| == |multiset(y)|;
    AllowedExactly(a, allowed);
    ToolsOrder(x);
    SortForgetsOrder(ById, x, y);
    GatherPermutes(IfScored(tokens, query), x, y);
    ScoredExactly(tokens, query, x);
    ScoredOrder(Gather(IfScored(tokens, query), x));
    SortForgetsOrder(Better, Gather(IfScored(tokens, query), x), Gather(IfScored(tokens, query), y));
  }

  /** Retrieval returns distinct permitted tools of the catalog, at most 64. With few it returns all of them; with
      many, every permitted tool it leaves out either matches nothing or ranks behind all 64 it returns. */
  lemma RetrievesTheBest(tokens: Tokenizer, tools: seq<Tool>, allowed: seq<string>, text: string)
    requires DistinctTools(tools) && Retrieve(tokens, tools, allowed, text).Ok?
    ensures var r := Retrieve(tokens, tools, allowed, text).value;
            var query, mine := tokens(text), Allowed(tools, allowed);
            && DistinctTools(r) && |r| <= 64
            && (forall t <- r :: t in tools && t.id in allowed)
            && (|mine| <= 32 ==> forall t <- tools :: t.id in allowed ==> t in r)
            && (|mine| > 32 ==>
                  (forall t <- r :: Score(tokens, query, t) > 0)
                  && (forall t <- tools :: t.id in allowed && t !in r && Score(tokens, query, t) > 0 ==>
                        |r| == 64
                        && forall k <- r ::
                           Better(Scored(k, Score(tokens, query, k)), Scored(t, Score(tokens, query, t)))))
  {
    hide Score, Better, Orders, Sort, Gather, Distinct;
    var query, mine := tokens(text), Allowed(tools, allowed);
    AllowedExactly(tools, allowed);
    if |mine| <= FEW {
      FewAreAll(mine);
    } else {
      ManyAreBest(tokens, query, mine);
    }
  }

  lemma FewAreAll(mine: seq<Tool>)
    requires DistinctTools(mine)
    ensures DistinctTools(Sort(ById, mine)) && forall t :: t in Sort(ById, mine) <==> t in mine
  {
    var r := Sort(ById, mine);
    SameElements(r, mine);
    ToolsOrder(mine);
    DistinctForgetsOrder(mine, r);
    forall i, j | 0 <= i < j < |r| ensures r[i].id != r[j].id { assert r[i] in mine && r[j] in mine && r[i] != r[j]; }
  }

  lemma ManyAreBest(tokens: Tokenizer, query: set<string>, mine: seq<Tool>)
    requires DistinctTools(mine)
    ensures var r := Heads(Matching(tokens, query, mine));
            && DistinctTools(r)
            && (forall t <- r :: t in mine && Score(tokens, query, t) > 0)
            && (forall t <- mine :: t !in r && Score(tokens, query, t) > 0 ==>
                  |r| == MOST && forall k <- r ::
                      Better(Scored(k, Score(tokens, query, k)), Scored(t, Score(tokens, query, t))))
  {
    hide Score, Better, Orders, Matching, Gather, Sort;
    var s := Matching(tokens, query, mine);
    var r := Heads(s);
    MatchingRanks(tokens, query, mine);
    forall t <- r ensures t in mine && Score(tokens, query, t) > 0 {
      var i :| 0 <= i < |r| && r[i] == t;
      assert s[i] in s;
    }
    forall t <- mine | t !in r && Score(tokens, query, t) > 0
      ensures |r| == MOST
      ensures forall k <- r :: Better(Scored(k, Score(tokens, query, k)), Scored(t, Score(tokens, query, t)))
    {
      var x := Scored(t, Score(tokens, query, t));
      assert x in s;
      var j :| 0 <= j < |s| && s[j] == x;
      FirstAreKept(s);
      forall k <- r ensures Better(Scored(k, Score(tokens, query, k)), x) {
        var i :| 0 <= i < |r| && r[i] == k;
        assert s[i] in s;
      }
    }
  }

  lemma FirstAreKept(s: seq<Scored>)
    ensures forall j :: 0 <= j < |s| && j < MOST ==> s[j].tool in Heads(s)
  {
    forall j | 0 <= j < |s| && j < MOST ensures s[j].tool in Heads(s) { assert Heads(s)[j] == s[j].tool; }
  }

  /* ----- The score and the order, told token by token ----- */

  /** A query without tokens scores nothing, and every further token adds the weights of exactly the fields that
      contain it; this determines every score. */
  lemma ScoreAddsUp(tokens: Tokenizer, query: set<string>, q: string, t: Tool)
    requires q !in query
    ensures Score(tokens, {}, t) == 0
    ensures Score(tokens, query + {q}, t) == Score(tokens, query, t)
            + (if q in tokens(t.name) then 10 else 0) + (if q in tokens(Join(t.aliases)) then 5 else 0)
            + (if q in tokens(t.title) then 3 else 0) + (if q in tokens(Join(t.tags)) then 2 else 0)
            + (if q in tokens(t.description) then 1 else 0)
  {
    HitsAddUp(query, q, tokens(t.name));
    HitsAddUp(query, q, tokens(Join(t.aliases)));
    HitsAddUp(query, q, tokens(t.title));
    HitsAddUp(query, q, tokens(Join(t.tags)));
    HitsAddUp(query, q, tokens(t.description));
  }

  lemma HitsAddUp(query: set<string>, q: string, field: set<string>)
    requires q !in query
    ensures Hits({}, field) == 0
    ensures Hits(query + {q}, field) == Hits(query, field) + (if q in field then 1 else 0)
  {
    assert (query + {q}) * field == query * field + (if q in field then {q} else {});
    assert {} * field == {};
  }

  /** A query of more than 256 tokens is refused and no other. Up to 32 permitted tools come in the order of their
      identifiers, more of them best score first and equal scores in that order. */
  lemma RetrievesInOrder(tokens: Tokenizer, tools: seq<Tool>, allowed: seq<string>, text: string, i: nat, j: nat)
    requires DistinctTools(tools)
    ensures var r := Retrieve(tokens, tools, allowed, text);
            var query := tokens(text);
            && (r == Err(Failure(413, "PAYLOAD_TOO_LARGE")) <==> |query| > 256) && (r.Err? ==> |query| > 256)
            && (r.Ok? && i < j < |r.value| ==>
                  var a, b := r.value[i], r.value[j];
                  && (|Allowed(tools, allowed)| <= 32 ==> Before(a.id, b.id))
                  && (|Allowed(tools, allowed)| > 32 ==>
                        var x, y := Score(tokens, query, a), Score(tokens, query, b);
                        x > y || (x == y && Before(a.id, b.id))))
  {
    hide Score, Sort, Gather, Orders, DistinctTools, DistinctScored;
    var mine := Allowed(tools, allowed);
    AllowedExactly(tools, allowed);
    if |mine| <= 32 {
      ToolsOrder(mine);
      SortAscends(ById, mine);
    } else {
      var s := Matching(tokens, tokens(text), mine);
      MatchingRanks(tokens, tokens(text), mine);
      if i < j < |Heads(s)| {
        assert s[i] in s && s[j] in s;
        assert Better(s[i], s[j]);
      }
    }
  }
}
