/** Workflow selection: one yes-or-no answer per candidate, asked jointly or in parallel, and the bundle exposed. */
module Workflow {
  import opened Wire
  import opened Sorting
  import opened Selector
  import opened Retrieval
  import Op = Operation
  import Pool
  import SingleChoice

  const YES_NO: seq<string> := ["yes", "no"]

  /** The n-th question's key. */
  function QuestionKey(n: nat): string
  {
    ['q'] + SingleChoice.Key(n)[1..]
  }

  lemma QuestionKeysDiffer(m: nat, n: nat)
    requires m != n
    ensures QuestionKey(m) != QuestionKey(n)
  {
    hide SingleChoice.Key;
    SingleChoice.KeyDigits(m);
    SingleChoice.KeyDigits(n);
    assert QuestionKey(m)[1..] == SingleChoice.Key(m)[1..] && QuestionKey(n)[1..] == SingleChoice.Key(n)[1..];
  }

  /** Whether a closed answer includes its tool; any other answer fails the request. */
  function Included(model: string, t: Tool, a: RawAnswer): Result<bool, Failure> {
    match Decoded(Envelope(model, map["selection" := a]), YES_NO)
    case Err(f) => Err(f)
    case Ok(d) => Ok(d.choice == "yes" && Prob(d.probabilities, "yes") >= Threshold(t.effect))
  }

  /** The included ones among the first n tools, in their order. */
  function FirstIncluded(e: Envelope, tools: seq<Tool>, n: nat): Result<seq<Tool>, Failure>
    requires n <= |tools|
  {
    if n == 0 then Ok([])
    else match FirstIncluded(e, tools, n - 1)
      case Err(f) => Err(f)
      case Ok(selected) =>
        if QuestionKey(n) !in e.answers then Err(INVALID)
        else match Included(e.model, tools[n - 1], e.answers[QuestionKey(n)])
          case Err(f) => Err(f)
          case Ok(yes) => Ok(selected + (if yes then [tools[n - 1]] else []))
  }

  function DecodeWorkflow(e: Envelope, tools: seq<Tool>, model: string): Result<seq<Tool>, Failure>
  {
    if e.model != model || |e.answers| != |tools| then Err(INVALID) else FirstIncluded(e, tools, |tools|)
  }

  method DecodeWorkflowReply(e: Envelope, tools: seq<Tool>, model: string) returns (r: Result<seq<Tool>, Failure>)
    ensures r == DecodeWorkflow(e, tools, model)
  {
    hide Acceptable;
    if e.model != model || |e.answers| != |tools| { return Err(INVALID); }
    var selected: seq<Tool> := [];
    for i := 0 to |tools|
      invariant FirstIncluded(e, tools, i) == Ok(selected)
    {
      FailureStays(e, tools, i + 1, |tools|);
      if QuestionKey(i + 1) !in e.answers { return Err(INVALID); }
      var single := Envelope(model, map["selection" := e.answers[QuestionKey(i + 1)]]);
      var decoded := DecodeChoice(single, YES_NO);
      if decoded.Err? { return Err(INVALID); }
      var threshold := 0.70;
      if tools[i].effect != Read { threshold := 0.85; }
      if decoded.value.choice == "yes" && Prob(decoded.value.probabilities, "yes") >= threshold {
        selected := selected + [tools[i]];
      } else {
        assert selected + [] == selected;
      }
    }
    r := Ok(selected);
  }

  lemma {:induction false} FailureStays(e: Envelope, tools: seq<Tool>, m: nat, n: nat)
    requires m <= n <= |tools|
    ensures FirstIncluded(e, tools, m).Err? ==> FirstIncluded(e, tools, n) == FirstIncluded(e, tools, m)
    decreases n
  {
    hide Included;
    if m < n { FailureStays(e, tools, m, n - 1); }
  }

  /** What a valid answer to the n-th question says: that its tool is needed, or that it is not. */
  function Answers(e: Envelope, t: Tool, n: nat): Option<bool> {
    if QuestionKey(n) !in e.answers then None
    else match Included(e.model, t, e.answers[QuestionKey(n)]) case Ok(yes) => Some(yes) case Err(_) => None
  }

  /** A reply is accepted exactly if it comes from the model asked, has as many answers as there are tools, and answers
      every tool's question validly; then it keeps exactly the tools that their answers include, each once. */
  lemma DecodesExactly(e: Envelope, tools: seq<Tool>, model: string)
    requires DistinctTools(tools)
    ensures var r := DecodeWorkflow(e, tools, model);
            && (r.Ok? <==>
                  && e.model == model && |e.answers| == |tools|
                  && forall i :: 0 <= i < |tools| ==> Answers(e, tools[i], i + 1).Some?)
            && (r.Err? ==> r.error == Failure(502, "SELECTOR_INVALID_RESPONSE"))
            && (r.Ok? ==>
                  && DistinctTools(r.value) && (forall t <- r.value :: t in tools)
                  && forall i :: 0 <= i < |tools| ==>
                       (tools[i] in r.value <==> Answers(e, tools[i], i + 1) == Some(true)))
  {
    hide FirstIncluded, Answers;
    FirstDecodes(e, tools, |tools|);
  }

  lemma {:induction false} FirstDecodes(e: Envelope, tools: seq<Tool>, n: nat)
    requires DistinctTools(tools) && n <= |tools|
    ensures var r := FirstIncluded(e, tools, n);
            && (r.Ok? <==> forall i :: 0 <= i < n ==> Answers(e, tools[i], i + 1).Some?)
            && (r.Err? ==> r.error == INVALID)
            && (r.Ok? ==>
                  && DistinctTools(r.value) && (forall t <- r.value :: t in tools[..n])
                  && forall i :: 0 <= i < n ==> (tools[i] in r.value <==> Answers(e, tools[i], i + 1) == Some(true)))
  {
    hide Included, QuestionKey;
    if n > 0 {
      FirstDecodes(e, tools, n - 1);
      assert tools[..n] == tools[..n - 1] + [tools[n - 1]];
      if QuestionKey(n) in e.answers { IncludedFailure(e.model, tools[n - 1], e.answers[QuestionKey(n)]); }
      forall t <- tools[..n - 1] ensures t.id != tools[n - 1].id {
        var i :| 0 <= i < n - 1 && tools[i] == t;
      }
      forall i | 0 <= i < n - 1 ensures tools[i] != tools[n - 1] { assert tools[i].id != tools[n - 1].id; }
    }
  }

  /* ----- Joint and parallel requests ----- */

  /** The answers of all candidates in one reply. */
  function JointReply(model: string, answers: seq<RawAnswer>): Envelope
  {
    Envelope(model, QuestionMap(answers))
  }

  function QuestionMap(answers: seq<RawAnswer>): map<string, RawAnswer>
  {
    if answers == [] then map[]
    else QuestionMap(answers[..|answers| - 1])[QuestionKey(|answers|) := answers[|answers| - 1]]
  }

  lemma {:induction false} NotAsked(answers: seq<RawAnswer>, n: nat)
    requires |answers| < n
    ensures QuestionKey(n) !in QuestionMap(answers)
  {
    hide QuestionKey;
    if answers != [] {
      NotAsked(answers[..|answers| - 1], n);
      QuestionKeysDiffer(|answers|, n);
    }
  }

  lemma {:induction false} QuestionCount(answers: seq<RawAnswer>)
    ensures |QuestionMap(answers)| == |answers|
  {
    hide QuestionKey;
    if answers != [] {
      var front := answers[..|answers| - 1];
      QuestionCount(front);
      NotAsked(front, |answers|);
      assert QuestionMap(answers).Keys == QuestionMap(front).Keys + {QuestionKey(|answers|)};
    }
  }

  lemma {:induction false} QuestionAt(answers: seq<RawAnswer>, i: nat)
    requires i < |answers|
    ensures QuestionKey(i + 1) in QuestionMap(answers) && QuestionMap(answers)[QuestionKey(i + 1)] == answers[i]
  {
    hide QuestionKey;
    if i < |answers| - 1 {
      QuestionAt(answers[..|answers| - 1], i);
      QuestionKeysDiffer(i + 1, |answers|);
    }
  }

  /** What the request about one candidate alone returns. */
  function SingleReply(model: string, t: Tool, a: RawAnswer): Result<seq<Tool>, Failure> {
    DecodeWorkflow(JointReply(model, [a]), [t], model)
  }

  function Kept(r: Result<seq<Tool>, Failure>): seq<Tool> { if r.Ok? then r.value else [] }

  /** What reply i contributes. */
  function KeptAt(replies: seq<Result<seq<Tool>, Failure>>): nat -> seq<Tool> {
    (i: nat) => if i < |replies| then Kept(replies[i]) else []
  }

  /** The failure of the lowest failing index. */
  function FirstFailure(replies: seq<Result<seq<Tool>, Failure>>): Option<Failure> {
    if replies == [] then None else if replies[0].Err? then Some(replies[0].error) else FirstFailure(replies[1..])
  }

  /** The outcome of a parallel request: the lowest failing index's error, else all that was kept, by identifier. */
  function Join(replies: seq<Result<seq<Tool>, Failure>>): Result<seq<Tool>, Failure> {
    match FirstFailure(replies)
    case Some(f) => Err(f)
    case None => Ok(Sort(ById, Gather(KeptAt(replies), Range(|replies|))))
  }

  /** Each index arrives exactly once, in any order. */
  predicate Arrivals(order: seq<nat>, n: nat) { multiset(order) == multiset(Range(n)) }

  lemma ArrivesInRange(order: seq<nat>, n: nat, i: nat)
    requires Arrivals(order, n)
    ensures i in order <==> i < n
  {
    SameElements(order, Range(n));
    assert i < n ==> Range(n)[i] == i;
  }

  /** The joining loop. Its result does not depend on the order in which the workers finish. */
  method JoinReplies(replies: seq<Result<seq<Tool>, Failure>>, order: seq<nat>) returns (r: Result<seq<Tool>, Failure>)
    requires Arrivals(order, |replies|)
    requires DistinctTools(Gather(KeptAt(replies), Range(|replies|)))
    ensures r == Join(replies)
  {
    hide Arrivals, DistinctTools, FirstFailure;
    var errors := seq(|replies|, (i: nat) => None);
    var out: seq<Tool> := [];
    for i := 0 to |order|
      invariant |errors| == |replies| && out == Gather(KeptAt(replies), order[..i])
      invariant forall j <- order[..i] :: j < |replies| && errors[j] == if replies[j].Err? then Some(replies[j].error)
                else None
    {
      var index := order[i];
      assert index in order;
      ArrivesInRange(order, |replies|, index);
      var reply := replies[index];
      assert order[..i + 1] == order[..i] + [index] && order[..i + 1][..i] == order[..i];
      errors := errors[index := if reply.Err? then Some(reply.error) else None];
      out := out + Kept(reply);
    }
    assert order[..|order|] == order;
    forall j | 0 <= j < |replies| ensures errors[j] == if replies[j].Err? then Some(replies[j].error) else None {
      ArrivesInRange(order, |replies|, j);
    }
    var failure := Lowest(replies, errors);
    if failure.Some? { return Err(failure.value); }
    JoinForgetsOrder(replies, order);
    r := Ok(Sort(ById, out));
  }

  method Lowest(ghost replies: seq<Result<seq<Tool>, Failure>>, errors: seq<Option<Failure>>)
      returns (r: Option<Failure>)
    requires |errors| == |replies|
    requires forall j :: 0 <= j < |replies| ==> errors[j] == if replies[j].Err? then Some(replies[j].error) else None
    ensures r == FirstFailure(replies)
  {
    for i := 0 to |errors|
      invariant FirstFailure(replies) == FirstFailure(replies[i..])
    {
      assert replies[i..][0] == replies[i] && replies[i..][1..] == replies[i + 1..];
      if errors[i].Some? { return errors[i]; }
    }
    r := None;
  }

  lemma JoinForgetsOrder(replies: seq<Result<seq<Tool>, Failure>>, order: seq<nat>)
    requires Arrivals(order, |replies|) && DistinctTools(Gather(KeptAt(replies), Range(|replies|)))
    ensures Sort(ById, Gather(KeptAt(replies), order)) == Sort(ById, Gather(KeptAt(replies), Range(|replies|)))
  {
    hide DistinctTools, Orders;
    var all := Gather(KeptAt(replies), Range(|replies|));
    GatherPermutes(KeptAt(replies), Range(|replies|), order);
    ToolsOrder(all);
    SortForgetsOrder(ById, all, Gather(KeptAt(replies), order));
  }

  /** The join loop gets from the worker pool what it asks for: under every schedule, once n results are in, their
      indices are each of the n indices exactly once. */
  lemma PoolDelivers(n: nat, labels: seq<Pool.Label<seq<Tool>>>)
    requires |Pool.Run(n, labels).received| == n
    ensures Arrivals(Pool.Indices(Pool.Run(n, labels).received), n)
  {
    hide Pool.Run, Pool.Indices;
    Pool.PoolReturns(n, labels);
  }

  /* ----- Joint equals parallel ----- */

  datatype Asked = Asked(tool: Tool, answer: RawAnswer)

  function IfIncluded(model: string): Asked -> seq<Tool> {
    (x: Asked) => if Included(model, x.tool, x.answer) == Ok(true) then [x.tool] else []
  }

  function Pairs(tools: seq<Tool>, answers: seq<RawAnswer>): seq<Asked>
    requires |tools| == |answers|
  {
    seq(|tools|, i requires 0 <= i < |tools| => Asked(tools[i], answers[i]))
  }

  predicate AllValid(model: string, pairs: seq<Asked>) {
    forall x <- pairs :: Included(model, x.tool, x.answer).Ok?
  }

  /** A joint request fails as a whole on one invalid answer, and otherwise selects what its answers include. */
  lemma {:induction false} JointFirst(model: string, tools: seq<Tool>, answers: seq<RawAnswer>, n: nat)
    requires |tools| == |answers| && n <= |tools|
    ensures FirstIncluded(JointReply(model, answers), tools, n) ==
            if AllValid(model, Pairs(tools, answers)[..n])
            then Ok(Gather(IfIncluded(model), Pairs(tools, answers)[..n])) else Err(INVALID)
  {
    hide Included, QuestionKey, QuestionMap;
    if n > 0 {
      hide AllValid, Gather;
      JointFirst(model, tools, answers, n - 1);
      QuestionAt(answers, n - 1);
      IncludedFailure(model, tools[n - 1], answers[n - 1]);
      var pairs := Pairs(tools, answers);
      assert pairs[..n] == pairs[..n - 1] + [pairs[n - 1]];
    } else {
      assert Pairs(tools, answers)[..n] == [];
    }
  }

  lemma IncludedFailure(model: string, t: Tool, a: RawAnswer)
    ensures var r := Included(model, t, a); r.Err? ==> r.error == INVALID
  {
  }

  lemma JointReplyDecodes(model: string, tools: seq<Tool>, answers: seq<RawAnswer>)
    requires |tools| == |answers|
    ensures DecodeWorkflow(JointReply(model, answers), tools, model) ==
            if AllValid(model, Pairs(tools, answers)) then Ok(Gather(IfIncluded(model), Pairs(tools, answers)))
            else Err(INVALID)
  {
    hide FirstIncluded, QuestionMap, AllValid;
    QuestionCount(answers);
    JointFirst(model, tools, answers, |tools|);
    assert Pairs(tools, answers)[..|tools|] == Pairs(tools, answers);
  }

  lemma SingleReplyIs(model: string, t: Tool, a: RawAnswer)
    ensures SingleReply(model, t, a) ==
            if Included(model, t, a).Ok? then Ok(IfIncluded(model)(Asked(t, a))) else Err(INVALID)
  {
    hide Included, DecodeWorkflow;
    JointReplyDecodes(model, [t], [a]);
    assert Pairs([t], [a]) == [] + [Asked(t, a)];
    assert [] + IfIncluded(model)(Asked(t, a)) == IfIncluded(model)(Asked(t, a));
  }

  function SingleReplies(model: string, tools: seq<Tool>, answers: seq<RawAnswer>): seq<Result<seq<Tool>, Failure>>
    requires |tools| == |answers|
  {
    seq(|tools|, i requires 0 <= i < |tools| => SingleReply(model, tools[i], answers[i]))
  }

  /** The bundle of a workflow: capped when a cap is given, refused when more than eight remain. */
  datatype Bundle = Bundle(tools: seq<Tool>, refine: bool)

  function Expose(included: seq<Tool>, limit: nat): seq<Tool> {
    var sorted := Sort(ById, included);
    if 0 < limit < |sorted| then sorted[..limit] else sorted
  }

  function BundleOf(selected: seq<Tool>, limit: nat): Bundle {
    var exposed := if limit > 0 then Expose(selected, limit) else selected;
    if |exposed| > 8 then Bundle([], true) else Bundle(Sort(ById, exposed), false)
  }

  /** What a workflow request prepares from the tools that were selected among `count` candidates. */
  function PrepareBundle(validate: Validator, catalogId: string, version: string, tools: seq<Tool>,
                         allowed: seq<string>,
                         external: bool, selected: seq<Tool>, count: nat, limit: nat, firstId: Id, at: Instant)
    : (r: Result<Op.Response, Failure>)
    ensures r.Ok? ==> r.value.Bundle?
  {
    if exists a <- allowed :: a !in ToolIds(tools) then Err(Failure(400, "INVALID_REQUEST"))
    else if allowed == [] then Ok(Op.Bundle([], "no_match", 0))
    else if !external then Err(Failure(503, "DATA_PROCESSING_NOT_CONFIGURED"))
    else
      var bundle := BundleOf(selected, limit);
      if bundle.refine then Ok(Op.Bundle([], "needs_refinement", count))
      else
        Ok(Op.Bundle(Op.PrepareEach(validate, catalogId, version, bundle.tools, firstId, at),
                     if bundle.tools == [] then "no_match" else "prepared", count))
  }

  /** The operations of a bundle are those of some tools, in their order. */
  lemma BundleViews(validate: Validator, catalogId: string, version: string, tools: seq<Tool>, allowed: seq<string>,
                    external: bool, selected: seq<Tool>, count: nat, limit: nat, firstId: Id, at: Instant)
    returns (exposed: seq<Tool>)
    requires PrepareBundle(validate, catalogId, version, tools, allowed, external, selected, count, limit, firstId,
                           at).Ok?
    ensures PrepareBundle(validate, catalogId, version, tools, allowed, external, selected, count, limit, firstId, at)
              .value.views == Op.PrepareEach(validate, catalogId, version, exposed, firstId, at)
  {
    hide BundleOf;
    exposed := if allowed == [] || BundleOf(selected, limit).refine then [] else BundleOf(selected, limit).tools;
  }

  /** Exposure keeps the tools with the smallest identifiers, in their order, as many as the cap allows. */
  lemma ExposesTheFirst(selected: seq<Tool>, limit: nat)
    requires DistinctTools(selected)
    ensures var e := Expose(selected, limit);
            && |e| == (if 0 < limit < |selected| then limit else |selected|)
            && (forall i, j :: 0 <= i < j < |e| ==> Before(e[i].id, e[j].id))
            && (forall t <- e :: t in selected)
            && (forall t <- selected, x <- e :: t !in e ==> Before(x.id, t.id))
  {
    hide DistinctTools, Orders, Distinct, Sort;
    ToolsOrder(selected);
    SortAscends(ById, selected);
    var s := Sort(ById, selected);
    SameElements(s, selected);
    var e := Expose(selected, limit);
    forall t <- e ensures t in selected { var i :| 0 <= i < |e| && e[i] == t; assert s[i] in s; }
    forall k | 0 <= k < |e| ensures e[k] == s[k] && s[k] in e { assert e[k] in e; }
    forall t <- selected, x <- e | t !in e ensures Before(x.id, t.id) {
      var i :| 0 <= i < |e| && e[i] == x;
      var j :| 0 <= j < |s| && s[j] == t;
      assert ById(s[i], s[j]);
    }
  }

  /** A workflow is refused as a preparation is. Otherwise the tools with the smallest identifiers, as many as the cap
      allows, are prepared one by one without arguments, unless more than eight remain. */
  lemma BundleExactly(validate: Validator, catalogId: string, version: string, tools: seq<Tool>, allowed: seq<string>,
                      external: bool, selected: seq<Tool>, count: nat, limit: nat, firstId: Id, at: Instant)
    requires DistinctTools(selected)
    ensures var r := PrepareBundle(validate, catalogId, version, tools, allowed, external, selected, count, limit,
                                   firstId, at);
            var foreign := exists a <- allowed :: forall t <- tools :: t.id != a;
            var kept := if 0 < limit < |selected| then limit else |selected|;
            && (r == Err(Failure(400, "INVALID_REQUEST")) <==> foreign)
            && (r == Err(Failure(503, "DATA_PROCESSING_NOT_CONFIGURED")) <==> !foreign && allowed != [] && !external)
            && (r.Err? ==> r.error.status == 400 || r.error.status == 503)
            && (r.Ok? && allowed == [] ==> r.value == Op.Bundle([], "no_match", 0))
            && (r.Ok? && allowed != [] ==>
                  && r.value.candidateCount == count
                  && (r.value.status == "needs_refinement" <==> kept > 8)
                  && (r.value.status == "no_match" <==> kept == 0)
                  && (r.value.status == "prepared" <==> 1 <= kept <= 8)
                  && |r.value.views| == (if kept > 8 then 0 else kept)
                  && forall i :: 0 <= i < |r.value.views| ==>
                       var v, exposed := r.value.views[i], Expose(selected, limit);
                       && i < |exposed| && v.id == firstId + i && v.revision == 1 && v.catalogId == catalogId
                       && v.version == version && v.expires == at + 900 * SECOND
                       && Op.PreparedFor(validate, exposed[i], "{}", v))
  {
    hide Op.PreparedFor, Op.PrepareEach, Sort, DistinctTools;
    forall a <- allowed ensures a in ToolIds(tools) <==> exists t <- tools :: t.id == a {}
    if allowed != [] && external && !exists a <- allowed :: a !in ToolIds(tools) {
      ExposesTheFirst(selected, limit);
      SortedOnce(selected, limit);
      var bundle := BundleOf(selected, limit);
      forall i | 0 <= i < |bundle.tools|
        ensures var v := Op.PrepareEach(validate, catalogId, version, bundle.tools, firstId, at)[i];
                && v.id == firstId + i && v.revision == 1 && v.catalogId == catalogId && v.version == version
                && v.expires == at + 900 * SECOND && Op.PreparedFor(validate, bundle.tools[i], "{}", v)
      {
        Op.PrepareEachExactly(validate, catalogId, version, bundle.tools, firstId, at, i);
      }
    }
  }

  /** Sorting what was exposed changes nothing. */
  lemma SortedOnce(selected: seq<Tool>, limit: nat)
    requires DistinctTools(selected)
    ensures var b := BundleOf(selected, limit); !b.refine ==> b.tools == Expose(selected, limit)
  {
    hide Sort, Orders, Distinct;
    var e := Expose(selected, limit);
    ExposesTheFirst(selected, limit);
    forall i, j | 0 <= i < j < |e| ensures e[i].id != e[j].id {
      BeforeIrreflexive(e[i].id);
    }
    ToolsOrder(e);
    SortAscends(ById, e);
    SameElements(Sort(ById, e), e);
    assert Ascending(ById, e);
    OneArrangement(ById, e, Sort(ById, e));
  }

  /** An answer includes its tool exactly when it says yes with seventy per cent, or eighty-five for a tool that does
      not only read; and it is valid exactly when it is a proper distribution over yes and no that names its maximum. */
  lemma IncludedExactly(model: string, t: Tool, a: RawAnswer)
    ensures var r := Included(model, t, a);
            var p := a.probabilities;
            && (r.Ok? <==>
                  && model != "" && a.kind == "choice" && a.confidence.Some? && 0.0 <= a.confidence.value <= 1.0
                  && p.Keys == {"yes", "no"} && 0.0 <= p["yes"] <= 1.0 && 0.0 <= p["no"] <= 1.0
                  && 0.9999 <= p["yes"] + p["no"] <= 1.0001
                  && (a.choice == "yes" || a.choice == "no")
                  && p[a.choice] >= p["yes"] && p[a.choice] >= p["no"])
            && (r.Err? ==> r.error == Failure(502, "SELECTOR_INVALID_RESPONSE"))
            && (r == Ok(true) <==> r.Ok? && a.choice == "yes" && p["yes"] >= if t.effect == Read then 0.70 else 0.85)
  {
    var p := a.probabilities;
    assert YES_NO[0] == "yes" && YES_NO[1] == "no";
    assert forall k :: k in YES_NO <==> k == "yes" || k == "no";
    forall k ensures k in Elements(YES_NO) <==> k in {"yes", "no"} { assert k in Elements(YES_NO) <==> k in YES_NO; }
    if p.Keys == {"yes", "no"} {
      YesAndNo(p);
    }
  }

  lemma YesAndNo(p: Probabilities)
    requires p.Keys == {"yes", "no"}
    ensures forall k <- YES_NO :: k in p
    ensures Sum(p, YES_NO) == p["yes"] + p["no"]
  {
    var one := YES_NO[..1];
    assert YES_NO == ["yes", "no"] && one == ["yes"] && one[..0] == [];
    assert Sum(p, one) == p["yes"];
  }

  /** A parallel request fails exactly with the error of its lowest failing reply, and otherwise yields exactly the
      tools that its replies keep, by identifier. */
  lemma JoinExactly(replies: seq<Result<seq<Tool>, Failure>>, f: Failure, t: Tool)
    requires DistinctTools(Gather(KeptAt(replies), Range(|replies|)))
    ensures var r := Join(replies);
            && (r == Err(f) <==>
                  exists i :: 0 <= i < |replies| && replies[i] == Err(f) && forall j :: 0 <= j < i ==> replies[j].Ok?)
            && (r.Ok? <==> forall i :: 0 <= i < |replies| ==> replies[i].Ok?)
            && (r.Ok? ==> forall i, j :: 0 <= i < j < |r.value| ==> Before(r.value[i].id, r.value[j].id))
            && (r.Ok? ==> (t in r.value <==> exists i :: 0 <= i < |replies| && replies[i].Ok? && t in replies[i].value))
  {
    hide Sort, DistinctTools, Orders, Distinct, FirstFailure;
    LowestFailure(replies, f);
    var all := Gather(KeptAt(replies), Range(|replies|));
    ToolsOrder(all);
    SortAscends(ById, all);
    SameElements(Sort(ById, all), all);
    GatherMember(KeptAt(replies), Range(|replies|), t);
    if i :| 0 <= i < |replies| && replies[i].Ok? && t in replies[i].value {
      assert Range(|replies|)[i] == i;
      assert t in KeptAt(replies)(i);
    }
  }

  lemma {:induction false} LowestFailure(replies: seq<Result<seq<Tool>, Failure>>, f: Failure)
    ensures FirstFailure(replies) == Some(f) <==>
            exists i :: 0 <= i < |replies| && replies[i] == Err(f) && forall j :: 0 <= j < i ==> replies[j].Ok?
    ensures FirstFailure(replies).None? <==> forall i :: 0 <= i < |replies| ==> replies[i].Ok?
  {
    if replies != [] {
      var rest := replies[1..];
      LowestFailure(rest, f);
      if replies[0].Ok? {
        if i :| 0 <= i < |rest| && rest[i] == Err(f) && forall j :: 0 <= j < i ==> rest[j].Ok? {
          assert replies[i + 1] == Err(f);
          forall j | 0 <= j < i + 1 ensures replies[j].Ok? { if j > 0 { assert replies[j] == rest[j - 1]; } }
        }
        if i :| 0 <= i < |replies| && replies[i] == Err(f) && forall j :: 0 <= j < i ==> replies[j].Ok? {
          assert rest[i - 1] == Err(f);
          forall j | 0 <= j < i - 1 ensures rest[j].Ok? { assert rest[j] == replies[j + 1]; }
        }
        assert forall i :: 0 < i < |replies| ==> replies[i] == rest[i - 1];
      }
    }
  }

  lemma {:induction false} PairsDistinct(model: string, tools: seq<Tool>, answers: seq<RawAnswer>)
    requires |tools| == |answers| && DistinctTools(tools)
    ensures DistinctTools(Gather(IfIncluded(model), Pairs(tools, answers)))
    ensures forall t <- Gather(IfIncluded(model), Pairs(tools, answers)) :: t in tools
  {
    hide Included;
    if tools != [] {
      var n := |tools| - 1;
      PairsDistinct(model, tools[..n], answers[..n]);
      var x := Asked(tools[n], answers[n]);
      assert Pairs(tools, answers) == Pairs(tools[..n], answers[..n]) + [x];
      assert tools == tools[..n] + [tools[n]];
      forall t <- Gather(IfIncluded(model), Pairs(tools[..n], answers[..n])) ensures t.id != tools[n].id {
        assert t in tools[..n];
      }
    }
  }

  /** What single requests keep is what the joint one selects. */
  lemma {:induction false} KeptIsIncluded(model: string, tools: seq<Tool>, answers: seq<RawAnswer>, n: nat)
    requires |tools| == |answers| && n <= |tools| && AllValid(model, Pairs(tools, answers))
    ensures Gather(KeptAt(SingleReplies(model, tools, answers)), Range(n)) ==
            Gather(IfIncluded(model), Pairs(tools, answers)[..n])
  {
    hide Included, SingleReply, AllValid, Gather;
    if n > 0 {
      KeptIsIncluded(model, tools, answers, n - 1);
      SingleReplyIs(model, tools[n - 1], answers[n - 1]);
      var pairs, replies := Pairs(tools, answers), SingleReplies(model, tools, answers);
      ValidAt(model, pairs, n - 1);
      assert KeptAt(replies)(n - 1) == IfIncluded(model)(pairs[n - 1]);
      hide SingleReplies, IfIncluded, KeptAt;
      assert pairs[..n] == pairs[..n - 1] + [pairs[n - 1]] && Range(n) == Range(n - 1) + [n - 1];
      GatherSnoc(IfIncluded(model), pairs[..n - 1], pairs[n - 1]);
      GatherSnoc<nat, Tool>(KeptAt(replies), Range(n - 1), n - 1);
    } else {
      assert Pairs(tools, answers)[..0] == [] && Range(0) == [];
      GatherNothing(KeptAt(SingleReplies(model, tools, answers)));
      GatherNothing(IfIncluded(model));
    }
  }

  lemma ValidAt(model: string, pairs: seq<Asked>, i: nat)
    requires AllValid(model, pairs) && i < |pairs|
    ensures Included(model, pairs[i].tool, pairs[i].answer).Ok?
  {
    hide Included;
    assert pairs[i] in pairs;
  }

  lemma {:induction false} NoFailure(replies: seq<Result<seq<Tool>, Failure>>, failure: Failure)
    requires forall r <- replies :: r.Err? ==> r.error == failure
    ensures FirstFailure(replies) == if forall r <- replies :: r.Ok? then None else Some(failure)
  {
    if replies != [] {
      assert replies[0] in replies && forall r :: r in replies <==> r == replies[0] || r in replies[1..];
      NoFailure(replies[1..], failure);
    }
  }

  /** For the same answers, joint and parallel requests fail together on one invalid answer, and otherwise yield
      the same bundle, in every order in which the workers finish and under every cap. */
  lemma JointIsParallel(model: string, tools: seq<Tool>, answers: seq<RawAnswer>, limit: nat)
    requires |tools| == |answers| && DistinctTools(tools)
    ensures var joint := DecodeWorkflow(JointReply(model, answers), tools, model);
            var parallel := Join(SingleReplies(model, tools, answers));
            && (joint.Ok? <==> AllValid(model, Pairs(tools, answers)))
            && (joint.Ok? <==> parallel.Ok?)
            && (joint.Err? ==> joint == Err(INVALID) && parallel == Err(INVALID))
            && (joint.Ok? ==> BundleOf(joint.value, limit) == BundleOf(parallel.value, limit))
  {
    hide AllValid, DecodeWorkflow, SingleReply, BundleOf, Included;
    var replies := SingleReplies(model, tools, answers);
    var pairs := Pairs(tools, answers);
    JointReplyDecodes(model, tools, answers);
    ParallelOutcome(model, tools, answers);
    if AllValid(model, pairs) {
      KeptIsIncluded(model, tools, answers, |tools|);
      assert pairs[..|tools|] == pairs;
      PairsDistinct(model, tools, answers);
      BundleForgetsOrder(Gather(IfIncluded(model), pairs), limit);
    }
  }

  lemma ParallelOutcome(model: string, tools: seq<Tool>, answers: seq<RawAnswer>)
    requires |tools| == |answers|
    ensures FirstFailure(SingleReplies(model, tools, answers)) == if AllValid(model, Pairs(tools, answers)) then None
            else Some(INVALID)
  {
    hide Included, SingleReply, FirstFailure;
    var replies, pairs := SingleReplies(model, tools, answers), Pairs(tools, answers);
    forall i | 0 <= i < |tools|
      ensures replies[i] == if Included(model, pairs[i].tool, pairs[i].answer).Ok? then Ok(IfIncluded(model)(pairs[i]))
              else Err(INVALID)
    {
      SingleReplyIs(model, tools[i], answers[i]);
    }
    NoFailure(replies, INVALID);
    if forall r <- replies :: r.Ok? {
      forall x <- pairs ensures Included(model, x.tool, x.answer).Ok? {
        var i :| 0 <= i < |pairs| && pairs[i] == x;
        assert replies[i] in replies;
      }
    } else {
      var r :| r in replies && r.Err?;
      var i :| 0 <= i < |replies| && replies[i] == r;
      assert pairs[i] in pairs;
    }
  }

  lemma BundleForgetsOrder(selected: seq<Tool>, limit: nat)
    requires DistinctTools(selected)
    ensures BundleOf(selected, limit) == BundleOf(Sort(ById, selected), limit)
  {
    hide DistinctTools, Orders;
    ToolsOrder(selected);
    SortForgetsOrder(ById, selected, Sort(ById, selected));
  }

  method ExposeWorkflow(included: seq<Tool>, limit: nat) returns (out: seq<Tool>)
    ensures out == Expose(included, limit)
  {
    out := Sort(ById, included);
    if limit > 0 && |out| > limit { out := out[..limit]; }
  }
}
