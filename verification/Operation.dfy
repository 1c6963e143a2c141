/** The operation state machine of the Go core: one request against one stored operation. */
module Operation {
  import opened Wire

  datatype Receipt = Receipt(outcome: string, duration: int, errorCode: string)

  datatype Action =
    | Cancel(expected: int)
    | Resolve(expected: int, choice: string, arguments: Args)
    | Decide(expected: int, arguments: Args)
    | Record(decisionId: Id, receipt: Receipt)

  datatype Response =
    | ViewResponse(view: View)
    | DecisionResponse(decision: Decision)
    | Recorded
    | Bundle(views: seq<View>, status: string, candidateCount: nat)

  datatype Stored = Stored(actor: Actor, view: View)

  /** What an accepted action writes and answers. */
  datatype Outcome = Outcome(view: View, receipts: map<Id, Receipt>, response: Response)

  /** Fresh identifiers available to one request. */
  datatype Ids = Ids(decisionId: Id, executionKey: Id)

  function NextTool(e: Effect): string {
    if e == Read then "execute_read_action" else "execute_write_action"
  }

  function Select(t: Tool): Selected {
    Selected(t.id, t.name, t.title, t.description, t.effect, t.openWorld, t.input, Sha256(t.input))
  }

  /** Binds a tool to an operation and validates the arguments known so far. */
  function MakeReady(validate: Validator, view: View, tool: Tool, args: Args): View {
    var (issues, missing) := validate(tool.input, args);
    var bound := view.(selected := Some(Select(tool)), next := NextTool(tool.effect),
                       candidates := [], reason := "", message := "");
    if |issues| > 0 then
      bound.(status := NeedsArguments, digest := None, issues := Some(issues), missing := Some(missing))
    else
      bound.(status := Ready, digest := Some(Sha256(args)), issues := None, missing := None)
  }

  /** The first tool of a catalog that bears the identifier. */
  function FindTool(tools: seq<Tool>, id: string): (r: Option<Tool>)
    ensures r.Some? ==> r.value in tools && r.value.id == id
    ensures r.None? <==> id !in ToolIds(tools)
  {
    if tools == [] then None
    else if tools[0].id == id then Some(tools[0])
    else
      assert tools == [tools[0]] + tools[1..];
      FindTool(tools[1..], id)
  }

  /** Ownership, authorization context and tool permission, checked before any action. */
  function Load(operations: map<Id, Stored>, actor: Actor, id: Id): Result<Stored, Failure> {
    if id !in operations then Err(Failure(404, "OPERATION_NOT_FOUND"))
    else
      var stored := operations[id];
      if stored.actor.principal != actor.principal || stored.actor.workspace != actor.workspace then
        Err(Failure(404, "OPERATION_NOT_FOUND"))
      else if stored.actor.revision != actor.revision then
        Err(Failure(409, "AUTHORIZATION_CONTEXT_CHANGED"))
      else if stored.view.selected.Some? && stored.view.selected.value.id !in actor.allowed then
        Err(Failure(403, "TOOL_NOT_ALLOWED"))
      else Ok(stored)
  }

  function CancelView(view: View): View {
    View(view.id, view.revision + 1, view.catalogId, view.version, view.expires, Cancelled,
         None, None, "", None, None, [], "", "", None)
  }

  function Min(a: int, b: int): int { if b < a then b else a }

  /** The expiry column of an operation's row, which keeps its timestamp to the nearest microsecond, ties to even. */
  function Deadline(expires: Instant): (t: Instant)
    ensures -500 <= t - expires <= 500
  {
    var whole, rest := expires / 1000, expires % 1000;
    if rest < 500 || (rest == 500 && whole % 2 == 0) then 1000 * whole else 1000 * (whole + 1)
  }

  function IssueDecision(view: View, selected: Selected, args: Args, now: Instant, ids: Ids): Decision {
    Decision(ids.decisionId, view.id, view.revision + 1, view.catalogId, view.version,
             selected.id, selected.digest, Sha256(args), selected.effect, ids.executionKey,
             now, Min(now + MINUTE, Deadline(view.expires)))
  }

  function IssuedView(view: View, decision: Decision): View {
    view.(revision := view.revision + 1, status := DecisionIssued, decision := Some(decision),
          digest := None, issues := None, missing := None, next := "")
  }

  /** One action on a loaded operation. `catalog` is the upload that the view's version names. */
  function Transition(validate: Validator, catalog: Option<seq<Tool>>, receipts: map<Id, Receipt>,
                      stored: Stored, actor: Actor, action: Action, now: Instant, ids: Ids)
    : Result<Outcome, Failure>
  {
    var view := stored.view;
    if !action.Record? && Deadline(view.expires) <= now then Err(Failure(410, "OPERATION_EXPIRED"))
    else match action
      case Record(decisionId, receipt) => TransitionRecord(receipts, view, decisionId, receipt, now)
      case Cancel(expected) =>
        if view.status == DecisionIssued then Err(Failure(409, "CANNOT_CANCEL_ISSUED"))
        else if view.status !in {Ready, NeedsArguments, NeedsChoice} then Err(Failure(409, "OPERATION_STATE_INVALID"))
        else if expected != view.revision then Err(Failure(409, "REVISION_CONFLICT"))
        else
          var cancelled := CancelView(view);
          Ok(Outcome(cancelled, receipts, ViewResponse(cancelled)))
      case Resolve(expected, choice, args) =>
        TransitionResolve(validate, catalog, receipts, stored, actor, expected, choice, args)
      case Decide(expected, args) => TransitionDecide(validate, receipts, view, expected, args, now, ids)
  }

  function TransitionRecord(receipts: map<Id, Receipt>, view: View, decisionId: Id, receipt: Receipt, now: Instant)
    : Result<Outcome, Failure>
  {
    if view.decision.None? || view.decision.value.id != decisionId then Err(Failure(400, "INVALID_REQUEST"))
    else if now > view.decision.value.issued + 24 * HOUR then Err(Failure(410, "DECISION_EXPIRED"))
    else
      var kept := if decisionId in receipts then receipts else receipts[decisionId := receipt];
      if kept[decisionId].outcome != receipt.outcome then Err(Failure(409, "RECEIPT_CONFLICT"))
      else Ok(Outcome(view, kept, Recorded))
  }

  function TransitionResolve(validate: Validator, catalog: Option<seq<Tool>>, receipts: map<Id, Receipt>,
                             stored: Stored, actor: Actor, expected: int, choice: string, args: Args)
    : Result<Outcome, Failure>
  {
    var view := stored.view;
    if view.status != NeedsChoice then Err(Failure(409, "OPERATION_STATE_INVALID"))
    else if expected != view.revision then Err(Failure(409, "REVISION_CONFLICT"))
    else if choice !in CandidateIds(view.candidates) then Err(Failure(400, "INVALID_REQUEST"))
    else if choice !in actor.allowed || choice !in stored.actor.allowed then Err(Failure(403, "TOOL_NOT_ALLOWED"))
    else if catalog.None? then Err(Failure(500, "INTERNAL_ERROR"))
    else
      // A catalog without the tool leaves the view as it is and still answers with it.
      var resolved := match FindTool(catalog.value, choice)
        case Some(tool) => MakeReady(validate, view.(revision := view.revision + 1), tool, args)
        case None => view;
      Ok(Outcome(resolved, receipts, ViewResponse(resolved)))
  }

  function TransitionDecide(validate: Validator, receipts: map<Id, Receipt>, view: View,
                            expected: int, args: Args, now: Instant, ids: Ids)
    : Result<Outcome, Failure>
  {
    if view.status == DecisionIssued then
      if view.decision.None? || view.decision.value.argumentsDigest != Sha256(args) then
        Err(Failure(409, "OPERATION_ALREADY_ISSUED"))
      else if view.decision.value.notAfter <= now then Err(Failure(410, "DECISION_EXPIRED"))
      else Ok(Outcome(view, receipts, DecisionResponse(view.decision.value)))
    else if view.status != Ready && view.status != NeedsArguments then Err(Failure(409, "OPERATION_STATE_INVALID"))
    else if expected != view.revision then Err(Failure(409, "REVISION_CONFLICT"))
    else if view.selected.None? then Err(Failure(500, "INTERNAL_ERROR"))
    else
      var selected := view.selected.value;
      var (issues, missing) := validate(selected.input, args);
      if |issues| > 0 then
        var incomplete := view.(revision := view.revision + 1, status := NeedsArguments, digest := None,
                                issues := Some(issues), missing := Some(missing));
        Ok(Outcome(incomplete, receipts, ViewResponse(incomplete)))
      else if Min(now + MINUTE, Deadline(view.expires)) - now < SECOND then Err(Failure(410, "DECISION_EXPIRED"))
      else
        var decision := IssueDecision(view, selected, args, now, ids);
        Ok(Outcome(IssuedView(view, decision), receipts, DecisionResponse(decision)))
  }

  /* ----- First views ----- */

  /** What selection yields for an intent: a tool, a short list to choose from, or nothing. */
  datatype Selection =
    | Chosen(tool: Tool)
    | Ambiguous(choices: seq<Candidate>, reason: string)
    | Abstained(reason: string)

  /** A selection drawn from a catalog; the selection modules prove it of every selector. */
  predicate Selectable(tools: seq<Tool>, s: Selection) {
    match s
    case Chosen(t) => t in tools
    case Ambiguous(choices, _) =>
      2 <= |choices| <= 5 && DistinctCandidates(choices) && CandidateIds(choices) <= ToolIds(tools)
    case Abstained(_) => true
  }

  const LIFETIME: int := 15 * MINUTE

  function FirstView(id: Id, catalogId: string, version: string, now: Instant, reason: string): View {
    View(id, 1, catalogId, version, now + LIFETIME, NoMatch, None, None, "", None, None, [],
         reason, "toolgate.no_match.refine_intent", None)
  }

  /** The view a preparation creates. `external` tells whether the integration may send data to the selector. */
  function Prepare(validate: Validator, catalogId: string, version: string, tools: seq<Tool>, allowed: seq<string>,
                   external: bool, selection: Selection, known: Args, id: Id, now: Instant)
    : Result<View, Failure>
  {
    if exists a <- allowed :: a !in ToolIds(tools) then Err(Failure(400, "INVALID_REQUEST"))
    else if allowed == [] then Ok(FirstView(id, catalogId, version, now, "no_authorized_tools"))
    else if !external then Err(Failure(503, "DATA_PROCESSING_NOT_CONFIGURED"))
    else match selection
      case Chosen(tool) =>
        Ok(MakeReady(validate, FirstView(id, catalogId, version, now, "no_authorized_tools"), tool, known))
      case Ambiguous(choices, reason) =>
        Ok(FirstView(id, catalogId, version, now, reason).(
           status := NeedsChoice, candidates := choices, next := "prepare_action", message := ""))
      case Abstained(reason) => Ok(FirstView(id, catalogId, version, now, reason))
  }

  const NO_ARGUMENTS: Args := "{}"

  /** One operation per selected tool, all without arguments. */
  function PrepareEach(validate: Validator, catalogId: string, version: string, selected: seq<Tool>,
                       firstId: Id, now: Instant): (views: seq<View>)
    ensures |views| == |selected|
  {
    seq(|selected|, i requires 0 <= i < |selected| =>
      MakeReady(validate, FirstView(firstId + i, catalogId, version, now, ""), selected[i], NO_ARGUMENTS))
  }

  /** Every prepared view starts a life, and offers only tools of its catalog. */
  lemma PreparedStartsALife(validate: Validator, catalogId: string, version: string, tools: seq<Tool>,
                            allowed: seq<string>, external: bool, selection: Selection, known: Args, id: Id,
                            now: Instant)
    requires Selectable(tools, selection)
    requires Prepare(validate, catalogId, version, tools, allowed, external, selection, known, id, now).Ok?
    ensures var v := Prepare(validate, catalogId, version, tools, allowed, external, selection, known, id, now).value;
            && Life([v]) && v.id == id && v.catalogId == catalogId && v.version == version
            && v.decision.None? && now < v.expires
            && CandidateIds(v.candidates) <= ToolIds(tools)
            && (v.selected.Some? ==> v.selected.value.id in ToolIds(tools))
  {
  }

  /** What a chosen tool makes of a fresh preparation: the tool, and the outcome of validating what was known. */
  ghost predicate PreparedFor(validate: Validator, tool: Tool, known: Args, view: View) {
    && view.selected.Some? && view.selected.value.id == tool.id && view.selected.value.name == tool.name
    && view.selected.value.title == tool.title && view.selected.value.description == tool.description
    && view.selected.value.effect == tool.effect && view.selected.value.openWorld == tool.openWorld
    && view.selected.value.input == tool.input && view.selected.value.digest == Sha256(tool.input)
    && view.candidates == [] && view.reason == "" && view.message == "" && view.decision.None?
    && (view.next == "execute_read_action" <==> tool.effect == Read)
    && (view.next == "execute_write_action" <==> tool.effect != Read)
    && var (issues, missing) := validate(tool.input, known);
       && (view.status == Ready <==> issues == [])
       && (view.status == NeedsArguments <==> issues != [])
       && (issues == [] ==> view.digest == Some(Sha256(known)) && view.issues.None? && view.missing.None?)
       && (issues != [] ==> view.digest.None? && view.issues == Some(issues) && view.missing == Some(missing))
  }

  /** A preparation is refused exactly for an allowed tool outside the catalog, and then for missing permission to send
      data to the selector. Otherwise its view has fifteen minutes and tells exactly what was selected. */
  lemma PrepareExactly(validate: Validator, catalogId: string, version: string, tools: seq<Tool>, allowed: seq<string>,
                       external: bool, selection: Selection, known: Args, id: Id, now: Instant)
    ensures var r := Prepare(validate, catalogId, version, tools, allowed, external, selection, known, id, now);
            var foreign := exists a <- allowed :: forall t <- tools :: t.id != a;
            && (r == Err(Failure(400, "INVALID_REQUEST")) <==> foreign)
            && (r == Err(Failure(503, "DATA_PROCESSING_NOT_CONFIGURED")) <==> !foreign && allowed != [] && !external)
            && (r.Err? ==> r.error.status == 400 || r.error.status == 503)
            && (r.Ok? ==>
                  var v := r.value;
                  && v.id == id && v.revision == 1 && v.catalogId == catalogId && v.version == version
                  && v.expires == now + 900 * SECOND && v.decision.None?
                  && (allowed == [] ==> v.status == NoMatch && v.reason == "no_authorized_tools")
                  && (allowed != [] ==>
                        match selection
                        case Chosen(tool) => PreparedFor(validate, tool, known, v)
                        case Ambiguous(choices, reason) =>
                          && v.status == NeedsChoice && v.candidates == choices && v.reason == reason
                          && v.next == "prepare_action" && v.message == "" && v.selected.None?
                        case Abstained(reason) =>
                          && v.status == NoMatch && v.reason == reason && v.selected.None? && v.candidates == []
                          && v.next == "" && v.message == "toolgate.no_match.refine_intent"))
  {
    forall a <- allowed ensures a in ToolIds(tools) <==> exists t <- tools :: t.id == a {}
    if allowed != [] && selection.Chosen? {
      var first := FirstView(id, catalogId, version, now, "no_authorized_tools");
      ReadyExactly(validate, first, selection.tool, known);
    }
  }

  lemma ReadyExactly(validate: Validator, first: View, tool: Tool, known: Args)
    requires first.decision.None? && first.status == NoMatch
    ensures var v := MakeReady(validate, first, tool, known);
            && PreparedFor(validate, tool, known, v)
            && v.id == first.id && v.revision == first.revision && v.catalogId == first.catalogId
            && v.version == first.version && v.expires == first.expires
  {
  }

  /** A workflow's operations are prepared without arguments, one for each tool, with consecutive identifiers. */
  lemma PrepareEachExactly(validate: Validator, catalogId: string, version: string, selected: seq<Tool>, firstId: Id,
                           now: Instant, i: nat)
    requires i < |selected|
    ensures var views := PrepareEach(validate, catalogId, version, selected, firstId, now);
            && |views| == |selected| && views[i].id == firstId + i && views[i].revision == 1
            && views[i].catalogId == catalogId && views[i].version == version && views[i].expires == now + 900 * SECOND
            && PreparedFor(validate, selected[i], "{}", views[i])
  {
    ReadyExactly(validate, FirstView(firstId + i, catalogId, version, now, ""), selected[i], NO_ARGUMENTS);
  }

  lemma ReadyStartsALife(validate: Validator, view: View, tool: Tool, args: Args)
    requires view.revision == 1 && view.decision.None?
    ensures var v := MakeReady(validate, view, tool, args);
            Life([v]) && v.id == view.id && v.decision.None? && v.status != NeedsChoice
  {
  }

  /* ----- Shape of a view ----- */

  predicate BoundTool(view: View) {
    && view.selected.Some?
    && view.selected.value.digest == Sha256(view.selected.value.input)
    && view.candidates == [] && view.reason == "" && view.message == ""
  }

  predicate Unbound(view: View) {
    && view.selected.None? && view.digest.None? && view.issues.None? && view.missing.None? && view.decision.None?
  }

  /** The decision names this very operation, revision, catalog, tool and schema, and its lifetime is bounded. */
  predicate Binds(view: View, d: Decision) {
    && view.selected.Some?
    && d.operationId == view.id && d.revision == view.revision
    && d.catalogId == view.catalogId && d.version == view.version
    && d.toolId == view.selected.value.id && d.schemaDigest == view.selected.value.digest
    && d.effect == view.selected.value.effect
    && SECOND <= d.notAfter - d.issued <= MINUTE
    && d.notAfter == Min(d.issued + MINUTE, Deadline(view.expires))
  }

  /** Every status has exactly its own fields. */
  predicate WellFormed(view: View) {
    && 1 <= view.revision
    && match view.status
       case NoMatch => Unbound(view) && view.candidates == [] && view.next == "" && view.revision == 1
       case NeedsChoice =>
         Unbound(view) && 2 <= |view.candidates| <= 5 && DistinctCandidates(view.candidates)
         && view.next == "prepare_action" && view.message == "" && view.revision == 1
       case NeedsArguments =>
         BoundTool(view) && view.digest.None? && view.issues.Some? && |view.issues.value| > 0
         && view.missing.Some? && view.decision.None? && view.next == NextTool(view.selected.value.effect)
       case Ready =>
         BoundTool(view) && view.digest.Some? && view.issues.None? && view.missing.None?
         && view.decision.None? && view.next == NextTool(view.selected.value.effect)
       case DecisionIssued =>
         BoundTool(view) && view.digest.None? && view.issues.None? && view.missing.None?
         && view.next == "" && view.decision.Some? && Binds(view, view.decision.value)
       case Cancelled =>
         Unbound(view) && view.candidates == [] && view.next == "" && view.reason == "" && view.message == ""
  }

  predicate Final(s: Status) { s == NoMatch || s == Cancelled || s == DecisionIssued }

  /** How an operation may change over any stretch of its life. */
  predicate Evolves(a: View, b: View) {
    && a.id == b.id && a.catalogId == b.catalogId && a.version == b.version && a.expires == b.expires
    && a.revision <= b.revision
    && (a.revision == b.revision ==> a == b)
    && (Final(a.status) ==> b == a)
    && (a.selected.Some? ==> b.selected == a.selected || b.status == Cancelled)
    && (a.status != NeedsChoice ==> b.status != NeedsChoice)
    && (a != b ==> b.status != NoMatch)
  }

  /* ----- Laws of one accepted action ----- */

  /** An accepted action keeps the shape, moves along `Evolves`, and raises the revision by one exactly
      when it changes the view. */
  lemma AcceptedStep(validate: Validator, catalog: Option<seq<Tool>>, receipts: map<Id, Receipt>,
                     stored: Stored, actor: Actor, action: Action, now: Instant, ids: Ids)
    requires WellFormed(stored.view)
    requires Transition(validate, catalog, receipts, stored, actor, action, now, ids).Ok?
    ensures var after := Transition(validate, catalog, receipts, stored, actor, action, now, ids).value.view;
            && WellFormed(after)
            && Evolves(stored.view, after)
            && after.revision == stored.view.revision + (if after == stored.view then 0 else 1)
  {
    hide WellFormed, Evolves, TransitionResolve, TransitionDecide, TransitionRecord, MakeReady;
    match action {
      case Cancel(_) => CancelStep(stored.view);
      case Record(_, _) =>
        SameStep(stored.view); RecordKeepsView(receipts, stored.view, action.decisionId, action.receipt, now);
      case Resolve(expected, choice, args) =>
        ResolveStep(validate, catalog, receipts, stored, actor, expected, choice, args);
      case Decide(expected, args) => DecideStep(validate, receipts, stored.view, expected, args, now, ids);
    }
  }

  lemma SameStep(view: View)
    requires WellFormed(view)
    ensures Step(view, view)
  {
  }

  lemma RecordKeepsView(receipts: map<Id, Receipt>, view: View, decisionId: Id, receipt: Receipt, now: Instant)
    ensures var r := TransitionRecord(receipts, view, decisionId, receipt, now); r.Ok? ==> r.value.view == view
  {
  }

  lemma CancelStep(view: View)
    requires WellFormed(view) && view.status in {Ready, NeedsArguments, NeedsChoice}
    ensures Step(view, CancelView(view))
  {
  }

  lemma ResolveStep(validate: Validator, catalog: Option<seq<Tool>>, receipts: map<Id, Receipt>,
                    stored: Stored, actor: Actor, expected: int, choice: string, args: Args)
    requires WellFormed(stored.view)
    ensures var r := TransitionResolve(validate, catalog, receipts, stored, actor, expected, choice, args);
            r.Ok? ==> Step(stored.view, r.value.view)
  {
    hide WellFormed, Evolves, MakeReady;
    SameStep(stored.view);
    if stored.view.status == NeedsChoice && catalog.Some? {
      var found := FindTool(catalog.value, choice);
      if found.Some? { BindStep(validate, stored.view, found.value, args); }
    }
  }

  /** A resolved choice binds its tool. */
  lemma BindStep(validate: Validator, view: View, tool: Tool, args: Args)
    requires WellFormed(view) && view.status == NeedsChoice
    ensures Step(view, MakeReady(validate, view.(revision := view.revision + 1), tool, args))
  {
  }

  lemma DecideStep(validate: Validator, receipts: map<Id, Receipt>, view: View, expected: int, args: Args,
                   now: Instant, ids: Ids)
    requires WellFormed(view)
    ensures var r := TransitionDecide(validate, receipts, view, expected, args, now, ids);
            r.Ok? ==> Step(view, r.value.view)
  {
    hide WellFormed, Evolves;
    SameStep(view);
    if (view.status == Ready || view.status == NeedsArguments) && view.selected.Some? {
      var (issues, missing) := validate(view.selected.value.input, args);
      if |issues| > 0 {
        RefuseStep(view, issues, missing);
      } else if Min(now + MINUTE, Deadline(view.expires)) - now >= SECOND {
        IssueStep(view, args, now, ids);
      }
    }
  }

  lemma RefuseStep(view: View, issues: seq<Issue>, missing: seq<string>)
    requires WellFormed(view) && (view.status == Ready || view.status == NeedsArguments) && |issues| > 0
    ensures Step(view, view.(revision := view.revision + 1, status := NeedsArguments, digest := None,
                             issues := Some(issues), missing := Some(missing)))
  {
  }

  lemma IssueStep(view: View, args: Args, now: Instant, ids: Ids)
    requires WellFormed(view) && (view.status == Ready || view.status == NeedsArguments) && view.selected.Some?
    requires Min(now + MINUTE, Deadline(view.expires)) - now >= SECOND
    ensures Step(view, IssuedView(view, IssueDecision(view, view.selected.value, args, now, ids)))
  {
    var d := IssueDecision(view, view.selected.value, args, now, ids);
    assert Binds(IssuedView(view, d), d);
  }

  /** A decision is answered only when the view after the action carries it, for exactly these arguments,
      and a decision already issued is answered unchanged and still alive. */
  lemma DecisionAnswered(validate: Validator, catalog: Option<seq<Tool>>, receipts: map<Id, Receipt>,
                         stored: Stored, actor: Actor, action: Action, now: Instant, ids: Ids)
    requires WellFormed(stored.view)
    requires Transition(validate, catalog, receipts, stored, actor, action, now, ids).Ok?
    ensures var o := Transition(validate, catalog, receipts, stored, actor, action, now, ids).value;
            && (o.response.DecisionResponse? <==> action.Decide? && o.view.status == DecisionIssued)
            && (o.response.DecisionResponse? ==>
                  && o.view.decision == Some(o.response.decision)
                  && o.response.decision.argumentsDigest == Sha256(action.arguments)
                  && now < o.response.decision.notAfter
                  && (stored.view.status == DecisionIssued ==> o.view == stored.view)
                  && (stored.view.status != DecisionIssued ==>
                        && o.response.decision.issued == now
                        && o.response.decision.executionKey == ids.executionKey
                        && |validate(stored.view.selected.value.input, action.arguments).0| == 0))
            && (o.response.ViewResponse? ==> o.response.view == o.view)
            && (o.view.decision.Some? && !stored.view.decision.Some? ==> o.response.DecisionResponse?)
  {
    match action {
      case Cancel(_) =>
      case Record(_, _) =>
      case Resolve(_, _, _) =>
      case Decide(_, args) =>
    }
  }

  /** Only recording a receipt leaves the view alone by definition, and it answers nothing else. */
  lemma RecordChangesNothing(validate: Validator, catalog: Option<seq<Tool>>, receipts: map<Id, Receipt>,
                             stored: Stored, actor: Actor, action: Action, now: Instant, ids: Ids)
    requires Transition(validate, catalog, receipts, stored, actor, action, now, ids).Ok?
    ensures var o := Transition(validate, catalog, receipts, stored, actor, action, now, ids).value;
            && (action.Record? <==> o.response.Recorded?) && !o.response.Bundle?
            && (action.Record? ==> o.view == stored.view)
            && (!action.Record? ==> o.receipts == receipts)
  {
    match action {
      case Cancel(_) =>
      case Record(_, _) =>
      case Resolve(_, _, _) =>
      case Decide(_, _) =>
    }
  }

  /** Issued operations with other arguments, and every final operation, refuse every action that would change them. */
  lemma FinalRefuses(validate: Validator, catalog: Option<seq<Tool>>, receipts: map<Id, Receipt>,
                     stored: Stored, actor: Actor, action: Action, now: Instant, ids: Ids)
    requires WellFormed(stored.view) && Final(stored.view.status)
    ensures var r := Transition(validate, catalog, receipts, stored, actor, action, now, ids);
            r.Ok? ==>
              && r.value.view == stored.view
              && stored.view.status == DecisionIssued
              && (action.Record?
                  || (action.Decide? && Sha256(action.arguments) == stored.view.decision.value.argumentsDigest))
  {
    match action {
      case Cancel(_) =>
      case Record(_, _) =>
      case Resolve(_, _, _) =>
      case Decide(_, _) =>
    }
  }

  /* ----- What each action answers ----- */

  /** What stays of a view whatever is done to it. */
  predicate SameOperation(a: View, b: View) {
    a.id == b.id && a.catalogId == b.catalogId && a.version == b.version && a.expires == b.expires
  }

  /** An open operation of the expected revision is cancelled: the next revision has nothing but its identity. */
  lemma CancelExactly(validate: Validator, catalog: Option<seq<Tool>>, receipts: map<Id, Receipt>, stored: Stored,
                      actor: Actor, expected: int, now: Instant, ids: Ids)
    ensures var r := Transition(validate, catalog, receipts, stored, actor, Cancel(expected), now, ids);
            var v := stored.view;
            var late := Deadline(v.expires) <= now;
            var open := v.status == Ready || v.status == NeedsArguments || v.status == NeedsChoice;
            && (r == Err(Failure(410, "OPERATION_EXPIRED")) <==> late)
            && (r == Err(Failure(409, "CANNOT_CANCEL_ISSUED")) <==> !late && v.status == DecisionIssued)
            && (r == Err(Failure(409, "OPERATION_STATE_INVALID")) <==> !late && !open && v.status != DecisionIssued)
            && (r == Err(Failure(409, "REVISION_CONFLICT")) <==> !late && open && expected != v.revision)
            && (r.Ok? <==> !late && open && expected == v.revision)
            && (r.Ok? ==>
                  var u := r.value.view;
                  && u.revision == v.revision + 1 && u.status == Cancelled && SameOperation(u, v)
                  && Unbound(u) && u.candidates == [] && u.next == "" && u.reason == "" && u.message == ""
                  && r.value.response == ViewResponse(u) && r.value.receipts == receipts)
  {
    hide Deadline;
  }

  /** An offered tool that the actor and the creator may use is bound in the next revision, with exactly these
      arguments; nothing else is accepted. */
  lemma ResolveExactly(validate: Validator, tools: seq<Tool>, receipts: map<Id, Receipt>, stored: Stored, actor: Actor,
                       expected: int, tool: Tool, args: Args, now: Instant, ids: Ids)
    requires WellFormed(stored.view) && DistinctTools(tools) && tool in tools
    ensures var r := Transition(validate, Some(tools), receipts, stored, actor, Resolve(expected, tool.id, args), now,
                                ids);
            var v := stored.view;
            var late := Deadline(v.expires) <= now;
            var mine := !late && v.status == NeedsChoice && expected == v.revision;
            var offered := exists c <- v.candidates :: c.id == tool.id;
            var allowed := tool.id in actor.allowed && tool.id in stored.actor.allowed;
            && (r == Err(Failure(410, "OPERATION_EXPIRED")) <==> late)
            && (r == Err(Failure(409, "OPERATION_STATE_INVALID")) <==> !late && v.status != NeedsChoice)
            && (r == Err(Failure(409, "REVISION_CONFLICT")) <==>
                  !late && v.status == NeedsChoice && expected != v.revision)
            && (r == Err(Failure(400, "INVALID_REQUEST")) <==> mine && !offered)
            && (r == Err(Failure(403, "TOOL_NOT_ALLOWED")) <==> mine && offered && !allowed)
            && (r.Ok? <==> mine && offered && allowed)
            && (r.Ok? ==>
                  var u := r.value.view;
                  && u.revision == v.revision + 1 && SameOperation(u, v) && PreparedFor(validate, tool, args, u)
                  && r.value.response == ViewResponse(u) && r.value.receipts == receipts)
  {
    hide Deadline;
    var c := CandidateIds(stored.view.candidates);
    assert tool.id in c <==> exists c <- stored.view.candidates :: c.id == tool.id;
    FoundTool(tools, tool);
  }

  lemma {:induction false} FoundTool(tools: seq<Tool>, tool: Tool)
    requires DistinctTools(tools) && tool in tools
    ensures FindTool(tools, tool.id) == Some(tool)
  {
    var f := FindTool(tools, tool.id);
    var i :| 0 <= i < |tools| && tools[i] == tool;
  }

  /** A bound operation of the expected revision gets its decision exactly if the arguments validate and at least a
      second is left, for a minute or as long as the operation lasts; if they do not validate it keeps their issues. An
      issued decision is answered again, as long as it lasts, for the same arguments alone. */
  lemma DecideExactly(validate: Validator, catalog: Option<seq<Tool>>, receipts: map<Id, Receipt>, stored: Stored,
                      actor: Actor, expected: int, args: Args, now: Instant, ids: Ids)
    requires WellFormed(stored.view)
    ensures var r := Transition(validate, catalog, receipts, stored, actor, Decide(expected, args), now, ids);
            var v := stored.view;
            var late := Deadline(v.expires) <= now;
            var issued := v.status == DecisionIssued;
            var open := v.status == Ready || v.status == NeedsArguments;
            var mine := !late && open && expected == v.revision;
            var same := issued && v.decision.value.argumentsDigest == Sha256(args);
            && (r == Err(Failure(410, "OPERATION_EXPIRED")) <==> late)
            && (r == Err(Failure(409, "OPERATION_ALREADY_ISSUED")) <==> !late && issued && !same)
            && (r == Err(Failure(409, "OPERATION_STATE_INVALID")) <==> !late && !issued && !open)
            && (r == Err(Failure(409, "REVISION_CONFLICT")) <==> !late && open && expected != v.revision)
            && (!late && same && now < v.decision.value.notAfter ==>
                  r == Ok(Outcome(v, receipts, DecisionResponse(v.decision.value))))
            && (!late && same && v.decision.value.notAfter <= now ==> r == Err(Failure(410, "DECISION_EXPIRED")))
            && (mine ==> Decides(validate, v, args, now, ids, receipts, r))
  {
    hide Deadline;
    if (stored.view.status == Ready || stored.view.status == NeedsArguments) && expected == stored.view.revision
       && now < Deadline(stored.view.expires) {
      DecidesExactly(validate, catalog, receipts, stored, actor, expected, args, now, ids);
    }
    hide Decides, IssueDecision, IssuedView;
  }

  /** The answer to arguments for an open operation. */
  ghost predicate Decides(validate: Validator, v: View, args: Args, now: Instant, ids: Ids, receipts: map<Id, Receipt>,
                          r: Result<Outcome, Failure>)
    requires v.selected.Some?
  {
    var (issues, missing) := validate(v.selected.value.input, args);
    var end := Deadline(v.expires);
    if issues != [] then
      && r.Ok? && r.value.receipts == receipts && r.value.response == ViewResponse(r.value.view)
      && var u := r.value.view;
         && SameOperation(u, v) && u.revision == v.revision + 1 && u.status == NeedsArguments
         && u.selected == v.selected && u.digest.None? && u.issues == Some(issues) && u.missing == Some(missing)
         && u.candidates == [] && u.reason == "" && u.message == "" && u.decision.None? && u.next == v.next
    else if end < now + SECOND then r == Err(Failure(410, "DECISION_EXPIRED"))
    else
      && r.Ok? && r.value.receipts == receipts && r.value.view.decision.Some?
      && var u, d := r.value.view, r.value.view.decision.value;
         && r.value.response == DecisionResponse(d)
         && SameOperation(u, v) && u.revision == v.revision + 1 && u.status == DecisionIssued
         && u.selected == v.selected && u.digest.None? && u.issues.None? && u.missing.None?
         && u.candidates == [] && u.reason == "" && u.message == "" && u.next == ""
         && d.id == ids.decisionId && d.executionKey == ids.executionKey && d.operationId == v.id
         && d.revision == u.revision && d.catalogId == v.catalogId && d.version == v.version
         && d.toolId == v.selected.value.id && d.schemaDigest == Sha256(v.selected.value.input)
         && d.argumentsDigest == Sha256(args) && d.effect == v.selected.value.effect && d.issued == now
         && d.notAfter == if now + 60 * SECOND <= end then now + 60 * SECOND else end
  }

  lemma DecidesExactly(validate: Validator, catalog: Option<seq<Tool>>, receipts: map<Id, Receipt>, stored: Stored,
                       actor: Actor, expected: int, args: Args, now: Instant, ids: Ids)
    requires WellFormed(stored.view) && (stored.view.status == Ready || stored.view.status == NeedsArguments)
    requires expected == stored.view.revision && now < Deadline(stored.view.expires)
    ensures Decides(validate, stored.view, args, now, ids, receipts,
                    Transition(validate, catalog, receipts, stored, actor, Decide(expected, args), now, ids))
  {
    hide Deadline;
  }

  /** A receipt is recorded for the operation's own decision within a day of its issue, whatever the operation's expiry;
      the first receipt stays, and a later one with another outcome is refused. */
  lemma RecordExactly(validate: Validator, catalog: Option<seq<Tool>>, receipts: map<Id, Receipt>, stored: Stored,
                      actor: Actor, decisionId: Id, receipt: Receipt, now: Instant, ids: Ids)
    ensures var r := Transition(validate, catalog, receipts, stored, actor, Record(decisionId, receipt), now, ids);
            var v := stored.view;
            var own := v.decision.Some? && v.decision.value.id == decisionId;
            var late := own && v.decision.value.issued + 86_400 * SECOND < now;
            var other := decisionId in receipts && receipts[decisionId].outcome != receipt.outcome;
            && (r == Err(Failure(400, "INVALID_REQUEST")) <==> !own)
            && (r == Err(Failure(410, "DECISION_EXPIRED")) <==> late)
            && (r == Err(Failure(409, "RECEIPT_CONFLICT")) <==> own && !late && other)
            && (own && !late && !other ==>
                  r ==
                      Ok(Outcome(v, if decisionId in receipts then receipts
                                 else receipts[decisionId := receipt], Recorded)))
  {
    hide Deadline;
  }

  /** The expiry column is the nearest whole microsecond, the even one of two. */
  lemma DeadlineIsNearest(expires: Instant)
    ensures var d := Deadline(expires);
            && d % 1000 == 0 && -500 <= d - expires <= 500
            && (d - expires == 500 || d - expires == -500 ==> d % 2000 == 0)
  {
  }

  /** The column rounds up exactly on the upper part of a microsecond. */
  lemma DeadlineIsLater(expires: Instant)
    ensures Deadline(expires) <= expires <==> expires % 1000 < 500 || (expires % 1000 == 500 && expires / 1000 % 2 == 0)
  {
  }

  /** A decision never exceeds the expiry column of its operation. It keeps to the expiry that the view shows exactly
      if a whole minute was left or the column is no later. */
  lemma DecisionEndsExactly(view: View)
    requires WellFormed(view) && view.decision.Some?
    ensures var d := view.decision.value;
            && d.notAfter <= Deadline(view.expires) <= view.expires + 500
            && (d.notAfter <= view.expires
                <==> d.issued + MINUTE <= view.expires || Deadline(view.expires) <= view.expires)
  {
  }

  /** So it is known before the request: by the clock and the fraction of a microsecond in the view's expiry. */
  lemma FirstDecisionEndsExactly(validate: Validator, catalog: Option<seq<Tool>>, receipts: map<Id, Receipt>,
                                 stored: Stored, actor: Actor, action: Action, now: Instant, ids: Ids)
    requires WellFormed(stored.view) && stored.view.status != DecisionIssued
    requires Transition(validate, catalog, receipts, stored, actor, action, now, ids).Ok?
    requires Transition(validate, catalog, receipts, stored, actor, action, now, ids).value.response.DecisionResponse?
    ensures var d := Transition(validate, catalog, receipts, stored, actor, action, now, ids).value.response.decision;
            var expires := stored.view.expires;
            d.notAfter <= expires
            <==> now + MINUTE <= expires
                 || expires % 1000 < 500 || (expires % 1000 == 500 && expires / 1000 % 2 == 0)
  {
    hide WellFormed;
    DeadlineIsLater(stored.view.expires);
    DecisionAnswered(validate, catalog, receipts, stored, actor, action, now, ids);
  }

  /** The first receipt of a decision stays; a later one is accepted exactly when it reports the same outcome. */
  lemma ReceiptsKeepTheFirst(receipts: map<Id, Receipt>, view: View, decisionId: Id, receipt: Receipt, now: Instant)
    requires view.decision.Some? && view.decision.value.id == decisionId
    requires now <= view.decision.value.issued + 24 * HOUR
    ensures var r := TransitionRecord(receipts, view, decisionId, receipt, now);
            && (r.Ok? <==> (decisionId in receipts ==> receipts[decisionId].outcome == receipt.outcome))
            && (r.Ok? ==> r.value.receipts.Keys == receipts.Keys + {decisionId}
                          && (forall d <- receipts :: r.value.receipts[d] == receipts[d]))
  {
  }

  /* ----- Whole lives ----- */

  predicate Step(a: View, b: View) {
    WellFormed(b) && Evolves(a, b) && b.revision == a.revision + (if a == b then 0 else 1)
  }

  /** The views an operation went through, oldest first; a re-answered decision repeats its view. */
  predicate Life(h: seq<View>) {
    && h != [] && WellFormed(h[0]) && h[0].revision == 1
    && forall i :: 0 <= i < |h| - 1 ==> Step(h[i], h[i + 1])
  }

  /** How many accepted actions changed the view. */
  function Changes(h: seq<View>): nat {
    if |h| < 2 then 0
    else Changes(h[..|h| - 1]) + (if h[|h| - 1] == h[|h| - 2] then 0 else 1)
  }

  lemma {:induction false} LifeEvolves(h: seq<View>, i: nat, j: nat)
    requires Life(h) && i <= j < |h|
    ensures WellFormed(h[j]) && Evolves(h[i], h[j])
    decreases j
  {
    if j == 0 {
    } else if i == j {
      assert Step(h[j - 1], h[j]);
    } else {
      LifeEvolves(h, i, j - 1);
      assert Step(h[j - 1], h[j]);
    }
  }

  /** The revision counts the accepted changes, one for one. */
  lemma {:induction false} RevisionCountsChanges(h: seq<View>)
    requires Life(h)
    ensures h[|h| - 1].revision - 1 == Changes(h)
  {
    if |h| > 1 {
      RevisionCountsChanges(h[..|h| - 1]);
      assert Step(h[|h| - 2], h[|h| - 1]);
    }
  }

  /** One revision has one view. */
  lemma RevisionDeterminesView(h: seq<View>, a: View, b: View)
    requires Life(h) && a in h && b in h && a.revision == b.revision
    ensures a == b
  {
    var i :| 0 <= i < |h| && h[i] == a;
    var j :| 0 <= j < |h| && h[j] == b;
    if i <= j { LifeEvolves(h, i, j); } else { LifeEvolves(h, j, i); }
  }

  /** The view a decision leaves behind is known from the view one revision earlier and the decision alone. */
  lemma IssuedViewIsDetermined(h: seq<View>, s: View, last: View)
    requires Life(h) && s in h && last == h[|h| - 1]
    requires s.selected.Some? && last.status == DecisionIssued && last.revision == s.revision + 1
    ensures last.decision.Some? && last == IssuedView(s, last.decision.value)
  {
    var i :| 0 <= i < |h| && h[i] == s;
    LifeEvolves(h, i, |h| - 1);
    LifeEvolves(h, 0, i);
  }

  lemma LifeHasStart(h: seq<View>)
    requires Life(h)
    ensures h != [] && h[0].revision == 1
  {
  }

  /** An accepted action extends a life. */
  lemma LifeGrows(h: seq<View>, next: View)
    requires Life(h) && Step(h[|h| - 1], next)
    ensures Life(h + [next])
  {
    var g := h + [next];
    forall i | 0 <= i < |g| - 1 ensures Step(g[i], g[i + 1]) {
      if i < |h| - 1 { assert g[i] == h[i] && g[i + 1] == h[i + 1]; }
    }
  }
}
