/** The operation state machine of the Rust core, which edits a JSON object key by key,
    and its agreement with the Go core. */
module RustOperation {
  import opened Wire
  import opened Operation

  /** The member names of the wire objects. */
  datatype Key =
    | OperationId | Revision | CatalogId | CatalogVersion | ExpiresAt | StatusKey
    | SelectedTool | ArgumentsDigest | NextToolKey | Issues | MissingPaths
    | Candidates | Reason | MessageKey | DecisionKey
    | ToolId | Name | Title | Description | EffectKey | OpenWorld | InputSchema | SchemaDigest
    | Code | InstancePath | SchemaPath
    | DecisionId | OperationRevision | ExecutionKey | IssuedAt | NotAfter | RecordedKey
    | OutcomeKey | DurationKey | ErrorCodeKey

  /** `Float` is a number of integral value that is written with a fraction or an exponent, as in 1.0 or 1e0.
      The schemas admit it for an integer, and the Rust core keeps it apart from the `Num` of the same value. */
  datatype Json =
    | Null | Bool(b: bool) | Num(n: int) | Float(n: int) | Str(s: string)
    | Hash(digest: Digest) | Uuid(id: Id) | Time(at: Instant) | Document(text: string)
    | StatusText(status: Status) | EffectText(effect: Effect)
    | Arr(items: seq<Json>) | Obj(members: map<Key, Json>)

  type Object = map<Key, Json>

  /** Indexing a JSON value: anything missing reads as null. */
  function At(value: Json, key: Key): Json {
    if value.Obj? && key in value.members then value.members[key] else Null
  }

  /* ----- Encoding of the wire types ----- */

  function EncodeSelected(s: Selected): Json {
    Obj(map[ToolId := Str(s.id), Name := Str(s.name), Title := Str(s.title), Description := Str(s.description),
            EffectKey := EffectText(s.effect), OpenWorld := Bool(s.openWorld),
            InputSchema := Document(s.input), SchemaDigest := Hash(s.digest)])
  }

  function EncodeTool(t: Tool): Json {
    Obj(map[ToolId := Str(t.id), Name := Str(t.name), Title := Str(t.title), Description := Str(t.description),
            EffectKey := EffectText(t.effect), OpenWorld := Bool(t.openWorld), InputSchema := Document(t.input)])
  }

  function EncodeCandidate(c: Candidate): Json {
    Obj(map[ToolId := Str(c.id), Title := Str(c.title), Description := Str(c.description),
            EffectKey := EffectText(c.effect)])
  }

  function EncodeIssue(i: Issue): Json {
    Obj(map[Code := Str(i.code), InstancePath := Str(i.instancePath),
            SchemaPath := Str(i.schemaPath), MessageKey := Str(i.messageKey)])
  }

  function EncodeDecision(d: Decision): Json {
    Obj(map[DecisionId := Uuid(d.id), OperationId := Uuid(d.operationId), OperationRevision := Num(d.revision),
            CatalogId := Str(d.catalogId), CatalogVersion := Str(d.version), ToolId := Str(d.toolId),
            SchemaDigest := Hash(d.schemaDigest), ArgumentsDigest := Hash(d.argumentsDigest),
            EffectKey := EffectText(d.effect), ExecutionKey := Uuid(d.executionKey),
            IssuedAt := Time(d.issued), NotAfter := Time(d.notAfter)])
  }

  function EncodeIssues(issues: seq<Issue>): Json {
    Arr(seq(|issues|, i requires 0 <= i < |issues| => EncodeIssue(issues[i])))
  }

  function EncodePaths(paths: seq<string>): Json { Arr(seq(|paths|, i requires 0 <= i < |paths| => Str(paths[i]))) }

  function EncodeCandidates(cs: seq<Candidate>): Json {
    Arr(seq(|cs|, i requires 0 <= i < |cs| => EncodeCandidate(cs[i])))
  }

  function EncodeTools(ts: seq<Tool>): seq<Json> { seq(|ts|, i requires 0 <= i < |ts| => EncodeTool(ts[i])) }

  /** A member of an encoded view, absent when the Go encoder omits it. */
  function Member(v: View, key: Key): Option<Json> {
    match key
    case OperationId => Some(Uuid(v.id))
    case Revision => Some(Num(v.revision))
    case CatalogId => Some(Str(v.catalogId))
    case CatalogVersion => Some(Str(v.version))
    case ExpiresAt => Some(Time(v.expires))
    case StatusKey => Some(StatusText(v.status))
    case SelectedTool => if v.selected.Some? then Some(EncodeSelected(v.selected.value)) else None
    case ArgumentsDigest => if v.digest.Some? then Some(Hash(v.digest.value)) else None
    case NextToolKey => if v.next != "" then Some(Str(v.next)) else None
    case Issues => if v.issues.Some? then Some(EncodeIssues(v.issues.value)) else None
    case MissingPaths => if v.missing.Some? then Some(EncodePaths(v.missing.value)) else None
    case Candidates => if v.candidates != [] then Some(EncodeCandidates(v.candidates)) else None
    case Reason => if v.reason != "" then Some(Str(v.reason)) else None
    case MessageKey => if v.message != "" then Some(Str(v.message)) else None
    case DecisionKey => if v.decision.Some? then Some(EncodeDecision(v.decision.value)) else None
    case _ => None
  }

  /** The object holds exactly the members of the encoded view. */
  ghost predicate Encodes(o: Object, v: View) {
    forall k: Key :: if Member(v, k).Some? then k in o && o[k] == Member(v, k).value else k !in o
  }

  /** A view has one encoding. */
  lemma EncodingIsUnique(o: Object, p: Object, v: View)
    requires Encodes(o, v) && Encodes(p, v)
    ensures o == p
  {
    forall k: Key ensures (k in o <==> k in p) && (k in o ==> o[k] == p[k]) {
      assert Member(v, k).Some? <==> k in o;
    }
  }

  /** What the fields that every view has read as. */
  lemma Reads(o: Object, v: View)
    requires Encodes(o, v)
    ensures At(Obj(o), StatusKey) == StatusText(v.status) && At(Obj(o), Revision) == Num(v.revision)
    ensures At(Obj(o), OperationId) == Uuid(v.id) && At(Obj(o), CatalogId) == Str(v.catalogId)
    ensures At(Obj(o), CatalogVersion) == Str(v.version) && At(Obj(o), ExpiresAt) == Time(v.expires)
    ensures v.selected.Some? ==> At(Obj(o), SelectedTool) == EncodeSelected(v.selected.value)
  {
    assert Member(v, StatusKey).Some? && Member(v, Revision).Some? && Member(v, OperationId).Some?
           && Member(v, CatalogId).Some?
           && Member(v, CatalogVersion).Some? && Member(v, ExpiresAt).Some?;
    if v.selected.Some? { assert Member(v, SelectedTool).Some?; }
  }

  ghost predicate EncodesResponse(j: Json, r: Response) {
    match r
    case ViewResponse(v) => j.Obj? && Encodes(j.members, v)
    case DecisionResponse(d) => j == Obj(map[StatusKey := StatusText(DecisionIssued), DecisionKey := EncodeDecision(d)])
    case Recorded => j == Obj(map[RecordedKey := Bool(true)])
    case Bundle(_, _, _) => false
  }

  /* ----- Requests as they arrive ----- */

  /** The body of an action with its numbers as they are written. */
  datatype Body =
    | CancelBody(expected: Json)
    | ResolveBody(expected: Json, choice: string, arguments: Args)
    | DecideBody(expected: Json, arguments: Args)
    | RecordBody(decisionId: Id, outcome: string, duration: Json, errorCode: Option<string>)

  predicate Integral(j: Json) { j.Num? || j.Float? }

  /** The wire schema wants integers, in any spelling, and no empty error code. */
  predicate Admissible(body: Body) {
    match body
    case RecordBody(_, _, duration, errorCode) => Integral(duration) && errorCode != Some("")
    case _ => Integral(body.expected)
  }

  /** The Go core decodes the body into fields, so that only the value of a number remains. */
  function Decoded(body: Body): Action
    requires Admissible(body)
  {
    match body
    case CancelBody(expected) => Cancel(expected.n)
    case ResolveBody(expected, choice, args) => Resolve(expected.n, choice, args)
    case DecideBody(expected, args) => Decide(expected.n, args)
    case RecordBody(id, outcome, duration, code) =>
      Record(id, Receipt(outcome, duration.n, if code.Some? then code.value else ""))
  }

  function EncodeReceipt(outcome: string, duration: Json, errorCode: Option<string>): Json {
    var body := map[OutcomeKey := Str(outcome), DurationKey := duration];
    Obj(if errorCode.Some? then body[ErrorCodeKey := Str(errorCode.value)] else body)
  }

  /** The stored text of a receipt, whose duration may be spelled in either way. */
  predicate Tells(j: Json, r: Receipt) {
    var code := if r.errorCode == "" then None else Some(r.errorCode);
    j == EncodeReceipt(r.outcome, Num(r.duration), code) || j == EncodeReceipt(r.outcome, Float(r.duration), code)
  }

  predicate SameReceipts(rust: map<Id, Json>, go: map<Id, Receipt>) {
    rust.Keys == go.Keys && forall d <- go :: Tells(rust[d], go[d])
  }

  datatype RustOutcome = RustOutcome(view: Object, receipts: map<Id, Json>, response: Json)

  /** Both cores write the same view and receipts and give the same answer, or refuse in the same way. */
  ghost predicate Agree(rust: Result<RustOutcome, Failure>, go: Result<Outcome, Failure>) {
    match go
    case Err(f) => rust == Err(f)
    case Ok(o) =>
      && rust.Ok?
      && Encodes(rust.value.view, o.view)
      && SameReceipts(rust.value.receipts, o.receipts)
      && EncodesResponse(rust.value.response, o.response)
  }

  /* ----- The Rust code ----- */

  const CONFLICT := Failure(409, "REVISION_CONFLICT")

  method SelectedOf(tool: Json, ghost t: Tool) returns (r: Json)
    requires tool == EncodeTool(t)
    ensures r == EncodeSelected(Select(t))
  {
    var result: Object := map[];
    result := result[ToolId := At(tool, ToolId)];
    result := result[Name := At(tool, Name)];
    result := result[Title := At(tool, Title)];
    result := result[Description := At(tool, Description)];
    result := result[EffectKey := At(tool, EffectKey)];
    result := result[OpenWorld := At(tool, OpenWorld)];
    result := result[InputSchema := At(tool, InputSchema)];
    result := result[SchemaDigest := Hash(Sha256(At(tool, InputSchema).text))];
    r := Obj(result);
  }

  /** A row of the operations table. */
  datatype Row = Row(principal: string, workspace: string, revision: string, allowed: seq<string>, view: Object,
                     expires: Instant)

  /** What the table holds under an identifier. */
  ghost predicate HoldsRow(row: Option<Row>, operations: map<Id, Stored>, id: Id) {
    && (row.Some? <==> id in operations)
    && (row.Some? ==>
          var stored := operations[id];
          && row.value.principal == stored.actor.principal && row.value.workspace == stored.actor.workspace
          && row.value.revision == stored.actor.revision && row.value.allowed == stored.actor.allowed
          && Encodes(row.value.view, stored.view) && row.value.expires == Deadline(stored.view.expires))
  }

  method LoadRow(row: Option<Row>, actor: Actor, ghost operations: map<Id, Stored>, ghost id: Id)
      returns (r: Result<Row, Failure>)
    requires HoldsRow(row, operations, id)
    ensures match Load(operations, actor, id)
            case Err(f) => r == Err(f)
            case Ok(_) => row.Some? && r == Ok(row.value)
  {
    if row.None? { return Err(Failure(404, "OPERATION_NOT_FOUND")); }
    SelectedReads(row.value.view, operations[id].view);
    if actor.principal != row.value.principal || actor.workspace != row.value.workspace {
      return Err(Failure(404, "OPERATION_NOT_FOUND"));
    }
    if actor.revision != row.value.revision { return Err(Failure(409, "AUTHORIZATION_CONTEXT_CHANGED")); }
    var selected := At(Obj(row.value.view), SelectedTool);
    if selected != Null && At(selected, ToolId).s !in actor.allowed { return Err(Failure(403, "TOOL_NOT_ALLOWED")); }
    r := Ok(row.value);
  }

  lemma SelectedReads(o: Object, v: View)
    requires Encodes(o, v)
    ensures At(Obj(o), SelectedTool) == if v.selected.Some? then EncodeSelected(v.selected.value) else Null
    ensures v.selected.Some? ==> var s := EncodeSelected(v.selected.value);
            s.Obj? && At(s, ToolId) == Str(v.selected.value.id)
  {
    assert Member(v, SelectedTool).Some? <==> v.selected.Some?;
  }

  /** Everything an earlier status left behind is removed. */
  method Clear(input: Object, ghost v: View) returns (view: Object)
    requires Encodes(input, v)
    ensures Encodes(view,
                    v.(candidates := [], reason := "", message := "", digest := None, issues := None, missing := None))
  {
    view := input - {Candidates, Reason, MessageKey};
    view := view - {Issues, MissingPaths, ArgumentsDigest};
  }

  method BindTool(input: Object, tool: Json, ghost v: View, ghost t: Tool) returns (view: Object)
    requires Encodes(input, v) && tool == EncodeTool(t)
    ensures Encodes(view, v.(selected := Some(Select(t)), next := NextTool(t.effect)))
  {
    hide EncodeDecision, EncodeSelected, EncodeIssues, EncodePaths, EncodeCandidates, EncodeTool, At;
    var selected := SelectedOf(tool, t);
    view := input[SelectedTool := selected];
    assert Encodes(view, v.(selected := Some(Select(t))));
    EffectReads(t);
    var next := if At(tool, EffectKey) == EffectText(Read) then "execute_read_action" else "execute_write_action";
    view := view[NextToolKey := Str(next)];
  }

  method ReadyView(validate: Validator, input: Object, tool: Json, args: Args, ghost v: View, ghost t: Tool)
    returns (view: Object)
    requires Encodes(input, v) && tool == EncodeTool(t)
    ensures Encodes(view, MakeReady(validate, v, t, args))
  {
    var (issues, missing) := validate(At(tool, InputSchema).text, args);
    view := Clear(input, v);
    view := BindTool(view, tool, v.(candidates := [], reason := "", message := "", digest := None,
                                    issues := None, missing := None), t);
    ghost var bound := v.(selected := Some(Select(t)), next := NextTool(t.effect), candidates := [], reason := "",
                          message := "", digest := None, issues := None, missing := None);
    if |issues| == 0 {
      view := MarkReady(view, args, bound);
    } else {
      view := RefuseArguments(view, issues, missing, bound);
    }
  }

  method MarkReady(input: Object, args: Args, ghost v: View) returns (view: Object)
    requires Encodes(input, v)
    ensures Encodes(view, v.(status := Ready, digest := Some(Sha256(args))))
  {
    view := input[StatusKey := StatusText(Ready)];
    view := view[ArgumentsDigest := Hash(Sha256(args))];
  }

  function CancelledObject(view: Object): Object {
    map[OperationId := At(Obj(view), OperationId),
        Revision := Num(1 + if At(Obj(view), Revision).Num? then At(Obj(view), Revision).n else 0),
        CatalogId := At(Obj(view), CatalogId), CatalogVersion := At(Obj(view), CatalogVersion),
        ExpiresAt := At(Obj(view), ExpiresAt), StatusKey := StatusText(Cancelled)]
  }

  /** Whole milliseconds of a duration, dropping the fraction toward zero. */
  function Milliseconds(d: int): int {
    if d >= 0 then d / 1_000_000 else -((-d) / 1_000_000)
  }

  /** The first catalog entry that bears the identifier. */
  function FindEntry(tools: seq<Json>, id: string): Option<Json> {
    if tools == [] then None
    else if At(tools[0], ToolId) == Str(id) then Some(tools[0])
    else FindEntry(tools[1..], id)
  }

  lemma FindEntryAgrees(tools: seq<Tool>, id: string)
    ensures FindEntry(EncodeTools(tools), id) ==
            (match FindTool(tools, id) case Some(t) => Some(EncodeTool(t)) case None => None)
  {
    hide EncodeTool, At;
    if tools != [] {
      ToolIdReads(tools[0]);
      assert EncodeTools(tools)[1..] == EncodeTools(tools[1..]);
      FindEntryAgrees(tools[1..], id);
    }
  }

  lemma EffectReads(t: Tool)
    ensures At(EncodeTool(t), EffectKey) == EffectText(t.effect)
    ensures NextTool(t.effect) == if EffectText(t.effect) == EffectText(Read) then "execute_read_action"
            else "execute_write_action"
  {
  }

  lemma ToolIdReads(t: Tool)
    ensures At(EncodeTool(t), ToolId) == Str(t.id)
  {
  }

  predicate ListsCandidate(candidates: Json, id: string) {
    candidates.Arr? && exists i :: 0 <= i < |candidates.items| && At(candidates.items[i], ToolId) == Str(id)
  }

  lemma ListsCandidateAgrees(o: Object, v: View, id: string)
    requires Encodes(o, v)
    ensures ListsCandidate(At(Obj(o), Candidates), id) <==> id in CandidateIds(v.candidates)
  {
    assert Member(v, Candidates).Some? <==> v.candidates != [];
    if v.candidates != [] {
      var items := EncodeCandidates(v.candidates).items;
      forall i | 0 <= i < |items| ensures At(items[i], ToolId) == Str(v.candidates[i].id) {}
      if id in CandidateIds(v.candidates) {
        var c :| c in v.candidates && c.id == id;
        var i :| 0 <= i < |v.candidates| && v.candidates[i] == c;
        assert At(items[i], ToolId) == Str(id);
      }
    }
  }

  /** A situation in which the two cores part: an action that the Go core would examine further names the stored
      revision in the spelling of a float. */
  predicate FloatRevision(view: View, body: Body, now: Instant) {
    && now < Deadline(view.expires)
    && match body
       case CancelBody(expected) =>
         expected == Float(view.revision) && view.status in {Ready, NeedsArguments, NeedsChoice}
       case ResolveBody(expected, _, _) => expected == Float(view.revision) && view.status == NeedsChoice
       case DecideBody(expected, _) => expected == Float(view.revision) && view.status in {Ready, NeedsArguments}
       case RecordBody(_, _, _, _) => false
  }

  /** The other one: every check of a resolve has passed and the catalog does not list the chosen candidate. */
  predicate CatalogMiss(catalog: Option<seq<Tool>>, stored: Stored, actor: Actor, action: Action, now: Instant) {
    action.Resolve? && now < Deadline(stored.view.expires)
        && ResolveMiss(catalog, stored, actor, action.expected, action.choice)
  }

  predicate ResolveMiss(catalog: Option<seq<Tool>>, stored: Stored, actor: Actor, expected: int, choice: string) {
    && stored.view.status == NeedsChoice && expected == stored.view.revision
    && choice in CandidateIds(stored.view.candidates)
    && choice in actor.allowed && choice in stored.actor.allowed
    && catalog.Some? && choice !in ToolIds(catalog.value)
  }

  method MutateResolve(validate: Validator, catalog: Option<seq<Tool>>, receipts: map<Id, Json>, input: Object,
                       ghost stored: Stored, ghost kept: map<Id, Receipt>, allowed: seq<string>, actor: Actor,
                       expected: Json, choice: string, args: Args)
    returns (r: Result<RustOutcome, Failure>)
    requires Encodes(input, stored.view) && SameReceipts(receipts, kept) && allowed == stored.actor.allowed
             && Integral(expected)
    ensures stored.view.status == NeedsChoice && expected == Float(stored.view.revision) ==> r == Err(CONFLICT)
    ensures !(stored.view.status == NeedsChoice && expected == Float(stored.view.revision)) ==>
              if ResolveMiss(catalog, stored, actor, expected.n, choice) then r == Err(Failure(500, "INTERNAL_ERROR"))
              else Agree(r, TransitionResolve(validate, catalog, kept, stored, actor, expected.n, choice, args))
  {
    hide Encodes, Member, ListsCandidate, EncodeTool, MakeReady, SameReceipts;
    var view := input;
    Reads(view, stored.view);
    if At(Obj(view), StatusKey) != StatusText(NeedsChoice) { return Err(Failure(409, "OPERATION_STATE_INVALID")); }
    if At(Obj(view), Revision) != expected { return Err(CONFLICT); }
    ListsCandidateAgrees(view, stored.view, choice);
    if !ListsCandidate(At(Obj(view), Candidates), choice) { return Err(Failure(400, "INVALID_REQUEST")); }
    if choice !in actor.allowed || choice !in allowed { return Err(Failure(403, "TOOL_NOT_ALLOWED")); }
    if catalog.None? { return Err(Failure(500, "INTERNAL_ERROR")); }
    FindEntryAgrees(catalog.value, choice);
    var tool := FindEntry(EncodeTools(catalog.value), choice);
    if tool.None? { return Err(Failure(500, "INTERNAL_ERROR")); }
    view := Bind(validate, view, tool.value, args, stored.view, FindTool(catalog.value, choice).value);
    r := Ok(RustOutcome(view, receipts, Obj(view)));
  }

  method Bind(validate: Validator, input: Object, tool: Json, args: Args, ghost v: View, ghost t: Tool)
      returns (view: Object)
    requires Encodes(input, v) && tool == EncodeTool(t)
    ensures Encodes(view, MakeReady(validate, v.(revision := v.revision + 1), t, args))
  {
    hide Encodes, Member, EncodeTool, MakeReady;
    Reads(input, v);
    view := input[Revision := Num(At(Obj(input), Revision).n + 1)];
    BumpRevision(input, view, v);
    view := ReadyView(validate, view, tool, args, v.(revision := v.revision + 1), t);
  }

  lemma BumpRevision(o: Object, p: Object, v: View)
    requires Encodes(o, v) && p == o[Revision := Num(v.revision + 1)]
    ensures Encodes(p, v.(revision := v.revision + 1))
  {
    hide Member;
    var w := v.(revision := v.revision + 1);
    forall k: Key ensures if Member(w, k).Some? then k in p && p[k] == Member(w, k).value else k !in p {
      BumpsOnly(v, k);
    }
  }

  lemma BumpsOnly(v: View, k: Key)
    ensures Member(v.(revision := v.revision + 1), k) == if k == Revision then Some(Num(v.revision + 1))
            else Member(v, k)
  {
    hide EncodeDecision, EncodeSelected, EncodeIssues, EncodePaths, EncodeCandidates;
  }

  method MutateDecide(validate: Validator, receipts: map<Id, Json>, view: Object, ghost stored: Stored,
                      ghost kept: map<Id, Receipt>, expires: Instant, expected: Json, args: Args, now: Instant,
                      ids: Ids)
    returns (r: Result<RustOutcome, Failure>)
    requires Encodes(view, stored.view) && SameReceipts(receipts, kept) && WellFormed(stored.view) && Integral(expected)
    requires expires == Deadline(stored.view.expires) && now < expires
    ensures stored.view.status in {Ready, NeedsArguments} && expected == Float(stored.view.revision)
            ==> r == Err(CONFLICT)
    ensures !(stored.view.status in {Ready, NeedsArguments} && expected == Float(stored.view.revision)) ==>
              Agree(r, TransitionDecide(validate, kept, stored.view, expected.n, args, now, ids))
  {
    hide SameReceipts;
    assert Member(stored.view, StatusKey).Some? && Member(stored.view, Revision).Some?;
    if At(Obj(view), StatusKey) == StatusText(DecisionIssued) {
      r := MutateReissue(receipts, view, args, now, stored.view, kept);
      return;
    }
    if At(Obj(view), StatusKey) != StatusText(Ready) && At(Obj(view), StatusKey) != StatusText(NeedsArguments) {
      return Err(Failure(409, "OPERATION_STATE_INVALID"));
    }
    if At(Obj(view), Revision) != expected { return Err(CONFLICT); }
    r := MutateFirst(validate, receipts, view, stored.view, kept, expires, args, now, ids);
  }

  method MutateReissue(receipts: map<Id, Json>, view: Object, args: Args, now: Instant, ghost v: View,
                       ghost kept: map<Id, Receipt>)
    returns (r: Result<RustOutcome, Failure>)
    requires Encodes(view, v) && SameReceipts(receipts, kept) && v.decision.Some?
    ensures var d := v.decision.value;
            Agree(r, if d.argumentsDigest != Sha256(args) then Err(Failure(409, "OPERATION_ALREADY_ISSUED"))
                     else if d.notAfter <= now then Err(Failure(410, "DECISION_EXPIRED"))
                     else Ok(Outcome(v, kept, DecisionResponse(d))))
  {
    hide SameReceipts;
    assert Member(v, DecisionKey).Some?;
    var decision := At(Obj(view), DecisionKey);
    if At(decision, ArgumentsDigest) != Hash(Sha256(args)) { return Err(Failure(409, "OPERATION_ALREADY_ISSUED")); }
    if At(decision, NotAfter).at <= now { return Err(Failure(410, "DECISION_EXPIRED")); }
    r := Ok(RustOutcome(view, receipts, Obj(map[StatusKey := StatusText(DecisionIssued), DecisionKey := decision])));
  }

  method MutateFirst(validate: Validator, receipts: map<Id, Json>, input: Object, ghost v: View,
                     ghost kept: map<Id, Receipt>, expires: Instant, args: Args, now: Instant, ids: Ids)
    returns (r: Result<RustOutcome, Failure>)
    requires Encodes(input, v) && SameReceipts(receipts, kept)
    requires (v.status == Ready || v.status == NeedsArguments) && v.selected.Some?
    requires expires == Deadline(v.expires) && now < expires
    ensures Agree(r, TransitionDecide(validate, kept, v, v.revision, args, now, ids))
  {
    hide SameReceipts;
    assert Member(v, SelectedTool).Some? && Member(v, Revision).Some?;
    var (issues, missing) := validate(At(At(Obj(input), SelectedTool), InputSchema).text, args);
    var view := input[Revision := Num(At(Obj(input), Revision).n + 1)];
    BumpRevision(input, view, v);
    if |issues| > 0 {
      view := RefuseArguments(view, issues, missing, v.(revision := v.revision + 1));
      return Ok(RustOutcome(view, receipts, Obj(view)));
    }
    r := MutateIssue(receipts, view, expires, args, now, ids, v, kept);
  }

  method MutateIssue(receipts: map<Id, Json>, input: Object, expires: Instant, args: Args, now: Instant, ids: Ids,
                     ghost v: View, ghost kept: map<Id, Receipt>)
    returns (r: Result<RustOutcome, Failure>)
    requires Encodes(input, v.(revision := v.revision + 1)) && SameReceipts(receipts, kept) && v.selected.Some?
    requires expires == Deadline(v.expires) && now < expires
    ensures Min(now + MINUTE, Deadline(v.expires)) - now < SECOND ==> r == Err(Failure(410, "DECISION_EXPIRED"))
    ensures Min(now + MINUTE, Deadline(v.expires)) - now >= SECOND ==>
              var go := IssueDecision(v, v.selected.value, args, now, ids);
              Agree(r, Ok(Outcome(IssuedView(v, go), kept, DecisionResponse(go))))
  {
    hide SameReceipts;
    var expiry := if expires < now + 60 * SECOND then expires else now + 60 * SECOND;
    if Milliseconds(expiry - now) < 1000 { return Err(Failure(410, "DECISION_EXPIRED")); }
    hide Encodes, EncodeDecision, Member;
    ghost var bumped := v.(revision := v.revision + 1);
    ghost var go := IssueDecision(v, v.selected.value, args, now, ids);
    var decision := DecisionOf(input, args, now, expiry, ids, bumped, go);
    var view := Issue(input, decision, bumped, go);
    r := Ok(RustOutcome(view, receipts, Obj(map[StatusKey := StatusText(DecisionIssued), DecisionKey := decision])));
  }

  method DecisionOf(input: Object, args: Args, now: Instant, expiry: Instant, ids: Ids, ghost v: View,
                    ghost go: Decision)
    returns (decision: Json)
    requires Encodes(input, v) && v.selected.Some?
    requires go == Decision(ids.decisionId, v.id, v.revision, v.catalogId, v.version, v.selected.value.id,
                            v.selected.value.digest,
                            Sha256(args), v.selected.value.effect, ids.executionKey, now, expiry)
    ensures decision == EncodeDecision(go)
  {
    hide Encodes, Member;
    Reads(input, v);
    var selected := At(Obj(input), SelectedTool);
    decision := Obj(map[
      DecisionId := Uuid(ids.decisionId), OperationId := At(Obj(input), OperationId),
      OperationRevision := At(Obj(input), Revision), CatalogId := At(Obj(input), CatalogId),
      CatalogVersion := At(Obj(input), CatalogVersion), ToolId := At(selected, ToolId),
      SchemaDigest := At(selected, SchemaDigest), ArgumentsDigest := Hash(Sha256(args)),
      EffectKey := At(selected, EffectKey), ExecutionKey := Uuid(ids.executionKey),
      IssuedAt := Time(now), NotAfter := Time(expiry)]);
  }

  method RefuseArguments(input: Object, issues: seq<Issue>, missing: seq<string>, ghost v: View) returns (view: Object)
    requires Encodes(input, v)
    ensures Encodes(view,
                    v.(status := NeedsArguments, digest := None, issues := Some(issues), missing := Some(missing)))
  {
    view := input[StatusKey := StatusText(NeedsArguments)];
    view := view[Issues := EncodeIssues(issues)];
    view := view[MissingPaths := EncodePaths(missing)];
    view := view - {ArgumentsDigest};
  }

  method Issue(input: Object, decision: Json, ghost v: View, ghost go: Decision) returns (view: Object)
    requires Encodes(input, v) && decision == EncodeDecision(go)
    ensures Encodes(view, v.(status := DecisionIssued, decision := Some(go), digest := None, issues := None,
                             missing := None, next := ""))
  {
    hide EncodeDecision, EncodeSelected, EncodeIssues, EncodePaths, EncodeCandidates;
    view := input[StatusKey := StatusText(DecisionIssued)];
    view := view[DecisionKey := decision];
    view := view - {ArgumentsDigest, Issues, MissingPaths, NextToolKey};
  }

  method MutateCancel(receipts: map<Id, Json>, view: Object, ghost stored: Stored, ghost kept: map<Id, Receipt>,
                      expected: Json)
    returns (r: Result<RustOutcome, Failure>)
    requires Encodes(view, stored.view) && SameReceipts(receipts, kept) && Integral(expected)
    ensures stored.view.status in {Ready, NeedsArguments, NeedsChoice} && expected == Float(stored.view.revision)
            ==> r == Err(CONFLICT)
    ensures !(stored.view.status in {Ready, NeedsArguments, NeedsChoice} && expected == Float(stored.view.revision)) ==>
              forall validate, catalog, actor, now, ids :: now < Deadline(stored.view.expires) ==>
                Agree(r, Transition(validate, catalog, kept, stored, actor, Cancel(expected.n), now, ids))
  {
    hide Encodes, Member, CancelledObject, SameReceipts;
    ghost var v := stored.view;
    Reads(view, v);
    if At(Obj(view), StatusKey) == StatusText(DecisionIssued) { return Err(Failure(409, "CANNOT_CANCEL_ISSUED")); }
    if At(Obj(view), StatusKey) !in {StatusText(Ready), StatusText(NeedsArguments), StatusText(NeedsChoice)} {
      return Err(Failure(409, "OPERATION_STATE_INVALID"));
    }
    if At(Obj(view), Revision) != expected { return Err(CONFLICT); }
    var cancelled := CancelledObject(view);
    CancelledEncodes(view, v);
    r := Ok(RustOutcome(cancelled, receipts, Obj(cancelled)));
  }

  lemma CancelledEncodes(o: Object, v: View)
    requires Encodes(o, v)
    ensures Encodes(CancelledObject(o), CancelView(v))
  {
    Reads(o, v);
  }

  lemma DecisionReads(o: Object, v: View)
    requires Encodes(o, v)
    ensures At(Obj(o), DecisionKey) == if v.decision.Some? then EncodeDecision(v.decision.value) else Null
    ensures v.decision.Some? ==> var d := EncodeDecision(v.decision.value);
                                 d.Obj? && At(d, DecisionId) == Uuid(v.decision.value.id)
                                 && At(d, IssuedAt) == Time(v.decision.value.issued)
  {
    assert Member(v, DecisionKey).Some? <==> v.decision.Some?;
  }

  method MutateRecord(receipts: map<Id, Json>, view: Object, ghost stored: Stored, ghost kept: map<Id, Receipt>,
                      decisionId: Id, outcome: string, duration: Json, errorCode: Option<string>, now: Instant)
    returns (r: Result<RustOutcome, Failure>)
    requires Encodes(view, stored.view) && SameReceipts(receipts, kept)
    requires Admissible(RecordBody(decisionId, outcome, duration, errorCode))
    ensures Agree(r,
                  TransitionRecord(kept, stored.view, decisionId,
                                   Decoded(RecordBody(decisionId, outcome, duration, errorCode)).receipt, now))
  {
    hide Encodes, Member, SameReceipts, EncodeDecision, EncodeReceipt;
    DecisionReads(view, stored.view);
    var decision := At(Obj(view), DecisionKey);
    if decision == Null || At(decision, DecisionId) != Uuid(decisionId) { return Err(Failure(400, "INVALID_REQUEST")); }
    if now > At(decision, IssuedAt).at + 24 * HOUR { return Err(Failure(410, "DECISION_EXPIRED")); }
    var rows, same := InsertReceipt(receipts, kept, decisionId, outcome, duration, errorCode);
    if !same { return Err(Failure(409, "RECEIPT_CONFLICT")); }
    r := Ok(RustOutcome(view, rows, Obj(map[RecordedKey := Bool(true)])));
  }

  /** The first receipt of a decision is kept; the answer tells whether the kept one has this outcome. */
  method InsertReceipt(receipts: map<Id, Json>, ghost kept: map<Id, Receipt>,
                       decisionId: Id, outcome: string, duration: Json, errorCode: Option<string>)
    returns (rows: map<Id, Json>, same: bool)
    requires SameReceipts(receipts, kept) && Admissible(RecordBody(decisionId, outcome, duration, errorCode))
    ensures var receipt := Decoded(RecordBody(decisionId, outcome, duration, errorCode)).receipt;
            var after := if decisionId in kept then kept else kept[decisionId := receipt];
            SameReceipts(rows, after) && (same <==> after[decisionId].outcome == outcome)
  {
    rows := if decisionId in receipts then receipts
        else receipts[decisionId := EncodeReceipt(outcome, duration, errorCode)];
    if decisionId in kept { assert Tells(receipts[decisionId], kept[decisionId]); }
    same := At(rows[decisionId], OutcomeKey) == Str(outcome);
  }

  /** From every shape-keeping view, the Rust core answers, writes and refuses exactly as the Go core does, unless
      the request spells the stored revision as a float, where it alone sees a conflict, or the catalog misses the
      chosen candidate, where it fails and the Go core answers the unchanged view. */
  method Mutate(validate: Validator, catalog: Option<seq<Tool>>, receipts: map<Id, Json>, view: Object,
                ghost stored: Stored, ghost kept: map<Id, Receipt>, allowed: seq<string>, expires: Instant,
                actor: Actor, body: Body, now: Instant, ids: Ids)
    returns (r: Result<RustOutcome, Failure>)
    requires Encodes(view, stored.view) && SameReceipts(receipts, kept) && WellFormed(stored.view)
    requires allowed == stored.actor.allowed && expires == Deadline(stored.view.expires) && Admissible(body)
    ensures Agree(r, Transition(validate, catalog, kept, stored, actor, Decoded(body), now, ids))
            <==> !FloatRevision(stored.view, body, now) && !CatalogMiss(catalog, stored, actor, Decoded(body), now)
    ensures FloatRevision(stored.view, body, now) ==> r == Err(CONFLICT)
    ensures CatalogMiss(catalog, stored, actor, Decoded(body), now) && !FloatRevision(stored.view, body, now) ==>
              r == Err(Failure(500, "INTERNAL_ERROR"))
  {
    hide Encodes, SameReceipts, WellFormed;
    if !body.RecordBody? && expires <= now { return Err(Failure(410, "OPERATION_EXPIRED")); }
    if FloatRevision(stored.view, body, now) { FloatPasses(validate, catalog, kept, stored, actor, body, now, ids); }
    match body {
      case CancelBody(expected) =>
        r := MutateCancel(receipts, view, stored, kept, expected);
      case ResolveBody(expected, choice, args) =>
        r := MutateResolve(validate, catalog, receipts, view, stored, kept, allowed, actor, expected, choice, args);
      case DecideBody(expected, args) =>
        r := MutateDecide(validate, receipts, view, stored, kept, expires, expected, args, now, ids);
      case RecordBody(decisionId, outcome, duration, errorCode) =>
        r := MutateRecord(receipts, view, stored, kept, decisionId, outcome, duration, errorCode, now);
    }
  }

  /** The Go core reads the value and so finds no conflict where the Rust core does. */
  lemma FloatPasses(validate: Validator, catalog: Option<seq<Tool>>, receipts: map<Id, Receipt>, stored: Stored,
                    actor: Actor, body: Body, now: Instant, ids: Ids)
    requires Admissible(body) && FloatRevision(stored.view, body, now)
    ensures Transition(validate, catalog, receipts, stored, actor, Decoded(body), now, ids) != Err(CONFLICT)
  {
  }
}
