/** The whole protocol: any number of SDK executors share one ledger and talk to the core through retried,
    delayed and lost requests, while executors and core workers crash anywhere. */
module Protocol {
  import opened Wire
  import Op = Operation
  import Db = Core
  import C = CoreRuns
  import L = Ledger

  /** The provider: its catalog and its local tools. */
  datatype Provider = Provider(catalogId: string, version: string, tools: seq<Tool>)

  /** How a call ended. A business result names the execution key it was recorded under. */
  datatype Ending =
    | Business(key: L.ExecKey, result: L.Payload)
    | Incomplete(view: View)
    | LocalIssues(issues: seq<Issue>)
    | Thrown(code: string)

  datatype Phase =
    | Begun
    | Looked(snapshot: View)
    | Asking(snapshot: View)
    | Refused(view: View)
    | Issuing(snapshot: View, decision: Decision)
    | Claiming(decision: Decision)
    | Replaying(decision: Decision, result: L.Payload)
    | Holding(decision: Decision, fence: Id)
    | Dispatched(decision: Decision, fence: Id)
    | Handling(decision: Decision, fence: Id)
    | Done(ending: Ending)

  datatype Executor = Executor(actor: Actor, operation: Id, revision: int, args: Args, mutation: bool, phase: Phase)

  /** One entry of a business handler. */
  datatype Entry = Entry(operation: Id, actor: Actor, key: L.ExecKey, fence: Id, toolId: string, args: Args,
                         mutation: bool)

  datatype System = System(
    core: C.State, ledger: L.Tables, next: Id, executors: map<nat, Executor>, entries: seq<Entry>)

  /** Executors read their own clocks, about which nothing is assumed. */
  datatype Label =
    | CoreStep(step: C.Label)
    | StoreReply(pid: nat, index: nat)
    | Begin(eid: nat, actor: Actor, operation: Id, revision: int, args: Args, mutation: bool)
    | GetSnapshot(eid: nat, permitted: bool)
    | Lookup(eid: nat, now: Instant)
    | Ask(eid: nat, pid: nat)
    | Receive(eid: nat, pid: nat)
    | StoreRefusal(eid: nat, lost: bool)
    | StoreIssued(eid: nat, now: Instant, permitted: bool, lost: bool)
    | Claim(eid: nat, now: Instant, lost: bool)
    | Repeat(eid: nat, permitted: bool)
    | Dispatch(eid: nat, now: Instant, aborted: bool, lost: bool)
    | Enter(eid: nat)
    | Finish(eid: nat, result: Option<L.Payload>, applied: bool, lost: bool)
    | Die(eid: nat)

  /* ----- Checks of the SDK ----- */

  /** The snapshot and its tool are this provider's own, unchanged and allowed. */
  function Bindings(p: Provider, snapshot: View, selected: Selected, actor: Actor): Result<Tool, string> {
    if snapshot.catalogId != p.catalogId || snapshot.version != p.version || selected.id !in actor.allowed then
      Err("CATALOG_MISMATCH")
    else match Op.FindTool(p.tools, selected.id)
      case None => Err("TOOL_NOT_ALLOWED")
      case Some(local) =>
        if local.effect != selected.effect || Sha256(local.input) != selected.digest
            || Sha256(selected.input) != selected.digest
        then Err("DECISION_MISMATCH") else Ok(local)
  }

  /** The decision is for this operation, tool, schema, effect and arguments, one revision after the snapshot. */
  predicate Matches(snapshot: View, selected: Selected, d: Decision, args: Args) {
    && d.operationId == snapshot.id && d.catalogId == snapshot.catalogId && d.version == snapshot.version
    && d.toolId == selected.id && d.schemaDigest == selected.digest && d.effect == selected.effect
    && d.argumentsDigest == Sha256(args)
    && d.revision == (if snapshot.status == DecisionIssued then snapshot.revision else snapshot.revision + 1)
  }

  /** The view the executor stores when a decision arrives, built from what it already has. */
  function LocalIssued(snapshot: View, d: Decision): View {
    View(snapshot.id, d.revision, snapshot.catalogId, snapshot.version, snapshot.expires, DecisionIssued,
         snapshot.selected, None, "", None, None, [], "", "", Some(d))
  }

  function DecideRequest(e: Executor, snapshot: View): Db.Request {
    Db.Request(e.actor, Db.ActBody(e.operation, Op.Decide(snapshot.revision, e.args)))
  }

  function DecideToken(e: Executor, snapshot: View): Token { DecisionToken(e.operation, snapshot.revision, e.args) }

  /* ----- Steps ----- */

  function Init(): System { System(C.Init(), L.Tables(map[], map[]), 0, map[], []) }

  function Go(s: System, eid: nat, phase: Phase): System
    requires eid in s.executors
  {
    s.(executors := s.executors[eid := s.executors[eid].(phase := phase)])
  }

  function Throw(s: System, eid: nat, code: string): System
    requires eid in s.executors
  {
    Go(s, eid, Done(Thrown(code)))
  }

  function StepGet(p: Provider, validate: Validator, s: System, eid: nat, permitted: bool): System
    requires eid in s.executors
  {
    var e := s.executors[eid];
    match L.GetTx(s.ledger, e.actor, e.operation)
    case Err(code) => Throw(s, eid, code)
    case Ok(snapshot) =>
      if snapshot.status !in {Ready, NeedsArguments, DecisionIssued} || snapshot.selected.None? then
        Throw(s, eid, "OPERATION_STATE_INVALID")
      else
        var selected := snapshot.selected.value;
        if (selected.effect != Read) != e.mutation then Throw(s, eid, "EFFECT_MISMATCH")
        else match Bindings(p, snapshot, selected, e.actor)
          case Err(code) => Throw(s, eid, code)
          case Ok(local) =>
            if !permitted then Throw(s, eid, "TOOL_NOT_ALLOWED")
            else
              var (issues, _) := validate(local.input, e.args);
              if |issues| > 0 then Go(s, eid, Done(LocalIssues(issues))) else Go(s, eid, Looked(snapshot))
  }

  function StepLookup(s: System, eid: nat, now: Instant): System
    requires eid in s.executors && s.executors[eid].phase.Looked?
  {
    var e := s.executors[eid];
    var snapshot := e.phase.snapshot;
    var expired := snapshot.expires <= now;
    var onward := if expired then Throw(s, eid, "OPERATION_EXPIRED") else Go(s, eid, Asking(snapshot));
    if snapshot.status == DecisionIssued then
      if snapshot.decision.None? || snapshot.selected.None?
         || !Matches(snapshot, snapshot.selected.value, snapshot.decision.value, e.args) then
        Throw(s, eid, "DECISION_MISMATCH")
      else match L.ReplayTx(s.ledger, e.actor, snapshot.decision.value, now)
        case Some(Ok(result)) => Go(s, eid, Done(Business(L.KeyOf(e.actor, snapshot.decision.value), result)))
        case Some(Err(code)) => Throw(s, eid, code)
        case None => onward
    else if snapshot.revision != e.revision then Throw(s, eid, "REVISION_CONFLICT")
    else onward
  }

  /** A request, or the retry of one, reaches the core as a new worker. */
  function StepAsk(validate: Validator, s: System, eid: nat, pid: nat): System
    requires eid in s.executors && s.executors[eid].phase.Asking?
  {
    var e := s.executors[eid];
    s.(core := C.Step(validate, s.core,
                      C.Arrive(pid, DecideRequest(e, e.phase.snapshot), DecideToken(e, e.phase.snapshot))))
  }

  predicate Answers(s: System, eid: nat, pid: nat)
    requires eid in s.executors && s.executors[eid].phase.Asking?
  {
    var e := s.executors[eid];
    && pid in s.core.workers && s.core.workers[pid].phase.Replied?
    && s.core.workers[pid].request == DecideRequest(e, e.phase.snapshot)
    && s.core.workers[pid].key == DecideToken(e, e.phase.snapshot)
  }

  function StepReceive(s: System, eid: nat, pid: nat): System
    requires eid in s.executors && s.executors[eid].phase.Asking? && Answers(s, eid, pid)
  {
    var e := s.executors[eid];
    var snapshot := e.phase.snapshot;
    match s.core.workers[pid].phase.result
    case Err(f) => Throw(s, eid, f.code)
    case Ok(reply) =>
      match reply.body
      case ViewResponse(view) => Go(s, eid, Refused(view))
      case DecisionResponse(d) =>
        if snapshot.selected.Some? && Matches(snapshot, snapshot.selected.value, d, e.args)
        then Go(s, eid, Issuing(snapshot, d)) else Throw(s, eid, "DECISION_MISMATCH")
      case _ => Throw(s, eid, "INVALID_RESPONSE")
  }

  function StepStoreIssued(s: System, eid: nat, now: Instant, permitted: bool, lost: bool): System
    requires eid in s.executors && s.executors[eid].phase.Issuing?
  {
    var e := s.executors[eid];
    var d := e.phase.decision;
    var t := s.(ledger := L.PutTx(s.ledger, e.actor, LocalIssued(e.phase.snapshot, d)));
    if lost then Throw(t, eid, "STORE_UNAVAILABLE")
    else if d.notAfter <= now || !permitted then Throw(t, eid, "TOOL_NOT_ALLOWED")
    else Go(t, eid, Claiming(d))
  }

  function StepClaim(s: System, eid: nat, now: Instant, lost: bool): System
    requires eid in s.executors && s.executors[eid].phase.Claiming?
  {
    var e := s.executors[eid];
    var d := e.phase.decision;
    var (ledger, claim) := L.ClaimTx(s.ledger, e.actor, d, s.next, now);
    var t := s.(ledger := ledger, next := s.next + 1);
    if lost then Throw(t, eid, "STORE_UNAVAILABLE")
    else match claim
      case Err(code) => Throw(t, eid, code)
      case Ok(Replay(result)) => Go(t, eid, Replaying(d, result))
      case Ok(Fence(fence)) => Go(t, eid, Holding(d, fence))
  }

  function StepDispatch(s: System, eid: nat, now: Instant, aborted: bool, lost: bool): System
    requires eid in s.executors && s.executors[eid].phase.Holding?
  {
    var e := s.executors[eid];
    var d, fence := e.phase.decision, e.phase.fence;
    if aborted || d.notAfter <= now then
      match L.TerminalTx(s.ledger, e.actor, d, fence, L.FailedBeforeDispatch, None)
      case None => Throw(s, eid, "EXECUTION_UNKNOWN")
      case Some(ledger) => Throw(s.(ledger := ledger), eid, if lost then "STORE_UNAVAILABLE" else "DECISION_EXPIRED")
    else match L.DispatchTx(s.ledger, e.actor, d, fence)
      case None => Throw(s, eid, "EXECUTION_UNKNOWN")
      case Some(ledger) =>
        var t := s.(ledger := ledger);
        if lost then Throw(t, eid, "STORE_UNAVAILABLE") else Go(t, eid, Dispatched(d, fence))
  }

  /** The only place where a business handler is entered. */
  function StepEnter(s: System, eid: nat): System
    requires eid in s.executors && s.executors[eid].phase.Dispatched?
  {
    var e := s.executors[eid];
    var d := e.phase.decision;
    Go(s, eid, Handling(d, e.phase.fence)).(
    entries :=
        s.entries + [Entry(e.operation, e.actor, L.KeyOf(e.actor, d), e.phase.fence, d.toolId, e.args, e.mutation)])
  }

  /** The handler returned a valid result, or threw or returned something invalid. */
  function StepFinish(s: System, eid: nat, result: Option<L.Payload>, applied: bool, lost: bool): System
    requires eid in s.executors && s.executors[eid].phase.Handling?
  {
    var e := s.executors[eid];
    var d := e.phase.decision;
    var state := match result
      case None => L.Uncertain
      case Some(r) => if r.isError then L.FailedAfterDispatch else L.Succeeded;
    var written := if applied then L.TerminalTx(s.ledger, e.actor, d, e.phase.fence, state, result) else None;
    var t := if written.Some? then s.(ledger := written.value) else s;
    if written.None? || lost || result.None? then Throw(t, eid, "EXECUTION_UNKNOWN")
    else Go(t, eid, Done(Business(L.KeyOf(e.actor, d), result.value)))
  }

  /** One step; a label that does not apply changes nothing. */
  function Step(p: Provider, validate: Validator, s: System, l: Label): System {
    match l
    case CoreStep(step) => s.(core := C.Step(validate, s.core, step))
    case StoreReply(pid, index) =>
      if pid in s.core.workers && s.core.workers[pid].phase.Replied? && s.core.workers[pid].phase.result.Ok?
         && index < |C.ViewsIn(s.core.workers[pid].phase.result.value.body)| then
        s.(ledger := L.PutTx(s.ledger, s.core.workers[pid].request.actor,
                             C.ViewsIn(s.core.workers[pid].phase.result.value.body)[index]))
      else s
    case Begin(eid, actor, operation, revision, args, mutation) =>
      if eid in s.executors then s
      else s.(executors := s.executors[eid := Executor(actor, operation, revision, args, mutation, Begun)])
    case GetSnapshot(eid, permitted) =>
      if eid in s.executors && s.executors[eid].phase.Begun? then StepGet(p, validate, s, eid, permitted) else s
    case Lookup(eid, now) => if eid in s.executors && s.executors[eid].phase.Looked? then StepLookup(s, eid, now) else s
    case Ask(eid, pid) =>
      if eid in s.executors && s.executors[eid].phase.Asking? then StepAsk(validate, s, eid, pid) else s
    case Receive(eid, pid) =>
      if eid in s.executors && s.executors[eid].phase.Asking? && Answers(s, eid, pid) then StepReceive(s, eid, pid)
      else s
    case StoreRefusal(eid, lost) =>
      if eid in s.executors && s.executors[eid].phase.Refused? then
        var e := s.executors[eid];
        Go(s, eid, Done(if lost then Thrown("STORE_UNAVAILABLE") else Incomplete(e.phase.view))).(
        ledger := L.PutTx(s.ledger, e.actor, e.phase.view))
      else s
    case StoreIssued(eid, now, permitted, lost) =>
      if eid in s.executors && s.executors[eid].phase.Issuing? then StepStoreIssued(s, eid, now, permitted, lost) else s
    case Claim(eid, now, lost) =>
      if eid in s.executors && s.executors[eid].phase.Claiming? then StepClaim(s, eid, now, lost) else s
    case Repeat(eid, permitted) =>
      if eid in s.executors && s.executors[eid].phase.Replaying? then
        var e := s.executors[eid];
        Go(s, eid, Done(if permitted then Business(L.KeyOf(e.actor, e.phase.decision), e.phase.result)
                        else Thrown("TOOL_NOT_ALLOWED")))
      else s
    case Dispatch(eid, now, aborted, lost) =>
      if eid in s.executors && s.executors[eid].phase.Holding? then StepDispatch(s, eid, now, aborted, lost) else s
    case Enter(eid) => if eid in s.executors && s.executors[eid].phase.Dispatched? then StepEnter(s, eid) else s
    case Finish(eid, result, applied, lost) =>
      if eid in s.executors && s.executors[eid].phase.Handling? then StepFinish(s, eid, result, applied, lost) else s
    case Die(eid) =>
      if eid in s.executors && !s.executors[eid].phase.Done? then s.(executors := s.executors - {eid}) else s
  }

  function Run(p: Provider, validate: Validator, labels: seq<Label>): System {
    if labels == [] then Init() else Step(p, validate, Run(p, validate, labels[..|labels| - 1]), labels[|labels| - 1])
  }
}
