/** Any number of concurrent core requests over one database: every interleaving, with crashes,
    failed transactions, lost commit acknowledgements, lease takeover and client retries. */
module CoreRuns {
  import opened Wire
  import opened Operation
  import opened Core
  import W = Workflow

  /** Where a request stands. A worker that owns a claim knows its fence. */
  datatype Phase =
    | Arrived
    | Checked
    | Working(fence: Id)
    | Releasing(fence: Id, failure: Failure)
    | Replied(result: Result<Reply, Failure>)

  datatype Worker = Worker(request: Request, key: Token, phase: Phase)

  /** A record of one publication; the database does not keep it. */
  datatype Publication = Publication(request: Request, key: Token, fence: Id, reply: Reply, created: set<Id>)

  /** The database with the workers, and two records of the past: publications and the views of each operation. */
  datatype State = State(
    now: Instant, next: Id, tables: Tables, workers: map<nat, Worker>,
    log: seq<Publication>, lives: map<Id, seq<View>>)

  datatype Label =
    | Tick(elapsed: nat)
    | Upload(catalog: CatalogKey, tools: seq<Tool>)
    | Arrive(pid: nat, request: Request, key: Token)
    | Guard(pid: nat)
    | Reserve(pid: nat, lost: bool)
    | CommitPrepare(pid: nat, selection: Selection, external: bool, at: Instant, lost: bool)
    | CommitWorkflow(pid: nat, selected: seq<Tool>, count: nat, external: bool, at: Instant, lost: bool)
    | CommitAct(pid: nat, lost: bool)
    | Abort(pid: nat, failure: Failure)
    | Release(pid: nat, lost: bool)
    | Crash(pid: nat)

  const LOST := Failure(500, "INTERNAL_ERROR")

  function PathOf(body: Body): Path {
    match body
    case PrepareBody(_, _, _, _, _) => Operations
    case WorkflowBody(_, _, _, _) => Workflows
    case ActBody(id, action) =>
      OperationPath(id, match action
                        case Cancel(_) => CancelVerb
                        case Resolve(_, _, _) => ResolveVerb
                        case Decide(_, _) => DecideVerb
                        case Record(_, _) => ReceiptVerb)
  }

  function KeyOf(request: Request, key: Token): IdemKey {
    IdemKey(request.actor.principal, request.actor.workspace, PathOf(request.body), key)
  }

  function Init(): State { State(0, 0, Tables(map[], map[], map[], map[]), map[], [], map[]) }

  function Move(s: State, pid: nat, phase: Phase): State
    requires pid in s.workers
  {
    s.(workers := s.workers[pid := s.workers[pid].(phase := phase)])
  }

  /** The phase after a commit whose acknowledgement may have been lost. */
  function Acknowledge(fence: Id, reply: Reply, lost: bool): Phase {
    if lost then Releasing(fence, LOST) else Replied(Ok(reply))
  }

  /** The committed creation of a preparation's operations. */
  function CommitCreate(s: State, pid: nat, views: seq<View>, reply: Reply, lost: bool): State
    requires pid in s.workers && s.workers[pid].phase.Working?
  {
    var w := s.workers[pid];
    var fence := w.phase.fence;
    match CreateTx(s.tables, w.request.actor, views, KeyOf(w.request, w.key), fence, reply)
    case Err(f) => Move(s, pid, Releasing(fence, f))
    case Ok(t) =>
      Move(s, pid, Acknowledge(fence, reply, lost)).(
      tables := t,
      log := s.log + [Publication(w.request, w.key, fence, reply, Created(views))],
      lives := s.lives + FirstLives(views))
  }

  function FirstLives(views: seq<View>): map<Id, seq<View>> {
    map id | id in Created(views) :: [ViewOf(views, id)]
  }

  function ViewOf(views: seq<View>, id: Id): (v: View)
    requires id in Created(views)
    ensures v in views && v.id == id
  {
    if views[|views| - 1].id == id then views[|views| - 1]
    else
      assert views == views[..|views| - 1] + [views[|views| - 1]];
      ViewOf(views[..|views| - 1], id)
  }

  function StepPrepare(validate: Validator, s: State, pid: nat, selection: Selection, external: bool, at: Instant,
                       lost: bool): State
    requires pid in s.workers && s.workers[pid].phase.Working? && s.workers[pid].request.body.PrepareBody?
  {
    var w := s.workers[pid];
    var k := CatalogKey(w.request.body.catalogId, w.request.body.version);
    if k !in s.tables.catalogs then Move(s, pid, Releasing(w.phase.fence, Failure(404, "CATALOG_NOT_FOUND")))
    else if !Selectable(s.tables.catalogs[k], selection) then s
    else
      match Prepare(validate, k.id, k.version, s.tables.catalogs[k], w.request.actor.allowed, external, selection,
                    w.request.body.known, s.next, at)
      case Err(f) => Move(s, pid, Releasing(w.phase.fence, f))
      case Ok(view) => CommitCreate(s.(next := s.next + 1), pid, [view], Reply(201, ViewResponse(view)), lost)
  }

  /** What a worker prepares for its workflow request once the selector has answered. */
  function BundleTx(validate: Validator, s: State, pid: nat, selected: seq<Tool>, count: nat, external: bool,
                    at: Instant)
    : (r: Result<Response, Failure>)
    requires pid in s.workers && s.workers[pid].request.body.WorkflowBody?
    ensures r.Ok? ==> r.value.Bundle?
  {
    var w := s.workers[pid];
    var k := CatalogKey(w.request.body.catalogId, w.request.body.version);
    if k !in s.tables.catalogs then Err(Failure(404, "CATALOG_NOT_FOUND"))
    else W.PrepareBundle(validate, k.id, k.version, s.tables.catalogs[k], w.request.actor.allowed, external, selected,
                         count, w.request.body.exposureLimit, s.next, at)
  }

  function StepWorkflow(validate: Validator, s: State, pid: nat, selected: seq<Tool>, count: nat, external: bool,
                        at: Instant, lost: bool): State
    requires pid in s.workers && s.workers[pid].phase.Working? && s.workers[pid].request.body.WorkflowBody?
  {
    match BundleTx(validate, s, pid, selected, count, external, at)
    case Err(f) => Move(s, pid, Releasing(s.workers[pid].phase.fence, f))
    case Ok(body) => CommitCreate(s.(next := s.next + |body.views|), pid, body.views, Reply(201, body), lost)
  }

  /** The transaction of an action, on the database as it is. */
  function ActTx(validate: Validator, s: State, pid: nat): Result<(Tables, Reply), Failure>
    requires pid in s.workers && s.workers[pid].phase.Working? && s.workers[pid].request.body.ActBody?
  {
    var w := s.workers[pid];
    MutateTx(validate, s.tables, w.request.actor, w.request.body.operation, w.request.body.action,
             KeyOf(w.request, w.key), w.phase.fence, s.now, Ids(s.next, s.next + 1))
  }

  function StepAct(validate: Validator, s: State, pid: nat, lost: bool): State
    requires pid in s.workers && s.workers[pid].phase.Working? && s.workers[pid].request.body.ActBody?
  {
    var w := s.workers[pid];
    var fence, id := w.phase.fence, w.request.body.operation;
    match ActTx(validate, s, pid)
    case Err(f) => Move(s, pid, Releasing(fence, f)).(next := s.next + 2)
    case Ok((t, reply)) =>
      Move(s, pid, Acknowledge(fence, reply, lost)).(
      next := s.next + 2,
      tables := t,
      log := s.log + [Publication(w.request, w.key, fence, reply, {})],
      lives := if w.request.body.action.Record? || id !in s.lives then s.lives
               else s.lives[id := s.lives[id] + [t.operations[id].view]])
  }

  function StepGuard(s: State, pid: nat): State
    requires pid in s.workers
  {
    var w := s.workers[pid];
    if !w.request.body.ActBody? then Move(s, pid, Checked)
    else match Load(s.tables.operations, w.request.actor, w.request.body.operation)
      case Err(f) => Move(s, pid, Replied(Err(f)))
      case Ok(stored) =>
        if !w.request.body.action.Record? && Deadline(stored.view.expires) <= s.now then
          Move(s, pid, Replied(Err(Failure(410, "OPERATION_EXPIRED"))))
        else Move(s, pid, Checked)
  }

  function StepReserve(s: State, pid: nat, lost: bool): State
    requires pid in s.workers
  {
    var w := s.workers[pid];
    var (t, claim) := ReserveTx(s.tables, KeyOf(w.request, w.key), Hmac(w.request), s.next, s.now);
    var phase :=
      if lost then Replied(Err(LOST))
      else match claim
        case Conflict => Replied(Err(Failure(409, "IDEMPOTENCY_CONFLICT")))
        case Processing => Replied(Err(Failure(409, "REQUEST_IN_PROGRESS")))
        case Replay(reply) => Replied(Ok(reply))
        case Owned(fence) => Working(fence);
    Move(s, pid, phase).(tables := t, next := s.next + 1)
  }

  /** One step; a label that does not apply changes nothing. */
  function Step(validate: Validator, s: State, l: Label): State {
    match l
    case Tick(elapsed) => s.(now := s.now + elapsed)
    case Upload(k, tools) =>
      (match PutCatalogTx(s.tables, k, tools)
       case Ok(t) => s.(tables := t)
       case Err(_) => s)
    case Arrive(pid, request, key) =>
      if pid in s.workers then s else s.(workers := s.workers[pid := Worker(request, key, Arrived)])
    case Guard(pid) => if pid in s.workers && s.workers[pid].phase.Arrived? then StepGuard(s, pid) else s
    case Reserve(pid, lost) =>
      if pid in s.workers && s.workers[pid].phase.Checked? then StepReserve(s, pid, lost) else s
    case CommitPrepare(pid, selection, external, at, lost) =>
      if pid in s.workers && s.workers[pid].phase.Working? && s.workers[pid].request.body.PrepareBody?
      then StepPrepare(validate, s, pid, selection, external, at, lost) else s
    case CommitWorkflow(pid, selected, count, external, at, lost) =>
      if pid in s.workers && s.workers[pid].phase.Working? && s.workers[pid].request.body.WorkflowBody?
      then StepWorkflow(validate, s, pid, selected, count, external, at, lost) else s
    case CommitAct(pid, lost) =>
      if pid in s.workers && s.workers[pid].phase.Working? && s.workers[pid].request.body.ActBody?
      then StepAct(validate, s, pid, lost) else s
    case Abort(pid, failure) =>
      if pid in s.workers && s.workers[pid].phase.Working?
      then Move(s, pid, Releasing(s.workers[pid].phase.fence, failure)) else s
    case Release(pid, lost) =>
      if pid in s.workers && s.workers[pid].phase.Releasing? then
        var w := s.workers[pid];
        Move(s, pid, Replied(Err(w.phase.failure))).(
        tables := if lost then s.tables else ReleaseTx(s.tables, KeyOf(w.request, w.key), w.phase.fence))
      else s
    case Crash(pid) =>
      if pid in s.workers && !s.workers[pid].phase.Replied? then s.(workers := s.workers - {pid}) else s
  }

  /** The state after a whole run. */
  function Run(validate: Validator, labels: seq<Label>): State {
    if labels == [] then Init() else Step(validate, Run(validate, labels[..|labels| - 1]), labels[|labels| - 1])
  }

  /* ----- Invariants ----- */

  /** A worker holds a fence from its claim until it has released it. */
  predicate Holds(w: Worker) { w.phase.Working? || w.phase.Releasing? }

  predicate Fenced(s: State, pid: nat)
    requires pid in s.workers
  {
    var w := s.workers[pid];
    Holds(w) ==>
      && w.phase.fence < s.next
      && (forall k <- s.tables.idempotency :: s.tables.idempotency[k].fence == w.phase.fence ==>
            k == KeyOf(w.request, w.key) && s.tables.idempotency[k].hash == Hmac(w.request))
  }

  /** Every fence belongs to one claim and at most one worker. */
  predicate Fences(s: State) {
    && (forall k <- s.tables.idempotency :: s.tables.idempotency[k].fence < s.next)
    && (forall pid <- s.workers :: Fenced(s, pid))
    && (forall p, q :: p in s.workers && q in s.workers && p != q && Holds(s.workers[p]) && Holds(s.workers[q]) ==>
          s.workers[p].phase.fence != s.workers[q].phase.fence)
  }

  function Claimed(p: Publication): IdemKey { KeyOf(p.request, p.key) }

  predicate RowMatches(s: State, p: Publication) {
    && Claimed(p) in s.tables.idempotency
    && var row := s.tables.idempotency[Claimed(p)];
       row.response == Some(p.reply) && row.hash == Hmac(p.request) && row.fence == p.fence
  }

  ghost predicate InLog(s: State, k: IdemKey) { exists i :: 0 <= i < |s.log| && Claimed(s.log[i]) == k }

  /** Each key has at most one publication, and it is the response its row keeps. */
  ghost predicate OncePerKey(s: State) {
    && (forall i {:trigger RowMatches(s, s.log[i])} :: 0 <= i < |s.log| ==> RowMatches(s, s.log[i]))
    && (forall i, j :: 0 <= i < j < |s.log| ==> Claimed(s.log[i]) != Claimed(s.log[j]))
    && (forall k <- s.tables.idempotency {:trigger InLog(s, k)} ::
        s.tables.idempotency[k].response.Some? ==> InLog(s, k))
  }

  ghost predicate Answered(s: State, request: Request, key: Token, reply: Reply) {
    exists i :: 0 <= i < |s.log| && s.log[i].request == request && s.log[i].key == key && s.log[i].reply == reply
  }

  /** A success that any caller sees, first answer or replay, is the one publication of its request and key. */
  ghost predicate RepliesPublished(s: State) {
    forall pid <- s.workers ::
      s.workers[pid].phase.Replied? && s.workers[pid].phase.result.Ok? ==>
        Answered(s, s.workers[pid].request, s.workers[pid].key, s.workers[pid].phase.result.value)
  }

  function ViewsIn(r: Response): seq<View> {
    match r
    case ViewResponse(v) => [v]
    case Bundle(views, _, _) => views
    case _ => []
  }

  /** The operations that a publication created. */
  function Bundled(p: Publication): set<Id> {
    if p.request.body.ActBody? then {} else Created(ViewsIn(p.reply.body))
  }

  ghost predicate HasOrigin(s: State, id: Id) { exists i :: 0 <= i < |s.log| && id in s.log[i].created }

  predicate Apart(p: Publication, q: Publication) { p.created !! q.created }

  /** Operations exist only through a publication, and a publication's operations exist all together. */
  ghost predicate Bundles(s: State) {
    && (forall id <- s.tables.operations {:trigger HasOrigin(s, id)} :: HasOrigin(s, id))
    && (forall i :: 0 <= i < |s.log| ==>
          s.log[i].created == Bundled(s.log[i]) && s.log[i].created <= s.tables.operations.Keys)
    && (forall i, j :: 0 <= i < j < |s.log| ==> Apart(s.log[i], s.log[j]))
  }

  ghost predicate LifeOf(s: State, id: Id)
    requires id in s.lives && id in s.tables.operations
  {
    var h := s.lives[id];
    Life(h) && h[|h| - 1] == s.tables.operations[id].view && h[0].id == id && id < s.next
  }

  /** The stored view is the latest of a life that began with the preparation. */
  ghost predicate Lives(s: State) {
    && s.lives.Keys == s.tables.operations.Keys
    && forall id <- s.lives {:trigger LifeOf(s, id)} :: LifeOf(s, id)
  }

  predicate KeysApart(s: State, a: Id, b: Id)
    requires a in s.tables.operations && b in s.tables.operations
  {
    var d, e := s.tables.operations[a].view.decision, s.tables.operations[b].view.decision;
    d.Some? && e.Some? ==> d.value.executionKey != e.value.executionKey
  }

  /** Execution keys are fresh and never shared by two operations. */
  predicate KeysDistinct(s: State) {
    && (forall id <- s.tables.operations :: s.tables.operations[id].view.decision.Some? ==>
          s.tables.operations[id].view.decision.value.executionKey < s.next)
    && (forall a <- s.tables.operations, b <- s.tables.operations {:trigger KeysApart(s, a, b)} ::
        a != b ==> KeysApart(s, a, b))
  }

  predicate SameContext(a: Actor, b: Actor) {
    a.principal == b.principal && a.workspace == b.workspace && a.revision == b.revision
  }

  predicate Kept(s: State, actor: Actor, v: View) {
    && v.id in s.lives && v in s.lives[v.id]
    && v.id in s.tables.operations && SameContext(s.tables.operations[v.id].actor, actor)
  }

  predicate Truthful(s: State, p: Publication) {
    && (forall v <- ViewsIn(p.reply.body) :: Kept(s, p.request.actor, v))
    && (p.reply.body.ViewResponse? && p.request.body.ActBody? ==> p.reply.body.view.id == p.request.body.operation)
    && (p.reply.body.DecisionResponse? ==>
          && p.request.body.ActBody? && p.request.body.action.Decide?
          && p.request.body.operation in s.tables.operations
          && var stored := s.tables.operations[p.request.body.operation];
             && SameContext(stored.actor, p.request.actor)
             && stored.view.decision == Some(p.reply.body.decision)
             && p.reply.body.decision.argumentsDigest == Sha256(p.request.body.action.arguments))
  }

  /** Every published view is in the life of its operation and every published decision is still its decision. */
  predicate AnswersTruthful(s: State) {
    forall i {:trigger Truthful(s, s.log[i])} :: 0 <= i < |s.log| ==> Truthful(s, s.log[i])
  }

  predicate OffersKnown(s: State, id: Id)
    requires id in s.tables.operations
  {
    var v := s.tables.operations[id].view;
    v.status == NeedsChoice ==>
      CatalogOf(s.tables, v).Some? && CandidateIds(v.candidates) <= ToolIds(CatalogOf(s.tables, v).value)
  }

  /** Offered candidates are in the immutable catalog. */
  predicate ChoicesKnown(s: State) {
    forall id <- s.tables.operations {:trigger OffersKnown(s, id)} :: OffersKnown(s, id)
  }

  ghost predicate Inv(s: State) {
    && Fences(s) && OncePerKey(s) && RepliesPublished(s) && Bundles(s)
    && Lives(s) && KeysDistinct(s) && AnswersTruthful(s) && ChoicesKnown(s)
  }

  /* ----- What no step takes back ----- */

  ghost predicate Extends(s: State, t: State, id: Id)
    requires id in s.lives && id in s.tables.operations
  {
    && id in t.lives && s.lives[id] <= t.lives[id]
    && id in t.tables.operations && t.tables.operations[id].actor == s.tables.operations[id].actor
  }

  /** Publications, published rows, answers, lives and catalogs only accumulate. */
  ghost predicate Grows(s: State, t: State) {
    && s.now <= t.now && s.next <= t.next && s.log <= t.log
    && (forall k <- s.tables.idempotency :: s.tables.idempotency[k].response.Some? ==>
          k in t.tables.idempotency && t.tables.idempotency[k] == s.tables.idempotency[k])
    && (forall k <- s.tables.catalogs :: k in t.tables.catalogs && t.tables.catalogs[k] == s.tables.catalogs[k])
    && (forall id :: id in s.lives && id in s.tables.operations ==> Extends(s, t, id))
    && (forall pid <- s.workers ::
        s.workers[pid].phase.Replied? ==> pid in t.workers && t.workers[pid] == s.workers[pid])
  }

  /* ----- One step keeps the invariant ----- */

  /** How the claim row changes at a publication. */
  predicate PublishesRow(s: State, t: State, k: IdemKey, fence: Id, reply: Reply) {
    && k in s.tables.idempotency && s.tables.idempotency[k].fence == fence && s.tables.idempotency[k].response.None?
    && t.tables.idempotency == s.tables.idempotency[k := s.tables.idempotency[k].(response := Some(reply))]
  }

  /** What a step may do besides writing operations: nothing, or publish for one working worker. */
  ghost predicate Publishes(s: State, t: State, pid: nat, reply: Reply, created: set<Id>) {
    && pid in s.workers && s.workers[pid].phase.Working?
    && var w := s.workers[pid];
       && PublishesRow(s, t, KeyOf(w.request, w.key), w.phase.fence, reply)
       && t.log == s.log + [Publication(w.request, w.key, w.phase.fence, reply, created)]
       && (t.workers == s.workers[pid := w.(phase := Replied(Ok(reply)))]
           || t.workers == s.workers[pid := w.(phase := Releasing(w.phase.fence, LOST))])
       && t.next >= s.next && t.now == s.now && t.tables.catalogs == s.tables.catalogs
  }

  lemma PublishKeepsClaims(s: State, t: State, pid: nat, reply: Reply, created: set<Id>)
    requires Fences(s) && OncePerKey(s) && RepliesPublished(s) && Publishes(s, t, pid, reply, created)
    ensures Fences(t) && OncePerKey(t) && RepliesPublished(t)
  {
    PublishFences(s, t, pid, reply, created);
    PublishOnce(s, t, pid, reply, created);
    PublishReplies(s, t, pid, reply, created);
  }

  lemma PublishFences(s: State, t: State, pid: nat, reply: Reply, created: set<Id>)
    requires Fences(s) && Publishes(s, t, pid, reply, created)
    ensures Fences(t)
  {
    forall q <- t.workers ensures Fenced(t, q) { assert Fenced(s, q); }
  }

  lemma PublishOnce(s: State, t: State, pid: nat, reply: Reply, created: set<Id>)
    requires Fences(s) && OncePerKey(s) && Publishes(s, t, pid, reply, created)
    ensures OncePerKey(t)
  {
    var k := KeyOf(s.workers[pid].request, s.workers[pid].key);
    assert Fenced(s, pid);
    forall i | 0 <= i < |s.log| ensures Claimed(s.log[i]) != k && RowMatches(t, t.log[i]) {
      assert RowMatches(s, s.log[i]) && t.log[i] == s.log[i];
    }
    var last := t.log[|s.log|];
    assert RowMatches(t, last) && Claimed(last) == k;
    forall x <- t.tables.idempotency | t.tables.idempotency[x].response.Some? ensures InLog(t, x) {
      if x == k {
        assert Claimed(t.log[|s.log|]) == x;
      } else {
        assert InLog(s, x);
        var i :| 0 <= i < |s.log| && Claimed(s.log[i]) == x;
        assert Claimed(t.log[i]) == x;
      }
    }
  }

  lemma PublishReplies(s: State, t: State, pid: nat, reply: Reply, created: set<Id>)
    requires RepliesPublished(s) && Publishes(s, t, pid, reply, created)
    ensures RepliesPublished(t)
  {
    var w, last := s.workers[pid], t.log[|s.log|];
    assert Answered(t, w.request, w.key, reply) by {
      assert last.request == w.request && last.key == w.key && last.reply == reply;
    }
    forall q <- t.workers | t.workers[q].phase.Replied? && t.workers[q].phase.result.Ok? && q != pid
      ensures Answered(t, t.workers[q].request, t.workers[q].key, t.workers[q].phase.result.value)
    {
      AnsweredStays(s, t, t.workers[q].request, t.workers[q].key, t.workers[q].phase.result.value);
    }
  }

  lemma AnsweredStays(s: State, t: State, request: Request, key: Token, reply: Reply)
    requires s.log <= t.log && Answered(s, request, key, reply)
    ensures Answered(t, request, key, reply)
  {
    var i :| 0 <= i < |s.log| && s.log[i].request == request && s.log[i].key == key && s.log[i].reply == reply;
    assert t.log[i] == s.log[i];
  }

  /** A claim taken, refused or replayed. */
  lemma ReserveKeepsClaims(s: State, pid: nat, lost: bool)
    requires Fences(s) && OncePerKey(s) && RepliesPublished(s)
    requires pid in s.workers && s.workers[pid].phase.Checked?
    ensures var t := StepReserve(s, pid, lost); Fences(t) && OncePerKey(t) && RepliesPublished(t)
  {
    ReserveFences(s, pid, lost);
    ReserveOnce(s, pid, lost);
    ReserveReplies(s, pid, lost);
  }

  lemma ReserveFences(s: State, pid: nat, lost: bool)
    requires Fences(s) && pid in s.workers && s.workers[pid].phase.Checked?
    ensures Fences(StepReserve(s, pid, lost))
  {
    hide KeyOf, ReserveTx;
    var t := StepReserve(s, pid, lost);
    var w := s.workers[pid];
    var k := KeyOf(w.request, w.key);
    ReservedRow(s.tables, k, Hmac(w.request), s.next, s.now);
    var claim := ReserveTx(s.tables, k, Hmac(w.request), s.next, s.now).1;
    assert t.tables.idempotency == s.tables.idempotency
           || t.tables.idempotency == s.tables.idempotency[k := IdemRow(Hmac(w.request), s.next, s.now + LEASE, None)];
    assert Holds(t.workers[pid]) ==> claim.Owned? && t.workers[pid].phase.fence == s.next;
    forall q <- t.workers ensures Fenced(t, q) { assert Fenced(s, q); }
  }

  lemma ReserveOnce(s: State, pid: nat, lost: bool)
    requires OncePerKey(s) && pid in s.workers && s.workers[pid].phase.Checked?
    ensures OncePerKey(StepReserve(s, pid, lost))
  {
    var t := StepReserve(s, pid, lost);
    forall i | 0 <= i < |t.log| ensures RowMatches(t, t.log[i]) { assert RowMatches(s, s.log[i]); }
    forall x <- t.tables.idempotency | t.tables.idempotency[x].response.Some? ensures InLog(t, x) {
      assert InLog(s, x);
      var i :| 0 <= i < |s.log| && Claimed(s.log[i]) == x;
      assert Claimed(t.log[i]) == x;
    }
  }

  lemma ReserveReplies(s: State, pid: nat, lost: bool)
    requires OncePerKey(s) && RepliesPublished(s) && pid in s.workers && s.workers[pid].phase.Checked?
    ensures RepliesPublished(StepReserve(s, pid, lost))
  {
    var t := StepReserve(s, pid, lost);
    var w := s.workers[pid];
    var k := KeyOf(w.request, w.key);
    if t.workers[pid].phase.Replied? && t.workers[pid].phase.result.Ok? {
      assert InLog(s, k);
      var i :| 0 <= i < |s.log| && Claimed(s.log[i]) == k;
      assert RowMatches(s, s.log[i]);
      assert t.log[i].request == w.request && t.log[i].key == w.key
             && t.log[i].reply == t.workers[pid].phase.result.value;
    }
    forall q <- t.workers | q != pid && t.workers[q].phase.Replied? && t.workers[q].phase.result.Ok?
      ensures Answered(t, t.workers[q].request, t.workers[q].key, t.workers[q].phase.result.value)
    {
      AnsweredStays(s, t, t.workers[q].request, t.workers[q].key, t.workers[q].phase.result.value);
    }
  }

  /** Steps that publish nothing and take no claim: rows stay, or an unpublished one goes. */
  lemma QuietKeepsClaims(s: State, t: State)
    requires Fences(s) && OncePerKey(s) && RepliesPublished(s)
    requires t.log == s.log && t.next >= s.next
    requires forall k <- t.tables.idempotency ::
             k in s.tables.idempotency && t.tables.idempotency[k] == s.tables.idempotency[k]
    requires forall k <- s.tables.idempotency :: s.tables.idempotency[k].response.Some? ==> k in t.tables.idempotency
    requires forall q <- t.workers :: Holds(t.workers[q]) ==>
               q in s.workers && Holds(s.workers[q]) && s.workers[q].phase.fence == t.workers[q].phase.fence
               && s.workers[q].request == t.workers[q].request && s.workers[q].key == t.workers[q].key
    requires forall q <- t.workers :: t.workers[q].phase.Replied? && t.workers[q].phase.result.Ok? ==>
               q in s.workers && s.workers[q] == t.workers[q]
    ensures Fences(t) && OncePerKey(t) && RepliesPublished(t)
  {
    forall q <- t.workers ensures Fenced(t, q) { if q in s.workers { assert Fenced(s, q); } }
    forall i | 0 <= i < |t.log| ensures RowMatches(t, t.log[i]) { assert RowMatches(s, s.log[i]); }
    forall x <- t.tables.idempotency | t.tables.idempotency[x].response.Some? ensures InLog(t, x) {
      assert InLog(s, x);
      var i :| 0 <= i < |s.log| && Claimed(s.log[i]) == x;
      assert Claimed(t.log[i]) == x;
    }
    forall q <- t.workers | t.workers[q].phase.Replied? && t.workers[q].phase.result.Ok?
      ensures Answered(t, t.workers[q].request, t.workers[q].key, t.workers[q].phase.result.value)
    {
      AnsweredStays(s, t, t.workers[q].request, t.workers[q].key, t.workers[q].phase.result.value);
    }
  }

  /** Steps that touch no operation. */
  lemma QuietKeepsOperations(s: State, t: State)
    requires Bundles(s) && Lives(s) && KeysDistinct(s) && AnswersTruthful(s) && ChoicesKnown(s)
    requires t.log == s.log && t.lives == s.lives && t.tables.operations == s.tables.operations && t.next >= s.next
    requires forall k <- s.tables.catalogs :: k in t.tables.catalogs && t.tables.catalogs[k] == s.tables.catalogs[k]
    ensures Bundles(t) && Lives(t) && KeysDistinct(t) && AnswersTruthful(t) && ChoicesKnown(t)
  {
    hide Bundles, Lives, AnswersTruthful;
    QuietKeepsRecords(s, t);
    QuietKeepsLives(s, t);
    forall a <- t.tables.operations, b <- t.tables.operations | a != b ensures KeysApart(t, a, b) {
      assert KeysApart(s, a, b);
    }
    forall id <- t.tables.operations ensures OffersKnown(t, id) { assert OffersKnown(s, id); }
  }

  lemma QuietKeepsLives(s: State, t: State)
    requires Lives(s) && t.lives == s.lives && t.tables.operations == s.tables.operations && t.next >= s.next
    ensures Lives(t)
  {
    hide Life;
    forall id <- t.lives ensures LifeOf(t, id) { assert LifeOf(s, id); }
  }

  lemma QuietKeepsRecords(s: State, t: State)
    requires Bundles(s) && AnswersTruthful(s)
    requires t.log == s.log && t.lives == s.lives && t.tables.operations == s.tables.operations
    ensures Bundles(t) && AnswersTruthful(t)
  {
    forall id <- t.tables.operations ensures HasOrigin(t, id) {
      assert HasOrigin(s, id);
      var i :| 0 <= i < |s.log| && id in s.log[i].created;
      assert id in t.log[i].created;
    }
    forall i | 0 <= i < |t.log| ensures Truthful(t, t.log[i]) {
      assert Truthful(s, s.log[i]);
      forall v <- ViewsIn(t.log[i].reply.body) ensures Kept(t, t.log[i].request.actor, v) {
        assert Kept(s, s.log[i].request.actor, v);
      }
    }
  }

  /** What was published stays truthful when every life is kept or extended along `Evolves`. */
  lemma TruthfulStays(s: State, t: State, p: Publication)
    requires Truthful(s, p) && s.lives.Keys == s.tables.operations.Keys
    requires forall id :: id in s.lives && id in s.tables.operations ==> Extends(s, t, id)
    requires forall id <- s.tables.operations :: id in t.tables.operations
               && (s.tables.operations[id].view.decision.Some? ==>
                     t.tables.operations[id].view.decision == s.tables.operations[id].view.decision)
    ensures Truthful(t, p)
  {
    forall v <- ViewsIn(p.reply.body) ensures Kept(t, p.request.actor, v) {
      assert Kept(s, p.request.actor, v);
      assert Extends(s, t, v.id);
    }
    if p.reply.body.DecisionResponse? {
      assert p.request.body.operation in s.tables.operations;
    }
  }

  ghost predicate Creatable(s: State, v: View) {
    && Life([v]) && v.id < s.next && v.decision.None?
    && (v.status == NeedsChoice ==>
          CatalogOf(s.tables, v).Some? && CandidateIds(v.candidates) <= ToolIds(CatalogOf(s.tables, v).value))
  }

  /** The tables and records after a committed preparation. */
  ghost predicate Creates(s: State, t: State, actor: Actor, views: seq<View>, p: Publication) {
    && AllNew(s.tables.operations.Keys, views)
    && t.tables.operations == Inserted(s.tables.operations, actor, views)
    && t.tables.catalogs == s.tables.catalogs
    && t.lives == s.lives + FirstLives(views)
    && t.log == s.log + [p] && p.created == Created(views) && p.request.actor == actor
    && t.next == s.next
  }

  lemma CreateLives(s: State, t: State, actor: Actor, views: seq<View>, p: Publication)
    requires Lives(s) && Creates(s, t, actor, views, p)
    requires forall v <- views :: Creatable(s, v)
    ensures Lives(t)
  {
    hide Life, Creatable;
    InsertedRows(s.tables.operations, actor, views);
    FirstLivesKeys(views);
    forall id <- FirstLives(views) ensures id in t.lives && id in t.tables.operations && LifeOf(t, id) {
      NewLife(s, t, actor, views, p, id);
    }
    MergeLives(s, t, FirstLives(views));
  }

  lemma MergeLives(s: State, t: State, first: map<Id, seq<View>>)
    requires Lives(s) && t.lives == s.lives + first && t.next >= s.next
    requires t.tables.operations.Keys == s.tables.operations.Keys + first.Keys
    requires forall id <- first :: id in t.lives && id in t.tables.operations && LifeOf(t, id)
    requires forall id <- s.tables.operations :: id !in first && t.tables.operations[id] == s.tables.operations[id]
    ensures Lives(t)
  {
    hide Life;
    forall id <- t.lives ensures LifeOf(t, id) {
      if id !in first { assert LifeOf(s, id); }
    }
  }

  lemma FirstLivesKeys(views: seq<View>)
    ensures FirstLives(views).Keys == Created(views)
  {
  }

  lemma NewLife(s: State, t: State, actor: Actor, views: seq<View>, p: Publication, id: Id)
    requires Creates(s, t, actor, views, p) && id in Created(views)
    requires forall v <- views :: Creatable(s, v)
    ensures id in t.lives && id in t.tables.operations && LifeOf(t, id)
  {
    hide Life;
    CreatedRow(s.tables.operations, actor, views, id);
    assert Creatable(s, ViewOf(views, id));
    assert t.lives[id] == [ViewOf(views, id)];
  }

  lemma CreateExtends(s: State, t: State, actor: Actor, views: seq<View>, p: Publication)
    requires Creates(s, t, actor, views, p) && s.lives.Keys == s.tables.operations.Keys
    ensures forall id :: id in s.lives && id in s.tables.operations ==> Extends(s, t, id)
    ensures forall v <- views :: Kept(t, actor, v)
  {
    InsertedRows(s.tables.operations, actor, views);
    forall id | id in s.lives && id in s.tables.operations ensures Extends(s, t, id) {
      assert id !in Created(views);
    }
    forall v <- views ensures Kept(t, actor, v) {
      CreatedRow(s.tables.operations, actor, views, v.id);
      OneViewPerId(views, v, ViewOf(views, v.id));
      assert t.lives[v.id] == [v];
    }
  }

  lemma LogGrows(s: State, t: State, p: Publication, i: nat)
    requires t.log == s.log + [p] && i < |s.log|
    ensures t.log[i] == s.log[i]
  {
  }

  lemma CreateBundles(s: State, t: State, actor: Actor, views: seq<View>, p: Publication)
    requires Bundles(s) && Creates(s, t, actor, views, p)
    requires !p.request.body.ActBody? && ViewsIn(p.reply.body) == views
    ensures Bundles(t)
  {
    hide Inserted, FirstLives;
    InsertedRows(s.tables.operations, actor, views);
    BundlesGrow(s, t, p);
  }

  /** A publication of new operations, or of none, keeps every operation in exactly one publication. */
  lemma BundlesGrow(s: State, t: State, p: Publication)
    requires Bundles(s) && t.log == s.log + [p]
    requires p.created == Bundled(p) && p.created !! s.tables.operations.Keys
    requires t.tables.operations.Keys == s.tables.operations.Keys + p.created
    ensures Bundles(t)
  {
    hide Bundled;
    forall id <- t.tables.operations ensures HasOrigin(t, id) {
      if id in s.tables.operations {
        assert HasOrigin(s, id);
        var i :| 0 <= i < |s.log| && id in s.log[i].created;
        assert id in t.log[i].created;
      } else { assert id in t.log[|s.log|].created; }
    }
    forall i | 0 <= i < |t.log|
      ensures t.log[i].created == Bundled(t.log[i]) && t.log[i].created <= t.tables.operations.Keys
    {
      if i < |s.log| { LogGrows(s, t, p, i); }
    }
    forall i, j | 0 <= i < j < |t.log| ensures Apart(t.log[i], t.log[j]) { BundlesApart(s, t, p, i, j); }
  }

  lemma BundlesApart(s: State, t: State, p: Publication, i: nat, j: nat)
    requires Bundles(s) && t.log == s.log + [p] && i < j < |t.log|
    requires p.created !! s.tables.operations.Keys
    ensures Apart(t.log[i], t.log[j])
  {
    hide Bundled, HasOrigin;
    LogGrows(s, t, p, i);
    if j < |s.log| {
      LogGrows(s, t, p, j);
      assert Apart(s.log[i], s.log[j]);
    } else {
      assert s.log[i].created <= s.tables.operations.Keys;
      assert t.log[j] == p;
    }
  }

  lemma CreateDecisions(s: State, t: State, actor: Actor, views: seq<View>, p: Publication)
    requires KeysDistinct(s) && ChoicesKnown(s) && Creates(s, t, actor, views, p)
    requires forall v <- views :: Creatable(s, v)
    ensures KeysDistinct(t) && ChoicesKnown(t)
  {
    hide Life, AllNew;
    InsertedRows(s.tables.operations, actor, views);
    forall id <- t.tables.operations
      ensures OffersKnown(t, id)
              && (t.tables.operations[id].view.decision.Some? ==> id in s.tables.operations && id !in Created(views))
    {
      if id in Created(views) {
        CreatedRow(s.tables.operations, actor, views, id);
        assert Creatable(s, ViewOf(views, id));
      } else { assert OffersKnown(s, id); }
    }
    forall a <- t.tables.operations, b <- t.tables.operations | a != b ensures KeysApart(t, a, b) {
      if a in s.tables.operations && b in s.tables.operations { assert KeysApart(s, a, b); }
    }
  }

  lemma TruthGrows(s: State, t: State, p: Publication)
    requires AnswersTruthful(s) && Truthful(t, p) && t.log == s.log + [p]
    requires s.lives.Keys == s.tables.operations.Keys
    requires forall id :: id in s.lives && id in s.tables.operations ==> Extends(s, t, id)
    requires forall id <- s.tables.operations :: id in t.tables.operations
               && (s.tables.operations[id].view.decision.Some? ==>
                     t.tables.operations[id].view.decision == s.tables.operations[id].view.decision)
    ensures AnswersTruthful(t)
  {
    forall i | 0 <= i < |t.log| ensures Truthful(t, t.log[i]) {
      if i < |s.log| {
        assert t.log[i] == s.log[i] && Truthful(s, s.log[i]);
        TruthfulStays(s, t, s.log[i]);
      }
    }
  }

  /** Committing a preparation. */
  lemma CreateKeepsOperations(s: State, pid: nat, views: seq<View>, reply: Reply, lost: bool)
    requires Lives(s) && Bundles(s) && KeysDistinct(s) && AnswersTruthful(s) && ChoicesKnown(s)
    requires pid in s.workers && s.workers[pid].phase.Working? && !s.workers[pid].request.body.ActBody?
    requires forall v <- views :: Creatable(s, v)
    requires ViewsIn(reply.body) == views && !reply.body.DecisionResponse?
    ensures var t := CommitCreate(s, pid, views, reply, lost);
            Bundles(t) && Lives(t) && KeysDistinct(t) && AnswersTruthful(t) && ChoicesKnown(t)
  {
    var t := CommitCreate(s, pid, views, reply, lost);
    var w := s.workers[pid];
    if CreateTx(s.tables, w.request.actor, views, KeyOf(w.request, w.key), w.phase.fence, reply).Err? {
      QuietKeepsOperations(s, t);
    } else {
      var actor := w.request.actor;
      var p := Publication(w.request, w.key, w.phase.fence, reply, Created(views));
      assert Creates(s, t, actor, views, p);
      CreateLives(s, t, actor, views, p);
      CreateExtends(s, t, actor, views, p);
      CreateBundles(s, t, actor, views, p);
      CreateDecisions(s, t, actor, views, p);
      InsertedRows(s.tables.operations, actor, views);
      TruthGrows(s, t, p);
    }
  }

  lemma {:induction false} CreatedRow(operations: map<Id, Stored>, actor: Actor, views: seq<View>, id: Id)
    requires id in Created(views)
    ensures id in Inserted(operations, actor, views)
    ensures Inserted(operations, actor, views)[id] == Stored(actor, ViewOf(views, id))
  {
    if views[|views| - 1].id != id {
      assert views == views[..|views| - 1] + [views[|views| - 1]];
      CreatedRow(operations, actor, views[..|views| - 1], id);
    }
  }

  lemma OneViewPerId(views: seq<View>, a: View, b: View)
    requires a in views && b in views && a.id == b.id && |Created(views)| == |views|
    ensures a == b
  {
    if a != b {
      var i :| 0 <= i < |views| && views[i] == a;
      var rest := views[..i] + views[i + 1..];
      assert views == views[..i] + [a] + views[i + 1..];
      assert b in rest;
      assert Created(views) == Created(rest);
      CreatedBound(rest);
    }
  }

  /** What an accepted action may write and answer. */
  predicate Acted(stored: Stored, view: View, request: Request, answer: Response, next: Id)
    requires request.body.ActBody?
  {
    var action := request.body.action;
    && Operation.Step(stored.view, view)
    && SameContext(stored.actor, request.actor)
    && (action.Record? ==> view == stored.view && answer == Recorded)
    && (stored.view.decision.Some? ==> view == stored.view)
    && (view.decision.Some? && stored.view.decision.None? ==> view.decision.value.executionKey == next + 1)
    && !answer.Bundle?
    && (answer.ViewResponse? ==> answer.view == view)
    && (answer.DecisionResponse? ==>
          action.Decide? && view.decision == Some(answer.decision)
          && answer.decision.argumentsDigest == Sha256(action.arguments))
  }

  /** The tables and records after a committed action. */
  ghost predicate Acts(s: State, t: State, id: Id, view: View, p: Publication) {
    && id in s.tables.operations && id in s.lives && p.request.body.ActBody? && p.request.body.operation == id
    && Acted(s.tables.operations[id], view, p.request, p.reply.body, s.next)
    && t.tables.operations == s.tables.operations[id := Stored(s.tables.operations[id].actor, view)]
    && t.tables.catalogs == s.tables.catalogs
    && t.lives == (if p.request.body.action.Record? then s.lives else s.lives[id := s.lives[id] + [view]])
    && t.log == s.log + [p] && p.created == {} && t.next == s.next + 2
  }

  lemma CommittedAct(validate: Validator, s: State, pid: nat, lost: bool, t: State, id: Id)
    requires Lives(s)
    requires pid in s.workers && s.workers[pid].phase.Working? && s.workers[pid].request.body.ActBody?
    requires ActTx(validate, s, pid).Ok? && id == s.workers[pid].request.body.operation
    requires t == StepAct(validate, s, pid, lost)
    ensures id in t.tables.operations
    ensures Acts(s, t, id, t.tables.operations[id].view,
                 Publication(s.workers[pid].request, s.workers[pid].key, s.workers[pid].phase.fence,
                             ActTx(validate, s, pid).value.1, {}))
  {
    hide Acted, Transition, MutateTx, LifeOf, KeyOf;
    var w := s.workers[pid];
    CommittedMutation(validate, s.tables, w.request.actor, id, w.request.body.action, KeyOf(w.request, w.key),
                      w.phase.fence, s.now, Ids(s.next, s.next + 1));
    StoredWellFormed(s, id);
    AcceptedIsActed(validate, CatalogOf(s.tables, s.tables.operations[id].view), s.tables.receipts,
                    s.tables.operations[id], w.request, s.now, s.next);
  }

  lemma AcceptedIsActed(validate: Validator, catalog: Option<seq<Tool>>, receipts: map<Id, Receipt>,
                        stored: Stored, request: Request, now: Instant, next: Id)
    requires WellFormed(stored.view) && request.body.ActBody? && SameContext(stored.actor, request.actor)
    requires Transition(validate, catalog, receipts, stored, request.actor, request.body.action, now,
                        Ids(next, next + 1)).Ok?
    ensures var o := Transition(validate, catalog, receipts, stored, request.actor, request.body.action, now,
                                Ids(next, next + 1)).value;
            Acted(stored, o.view, request, o.response, next)
  {
    hide Transition, Operation.Step, WellFormed;
    var action, ids := request.body.action, Ids(next, next + 1);
    AcceptedIsStep(validate, catalog, receipts, stored, request.actor, action, now, ids);
    DecisionAnswered(validate, catalog, receipts, stored, request.actor, action, now, ids);
    RecordChangesNothing(validate, catalog, receipts, stored, request.actor, action, now, ids);
    FirstDecision(stored.view, Transition(validate, catalog, receipts, stored, request.actor, action, now, ids).value,
                  action);
  }

  lemma StoredWellFormed(s: State, id: Id)
    requires Lives(s) && id in s.tables.operations
    ensures WellFormed(s.tables.operations[id].view) && s.tables.operations[id].view.id == id
  {
    assert LifeOf(s, id);
    LifeEvolves(s.lives[id], 0, |s.lives[id]| - 1);
  }

  lemma AcceptedIsStep(validate: Validator, catalog: Option<seq<Tool>>, receipts: map<Id, Receipt>,
                       stored: Stored, actor: Actor, action: Action, now: Instant, ids: Ids)
    requires WellFormed(stored.view)
    requires Transition(validate, catalog, receipts, stored, actor, action, now, ids).Ok?
    ensures Operation.Step(stored.view,
                           Transition(validate, catalog, receipts, stored, actor, action, now, ids).value.view)
  {
    hide Transition, Evolves, WellFormed;
    AcceptedStep(validate, catalog, receipts, stored, actor, action, now, ids);
  }

  /** A view that carries a decision is final. */
  lemma FirstDecision(before: View, o: Outcome, action: Action)
    requires WellFormed(before) && Operation.Step(before, o.view)
    ensures before.decision.Some? ==> o.view == before && before.status == DecisionIssued
  {
  }

  /** Committing an action. */
  lemma ActKeepsOperations(validate: Validator, s: State, pid: nat, lost: bool)
    requires Lives(s) && Bundles(s) && KeysDistinct(s) && AnswersTruthful(s) && ChoicesKnown(s)
    requires pid in s.workers && s.workers[pid].phase.Working? && s.workers[pid].request.body.ActBody?
    ensures var t := StepAct(validate, s, pid, lost);
            Bundles(t) && Lives(t) && KeysDistinct(t) && AnswersTruthful(t) && ChoicesKnown(t)
  {
    hide MutateTx, Lives, Bundles, KeysDistinct, AnswersTruthful, ChoicesKnown, Acts, KeyOf;
    var t := StepAct(validate, s, pid, lost);
    var w := s.workers[pid];
    if ActTx(validate, s, pid).Err? {
      QuietKeepsOperations(s, t);
    } else {
      var id := w.request.body.operation;
      CommittedAct(validate, s, pid, lost, t, id);
      ActsKeeps(s, t, id, t.tables.operations[id].view,
                Publication(w.request, w.key, w.phase.fence, ActTx(validate, s, pid).value.1, {}));
    }
  }

  lemma ActsKeeps(s: State, t: State, id: Id, view: View, p: Publication)
    requires Lives(s) && Bundles(s) && KeysDistinct(s) && AnswersTruthful(s) && ChoicesKnown(s)
    requires Acts(s, t, id, view, p)
    ensures Bundles(t) && Lives(t) && KeysDistinct(t) && AnswersTruthful(t) && ChoicesKnown(t)
  {
    hide Acts, Lives, Bundles, KeysDistinct, AnswersTruthful, ChoicesKnown, Extends;
    ActOnLife(s, t, id, view, p);
    ActLives(s, t, id, view, p);
    ActDecisions(s, t, id, view, p);
    ActBundles(s, t, id, view, p);
    ActAnswers(s, t, id, view, p);
    ActChoices(s, t, id, view, p);
  }

  lemma ActOnLife(s: State, t: State, id: Id, view: View, p: Publication)
    requires Lives(s) && Acts(s, t, id, view, p)
    ensures id in s.tables.operations && WellFormed(s.tables.operations[id].view) && view.id == id
  {
    StoredWellFormed(s, id);
  }

  lemma ActLives(s: State, t: State, id: Id, view: View, p: Publication)
    requires Lives(s) && Acts(s, t, id, view, p)
    ensures Lives(t)
  {
    hide Life, Operation.Step;
    assert LifeOf(s, id);
    var h := s.lives[id];
    LifeHasStart(h);
    if !p.request.body.action.Record? { LifeGrows(h, view); }
    forall x <- t.lives ensures LifeOf(t, x) { assert LifeOf(s, x); }
  }

  lemma ActExtends(s: State, t: State, id: Id, view: View, p: Publication)
    requires Lives(s) && Acts(s, t, id, view, p)
    ensures forall x :: x in s.lives && x in s.tables.operations ==> Extends(s, t, x)
    ensures id in t.lives && view in t.lives[id]
  {
    hide Life, Operation.Step;
    assert LifeOf(s, id);
    var h := s.lives[id];
    LifeHasStart(h);
    assert h[|h| - 1] in h;
  }

  lemma ActDecisions(s: State, t: State, id: Id, view: View, p: Publication)
    requires KeysDistinct(s) && Acts(s, t, id, view, p)
    ensures KeysDistinct(t)
  {
    hide Operation.Step;
    forall a <- t.tables.operations, b <- t.tables.operations | a != b ensures KeysApart(t, a, b) {
      assert KeysApart(s, a, b);
    }
  }

  lemma ActBundles(s: State, t: State, id: Id, view: View, p: Publication)
    requires Bundles(s) && Acts(s, t, id, view, p)
    ensures Bundles(t)
  {
    hide Operation.Step;
    assert t.tables.operations.Keys == s.tables.operations.Keys;
    BundlesGrow(s, t, p);
  }

  lemma ActAnswers(s: State, t: State, id: Id, view: View, p: Publication)
    requires AnswersTruthful(s) && Lives(s) && Acts(s, t, id, view, p) && view.id == id
    ensures AnswersTruthful(t)
  {
    hide Operation.Step;
    ActExtends(s, t, id, view, p);
    ActTruthful(t, p, id, view, p.request.body.action);
    TruthGrows(s, t, p);
  }

  lemma ActChoices(s: State, t: State, id: Id, view: View, p: Publication)
    requires ChoicesKnown(s) && Acts(s, t, id, view, p) && WellFormed(s.tables.operations[id].view)
    ensures ChoicesKnown(t)
  {
    assert view.status == NeedsChoice ==> view == s.tables.operations[id].view;
    hide Operation.Step;
    forall x <- t.tables.operations ensures OffersKnown(t, x) { assert OffersKnown(s, x); }
  }

  lemma ActTruthful(t: State, p: Publication, id: Id, view: View, action: Action)
    requires p.request.body == ActBody(id, action)
    requires id in t.lives && id in t.tables.operations && t.tables.operations[id].view == view && view.id == id
    requires view in t.lives[id]
    requires SameContext(t.tables.operations[id].actor, p.request.actor)
    requires p.reply.body.ViewResponse? ==> p.reply.body.view == view
    requires p.reply.body.DecisionResponse? ==>
               action.Decide? && view.decision == Some(p.reply.body.decision)
               && p.reply.body.decision.argumentsDigest == Sha256(action.arguments)
    requires !p.reply.body.Bundle?
    ensures Truthful(t, p)
  {
  }

  lemma InitKeeps()
    ensures Inv(Init())
  {
  }

  /** More identifiers in use. */
  lemma NextKeeps(s: State, n: Id)
    requires Inv(s) && n >= s.next
    ensures Inv(s.(next := n))
  {
    hide Life;
    QuietKeepsClaims(s, s.(next := n));
    QuietKeepsOperations(s, s.(next := n));
  }

  lemma CreateKeeps(s: State, pid: nat, views: seq<View>, reply: Reply, lost: bool)
    requires Inv(s) && pid in s.workers && s.workers[pid].phase.Working? && !s.workers[pid].request.body.ActBody?
    requires forall v <- views :: Creatable(s, v)
    requires ViewsIn(reply.body) == views && !reply.body.DecisionResponse?
    ensures Inv(CommitCreate(s, pid, views, reply, lost))
  {
    hide Fences, OncePerKey, RepliesPublished, Bundles, Lives, KeysDistinct, AnswersTruthful, ChoicesKnown, Creatable,
         KeyOf;
    var t := CommitCreate(s, pid, views, reply, lost);
    var w := s.workers[pid];
    CreateKeepsOperations(s, pid, views, reply, lost);
    if CreateTx(s.tables, w.request.actor, views, KeyOf(w.request, w.key), w.phase.fence, reply).Err? {
      QuietKeepsClaims(s, t);
    } else {
      PublishKeepsClaims(s, t, pid, reply, Created(views));
    }
  }

  lemma PrepareKeeps(validate: Validator, s: State, pid: nat, selection: Selection, external: bool, at: Instant,
                     lost: bool)
    requires Inv(s) && pid in s.workers && s.workers[pid].phase.Working? && s.workers[pid].request.body.PrepareBody?
    ensures Inv(StepPrepare(validate, s, pid, selection, external, at, lost))
  {
    hide Inv, Life, Prepare;
    var w := s.workers[pid];
    var k := CatalogKey(w.request.body.catalogId, w.request.body.version);
    if k !in s.tables.catalogs {
      FailKeeps(s, pid, Failure(404, "CATALOG_NOT_FOUND"));
    } else if Selectable(s.tables.catalogs[k], selection) {
      var tools, allowed, known := s.tables.catalogs[k], w.request.actor.allowed, w.request.body.known;
      var r := Prepare(validate, k.id, k.version, tools, allowed, external, selection, known, s.next, at);
      if r.Err? {
        FailKeeps(s, pid, r.error);
      } else {
        PreparedStartsALife(validate, k.id, k.version, tools, allowed, external, selection, known, s.next, at);
        NextKeeps(s, s.next + 1);
        var u := s.(next := s.next + 1);
        assert Creatable(u, r.value);
        CreateKeeps(u, pid, [r.value], Reply(201, ViewResponse(r.value)), lost);
      }
    }
  }

  lemma FailKeeps(s: State, pid: nat, failure: Failure)
    requires Inv(s) && pid in s.workers && s.workers[pid].phase.Working?
    ensures Inv(Move(s, pid, Releasing(s.workers[pid].phase.fence, failure)))
  {
    hide Fences, OncePerKey, RepliesPublished, Bundles, Lives, KeysDistinct, AnswersTruthful, ChoicesKnown, KeyOf;
    var t := Move(s, pid, Releasing(s.workers[pid].phase.fence, failure));
    QuietKeepsClaims(s, t);
    QuietKeepsOperations(s, t);
  }

  lemma WorkflowKeeps(validate: Validator, s: State, pid: nat, selected: seq<Tool>, count: nat, external: bool,
                      at: Instant, lost: bool)
    requires Inv(s) && pid in s.workers && s.workers[pid].phase.Working? && s.workers[pid].request.body.WorkflowBody?
    ensures Inv(StepWorkflow(validate, s, pid, selected, count, external, at, lost))
  {
    hide Inv, Life, MakeReady, W.PrepareBundle;
    var w := s.workers[pid];
    var k := CatalogKey(w.request.body.catalogId, w.request.body.version);
    var r := BundleTx(validate, s, pid, selected, count, external, at);
    if r.Err? {
      FailKeeps(s, pid, r.error);
    } else {
      var views := r.value.views;
      var tools := W.BundleViews(validate, k.id, k.version, s.tables.catalogs[k], w.request.actor.allowed, external,
                                 selected, count, w.request.body.exposureLimit, s.next, at);
      var u := s.(next := s.next + |views|);
      NextKeeps(s, u.next);
      forall v <- views ensures Creatable(u, v) {
        var i :| 0 <= i < |views| && views[i] == v;
        ReadyStartsALife(validate, FirstView(s.next + i, k.id, k.version, at, ""), tools[i], NO_ARGUMENTS);
      }
      CreateKeeps(u, pid, views, Reply(201, r.value), lost);
    }
  }

  lemma ActKeeps(validate: Validator, s: State, pid: nat, lost: bool)
    requires Inv(s) && pid in s.workers && s.workers[pid].phase.Working? && s.workers[pid].request.body.ActBody?
    ensures Inv(StepAct(validate, s, pid, lost))
  {
    hide Fences, OncePerKey, RepliesPublished, Bundles, Lives, KeysDistinct, AnswersTruthful, ChoicesKnown, MutateTx,
         Transition, KeyOf;
    var t := StepAct(validate, s, pid, lost);
    var w := s.workers[pid];
    ActKeepsOperations(validate, s, pid, lost);
    var tx := ActTx(validate, s, pid);
    if tx.Err? {
      QuietKeepsClaims(s, t);
    } else {
      CommittedMutation(validate, s.tables, w.request.actor, w.request.body.operation, w.request.body.action,
                        KeyOf(w.request, w.key), w.phase.fence, s.now, Ids(s.next, s.next + 1));
      PublishKeepsClaims(s, t, pid, tx.value.1, {});
    }
  }

  lemma ReserveKeeps(s: State, pid: nat, lost: bool)
    requires Inv(s) && pid in s.workers && s.workers[pid].phase.Checked?
    ensures Inv(StepReserve(s, pid, lost))
  {
    hide Fences, OncePerKey, RepliesPublished, Bundles, Lives, KeysDistinct, AnswersTruthful, ChoicesKnown, KeyOf;
    ReserveKeepsClaims(s, pid, lost);
    QuietKeepsOperations(s, StepReserve(s, pid, lost));
  }

  /** Every step, whatever interleaving, failure or takeover it is part of, keeps the invariant. */
  lemma StepKeeps(validate: Validator, s: State, l: Label)
    requires Inv(s)
    ensures Inv(Step(validate, s, l))
  {
    hide Inv, StepPrepare, StepWorkflow, StepAct, StepReserve;
    match l {
      case CommitPrepare(pid, selection, external, at, lost) =>
        if pid in s.workers && s.workers[pid].phase.Working? && s.workers[pid].request.body.PrepareBody? {
          PrepareKeeps(validate, s, pid, selection, external, at, lost);
        }
      case CommitWorkflow(pid, selected, count, external, at, lost) =>
        if pid in s.workers && s.workers[pid].phase.Working? && s.workers[pid].request.body.WorkflowBody? {
          WorkflowKeeps(validate, s, pid, selected, count, external, at, lost);
        }
      case CommitAct(pid, lost) =>
        if pid in s.workers && s.workers[pid].phase.Working? && s.workers[pid].request.body.ActBody? {
          ActKeeps(validate, s, pid, lost);
        }
      case Reserve(pid, lost) =>
        if pid in s.workers && s.workers[pid].phase.Checked? { ReserveKeeps(s, pid, lost); }
      case Abort(pid, failure) =>
        if pid in s.workers && s.workers[pid].phase.Working? { FailKeeps(s, pid, failure); }
      case _ => QuietStepKeeps(validate, s, l);
    }
  }

  lemma GuardTables(s: State, pid: nat)
    ensures pid in s.workers ==> var t := StepGuard(s, pid); t == s.(workers := t.workers)
  {
    hide Load;
  }

  lemma ReleaseTables(t: Tables, k: IdemKey, fence: Id)
    ensures var after := ReleaseTx(t, k, fence); after == t.(idempotency := after.idempotency)
  {
  }

  lemma UploadTables(t: Tables, k: CatalogKey, tools: seq<Tool>)
    ensures var r := PutCatalogTx(t, k, tools);
            r.Ok? ==> r.value == t.(catalogs := r.value.catalogs)
                      && forall c <- t.catalogs :: c in r.value.catalogs && r.value.catalogs[c] == t.catalogs[c]
  {
  }

  lemma QuietStepKeeps(validate: Validator, s: State, l: Label)
    requires Inv(s)
    requires l.Tick? || l.Upload? || l.Arrive? || l.Guard? || l.Release? || l.Crash?
    ensures Inv(Step(validate, s, l))
  {
    hide Fences, OncePerKey, RepliesPublished, Bundles, Lives, KeysDistinct, AnswersTruthful, ChoicesKnown, KeyOf,
         StepPrepare, StepWorkflow, StepAct, StepReserve, StepGuard, PutCatalogTx, ReleaseTx;
    var t := Step(validate, s, l);
    QuietStepKeepsClaims(validate, s, l);
    match l {
      case Guard(pid) => GuardTables(s, pid);
      case Upload(k, tools) => UploadTables(s.tables, k, tools);
      case Release(pid, _) => if pid in s.workers && s.workers[pid].phase.Releasing? {
        ReleaseTables(s.tables, KeyOf(s.workers[pid].request, s.workers[pid].key), s.workers[pid].phase.fence);
      }
      case _ =>
    }
    QuietKeepsOperations(s, t);
  }

  lemma QuietStepKeepsClaims(validate: Validator, s: State, l: Label)
    requires Fences(s) && OncePerKey(s) && RepliesPublished(s)
    requires l.Tick? || l.Upload? || l.Arrive? || l.Guard? || l.Release? || l.Crash?
    ensures var t := Step(validate, s, l); Fences(t) && OncePerKey(t) && RepliesPublished(t)
  {
    hide Fences, OncePerKey, RepliesPublished, KeyOf, Load, StepPrepare, StepWorkflow, StepAct, StepReserve, StepGuard,
         PutCatalogTx;
    var t := Step(validate, s, l);
    match l {
      case Tick(_) => QuietKeepsClaims(s, t);
      case Upload(k, tools) =>
        UploadTables(s.tables, k, tools);
        QuietKeepsClaims(s, t);
      case Arrive(_, _, _) => QuietKeepsClaims(s, t);
      case Guard(pid) =>
        if pid in s.workers && s.workers[pid].phase.Arrived? { GuardKeepsClaims(s, pid); }
      case Release(_, _) => QuietKeepsClaims(s, t);
      case Crash(_) => QuietKeepsClaims(s, t);
    }
  }

  lemma GuardKeepsClaims(s: State, pid: nat)
    requires Fences(s) && OncePerKey(s) && RepliesPublished(s) && pid in s.workers && s.workers[pid].phase.Arrived?
    ensures var t := StepGuard(s, pid); Fences(t) && OncePerKey(t) && RepliesPublished(t)
  {
    hide Fences, OncePerKey, RepliesPublished, KeyOf, Load;
    QuietKeepsClaims(s, StepGuard(s, pid));
  }

  /** The invariant holds after every run. */
  lemma {:induction false} RunKeeps(validate: Validator, labels: seq<Label>)
    ensures Inv(Run(validate, labels))
  {
    hide Inv, Step, Init;
    if labels == [] {
      InitKeeps();
    } else {
      var front := labels[..|labels| - 1];
      RunKeeps(validate, front);
      StepKeeps(validate, Run(validate, front), labels[|labels| - 1]);
    }
  }

  /* ----- What no step takes back, proved ----- */

  /** The tables and records of `s` are all still in `t`. */
  lemma QuietGrows(s: State, t: State)
    requires s.now <= t.now && s.next <= t.next && s.log == t.log && t.lives == s.lives
             && t.tables.operations == s.tables.operations
    requires forall k <- s.tables.idempotency :: s.tables.idempotency[k].response.Some? ==>
               k in t.tables.idempotency && t.tables.idempotency[k] == s.tables.idempotency[k]
    requires forall k <- s.tables.catalogs :: k in t.tables.catalogs && t.tables.catalogs[k] == s.tables.catalogs[k]
    requires forall pid <- s.workers ::
             s.workers[pid].phase.Replied? ==> pid in t.workers && t.workers[pid] == s.workers[pid]
    ensures Grows(s, t)
  {
  }

  lemma GrowsTransitive(s: State, t: State, u: State)
    requires Grows(s, t) && Grows(t, u)
    ensures Grows(s, u)
  {
    forall id | id in s.lives && id in s.tables.operations ensures Extends(s, u, id) {
      assert Extends(s, t, id) && Extends(t, u, id);
    }
  }

  lemma CreateGrows(s: State, pid: nat, views: seq<View>, reply: Reply, lost: bool)
    requires Lives(s) && pid in s.workers && s.workers[pid].phase.Working? && !s.workers[pid].request.body.ActBody?
    ensures Grows(s, CommitCreate(s, pid, views, reply, lost))
  {
    hide Life, KeyOf, LifeOf;
    var t := CommitCreate(s, pid, views, reply, lost);
    var w := s.workers[pid];
    if CreateTx(s.tables, w.request.actor, views, KeyOf(w.request, w.key), w.phase.fence, reply).Err? {
      QuietGrows(s, t);
    } else {
      CreateExtends(s, t, w.request.actor, views, Publication(w.request, w.key, w.phase.fence, reply, Created(views)));
    }
  }

  lemma ActGrows(validate: Validator, s: State, pid: nat, lost: bool)
    requires Lives(s) && pid in s.workers && s.workers[pid].phase.Working? && s.workers[pid].request.body.ActBody?
    ensures Grows(s, StepAct(validate, s, pid, lost))
  {
    hide Lives, Acts, MutateTx, Transition, KeyOf, Extends;
    var t := StepAct(validate, s, pid, lost);
    var w := s.workers[pid];
    var tx := ActTx(validate, s, pid);
    if tx.Err? {
      QuietGrows(s, t);
    } else {
      var id := w.request.body.operation;
      CommittedMutation(validate, s.tables, w.request.actor, id, w.request.body.action,
                        KeyOf(w.request, w.key), w.phase.fence, s.now, Ids(s.next, s.next + 1));
      CommittedAct(validate, s, pid, lost, t, id);
      ActExtends(s, t, id, t.tables.operations[id].view, Publication(w.request, w.key, w.phase.fence, tx.value.1, {}));
    }
  }

  lemma StepGrows(validate: Validator, s: State, l: Label)
    requires Inv(s)
    ensures Grows(s, Step(validate, s, l))
  {
    hide Grows, StepPrepare, StepWorkflow, StepAct, StepReserve, StepGuard, PutCatalogTx, KeyOf,
         Fences, OncePerKey, RepliesPublished, Bundles, Lives, KeysDistinct, AnswersTruthful, ChoicesKnown;
    var t := Step(validate, s, l);
    match l {
      case CommitPrepare(pid, selection, external, at, lost) =>
        if pid in s.workers && s.workers[pid].phase.Working? && s.workers[pid].request.body.PrepareBody? {
          PrepareGrows(validate, s, pid, selection, external, at, lost);
        } else { QuietGrows(s, t); }
      case CommitWorkflow(pid, selected, count, external, at, lost) =>
        if pid in s.workers && s.workers[pid].phase.Working? && s.workers[pid].request.body.WorkflowBody? {
          WorkflowGrows(validate, s, pid, selected, count, external, at, lost);
        } else { QuietGrows(s, t); }
      case CommitAct(pid, lost) =>
        if pid in s.workers && s.workers[pid].phase.Working? && s.workers[pid].request.body.ActBody? {
          ActGrows(validate, s, pid, lost);
        } else { QuietGrows(s, t); }
      case Reserve(pid, lost) =>
        if pid in s.workers && s.workers[pid].phase.Checked? { ReserveGrows(s, pid, lost); } else { QuietGrows(s, t); }
      case Guard(pid) =>
        if pid in s.workers && s.workers[pid].phase.Arrived? { GuardGrows(s, pid); } else { QuietGrows(s, t); }
      case Upload(k, tools) =>
        UploadTables(s.tables, k, tools);
        QuietGrows(s, t);
      case _ => QuietGrows(s, t);
    }
  }

  lemma PrepareGrows(validate: Validator, s: State, pid: nat, selection: Selection, external: bool, at: Instant,
                     lost: bool)
    requires Lives(s) && pid in s.workers && s.workers[pid].phase.Working? && s.workers[pid].request.body.PrepareBody?
    ensures Grows(s, StepPrepare(validate, s, pid, selection, external, at, lost))
  {
    hide CommitCreate, Grows, Life, Prepare, Selectable;
    var w := s.workers[pid];
    var k := CatalogKey(w.request.body.catalogId, w.request.body.version);
    var t := StepPrepare(validate, s, pid, selection, external, at, lost);
    if k in s.tables.catalogs && Selectable(s.tables.catalogs[k], selection) {
      var r := Prepare(validate, k.id, k.version, s.tables.catalogs[k], w.request.actor.allowed, external, selection,
                       w.request.body.known, s.next, at);
      if r.Ok? {
        var u := s.(next := s.next + 1);
        QuietKeepsLives(s, u);
        QuietGrows(s, u);
        CreateGrows(u, pid, [r.value], Reply(201, ViewResponse(r.value)), lost);
        GrowsTransitive(s, u, t);
      } else { QuietGrows(s, t); }
    } else { QuietGrows(s, t); }
  }

  lemma WorkflowGrows(validate: Validator, s: State, pid: nat, selected: seq<Tool>, count: nat, external: bool,
                      at: Instant, lost: bool)
    requires Lives(s) && pid in s.workers && s.workers[pid].phase.Working? && s.workers[pid].request.body.WorkflowBody?
    ensures Grows(s, StepWorkflow(validate, s, pid, selected, count, external, at, lost))
  {
    hide CommitCreate, Grows, Life, BundleTx;
    var t := StepWorkflow(validate, s, pid, selected, count, external, at, lost);
    var r := BundleTx(validate, s, pid, selected, count, external, at);
    if r.Ok? {
      var u := s.(next := s.next + |r.value.views|);
      QuietKeepsLives(s, u);
      QuietGrows(s, u);
      CreateGrows(u, pid, r.value.views, Reply(201, r.value), lost);
      GrowsTransitive(s, u, t);
    } else { QuietGrows(s, t); }
  }

  lemma ReserveGrows(s: State, pid: nat, lost: bool)
    requires pid in s.workers && s.workers[pid].phase.Checked?
    ensures Grows(s, StepReserve(s, pid, lost))
  {
    hide Grows, KeyOf;
    QuietGrows(s, StepReserve(s, pid, lost));
  }

  lemma GuardGrows(s: State, pid: nat)
    requires pid in s.workers && s.workers[pid].phase.Arrived?
    ensures Grows(s, StepGuard(s, pid))
  {
    hide Grows, KeyOf, Load;
    QuietGrows(s, StepGuard(s, pid));
  }

  /** From any moment of a run to its end. */
  lemma {:induction false} RunGrows(validate: Validator, labels: seq<Label>, i: nat)
    requires i <= |labels|
    ensures Grows(Run(validate, labels[..i]), Run(validate, labels))
    decreases |labels|
  {
    hide Inv, Step, Grows;
    if i == |labels| {
      assert labels[..i] == labels;
      QuietGrows(Run(validate, labels), Run(validate, labels));
    } else {
      var front := labels[..|labels| - 1];
      assert front[..i] == labels[..i];
      RunGrows(validate, front, i);
      RunKeeps(validate, front);
      StepGrows(validate, Run(validate, front), labels[|labels| - 1]);
      GrowsTransitive(Run(validate, labels[..i]), Run(validate, front), Run(validate, labels));
    }
  }

  /* ----- Main results ----- */

  /** Two successes for one key of one path and owner are one and the same reply to one and the same request,
      whenever each was given and whether first or replayed. */
  lemma OneReplyPerKey(validate: Validator, labels: seq<Label>, p: nat, q: nat)
    requires var s := Run(validate, labels);
             && p in s.workers && q in s.workers
             && KeyOf(s.workers[p].request, s.workers[p].key) == KeyOf(s.workers[q].request, s.workers[q].key)
             && s.workers[p].phase.Replied? && s.workers[p].phase.result.Ok?
             && s.workers[q].phase.Replied? && s.workers[q].phase.result.Ok?
    ensures var s := Run(validate, labels);
            s.workers[p].request == s.workers[q].request && s.workers[p].phase.result == s.workers[q].phase.result
  {
    hide Run, KeyOf, Bundles, Lives, KeysDistinct, AnswersTruthful, ChoicesKnown, Fences;
    var s := Run(validate, labels);
    RunKeeps(validate, labels);
    var a, b := s.workers[p], s.workers[q];
    assert Answered(s, a.request, a.key, a.phase.result.value) && Answered(s, b.request, b.key, b.phase.result.value);
    var i :| 0 <= i < |s.log| && s.log[i].request == a.request && s.log[i].key == a.key
        && s.log[i].reply == a.phase.result.value;
    var j :| 0 <= j < |s.log| && s.log[j].request == b.request && s.log[j].key == b.key
        && s.log[j].reply == b.phase.result.value;
    assert Claimed(s.log[i]) == Claimed(s.log[j]);
  }

  /** A publication survives the rest of the run: no release, takeover or later request erases or replaces it,
      even when its commit acknowledgement was lost and its own worker releases the claim. */
  lemma PublicationIsForever(validate: Validator, labels: seq<Label>, i: nat, n: nat)
    requires i <= |labels| && n < |Run(validate, labels[..i]).log|
    ensures var p, t := Run(validate, labels[..i]).log[n], Run(validate, labels);
            && n < |t.log| && t.log[n] == p && RowMatches(t, p)
            && p.created <= t.tables.operations.Keys && p.created == Bundled(p)
  {
    hide Run, KeyOf, Lives, KeysDistinct, AnswersTruthful, ChoicesKnown, Fences, RowMatches, Bundled, Extends;
    RunGrows(validate, labels, i);
    RunKeeps(validate, labels);
    var s, t := Run(validate, labels[..i]), Run(validate, labels);
    assert t.log[n] == s.log[n];
    assert RowMatches(t, t.log[n]);
  }

  lemma BundlesDisjoint(s: State, i: nat, j: nat)
    requires Bundles(s) && i < |s.log| && j < |s.log| && i != j
    ensures s.log[i].created !! s.log[j].created
  {
    assert if i < j then Apart(s.log[i], s.log[j]) else Apart(s.log[j], s.log[i]);
  }

  /** Every operation came with exactly one publication, together with all the operations that publication answers. */
  lemma OperationsComeWithTheirBundle(validate: Validator, labels: seq<Label>, id: Id)
    requires id in Run(validate, labels).tables.operations
    ensures var s := Run(validate, labels);
            exists i :: 0 <= i < |s.log| && id in s.log[i].created
              && Created(ViewsIn(s.log[i].reply.body)) <= s.tables.operations.Keys
              && !s.log[i].request.body.ActBody?
              && (forall j :: 0 <= j < |s.log| && j != i ==> id !in s.log[j].created)
  {
    hide Run, Lives, KeysDistinct, AnswersTruthful, ChoicesKnown, Fences, RowMatches;
    var s := Run(validate, labels);
    RunKeeps(validate, labels);
    assert HasOrigin(s, id);
    var i :| 0 <= i < |s.log| && id in s.log[i].created;
    forall j | 0 <= j < |s.log| && j != i ensures id !in s.log[j].created { BundlesDisjoint(s, i, j); }
  }

  /** What the transaction of a working worker may touch: its own phase and claims under its fence. */
  predicate Owns(s: State, t: State, pid: nat)
    requires pid in s.workers && s.workers[pid].phase.Working?
  {
    && pid in t.workers && t.workers == s.workers[pid := s.workers[pid].(phase := t.workers[pid].phase)]
    && forall k <- s.tables.idempotency ::
         s.tables.idempotency[k].fence == s.workers[pid].phase.fence
         || (k in t.tables.idempotency && t.tables.idempotency[k] == s.tables.idempotency[k])
  }

  lemma CreateOwns(s: State, pid: nat, views: seq<View>, reply: Reply, lost: bool)
    requires pid in s.workers && s.workers[pid].phase.Working?
    ensures Owns(s, CommitCreate(s, pid, views, reply, lost), pid)
  {
    hide Inserted, AllNew, FirstLives, KeyOf;
  }

  lemma PrepareOwns(validate: Validator, s: State, pid: nat, selection: Selection, external: bool, at: Instant,
                    lost: bool)
    requires pid in s.workers && s.workers[pid].phase.Working? && s.workers[pid].request.body.PrepareBody?
    ensures Owns(s, StepPrepare(validate, s, pid, selection, external, at, lost), pid)
  {
    hide CommitCreate, Prepare, Selectable;
    forall view | true
      ensures Owns(s.(next := s.next + 1),
                   CommitCreate(s.(next := s.next + 1), pid, [view], Reply(201, ViewResponse(view)), lost), pid)
    {
      CreateOwns(s.(next := s.next + 1), pid, [view], Reply(201, ViewResponse(view)), lost);
    }
  }

  lemma WorkflowOwns(validate: Validator, s: State, pid: nat, selected: seq<Tool>, count: nat, external: bool,
                     at: Instant, lost: bool)
    requires pid in s.workers && s.workers[pid].phase.Working? && s.workers[pid].request.body.WorkflowBody?
    ensures Owns(s, StepWorkflow(validate, s, pid, selected, count, external, at, lost), pid)
  {
    hide CommitCreate, BundleTx;
    var r := BundleTx(validate, s, pid, selected, count, external, at);
    if r.Ok? { CreateOwns(s.(next := s.next + |r.value.views|), pid, r.value.views, Reply(201, r.value), lost); }
  }

  lemma ActOwns(validate: Validator, s: State, pid: nat, lost: bool)
    requires pid in s.workers && s.workers[pid].phase.Working? && s.workers[pid].request.body.ActBody?
    ensures Owns(s, StepAct(validate, s, pid, lost), pid)
  {
    hide Transition, Load, KeyOf;
  }

  /** An unpublished claim changes hands or disappears only when its lease has run out, or by the one worker
      that holds its fence. */
  lemma ClaimsChangeOnlyByTheirOwner(validate: Validator, s: State, l: Label, k: IdemKey)
    requires Inv(s) && k in s.tables.idempotency && s.tables.idempotency[k].response.None?
    requires var t := Step(validate, s, l);
             k !in t.tables.idempotency || t.tables.idempotency[k] != s.tables.idempotency[k]
    ensures var row := s.tables.idempotency[k];
            || (l.Reserve? && row.lease <= s.now)
            || ((l.CommitPrepare? || l.CommitWorkflow? || l.CommitAct? || l.Release?)
                && l.pid in s.workers && Holds(s.workers[l.pid]) && s.workers[l.pid].phase.fence == row.fence
                && (forall q <- s.workers ::
                    q != l.pid && Holds(s.workers[q]) ==> s.workers[q].phase.fence != row.fence))
  {
    hide KeyOf, OncePerKey, RepliesPublished, Bundles, Lives, KeysDistinct, AnswersTruthful, ChoicesKnown, Fenced,
         StepPrepare, StepWorkflow, StepAct, StepGuard, Load, PutCatalogTx;
    match l {
      case CommitPrepare(pid, selection, external, at, lost) =>
        if pid in s.workers && s.workers[pid].phase.Working? && s.workers[pid].request.body.PrepareBody? {
          PrepareOwns(validate, s, pid, selection, external, at, lost);
        }
      case CommitWorkflow(pid, selected, count, external, at, lost) =>
        if pid in s.workers && s.workers[pid].phase.Working? && s.workers[pid].request.body.WorkflowBody? {
          WorkflowOwns(validate, s, pid, selected, count, external, at, lost);
        }
      case CommitAct(pid, lost) =>
        if pid in s.workers && s.workers[pid].phase.Working? && s.workers[pid].request.body.ActBody? {
          ActOwns(validate, s, pid, lost);
        }
      case Guard(pid) => GuardTables(s, pid);
      case Upload(k, tools) => UploadTables(s.tables, k, tools);
      case _ =>
    }
  }

  /** Every stored view, after any run, is the last of a life: it has the shape of its status and its revision
      counts the accepted changes since preparation. */
  lemma ReachableOperations(validate: Validator, labels: seq<Label>, id: Id)
    requires id in Run(validate, labels).tables.operations
    ensures var s := Run(validate, labels);
            && id in s.lives && Life(s.lives[id])
            && var view := s.tables.operations[id].view;
               && view.id == id && WellFormed(view) && s.lives[id][|s.lives[id]| - 1] == view
               && view.revision - 1 == Changes(s.lives[id])
  {
    hide Run, Fences, OncePerKey, RepliesPublished, Bundles, KeysDistinct, AnswersTruthful, ChoicesKnown, Life,
         WellFormed;
    RunKeeps(validate, labels);
    var s := Run(validate, labels);
    assert LifeOf(s, id);
    StoredWellFormed(s, id);
    RevisionCountsChanges(s.lives[id]);
  }

  /** In every reachable state a decision keeps to the expiry that its view shows exactly if a whole minute was left
      when it was issued or the expiry column is no later. */
  lemma ReachableDecisions(validate: Validator, labels: seq<Label>, id: Id)
    requires id in Run(validate, labels).tables.operations
    requires Run(validate, labels).tables.operations[id].view.decision.Some?
    ensures var view := Run(validate, labels).tables.operations[id].view;
            var d := view.decision.value;
            && SECOND <= d.notAfter - d.issued <= MINUTE && d.notAfter <= Deadline(view.expires)
            && (d.notAfter <= view.expires
                <==> d.issued + MINUTE <= view.expires || Deadline(view.expires) <= view.expires)
  {
    hide Run, Fences, OncePerKey, RepliesPublished, Bundles, KeysDistinct, AnswersTruthful, ChoicesKnown;
    RunKeeps(validate, labels);
    StoredWellFormed(Run(validate, labels), id);
    DecisionEndsExactly(Run(validate, labels).tables.operations[id].view);
  }

  /* ----- Replays pass the guard, too ----- */

  /** The operation is the actor's, in its current authorization context, with a tool the actor may use, and open. */
  predicate Admits(s: State, actor: Actor, id: Id, action: Action) {
    && id in s.tables.operations
    && var stored := s.tables.operations[id];
       && stored.actor.principal == actor.principal && stored.actor.workspace == actor.workspace
       && stored.actor.revision == actor.revision
       && (stored.view.selected.Some? ==> stored.view.selected.value.id in actor.allowed)
       && (action.Record? || s.now < Deadline(stored.view.expires))
  }

  predicate Past(phase: Phase) { !phase.Arrived? && (phase.Replied? ==> phase.result.Ok?) }

  /** Only a passed guard takes a worker past it. */
  lemma OnlyTheGuard(validate: Validator, s: State, l: Label, pid: nat)
    requires pid in Step(validate, s, l).workers && Past(Step(validate, s, l).workers[pid].phase)
    ensures pid in s.workers && s.workers[pid].request == Step(validate, s, l).workers[pid].request
    ensures Past(s.workers[pid].phase)
            || (l == Guard(pid)
                && var body := s.workers[pid].request.body;
                   body.ActBody? ==> Admits(s, s.workers[pid].request.actor, body.operation, body.action))
  {
    hide StepPrepare, StepWorkflow, StepAct, KeyOf, ReserveTx, ReleaseTx, PutCatalogTx;
    match l {
      case CommitPrepare(p, selection, external, at, lost) =>
        if p in s.workers && s.workers[p].phase.Working? && s.workers[p].request.body.PrepareBody? {
          PrepareOwns(validate, s, p, selection, external, at, lost);
        }
      case CommitWorkflow(p, selected, count, external, at, lost) =>
        if p in s.workers && s.workers[p].phase.Working? && s.workers[p].request.body.WorkflowBody? {
          WorkflowOwns(validate, s, p, selected, count, external, at, lost);
        }
      case CommitAct(p, lost) =>
        if p in s.workers && s.workers[p].phase.Working? && s.workers[p].request.body.ActBody? {
          ActOwns(validate, s, p, lost);
        }
      case _ =>
    }
  }

  /** Every success that answers an action, first or replayed, went to a worker whose own guard had found the
      operation to be the actor's, unrevoked, with a permitted tool, and open. */
  lemma {:induction false} SuccessPassedTheGuard(validate: Validator, labels: seq<Label>, pid: nat)
    requires pid in Run(validate, labels).workers && Past(Run(validate, labels).workers[pid].phase)
    requires Run(validate, labels).workers[pid].request.body.ActBody?
    ensures var request := Run(validate, labels).workers[pid].request;
            exists i :: 0 <= i < |labels| && labels[i] == Guard(pid)
              && Admits(Run(validate, labels[..i]), request.actor, request.body.operation, request.body.action)
  {
    hide Step, Admits;
    var front, l := labels[..|labels| - 1], labels[|labels| - 1];
    var request := Run(validate, labels).workers[pid].request;
    OnlyTheGuard(validate, Run(validate, front), l, pid);
    if Past(Run(validate, front).workers[pid].phase) {
      SuccessPassedTheGuard(validate, front, pid);
      var i :| 0 <= i < |front| && front[i] == Guard(pid)
               && Admits(Run(validate, front[..i]), request.actor, request.body.operation, request.body.action);
      assert labels[..i] == front[..i] && labels[i] == front[i];
    } else {
      assert labels[|front|] == Guard(pid) && labels[..|front|] == front;
    }
  }
}
