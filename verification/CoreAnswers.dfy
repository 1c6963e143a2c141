/** What every request gets: the answer of each step of a core worker, told by the rows and the log of publications. */
module CoreAnswers {
  import opened Wire
  import opened Operation
  import opened Core
  import opened CoreRuns
  import W = Workflow

  lemma RunSnoc(validate: Validator, labels: seq<Label>, l: Label)
    ensures Run(validate, labels + [l]) == CoreRuns.Step(validate, Run(validate, labels), l)
  {
    assert (labels + [l])[..|labels|] == labels;
  }

  /** Two requests compete for one key exactly when principal, workspace, client key and path agree. */
  predicate SamePath(a: Body, b: Body) {
    || (a.PrepareBody? && b.PrepareBody?)
    || (a.WorkflowBody? && b.WorkflowBody?)
    || (a.ActBody? && b.ActBody? && a.operation == b.operation
        && (a.action.Cancel? <==> b.action.Cancel?) && (a.action.Resolve? <==> b.action.Resolve?)
        && (a.action.Decide? <==> b.action.Decide?) && (a.action.Record? <==> b.action.Record?))
  }

  lemma KeysExactly(a: Request, x: Token, b: Request, y: Token)
    ensures KeyOf(a, x) == KeyOf(b, y) <==>
            a.actor.principal == b.actor.principal && a.actor.workspace == b.actor.workspace && x == y
            && SamePath(a.body, b.body)
  {
  }

  /* ----- The guard ----- */

  /** The guard lets a request through exactly when it creates something or the operation is the actor's, in its
      authorization context, with a permitted tool, and open; otherwise it answers why, and nothing else happens. */
  lemma GuardAnswers(validate: Validator, s: State, pid: nat)
    requires pid in s.workers && s.workers[pid].phase.Arrived?
    ensures var w := s.workers[pid];
            var t := CoreRuns.Step(validate, s, Guard(pid));
            && pid in t.workers && t == s.(workers := s.workers[pid := w.(phase := t.workers[pid].phase)])
            && var after := t.workers[pid].phase;
               && (after.Checked? <==>
                     w.request.body.ActBody?
                     ==> Admits(s, w.request.actor, w.request.body.operation, w.request.body.action))
               && (!after.Checked? ==> after.Replied? && after.result.Err?)
               && (w.request.body.ActBody? ==>
                     var id, actor := w.request.body.operation, w.request.actor;
                     var owned := id in s.tables.operations
                     && s.tables.operations[id].actor.principal == actor.principal
                                  && s.tables.operations[id].actor.workspace == actor.workspace;
                     && (after == Replied(Err(Failure(404, "OPERATION_NOT_FOUND"))) <==> !owned)
                     && (after == Replied(Err(Failure(409, "AUTHORIZATION_CONTEXT_CHANGED"))) <==>
                           owned && s.tables.operations[id].actor.revision != actor.revision)
                     && var current := owned && s.tables.operations[id].actor.revision == actor.revision;
                        var denied := current && s.tables.operations[id].view.selected.Some?
                                      && s.tables.operations[id].view.selected.value.id !in actor.allowed;
                        && (after == Replied(Err(Failure(403, "TOOL_NOT_ALLOWED"))) <==> denied)
                        && (after == Replied(Err(Failure(410, "OPERATION_EXPIRED"))) <==>
                              current && !denied && !w.request.body.action.Record?
                              && Deadline(s.tables.operations[id].view.expires) <= s.now))
  {
    hide StepPrepare, StepWorkflow, StepAct, StepReserve, PutCatalogTx, ReleaseTx, Deadline;
  }

  /* ----- The reservation ----- */

  /** A request whose key is published gets exactly that publication again, if it is the same request, and a conflict
      otherwise. A key that is claimed but not published is in progress while its lease lasts, conflicts for another
      request, and passes to a worker of the same request afterwards. A free key is the worker's. */
  ghost predicate ReserveTold(s: State, t: State, pid: nat)
    requires pid in s.workers
  {
    var w := s.workers[pid];
    var k := KeyOf(w.request, w.key);
    && pid in t.workers && t.log == s.log
    && var after := t.workers[pid].phase;
       && (forall i :: 0 <= i < |s.log| && Claimed(s.log[i]) == k ==>
             after == Replied(if s.log[i].request == w.request then Ok(s.log[i].reply)
                              else Err(Failure(409, "IDEMPOTENCY_CONFLICT"))))
       && ((forall i :: 0 <= i < |s.log| ==> Claimed(s.log[i]) != k) ==>
             var held := k in s.tables.idempotency;
             && (after == Replied(Err(Failure(409, "IDEMPOTENCY_CONFLICT"))) <==>
                   held && s.tables.idempotency[k].hash != Hmac(w.request))
             && (after == Replied(Err(Failure(409, "REQUEST_IN_PROGRESS"))) <==>
                   held && s.tables.idempotency[k].hash == Hmac(w.request) && s.now < s.tables.idempotency[k].lease)
             && (after == Working(s.next) <==>
                   held ==> s.tables.idempotency[k].hash == Hmac(w.request) && s.tables.idempotency[k].lease <= s.now)
             && (after == Working(s.next) ==>
                   k in t.tables.idempotency
                   && t.tables.idempotency[k] == IdemRow(Hmac(w.request), s.next, s.now + 10 * SECOND, None)))
  }

  lemma ReserveStep(validate: Validator, s: State, pid: nat)
    requires OncePerKey(s) && pid in s.workers && s.workers[pid].phase.Checked?
    ensures ReserveTold(s, CoreRuns.Step(validate, s, Reserve(pid, false)), pid)
  {
    hide KeyOf, StepPrepare, StepWorkflow, StepAct, StepGuard, PutCatalogTx, ReleaseTx;
    var w := s.workers[pid];
    var k := KeyOf(w.request, w.key);
    forall i | 0 <= i < |s.log| ensures RowMatches(s, s.log[i]) {}
    if k in s.tables.idempotency && s.tables.idempotency[k].response.Some? { assert InLog(s, k); }
  }

  lemma ReserveAnswers(validate: Validator, labels: seq<Label>, pid: nat)
    requires pid in Run(validate, labels).workers && Run(validate, labels).workers[pid].phase.Checked?
    ensures ReserveTold(Run(validate, labels), Run(validate, labels + [Reserve(pid, false)]), pid)
  {
    hide Run, ReserveTold, Fences, OncePerKey, RepliesPublished, Bundles, Lives, KeysDistinct, AnswersTruthful,
         ChoicesKnown;
    RunKeeps(validate, labels);
    RunSnoc(validate, labels, Reserve(pid, false));
    ReserveStep(validate, Run(validate, labels), pid);
  }

  /** A retry of a published request gets its publication. */
  lemma PublishedIsReplayed(validate: Validator, labels: seq<Label>, pid: nat, i: nat)
    requires var s := Run(validate, labels);
             && pid in s.workers && s.workers[pid].phase.Checked? && i < |s.log|
             && s.log[i].request == s.workers[pid].request && s.log[i].key == s.workers[pid].key
    ensures var s, t := Run(validate, labels), Run(validate, labels + [Reserve(pid, false)]);
            pid in t.workers && t.workers[pid].phase == Replied(Ok(s.log[i].reply))
  {
    hide Run, KeyOf;
    ReserveAnswers(validate, labels, pid);
    var s := Run(validate, labels);
    assert Claimed(s.log[i]) == KeyOf(s.workers[pid].request, s.workers[pid].key);
  }

  /* ----- The work ----- */

  /** The worker's claim still stands under its fence and is unpublished. */
  predicate Mine(s: State, pid: nat)
    requires pid in s.workers && s.workers[pid].phase.Working?
  {
    var w := s.workers[pid];
    var k := KeyOf(w.request, w.key);
    k in s.tables.idempotency && s.tables.idempotency[k].fence == w.phase.fence
        && s.tables.idempotency[k].response.None?
  }

  /** A refusal: only the worker moves, to give its claim back, and fresh identifiers may be spent. */
  predicate Refused(s: State, t: State, pid: nat, failure: Failure)
    requires pid in s.workers && s.workers[pid].phase.Working?
  {
    var w := s.workers[pid];
    && s.next <= t.next
       && t == s.(next := t.next, workers := s.workers[pid := w.(phase := Releasing(w.phase.fence, failure))])
  }

  /** A publication: the claim carries the reply, the log records it, and the caller gets it unless the
      acknowledgement was lost. */
  predicate Published(s: State, t: State, pid: nat, reply: Reply, created: set<Id>, lost: bool)
    requires pid in s.workers && s.workers[pid].phase.Working?
  {
    var w := s.workers[pid];
    var k := KeyOf(w.request, w.key);
    && k in s.tables.idempotency
    && t.tables.idempotency == s.tables.idempotency[k := s.tables.idempotency[k].(response := Some(reply))]
    && t.log == s.log + [Publication(w.request, w.key, w.phase.fence, reply, created)]
    && t.workers == s.workers[pid := w.(phase := if lost then Releasing(w.phase.fence, Failure(500, "INTERNAL_ERROR"))
                                                 else Replied(Ok(reply)))]
    && t.tables.catalogs == s.tables.catalogs && t.now == s.now
  }

  /** Every view of a creation is stored for the actor, and all other operations stay. */
  predicate Stores(s: State, t: State, actor: Actor, views: seq<View>) {
    && t.tables.operations.Keys == s.tables.operations.Keys + Created(views)
    && (forall v <- views :: v.id in t.tables.operations && t.tables.operations[v.id] == Stored(actor, v))
    && (forall id <- s.tables.operations ::
          id in t.tables.operations && t.tables.operations[id] == s.tables.operations[id])
    && t.tables.receipts == s.tables.receipts
  }

  lemma CreateAnswers(s: State, pid: nat, views: seq<View>, reply: Reply, lost: bool)
    requires Lives(s) && pid in s.workers && s.workers[pid].phase.Working?
    requires DistinctIds(views) && forall v <- views :: v.id !in s.tables.operations
    ensures var t := CommitCreate(s, pid, views, reply, lost);
            && (!Mine(s, pid) ==> Refused(s, t, pid, Failure(409, "REQUEST_IN_PROGRESS")))
            && (Mine(s, pid) ==>
                  && Published(s, t, pid, reply, Created(views), lost)
                     && Stores(s, t, s.workers[pid].request.actor, views))
  {
    hide KeyOf, Lives, CreateTx, DistinctIds, FirstLives;
    var w := s.workers[pid];
    CreatedExactly(s.tables, w.request.actor, views, KeyOf(w.request, w.key), w.phase.fence, reply);
  }

  lemma FreshIds(s: State, id: Id)
    requires Lives(s) && id >= s.next
    ensures id !in s.tables.operations
  {
    forall i <- s.lives ensures LifeOf(s, i) {}
  }

  /** A preparation is refused for an unknown catalog or as `Prepare` refuses it; otherwise its view is stored under a
      fresh identifier and published with status 201. */
  lemma PrepareAnswers(validate: Validator, s: State, pid: nat, selection: Selection, external: bool, at: Instant,
                       lost: bool)
    requires Lives(s) && pid in s.workers && s.workers[pid].phase.Working? && s.workers[pid].request.body.PrepareBody?
    ensures var t := CoreRuns.Step(validate, s, CommitPrepare(pid, selection, external, at, lost));
            var w := s.workers[pid];
            var k := CatalogKey(w.request.body.catalogId, w.request.body.version);
            && (k !in s.tables.catalogs ==> Refused(s, t, pid, Failure(404, "CATALOG_NOT_FOUND")))
            && (k in s.tables.catalogs && Selectable(s.tables.catalogs[k], selection) ==>
                  match Prepare(validate, k.id, k.version, s.tables.catalogs[k], w.request.actor.allowed, external,
                                selection, w.request.body.known, s.next, at)
                  case Err(f) => Refused(s, t, pid, f)
                  case Ok(view) =>
                    && (!Mine(s, pid) ==> Refused(s, t, pid, Failure(409, "REQUEST_IN_PROGRESS")))
                    && (Mine(s, pid) ==>
                          && Published(s, t, pid, Reply(201, ViewResponse(view)), {s.next}, lost)
                          && Stores(s, t, w.request.actor, [view])))
  {
    hide StepWorkflow, StepAct, StepReserve, StepGuard, PutCatalogTx, ReleaseTx, CommitCreate, Prepare, Selectable,
         Lives, Stores, Published, KeyOf;
    var w := s.workers[pid];
    var k := CatalogKey(w.request.body.catalogId, w.request.body.version);
    if k in s.tables.catalogs && Selectable(s.tables.catalogs[k], selection) {
      var r := Prepare(validate, k.id, k.version, s.tables.catalogs[k], w.request.actor.allowed, external, selection,
                       w.request.body.known, s.next, at);
      if r.Ok? {
        PrepareExactly(validate, k.id, k.version, s.tables.catalogs[k], w.request.actor.allowed, external, selection,
                       w.request.body.known, s.next, at);
        FreshIds(s, s.next);
        OneCreated(r.value);
        CreateLater(s, pid, [r.value], 1, Reply(201, ViewResponse(r.value)), lost);
      }
    }
  }

  /** The identifiers spent on a creation change nothing else about it. */
  lemma CreateLater(s: State, pid: nat, views: seq<View>, spent: nat, reply: Reply, lost: bool)
    requires Lives(s) && pid in s.workers && s.workers[pid].phase.Working?
    requires DistinctIds(views) && forall v <- views :: v.id !in s.tables.operations
    ensures var t := CommitCreate(s.(next := s.next + spent), pid, views, reply, lost);
            && (!Mine(s, pid) ==> Refused(s, t, pid, Failure(409, "REQUEST_IN_PROGRESS")))
            && (Mine(s, pid) ==>
                  && Published(s, t, pid, reply, Created(views), lost)
                     && Stores(s, t, s.workers[pid].request.actor, views))
  {
    hide KeyOf, CreateTx, DistinctIds, FirstLives, Created;
    var u := s.(next := s.next + spent);
    forall id <- u.lives ensures LifeOf(u, id) { assert LifeOf(s, id); }
    hide Lives;
    CreateAnswers(u, pid, views, reply, lost);
  }

  /** A workflow is refused for an unknown catalog, or as `Workflow.BundleExactly` says of its bundle; otherwise the
      operations of the bundle are stored and published with status 201, all together. */
  lemma WorkflowAnswers(validate: Validator, s: State, pid: nat, selected: seq<Tool>, count: nat, external: bool,
                        at: Instant, lost: bool)
    requires Lives(s) && pid in s.workers && s.workers[pid].phase.Working? && s.workers[pid].request.body.WorkflowBody?
    ensures var t := CoreRuns.Step(validate, s, CommitWorkflow(pid, selected, count, external, at, lost));
            var w := s.workers[pid];
            var k := CatalogKey(w.request.body.catalogId, w.request.body.version);
            && (k !in s.tables.catalogs ==> Refused(s, t, pid, Failure(404, "CATALOG_NOT_FOUND")))
            && (k in s.tables.catalogs ==>
                  match W.PrepareBundle(validate, k.id, k.version, s.tables.catalogs[k], w.request.actor.allowed,
                                        external, selected, count, w.request.body.exposureLimit, s.next, at)
                  case Err(f) => Refused(s, t, pid, f)
                  case Ok(body) =>
                    && (!Mine(s, pid) ==> Refused(s, t, pid, Failure(409, "REQUEST_IN_PROGRESS")))
                    && (Mine(s, pid) ==>
                          && Published(s, t, pid, Reply(201, body), Created(body.views), lost)
                          && Stores(s, t, w.request.actor, body.views)))
  {
    hide StepPrepare, StepAct, StepReserve, StepGuard, PutCatalogTx, ReleaseTx, CommitCreate, W.PrepareBundle, Lives,
         Stores, KeyOf, Created, Mine, Published;
    var w := s.workers[pid];
    var k := CatalogKey(w.request.body.catalogId, w.request.body.version);
    var r := BundleTx(validate, s, pid, selected, count, external, at);
    if r.Ok? {
      var views := r.value.views;
      var tools := W.BundleViews(validate, k.id, k.version, s.tables.catalogs[k], w.request.actor.allowed, external,
                                 selected, count, w.request.body.exposureLimit, s.next, at);
      forall i | 0 <= i < |views| ensures views[i].id == s.next + i && views[i].id !in s.tables.operations {
        PrepareEachExactly(validate, k.id, k.version, tools, s.next, at, i);
        FreshIds(s, s.next + i);
      }
      CreateLater(s, pid, views, |views|, Reply(201, r.value), lost);
    }
  }

  /** An action is refused as its operation's guard or its step refuses it; otherwise exactly the view and the receipts
      change as the step says, and its answer is published with status 200. */
  lemma ActAnswers(validate: Validator, s: State, pid: nat, lost: bool)
    requires pid in s.workers && s.workers[pid].phase.Working? && s.workers[pid].request.body.ActBody?
    ensures var t := CoreRuns.Step(validate, s, CommitAct(pid, lost));
            var w := s.workers[pid];
            var id := w.request.body.operation;
            match Load(s.tables.operations, w.request.actor, id)
            case Err(f) => Refused(s, t, pid, f)
            case Ok(stored) =>
              match Transition(validate, CatalogOf(s.tables, stored.view), s.tables.receipts, stored, w.request.actor,
                               w.request.body.action, s.now, Ids(s.next, s.next + 1))
              case Err(f) => Refused(s, t, pid, f)
              case Ok(o) =>
                && (!Mine(s, pid) ==> Refused(s, t, pid, Failure(409, "REQUEST_IN_PROGRESS")))
                && (Mine(s, pid) ==>
                      && Published(s, t, pid, Reply(200, o.response), {}, lost) && t.tables.receipts == o.receipts
                      && t.tables.operations == s.tables.operations[id := Stored(stored.actor, o.view)])
  {
    hide StepPrepare, StepWorkflow, StepReserve, StepGuard, PutCatalogTx, ReleaseTx, Load, Transition, MutateTx, KeyOf;
    var w := s.workers[pid];
    MutatedExactly(validate, s.tables, w.request.actor, w.request.body.operation, w.request.body.action,
                   KeyOf(w.request, w.key), w.phase.fence, s.now, Ids(s.next, s.next + 1));
  }

  /** A worker that gives up answers its failure; unless the release is lost, its own unpublished claim is free again,
      and nothing else changes. */
  lemma ReleaseAnswers(validate: Validator, s: State, pid: nat, lost: bool)
    requires pid in s.workers && s.workers[pid].phase.Releasing?
    ensures var t := CoreRuns.Step(validate, s, Release(pid, lost));
            var w := s.workers[pid];
            var k := KeyOf(w.request, w.key);
            var mine := k in s.tables.idempotency && s.tables.idempotency[k].fence == w.phase.fence
                        && s.tables.idempotency[k].response.None?;
            && t == s.(tables := t.tables, workers := s.workers[pid := w.(phase := Replied(Err(w.phase.failure)))])
            && t.tables == if mine && !lost then s.tables.(idempotency := s.tables.idempotency - {k}) else s.tables
  {
    hide StepPrepare, StepWorkflow, StepAct, StepReserve, StepGuard, PutCatalogTx, KeyOf;
  }
}
