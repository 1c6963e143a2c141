/** The core's database tables, its transactions, and any number of concurrent request workers. */
module Core {
  import opened Wire
  import opened Operation

  /* ----- Tables ----- */

  datatype Verb = CancelVerb | ResolveVerb | DecideVerb | ReceiptVerb

  /** The request path, under which idempotency keys are claimed. */
  datatype Path = Operations | Workflows | OperationPath(id: Id, verb: Verb)

  datatype IdemKey = IdemKey(principal: string, workspace: string, path: Path, key: Token)

  datatype Body =
    | PrepareBody(catalogId: string, version: string, intent: string, context: string, known: Args)
    | WorkflowBody(catalogId: string, version: string, intent: string, exposureLimit: nat)
    | ActBody(operation: Id, action: Action)

  datatype Request = Request(actor: Actor, body: Body)

  /** HMAC of path and canonical body, taken to be injective. */
  datatype RequestHash = Hmac(request: Request)

  datatype Reply = Reply(status: nat, body: Response)

  datatype IdemRow = IdemRow(hash: RequestHash, fence: Id, lease: Instant, response: Option<Reply>)

  datatype CatalogKey = CatalogKey(id: string, version: string)

  datatype Tables = Tables(
    catalogs: map<CatalogKey, seq<Tool>>,
    operations: map<Id, Stored>,
    idempotency: map<IdemKey, IdemRow>,
    receipts: map<Id, Receipt>)

  datatype Claim = Conflict | Processing | Replay(reply: Reply) | Owned(fence: Id)

  const LEASE: int := 10 * SECOND

  /* ----- Transactions ----- */

  function ReserveTx(t: Tables, k: IdemKey, hash: RequestHash, fence: Id, now: Instant): (Tables, Claim) {
    if k !in t.idempotency then
      (t.(idempotency := t.idempotency[k := IdemRow(hash, fence, now + LEASE, None)]), Owned(fence))
    else
      var row := t.idempotency[k];
      if row.hash != hash then (t, Conflict)
      else if row.response.Some? then (t, Replay(row.response.value))
      else if row.lease > now then (t, Processing)
      else (t.(idempotency := t.idempotency[k := row.(fence := fence, lease := now + LEASE)]), Owned(fence))
  }

  /** A reservation touches one row, and only to put its own fence on an unpublished claim of this very request;
      the caller owns the claim exactly when it did. */
  lemma ReservedRow(t: Tables, k: IdemKey, hash: RequestHash, fence: Id, now: Instant)
    ensures var (after, claim) := ReserveTx(t, k, hash, fence, now);
            && after == t.(idempotency := after.idempotency)
            && (claim.Owned? ==>
                  && claim.fence == fence
                  && after.idempotency == t.idempotency[k := IdemRow(hash, fence, now + LEASE, None)]
                  && (k in t.idempotency ==>
                        && t.idempotency[k].hash == hash && t.idempotency[k].response.None?
                           && t.idempotency[k].lease <= now))
            && (!claim.Owned? ==> after == t && k in t.idempotency)
            && (claim.Replay? ==> t.idempotency[k].hash == hash && t.idempotency[k].response == Some(claim.reply))
  {
  }

  /** Only the current fence of an unpublished claim publishes. */
  function FinishTx(t: Tables, k: IdemKey, fence: Id, reply: Reply): Option<Tables> {
    if k in t.idempotency && t.idempotency[k].fence == fence && t.idempotency[k].response.None? then
      Some(t.(idempotency := t.idempotency[k := t.idempotency[k].(response := Some(reply))]))
    else None
  }

  function ReleaseTx(t: Tables, k: IdemKey, fence: Id): Tables {
    if k in t.idempotency && t.idempotency[k].fence == fence && t.idempotency[k].response.None? then
      t.(idempotency := t.idempotency - {k})
    else t
  }

  /** The operations after a row for every view has gone in, first view first. */
  function Inserted(operations: map<Id, Stored>, actor: Actor, views: seq<View>): map<Id, Stored> {
    if views == [] then operations
    else
      var last := views[|views| - 1];
      Inserted(operations, actor, views[..|views| - 1])[last.id := Stored(actor, last)]
  }

  function Created(views: seq<View>): set<Id> { set v <- views :: v.id }

  /** No identifier is taken and none repeats. */
  predicate AllNew(taken: set<Id>, views: seq<View>) {
    Created(views) !! taken && |Created(views)| == |views|
  }

  /** Creates every operation of a preparation and publishes its reply, or does nothing. */
  function CreateTx(t: Tables, actor: Actor, views: seq<View>, k: IdemKey, fence: Id, reply: Reply)
    : Result<Tables, Failure>
  {
    if AllNew(t.operations.Keys, views) then
      match FinishTx(t.(operations := Inserted(t.operations, actor, views)), k, fence, reply)
      case Some(after) => Ok(after)
      case None => Err(Failure(409, "REQUEST_IN_PROGRESS"))
    else Err(Failure(500, "INTERNAL_ERROR"))
  }

  function CatalogOf(t: Tables, v: View): Option<seq<Tool>> {
    if CatalogKey(v.catalogId, v.version) in t.catalogs then Some(t.catalogs[CatalogKey(v.catalogId, v.version)])
    else None
  }

  /** One action on one operation and the publication of its reply, or nothing. */
  function MutateTx(validate: Validator, t: Tables, actor: Actor, id: Id, action: Action,
                    k: IdemKey, fence: Id, now: Instant, ids: Ids): Result<(Tables, Reply), Failure>
  {
    match Load(t.operations, actor, id)
    case Err(f) => Err(f)
    case Ok(stored) =>
      match Transition(validate, CatalogOf(t, stored.view), t.receipts, stored, actor, action, now, ids)
      case Err(f) => Err(f)
      case Ok(o) =>
        var written := t.(receipts := o.receipts, operations := t.operations[id := Stored(stored.actor, o.view)]);
        match FinishTx(written, k, fence, Reply(200, o.response))
        case Some(after) => Ok((after, Reply(200, o.response)))
        case None => Err(Failure(409, "REQUEST_IN_PROGRESS"))
  }

  /** A committed action: the loaded row was the caller's, the action was accepted, and exactly one operation row
      and the claim row changed. */
  lemma CommittedMutation(validate: Validator, t: Tables, actor: Actor, id: Id, action: Action,
                          k: IdemKey, fence: Id, now: Instant, ids: Ids)
    requires MutateTx(validate, t, actor, id, action, k, fence, now, ids).Ok?
    ensures id in t.operations
    ensures var stored := t.operations[id];
            var accepted := Transition(validate, CatalogOf(t, stored.view), t.receipts, stored, actor, action, now,
                                       ids);
            var (after, reply) := MutateTx(validate, t, actor, id, action, k, fence, now, ids).value;
            && stored.actor.principal == actor.principal && stored.actor.workspace == actor.workspace
            && stored.actor.revision == actor.revision
            && accepted.Ok? && reply == Reply(200, accepted.value.response)
            && after.operations == t.operations[id := Stored(stored.actor, accepted.value.view)]
            && after.receipts == accepted.value.receipts && after.catalogs == t.catalogs
            && k in t.idempotency && t.idempotency[k].fence == fence && t.idempotency[k].response.None?
            && after.idempotency == t.idempotency[k := t.idempotency[k].(response := Some(reply))]
  {
    hide Transition;
  }

  function PutCatalogTx(t: Tables, k: CatalogKey, tools: seq<Tool>): Result<Tables, Failure> {
    var stored := if k in t.catalogs then t.catalogs else t.catalogs[k := tools];
    if stored[k] != tools then Err(Failure(409, "CATALOG_IMMUTABLE")) else Ok(t.(catalogs := stored))
  }

  /** The store of one integration; a failed transaction leaves every table as it was. */
  class Store {
    var catalogs: map<CatalogKey, seq<Tool>>
    var operations: map<Id, Stored>
    var idempotency: map<IdemKey, IdemRow>
    var receipts: map<Id, Receipt>

    function Contents(): Tables
      reads this
    {
      Tables(catalogs, operations, idempotency, receipts)
    }

    constructor ()
      ensures Contents() == Tables(map[], map[], map[], map[])
    {
      catalogs, operations, idempotency, receipts := map[], map[], map[], map[];
    }

    method PutCatalog(k: CatalogKey, tools: seq<Tool>) returns (r: Result<(), Failure>)
      modifies this
      ensures match PutCatalogTx(old(Contents()), k, tools)
              case Ok(t) => r == Ok(()) && Contents() == t
              case Err(f) => r == Err(f) && Contents() == old(Contents())
    {
      if k !in catalogs { catalogs := catalogs[k := tools]; }
      if catalogs[k] != tools { return Err(Failure(409, "CATALOG_IMMUTABLE")); }
      r := Ok(());
    }

    method Reserve(k: IdemKey, hash: RequestHash, fence: Id, now: Instant) returns (claim: Claim)
      modifies this`idempotency
      ensures (Contents(), claim) == ReserveTx(old(Contents()), k, hash, fence, now)
    {
      var inserted := false;
      if k !in idempotency {
        idempotency := idempotency[k := IdemRow(hash, fence, now + LEASE, None)];
        inserted := true;
      }
      if inserted { return Owned(fence); }
      var item := idempotency[k];
      if item.hash != hash { return Conflict; }
      if item.response.Some? { return Replay(item.response.value); }
      if item.lease > now { return Processing; }
      idempotency := idempotency[k := item.(fence := fence, lease := now + LEASE)];
      claim := Owned(fence);
    }

    method Finish(k: IdemKey, fence: Id, reply: Reply) returns (ok: bool)
      modifies this`idempotency
      ensures ok <==> FinishTx(old(Contents()), k, fence, reply).Some?
      ensures Contents() == if ok then FinishTx(old(Contents()), k, fence, reply).value else old(Contents())
    {
      ok := k in idempotency && idempotency[k].fence == fence && idempotency[k].response.None?;
      if ok {
        idempotency := idempotency[k := idempotency[k].(response := Some(reply))];
      }
    }

    method Release(k: IdemKey, fence: Id)
      modifies this`idempotency
      ensures Contents() == ReleaseTx(old(Contents()), k, fence)
    {
      if k in idempotency && idempotency[k].fence == fence && idempotency[k].response.None? {
        idempotency := idempotency - {k};
      }
    }

    method LoadOperation(actor: Actor, id: Id) returns (r: Result<Stored, Failure>)
      ensures r == Load(operations, actor, id)
    {
      if id !in operations { return Err(Failure(404, "OPERATION_NOT_FOUND")); }
      var result := operations[id];
      if result.actor.principal != actor.principal || result.actor.workspace != actor.workspace {
        return Err(Failure(404, "OPERATION_NOT_FOUND"));
      }
      if result.actor.revision != actor.revision { return Err(Failure(409, "AUTHORIZATION_CONTEXT_CHANGED")); }
      if result.view.selected.Some? && result.view.selected.value.id !in actor.allowed {
        return Err(Failure(403, "TOOL_NOT_ALLOWED"));
      }
      r := Ok(result);
    }

    method PersistView(actor: Actor, view: View, create: bool) returns (ok: bool)
      modifies this`operations
      ensures ok <==> !(create && view.id in old(operations))
      ensures ok ==> operations ==
                       if create then old(operations)[view.id := Stored(actor, view)]
                       else if view.id in old(operations)
                       then old(operations)[view.id := Stored(old(operations)[view.id].actor, view)]
                       else old(operations)
      ensures !ok ==> operations == old(operations)
    {
      ok := true;
      if create {
        if view.id in operations { return false; }
        operations := operations[view.id := Stored(actor, view)];
      } else if view.id in operations {
        operations := operations[view.id := Stored(operations[view.id].actor, view)];
      }
    }

    /** Inserts every row, or stops at the first one whose identifier is taken. */
    method InsertAll(actor: Actor, views: seq<View>) returns (ok: bool)
      modifies this`operations
      ensures ok <==> AllNew(old(operations).Keys, views)
      ensures ok ==> operations == Inserted(old(operations), actor, views)
    {
      ghost var before := operations;
      var i := 0;
      assert views[..0] == [];
      while i < |views|
        invariant 0 <= i <= |views|
        invariant AllNew(before.Keys, views[..i])
        invariant operations == Inserted(before, actor, views[..i])
      {
        InsertedStep(before, actor, views, i);
        InsertedRows(before, actor, views[..i]);
        AllNewStep(before.Keys, views, i);
        ok := PersistView(actor, views[i], true);
        if !ok { return; }
        i := i + 1;
      }
      assert views[..i] == views;
      ok := true;
    }

    /** One transaction for a whole preparation: all operations and the reply, or nothing. */
    method Publish(actor: Actor, views: seq<View>, k: IdemKey, fence: Id, reply: Reply) returns (r: Result<(), Failure>)
      modifies this
      ensures match CreateTx(old(Contents()), actor, views, k, fence, reply)
              case Ok(t) => r == Ok(()) && Contents() == t
              case Err(f) => r == Err(f) && Contents() == old(Contents())
    {
      var before := operations;
      var inserted := InsertAll(actor, views);
      if !inserted {
        operations := before;
        return Err(Failure(500, "INTERNAL_ERROR"));
      }
      var published := Finish(k, fence, reply);
      if !published {
        operations := before;
        return Err(Failure(409, "REQUEST_IN_PROGRESS"));
      }
      r := Ok(());
    }

    method ActRecord(view: View, decisionId: Id, receipt: Receipt, now: Instant) returns (r: Result<Outcome, Failure>)
      ensures r == TransitionRecord(receipts, view, decisionId, receipt, now)
    {
      if view.decision.None? || view.decision.value.id != decisionId { return Err(Failure(400, "INVALID_REQUEST")); }
      if now > view.decision.value.issued + 24 * HOUR { return Err(Failure(410, "DECISION_EXPIRED")); }
      var after := receipts;
      if decisionId !in after { after := after[decisionId := receipt]; }
      if after[decisionId].outcome != receipt.outcome { return Err(Failure(409, "RECEIPT_CONFLICT")); }
      r := Ok(Outcome(view, after, Recorded));
    }

    method ActCancel(before: View, expected: int) returns (r: Result<Outcome, Failure>)
      ensures forall validate, catalog, stored: Stored, actor, now, ids ::
              stored.view == before && now < Deadline(before.expires) ==>
                r == Transition(validate, catalog, receipts, stored, actor, Cancel(expected), now, ids)
    {
      var view := before;
      if view.status == DecisionIssued { return Err(Failure(409, "CANNOT_CANCEL_ISSUED")); }
      if view.status !in {Ready, NeedsArguments, NeedsChoice} { return Err(Failure(409, "OPERATION_STATE_INVALID")); }
      if expected != view.revision { return Err(Failure(409, "REVISION_CONFLICT")); }
      view := CancelView(view);
      r := Ok(Outcome(view, receipts, ViewResponse(view)));
    }

    method ActResolve(validate: Validator, stored: Stored, actor: Actor, expected: int, choice: string, args: Args)
      returns (r: Result<Outcome, Failure>)
      ensures r == TransitionResolve(validate, CatalogOf(Contents(), stored.view), receipts, stored, actor, expected,
                                     choice, args)
    {
      var view := stored.view;
      if view.status != NeedsChoice { return Err(Failure(409, "OPERATION_STATE_INVALID")); }
      if expected != view.revision { return Err(Failure(409, "REVISION_CONFLICT")); }
      if choice !in CandidateIds(view.candidates) { return Err(Failure(400, "INVALID_REQUEST")); }
      if choice !in actor.allowed || choice !in stored.actor.allowed { return Err(Failure(403, "TOOL_NOT_ALLOWED")); }
      var k := CatalogKey(view.catalogId, view.version);
      if k !in catalogs { return Err(Failure(500, "INTERNAL_ERROR")); }
      var tool := FindTool(catalogs[k], choice);
      if tool.Some? {
        view := view.(revision := view.revision + 1);
        view := MakeReady(validate, view, tool.value, args);
      }
      r := Ok(Outcome(view, receipts, ViewResponse(view)));
    }

    method ActDecide(validate: Validator, before: View, expected: int, args: Args, now: Instant, ids: Ids)
      returns (r: Result<Outcome, Failure>)
      ensures r == TransitionDecide(validate, receipts, before, expected, args, now, ids)
    {
      var view := before;
      if view.status == DecisionIssued {
        if view.decision.None? || view.decision.value.argumentsDigest != Sha256(args) {
          return Err(Failure(409, "OPERATION_ALREADY_ISSUED"));
        }
        if view.decision.value.notAfter <= now { return Err(Failure(410, "DECISION_EXPIRED")); }
        return Ok(Outcome(view, receipts, DecisionResponse(view.decision.value)));
      }
      if view.status != Ready && view.status != NeedsArguments { return Err(Failure(409, "OPERATION_STATE_INVALID")); }
      if expected != view.revision { return Err(Failure(409, "REVISION_CONFLICT")); }
      if view.selected.None? { return Err(Failure(500, "INTERNAL_ERROR")); }
      var selected := view.selected.value;
      var (issues, missing) := validate(selected.input, args);
      view := view.(revision := view.revision + 1);
      if |issues| > 0 {
        view := view.(status := NeedsArguments, digest := None, issues := Some(issues), missing := Some(missing));
        return Ok(Outcome(view, receipts, ViewResponse(view)));
      }
      var expiry := now + MINUTE;
      if Deadline(view.expires) < expiry { expiry := Deadline(view.expires); }
      if expiry - now < SECOND { return Err(Failure(410, "DECISION_EXPIRED")); }
      var decision := Decision(ids.decisionId, view.id, view.revision, view.catalogId, view.version, selected.id,
                               selected.digest, Sha256(args), selected.effect, ids.executionKey, now, expiry);
      view := view.(status := DecisionIssued, decision := Some(decision), digest := None, issues := None,
                    missing := None, next := "");
      r := Ok(Outcome(view, receipts, DecisionResponse(decision)));
    }

    /** The action on a loaded operation; nothing is written yet. */
    method Act(validate: Validator, stored: Stored, actor: Actor, action: Action, now: Instant, ids: Ids)
      returns (r: Result<Outcome, Failure>)
      ensures r == Transition(validate, CatalogOf(Contents(), stored.view), receipts, stored, actor, action, now, ids)
    {
      if !action.Record? && Deadline(stored.view.expires) <= now { return Err(Failure(410, "OPERATION_EXPIRED")); }
      match action {
        case Record(decisionId, receipt) => r := ActRecord(stored.view, decisionId, receipt, now);
        case Cancel(expected) => r := ActCancel(stored.view, expected);
        case Resolve(expected, choice, args) => r := ActResolve(validate, stored, actor, expected, choice, args);
        case Decide(expected, args) => r := ActDecide(validate, stored.view, expected, args, now, ids);
      }
    }

    method Mutate(validate: Validator, actor: Actor, id: Id, action: Action, k: IdemKey, fence: Id, now: Instant,
                  ids: Ids)
      returns (r: Result<Reply, Failure>)
      requires id in operations ==> operations[id].view.id == id
      modifies this
      ensures match MutateTx(validate, old(Contents()), actor, id, action, k, fence, now, ids)
              case Ok((t, reply)) => r == Ok(reply) && Contents() == t
              case Err(f) => r == Err(f) && Contents() == old(Contents())
    {
      hide Transition;
      var before := Contents();
      var loaded := LoadOperation(actor, id);
      if loaded.Err? { return Err(loaded.error); }
      var stored := loaded.value;
      ViewKeepsId(validate, CatalogOf(before, stored.view), receipts, stored, actor, action, now, ids);
      var outcome := Act(validate, stored, actor, action, now, ids);
      if outcome.Err? { return Err(outcome.error); }
      var view, response := outcome.value.view, outcome.value.response;
      receipts := outcome.value.receipts;
      var _ := PersistView(actor, view, false);
      var published := Finish(k, fence, Reply(200, response));
      if !published {
        operations, receipts := before.operations, before.receipts;
        return Err(Failure(409, "REQUEST_IN_PROGRESS"));
      }
      r := Ok(Reply(200, response));
    }
  }

  /** An action stays on its operation. */
  lemma ViewKeepsId(validate: Validator, catalog: Option<seq<Tool>>, receipts: map<Id, Receipt>,
                    stored: Stored, actor: Actor, action: Action, now: Instant, ids: Ids)
    ensures var r := Transition(validate, catalog, receipts, stored, actor, action, now, ids);
            r.Ok? ==> r.value.view.id == stored.view.id
  {
  }

  lemma InsertedStep(operations: map<Id, Stored>, actor: Actor, views: seq<View>, i: nat)
    requires i < |views|
    ensures Inserted(operations, actor, views[..i + 1]) ==
            Inserted(operations, actor, views[..i])[views[i].id := Stored(actor, views[i])]
  {
    assert views[..i + 1][..i] == views[..i];
  }

  lemma {:induction false} InsertedRows(operations: map<Id, Stored>, actor: Actor, views: seq<View>)
    ensures Inserted(operations, actor, views).Keys == operations.Keys + Created(views)
    ensures forall id <- operations ::
            id !in Created(views) ==> Inserted(operations, actor, views)[id] == operations[id]
    ensures forall id <- Created(views) ::
              exists v <- views :: v.id == id && Inserted(operations, actor, views)[id] == Stored(actor, v)
  {
    if views != [] {
      var front := views[..|views| - 1];
      assert views == front + [views[|views| - 1]];
      InsertedRows(operations, actor, front);
      assert Created(views) == Created(front) + {views[|views| - 1].id};
    }
  }

  lemma CreatedAppend(a: seq<View>, b: seq<View>)
    ensures Created(a + b) == Created(a) + Created(b)
  {
    forall id ensures id in Created(a + b) <==> id in Created(a) + Created(b) {
      assert forall v :: v in a + b <==> v in a || v in b;
    }
  }

  /** The row of a further view goes in exactly when no taken identifier and no identifier before it is repeated;
      once it does not, the whole preparation stays out. */
  lemma AllNewStep(taken: set<Id>, views: seq<View>, i: nat)
    requires i < |views| && AllNew(taken, views[..i])
    ensures AllNew(taken, views[..i + 1]) <==> views[i].id !in taken && views[i].id !in Created(views[..i])
    ensures !AllNew(taken, views[..i + 1]) ==> !AllNew(taken, views)
  {
    hide Created;
    var front, one, rest := views[..i], [views[i]], views[i + 1..];
    CreatedAppend(front, one);
    CreatedAppend(front + one, rest);
    OneCreated(views[i]);
    assert views[..i + 1] == front + one && views == (front + one) + rest;
    CreatedBound(rest);
    if views[i].id in Created(front) { assert Created(front + one) == Created(front); }
  }

  lemma NoneCreated()
    ensures Created([]) == {}
  {
  }

  lemma OneCreated(v: View)
    ensures Created([v]) == {v.id}
  {
  }

  lemma {:induction false} CreatedBound(views: seq<View>)
    ensures |Created(views)| <= |views|
  {
    hide Created;
    if views == [] {
      NoneCreated();
    } else {
      assert views == [views[0]] + views[1..];
      CreatedBound(views[1..]);
      CreatedAppend([views[0]], views[1..]);
      OneCreated(views[0]);
    }
  }

  /* ----- What each transaction does, told by the rows alone ----- */

  /** The four answers to a reservation, each exactly when the row says so. */
  lemma ReservedExactly(t: Tables, k: IdemKey, hash: RequestHash, fence: Id, now: Instant, reply: Reply)
    ensures var (u, claim) := ReserveTx(t, k, hash, fence, now);
            var taken := k in t.idempotency;
            && (claim == Conflict <==> taken && t.idempotency[k].hash != hash)
            && (claim == Replay(reply) <==>
                  taken && t.idempotency[k].hash == hash && t.idempotency[k].response == Some(reply))
            && (claim == Processing <==>
                  && taken && t.idempotency[k].hash == hash && t.idempotency[k].response.None?
                  && now < t.idempotency[k].lease)
            && (claim == Owned(fence) <==>
                  (taken ==>
                     && t.idempotency[k].hash == hash && t.idempotency[k].response.None?
                     && t.idempotency[k].lease <= now))
            && (claim == Owned(fence) ==>
                  u == t.(idempotency := t.idempotency[k := IdemRow(hash, fence, now + 10 * SECOND, None)]))
            && (claim != Owned(fence) ==> u == t)
  {
  }

  /** Publication and release go through exactly for the unpublished claim of one's own fence. */
  lemma FencedExactly(t: Tables, k: IdemKey, fence: Id, reply: Reply)
    ensures var mine := k in t.idempotency && t.idempotency[k].fence == fence && t.idempotency[k].response.None?;
            var published, released := FinishTx(t, k, fence, reply), ReleaseTx(t, k, fence);
            && (published.Some? <==> mine)
            && (mine ==>
                  && published.value ==
                       t.(idempotency := t.idempotency[k := t.idempotency[k].(response := Some(reply))])
                  && released == t.(idempotency := t.idempotency - {k}))
            && (!mine ==> released == t)
  {
  }

  /** A preparation goes in as a whole exactly when its identifiers are new and distinct and the claim is its own. */
  lemma CreatedExactly(t: Tables, actor: Actor, views: seq<View>, k: IdemKey, fence: Id, reply: Reply)
    ensures var r := CreateTx(t, actor, views, k, fence, reply);
            var unused := (forall v <- views :: v.id !in t.operations) && DistinctIds(views);
            var mine := k in t.idempotency && t.idempotency[k].fence == fence && t.idempotency[k].response.None?;
            && (r.Ok? <==> unused && mine)
            && (r.Ok? ==>
                  && r.value.operations.Keys == t.operations.Keys + Created(views)
                  && (forall id <- t.operations :: r.value.operations[id] == t.operations[id])
                  && (forall v <- views :: r.value.operations[v.id] == Stored(actor, v))
                  && r.value.idempotency == t.idempotency[k := t.idempotency[k].(response := Some(reply))]
                  && r.value.catalogs == t.catalogs && r.value.receipts == t.receipts)
            && (r == Err(Failure(409, "REQUEST_IN_PROGRESS")) <==> unused && !mine)
            && (r == Err(Failure(500, "INTERNAL_ERROR")) <==> !unused)
  {
    hide Inserted, Created, DistinctIds;
    DistinctCounts(views);
    InsertedRows(t.operations, actor, views);
    if DistinctIds(views) { InsertedAll(t.operations, actor, views); }
    UnusedIds(t.operations, views);
  }

  lemma InsertedAll(operations: map<Id, Stored>, actor: Actor, views: seq<View>)
    requires DistinctIds(views)
    ensures forall v <- views ::
              v.id in Inserted(operations, actor, views) && Inserted(operations, actor, views)[v.id] == Stored(actor, v)
  {
    hide Inserted, DistinctIds;
    forall v <- views
      ensures v.id in Inserted(operations, actor, views) && Inserted(operations, actor, views)[v.id] == Stored(actor, v)
    {
      InsertedEach(operations, actor, views, v);
    }
  }

  lemma UnusedIds(operations: map<Id, Stored>, views: seq<View>)
    ensures (forall v <- views :: v.id !in operations) <==> Created(views) !! operations.Keys
  {
    forall v <- views ensures v.id in Created(views) {}
  }

  predicate DistinctIds(views: seq<View>) { forall i, j :: 0 <= i < j < |views| ==> views[i].id != views[j].id }

  /** Views have distinct identifiers exactly when there are as many identifiers. */
  lemma {:induction false} DistinctCounts(views: seq<View>)
    ensures DistinctIds(views) <==> |Created(views)| == |views|
  {
    hide Created;
    if views == [] {
      NoneCreated();
    } else {
      var front, last := views[..|views| - 1], views[|views| - 1];
      assert views == front + [last];
      DistinctCounts(front);
      CreatedAppend(front, [last]);
      OneCreated(last);
      CreatedBound(front);
      SeenBefore(front, last);
      DistinctSnoc(front, last);
    }
  }

  lemma DistinctSnoc(front: seq<View>, last: View)
    ensures DistinctIds(front + [last]) <==> DistinctIds(front) && forall i ::
            0 <= i < |front| ==> front[i].id != last.id
  {
    var all := front + [last];
    if DistinctIds(all) {
      forall i | 0 <= i < |front| ensures front[i].id != last.id { assert all[i].id != all[|front|].id; }
      forall i, j | 0 <= i < j < |front| ensures front[i].id != front[j].id { assert all[i].id != all[j].id; }
    }
  }

  /** Then each view has its row. */
  lemma {:induction false} InsertedEach(operations: map<Id, Stored>, actor: Actor, views: seq<View>, v: View)
    requires DistinctIds(views) && v in views
    ensures v.id in Inserted(operations, actor, views) && Inserted(operations, actor, views)[v.id] == Stored(actor, v)
  {
    var front, last := views[..|views| - 1], views[|views| - 1];
    assert views == front + [last];
    DistinctSnoc(front, last);
    if v != last {
      InsertedEach(operations, actor, front, v);
      var i :| 0 <= i < |front| && front[i] == v;
    }
  }

  lemma SeenBefore(front: seq<View>, last: View)
    ensures last.id in Created(front) <==> exists i :: 0 <= i < |front| && front[i].id == last.id
  {
    if last.id in Created(front) {
      var v :| v in front && v.id == last.id;
    }
  }

  /** A catalog version is stored on its first upload, accepted again when it is the same, and refused otherwise. */
  lemma CatalogExactly(t: Tables, k: CatalogKey, tools: seq<Tool>)
    ensures var r := PutCatalogTx(t, k, tools);
            && (r.Ok? <==> k in t.catalogs ==> t.catalogs[k] == tools)
            && (r.Ok? ==> r.value == t.(catalogs := t.catalogs[k := tools]))
            && (r.Err? ==> r.error == Failure(409, "CATALOG_IMMUTABLE"))
  {
  }

  /** An action commits exactly when its operation loads, the step accepts it and the claim is its own; then exactly
      the operation's view, the receipts and the claim's response change. */
  lemma MutatedExactly(validate: Validator, t: Tables, actor: Actor, id: Id, action: Action,
                       k: IdemKey, fence: Id, now: Instant, ids: Ids)
    ensures var r := MutateTx(validate, t, actor, id, action, k, fence, now, ids);
            match Load(t.operations, actor, id)
            case Err(f) => r == Err(f)
            case Ok(stored) =>
              match Transition(validate, CatalogOf(t, stored.view), t.receipts, stored, actor, action, now, ids)
              case Err(f) => r == Err(f)
              case Ok(o) =>
                var mine := k in t.idempotency && t.idempotency[k].fence == fence && t.idempotency[k].response.None?;
                var reply := Reply(200, o.response);
                && (!mine ==> r == Err(Failure(409, "REQUEST_IN_PROGRESS")))
                && (mine ==>
                      r == Ok((Tables(t.catalogs, t.operations[id := Stored(stored.actor, o.view)],
                                      t.idempotency[k := t.idempotency[k].(response := Some(reply))], o.receipts),
                                      reply)))
  {
    hide Transition, Load;
  }
}
