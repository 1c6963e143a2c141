/** What holds in every state the whole protocol can reach, and the results that follow. */
module ProtocolSafety {
  import opened Wire
  import opened Protocol
  import Op = Operation
  import C = CoreRuns
  import L = Ledger

  /* ----- What the core vouches for ----- */

  /** The core bound this decision to its operation, for an actor of this context. */
  predicate IssuedTo(c: C.State, actor: Actor, d: Decision) {
    && d.operationId in c.tables.operations
    && var stored := c.tables.operations[d.operationId];
       C.SameContext(stored.actor, actor) && stored.view.status == DecisionIssued && stored.view.decision == Some(d)
  }

  lemma ViewStays(c: C.State, b: C.State, id: Id)
    requires C.Lives(c) && C.Lives(b) && C.Grows(c, b) && id in c.tables.operations
    ensures id in b.tables.operations && b.tables.operations[id].actor == c.tables.operations[id].actor
    ensures Op.Evolves(c.tables.operations[id].view, b.tables.operations[id].view)
  {
    hide Op.Life, Op.WellFormed, Op.Evolves;
    assert C.LifeOf(c, id) && C.LifeOf(b, id) && C.Extends(c, b, id) by {
      assert id in c.lives && id in b.lives;
    }
    Op.LifeHasStart(c.lives[id]);
    Op.LifeEvolves(b.lives[id], |c.lives[id]| - 1, |b.lives[id]| - 1);
  }

  lemma IssuedStays(c: C.State, b: C.State, actor: Actor, d: Decision)
    requires C.Lives(c) && C.Lives(b) && C.Grows(c, b) && IssuedTo(c, actor, d)
    ensures IssuedTo(b, actor, d)
  {
    hide C.Lives, C.Grows;
    ViewStays(c, b, d.operationId);
  }

  lemma KeptStays(c: C.State, b: C.State, actor: Actor, v: View)
    requires C.Grows(c, b) && C.Kept(c, actor, v)
    ensures C.Kept(b, actor, v)
  {
    assert C.Extends(c, b, v.id);
  }

  /** A view of a life has its status's shape, and if it is final it is the stored one. */
  lemma KeptShape(c: C.State, actor: Actor, v: View)
    requires C.Lives(c) && C.Kept(c, actor, v)
    ensures Op.WellFormed(v) && Op.Life(c.lives[v.id])
    ensures c.lives[v.id][|c.lives[v.id]| - 1] == c.tables.operations[v.id].view
    ensures Op.Evolves(v, c.tables.operations[v.id].view)
    ensures Op.WellFormed(c.tables.operations[v.id].view)
  {
    hide Op.Life, Op.WellFormed, Op.Evolves;
    assert C.LifeOf(c, v.id);
    var h := c.lives[v.id];
    var i :| 0 <= i < |h| && h[i] == v;
    Op.LifeEvolves(h, i, i);
    Op.LifeEvolves(h, i, |h| - 1);
    Op.LifeEvolves(h, |h| - 1, |h| - 1);
  }

  /** The view an executor builds from its snapshot and the decision is the one the core stored. */
  lemma LocalViewIsStored(c: C.State, actor: Actor, v: View, d: Decision, args: Args)
    requires C.Lives(c) && C.Kept(c, actor, v) && IssuedTo(c, actor, d)
    requires v.selected.Some? && Matches(v, v.selected.value, d, args)
    ensures LocalIssued(v, d) == c.tables.operations[v.id].view
  {
    hide Op.Life, C.Lives;
    KeptShape(c, actor, v);
    var last := c.tables.operations[v.id].view;
    if v.status != DecisionIssued {
      Op.IssuedViewIsDetermined(c.lives[v.id], v, last);
    }
  }

  /* ----- The invariant ----- */

  /** Snapshot rows hold views that the core gave to this principal in this authorization context. */
  predicate SnapshotOk(c: C.State, k: L.PrepKey, row: L.PrepRow) {
    && k.operation == row.snapshot.id && row.revision == row.snapshot.revision && row.expires == row.snapshot.expires
    && row.snapshot.id in c.lives && row.snapshot in c.lives[row.snapshot.id]
    && row.snapshot.id in c.tables.operations
    && var a := c.tables.operations[row.snapshot.id].actor;
       a.principal == k.principal && a.workspace == k.workspace && a.revision == row.authorization
  }

  predicate Snapshots(s: System) {
    forall k <- s.ledger.preparations {:trigger SnapshotOk(s.core, k, s.ledger.preparations[k])} ::
        SnapshotOk(s.core, k, s.ledger.preparations[k])
  }

  /** The provider's own tool admits these arguments and this actor. */
  predicate Admitted(p: Provider, validate: Validator, actor: Actor, toolId: string, args: Args, mutation: bool) {
    && toolId in actor.allowed
    && var local := Op.FindTool(p.tools, toolId);
       local.Some? && (local.value.effect != Read) == mutation && |validate(local.value.input, args).0| == 0
  }

  /** The core bound the decision to this operation and these arguments. */
  predicate Ordered(c: C.State, actor: Actor, operation: Id, args: Args, d: Decision) {
    IssuedTo(c, actor, d) && d.operationId == operation && d.argumentsDigest == Sha256(args)
  }

  /** What an executor knows of the core. */
  predicate Known(p: Provider, validate: Validator, c: C.State, e: Executor) {
    match e.phase
    case Looked(v) => Seen(p, validate, c, e.actor, e.operation, e.args, e.mutation, v)
    case Asking(v) => Seen(p, validate, c, e.actor, e.operation, e.args, e.mutation, v)
    case Refused(v) => C.Kept(c, e.actor, v)
    case Issuing(v, d) =>
      && Seen(p, validate, c, e.actor, e.operation, e.args, e.mutation, v)
         && Ordered(c, e.actor, e.operation, e.args, d) && d.toolId == v.selected.value.id
      && LocalIssued(v, d) == c.tables.operations[e.operation].view
    case Claiming(d) =>
      Ordered(c, e.actor, e.operation, e.args, d) && Admitted(p, validate, e.actor, d.toolId, e.args, e.mutation)
    case Replaying(d, _) => Ordered(c, e.actor, e.operation, e.args, d)
    case Holding(d, _) =>
      Ordered(c, e.actor, e.operation, e.args, d) && Admitted(p, validate, e.actor, d.toolId, e.args, e.mutation)
    case Dispatched(d, _) =>
      Ordered(c, e.actor, e.operation, e.args, d) && Admitted(p, validate, e.actor, d.toolId, e.args, e.mutation)
    case Handling(d, _) => Ordered(c, e.actor, e.operation, e.args, d)
    case _ => true
  }

  predicate Seen(p: Provider, validate: Validator, c: C.State, actor: Actor, operation: Id, args: Args, mutation: bool,
                 v: View) {
    && v.id == operation && C.Kept(c, actor, v) && v.status in {Ready, NeedsArguments, DecisionIssued}
    && v.selected.Some? && Admitted(p, validate, actor, v.selected.value.id, args, mutation)
  }

  predicate Recorded(t: L.Tables, k: L.ExecKey, result: L.Payload) {
    k in t.executions && t.executions[k].state in {L.Succeeded, L.FailedAfterDispatch}
        && t.executions[k].result == Some(result)
  }

  predicate Fenced(t: L.Tables, k: L.ExecKey, fence: Id, state: L.ExecState) {
    k in t.executions && t.executions[k].fence == fence && t.executions[k].state == state
  }

  ghost predicate Entered(entries: seq<Entry>, k: L.ExecKey) { exists i :: 0 <= i < |entries| && entries[i].key == k }

  predicate Grips(e: Executor) { e.phase.Holding? || e.phase.Dispatched? || e.phase.Handling? }

  /** What an executor holds in the ledger. */
  ghost predicate Grip(t: L.Tables, entries: seq<Entry>, e: Executor) {
    match e.phase
    case Holding(d, f) => Fenced(t, L.KeyOf(e.actor, d), f, L.Claimed)
    case Dispatched(d, f) => Fenced(t, L.KeyOf(e.actor, d), f, L.Dispatching) && !Entered(entries, L.KeyOf(e.actor, d))
    case Handling(d, f) => Fenced(t, L.KeyOf(e.actor, d), f, L.Dispatching) && Entered(entries, L.KeyOf(e.actor, d))
    case Replaying(d, r) => Recorded(t, L.KeyOf(e.actor, d), r)
    case Done(Business(k, r)) => Recorded(t, k, r)
    case _ => true
  }

  ghost predicate Executors(p: Provider, validate: Validator, s: System) {
    && (forall x <- s.executors {:trigger Known(p, validate, s.core, s.executors[x])} ::
        Known(p, validate, s.core, s.executors[x]))
    && (forall x <- s.executors {:trigger Grip(s.ledger, s.entries, s.executors[x])} ::
        Grip(s.ledger, s.entries, s.executors[x]))
    && (forall x, y ::
        x in s.executors && y in s.executors && x != y && Grips(s.executors[x]) && Grips(s.executors[y]) ==>
          s.executors[x].phase.fence != s.executors[y].phase.fence)
  }

  /** A row stands for the one decision of an operation. */
  predicate RowOf(c: C.State, k: L.ExecKey, row: L.ExecRow, id: Id) {
    && id in c.tables.operations && c.tables.operations[id].view.status == DecisionIssued
    && c.tables.operations[id].view.decision.Some?
    && var d := c.tables.operations[id].view.decision.value;
       d.executionKey == k.key && d.argumentsDigest == row.digest && d.toolId == row.toolId && d.version == row.version
  }

  ghost predicate RowBound(c: C.State, k: L.ExecKey, row: L.ExecRow) { exists id :: RowOf(c, k, row, id) }

  /** A row and the handler agree. */
  ghost predicate RowAgrees(entries: seq<Entry>, k: L.ExecKey, row: L.ExecRow) {
    && (row.result.Some? <==> row.state in {L.Succeeded, L.FailedAfterDispatch})
    && (row.state in {L.Claimed, L.FailedBeforeDispatch} ==> !Entered(entries, k))
    && (row.state in {L.Succeeded, L.FailedAfterDispatch, L.Uncertain} ==> Entered(entries, k))
  }

  ghost predicate Rows(s: System) {
    && (forall k <- s.ledger.executions :: s.ledger.executions[k].fence < s.next)
    && (forall k <- s.ledger.executions {:trigger RowBound(s.core, k, s.ledger.executions[k])} ::
        RowBound(s.core, k, s.ledger.executions[k]))
    && (forall k <- s.ledger.executions :: RowAgrees(s.entries, k, s.ledger.executions[k]))
  }

  /** A handler entry is for the decision that the core bound to the operation, with exactly its arguments. */
  predicate EntryBound(p: Provider, validate: Validator, c: C.State, e: Entry) {
    && e.operation in c.tables.operations
    && var stored := c.tables.operations[e.operation];
       && C.SameContext(stored.actor, e.actor)
       && stored.view.status == DecisionIssued && stored.view.decision.Some?
       && var d := stored.view.decision.value;
          && e.key == L.KeyOf(e.actor, d) && e.toolId == d.toolId && Sha256(e.args) == d.argumentsDigest
          && Admitted(p, validate, e.actor, e.toolId, e.args, e.mutation)
  }

  predicate EntryFenced(t: L.Tables, e: Entry) { e.key in t.executions && t.executions[e.key].fence == e.fence }

  predicate Entries(p: Provider, validate: Validator, s: System) {
    && (forall i {:trigger EntryBound(p, validate, s.core, s.entries[i])} ::
        0 <= i < |s.entries| ==> EntryBound(p, validate, s.core, s.entries[i]))
    && (forall i :: 0 <= i < |s.entries| ==> EntryFenced(s.ledger, s.entries[i]))
    && (forall i, j :: 0 <= i < j < |s.entries| ==> s.entries[i].key != s.entries[j].key)
  }

  ghost predicate Inv(p: Provider, validate: Validator, s: System) {
    C.Inv(s.core) && Snapshots(s) && Executors(p, validate, s) && Rows(s) && Entries(p, validate, s)
  }

  /* ----- The core moves on ----- */

  lemma CoreKeeps(p: Provider, validate: Validator, s: System, c: C.State)
    requires Inv(p, validate, s) && C.Inv(c) && C.Grows(s.core, c)
    ensures Inv(p, validate, s.(core := c))
  {
    hide C.Fences, C.OncePerKey, C.RepliesPublished, C.Bundles, C.KeysDistinct, C.AnswersTruthful, C.ChoicesKnown,
         C.Lives, C.Grows, Known, Grip, SnapshotOk, RowBound, RowAgrees, EntryBound, EntryFenced;
    var t := s.(core := c);
    forall k <- t.ledger.preparations ensures SnapshotOk(c, k, t.ledger.preparations[k]) {
      SnapshotStays(s.core, c, k, s.ledger.preparations[k]);
    }
    forall x <- t.executors ensures Known(p, validate, c, t.executors[x]) {
      KnownStays(p, validate, s.core, c, s.executors[x]);
    }
    forall k <- t.ledger.executions ensures RowBound(c, k, t.ledger.executions[k]) {
      RowStays(s.core, c, k, s.ledger.executions[k]);
    }
    forall i | 0 <= i < |t.entries| ensures EntryBound(p, validate, c, t.entries[i]) {
      EntryStays(p, validate, s.core, c, s.entries[i]);
    }
  }

  lemma SnapshotStays(c: C.State, b: C.State, k: L.PrepKey, row: L.PrepRow)
    requires C.Grows(c, b) && SnapshotOk(c, k, row)
    ensures SnapshotOk(b, k, row)
  {
    assert C.Extends(c, b, row.snapshot.id);
  }

  lemma RowStays(c: C.State, b: C.State, k: L.ExecKey, row: L.ExecRow)
    requires C.Lives(c) && C.Lives(b) && C.Grows(c, b) && RowBound(c, k, row)
    ensures RowBound(b, k, row)
  {
    hide C.Lives, C.Grows;
    var id :| RowOf(c, k, row, id);
    ViewStays(c, b, id);
    assert RowOf(b, k, row, id);
  }

  lemma EntryStays(p: Provider, validate: Validator, c: C.State, b: C.State, e: Entry)
    requires C.Lives(c) && C.Lives(b) && C.Grows(c, b) && EntryBound(p, validate, c, e)
    ensures EntryBound(p, validate, b, e)
  {
    hide C.Lives, C.Grows, Admitted;
    ViewStays(c, b, e.operation);
  }

  lemma KnownStays(p: Provider, validate: Validator, c: C.State, b: C.State, e: Executor)
    requires C.Lives(c) && C.Lives(b) && C.Grows(c, b) && Known(p, validate, c, e)
    ensures Known(p, validate, b, e)
  {
    hide C.Lives, C.Grows, C.Kept, IssuedTo, Admitted;
    match e.phase {
      case Looked(v) => KeptStays(c, b, e.actor, v);
      case Asking(v) => KeptStays(c, b, e.actor, v);
      case Refused(v) => KeptStays(c, b, e.actor, v);
      case Issuing(v, d) =>
        KeptStays(c, b, e.actor, v); IssuedStays(c, b, e.actor, d); IssuedViewStays(c, b, e.actor, d);
      case Claiming(d) => IssuedStays(c, b, e.actor, d);
      case Replaying(d, _) => IssuedStays(c, b, e.actor, d);
      case Holding(d, _) => IssuedStays(c, b, e.actor, d);
      case Dispatched(d, _) => IssuedStays(c, b, e.actor, d);
      case Handling(d, _) => IssuedStays(c, b, e.actor, d);
      case _ =>
    }
  }

  lemma IssuedViewStays(c: C.State, b: C.State, actor: Actor, d: Decision)
    requires C.Lives(c) && C.Lives(b) && C.Grows(c, b) && IssuedTo(c, actor, d)
    ensures d.operationId in c.tables.operations && d.operationId in b.tables.operations
    ensures b.tables.operations[d.operationId].view == c.tables.operations[d.operationId].view
  {
    hide C.Lives, C.Grows;
    ViewStays(c, b, d.operationId);
  }

  /* ----- Snapshots are stored ----- */

  lemma OneLife(c: C.State, a: View, b: View)
    requires C.Lives(c) && a.id == b.id && a.id in c.lives && a in c.lives[a.id] && b in c.lives[b.id]
    ensures a.expires == b.expires && (a.revision == b.revision ==> a == b)
  {
    hide Op.Life, Op.WellFormed;
    assert C.LifeOf(c, a.id);
    var h := c.lives[a.id];
    var i :| 0 <= i < |h| && h[i] == a;
    var j :| 0 <= j < |h| && h[j] == b;
    if i <= j { Op.LifeEvolves(h, i, j); } else { Op.LifeEvolves(h, j, i); }
  }

  lemma PutSnapshots(s: System, actor: Actor, v: View)
    requires C.Lives(s.core) && Snapshots(s) && C.Kept(s.core, actor, v)
    ensures Snapshots(s.(ledger := L.PutTx(s.ledger, actor, v)))
  {
    hide C.Lives;
    var t := s.(ledger := L.PutTx(s.ledger, actor, v));
    forall k <- t.ledger.preparations ensures SnapshotOk(t.core, k, t.ledger.preparations[k]) {
      if k in s.ledger.preparations {
        assert SnapshotOk(s.core, k, s.ledger.preparations[k]);
        if k == L.PrepKeyOf(actor, v.id) { OneLife(s.core, v, s.ledger.preparations[k].snapshot); }
      }
    }
  }

  lemma GripFrame(t: L.Tables, u: L.Tables, entries: seq<Entry>, e: Executor)
    requires Grip(t, entries, e) && u.executions == t.executions
    ensures Grip(u, entries, e)
  {
    hide Entered;
  }

  lemma CoreLives(c: C.State)
    requires C.Inv(c)
    ensures C.Lives(c)
  {
    hide C.Lives;
  }

  lemma PutKeeps(p: Provider, validate: Validator, s: System, actor: Actor, v: View)
    requires Inv(p, validate, s) && C.Kept(s.core, actor, v)
    ensures Inv(p, validate, s.(ledger := L.PutTx(s.ledger, actor, v)))
    ensures L.Grows(s.ledger, L.PutTx(s.ledger, actor, v))
  {
    hide C.Inv, C.Kept, C.Lives, Snapshots, Known, Grip, RowBound, RowAgrees, EntryBound;
    var t := s.(ledger := L.PutTx(s.ledger, actor, v));
    CoreLives(s.core);
    PutSnapshots(s, actor, v);
    assert t.ledger.executions == s.ledger.executions;
    forall x <- t.executors ensures Grip(t.ledger, t.entries, t.executors[x]) {
      GripFrame(s.ledger, t.ledger, s.entries, s.executors[x]);
    }
  }

  /* ----- An executor moves on ----- */

  /** A step of one executor that leaves its fence alone or drops it. */
  lemma GoKeeps(p: Provider, validate: Validator, s: System, eid: nat, phase: Phase)
    requires Inv(p, validate, s) && eid in s.executors
    requires Known(p, validate, s.core, s.executors[eid].(phase := phase))
    requires Grip(s.ledger, s.entries, s.executors[eid].(phase := phase))
    requires !Grips(s.executors[eid].(phase := phase))
    ensures Inv(p, validate, Go(s, eid, phase))
  {
    hide C.Inv, SnapshotOk, Known, Grip, RowBound, RowAgrees, EntryBound, EntryFenced;
  }

  /** What a row may become under the executor that holds it. */
  predicate Settles(a: L.ExecRow, b: L.ExecRow) {
    a.digest == b.digest && a.toolId == b.toolId && a.version == b.version && a.fence == b.fence
        && a.expires == b.expires
  }

  /** The holder of a row rewrites it and moves on. */
  lemma RowMoves(p: Provider, validate: Validator, s: System, eid: nat, d: Decision, fence: Id, row: L.ExecRow,
                 phase: Phase)
    requires Inv(p, validate, s) && eid in s.executors && Grips(s.executors[eid])
    requires s.executors[eid].phase.decision == d && s.executors[eid].phase.fence == fence
    requires L.KeyOf(s.executors[eid].actor, d) in s.ledger.executions
    requires Settles(s.ledger.executions[L.KeyOf(s.executors[eid].actor, d)], row)
    requires RowAgrees(s.entries, L.KeyOf(s.executors[eid].actor, d), row)
    requires var e, t := s.executors[eid].(phase := phase),
             s.ledger.(executions := s.ledger.executions[L.KeyOf(s.executors[eid].actor, d) := row]);
             Known(p, validate, s.core, e) && Grip(t, s.entries, e) && (Grips(e) ==> phase.fence == fence)
    ensures var k := L.KeyOf(s.executors[eid].actor, d);
            Inv(p, validate, Go(s.(ledger := s.ledger.(executions := s.ledger.executions[k := row])), eid, phase))
  {
    hide C.Inv, Known, Grip, RowAgrees, EntryBound, SnapshotOk, RowOf;
    var k := L.KeyOf(s.executors[eid].actor, d);
    var t := Go(s.(ledger := s.ledger.(executions := s.ledger.executions[k := row])), eid, phase);
    assert RowBound(s.core, k, s.ledger.executions[k]);
    RowSettles(s.core, k, s.ledger.executions[k], row);
    forall x <- t.executors ensures Grip(t.ledger, t.entries, t.executors[x]) {
      if x != eid { GripApart(s, eid, x, k, row); }
    }
  }

  lemma RowSettles(c: C.State, k: L.ExecKey, a: L.ExecRow, b: L.ExecRow)
    requires RowBound(c, k, a) && Settles(a, b)
    ensures RowBound(c, k, b)
  {
    var id :| RowOf(c, k, a, id);
    assert RowOf(c, k, b, id);
  }

  /** No other executor depends on a row that one executor holds. */
  lemma GripApart(s: System, eid: nat, x: nat, k: L.ExecKey, row: L.ExecRow)
    requires eid in s.executors && x in s.executors && x != eid
    requires Grips(s.executors[eid]) && k == L.KeyOf(s.executors[eid].actor, s.executors[eid].phase.decision)
    requires Grip(s.ledger, s.entries, s.executors[eid]) && Grip(s.ledger, s.entries, s.executors[x])
    requires Grips(s.executors[x]) ==> s.executors[x].phase.fence != s.executors[eid].phase.fence
    ensures Grip(s.ledger.(executions := s.ledger.executions[k := row]), s.entries, s.executors[x])
  {
    hide Entered;
  }

  /* ----- One step keeps the invariant ----- */

  lemma InitKeeps(p: Provider, validate: Validator)
    ensures Inv(p, validate, Init())
  {
    hide C.Inv, C.Init;
    C.InitKeeps();
  }

  lemma GetKeeps(p: Provider, validate: Validator, s: System, eid: nat, permitted: bool)
    requires Inv(p, validate, s) && eid in s.executors && s.executors[eid].phase.Begun?
    ensures Inv(p, validate, StepGet(p, validate, s, eid, permitted))
  {
    hide C.Inv, Snapshots, Executors, Rows, Entries, Inv, Bindings, Admitted, C.Kept;
    var e := s.executors[eid];
    var phase := StepGet(p, validate, s, eid, permitted).executors[eid].phase;
    if phase.Looked? {
      SnapshotSeen(p, validate, s, e);
      GetAdmits(p, validate, s, eid, permitted);
    }
    GoKeeps(p, validate, s, eid, phase);
  }

  lemma GetAdmits(p: Provider, validate: Validator, s: System, eid: nat, permitted: bool)
    requires eid in s.executors && s.executors[eid].phase.Begun?
    requires StepGet(p, validate, s, eid, permitted).executors[eid].phase.Looked?
    ensures var e, v := s.executors[eid], StepGet(p, validate, s, eid, permitted).executors[eid].phase.snapshot;
            && v.selected.Some? && v.status in {Ready, NeedsArguments, DecisionIssued}
            && Admitted(p, validate, e.actor, v.selected.value.id, e.args, e.mutation)
  {
  }

  /** A snapshot that an actor reads is a view the core gave to its context. */
  lemma SnapshotSeen(p: Provider, validate: Validator, s: System, e: Executor)
    requires Inv(p, validate, s) && L.GetTx(s.ledger, e.actor, e.operation).Ok?
    ensures var v := L.GetTx(s.ledger, e.actor, e.operation).value; C.Kept(s.core, e.actor, v) && v.id == e.operation
  {
    hide C.Inv, Executors, Rows, Entries;
    var k := L.PrepKeyOf(e.actor, e.operation);
    assert SnapshotOk(s.core, k, s.ledger.preparations[k]);
  }

  lemma LookupKeeps(p: Provider, validate: Validator, s: System, eid: nat, now: Instant)
    requires Inv(p, validate, s) && eid in s.executors && s.executors[eid].phase.Looked?
    ensures Inv(p, validate, StepLookup(s, eid, now))
  {
    hide C.Inv, C.Lives, C.Kept, Snapshots, Executors, Rows, Entries, Inv, Admitted;
    var e := s.executors[eid];
    ExecutorKnows(p, validate, s, eid);
    var t := StepLookup(s, eid, now);
    var phase := t.executors[eid].phase;
    GoKeeps(p, validate, s, eid, phase);
  }

  lemma ExecutorKnows(p: Provider, validate: Validator, s: System, eid: nat)
    requires Inv(p, validate, s) && eid in s.executors
    ensures C.Inv(s.core) && Known(p, validate, s.core, s.executors[eid]) && Grip(s.ledger, s.entries, s.executors[eid])
  {
    hide C.Inv, Known, Grip, Snapshots, Rows, Entries;
  }

  lemma AnswerTrue(p: Provider, validate: Validator, s: System, eid: nat, pid: nat)
    requires Inv(p, validate, s) && eid in s.executors && s.executors[eid].phase.Asking? && Answers(s, eid, pid)
    requires s.core.workers[pid].phase.result.Ok?
    ensures var e, body := s.executors[eid], s.core.workers[pid].phase.result.value.body;
            && (body.ViewResponse? ==> C.Kept(s.core, e.actor, body.view))
            && (body.DecisionResponse?
                ==> C.Lives(s.core) && Ordered(s.core, e.actor, e.operation, e.args, body.decision))
  {
    hide Executors, Snapshots, Entries, Rows, C.Fences, C.OncePerKey, C.Bundles, C.KeysDistinct, C.ChoicesKnown;
    var e, w := s.executors[eid], s.core.workers[pid];
    var reply := w.phase.result.value;
    assert C.Answered(s.core, w.request, w.key, reply);
    var i :| 0 <= i < |s.core.log| && s.core.log[i].request == w.request && s.core.log[i].key == w.key
        && s.core.log[i].reply == reply;
    assert C.Truthful(s.core, s.core.log[i]);
    if reply.body.DecisionResponse? { C.StoredWellFormed(s.core, e.operation); }
  }

  lemma CoreStepKeeps(p: Provider, validate: Validator, s: System, step: C.Label)
    requires Inv(p, validate, s)
    ensures Inv(p, validate, s.(core := C.Step(validate, s.core, step)))
  {
    hide C.Inv, C.Grows, C.Step, Snapshots, Executors, Rows, Entries;
    C.StepKeeps(validate, s.core, step);
    C.StepGrows(validate, s.core, step);
    CoreKeeps(p, validate, s, C.Step(validate, s.core, step));
  }

  lemma ReceiveKeeps(p: Provider, validate: Validator, s: System, eid: nat, pid: nat)
    requires Inv(p, validate, s) && eid in s.executors && s.executors[eid].phase.Asking? && Answers(s, eid, pid)
    ensures Inv(p, validate, StepReceive(s, eid, pid))
  {
    hide C.Inv, C.Lives, C.Kept, Snapshots, Executors, Rows, Entries, Inv, Admitted, Matches, LocalIssued, IssuedTo;
    var e := s.executors[eid];
    ExecutorKnows(p, validate, s, eid);
    var phase := StepReceive(s, eid, pid).executors[eid].phase;
    if s.core.workers[pid].phase.result.Ok? {
      AnswerTrue(p, validate, s, eid, pid);
      if phase.Issuing? {
        LocalViewIsStored(s.core, e.actor, phase.snapshot, phase.decision, e.args);
        MatchesTool(phase.snapshot, phase.decision, e.args);
      }
    }
    GoKeeps(p, validate, s, eid, phase);
  }

  lemma MatchesTool(v: View, d: Decision, args: Args)
    requires v.selected.Some? && Matches(v, v.selected.value, d, args)
    ensures d.toolId == v.selected.value.id
  {
  }

  lemma RefusalKeeps(p: Provider, validate: Validator, s: System, eid: nat, ending: Ending)
    requires Inv(p, validate, s) && eid in s.executors && s.executors[eid].phase.Refused? && !ending.Business?
    ensures var v := s.executors[eid].phase.view;
            Inv(p, validate, Go(s.(ledger := L.PutTx(s.ledger, s.executors[eid].actor, v)), eid, Done(ending)))
  {
    hide C.Inv, C.Lives, C.Kept, L.PutTx, Snapshots, Executors, Rows, Entries, Inv;
    var e := s.executors[eid];
    ExecutorKnows(p, validate, s, eid);
    PutKeeps(p, validate, s, e.actor, e.phase.view);
    GoKeeps(p, validate, s.(ledger := L.PutTx(s.ledger, e.actor, e.phase.view)), eid, Done(ending));
  }

  lemma StoreIssuedKeeps(p: Provider, validate: Validator, s: System, eid: nat, now: Instant, permitted: bool,
                         lost: bool)
    requires Inv(p, validate, s) && eid in s.executors && s.executors[eid].phase.Issuing?
    ensures Inv(p, validate, StepStoreIssued(s, eid, now, permitted, lost))
  {
    hide C.Inv, L.PutTx, Snapshots, Executors, Rows, Entries, Inv, Admitted, LocalIssued, IssuedTo;
    var e := s.executors[eid];
    ExecutorKnows(p, validate, s, eid);
    IssuedIsKept(p, validate, s.core, e);
    var v := LocalIssued(e.phase.snapshot, e.phase.decision);
    PutKeeps(p, validate, s, e.actor, v);
    GoKeeps(p, validate, s.(ledger := L.PutTx(s.ledger, e.actor, v)), eid,
            StepStoreIssued(s, eid, now, permitted, lost).executors[eid].phase);
  }

  lemma IssuedIsKept(p: Provider, validate: Validator, c: C.State, e: Executor)
    requires C.Inv(c) && e.phase.Issuing? && Known(p, validate, c, e)
    ensures C.Kept(c, e.actor, LocalIssued(e.phase.snapshot, e.phase.decision))
  {
    hide C.Fences, C.OncePerKey, C.RepliesPublished, C.Bundles, C.KeysDistinct, C.AnswersTruthful, C.ChoicesKnown,
         Admitted, Op.Life, LocalIssued, Op.WellFormed;
    assert C.LifeOf(c, e.operation);
    Op.LifeHasStart(c.lives[e.operation]);
    Op.LifeEvolves(c.lives[e.operation], 0, |c.lives[e.operation]| - 1);
    C.StoredWellFormed(c, e.operation);
  }

  lemma RepeatKeeps(p: Provider, validate: Validator, s: System, eid: nat, permitted: bool)
    requires Inv(p, validate, s) && eid in s.executors && s.executors[eid].phase.Replaying?
    ensures var e := s.executors[eid];
            Inv(p, validate,
                Go(s, eid, Done(if permitted then Business(L.KeyOf(e.actor, e.phase.decision), e.phase.result)
                                             else Thrown("TOOL_NOT_ALLOWED"))))
  {
    hide C.Inv, Snapshots, Executors, Rows, Entries, Inv;
    var e := s.executors[eid];
    ExecutorKnows(p, validate, s, eid);
    GoKeeps(p, validate, s, eid, Done(if permitted then Business(L.KeyOf(e.actor, e.phase.decision), e.phase.result)
                                      else Thrown("TOOL_NOT_ALLOWED")));
  }

  /* ----- Claims and dispatches ----- */

  /** A fresh row for an execution that nothing has claimed, for one claiming executor. */
  predicate Claims(s: System, t: System, eid: nat, row: L.ExecRow, phase: Phase) {
    && eid in s.executors && s.executors[eid].phase.Claiming?
    && var e, d := s.executors[eid], s.executors[eid].phase.decision;
       var k := L.KeyOf(e.actor, d);
       && k !in s.ledger.executions
       && row.digest == d.argumentsDigest && row.toolId == d.toolId && row.version == d.version
       && row.state == L.Claimed && row.fence == s.next && row.result.None?
       && (phase == Holding(d, s.next) || phase == Done(Thrown("STORE_UNAVAILABLE")))
       && t == Go(s.(ledger := s.ledger.(executions := s.ledger.executions[k := row]), next := s.next + 1), eid, phase)
  }

  lemma NewRowKeeps(p: Provider, validate: Validator, s: System, t: System, eid: nat, row: L.ExecRow, phase: Phase)
    requires Inv(p, validate, s) && Claims(s, t, eid, row, phase)
    ensures Inv(p, validate, t)
  {
    hide C.Inv, Executors, Rows, Entries, SnapshotOk;
    NewRowExecutors(p, validate, s, t, eid, row, phase);
    NewRowRows(p, validate, s, t, eid, row, phase);
    NewRowEntries(p, validate, s, t, eid, row, phase);
  }

  lemma NewRowExecutors(p: Provider, validate: Validator, s: System, t: System, eid: nat, row: L.ExecRow, phase: Phase)
    requires Executors(p, validate, s) && Rows(s) && Claims(s, t, eid, row, phase)
    ensures Executors(p, validate, t)
  {
    hide Rows, Admitted, RowBound, RowAgrees, Entered, Ordered, Seen;
    var k := L.KeyOf(s.executors[eid].actor, s.executors[eid].phase.decision);
    assert Known(p, validate, s.core, s.executors[eid]);
    forall x <- t.executors
      ensures Known(p, validate, t.core, t.executors[x]) && Grip(t.ledger, t.entries, t.executors[x])
    {
      assert Known(p, validate, s.core, s.executors[x]) && Grip(s.ledger, s.entries, s.executors[x]);
    }
    forall x | x in s.executors && Grips(s.executors[x]) ensures s.executors[x].phase.fence < s.next {
      GripFence(p, validate, s, x);
    }
  }

  lemma GripFence(p: Provider, validate: Validator, s: System, x: nat)
    requires Executors(p, validate, s) && Rows(s) && x in s.executors && Grips(s.executors[x])
    ensures s.executors[x].phase.fence < s.next
  {
    hide Known, RowBound, RowAgrees, Entered;
    assert Grip(s.ledger, s.entries, s.executors[x]);
  }

  lemma NewRowRows(p: Provider, validate: Validator, s: System, t: System, eid: nat, row: L.ExecRow, phase: Phase)
    requires Executors(p, validate, s) && Rows(s) && Entries(p, validate, s) && Claims(s, t, eid, row, phase)
    ensures Rows(t)
  {
    hide Executors, Entries, Admitted, RowBound, Entered, IssuedTo;
    var e, d := s.executors[eid], s.executors[eid].phase.decision;
    ClaimerOrdered(p, validate, s, eid);
    ClaimBound(s.core, e, d, row);
    Unentered(p, validate, s, L.KeyOf(e.actor, d));
  }

  lemma ClaimerOrdered(p: Provider, validate: Validator, s: System, eid: nat)
    requires Executors(p, validate, s) && eid in s.executors && s.executors[eid].phase.Claiming?
    ensures var e := s.executors[eid]; Ordered(s.core, e.actor, e.operation, e.args, e.phase.decision)
  {
    hide Grip, Ordered;
    assert Known(p, validate, s.core, s.executors[eid]);
  }

  lemma NewRowEntries(p: Provider, validate: Validator, s: System, t: System, eid: nat, row: L.ExecRow, phase: Phase)
    requires Entries(p, validate, s) && Claims(s, t, eid, row, phase)
    ensures Entries(p, validate, t)
  {
    hide EntryBound;
    forall i | 0 <= i < |t.entries| ensures EntryFenced(t.ledger, t.entries[i]) {
      assert EntryFenced(s.ledger, s.entries[i]);
    }
  }

  lemma ClaimBound(c: C.State, e: Executor, d: Decision, row: L.ExecRow)
    requires Ordered(c, e.actor, e.operation, e.args, d) && row.digest == d.argumentsDigest && row.toolId == d.toolId
             && row.version == d.version
    ensures RowBound(c, L.KeyOf(e.actor, d), row)
  {
    assert RowOf(c, L.KeyOf(e.actor, d), row, d.operationId);
  }

  lemma Unentered(p: Provider, validate: Validator, s: System, k: L.ExecKey)
    requires Entries(p, validate, s) && k !in s.ledger.executions
    ensures !Entered(s.entries, k)
  {
    hide EntryBound;
    forall i | 0 <= i < |s.entries| ensures s.entries[i].key != k { assert EntryFenced(s.ledger, s.entries[i]); }
  }

  lemma ClaimKeeps(p: Provider, validate: Validator, s: System, eid: nat, now: Instant, lost: bool)
    requires Inv(p, validate, s) && eid in s.executors && s.executors[eid].phase.Claiming?
    ensures Inv(p, validate, StepClaim(s, eid, now, lost))
  {
    hide C.Inv, Snapshots, Executors, Rows, Entries, Inv, Ordered, Admitted;
    var e, d := s.executors[eid], s.executors[eid].phase.decision;
    var t := StepClaim(s, eid, now, lost);
    var phase := t.executors[eid].phase;
    var k := L.KeyOf(e.actor, d);
    if k !in s.ledger.executions {
      NewRowKeeps(p, validate, s, t, eid, t.ledger.executions[k], phase);
    } else {
      ExecutorKnows(p, validate, s, eid);
      NextKeeps(p, validate, s);
      GoKeeps(p, validate, s.(next := s.next + 1), eid, phase);
    }
  }

  lemma NextKeeps(p: Provider, validate: Validator, s: System)
    requires Inv(p, validate, s)
    ensures Inv(p, validate, s.(next := s.next + 1))
  {
    hide C.Inv, Known, Grip, SnapshotOk, EntryBound, EntryFenced, RowBound, RowAgrees;
  }

  lemma DispatchKeeps(p: Provider, validate: Validator, s: System, eid: nat, now: Instant, aborted: bool, lost: bool)
    requires Inv(p, validate, s) && eid in s.executors && s.executors[eid].phase.Holding?
    ensures Inv(p, validate, StepDispatch(s, eid, now, aborted, lost))
  {
    hide C.Inv, Snapshots, Executors, Rows, Entries, Inv, Ordered, Admitted, RowBound;
    var e, d, fence := s.executors[eid], s.executors[eid].phase.decision, s.executors[eid].phase.fence;
    var t := StepDispatch(s, eid, now, aborted, lost);
    var k := L.KeyOf(e.actor, d);
    ExecutorKnows(p, validate, s, eid);
    RowKnown(p, validate, s, k);
    RowMoves(p, validate, s, eid, d, fence, t.ledger.executions[k], t.executors[eid].phase);
  }

  lemma RowKnown(p: Provider, validate: Validator, s: System, k: L.ExecKey)
    requires Inv(p, validate, s) && k in s.ledger.executions
    ensures RowAgrees(s.entries, k, s.ledger.executions[k]) && RowBound(s.core, k, s.ledger.executions[k])
  {
    hide C.Inv, Executors, Snapshots, Entries, RowAgrees, RowBound;
  }

  lemma FinishKeeps(p: Provider, validate: Validator, s: System, eid: nat, result: Option<L.Payload>, applied: bool,
                    lost: bool)
    requires Inv(p, validate, s) && eid in s.executors && s.executors[eid].phase.Handling?
    ensures Inv(p, validate, StepFinish(s, eid, result, applied, lost))
  {
    hide C.Inv, Snapshots, Executors, Rows, Entries, Inv, Ordered, Admitted, RowBound;
    var e, d, fence := s.executors[eid], s.executors[eid].phase.decision, s.executors[eid].phase.fence;
    var t := StepFinish(s, eid, result, applied, lost);
    var k := L.KeyOf(e.actor, d);
    ExecutorKnows(p, validate, s, eid);
    if applied {
      RowKnown(p, validate, s, k);
      RowMoves(p, validate, s, eid, d, fence, t.ledger.executions[k], t.executors[eid].phase);
    } else {
      GoKeeps(p, validate, s, eid, t.executors[eid].phase);
    }
  }

  /* ----- The handler is entered ----- */

  lemma EnterKeeps(p: Provider, validate: Validator, s: System, eid: nat)
    requires Inv(p, validate, s) && eid in s.executors && s.executors[eid].phase.Dispatched?
    ensures Inv(p, validate, StepEnter(s, eid))
  {
    hide C.Inv, SnapshotOk, Executors, Rows, Entries;
    EnterExecutors(p, validate, s, eid);
    EnterRows(p, validate, s, eid);
    EnterEntries(p, validate, s, eid);
  }

  lemma EnterExecutors(p: Provider, validate: Validator, s: System, eid: nat)
    requires Executors(p, validate, s) && eid in s.executors && s.executors[eid].phase.Dispatched?
    ensures Executors(p, validate, StepEnter(s, eid))
  {
    hide Admitted, Ordered, Seen, Entered, Fenced;
    var t := StepEnter(s, eid);
    var k := L.KeyOf(s.executors[eid].actor, s.executors[eid].phase.decision);
    EnteredNow(s.entries, t.entries[|s.entries|]);
    forall x <- t.executors
      ensures Known(p, validate, t.core, t.executors[x]) && Grip(t.ledger, t.entries, t.executors[x])
    {
      assert Known(p, validate, s.core, s.executors[x]) && Grip(s.ledger, s.entries, s.executors[x]);
      if x != eid && s.executors[x].phase.Dispatched? { OtherKey(p, validate, s, eid, x); }
    }
  }

  lemma EnteredNow(entries: seq<Entry>, e: Entry)
    ensures Entered(entries + [e], e.key)
    ensures forall k :: k != e.key ==> (Entered(entries + [e], k) <==> Entered(entries, k))
  {
    var longer := entries + [e];
    assert longer[|entries|] == e;
    forall k | k != e.key ensures Entered(longer, k) <==> Entered(entries, k) {
      if Entered(entries, k) {
        var i :| 0 <= i < |entries| && entries[i].key == k;
        assert longer[i].key == k;
      }
    }
  }

  lemma OtherKey(p: Provider, validate: Validator, s: System, x: nat, y: nat)
    requires Executors(p, validate, s) && x in s.executors && y in s.executors && x != y
    requires Grips(s.executors[x]) && Grips(s.executors[y])
    ensures L.KeyOf(s.executors[x].actor, s.executors[x].phase.decision) !=
            L.KeyOf(s.executors[y].actor, s.executors[y].phase.decision)
  {
    hide Known, Entered;
    assert Grip(s.ledger, s.entries, s.executors[x]) && Grip(s.ledger, s.entries, s.executors[y]);
  }

  lemma EnterRows(p: Provider, validate: Validator, s: System, eid: nat)
    requires Executors(p, validate, s) && Rows(s) && eid in s.executors && s.executors[eid].phase.Dispatched?
    ensures Rows(StepEnter(s, eid))
  {
    hide Known, RowBound, Entered;
    var t := StepEnter(s, eid);
    EnteredNow(s.entries, t.entries[|s.entries|]);
    assert Grip(s.ledger, s.entries, s.executors[eid]);
    forall k <- t.ledger.executions ensures RowAgrees(t.entries, k, t.ledger.executions[k]) {
      assert RowAgrees(s.entries, k, s.ledger.executions[k]);
    }
  }

  lemma EnterEntries(p: Provider, validate: Validator, s: System, eid: nat)
    requires Executors(p, validate, s) && Entries(p, validate, s) && eid in s.executors
             && s.executors[eid].phase.Dispatched?
    ensures Entries(p, validate, StepEnter(s, eid))
  {
    hide Admitted;
    var t := StepEnter(s, eid);
    assert Known(p, validate, s.core, s.executors[eid]) && Grip(s.ledger, s.entries, s.executors[eid]);
    forall i | 0 <= i < |t.entries|
      ensures EntryBound(p, validate, t.core, t.entries[i]) && EntryFenced(t.ledger, t.entries[i])
    {
      if i < |s.entries| {
        assert EntryBound(p, validate, s.core, s.entries[i]) && EntryFenced(s.ledger, s.entries[i]);
      }
    }
  }

  /* ----- Whole runs ----- */

  lemma ReplyKept(c: C.State, pid: nat, v: View)
    requires C.Inv(c) && pid in c.workers && c.workers[pid].phase.Replied? && c.workers[pid].phase.result.Ok?
    requires v in C.ViewsIn(c.workers[pid].phase.result.value.body)
    ensures C.Kept(c, c.workers[pid].request.actor, v)
  {
    hide C.Fences, C.OncePerKey, C.Bundles, C.KeysDistinct, C.ChoicesKnown, C.Lives;
    var w := c.workers[pid];
    var reply := w.phase.result.value;
    assert C.Answered(c, w.request, w.key, reply);
    var i :| 0 <= i < |c.log| && c.log[i].request == w.request && c.log[i].key == w.key && c.log[i].reply == reply;
    assert C.Truthful(c, c.log[i]);
  }

  lemma StoreReplyKeeps(p: Provider, validate: Validator, s: System, pid: nat, v: View)
    requires Inv(p, validate, s)
    requires pid in s.core.workers && s.core.workers[pid].phase.Replied? && s.core.workers[pid].phase.result.Ok?
    requires v in C.ViewsIn(s.core.workers[pid].phase.result.value.body)
    ensures Inv(p, validate, s.(ledger := L.PutTx(s.ledger, s.core.workers[pid].request.actor, v)))
  {
    hide C.Inv, C.Kept, L.PutTx, Snapshots, Executors, Rows, Entries;
    ReplyKept(s.core, pid, v);
    PutKeeps(p, validate, s, s.core.workers[pid].request.actor, v);
  }

  lemma BeginKeeps(p: Provider, validate: Validator, s: System, eid: nat, e: Executor)
    requires Inv(p, validate, s) && eid !in s.executors && e.phase.Begun?
    ensures Inv(p, validate, s.(executors := s.executors[eid := e]))
  {
    hide C.Inv, SnapshotOk, EntryBound, EntryFenced, RowBound, RowAgrees, Seen, Ordered, Admitted, Fenced, Entered;
    var t := s.(executors := s.executors[eid := e]);
    forall x <- t.executors
      ensures Known(p, validate, t.core, t.executors[x]) && Grip(t.ledger, t.entries, t.executors[x])
    {
      assert x != eid ==> Known(p, validate, s.core, s.executors[x]) && Grip(s.ledger, s.entries, s.executors[x]);
    }
  }

  lemma DieKeeps(p: Provider, validate: Validator, s: System, eid: nat)
    requires Inv(p, validate, s)
    ensures Inv(p, validate, s.(executors := s.executors - {eid}))
  {
    hide C.Inv, SnapshotOk, EntryBound, EntryFenced, RowBound, RowAgrees, Known, Grip;
  }

  lemma StepKeeps(p: Provider, validate: Validator, s: System, l: Label)
    requires Inv(p, validate, s)
    ensures Inv(p, validate, Step(p, validate, s, l))
  {
    hide Inv, C.Step, L.PutTx, C.ViewsIn, Answers,
         StepGet, StepLookup, StepReceive, StepStoreIssued, StepClaim, StepDispatch, StepEnter, StepFinish;
    match l {
      case CoreStep(step) => CoreStepKeeps(p, validate, s, step);
      case StoreReply(pid, index) =>
        if pid in s.core.workers && s.core.workers[pid].phase.Replied? && s.core.workers[pid].phase.result.Ok?
           && index < |C.ViewsIn(s.core.workers[pid].phase.result.value.body)| {
          StoreReplyKeeps(p, validate, s, pid, C.ViewsIn(s.core.workers[pid].phase.result.value.body)[index]);
        }
      case Begin(eid, actor, operation, revision, args, mutation) =>
        if eid !in s.executors {
          BeginKeeps(p, validate, s, eid, Executor(actor, operation, revision, args, mutation, Begun));
        }
      case Die(eid) => DieKeeps(p, validate, s, eid);
      case _ => if l.eid in s.executors { ExecutorStepKeeps(p, validate, s, l); }
    }
  }

  lemma ExecutorStepKeeps(p: Provider, validate: Validator, s: System, l: Label)
    requires Inv(p, validate, s)
    requires !l.CoreStep? && !l.StoreReply? && !l.Begin? && !l.Die? && l.eid in s.executors
    ensures Inv(p, validate, Step(p, validate, s, l))
  {
    hide Inv, C.Step, L.PutTx, Answers,
         StepGet, StepLookup, StepReceive, StepStoreIssued, StepClaim, StepDispatch, StepEnter, StepFinish;
    var e := s.executors[l.eid];
    match l {
      case GetSnapshot(eid, permitted) => if e.phase.Begun? { GetKeeps(p, validate, s, eid, permitted); }
      case Lookup(eid, now) => if e.phase.Looked? { LookupKeeps(p, validate, s, eid, now); }
      case Ask(eid, pid) =>
        if e.phase.Asking? {
          CoreStepKeeps(p, validate, s,
                        C.Arrive(pid, DecideRequest(e, e.phase.snapshot), DecideToken(e, e.phase.snapshot)));
        }
      case Receive(eid, pid) => if e.phase.Asking? && Answers(s, eid, pid) { ReceiveKeeps(p, validate, s, eid, pid); }
      case StoreRefusal(eid, lost) =>
        if e.phase.Refused? {
          RefusalKeeps(p, validate, s, eid, if lost then Thrown("STORE_UNAVAILABLE") else Incomplete(e.phase.view));
        }
      case StoreIssued(eid, now, permitted, lost) =>
        if e.phase.Issuing? { StoreIssuedKeeps(p, validate, s, eid, now, permitted, lost); }
      case Claim(eid, now, lost) => if e.phase.Claiming? { ClaimKeeps(p, validate, s, eid, now, lost); }
      case Repeat(eid, permitted) => if e.phase.Replaying? { RepeatKeeps(p, validate, s, eid, permitted); }
      case Dispatch(eid, now, aborted, lost) => if e.phase.Holding? {
        DispatchKeeps(p, validate, s, eid, now, aborted, lost);
      }
      case Enter(eid) => if e.phase.Dispatched? { EnterKeeps(p, validate, s, eid); }
      case Finish(eid, result, applied, lost) =>
        if e.phase.Handling? { FinishKeeps(p, validate, s, eid, result, applied, lost); }
    }
  }

  /** The invariant holds after every run of the whole protocol. */
  lemma {:induction false} RunKeeps(p: Provider, validate: Validator, labels: seq<Label>)
    ensures Inv(p, validate, Run(p, validate, labels))
  {
    hide Inv, Step, Init;
    if labels == [] {
      InitKeeps(p, validate);
    } else {
      var front := labels[..|labels| - 1];
      RunKeeps(p, validate, front);
      StepKeeps(p, validate, Run(p, validate, front), labels[|labels| - 1]);
    }
  }

  /** Nothing in the ledger, among the handler entries or among the answers is ever taken back. */
  predicate Onward(s: System, t: System) {
    && L.Grows(s.ledger, t.ledger) && s.entries <= t.entries
    && forall x <- s.executors :: s.executors[x].phase.Done? ==> x in t.executors && t.executors[x] == s.executors[x]
  }

  lemma OnwardTransitive(s: System, t: System, u: System)
    requires Onward(s, t) && Onward(t, u)
    ensures Onward(s, u)
  {
    hide L.Grows;
    L.GrowsTransitive(s.ledger, t.ledger, u.ledger);
  }

  /** An executor that is not done moves on while the ledger and the entries only grow. */
  lemma MoveOnward(s: System, t: System, eid: nat)
    requires L.Grows(s.ledger, t.ledger) && s.entries <= t.entries
    requires eid in s.executors && !s.executors[eid].phase.Done?
    requires forall x <- s.executors :: x != eid ==> x in t.executors && t.executors[x] == s.executors[x]
    ensures Onward(s, t)
  {
    hide L.Grows;
  }

  lemma StepOnward(p: Provider, validate: Validator, s: System, l: Label)
    ensures Onward(s, Step(p, validate, s, l))
  {
    hide C.Step, C.ViewsIn, Answers, L.Grows, L.PutTx,
         StepGet, StepLookup, StepReceive, StepStoreIssued, StepClaim, StepDispatch, StepEnter, StepFinish;
    L.Unchanged(s.ledger);
    match l {
      case StoreReply(pid, index) =>
        if pid in s.core.workers && s.core.workers[pid].phase.Replied? && s.core.workers[pid].phase.result.Ok?
           && index < |C.ViewsIn(s.core.workers[pid].phase.result.value.body)| {
          L.PutGrows(s.ledger, s.core.workers[pid].request.actor,
                     C.ViewsIn(s.core.workers[pid].phase.result.value.body)[index]);
        }
      case CoreStep(_) =>
      case Begin(_, _, _, _, _, _) =>
      case Ask(_, _) =>
      case Die(_) =>
      case _ => if l.eid in s.executors { ExecutorOnward(p, validate, s, l); }
    }
  }

  lemma ExecutorOnward(p: Provider, validate: Validator, s: System, l: Label)
    requires !l.CoreStep? && !l.StoreReply? && !l.Begin? && !l.Ask? && !l.Die? && l.eid in s.executors
    ensures Onward(s, Step(p, validate, s, l))
  {
    hide C.Step, Answers, Onward, L.Grows, L.PutTx, L.GetTx, L.ReplayTx, L.ClaimTx, L.DispatchTx, L.TerminalTx,
         Bindings, Matches, LocalIssued;
    var e := s.executors[l.eid];
    var t := Step(p, validate, s, l);
    if t == s {
      Still(s);
    } else {
      LedgerOnward(p, validate, s, l);
      MoveOnward(s, t, l.eid);
    }
  }

  lemma LedgerOnward(p: Provider, validate: Validator, s: System, l: Label)
    requires !l.CoreStep? && !l.StoreReply? && !l.Begin? && !l.Ask? && !l.Die? && l.eid in s.executors
    ensures L.Grows(s.ledger, Step(p, validate, s, l).ledger)
  {
    hide C.Step, Answers, L.Grows, L.PutTx, L.GetTx, L.ReplayTx, L.ClaimTx, L.DispatchTx, L.TerminalTx, Bindings,
         Matches, LocalIssued;
    L.Unchanged(s.ledger);
    var e := s.executors[l.eid];
    match l {
      case StoreRefusal(_, _) => if e.phase.Refused? { L.PutGrows(s.ledger, e.actor, e.phase.view); }
      case StoreIssued(_, _, _, _) =>
        if e.phase.Issuing? { L.PutGrows(s.ledger, e.actor, LocalIssued(e.phase.snapshot, e.phase.decision)); }
      case Claim(_, now, _) => if e.phase.Claiming? { L.ClaimGrows(s.ledger, e.actor, e.phase.decision, s.next, now); }
      case Dispatch(_, _, _, _) =>
        if e.phase.Holding? {
          L.DispatchGrows(s.ledger, e.actor, e.phase.decision, e.phase.fence);
          L.TerminalGrows(s.ledger, e.actor, e.phase.decision, e.phase.fence, L.FailedBeforeDispatch, None);
        }
      case Finish(_, result, _, _) =>
        if e.phase.Handling? {
          forall state | L.Terminal(state) {
            L.TerminalGrows(s.ledger, e.actor, e.phase.decision, e.phase.fence, state, result);
          }
        }
      case _ =>
    }
  }

  lemma {:induction false} RunOnward(p: Provider, validate: Validator, labels: seq<Label>, i: nat)
    requires i <= |labels|
    ensures Onward(Run(p, validate, labels[..i]), Run(p, validate, labels))
    decreases |labels|
  {
    hide Inv, Step, Onward;
    if i == |labels| {
      assert labels[..i] == labels;
      Still(Run(p, validate, labels));
    } else {
      var front := labels[..|labels| - 1];
      assert front[..i] == labels[..i];
      RunOnward(p, validate, front, i);
      StepOnward(p, validate, Run(p, validate, front), labels[|labels| - 1]);
      OnwardTransitive(Run(p, validate, labels[..i]), Run(p, validate, front), Run(p, validate, labels));
    }
  }

  lemma Still(s: System)
    ensures Onward(s, s)
  {
  }

  /* ----- Main results ----- */

  lemma EntriesApart(p: Provider, validate: Validator, s: System, i: nat, j: nat)
    requires Entries(p, validate, s) && i < j < |s.entries|
    ensures s.entries[i].operation != s.entries[j].operation
  {
    hide Admitted;
    assert EntryBound(p, validate, s.core, s.entries[i]) && EntryBound(p, validate, s.core, s.entries[j]);
  }

  /** One decision per operation and one fence per execution key make at most one handler entry per operation,
      whoever asks, however often, and whatever crashes or gets lost. */
  lemma HandlerEnteredOnce(p: Provider, validate: Validator, labels: seq<Label>)
    ensures var s := Run(p, validate, labels);
            forall i, j :: 0 <= i < j < |s.entries| ==> s.entries[i].operation != s.entries[j].operation
  {
    hide Run, C.Inv, Snapshots, Executors, Rows, Entries;
    RunKeeps(p, validate, labels);
    var s := Run(p, validate, labels);
    forall i, j | 0 <= i < j < |s.entries| ensures s.entries[i].operation != s.entries[j].operation {
      EntriesApart(p, validate, s, i, j);
    }
  }

  /** The handler runs only with the arguments whose digest the core bound to the operation, on the bound tool,
      for an actor allowed to use it, and those arguments satisfy the provider's own schema. */
  lemma HandlerEnteredAsDecided(p: Provider, validate: Validator, labels: seq<Label>, i: nat)
    requires i < |Run(p, validate, labels).entries|
    ensures var s := Run(p, validate, labels);
            var e := s.entries[i];
            && e.operation in s.core.tables.operations
            && var view := s.core.tables.operations[e.operation].view;
               && view.status == DecisionIssued && view.decision.Some?
               && view.decision.value.argumentsDigest == Sha256(e.args) && view.decision.value.toolId == e.toolId
               && e.key == L.KeyOf(e.actor, view.decision.value)
               && Admitted(p, validate, e.actor, e.toolId, e.args, e.mutation)
               && e.key in s.ledger.executions
               && var row := s.ledger.executions[e.key];
                  && row.fence == e.fence && row.digest == Sha256(e.args) && row.toolId == e.toolId
                  && row.state != L.Claimed && row.state != L.FailedBeforeDispatch
  {
    hide Run, Snapshots, Executors, Admitted, C.Fences, C.OncePerKey, C.RepliesPublished, C.Bundles, C.Lives,
         C.AnswersTruthful, C.ChoicesKnown;
    RunKeeps(p, validate, labels);
    var s := Run(p, validate, labels);
    var e := s.entries[i];
    assert EntryBound(p, validate, s.core, e) && EntryFenced(s.ledger, e);
    assert RowAgrees(s.entries, e.key, s.ledger.executions[e.key]) && Entered(s.entries, e.key);
    OneRowPerDecision(s.core, e.key, s.ledger.executions[e.key], e.operation);
  }

  /** The row under a decision's execution key is about that decision. */
  lemma OneRowPerDecision(c: C.State, k: L.ExecKey, row: L.ExecRow, id: Id)
    requires C.KeysDistinct(c) && RowBound(c, k, row) && id in c.tables.operations
    requires var d := c.tables.operations[id].view.decision; d.Some? && d.value.executionKey == k.key
    ensures RowOf(c, k, row, id)
  {
    var other :| RowOf(c, k, row, other);
    assert other != id ==> C.KeysApart(c, other, id);
  }

  /** A decision that the core issued never meets a row of different arguments, tool or version. */
  lemma ExecutionsNeverConflict(p: Provider, validate: Validator, labels: seq<Label>, actor: Actor, d: Decision,
                                fence: Id, now: Instant)
    requires IssuedTo(Run(p, validate, labels).core, actor, d)
    ensures var ledger := Run(p, validate, labels).ledger;
            && L.ClaimTx(ledger, actor, d, fence, now).1 != Err("EXECUTION_CONFLICT")
            && L.ReplayTx(ledger, actor, d, now) != Some(Err("EXECUTION_CONFLICT"))
  {
    hide Run, Snapshots, Executors, Entries, RowAgrees, C.Fences, C.OncePerKey, C.RepliesPublished, C.Bundles, C.Lives,
         C.AnswersTruthful, C.ChoicesKnown;
    RunKeeps(p, validate, labels);
    var s := Run(p, validate, labels);
    var k := L.KeyOf(actor, d);
    if k in s.ledger.executions {
      OneRowPerDecision(s.core, k, s.ledger.executions[k], d.operationId);
    }
  }

  /** An execution that ended before dispatch was never entered and never will be. */
  lemma FailedBeforeDispatchIsFinal(p: Provider, validate: Validator, labels: seq<Label>, i: nat, k: L.ExecKey)
    requires i <= |labels| && k in Run(p, validate, labels[..i]).ledger.executions
    requires Run(p, validate, labels[..i]).ledger.executions[k].state == L.FailedBeforeDispatch
    ensures !Entered(Run(p, validate, labels).entries, k)
  {
    hide Run, C.Inv, Snapshots, Executors, Entries, RowBound, Entered;
    RunOnward(p, validate, labels, i);
    RunKeeps(p, validate, labels);
    var s, t := Run(p, validate, labels[..i]), Run(p, validate, labels);
    assert L.Advances(s.ledger.executions[k], t.ledger.executions[k]);
    assert RowAgrees(t.entries, k, t.ledger.executions[k]);
  }

  /** Until a dispatch is recorded the handler has not been entered; once an outcome is recorded it has,
      and the outcome stays for the rest of the run. */
  lemma LedgerTellsTheHandler(p: Provider, validate: Validator, labels: seq<Label>, i: nat, k: L.ExecKey)
    requires i <= |labels| && k in Run(p, validate, labels[..i]).ledger.executions
    ensures var s, t := Run(p, validate, labels[..i]), Run(p, validate, labels);
            var row := s.ledger.executions[k];
            && k in t.ledger.executions
            && (row.state == L.Claimed ==> !Entered(s.entries, k))
            && (row.state in {L.Succeeded, L.FailedAfterDispatch, L.Uncertain} ==> Entered(s.entries, k))
            && (row.result.Some? <==> row.state in {L.Succeeded, L.FailedAfterDispatch})
            && (L.Terminal(row.state) ==> t.ledger.executions[k] == row)
  {
    hide Run, C.Inv, Snapshots, Executors, Entries, RowBound, Entered;
    RunOnward(p, validate, labels, i);
    RunKeeps(p, validate, labels[..i]);
    var s, t := Run(p, validate, labels[..i]), Run(p, validate, labels);
    assert RowAgrees(s.entries, k, s.ledger.executions[k]);
    assert L.Advances(s.ledger.executions[k], t.ledger.executions[k]);
  }

  /** Whatever business result any caller got at any time, first run or replay, is the one on record for its
      execution at every later time, so two callers of one execution never see two results. */
  lemma ResultsAreRecorded(p: Provider, validate: Validator, labels: seq<Label>, i: nat, x: nat, y: nat)
    requires i <= |labels|
    requires var s := Run(p, validate, labels[..i]);
             x in s.executors && s.executors[x].phase.Done? && s.executors[x].phase.ending.Business?
    ensures var s, t := Run(p, validate, labels[..i]), Run(p, validate, labels);
            var answer := s.executors[x].phase.ending;
            && Recorded(t.ledger, answer.key, answer.result)
            && (y in t.executors && t.executors[y].phase.Done? && t.executors[y].phase.ending.Business?
                  && t.executors[y].phase.ending.key == answer.key ==>
                  t.executors[y].phase.ending.result == answer.result)
  {
    hide Run, C.Inv, Snapshots, Known, Rows, Entries, L.Grows;
    RunOnward(p, validate, labels, i);
    RunKeeps(p, validate, labels);
    var s, t := Run(p, validate, labels[..i]), Run(p, validate, labels);
    assert t.executors[x] == s.executors[x];
    assert Grip(t.ledger, t.entries, t.executors[x]);
    if y in t.executors { assert Grip(t.ledger, t.entries, t.executors[y]); }
  }

  /** A stored snapshot is exactly one of the core's own views of the operation, given to its owner; however
      puts race, its revision only rises, and at one revision it is one and the same view. */
  lemma SnapshotsAreCoreViews(p: Provider, validate: Validator, labels: seq<Label>, i: nat, k: L.PrepKey)
    requires i <= |labels| && k in Run(p, validate, labels[..i]).ledger.preparations
    ensures var s, t := Run(p, validate, labels[..i]), Run(p, validate, labels);
            && SnapshotOk(s.core, k, s.ledger.preparations[k])
            && k in t.ledger.preparations
            && s.ledger.preparations[k].revision <= t.ledger.preparations[k].revision
            && (s.ledger.preparations[k].revision == t.ledger.preparations[k].revision ==>
                  t.ledger.preparations[k] == s.ledger.preparations[k])
  {
    hide Run, SnapshotOk, Executors, Rows, Entries, L.Grows, C.Inv, C.Grows;
    RunOnward(p, validate, labels, i);
    RunKeeps(p, validate, labels[..i]);
    RunKeeps(p, validate, labels);
    CoreRunGrows(p, validate, labels, i);
    var s, t := Run(p, validate, labels[..i]), Run(p, validate, labels);
    SnapshotStays(s.core, t.core, k, s.ledger.preparations[k]);
    RowMovesOn(s.ledger, t.ledger, k);
    CoreLives(t.core);
    OneView(t.core, k, s.ledger.preparations[k], t.ledger.preparations[k]);
  }

  lemma RowMovesOn(t: L.Tables, u: L.Tables, k: L.PrepKey)
    requires L.Grows(t, u) && k in t.preparations
    ensures k in u.preparations && L.MovesOn(t.preparations[k], u.preparations[k])
  {
  }

  lemma OneView(c: C.State, k: L.PrepKey, a: L.PrepRow, b: L.PrepRow)
    requires C.Lives(c) && SnapshotOk(c, k, a) && SnapshotOk(c, k, b)
    ensures a.revision == b.revision ==> a == b
  {
    hide C.Lives;
    OneLife(c, a.snapshot, b.snapshot);
  }

  lemma {:induction false} CoreRunGrows(p: Provider, validate: Validator, labels: seq<Label>, i: nat)
    requires i <= |labels|
    ensures C.Grows(Run(p, validate, labels[..i]).core, Run(p, validate, labels).core)
    decreases |labels|
  {
    hide Inv, Step, C.Grows;
    if i == |labels| {
      assert labels[..i] == labels;
      CoreStill(Run(p, validate, labels).core);
    } else {
      var front := labels[..|labels| - 1];
      assert front[..i] == labels[..i];
      CoreRunGrows(p, validate, front, i);
      RunKeeps(p, validate, front);
      CoreGrows(p, validate, Run(p, validate, front), labels[|labels| - 1]);
      C.GrowsTransitive(Run(p, validate, labels[..i]).core, Run(p, validate, front).core,
                        Run(p, validate, labels).core);
    }
  }

  lemma CoreStill(c: C.State)
    ensures C.Grows(c, c)
  {
  }

  lemma CoreGrows(p: Provider, validate: Validator, s: System, l: Label)
    requires Inv(p, validate, s)
    ensures C.Grows(s.core, Step(p, validate, s, l).core)
  {
    hide C.Inv, C.Step, C.Grows, C.ViewsIn, Answers, Snapshots, Executors, Rows, Entries, L.PutTx, L.GetTx, L.ReplayTx,
         L.ClaimTx,
         L.DispatchTx, L.TerminalTx, Bindings, Matches, LocalIssued;
    CoreStill(s.core);
    if l.CoreStep? { C.StepGrows(validate, s.core, l.step); }
    if l.Ask? && l.eid in s.executors && s.executors[l.eid].phase.Asking? {
      var e := s.executors[l.eid];
      C.StepGrows(validate, s.core,
                  C.Arrive(l.pid, DecideRequest(e, e.phase.snapshot), DecideToken(e, e.phase.snapshot)));
    }
  }

  /** The issued view that an executor builds from its own snapshot is the view the core has stored. */
  lemma IssuedViewAgrees(p: Provider, validate: Validator, labels: seq<Label>, x: nat)
    requires var s := Run(p, validate, labels); x in s.executors && s.executors[x].phase.Issuing?
    ensures var s := Run(p, validate, labels);
            var e := s.executors[x];
            && e.operation in s.core.tables.operations
            && LocalIssued(e.phase.snapshot, e.phase.decision) == s.core.tables.operations[e.operation].view
            && e.phase.decision.argumentsDigest == Sha256(e.args)
  {
    hide Run, C.Inv, Snapshots, Rows, Entries, Grip, LocalIssued;
    RunKeeps(p, validate, labels);
    var s := Run(p, validate, labels);
    assert Known(p, validate, s.core, s.executors[x]);
  }
}
