/** The provider's durable store: operation snapshots and the execution ledger of one integration. */
module Ledger {
  import opened Wire

  /** A business result: its canonical text and whether it reports an error. */
  datatype Payload = Payload(text: string, isError: bool)

  datatype ExecState = Claimed | Dispatching | Succeeded | FailedBeforeDispatch | FailedAfterDispatch | Uncertain

  datatype ExecKey = ExecKey(principal: string, workspace: string, key: Id)

  datatype ExecRow = ExecRow(
    digest: Digest, toolId: string, version: string, state: ExecState, fence: Id,
    result: Option<Payload>, expires: Instant)

  datatype PrepKey = PrepKey(principal: string, workspace: string, operation: Id)

  datatype PrepRow = PrepRow(revision: int, authorization: string, snapshot: View, expires: Instant)

  datatype Tables = Tables(preparations: map<PrepKey, PrepRow>, executions: map<ExecKey, ExecRow>)

  datatype Claim = Fence(fence: Id) | Replay(result: Payload)

  const RETENTION: int := 24 * HOUR

  function KeyOf(actor: Actor, d: Decision): ExecKey { ExecKey(actor.principal, actor.workspace, d.executionKey) }

  function PrepKeyOf(actor: Actor, id: Id): PrepKey { PrepKey(actor.principal, actor.workspace, id) }

  /** A newer or equal snapshot of the same authorization replaces the stored one. */
  function PutTx(t: Tables, actor: Actor, view: View): Tables {
    var k := PrepKeyOf(actor, view.id);
    if k !in t.preparations then
      t.(preparations := t.preparations[k := PrepRow(view.revision, actor.revision, view, view.expires)])
    else if t.preparations[k].revision <= view.revision && t.preparations[k].authorization == actor.revision then
      t.(preparations := t.preparations[k := t.preparations[k].(revision := view.revision, snapshot := view)])
    else t
  }

  function GetTx(t: Tables, actor: Actor, id: Id): Result<View, string> {
    var k := PrepKeyOf(actor, id);
    if k !in t.preparations then Err("OPERATION_NOT_FOUND")
    else if t.preparations[k].authorization != actor.revision then Err("AUTHORIZATION_CONTEXT_CHANGED")
    else Ok(t.preparations[k].snapshot)
  }

  /** What an existing row answers to a decision. */
  function Check(row: ExecRow, d: Decision, now: Instant): Result<Payload, string> {
    if row.digest != d.argumentsDigest || row.toolId != d.toolId || row.version != d.version
    then Err("EXECUTION_CONFLICT")
    else if row.expires <= now then Err("RESULT_UNAVAILABLE")
    else if (row.state == Succeeded || row.state == FailedAfterDispatch) && row.result.Some? then Ok(row.result.value)
    else if row.state == Claimed then Err("EXECUTION_IN_PROGRESS")
    else Err("EXECUTION_UNKNOWN")
  }

  /** None when nothing has claimed the execution. */
  function ReplayTx(t: Tables, actor: Actor, d: Decision, now: Instant): Option<Result<Payload, string>> {
    if KeyOf(actor, d) in t.executions then Some(Check(t.executions[KeyOf(actor, d)], d, now)) else None
  }

  function ClaimTx(t: Tables, actor: Actor, d: Decision, fence: Id, now: Instant): (Tables, Result<Claim, string>) {
    var k := KeyOf(actor, d);
    if k !in t.executions then
      (t.(executions := t.executions[k :=
            ExecRow(d.argumentsDigest, d.toolId, d.version, Claimed, fence, None, now + RETENTION)]), Ok(Fence(fence)))
    else match Check(t.executions[k], d, now)
      case Ok(result) => (t, Ok(Replay(result)))
      case Err(code) => (t, Err(code))
  }

  /** From claimed to dispatching, under the claim's fence. */
  function DispatchTx(t: Tables, actor: Actor, d: Decision, fence: Id): Option<Tables> {
    var k := KeyOf(actor, d);
    if k in t.executions && t.executions[k].fence == fence && t.executions[k].state == Claimed then
      Some(t.(executions := t.executions[k := t.executions[k].(state := Dispatching)]))
    else None
  }

  function TerminalTx(t: Tables, actor: Actor, d: Decision, fence: Id, state: ExecState,
                      result: Option<Payload>): Option<Tables> {
    var k := KeyOf(actor, d);
    if k in t.executions && t.executions[k].fence == fence && t.executions[k].state in {Claimed, Dispatching} then
      Some(t.(executions := t.executions[k := t.executions[k].(state := state, result := result)]))
    else None
  }

  /** The store over its two tables; a transaction that finds no row to change throws and leaves both as they were. */
  class PostgresStore {
    var preparations: map<PrepKey, PrepRow>
    var executions: map<ExecKey, ExecRow>

    function Contents(): Tables
      reads this
    {
      Tables(preparations, executions)
    }

    constructor ()
      ensures Contents() == Tables(map[], map[])
    {
      preparations, executions := map[], map[];
    }

    method Put(actor: Actor, view: View)
      modifies this`preparations
      ensures Contents() == PutTx(old(Contents()), actor, view)
    {
      var k := PrepKeyOf(actor, view.id);
      if k !in preparations {
        preparations := preparations[k := PrepRow(view.revision, actor.revision, view, view.expires)];
      } else if preparations[k].revision <= view.revision && preparations[k].authorization == actor.revision {
        preparations := preparations[k := preparations[k].(revision := view.revision, snapshot := view)];
      }
    }

    method Get(actor: Actor, id: Id) returns (r: Result<View, string>)
      ensures r == GetTx(Contents(), actor, id)
    {
      var k := PrepKeyOf(actor, id);
      if k !in preparations { return Err("OPERATION_NOT_FOUND"); }
      var row := preparations[k];
      if row.authorization != actor.revision { return Err("AUTHORIZATION_CONTEXT_CHANGED"); }
      r := Ok(row.snapshot);
    }

    method Replayed(actor: Actor, d: Decision, now: Instant) returns (r: Option<Result<Payload, string>>)
      ensures r == ReplayTx(Contents(), actor, d, now)
    {
      var k := KeyOf(actor, d);
      if k !in executions { return None; }
      r := Some(Check(executions[k], d, now));
    }

    method Claim(actor: Actor, d: Decision, fence: Id, now: Instant) returns (r: Result<Claim, string>)
      modifies this`executions
      ensures (Contents(), r) == ClaimTx(old(Contents()), actor, d, fence, now)
    {
      var k := KeyOf(actor, d);
      var inserted := k !in executions;
      if inserted {
        executions :=
            executions[k := ExecRow(d.argumentsDigest, d.toolId, d.version, Claimed, fence, None, now + RETENTION)];
        return Ok(Fence(fence));
      }
      var checked := Check(executions[k], d, now);
      if checked.Err? { return Err(checked.error); }
      r := Ok(Replay(checked.value));
    }

    method Dispatch(actor: Actor, d: Decision, fence: Id) returns (ok: bool)
      modifies this`executions
      ensures ok <==> DispatchTx(old(Contents()), actor, d, fence).Some?
      ensures Contents() == if ok then DispatchTx(old(Contents()), actor, d, fence).value else old(Contents())
    {
      var k := KeyOf(actor, d);
      ok := k in executions && executions[k].fence == fence && executions[k].state == Claimed;
      if ok { executions := executions[k := executions[k].(state := Dispatching)]; }
    }

    method Terminal(actor: Actor, d: Decision, fence: Id, state: ExecState, result: Option<Payload>) returns (ok: bool)
      modifies this`executions
      ensures ok <==> TerminalTx(old(Contents()), actor, d, fence, state, result).Some?
      ensures Contents() == if ok then TerminalTx(old(Contents()), actor, d, fence, state, result).value
              else old(Contents())
    {
      var k := KeyOf(actor, d);
      ok := k in executions && executions[k].fence == fence && executions[k].state in {Claimed, Dispatching};
      if ok { executions := executions[k := executions[k].(state := state, result := result)]; }
    }
  }

  /* ----- What the rows can do ----- */

  predicate Terminal(s: ExecState) { s != Claimed && s != Dispatching }

  /** A row keeps what it was claimed for, moves forward only, and rests once terminal. */
  predicate Advances(a: ExecRow, b: ExecRow) {
    && a.digest == b.digest && a.toolId == b.toolId && a.version == b.version
    && a.fence == b.fence && a.expires == b.expires
    && (Terminal(a.state) ==> b == a)
    && (b.state == Claimed ==> a.state == Claimed)
  }

  /** A snapshot row keeps its authorization and its revision never goes back. */
  predicate MovesOn(a: PrepRow, b: PrepRow) {
    a.authorization == b.authorization && a.expires == b.expires && a.revision <= b.revision
  }

  predicate Grows(t: Tables, u: Tables) {
    && (forall k <- t.executions :: k in u.executions && Advances(t.executions[k], u.executions[k]))
    && (forall k <- t.preparations :: k in u.preparations && MovesOn(t.preparations[k], u.preparations[k]))
  }

  lemma GrowsTransitive(t: Tables, u: Tables, v: Tables)
    requires Grows(t, u) && Grows(u, v)
    ensures Grows(t, v)
  {
    forall k <- t.executions ensures k in v.executions && Advances(t.executions[k], v.executions[k]) {
      assert Advances(t.executions[k], u.executions[k]) && Advances(u.executions[k], v.executions[k]);
    }
    forall k <- t.preparations ensures k in v.preparations && MovesOn(t.preparations[k], v.preparations[k]) {
      assert MovesOn(t.preparations[k], u.preparations[k]) && MovesOn(u.preparations[k], v.preparations[k]);
    }
  }

  lemma Unchanged(t: Tables)
    ensures Grows(t, t)
  {
  }

  /** Every transaction moves the two tables forward only. */
  lemma PutGrows(t: Tables, actor: Actor, view: View)
    ensures Grows(t, PutTx(t, actor, view))
  {
  }

  lemma ClaimGrows(t: Tables, actor: Actor, d: Decision, fence: Id, now: Instant)
    ensures Grows(t, ClaimTx(t, actor, d, fence, now).0)
  {
  }

  lemma DispatchGrows(t: Tables, actor: Actor, d: Decision, fence: Id)
    ensures var r := DispatchTx(t, actor, d, fence); r.Some? ==> Grows(t, r.value)
  {
  }

  lemma TerminalGrows(t: Tables, actor: Actor, d: Decision, fence: Id, state: ExecState, result: Option<Payload>)
    requires Terminal(state)
    ensures var r := TerminalTx(t, actor, d, fence, state, result); r.Some? ==> Grows(t, r.value)
  {
  }

  /** Racing claims, dispatches and endings: for one row at most one fence ever dispatches, and only once. */
  lemma DispatchOnce(t: Tables, u: Tables, actor: Actor, d: Decision, f: Id, g: Id)
    requires DispatchTx(t, actor, d, f).Some? && Grows(DispatchTx(t, actor, d, f).value, u)
    ensures DispatchTx(u, actor, d, g).None?
  {
    var k := KeyOf(actor, d);
    assert Advances(DispatchTx(t, actor, d, f).value.executions[k], u.executions[k]);
  }

  /* ----- What each transaction does, told by the rows alone ----- */

  /** A first snapshot is stored, an equal or newer one of the same authorization replaces what was stored, and nothing
      else changes. */
  lemma PutExactly(t: Tables, actor: Actor, view: View)
    ensures var k := PrepKey(actor.principal, actor.workspace, view.id);
            var u := PutTx(t, actor, view);
            && u.executions == t.executions && u.preparations.Keys == t.preparations.Keys + {k}
            && (forall other <- t.preparations :: other != k ==> u.preparations[other] == t.preparations[other])
            && (k !in t.preparations ==>
                  u.preparations[k].snapshot == view && u.preparations[k].authorization == actor.revision)
            && (k in t.preparations ==>
                  var was, now := t.preparations[k], u.preparations[k];
                  && (now != was ==> now == PrepRow(view.revision, was.authorization, view, was.expires))
                  && (was.authorization == actor.revision && was.revision <= view.revision ==> now.snapshot == view)
                  && (was.authorization != actor.revision || was.revision > view.revision ==> now == was))
  {
  }

  /** A decision whose execution has a row gets the answer that the row's state and age dictate. */
  lemma RowAnswersExactly(t: Tables, actor: Actor, d: Decision, fence: Id, now: Instant, r: Payload)
    requires KeyOf(actor, d) in t.executions
    requires var row := t.executions[KeyOf(actor, d)];
             && row.digest == d.argumentsDigest && row.toolId == d.toolId && row.version == d.version
             && (row.result.Some? <==> row.state == Succeeded || row.state == FailedAfterDispatch)
    ensures var row := t.executions[KeyOf(actor, d)];
            var (u, claim) := ClaimTx(t, actor, d, fence, now);
            var answer := ReplayTx(t, actor, d, now);
            && u == t && answer.Some?
            && (answer == Some(Ok(r)) <==> now < row.expires && row.result == Some(r))
            && (answer == Some(Err("EXECUTION_IN_PROGRESS")) <==> now < row.expires && row.state == Claimed)
            && (answer == Some(Err("EXECUTION_UNKNOWN")) <==>
                  now < row.expires
                      && (row.state == Dispatching || row.state == FailedBeforeDispatch || row.state == Uncertain))
            && (answer == Some(Err("RESULT_UNAVAILABLE")) <==> row.expires <= now)
            && (claim == Ok(Replay(r)) <==> answer == Some(Ok(r)))
            && (forall code :: claim == Err(code) <==> answer == Some(Err(code)))
            && !(claim.Ok? && claim.value.Fence?)
  {
  }

  /** Without a row, a claim inserts one for this decision under its own fence, kept for a day, and changes no other. */
  lemma FirstClaimExactly(t: Tables, actor: Actor, d: Decision, fence: Id, now: Instant)
    requires KeyOf(actor, d) !in t.executions
    ensures var (u, claim) := ClaimTx(t, actor, d, fence, now);
            && ReplayTx(t, actor, d, now).None? && claim == Ok(Fence(fence)) && u.preparations == t.preparations
            && u.executions == t.executions[ExecKey(actor.principal, actor.workspace, d.executionKey) :=
                 ExecRow(d.argumentsDigest, d.toolId, d.version, Claimed, fence, None, now + 86_400 * SECOND)]
  {
  }

  /** A dispatch goes through exactly for the claimed row of its own fence, and an ending exactly for its open row;
      nothing but the state and the result of that row changes. */
  lemma UpdatesExactly(t: Tables, actor: Actor, d: Decision, fence: Id, state: ExecState, result: Option<Payload>)
    ensures var k := ExecKey(actor.principal, actor.workspace, d.executionKey);
            var mine := k in t.executions && t.executions[k].fence == fence;
            var u, v := DispatchTx(t, actor, d, fence), TerminalTx(t, actor, d, fence, state, result);
            && (u.Some? <==> mine && t.executions[k].state == Claimed)
            && (v.Some? <==> mine && (t.executions[k].state == Claimed || t.executions[k].state == Dispatching))
            && (u.Some? ==> u.value == t.(executions := t.executions[k := t.executions[k].(state := Dispatching)]))
            && (v.Some? ==>
                  v.value == t.(executions := t.executions[k := t.executions[k].(state := state, result := result)]))
  {
  }
}
