/** What becomes of one call of `execute`, label by label: how an executor can come to each phase, what a dispatch, an
    ending and a replay do, and that a handler is entered only in time and with permission. */
module Executions {
  import opened Wire
  import opened Protocol
  import opened ProtocolSafety
  import Op = Operation
  import C = CoreRuns
  import Db = Core
  import L = Ledger

  lemma RunSnoc(p: Provider, validate: Validator, labels: seq<Label>, l: Label)
    ensures Run(p, validate, labels + [l]) == Step(p, validate, Run(p, validate, labels), l)
  {
    assert (labels + [l])[..|labels|] == labels;
  }

  /* ----- Ways into a phase ----- */

  predicate Was(s: System, x: nat, e: Executor, phase: Phase) {
    x in s.executors && s.executors[x] == e.(phase := phase)
  }

  /** The one kind of label that takes an executor into its phase, and what had to hold. */
  predicate CameBy(s: System, l: Label, x: nat, e: Executor) {
    match e.phase
    case Looked(_) => l == GetSnapshot(x, true) && Was(s, x, e, Begun)
    case Asking(v) => l.Lookup? && l.eid == x && l.now < v.expires && Was(s, x, e, Looked(v))
    case Issuing(v, _) => l.Receive? && l.eid == x && Was(s, x, e, Asking(v))
    case Claiming(d) =>
      && l.StoreIssued? && l.eid == x && l.permitted && !l.lost && l.now < d.notAfter
      && x in s.executors && s.executors[x].phase.Issuing? && s.executors[x].phase.decision == d
      && Was(s, x, e, s.executors[x].phase)
    case Holding(d, _) => l.Claim? && l.eid == x && !l.lost && Was(s, x, e, Claiming(d))
    case Replaying(d, _) => l.Claim? && l.eid == x && !l.lost && Was(s, x, e, Claiming(d))
    case Dispatched(d, f) =>
      l.Dispatch? && l.eid == x && !l.aborted && !l.lost && l.now < d.notAfter && Was(s, x, e, Holding(d, f))
    case Handling(d, f) => l == Enter(x) && Was(s, x, e, Dispatched(d, f))
    case _ => true
  }

  /** A step of one executor: it alone moves, in the way of its label or to its end. */
  ghost predicate Goes(s: System, t: System, l: Label, x: nat) {
    && x in s.executors && x in t.executors && t.executors == s.executors[x := t.executors[x]]
    && (t.executors[x].phase.Done? || CameBy(s, l, x, t.executors[x]))
    && (!l.Enter? ==> t.entries == s.entries)
  }

  lemma GetGoes(p: Provider, validate: Validator, s: System, x: nat, permitted: bool)
    requires x in s.executors && s.executors[x].phase.Begun?
    ensures Goes(s, StepGet(p, validate, s, x, permitted), GetSnapshot(x, permitted), x)
  {
    hide L.GetTx, Bindings;
  }

  lemma LookupGoes(s: System, x: nat, now: Instant)
    requires x in s.executors && s.executors[x].phase.Looked?
    ensures Goes(s, StepLookup(s, x, now), Lookup(x, now), x)
  {
    hide L.ReplayTx, Matches;
  }

  lemma ReceiveGoes(s: System, x: nat, pid: nat)
    requires x in s.executors && s.executors[x].phase.Asking? && Answers(s, x, pid)
    ensures Goes(s, StepReceive(s, x, pid), Receive(x, pid), x)
  {
    hide Matches;
  }

  lemma IssuedGoes(s: System, x: nat, now: Instant, permitted: bool, lost: bool)
    requires x in s.executors && s.executors[x].phase.Issuing?
    ensures Goes(s, StepStoreIssued(s, x, now, permitted, lost), StoreIssued(x, now, permitted, lost), x)
  {
    hide L.PutTx, LocalIssued;
  }

  lemma ClaimGoes(s: System, x: nat, now: Instant, lost: bool)
    requires x in s.executors && s.executors[x].phase.Claiming?
    ensures Goes(s, StepClaim(s, x, now, lost), Claim(x, now, lost), x)
  {
    hide L.ClaimTx;
  }

  lemma DispatchGoes(s: System, x: nat, now: Instant, aborted: bool, lost: bool)
    requires x in s.executors && s.executors[x].phase.Holding?
    ensures Goes(s, StepDispatch(s, x, now, aborted, lost), Dispatch(x, now, aborted, lost), x)
  {
    hide L.DispatchTx, L.TerminalTx;
  }

  lemma FinishGoes(s: System, x: nat, result: Option<L.Payload>, applied: bool, lost: bool)
    requires x in s.executors && s.executors[x].phase.Handling?
    ensures Goes(s, StepFinish(s, x, result, applied, lost), Finish(x, result, applied, lost), x)
  {
    hide L.TerminalTx;
  }

  lemma OnlyBy(p: Provider, validate: Validator, s: System, l: Label, x: nat)
    requires x in Step(p, validate, s, l).executors
    ensures var e := Step(p, validate, s, l).executors[x];
            (x in s.executors && s.executors[x] == e) || e.phase.Begun? || e.phase.Done? || CameBy(s, l, x, e)
  {
    hide C.Step, Answers, L.PutTx, C.ViewsIn, StepGet, StepLookup, StepReceive, StepStoreIssued, StepClaim,
         StepDispatch, StepFinish;
    GoesOn(p, validate, s, l);
  }

  /** Every label of an executor that applies is such a step. */
  lemma GoesOn(p: Provider, validate: Validator, s: System, l: Label)
    ensures var t := Step(p, validate, s, l);
            match l
            case GetSnapshot(x, _) => t == s || Goes(s, t, l, x)
            case Lookup(x, _) => t == s || Goes(s, t, l, x)
            case Receive(x, _) => t == s || Goes(s, t, l, x)
            case StoreIssued(x, _, _, _) => t == s || Goes(s, t, l, x)
            case Claim(x, _, _) => t == s || Goes(s, t, l, x)
            case Dispatch(x, _, _, _) => t == s || Goes(s, t, l, x)
            case Finish(x, _, _, _) => t == s || Goes(s, t, l, x)
            case _ => true
  {
    hide C.Step, Answers, L.PutTx, C.ViewsIn, StepGet, StepLookup, StepReceive, StepStoreIssued, StepClaim,
         StepDispatch, StepFinish, Goes;
    match l {
      case GetSnapshot(x, permitted) => if x in s.executors && s.executors[x].phase.Begun? {
        GetGoes(p, validate, s, x, permitted);
      }
      case Lookup(x, now) => if x in s.executors && s.executors[x].phase.Looked? { LookupGoes(s, x, now); }
      case Receive(x, pid) =>
        if x in s.executors && s.executors[x].phase.Asking? && Answers(s, x, pid) { ReceiveGoes(s, x, pid); }
      case StoreIssued(x, now, permitted, lost) =>
        if x in s.executors && s.executors[x].phase.Issuing? { IssuedGoes(s, x, now, permitted, lost); }
      case Claim(x, now, lost) => if x in s.executors && s.executors[x].phase.Claiming? { ClaimGoes(s, x, now, lost); }
      case Dispatch(x, now, aborted, lost) =>
        if x in s.executors && s.executors[x].phase.Holding? { DispatchGoes(s, x, now, aborted, lost); }
      case Finish(x, result, applied, lost) =>
        if x in s.executors && s.executors[x].phase.Handling? { FinishGoes(s, x, result, applied, lost); }
      case _ =>
    }
  }

  /** Handlers are entered by `Enter` alone. */
  lemma OnlyEnterEnters(p: Provider, validate: Validator, s: System, l: Label)
    ensures var t := Step(p, validate, s, l);
            t.entries == s.entries
            || (l.Enter? && l.eid in s.executors && s.executors[l.eid].phase.Dispatched?
                && var e := s.executors[l.eid];
                   t.entries ==
                       s.entries + [Entry(e.operation, e.actor, L.KeyOf(e.actor, e.phase.decision), e.phase.fence,
                                                   e.phase.decision.toolId, e.args, e.mutation)])
  {
    hide C.Step, Answers, L.PutTx, C.ViewsIn, StepGet, StepLookup, StepReceive, StepStoreIssued, StepClaim,
         StepDispatch, StepFinish;
    GoesOn(p, validate, s, l);
  }

  /* ----- A handler is entered in time and with permission ----- */

  /** The label at this moment of the run stored the issued view while the decision was alive and permission given. */
  ghost predicate StoredAt(labels: seq<Label>, j: nat, x: nat, d: Decision) {
    && j < |labels| && labels[j].StoreIssued? && labels[j].eid == x && labels[j].permitted && !labels[j].lost
    && labels[j].now < d.notAfter
  }

  /** The label at this moment dispatched the executor, which held its claim, before the decision ran out. */
  ghost predicate DispatchedAt(p: Provider, validate: Validator, labels: seq<Label>, k: nat, x: nat, e: Executor) {
    && k < |labels| && labels[k].Dispatch? && labels[k].eid == x && !labels[k].aborted && !labels[k].lost
    && e.phase.Dispatched? && labels[k].now < e.phase.decision.notAfter
    && Was(Run(p, validate, labels[..k]), x, e, Holding(e.phase.decision, e.phase.fence))
  }

  lemma {:induction false} StoredBefore(p: Provider, validate: Validator, labels: seq<Label>, x: nat) returns (j: nat)
    requires var s := Run(p, validate, labels);
             x in s.executors
             && (s.executors[x].phase.Claiming? || s.executors[x].phase.Holding? || s.executors[x].phase.Dispatched?)
    ensures StoredAt(labels, j, x, Run(p, validate, labels).executors[x].phase.decision)
  {
    hide Step;
    var front, l := labels[..|labels| - 1], labels[|labels| - 1];
    OnlyBy(p, validate, Run(p, validate, front), l, x);
    var e := Run(p, validate, labels).executors[x];
    if e.phase.Claiming? && CameBy(Run(p, validate, front), l, x, e) {
      j := |front|;
    } else {
      j := StoredBefore(p, validate, front, x);
      assert labels[j] == front[j];
    }
  }

  lemma {:induction false} DispatchedBefore(p: Provider, validate: Validator, labels: seq<Label>, x: nat)
      returns (k: nat)
    requires x in Run(p, validate, labels).executors && Run(p, validate, labels).executors[x].phase.Dispatched?
    ensures DispatchedAt(p, validate, labels, k, x, Run(p, validate, labels).executors[x])
  {
    hide Step;
    var front, l := labels[..|labels| - 1], labels[|labels| - 1];
    OnlyBy(p, validate, Run(p, validate, front), l, x);
    var e := Run(p, validate, labels).executors[x];
    if CameBy(Run(p, validate, front), l, x, e) {
      k := |front|;
      assert labels[..k] == front;
    } else {
      k := DispatchedBefore(p, validate, front, x);
      assert labels[k] == front[k] && labels[..k] == front[..k];
    }
  }

  /** Every handler entry was dispatched by its executor without abort and before its decision ran out, after the
      issued view was stored with permission while the decision was alive; and that decision is the core's own. */
  lemma {:induction false} EnteredInTime(p: Provider, validate: Validator, labels: seq<Label>, i: nat)
    returns (x: nat, j: nat, k: nat, d: Decision)
    requires i < |Run(p, validate, labels).entries|
    ensures var s := Run(p, validate, labels);
            var entry := s.entries[i];
            && j < k < |labels| && StoredAt(labels, j, x, d)
            && labels[k].Dispatch? && labels[k].eid == x && !labels[k].aborted && !labels[k].lost
               && labels[k].now < d.notAfter
            && entry.key == L.KeyOf(entry.actor, d) && entry.toolId == d.toolId && IssuedTo(s.core, entry.actor, d)
            && var at := Run(p, validate, labels[..k]);
               && x in at.executors && at.executors[x].phase == Holding(d, entry.fence)
               && at.executors[x].actor == entry.actor && at.executors[x].operation == entry.operation
               && at.executors[x].args == entry.args && at.executors[x].mutation == entry.mutation
  {
    hide Step, IssuedTo;
    var front, l := labels[..|labels| - 1], labels[|labels| - 1];
    var before := Run(p, validate, front);
    OnlyEnterEnters(p, validate, before, l);
    if i < |before.entries| {
      x, j, k, d := EnteredInTime(p, validate, front, i);
      assert labels[j] == front[j] && labels[k] == front[k] && labels[..k] == front[..k];
      IssuedLater(p, validate, labels, |front|, before.entries[i].actor, d);
    } else {
      x := l.eid;
      d := before.executors[x].phase.decision;
      k := DispatchedBefore(p, validate, front, x);
      assert labels[k] == front[k] && labels[..k] == front[..k];
      j := StoredBefore(p, validate, front[..k], x);
      assert labels[j] == front[..k][j];
      DispatchedIsOrdered(p, validate, front, x);
      IssuedLater(p, validate, labels, |front|, before.executors[x].actor, d);
    }
  }

  lemma DispatchedIsOrdered(p: Provider, validate: Validator, labels: seq<Label>, x: nat)
    requires var s := Run(p, validate, labels); x in s.executors && s.executors[x].phase.Dispatched?
    ensures var s := Run(p, validate, labels); IssuedTo(s.core, s.executors[x].actor, s.executors[x].phase.decision)
  {
    hide Run, C.Inv, Snapshots, Rows, Entries, Grip, Admitted;
    RunKeeps(p, validate, labels);
    var s := Run(p, validate, labels);
    assert Known(p, validate, s.core, s.executors[x]);
  }

  /** What the core issued stays issued. */
  lemma IssuedLater(p: Provider, validate: Validator, labels: seq<Label>, i: nat, actor: Actor, d: Decision)
    requires i <= |labels| && IssuedTo(Run(p, validate, labels[..i]).core, actor, d)
    ensures IssuedTo(Run(p, validate, labels).core, actor, d)
  {
    hide Run, C.Inv, C.Lives, C.Grows, IssuedTo, Snapshots, Executors, Rows, Entries;
    RunKeeps(p, validate, labels[..i]);
    RunKeeps(p, validate, labels);
    CoreLives(Run(p, validate, labels[..i]).core);
    CoreLives(Run(p, validate, labels).core);
    CoreRunGrows(p, validate, labels, i);
    IssuedStays(Run(p, validate, labels[..i]).core, Run(p, validate, labels).core, actor, d);
  }

  /* ----- What a dispatch does ----- */

  /** An executor that holds a claim holds the claimed row of its decision, unentered. */
  lemma HolderHasRow(p: Provider, validate: Validator, labels: seq<Label>, x: nat)
    requires var s := Run(p, validate, labels); x in s.executors && s.executors[x].phase.Holding?
    ensures var s := Run(p, validate, labels);
            var e := s.executors[x];
            Fenced(s.ledger, L.KeyOf(e.actor, e.phase.decision), e.phase.fence, L.Claimed)
  {
    hide Run, C.Inv, Snapshots, Rows, Entries, Known;
    RunKeeps(p, validate, labels);
    var s := Run(p, validate, labels);
    assert Grip(s.ledger, s.entries, s.executors[x]);
  }

  /** A holder that is told to dispatch after its decision ran out, or after an abort, ends its row as failed before
      dispatch and gives up; the handler is not entered for that execution, then or ever. */
  lemma LateDispatchNeverEnters(p: Provider, validate: Validator, labels: seq<Label>, x: nat, now: Instant,
                                aborted: bool, lost: bool, more: seq<Label>)
    requires var s := Run(p, validate, labels);
             x in s.executors && s.executors[x].phase.Holding?
                 && (aborted || s.executors[x].phase.decision.notAfter <= now)
    ensures var s, t := Run(p, validate, labels), Run(p, validate, labels + [Dispatch(x, now, aborted, lost)]);
            var e := s.executors[x];
            var k := L.KeyOf(e.actor, e.phase.decision);
            && k in s.ledger.executions && s.ledger.executions[k].state == L.Claimed
            && t.ledger.preparations == s.ledger.preparations
            && t.ledger.executions ==
               s.ledger.executions[k := s.ledger.executions[k].(state := L.FailedBeforeDispatch, result := None)]
            && t.executors ==
               s.executors[x := e.(phase := Done(Thrown(if lost then "STORE_UNAVAILABLE" else "DECISION_EXPIRED")))]
            && t.entries == s.entries
            && !Entered(Run(p, validate, labels + [Dispatch(x, now, aborted, lost)] + more).entries, k)
  {
    hide Run, Step, Entered;
    var l := Dispatch(x, now, aborted, lost);
    var s := Run(p, validate, labels);
    var e := s.executors[x];
    var k := L.KeyOf(e.actor, e.phase.decision);
    HolderHasRow(p, validate, labels, x);
    RunSnoc(p, validate, labels, l);
    DispatchStep(p, validate, s, x, now, aborted, lost);
    var all := labels + [l] + more;
    assert all[..|labels| + 1] == labels + [l];
    FailedBeforeDispatchIsFinal(p, validate, all, |labels| + 1, k);
  }

  /** A holder that is told to dispatch in time marks its row as dispatching, and may go on if it hears so. */
  lemma TimelyDispatch(p: Provider, validate: Validator, labels: seq<Label>, x: nat, now: Instant, lost: bool)
    requires var s := Run(p, validate, labels);
             x in s.executors && s.executors[x].phase.Holding? && now < s.executors[x].phase.decision.notAfter
    ensures var s, t := Run(p, validate, labels), Run(p, validate, labels + [Dispatch(x, now, false, lost)]);
            var e := s.executors[x];
            var k := L.KeyOf(e.actor, e.phase.decision);
            && k in s.ledger.executions
            && t.ledger ==
               s.ledger.(executions := s.ledger.executions[k := s.ledger.executions[k].(state := L.Dispatching)])
            && t.executors == s.executors[x := e.(phase := if lost then Done(Thrown("STORE_UNAVAILABLE"))
                                                          else Dispatched(e.phase.decision, e.phase.fence))]
            && t.entries == s.entries
  {
    hide Run, Step;
    HolderHasRow(p, validate, labels, x);
    RunSnoc(p, validate, labels, Dispatch(x, now, false, lost));
    DispatchStep(p, validate, Run(p, validate, labels), x, now, false, lost);
  }

  lemma DispatchStep(p: Provider, validate: Validator, s: System, x: nat, now: Instant, aborted: bool, lost: bool)
    requires x in s.executors && s.executors[x].phase.Holding?
    requires var e := s.executors[x]; Fenced(s.ledger, L.KeyOf(e.actor, e.phase.decision), e.phase.fence, L.Claimed)
    ensures var t := Step(p, validate, s, Dispatch(x, now, aborted, lost));
            var e := s.executors[x];
            var k := L.KeyOf(e.actor, e.phase.decision);
            var late := aborted || e.phase.decision.notAfter <= now;
            var row := s.ledger.executions[k];
            && t.entries == s.entries && t.ledger.preparations == s.ledger.preparations
            && t.ledger.executions ==
               s.ledger.executions[k := if late then row.(state := L.FailedBeforeDispatch, result := None)
                                                             else row.(state := L.Dispatching)]
            && t.executors == s.executors[x := e.(phase :=
                 if lost then Done(Thrown("STORE_UNAVAILABLE"))
                 else if late then Done(Thrown("DECISION_EXPIRED"))
                 else Dispatched(e.phase.decision, e.phase.fence))]
  {
    hide C.Step, Answers, L.PutTx, C.ViewsIn, StepGet, StepLookup, StepReceive, StepStoreIssued, StepClaim, StepFinish;
  }

  /* ----- What an ending does ----- */

  /** A handler's valid result is recorded as success or reported failure and given to the caller, anything else as
      uncertain; if the ending is not applied, the row stays dispatching. */
  lemma FinishRecords(p: Provider, validate: Validator, labels: seq<Label>, x: nat, result: Option<L.Payload>,
                      applied: bool, lost: bool)
    requires var s := Run(p, validate, labels); x in s.executors && s.executors[x].phase.Handling?
    ensures var s, t := Run(p, validate, labels), Run(p, validate, labels + [Finish(x, result, applied, lost)]);
            var e := s.executors[x];
            var k := L.KeyOf(e.actor, e.phase.decision);
            && k in s.ledger.executions && k in t.ledger.executions && t.entries == s.entries
            && t.ledger.preparations == s.ledger.preparations
            && (!applied ==> t.ledger == s.ledger)
            && (applied ==>
                  var row := t.ledger.executions[k];
                  && t.ledger.executions == s.ledger.executions[k := row]
                  && (row.state == L.Succeeded <==> result.Some? && !result.value.isError)
                  && (row.state == L.FailedAfterDispatch <==> result.Some? && result.value.isError)
                  && (row.state == L.Uncertain <==> result.None?) && row.result == result)
            && t.executors == s.executors[x := e.(phase :=
                 Done(if applied && !lost && result.Some? then Business(k, result.value)
                      else Thrown("EXECUTION_UNKNOWN")))]
  {
    hide Run, Step, C.Inv, Snapshots, Rows, Entries, Known;
    RunKeeps(p, validate, labels);
    var s := Run(p, validate, labels);
    assert Grip(s.ledger, s.entries, s.executors[x]);
    RunSnoc(p, validate, labels, Finish(x, result, applied, lost));
    FinishStep(p, validate, s, x, result, applied, lost);
  }

  lemma FinishStep(p: Provider, validate: Validator, s: System, x: nat, result: Option<L.Payload>, applied: bool,
                   lost: bool)
    requires x in s.executors && s.executors[x].phase.Handling?
    requires var e := s.executors[x]; Fenced(s.ledger, L.KeyOf(e.actor, e.phase.decision), e.phase.fence, L.Dispatching)
    ensures var t := Step(p, validate, s, Finish(x, result, applied, lost));
            var e := s.executors[x];
            var k := L.KeyOf(e.actor, e.phase.decision);
            && k in t.ledger.executions && t.entries == s.entries && t.ledger.preparations == s.ledger.preparations
            && (!applied ==> t.ledger == s.ledger)
            && (applied ==>
                  var row := t.ledger.executions[k];
                  && t.ledger.executions == s.ledger.executions[k := row]
                  && (row.state == L.Succeeded <==> result.Some? && !result.value.isError)
                  && (row.state == L.FailedAfterDispatch <==> result.Some? && result.value.isError)
                  && (row.state == L.Uncertain <==> result.None?) && row.result == result)
            && t.executors == s.executors[x := e.(phase :=
                 Done(if applied && !lost && result.Some? then Business(k, result.value)
                      else Thrown("EXECUTION_UNKNOWN")))]
  {
    hide C.Step, Answers, L.PutTx, C.ViewsIn, StepGet, StepLookup, StepReceive, StepStoreIssued, StepClaim,
         StepDispatch;
  }

  /* ----- What an existing execution answers ----- */

  /** The row under the execution key of an issued decision is that decision's, and has a result exactly in the two
      states that record one. */
  lemma RowIsIts(p: Provider, validate: Validator, s: System, actor: Actor, d: Decision)
    requires Inv(p, validate, s) && IssuedTo(s.core, actor, d) && L.KeyOf(actor, d) in s.ledger.executions
    ensures var row := s.ledger.executions[L.KeyOf(actor, d)];
            && row.digest == d.argumentsDigest && row.toolId == d.toolId && row.version == d.version
            && (row.result.Some? <==> row.state == L.Succeeded || row.state == L.FailedAfterDispatch)
  {
    hide Snapshots, Executors, Entries, Entered, C.Fences, C.OncePerKey, C.RepliesPublished, C.Bundles, C.Lives,
         C.AnswersTruthful, C.ChoicesKnown;
    var k := L.KeyOf(actor, d);
    OneRowPerDecision(s.core, k, s.ledger.executions[k], d.operationId);
    assert RowAgrees(s.entries, k, s.ledger.executions[k]);
  }

  /** In every reachable state, a decision that the core issued and whose execution has a row is answered from it:
      the recorded result while it is kept, in progress while it is claimed, unknown otherwise, and unavailable when the
      row is too old. Claiming it again changes nothing. */
  lemma ExistingRowAnswers(p: Provider, validate: Validator, labels: seq<Label>, actor: Actor, d: Decision, fence: Id,
                           now: Instant, r: L.Payload)
    requires var s := Run(p, validate, labels); IssuedTo(s.core, actor, d) && L.KeyOf(actor, d) in s.ledger.executions
    ensures var t := Run(p, validate, labels).ledger;
            var row := t.executions[L.KeyOf(actor, d)];
            var (u, claim) := L.ClaimTx(t, actor, d, fence, now);
            var answer := L.ReplayTx(t, actor, d, now);
            var recorded := row.state == L.Succeeded || row.state == L.FailedAfterDispatch;
            && u == t
            && (answer == Some(Ok(r)) <==> now < row.expires && recorded && row.result == Some(r))
            && (now < row.expires && recorded ==> row.result.Some? && answer == Some(Ok(row.result.value)))
            && (answer == Some(Err("EXECUTION_IN_PROGRESS")) <==> now < row.expires && row.state == L.Claimed)
            && (answer == Some(Err("EXECUTION_UNKNOWN")) <==> now < row.expires && !recorded && row.state != L.Claimed)
            && (answer == Some(Err("RESULT_UNAVAILABLE")) <==> row.expires <= now)
            && (claim == Ok(L.Replay(r)) <==> answer == Some(Ok(r)))
            && (forall code :: claim == Err(code) <==> answer == Some(Err(code)))
  {
    hide Run, Inv, IssuedTo, L.ClaimTx, L.ReplayTx;
    RunKeeps(p, validate, labels);
    var s := Run(p, validate, labels);
    RowIsIts(p, validate, s, actor, d);
    var row := s.ledger.executions[L.KeyOf(actor, d)];
    L.RowAnswersExactly(s.ledger, actor, d, fence, now, r);
    if row.result.Some? { L.RowAnswersExactly(s.ledger, actor, d, fence, now, row.result.value); }
  }

  /** The end or the next phase of a caller that met an existing row at a time when it is kept or not. */
  predicate AnsweredByRow(row: L.ExecRow, now: Instant, phase: Phase, replayed: Phase) {
    phase == if row.expires <= now then Done(Thrown("RESULT_UNAVAILABLE"))
             else if row.state == L.Succeeded || row.state == L.FailedAfterDispatch then replayed
             else if row.state == L.Claimed then Done(Thrown("EXECUTION_IN_PROGRESS"))
             else Done(Thrown("EXECUTION_UNKNOWN"))
  }

  /** A caller whose snapshot carries a decision gets the recorded execution, if there is one for its arguments; one
      with another revision than its snapshot's, or after the operation's expiry, is refused; every other asks. */
  lemma LookupAnswers(p: Provider, validate: Validator, labels: seq<Label>, x: nat, now: Instant)
    requires var s := Run(p, validate, labels); x in s.executors && s.executors[x].phase.Looked?
    ensures var s, t := Run(p, validate, labels), Run(p, validate, labels + [Lookup(x, now)]);
            var e, v := s.executors[x], s.executors[x].phase.snapshot;
            && x in t.executors && t == s.(executors := s.executors[x := e.(phase := t.executors[x].phase)])
            && var after := t.executors[x].phase;
               var onward := if v.expires <= now then Done(Thrown("OPERATION_EXPIRED")) else Asking(v);
               && (v.status == DecisionIssued ==>
                     v.decision.Some?
                     && var d := v.decision.value;
                        var k := L.KeyOf(e.actor, d);
                        && (d.argumentsDigest != Sha256(e.args) ==> after == Done(Thrown("DECISION_MISMATCH")))
                        && (d.argumentsDigest == Sha256(e.args) && k !in s.ledger.executions ==> after == onward)
                        && (d.argumentsDigest == Sha256(e.args) && k in s.ledger.executions ==>
                              var row := s.ledger.executions[k];
                              AnsweredByRow(row, now, after,
                                            if row.result.Some? then Done(Business(k, row.result.value)) else onward)))
               && (v.status != DecisionIssued ==>
                     after == if v.revision != e.revision then Done(Thrown("REVISION_CONFLICT")) else onward)
  {
    hide Run, Step, Inv, IssuedTo, L.ReplayTx, Matches, Op.WellFormed;
    RunKeeps(p, validate, labels);
    var s := Run(p, validate, labels);
    var e, v := s.executors[x], s.executors[x].phase.snapshot;
    RunSnoc(p, validate, labels, Lookup(x, now));
    Applies(p, validate, s, Lookup(x, now));
    SnapshotFacts(p, validate, s, x);
    if v.status == DecisionIssued && L.KeyOf(e.actor, v.decision.value) in s.ledger.executions {
      var d := v.decision.value;
      RowIsIts(p, validate, s, e.actor, d);
      var row := s.ledger.executions[L.KeyOf(e.actor, d)];
      L.RowAnswersExactly(s.ledger, e.actor, d, 0, now, if row.result.Some? then row.result.value
                          else L.Payload("", false));
    } else if v.status == DecisionIssued {
      L.FirstClaimExactly(s.ledger, e.actor, v.decision.value, 0, now);
    }
  }

  /** A snapshot with a decision is the core's own final view, and fits the caller exactly if the arguments do. */
  lemma SnapshotFacts(p: Provider, validate: Validator, s: System, x: nat)
    requires Inv(p, validate, s) && x in s.executors && s.executors[x].phase.Looked?
    ensures var e, v := s.executors[x], s.executors[x].phase.snapshot;
            && v.selected.Some?
            && (v.status == DecisionIssued ==>
                  && v.decision.Some? && IssuedTo(s.core, e.actor, v.decision.value)
                  && (Matches(v, v.selected.value, v.decision.value, e.args) <==>
                        v.decision.value.argumentsDigest == Sha256(e.args)))
  {
    hide C.Inv, Snapshots, Rows, Entries, Grip, Admitted, Op.Life;
    CoreLives(s.core);
    assert Known(p, validate, s.core, s.executors[x]);
    KeptShape(s.core, s.executors[x].actor, s.executors[x].phase.snapshot);
  }

  /** A claim inserts a fresh row for a day or answers from the one that is there; a caller whose answer is lost
      gives up, and the row stays. */
  lemma ClaimAnswers(p: Provider, validate: Validator, labels: seq<Label>, x: nat, now: Instant, lost: bool)
    requires var s := Run(p, validate, labels); x in s.executors && s.executors[x].phase.Claiming?
    ensures var s, t := Run(p, validate, labels), Run(p, validate, labels + [Claim(x, now, lost)]);
            var e, d := s.executors[x], s.executors[x].phase.decision;
            var k := L.KeyOf(e.actor, d);
            && x in t.executors && t.executors == s.executors[x := e.(phase := t.executors[x].phase)]
            && t.entries == s.entries && t.ledger.preparations == s.ledger.preparations
            && (lost ==> t.executors[x].phase == Done(Thrown("STORE_UNAVAILABLE")))
            && (k !in s.ledger.executions ==>
                  && (!lost ==> t.executors[x].phase == Holding(d, s.next))
                  && t.ledger.executions == s.ledger.executions[k :=
                       L.ExecRow(d.argumentsDigest, d.toolId, d.version, L.Claimed, s.next, None,
                                 now + 86_400 * SECOND)])
            && (k in s.ledger.executions ==>
                  var row := s.ledger.executions[k];
                  && t.ledger == s.ledger
                  && (!lost ==> AnsweredByRow(row, now, t.executors[x].phase,
                                              if row.result.Some? then Replaying(d, row.result.value) else Begun)))
  {
    hide Run, Step, Inv, IssuedTo, L.ClaimTx;
    RunKeeps(p, validate, labels);
    var s := Run(p, validate, labels);
    var e, d := s.executors[x], s.executors[x].phase.decision;
    RunSnoc(p, validate, labels, Claim(x, now, lost));
    Applies(p, validate, s, Claim(x, now, lost));
    ClaimingIsOrdered(p, validate, s, x);
    if L.KeyOf(e.actor, d) in s.ledger.executions {
      RowIsIts(p, validate, s, e.actor, d);
      var row := s.ledger.executions[L.KeyOf(e.actor, d)];
      L.RowAnswersExactly(s.ledger, e.actor, d, s.next, now, if row.result.Some? then row.result.value
                          else L.Payload("", false));
    } else {
      L.FirstClaimExactly(s.ledger, e.actor, d, s.next, now);
    }
  }

  lemma ClaimingIsOrdered(p: Provider, validate: Validator, s: System, x: nat)
    requires Inv(p, validate, s) && x in s.executors && s.executors[x].phase.Claiming?
    ensures IssuedTo(s.core, s.executors[x].actor, s.executors[x].phase.decision)
  {
    hide C.Inv, Snapshots, Rows, Entries, Grip, Admitted;
    assert Known(p, validate, s.core, s.executors[x]);
  }

  /* ----- The other steps of a call ----- */

  /** A label that applies is its step. */
  lemma Applies(p: Provider, validate: Validator, s: System, l: Label)
    requires !l.CoreStep? && !l.StoreReply? && !l.Begin? && l.eid in s.executors
    ensures var t := Step(p, validate, s, l);
            match (s.executors[l.eid].phase, l)
            case (Begun, GetSnapshot(x, permitted)) => t == StepGet(p, validate, s, x, permitted)
            case (Looked(_), Lookup(x, now)) => t == StepLookup(s, x, now)
            case (Asking(_), Receive(x, pid)) => Answers(s, x, pid) ==> t == StepReceive(s, x, pid)
            case (Asking(_), Ask(x, pid)) => t == StepAsk(validate, s, x, pid)
            case (Issuing(_, _), StoreIssued(x, now, permitted, lost)) =>
              t == StepStoreIssued(s, x, now, permitted, lost)
            case (Claiming(_), Claim(x, now, lost)) => t == StepClaim(s, x, now, lost)
            case _ => true
  {
    hide C.Step, Answers, L.PutTx, C.ViewsIn, StepGet, StepLookup, StepReceive, StepStoreIssued, StepClaim,
         StepDispatch, StepFinish, StepAsk;
  }

  /** The provider's own tool, unchanged since the snapshot was made. */
  predicate Unchanged(p: Provider, selected: Selected) {
    var local := Op.FindTool(p.tools, selected.id);
    && local.Some? && local.value.effect == selected.effect
    && Sha256(local.value.input) == selected.digest && Sha256(selected.input) == selected.digest
  }

  /** The snapshot that a call starts from is of its own authorization context, with a bound tool. */
  predicate Opens(t: L.Tables, e: Executor) {
    && L.PrepKeyOf(e.actor, e.operation) in t.preparations
    && var row := t.preparations[L.PrepKeyOf(e.actor, e.operation)];
       && row.authorization == e.actor.revision && row.snapshot.selected.Some?
       && (row.snapshot.status == Ready || row.snapshot.status == NeedsArguments
           || row.snapshot.status == DecisionIssued)
  }

  /** A call without such a snapshot ends with the reason. */
  lemma GetRefuses(p: Provider, validate: Validator, s: System, x: nat, permitted: bool)
    requires x in s.executors && s.executors[x].phase.Begun? && !Opens(s.ledger, s.executors[x])
    ensures var e := s.executors[x];
            var k := L.PrepKeyOf(e.actor, e.operation);
            Step(p, validate, s, GetSnapshot(x, permitted)) == s.(executors := s.executors[x := e.(phase := Done(Thrown(
              if k !in s.ledger.preparations then "OPERATION_NOT_FOUND"
              else if s.ledger.preparations[k].authorization != e.actor.revision then "AUTHORIZATION_CONTEXT_CHANGED"
              else "OPERATION_STATE_INVALID")))])
  {
    Applies(p, validate, s, GetSnapshot(x, permitted));
    hide Step, Bindings;
  }

  /** With one it goes on exactly if the tool has the right effect, is of this provider's catalog, allowed, unchanged
      and permitted, and its arguments validate; it returns the issues exactly when those alone are in the way. */
  lemma GetAnswers(p: Provider, validate: Validator, s: System, x: nat, permitted: bool)
    requires x in s.executors && s.executors[x].phase.Begun? && Opens(s.ledger, s.executors[x])
    ensures var t := Step(p, validate, s, GetSnapshot(x, permitted));
            var e := s.executors[x];
            var v := s.ledger.preparations[L.PrepKeyOf(e.actor, e.operation)].snapshot;
            && x in t.executors && t == s.(executors := s.executors[x := e.(phase := t.executors[x].phase)])
            && Bound(p, validate, e, v, permitted, t.executors[x].phase)
  {
    Applies(p, validate, s, GetSnapshot(x, permitted));
    hide Step, StepGet, Bound;
    GetBinds(p, validate, s, x, permitted);
  }

  lemma GetBinds(p: Provider, validate: Validator, s: System, x: nat, permitted: bool)
    requires x in s.executors && Opens(s.ledger, s.executors[x])
    ensures var t := StepGet(p, validate, s, x, permitted);
            var e := s.executors[x];
            var v := s.ledger.preparations[L.PrepKeyOf(e.actor, e.operation)].snapshot;
            && x in t.executors && t == s.(executors := s.executors[x := e.(phase := t.executors[x].phase)])
            && Bound(p, validate, e, v, permitted, t.executors[x].phase)
  {
  }

  ghost predicate Bound(p: Provider, validate: Validator, e: Executor, v: View, permitted: bool, after: Phase)
    requires v.selected.Some?
  {
    var selected := v.selected.value;
    var fits := (selected.effect == Read) == !e.mutation;
    var ours := v.catalogId == p.catalogId && v.version == p.version && selected.id in e.actor.allowed;
    var local := Op.FindTool(p.tools, selected.id);
    && (after == Done(Thrown("EFFECT_MISMATCH")) <==> !fits)
    && (after == Done(Thrown("CATALOG_MISMATCH")) <==> fits && !ours)
    && (after == Done(Thrown("DECISION_MISMATCH")) <==> fits && ours && local.Some? && !Unchanged(p, selected))
    && (after == Done(Thrown("TOOL_NOT_ALLOWED")) <==>
          fits && ours && (local.None? || (Unchanged(p, selected) && !permitted)))
    && (fits && ours && Unchanged(p, selected) && permitted ==>
          var issues := validate(local.value.input, e.args).0;
          after == if issues == [] then Looked(v) else Done(LocalIssues(issues)))
  }

  /** What a put leaves: the newer of the two snapshots, and all else as it was. */
  ghost predicate KeepsNewer(s: System, t: System, actor: Actor, v: View) {
    var k := L.PrepKeyOf(actor, v.id);
    && k in t.ledger.preparations
    && t.ledger.preparations[k].snapshot ==
       (if k in s.ledger.preparations && s.ledger.preparations[k].revision > v.revision
        then s.ledger.preparations[k].snapshot else v)
    && (forall other <- s.ledger.preparations :: other != k ==>
          other in t.ledger.preparations && t.ledger.preparations[other] == s.ledger.preparations[other])
    && t.ledger.executions == s.ledger.executions && t.core == s.core
  }

  lemma PutKeepsTheNewer(p: Provider, validate: Validator, s: System, t: System, actor: Actor, v: View)
    requires Inv(p, validate, s) && C.Kept(s.core, actor, v) && t.ledger == L.PutTx(s.ledger, actor, v)
             && t.core == s.core
    ensures KeepsNewer(s, t, actor, v)
  {
    hide C.Inv, Executors, Rows, Entries;
    var k := L.PrepKeyOf(actor, v.id);
    L.PutExactly(s.ledger, actor, v);
    if k in s.ledger.preparations { assert SnapshotOk(s.core, k, s.ledger.preparations[k]); }
  }

  /** A request goes to the core in the caller's name, with the key of its operation, revision and arguments. */
  lemma AskSends(p: Provider, validate: Validator, s: System, x: nat, pid: nat)
    requires x in s.executors && s.executors[x].phase.Asking? && pid !in s.core.workers
    ensures var e := s.executors[x];
            var v := e.phase.snapshot;
            Step(p, validate, s, Ask(x, pid)) == s.(core := s.core.(workers := s.core.workers[pid :=
              C.Worker(Db.Request(e.actor, Db.ActBody(e.operation, Op.Decide(v.revision, e.args))),
                       DecisionToken(e.operation, v.revision, e.args), C.Arrived)]))
  {
    Applies(p, validate, s, Ask(x, pid));
    hide Step;
  }

  /** A refusal ends the call with its code, a view is a refusal to store, and a decision is taken exactly if it is one
      revision after the snapshot, or the snapshot's own: everything else about it agrees in every reachable state. */
  lemma ReceiveAnswers(p: Provider, validate: Validator, labels: seq<Label>, x: nat, pid: nat)
    requires var s := Run(p, validate, labels); x in s.executors && s.executors[x].phase.Asking? && Answers(s, x, pid)
    ensures var s, t := Run(p, validate, labels), Run(p, validate, labels + [Receive(x, pid)]);
            var e, v, result := s.executors[x], s.executors[x].phase.snapshot, s.core.workers[pid].phase.result;
            && x in t.executors && t == s.(executors := s.executors[x := e.(phase := t.executors[x].phase)])
            && var after := t.executors[x].phase;
               && (result.Err? ==> after == Done(Thrown(result.error.code)))
               && (result.Ok? && result.value.body.ViewResponse? ==> after == Refused(result.value.body.view))
               && (result.Ok? && result.value.body.DecisionResponse? ==>
                     var d := result.value.body.decision;
                     && (after == Issuing(v, d) <==>
                           d.revision == if v.status == DecisionIssued then v.revision else v.revision + 1)
                     && (after == Issuing(v, d) || after == Done(Thrown("DECISION_MISMATCH"))))
  {
    hide Run, Step, Inv, Answers, Matches, C.Kept;
    RunKeeps(p, validate, labels);
    var s := Run(p, validate, labels);
    RunSnoc(p, validate, labels, Receive(x, pid));
    Applies(p, validate, s, Receive(x, pid));
    Received(s, x, pid);
    if s.core.workers[pid].phase.result.Ok? && s.core.workers[pid].phase.result.value.body.DecisionResponse? {
      OrderedMatches(p, validate, s, x, pid);
    }
  }

  lemma Received(s: System, x: nat, pid: nat)
    requires x in s.executors && s.executors[x].phase.Asking? && Answers(s, x, pid)
    ensures pid in s.core.workers && s.core.workers[pid].phase.Replied?
  {
  }

  /** The core's answer to a decision request fits the snapshot in all but, perhaps, its revision. */
  lemma OrderedMatches(p: Provider, validate: Validator, s: System, x: nat, pid: nat)
    requires Inv(p, validate, s) && x in s.executors && s.executors[x].phase.Asking? && Answers(s, x, pid)
    requires s.core.workers[pid].phase.result.Ok? && s.core.workers[pid].phase.result.value.body.DecisionResponse?
    ensures var e, v, d := s.executors[x], s.executors[x].phase.snapshot,
            s.core.workers[pid].phase.result.value.body.decision;
            && v.selected.Some?
            && (Matches(v, v.selected.value, d, e.args) <==>
                  d.revision == if v.status == DecisionIssued then v.revision else v.revision + 1)
  {
    hide Inv, Answers, C.Inv, C.Lives, C.Kept, Admitted, Op.Life;
    ExecutorKnows(p, validate, s, x);
    AnswerTrue(p, validate, s, x, pid);
    KeptShape(s.core, s.executors[x].actor, s.executors[x].phase.snapshot);
  }

  /** The issued view is stored before anything is claimed, and is the core's own; the claim follows exactly while the
      decision is alive, with permission, and if the caller hears that it was stored. */
  lemma StoreIssuedAnswers(p: Provider, validate: Validator, labels: seq<Label>, x: nat, now: Instant, permitted: bool,
                           lost: bool)
    requires var s := Run(p, validate, labels); x in s.executors && s.executors[x].phase.Issuing?
    ensures var s, t := Run(p, validate, labels), Run(p, validate, labels + [StoreIssued(x, now, permitted, lost)]);
            var e, d := s.executors[x], s.executors[x].phase.decision;
            && e.operation in s.core.tables.operations
            && KeepsNewer(s, t, e.actor, s.core.tables.operations[e.operation].view) && t.entries == s.entries
            && t.executors == s.executors[x := e.(phase :=
                 if lost then Done(Thrown("STORE_UNAVAILABLE"))
                 else if permitted && now < d.notAfter then Claiming(d)
                 else Done(Thrown("TOOL_NOT_ALLOWED")))]
  {
    hide Run, Step, Inv, Known, Admitted, L.PutTx, C.Kept, KeepsNewer, LocalIssued;
    var s := Run(p, validate, labels);
    var e := s.executors[x];
    RunKeeps(p, validate, labels);
    RunSnoc(p, validate, labels, StoreIssued(x, now, permitted, lost));
    Applies(p, validate, s, StoreIssued(x, now, permitted, lost));
    IssuedViewAgrees(p, validate, labels, x);
    ExecutorKnows(p, validate, s, x);
    IssuedIsKept(p, validate, s.core, e);
    PutKeepsTheNewer(p, validate, s, Step(p, validate, s, StoreIssued(x, now, permitted, lost)), e.actor,
                     LocalIssued(e.phase.snapshot, e.phase.decision));
  }

  /** A refusal's view is stored and returned; a view in a reply is stored for the caller's context. */
  lemma StoreRefusalAnswers(p: Provider, validate: Validator, labels: seq<Label>, x: nat, lost: bool)
    requires var s := Run(p, validate, labels); x in s.executors && s.executors[x].phase.Refused?
    ensures var s, t := Run(p, validate, labels), Run(p, validate, labels + [StoreRefusal(x, lost)]);
            var e, v := s.executors[x], s.executors[x].phase.view;
            && KeepsNewer(s, t, e.actor, v) && t.entries == s.entries
            && t.executors ==
               s.executors[x := e.(phase := Done(if lost then Thrown("STORE_UNAVAILABLE") else Incomplete(v)))]
  {
    hide Run, Inv, L.PutTx, C.Kept, KeepsNewer, C.Step, Answers, C.ViewsIn, StepGet, StepLookup, StepReceive,
         StepStoreIssued, StepClaim, StepDispatch, StepFinish, StepAsk;
    var s := Run(p, validate, labels);
    RunKeeps(p, validate, labels);
    RunSnoc(p, validate, labels, StoreRefusal(x, lost));
    ExecutorKnows(p, validate, s, x);
    PutKeepsTheNewer(p, validate, s, Step(p, validate, s, StoreRefusal(x, lost)), s.executors[x].actor,
                     s.executors[x].phase.view);
  }

  lemma StoreReplyAnswers(p: Provider, validate: Validator, labels: seq<Label>, pid: nat, i: nat)
    requires var c := Run(p, validate, labels).core;
             && pid in c.workers && c.workers[pid].phase.Replied? && c.workers[pid].phase.result.Ok?
             && i < |C.ViewsIn(c.workers[pid].phase.result.value.body)|
    ensures var s, t := Run(p, validate, labels), Run(p, validate, labels + [StoreReply(pid, i)]);
            var w := s.core.workers[pid];
            && KeepsNewer(s, t, w.request.actor, C.ViewsIn(w.phase.result.value.body)[i])
            && t.entries == s.entries && t.executors == s.executors
  {
    hide Run, Inv, L.PutTx, C.Kept, KeepsNewer, C.Step, Answers, C.ViewsIn, StepGet, StepLookup, StepReceive,
         StepStoreIssued, StepClaim, StepDispatch, StepFinish, StepAsk, C.Inv;
    var s := Run(p, validate, labels);
    RunKeeps(p, validate, labels);
    RunSnoc(p, validate, labels, StoreReply(pid, i));
    var v := C.ViewsIn(s.core.workers[pid].phase.result.value.body)[i];
    KnowsCore(p, validate, s);
    ReplyKept(s.core, pid, v);
    PutKeepsTheNewer(p, validate, s, Step(p, validate, s, StoreReply(pid, i)), s.core.workers[pid].request.actor, v);
  }

  lemma KnowsCore(p: Provider, validate: Validator, s: System)
    requires Inv(p, validate, s)
    ensures C.Inv(s.core)
  {
    hide C.Inv, Snapshots, Executors, Rows, Entries;
  }

  /** A recorded result found by a claim reaches the caller exactly with permission. */
  lemma RepeatAnswers(p: Provider, validate: Validator, s: System, x: nat, permitted: bool)
    requires x in s.executors && s.executors[x].phase.Replaying?
    ensures var e := s.executors[x];
            Step(p, validate, s, Repeat(x, permitted)) == s.(executors := s.executors[x := e.(phase := Done(
              if permitted then Business(L.KeyOf(e.actor, e.phase.decision), e.phase.result)
              else Thrown("TOOL_NOT_ALLOWED")))])
  {
    hide C.Step, Answers, L.PutTx, C.ViewsIn, StepGet, StepLookup, StepReceive, StepStoreIssued, StepClaim,
         StepDispatch, StepFinish, StepAsk;
  }

  /** A dispatched executor enters the handler once, with the decided tool and its own arguments. */
  lemma EnterAnswers(p: Provider, validate: Validator, s: System, x: nat)
    requires x in s.executors && s.executors[x].phase.Dispatched?
    ensures var e := s.executors[x];
            var d, f := e.phase.decision, e.phase.fence;
            Step(p, validate, s, Enter(x)) ==
            s.(executors := s.executors[x := e.(phase := Handling(d, f))],
               entries :=
                   s.entries + [Entry(e.operation, e.actor, L.KeyOf(e.actor, d), f, d.toolId, e.args, e.mutation)])
  {
    hide C.Step, Answers, L.PutTx, C.ViewsIn, StepGet, StepLookup, StepReceive, StepStoreIssued, StepClaim,
         StepDispatch, StepFinish, StepAsk;
  }
}
