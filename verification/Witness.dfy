/** Runs spelled out step by step: what the results speak about does occur. */
module Witness {
  import opened Wire
  import opened Operation
  import opened Core
  import C = CoreRuns
  import P = Protocol
  import L = Ledger
  import A = CoreAnswers
  import E = Executions

  /* ----- One shop ----- */

  const SHOP := CatalogKey("shop", "1")
  const PAY := Tool("pay", "pay", "Pay", "Pays", [], [], Write, false, "{}")
  const ANN := Actor("ann", "shop", "1", ["pay"])
  const INTENT := Request(ANN, PrepareBody("shop", "1", "pay", "", NO_ARGUMENTS))
  const KEY := Text("key")

  /** An evaluator that finds no issue. */
  const CONTENT: Validator := (_, _) => ([], [])

  /** The view that the preparation creates. */
  function FirstOf(validate: Validator, at: Instant): View {
    MakeReady(validate, FirstView(1, SHOP.id, SHOP.version, at, "no_authorized_tools"), PAY, NO_ARGUMENTS)
  }

  /* ----- The core ----- */

  lemma RunSnoc(validate: Validator, labels: seq<C.Label>, l: C.Label)
    ensures C.Run(validate, labels + [l]) == C.Step(validate, C.Run(validate, labels), l)
  {
    assert (labels + [l])[..|labels|] == labels;
  }

  /** The first worker owns its claim over an otherwise empty database. */
  ghost predicate Owning(s: C.State) {
    && s.tables == Tables(map[SHOP := [PAY]], map[],
                          map[C.KeyOf(INTENT, KEY) := IdemRow(Hmac(INTENT), 0, LEASE, None)], map[])
    && s.workers == map[0 := C.Worker(INTENT, KEY, C.Working(0))] && s.now == 0 && s.next == 1
    && s.log == []
  }

  const CLAIM: seq<C.Label> := [C.Upload(SHOP, [PAY]), C.Arrive(0, INTENT, KEY), C.Guard(0), C.Reserve(0, false)]

  lemma Owns(validate: Validator)
    ensures Owning(C.Run(validate, CLAIM))
  {
    hide C.KeyOf, C.StepPrepare, C.StepWorkflow, C.StepAct;
    var u, a, g, r := C.Upload(SHOP, [PAY]), C.Arrive(0, INTENT, KEY), C.Guard(0), C.Reserve(0, false);
    RunSnoc(validate, [], u);
    assert [] + [u] == [u] && [u] + [a] == [u, a] && [u, a] + [g] == [u, a, g] && [u, a, g] + [r] == CLAIM;
    RunSnoc(validate, [u], a);
    RunSnoc(validate, [u, a], g);
    RunSnoc(validate, [u, a, g], r);
  }

  /** The operation exists with the given view, and the first worker has answered it. */
  ghost predicate Prepared(s: C.State, view: View) {
    && s.tables.catalogs == map[SHOP := [PAY]] && s.tables.operations == map[1 := Stored(ANN, view)]
       && s.tables.receipts == map[]
    && s.tables.idempotency.Keys == {C.KeyOf(INTENT, KEY)}
    && s.workers == map[0 := C.Worker(INTENT, KEY, C.Replied(Ok(Reply(201, ViewResponse(view)))))]
    && s.now == 0 && s.next == 2
    && s.log == [C.Publication(INTENT, KEY, 0, Reply(201, ViewResponse(view)), {1})]
  }

  lemma Commits(validate: Validator, s: C.State, at: Instant)
    requires Owning(s)
    ensures Prepared(C.Step(validate, s, C.CommitPrepare(0, Chosen(PAY), true, at, false)), FirstOf(validate, at))
  {
    var view := FirstOf(validate, at);
    FirstIsPrepared(validate, at);
    hide C.KeyOf, Prepare, FirstOf, C.StepWorkflow, C.StepAct, C.StepReserve, C.StepGuard, PutCatalogTx;
    assert [view][..0] == [];
    OneCreated(view);
    assert Inserted(map[], ANN, [view]) == map[1 := Stored(ANN, view)];
  }

  lemma FirstIsPrepared(validate: Validator, at: Instant)
    ensures var view := FirstOf(validate, at);
            && Prepare(validate, SHOP.id, SHOP.version, [PAY], ANN.allowed, true, Chosen(PAY), NO_ARGUMENTS, 1, at) ==
               Ok(view)
            && view.id == 1 && view.revision == 1 && view.status in {Ready, NeedsArguments}
               && view.expires == at + LIFETIME
            && view.selected == Some(Select(PAY)) && view.catalogId == SHOP.id && view.version == SHOP.version
  {
  }

  function PrepareOne(at: Instant): seq<C.Label> { CLAIM + [C.CommitPrepare(0, Chosen(PAY), true, at, false)] }

  lemma Prepares(validate: Validator, at: Instant)
    ensures var s, view := C.Run(validate, PrepareOne(at)), FirstOf(validate, at);
            && Prepared(s, view) && view.id == 1 && view.revision == 1 && view.status in {Ready, NeedsArguments}
            && view.expires == at + LIFETIME
  {
    hide C.Run, C.Step, C.KeyOf, FirstOf, CLAIM;
    Owns(validate);
    Commits(validate, C.Run(validate, CLAIM), at);
    RunSnoc(validate, CLAIM, C.CommitPrepare(0, Chosen(PAY), true, at, false));
    FirstIsPrepared(validate, at);
  }

  /** A run in which a request is sent again with its key, and gets its first answer again; nothing is created twice. */
  lemma RetryIsAnswered() returns (labels: seq<C.Label>)
    ensures var s := C.Run(CONTENT, labels);
            && 0 in s.workers && 1 in s.workers && s.workers[0].request == s.workers[1].request
            && s.workers[1].phase == s.workers[0].phase == C.Replied(Ok(Reply(201, ViewResponse(FirstOf(CONTENT, 0)))))
            && |s.log| == 1 && s.tables.operations.Keys == {1}
  {
    hide C.Run, C.KeyOf, C.StepReserve, C.StepAct, C.StepPrepare, C.StepWorkflow, PutCatalogTx, ReleaseTx, FirstOf,
         PrepareOne;
    Prepares(CONTENT, 0);
    var start, arrive := PrepareOne(0), C.Arrive(1, INTENT, KEY);
    RunSnoc(CONTENT, start, arrive);
    RunSnoc(CONTENT, start + [arrive], C.Guard(1));
    var asked := start + [arrive] + [C.Guard(1)];
    A.PublishedIsReplayed(CONTENT, asked, 1, 0);
    labels := asked + [C.Reserve(1, false)];
    RunSnoc(CONTENT, asked, C.Reserve(1, false));
    Replays(C.Run(CONTENT, asked));
  }

  /** A reservation that finds the answer changes nothing but the worker. */
  lemma Replays(s: C.State)
    requires 1 in s.workers && s.workers[1] == C.Worker(INTENT, KEY, C.Checked)
    ensures var t := C.Step(CONTENT, s, C.Reserve(1, false));
            t.log == s.log && t.tables.operations == s.tables.operations && t.workers.Keys == s.workers.Keys
            && (0 in s.workers ==> t.workers[0] == s.workers[0]) && t.workers[1].request == INTENT
  {
  }

  function DecideRequest(args: Args): Request { Request(ANN, ActBody(1, Decide(1, args))) }

  /** A second worker has arrived with a decision request for the operation. */
  ghost predicate Asked(s: C.State, view: View, args: Args, key: Token) {
    && s.tables.catalogs == map[SHOP := [PAY]] && s.tables.operations == map[1 := Stored(ANN, view)]
       && s.tables.receipts == map[]
    && s.tables.idempotency.Keys == {C.KeyOf(INTENT, KEY)}
    && 1 in s.workers && s.workers[1] == C.Worker(DecideRequest(args), key, C.Arrived) && s.next == 2
  }

  /** What is ready to be decided. */
  predicate Decidable(view: View, now: Instant) {
    && view.id == 1 && view.revision == 1 && view.status == Ready && view.selected == Some(Select(PAY))
    && now + SECOND <= Deadline(view.expires)
  }

  lemma Guarded(s: C.State, view: View, args: Args, key: Token)
    requires Asked(s, view, args, key) && Decidable(view, s.now)
    ensures C.StepGuard(s, 1) == s.(workers := s.workers[1 := C.Worker(DecideRequest(args), key, C.Checked)])
  {
  }

  lemma Reserved(s: C.State, view: View, args: Args, key: Token)
    requires Asked(s, view, args, key)
    ensures var a := s.(workers := s.workers[1 := C.Worker(DecideRequest(args), key, C.Checked)]);
            var c := C.KeyOf(DecideRequest(args), key);
            C.StepReserve(a, 1, false)
            == a.(workers := s.workers[1 := C.Worker(DecideRequest(args), key, C.Working(2))], next := 3,
                  tables :=
                      s.tables.(idempotency :=
                                s.tables.idempotency[c := IdemRow(Hmac(DecideRequest(args)), 2, s.now + LEASE, None)]))
  {
    assert C.KeyOf(DecideRequest(args), key).path != C.KeyOf(INTENT, KEY).path;
  }

  /** The decision that the request gets. */
  function DecisionOf(view: View, args: Args, now: Instant): Decision
    requires view.selected.Some?
  {
    IssueDecision(view, view.selected.value, args, now, Ids(3, 4))
  }

  lemma Acted(s: C.State, view: View, args: Args, key: Token)
    requires s.tables.catalogs == map[SHOP := [PAY]] && s.tables.operations == map[1 := Stored(ANN, view)]
             && s.tables.receipts == map[]
    requires 1 in s.workers && s.workers[1] == C.Worker(DecideRequest(args), key, C.Working(2)) && s.next == 3
    requires var c := C.KeyOf(DecideRequest(args), key);
             c in s.tables.idempotency
                 && s.tables.idempotency[c] == IdemRow(Hmac(DecideRequest(args)), 2, s.now + LEASE, None)
    requires Decidable(view, s.now)
    ensures var t := C.StepAct(CONTENT, s, 1, false);
            var d := DecisionOf(view, args, s.now);
            && t.tables.operations == map[1 := Stored(ANN, IssuedView(view, d))] && t.now == s.now
            && t.workers ==
               s.workers[1 := C.Worker(DecideRequest(args), key, C.Replied(Ok(Reply(200, DecisionResponse(d)))))]
  {
    hide C.KeyOf, Deadline;
    DecideAccepts(view, args, s.now);
    hide TransitionDecide, IssuedView, IssueDecision;
  }

  lemma DecideAccepts(view: View, args: Args, now: Instant)
    requires Decidable(view, now)
    ensures var d := DecisionOf(view, args, now);
            TransitionDecide(CONTENT, map[], view, 1, args, now, Ids(3, 4))
            == Ok(Outcome(IssuedView(view, d), map[], DecisionResponse(d)))
    ensures now < Deadline(view.expires)
  {
    hide Deadline;
  }

  /** The three steps of the second worker. */
  function Served(s: C.State): C.State {
    C.Step(CONTENT, C.Step(CONTENT, C.Step(CONTENT, s, C.Guard(1)), C.Reserve(1, false)), C.CommitAct(1, false))
  }

  lemma Serves(s: C.State, view: View, args: Args, key: Token)
    requires Asked(s, view, args, key) && Decidable(view, s.now)
    ensures var d := DecisionOf(view, args, s.now);
            && Served(s).tables.operations == map[1 := Stored(ANN, IssuedView(view, d))] && Served(s).now == s.now
            && Served(s).workers ==
               s.workers[1 := C.Worker(DecideRequest(args), key, C.Replied(Ok(Reply(200, DecisionResponse(d)))))]
  {
    hide C.KeyOf, C.StepGuard, C.StepReserve, C.StepAct, C.StepPrepare, C.StepWorkflow, PutCatalogTx, ReleaseTx,
         Decidable, DecisionOf;
    Guarded(s, view, args, key);
    Reserved(s, view, args, key);
    var b := C.StepReserve(C.StepGuard(s, 1), 1, false);
    Acted(b, view, args, key);
  }

  /* ----- A decision may outlast the expiry that its view shows ----- */

  /** The preparation falls on the upper part of a microsecond, and the decision is asked for in the last minute. */
  lemma DecisionOutlasts() returns (labels: seq<C.Label>, id: Id)
    ensures id in C.Run(CONTENT, labels).tables.operations
    ensures var view := C.Run(CONTENT, labels).tables.operations[id].view;
            view.decision.Some? && view.decision.value.notAfter == view.expires + 400
  {
    hide C.Run, C.KeyOf, C.StepGuard, C.StepReserve, C.StepAct, C.StepPrepare, C.StepWorkflow, PutCatalogTx, ReleaseTx,
         Deadline;
    var view, args, key := FirstOf(CONTENT, 600), NO_ARGUMENTS, Text("decide");
    Prepares(CONTENT, 600);
    FirstIsPrepared(CONTENT, 600);
    var start, tick, arrive := PrepareOne(600), C.Tick(LIFETIME - 30 * SECOND), C.Arrive(1, DecideRequest(args), key);
    RunSnoc(CONTENT, start, tick);
    RunSnoc(CONTENT, start + [tick], arrive);
    var asked := start + [tick] + [arrive];
    LateDeadline();
    assert Asked(C.Run(CONTENT, asked), view, args, key);
    Serves(C.Run(CONTENT, asked), view, args, key);
    RunSnoc(CONTENT, asked, C.Guard(1));
    RunSnoc(CONTENT, asked + [C.Guard(1)], C.Reserve(1, false));
    RunSnoc(CONTENT, asked + [C.Guard(1)] + [C.Reserve(1, false)], C.CommitAct(1, false));
    labels, id := asked + [C.Guard(1)] + [C.Reserve(1, false)] + [C.CommitAct(1, false)], 1;
  }

  lemma LateDeadline()
    ensures Deadline(600 + LIFETIME) == LIFETIME + 1000
  {
  }

  /* ----- A handler is entered ----- */

  const PROVIDER := P.Provider("shop", "1", [PAY])
  const VIEW: View := FirstOf(CONTENT, 0)
  const DECISION: Decision := IssueDecision(VIEW, Select(PAY), NO_ARGUMENTS, 0, Ids(3, 4))
  const DONE := L.Payload("done", false)

  function Executing(phase: P.Phase): P.Executor { P.Executor(ANN, 1, 1, NO_ARGUMENTS, true, phase) }

  lemma Snoc(labels: seq<P.Label>, l: P.Label)
    ensures P.Run(PROVIDER, CONTENT, labels + [l]) == P.Step(PROVIDER, CONTENT, P.Run(PROVIDER, CONTENT, labels), l)
  {
    assert (labels + [l])[..|labels|] == labels;
  }

  function CoreSteps(steps: seq<C.Label>): seq<P.Label> {
    seq(|steps|, i requires 0 <= i < |steps| => P.CoreStep(steps[i]))
  }

  lemma {:induction false} CoreAlone(steps: seq<C.Label>)
    ensures P.Run(PROVIDER, CONTENT, CoreSteps(steps)) == P.Init().(core := C.Run(CONTENT, steps))
  {
    hide C.Step;
    if steps != [] {
      var front, last := steps[..|steps| - 1], steps[|steps| - 1];
      CoreAlone(front);
      assert CoreSteps(steps) == CoreSteps(front) + [P.CoreStep(last)];
      Snoc(CoreSteps(front), P.CoreStep(last));
    }
  }

  /** What the provider knows of the view and the decision. */
  lemma ShopFacts()
    ensures VIEW.id == 1 && VIEW.revision == 1 && VIEW.status == Ready && VIEW.selected == Some(Select(PAY))
    ensures VIEW.expires == LIFETIME && Decidable(VIEW, 0) && DecisionOf(VIEW, NO_ARGUMENTS, 0) == DECISION
    ensures P.Bindings(PROVIDER, VIEW, Select(PAY), ANN) == Ok(PAY)
            && P.Matches(VIEW, Select(PAY), DECISION, NO_ARGUMENTS)
    ensures DECISION.notAfter == MINUTE
  {
  }

  ghost predicate Snapshot(t: L.Tables, view: View) {
    && L.PrepKeyOf(ANN, 1) in t.preparations
    && t.preparations[L.PrepKeyOf(ANN, 1)] == L.PrepRow(view.revision, "1", view, view.expires)
  }

  /** The snapshot is stored. */
  lemma Stores(s: P.System)
    requires s == P.Init().(core := s.core) && Prepared(s.core, VIEW)
    ensures var t := P.Step(PROVIDER, CONTENT, s, P.StoreReply(0, 0));
            t == s.(ledger := t.ledger) && t.ledger.executions == map[] && Snapshot(t.ledger, VIEW)
  {
    hide C.KeyOf, VIEW;
    ShopFacts();
  }

  /** The executor reads it and asks the core. */
  lemma Asks(s: P.System)
    requires Prepared(s.core, VIEW) && s.executors == map[0 := Executing(P.Begun)]
             && Snapshot(s.ledger, VIEW)
    ensures var t := P.StepGet(PROVIDER, CONTENT, s, 0, true);
            t.executors == map[0 := Executing(P.Looked(VIEW))]
            && P.StepLookup(t, 0, 0) == s.(executors := map[0 := Executing(P.Asking(VIEW))])
    ensures var t := s.(executors := map[0 := Executing(P.Asking(VIEW))]);
            var u := P.StepAsk(CONTENT, t, 0, 1);
            u == t.(core := u.core) && Asked(u.core, VIEW, NO_ARGUMENTS, DecisionToken(1, 1, NO_ARGUMENTS))
                && u.core.now == 0
  {
    hide C.KeyOf, C.StepGuard, C.StepReserve, C.StepAct, C.StepPrepare, C.StepWorkflow, PutCatalogTx, ReleaseTx, VIEW,
         P.Bindings;
    ShopFacts();
  }

  /** With the core's decision, the executor stores the issued view and claims the execution. */
  lemma Claims(s: P.System)
    requires s.executors == map[0 := Executing(P.Asking(VIEW))] && s.ledger.executions == map[] && s.next == 0
    requires Snapshot(s.ledger, VIEW)
    requires 1 in s.core.workers
             && s.core.workers[1] == C.Worker(DecideRequest(NO_ARGUMENTS), DecisionToken(1, 1, NO_ARGUMENTS),
                                             C.Replied(Ok(Reply(200, DecisionResponse(DECISION)))))
    ensures P.Answers(s, 0, 1)
    ensures var a := P.StepReceive(s, 0, 1);
            && a == s.(executors := map[0 := Executing(P.Issuing(VIEW, DECISION))])
            && var b := P.StepStoreIssued(a, 0, 0, true, false);
               && b.executors == map[0 := Executing(P.Claiming(DECISION))] && b.entries == s.entries
               && Holding(P.StepClaim(b, 0, 0, false)) && P.StepClaim(b, 0, 0, false).entries == s.entries
  {
    ShopFacts();
    IssuedFacts();
    hide VIEW, DECISION, P.Bindings, P.Matches, P.LocalIssued;
  }

  const ISSUED: View := P.LocalIssued(VIEW, DECISION)
  const ROW := L.ExecRow(DECISION.argumentsDigest, DECISION.toolId, DECISION.version, L.Claimed, 0, None, L.RETENTION)

  lemma IssuedFacts()
    ensures P.LocalIssued(VIEW, DECISION) == ISSUED && ISSUED.id == 1 && ISSUED.revision == 2
    ensures ISSUED.expires == LIFETIME && ISSUED.status == DecisionIssued
    ensures ISSUED.selected == Some(Select(PAY)) && ISSUED.decision == Some(DECISION)
    ensures ISSUED.catalogId == "shop" && ISSUED.version == "1" && DECISION.argumentsDigest == Sha256(NO_ARGUMENTS)
  {
  }

  ghost predicate Holding(s: P.System) {
    && s.executors == map[0 := Executing(P.Holding(DECISION, 0))]
    && var k := L.KeyOf(ANN, DECISION);
       && k in s.ledger.executions && s.ledger.executions[k] == ROW
       && Snapshot(s.ledger, ISSUED)
  }

  const ENTRY := P.Entry(1, ANN, L.KeyOf(ANN, DECISION), 0, "pay", NO_ARGUMENTS, true)

  ghost predicate Recorded(t: L.Tables) {
    && L.KeyOf(ANN, DECISION) in t.executions
    && t.executions[L.KeyOf(ANN, DECISION)] == ROW.(state := L.Succeeded, result := Some(DONE))
    && Snapshot(t, ISSUED)
  }

  /** It dispatches, enters the handler, and records the result. */
  lemma Enters(s: P.System)
    requires Holding(s) && s.entries == []
    ensures var d := P.StepDispatch(s, 0, 0, false, false);
            && d.executors == map[0 := Executing(P.Dispatched(DECISION, 0))]
            && var e := P.StepEnter(d, 0);
               && e.executors == map[0 := Executing(P.Handling(DECISION, 0))] && e.entries == [ENTRY]
               && var f := P.StepFinish(e, 0, Some(DONE), true, false);
                  && f.executors == map[0 := Executing(P.Done(P.Business(L.KeyOf(ANN, DECISION), DONE)))]
                  && f.entries == [ENTRY] && Recorded(f.ledger)
  {
    ShopFacts();
    ToolIs();
    hide VIEW, DECISION;
  }

  lemma ToolIs()
    ensures DECISION.toolId == "pay"
  {
  }

  /** What each label does when it applies. */
  lemma Applies(s: P.System)
    ensures var step := (l: P.Label) => P.Step(PROVIDER, CONTENT, s, l);
            && (forall c :: step(P.CoreStep(c)) == s.(core := C.Step(CONTENT, s.core, c)))
            && (s.executors == map[] ==>
                  step(P.Begin(0, ANN, 1, 1, NO_ARGUMENTS, true)) == s.(executors := map[0 := Executing(P.Begun)]))
            && (0 in s.executors ==>
                  match s.executors[0].phase
                  case Begun => step(P.GetSnapshot(0, true)) == P.StepGet(PROVIDER, CONTENT, s, 0, true)
                  case Looked(_) => step(P.Lookup(0, 0)) == P.StepLookup(s, 0, 0)
                  case Asking(_) =>
                    && step(P.Ask(0, 1)) == P.StepAsk(CONTENT, s, 0, 1)
                    && (P.Answers(s, 0, 1) ==> step(P.Receive(0, 1)) == P.StepReceive(s, 0, 1))
                  case Issuing(_, _) =>
                    step(P.StoreIssued(0, 0, true, false)) == P.StepStoreIssued(s, 0, 0, true, false)
                  case Claiming(_) => step(P.Claim(0, 0, false)) == P.StepClaim(s, 0, 0, false)
                  case Holding(_, _) => step(P.Dispatch(0, 0, false, false)) == P.StepDispatch(s, 0, 0, false, false)
                  case Dispatched(_, _) => step(P.Enter(0)) == P.StepEnter(s, 0)
                  case Handling(_, _) =>
                    step(P.Finish(0, Some(DONE), true, false)) == P.StepFinish(s, 0, Some(DONE), true, false)
                  case _ => true)
  {
    hide C.Step, P.StepGet, P.StepLookup, P.StepAsk, P.StepReceive, P.StepStoreIssued, P.StepClaim,
         P.StepDispatch, P.StepEnter, P.StepFinish, P.Answers, L.PutTx;
  }

  /** A run goes on by one label. */
  lemma Onward(labels: seq<P.Label>, l: P.Label) returns (all: seq<P.Label>)
    ensures P.Run(PROVIDER, CONTENT, all) == P.Step(PROVIDER, CONTENT, P.Run(PROVIDER, CONTENT, labels), l)
  {
    hide P.Step, P.Run;
    Snoc(labels, l);
    all := labels + [l];
  }

  ghost predicate AsksCore(s: P.System) {
    && s.executors == map[0 := Executing(P.Asking(VIEW))] && s.ledger.executions == map[] && s.next == 0
       && s.entries == [] && Snapshot(s.ledger, VIEW)
    && Asked(s.core, VIEW, NO_ARGUMENTS, DecisionToken(1, 1, NO_ARGUMENTS)) && s.core.now == 0
  }

  lemma ViewIs()
    ensures VIEW == FirstOf(CONTENT, 0)
  {
  }

  lemma RunToTheCore() returns (labels: seq<P.Label>)
    ensures AsksCore(P.Run(PROVIDER, CONTENT, labels))
  {
    hide C.Run, C.Step, P.Run, P.Step, VIEW, P.StepGet, P.StepLookup, P.StepAsk, C.KeyOf, L.GetTx, PrepareOne,
         CoreSteps;
    Prepares(CONTENT, 0);
    CoreAlone(PrepareOne(0));
    labels := CoreSteps(PrepareOne(0));
    ViewIs();
    Stores(P.Run(PROVIDER, CONTENT, labels));
    labels := Onward(labels, P.StoreReply(0, 0));
    Applies(P.Run(PROVIDER, CONTENT, labels));
    labels := Onward(labels, P.Begin(0, ANN, 1, 1, NO_ARGUMENTS, true));
    Asks(P.Run(PROVIDER, CONTENT, labels));
    Applies(P.Run(PROVIDER, CONTENT, labels));
    labels := Onward(labels, P.GetSnapshot(0, true));
    Applies(P.Run(PROVIDER, CONTENT, labels));
    labels := Onward(labels, P.Lookup(0, 0));
    Applies(P.Run(PROVIDER, CONTENT, labels));
    labels := Onward(labels, P.Ask(0, 1));
  }

  lemma RunToTheDecision() returns (labels: seq<P.Label>)
    ensures var s := P.Run(PROVIDER, CONTENT, labels);
            && s.executors == map[0 := Executing(P.Asking(VIEW))] && s.ledger.executions == map[] && s.next == 0
               && s.entries == [] && Snapshot(s.ledger, VIEW)
            && 1 in s.core.workers
            && s.core.workers[1] == C.Worker(DecideRequest(NO_ARGUMENTS), DecisionToken(1, 1, NO_ARGUMENTS),
                                             C.Replied(Ok(Reply(200, DecisionResponse(DECISION)))))
  {
    hide C.Run, C.Step, P.Run, P.Step, VIEW, DECISION, C.KeyOf, Asked, Decidable, DecisionOf;
    labels := RunToTheCore();
    var s := P.Run(PROVIDER, CONTENT, labels);
    ShopFacts();
    Serves(s.core, VIEW, NO_ARGUMENTS, DecisionToken(1, 1, NO_ARGUMENTS));
    Applies(s);
    labels := Onward(labels, P.CoreStep(C.Guard(1)));
    Applies(P.Run(PROVIDER, CONTENT, labels));
    labels := Onward(labels, P.CoreStep(C.Reserve(1, false)));
    Applies(P.Run(PROVIDER, CONTENT, labels));
    labels := Onward(labels, P.CoreStep(C.CommitAct(1, false)));
  }

  /** A run in which the handler is entered with the decided arguments, and its result reaches the caller. */
  lemma HandlerIsEntered() returns (labels: seq<P.Label>)
    ensures var s := P.Run(PROVIDER, CONTENT, labels);
            && s.entries == [ENTRY] && Recorded(s.ledger)
            && s.executors == map[0 := Executing(P.Done(P.Business(L.KeyOf(ANN, DECISION), DONE)))]
  {
    hide C.Run, C.Step, P.Run, P.Step, VIEW, DECISION, P.StepReceive, P.StepStoreIssued, P.StepClaim, P.StepDispatch,
         P.StepEnter,
         P.StepFinish, P.Answers, Holding;
    labels := RunToTheDecision();
    Claims(P.Run(PROVIDER, CONTENT, labels));
    Applies(P.Run(PROVIDER, CONTENT, labels));
    labels := Onward(labels, P.Receive(0, 1));
    Applies(P.Run(PROVIDER, CONTENT, labels));
    labels := Onward(labels, P.StoreIssued(0, 0, true, false));
    Applies(P.Run(PROVIDER, CONTENT, labels));
    labels := Onward(labels, P.Claim(0, 0, false));
    HoldsNow(P.Run(PROVIDER, CONTENT, labels));
    Enters(P.Run(PROVIDER, CONTENT, labels));
    Applies(P.Run(PROVIDER, CONTENT, labels));
    labels := Onward(labels, P.Dispatch(0, 0, false, false));
    Applies(P.Run(PROVIDER, CONTENT, labels));
    labels := Onward(labels, P.Enter(0));
    Applies(P.Run(PROVIDER, CONTENT, labels));
    labels := Onward(labels, P.Finish(0, Some(DONE), true, false));
  }

  lemma HoldsNow(s: P.System)
    requires Holding(s)
    ensures s.executors == map[0 := Executing(P.Holding(DECISION, 0))]
  {
  }

  /** A run in which a second caller gets the first caller's result, and the handler is not entered again. */
  lemma SecondCallerIsAnswered() returns (labels: seq<P.Label>)
    ensures var s := P.Run(PROVIDER, CONTENT, labels);
            && s.entries == [ENTRY] && 0 in s.executors && 1 in s.executors
            && s.executors[0].phase == s.executors[1].phase == P.Done(P.Business(L.KeyOf(ANN, DECISION), DONE))
  {
    hide P.Run, P.Step, VIEW, DECISION, ISSUED, E.Unchanged;
    var caller := P.Executor(ANN, 1, 2, NO_ARGUMENTS, true, P.Begun);
    labels := HandlerIsEntered();
    Begins(P.Run(PROVIDER, CONTENT, labels), caller);
    labels := Onward(labels, P.Begin(1, ANN, 1, 2, NO_ARGUMENTS, true));
    IssuedFacts();
    ProvidesPay();
    E.GetAnswers(PROVIDER, CONTENT, P.Run(PROVIDER, CONTENT, labels), 1, true);
    labels := Onward(labels, P.GetSnapshot(1, true));
    E.LookupAnswers(PROVIDER, CONTENT, labels, 1, 0);
    labels := labels + [P.Lookup(1, 0)];
  }

  lemma Begins(s: P.System, e: P.Executor)
    requires 1 !in s.executors && e.phase.Begun?
    ensures P.Step(PROVIDER, CONTENT, s, P.Begin(1, e.actor, e.operation, e.revision, e.args, e.mutation)) ==
            s.(executors := s.executors[1 := e])
  {
  }

  lemma ProvidesPay()
    ensures E.Unchanged(PROVIDER, Select(PAY))
  {
  }
}
