/** In every reachable state the catalog lists what an operation offers, so of the two cases in which the cores
    part only one arises: a request that spells the stored revision as a float. */
module Parity {
  import opened Wire
  import opened Operation
  import opened Core
  import CoreRuns
  import RustOperation
  import Witness

  lemma CatalogNeverMisses(validate: Validator, labels: seq<CoreRuns.Label>, id: Id, actor: Actor, action: Action,
                           now: Instant)
    requires id in CoreRuns.Run(validate, labels).tables.operations
    ensures var t := CoreRuns.Run(validate, labels).tables;
            var stored := t.operations[id];
            WellFormed(stored.view) && !RustOperation.CatalogMiss(CatalogOf(t, stored.view), stored, actor, action, now)
  {
    hide CoreRuns.Run, CoreRuns.Fences, CoreRuns.OncePerKey, CoreRuns.RepliesPublished, CoreRuns.Bundles,
         CoreRuns.KeysDistinct, CoreRuns.AnswersTruthful, WellFormed;
    CoreRuns.RunKeeps(validate, labels);
    var s := CoreRuns.Run(validate, labels);
    CoreRuns.StoredWellFormed(s, id);
    assert CoreRuns.OffersKnown(s, id);
  }

  /** On any row of any reachable state, present or not, the Rust core refuses to load what the Go core refuses, and
      otherwise makes the same step exactly unless the request spells the stored revision as a float; then the Rust
      core alone sees a conflict. */
  method Mutate(validate: Validator, ghost labels: seq<CoreRuns.Label>, ghost id: Id, catalog: Option<seq<Tool>>,
                receipts: map<Id, RustOperation.Json>, row: Option<RustOperation.Row>,
                actor: Actor, body: RustOperation.Body, now: Instant, ids: Ids)
    returns (r: Result<RustOperation.RustOutcome, Failure>)
    requires RustOperation.Admissible(body)
    requires var t := CoreRuns.Run(validate, labels).tables;
             && RustOperation.HoldsRow(row, t.operations, id) && RustOperation.SameReceipts(receipts, t.receipts)
             && (id in t.operations ==> catalog == CatalogOf(t, t.operations[id].view))
    ensures var t := CoreRuns.Run(validate, labels).tables;
            match Load(t.operations, actor, id)
            case Err(f) => r == Err(f)
            case Ok(stored) =>
              var go := Transition(validate, catalog, t.receipts, stored, actor, RustOperation.Decoded(body), now, ids);
              && (RustOperation.Agree(r, go) <==> !RustOperation.FloatRevision(stored.view, body, now))
              && (RustOperation.FloatRevision(stored.view, body, now) ==> r == Err(RustOperation.CONFLICT))
  {
    hide CoreRuns.Run, RustOperation.Encodes, RustOperation.Agree, RustOperation.CatalogMiss,
         RustOperation.FloatRevision,
         RustOperation.SameReceipts, Transition, WellFormed;
    ghost var t := CoreRuns.Run(validate, labels).tables;
    var loaded := RustOperation.LoadRow(row, actor, t.operations, id);
    if loaded.Err? { return Err(loaded.error); }
    var found := loaded.value;
    CatalogNeverMisses(validate, labels, id, actor, RustOperation.Decoded(body), now);
    r := RustOperation.Mutate(validate, catalog, receipts, found.view, t.operations[id], t.receipts,
                              found.allowed, found.expires, actor, body, now, ids);
  }

  /** That case is reachable: an operation just prepared has revision 1, and a cancel that expects 1.0 is accepted by
      the Go core and refused by the Rust core. */
  lemma FloatCancelParts(validate: Validator) returns (labels: seq<CoreRuns.Label>, id: Id)
    ensures id in CoreRuns.Run(validate, labels).tables.operations
    ensures var s := CoreRuns.Run(validate, labels);
            var stored, body := s.tables.operations[id], RustOperation.CancelBody(RustOperation.Float(1));
            && stored.view.revision == 1 && RustOperation.FloatRevision(stored.view, body, s.now)
            && forall catalog, ids :: Transition(validate, catalog, s.tables.receipts, stored, stored.actor,
                                                 RustOperation.Decoded(body), s.now, ids).Ok?
  {
    hide CoreRuns.Run;
    labels, id := Witness.PrepareOne(0), 1;
    Witness.Prepares(validate, 0);
  }
}
