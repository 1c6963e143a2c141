# Toolgate, modelled and proved

Toolgate is a two-party protocol. A remote core, written in Go with a Rust alternative, selects tools for an intent and
issues execution decisions; a provider-side SDK with a durable ledger runs the handlers. This project models the decision
and dispatch protocol, the selection of tools, the bounded wire JSON, the schema profile and the call scheduler, and proves
what they promise.

The central result composes two guarantees. The core binds at most one decision to an operation, under a row lock, a revision
check and a fenced idempotency claim. The ledger gives an execution key at most one fence that dispatches. Together, in every
interleaving of any number of executors and workers, with crashes anywhere, lost commit acknowledgements, retries, lease
takeover and clocks about which the executors assume nothing, a business handler is entered at most once per operation, with
exactly the arguments the core bound.

## How it is built

| Files | What they hold |
|---|---|
| `Wire`, `Operation`, `RustOperation`, `Timestamps` | Shared types, the operation state machine of the Go core, the Rust core as edits of an object of fields, and how each writes an instant |
| `Core`, `CoreRuns`, `CoreAnswers`, `Parity` | The core's tables, its transactions as a class proved against functions, the step system of its workers, what each of their steps answers, and where the two cores part on reachable states |
| `Ledger`, `Protocol`, `ProtocolSafety`, `Executions`, `Witness` | The SDK's store, the whole protocol as a step system around the core's, its invariant and results, what becomes of one call label by label, and runs spelled out in which what they speak of occurs |
| `Sorting`, `Retrieval`, `Selector`, `SingleChoice`, `Workflow`, `Pool`, `Trace` | Retrieval, the three selection profiles, the worker pool, and the workflow trace |
| `WireJson`, `WireParser`, `WireGrammar`, `StrictJson` | The bounded JSON parser, its grammar and printer, and the strict readers of the two cores |
| `Patterns`, `Pointer`, `SchemaProfile`, `Issues` | Pattern matchers, JSON Pointers, the schema walk, and the reported order of issues |
| `Calls` | The call scheduler |

A concurrent system is a deterministic step function over labels; a run is a sequence of labels, and a label that does not
apply changes nothing, so every sequence is a run. Every database transaction is one atomic step. A commit whose
acknowledgement is lost is a label's choice. Code that updates fields or works through a loop is a method proved against a
function, and the results are proved of the function.

The methods of `Core.Store` and `Ledger.PostgresStore` run the statements of the source one after another and are proved to
refine the transaction functions (`ReserveTx`, `MutateTx`, `ClaimTx` and so on). The step systems are built from those
functions, as functions and lemmas cannot call methods, so each method's `ensures` is what links the code to the results.

A step may be safe and still answer wrongly, so each main operation also has a lemma that says what it answers, when and only
when, in terms of rows, labels, numbers and texts instead of the functions that compute it. They are called `...Exactly` for
one transaction, action or selection and `...Answers` for one step of a run.

Where the code and its documentation part, the model follows the code. These places are worth knowing.

- The Rust core compares the expected revision as a JSON number and keeps 1.0 apart from 1, where the Go core reads the value.
  A request that spells the stored revision as a float is accepted by Go and refused as a conflict by Rust. The schema admits
  both spellings. This is the only way in which the two steps differ (`Parity.Mutate`), and it is reachable
  (`Parity.FloatCancelParts`).
- A resolve whose catalog lacks the chosen tool answers the unchanged view in Go and an internal error in Rust;
  `Parity.CatalogNeverMisses` shows it unreachable.
- Inside validation the two cores sort issues differently when one path runs on behind a NUL where another ends. The exact
  condition is `Issues.CoresReportAlikeExactly`, on the findings alone `Issues.CoresReportFewAlike`, and an input is
  `Issues.SeparatorInPath`. A view that reports a NUL cannot be stored as jsonb, so such a request ends in an internal error,
  and wherever both cores answer, the reports are alike (`Issues.AnsweredReportsAlike`). Only Go keeps repeated missing paths
  (`Issues.MissingAgreesExactly`, `Issues.FewMissingAgreeExactly`, `Issues.BothBranchesMiss`).
- The Rust schema walk lets a reference step into a list by index, the Go walk does not. The Go core accepts a schema exactly
  when the Rust core does and no followed reference steps into a list (`SchemaProfile.WalksAgreeExactly`,
  `SchemaProfile.ListReferenceParts`).
- The cores may write one instant with different trailing zeros, and every reader takes both spellings for the same
  (`Timestamps.SpelledAlikeExactly`, `Timestamps.ReadAlike`).
- Option keys have at least four digits, and no more than four are read back, so the single-choice profile is right for up to
  9999 options and names another tool for the ten-thousandth (`SingleChoice.LongKeyNamesAnother`). Retrieval yields at most 64.
- The SDK decodes a workflow trace only when at most eight tools are exposed, so "any cap" in the trace's promise means any cap
  up to eight (`Trace.TraceSurvives`).
- "Decision validity never exceeds operation expiry" is true of the operation's expiry column, which keeps whole microseconds.
  Of the nanosecond `expires_at` that the view shows it is true exactly when a whole minute was left at the decision or the
  column is no later than the text, which the clock and the last three digits tell beforehand
  (`Operation.FirstDecisionEndsExactly`, `CoreRuns.ReachableDecisions`); `Witness.DecisionOutlasts` is a run in which a decision
  outlasts the text by 400 nanoseconds.

## Model

| member | source | states |
|---|---|---|
| `ProtocolSafety.HandlerEnteredOnce` | sdk-typescript/packages/sdk/src/provider.ts:465-609 | After every run of any number of executors and core workers (crashes, lost acknowledgements, retries, takeovers, arbitrary clocks), no two handler entries are for one operation |
| `Witness.HandlerIsEntered` | sdk-typescript/packages/sdk/src/provider.ts:465-609 | A run from the empty system, through preparation, decision, claim and dispatch, in which the handler is entered with the decided arguments and its recorded result reaches the caller |
| `Witness.SecondCallerIsAnswered` | sdk-typescript/packages/sdk/src/provider.ts:504-507 | The run goes on: a second caller gets the first caller's result, and the handler is not entered again |
| `ProtocolSafety.HandlerEnteredAsDecided` | sdk-typescript/packages/sdk/src/provider.ts:528-573 | Every entry has exactly the arguments whose digest the core bound, the bound tool, an actor allowed to use it, arguments valid under the provider's own schema, and the ledger row of that decision under its own fence, past claimed |
| `Executions.EnteredInTime` | sdk-typescript/packages/sdk/src/provider.ts:540-573 | Before every handler entry of every run its executor stored the issued view with permission while the decision was alive, and then, holding the claim, dispatched without abort before `not_after`; the decision is one the core issued |
| `Executions.LateDispatchNeverEnters` | sdk-typescript/packages/sdk/src/provider.ts:554-565 | A holder told to dispatch after `not_after` or an abort ends exactly its own row as failed before dispatch and throws, and that execution has no handler entry then or at any later time |
| `Executions.TimelyDispatch` | sdk-typescript/packages/sdk/src/provider.ts:554-566 | In time and without abort it marks exactly its own row as dispatching, and goes on unless the acknowledgement is lost |
| `Executions.EnterAnswers` | sdk-typescript/packages/sdk/src/provider.ts:567-573 | A dispatched executor enters the handler once, with the decided tool, its own arguments and the execution key |
| `Executions.FinishRecords` | sdk-typescript/packages/sdk/src/provider.ts:574-608 | A valid result is recorded as success or reported failure and returned, anything else as uncertain; an ending that is not applied leaves the row dispatching and answers EXECUTION_UNKNOWN |
| `Executions.ExistingRowAnswers` | sdk-typescript/packages/sdk/src/store.ts:104-140 | In every reachable state, for every decision the core issued: exactly the recorded result from a succeeded or failed row while it is kept, in progress from a claimed one, unknown from any other, unavailable once it is too old; a repeated claim answers the same and changes nothing |
| `Executions.LookupAnswers` | sdk-typescript/packages/sdk/src/provider.ts:504-511 | What a call does with its snapshot, exactly: replay of the row, mismatch of arguments, conflict of revisions, expiry, or a request to the core |
| `Executions.ClaimAnswers` | sdk-typescript/packages/sdk/src/provider.ts:546-553 | A claim inserts a fresh row for twenty-four hours, or the caller gets what the existing row answers; a lost acknowledgement leaves the row claimed |
| `Executions.RepeatAnswers` | sdk-typescript/packages/sdk/src/provider.ts:547-551 | A recorded result found by a claim reaches the caller exactly with permission |
| `Executions.GetRefuses` | sdk-typescript/packages/sdk/src/provider.ts:472-478 | Which snapshots stop a call, and with which code |
| `Executions.GetAnswers` | sdk-typescript/packages/sdk/src/provider.ts:479-503 | The call goes on exactly with the right effect, this catalog, an allowed, unchanged and permitted tool and arguments that validate; the exact condition of each refusal, and of the local issues |
| `Executions.AskSends` | sdk-typescript/packages/sdk/src/provider.ts:512-523 | The request to the core carries the snapshot's revision and these arguments, under the key of operation, revision and arguments |
| `Executions.ReceiveAnswers` | sdk-typescript/packages/sdk/src/provider.ts:418-438 | In every reachable state a decision that answers the request is taken exactly if its revision is one after the snapshot's, or the snapshot's own when that is issued: the seven other checks cannot fail |
| `Executions.StoreIssuedAnswers` | sdk-typescript/packages/sdk/src/provider.ts:530-546 | What is stored is the core's own stored view, unless a newer one is there; a claim follows exactly with permission, before `not_after`, and if storing was acknowledged |
| `Executions.StoreRefusalAnswers` | sdk-typescript/packages/sdk/src/provider.ts:524-527 | A view with issues is stored, unless a newer one is there, and returned |
| `Executions.StoreReplyAnswers` | sdk-typescript/packages/sdk/src/provider.ts:395-397 | A view of any reply is stored for the caller's context, unless a newer one is there |
| `ProtocolSafety.LedgerTellsTheHandler` | sdk-typescript/packages/sdk/src/store.ts:141-215 | In every reachable state a claimed row means the handler was not entered, a recorded outcome means it was, results exist exactly in the two result states, and terminal rows never change for the rest of the run |
| `ProtocolSafety.FailedBeforeDispatchIsFinal` | sdk-typescript/packages/sdk/src/provider.ts:554-565 | An execution that ended before dispatch was not entered and is not entered at any later time |
| `ProtocolSafety.ResultsAreRecorded` | sdk-typescript/packages/sdk/src/provider.ts:504-551 | Any business result given to any caller at any time, first run or replay, is the recorded one at every later time, and two callers of one execution key get one result |
| `ProtocolSafety.SnapshotsAreCoreViews` | sdk-typescript/packages/sdk/src/store.ts:72-90 | A stored snapshot is one of the core's own views of the operation, belongs to its owner's context, never goes back in revision under racing puts, and at one revision is one view |
| `ProtocolSafety.IssuedViewAgrees` | sdk-typescript/packages/sdk/src/provider.ts:530-540 | The issued view built locally from the snapshot and the decision equals the view the core has stored |
| `ProtocolSafety.LocalViewIsStored` | sdk-typescript/packages/sdk/src/provider.ts:418-438 | The eight checks on a decision suffice for that: any snapshot of the operation's life that passes them yields the stored view |
| `ProtocolSafety.ExecutionsNeverConflict` | sdk-typescript/packages/sdk/src/store.ts:104-115 | A decision the core issued never meets a ledger row of other arguments, tool or version: the conflict answer is unreachable |
| `ProtocolSafety.RunKeeps` | sdk-typescript/packages/sdk/src/provider.ts:465-609 | The full invariant (snapshots, what each executor knows and holds, ledger rows, handler entries) holds after every run |
| `ProtocolSafety.StepOnward` | sdk-typescript/packages/sdk/src/store.ts:72-215 | No step takes back a ledger row, a handler entry or an answer |
| `Ledger.PostgresStore.Put` | sdk-typescript/packages/sdk/src/store.ts:72-90 | Stores a first snapshot, replaces it by an equal or newer one of the same authorization, else leaves everything as it was |
| `Ledger.PostgresStore.Get` | sdk-typescript/packages/sdk/src/store.ts:91-103 | Returns the snapshot of the same authorization, with the two refusals |
| `Ledger.PostgresStore.Replayed` | sdk-typescript/packages/sdk/src/store.ts:121-140 | Changes nothing, and answers from an existing row what `Ledger.RowAnswersExactly` says |
| `Ledger.PostgresStore.Claim` | sdk-typescript/packages/sdk/src/store.ts:141-169 | Inserts a claimed row under a new fence, or answers from the existing one what `Ledger.RowAnswersExactly` says |
| `Ledger.PostgresStore.Dispatch` | sdk-typescript/packages/sdk/src/store.ts:170-188 | Moves exactly the caller's claimed row to dispatching, or changes nothing and fails |
| `Ledger.PostgresStore.Terminal` | sdk-typescript/packages/sdk/src/store.ts:189-215 | Ends exactly the caller's open row, or changes nothing and fails |
| `Ledger.DispatchOnce` | sdk-typescript/packages/sdk/src/store.ts:170-188 | After one dispatch of a row, at any later state, no fence dispatches it again |
| `Ledger.ClaimGrows` | sdk-typescript/packages/sdk/src/store.ts:141-169 | A claim never alters an existing row, whatever its fence |
| `Ledger.TerminalGrows` | sdk-typescript/packages/sdk/src/store.ts:189-215 | Ending a row keeps every other row and every row already ended |
| `Ledger.PutExactly` | sdk-typescript/packages/sdk/src/store.ts:72-90 | A first snapshot is stored, an equal or newer one of the same authorization does replace the stored one, any other changes nothing |
| `Ledger.RowAnswersExactly` | sdk-typescript/packages/sdk/src/store.ts:104-169 | Each of the five answers of an existing row, to replay and claim alike, exactly when digest, tool, version, state, result and retention say so |
| `Ledger.FirstClaimExactly` | sdk-typescript/packages/sdk/src/store.ts:141-160 | Without a row replay finds nothing and a claim inserts exactly this decision's row |
| `Ledger.UpdatesExactly` | sdk-typescript/packages/sdk/src/store.ts:170-215 | A dispatch or an ending goes through exactly for one's own claimed or open row, and changes only its state and result |
| `CoreRuns.OneReplyPerKey` | backend-go/internal/core/app.go:363-428 | Two successes for one key, whenever given and whether first or replayed, are the same reply to the same request |
| `CoreRuns.PublicationIsForever` | backend-go/internal/core/store.go:117-163 | A publication and its operations survive the rest of the run, also when its acknowledgement was lost and its own worker then releases the claim |
| `CoreRuns.OperationsComeWithTheirBundle` | backend-go/internal/core/app.go:384-424 | Every operation came with exactly one publication, together with all operations that publication answers |
| `CoreRuns.ClaimsChangeOnlyByTheirOwner` | shared/migrations/001_core.sql:60-75 | An unpublished claim changes or disappears only by takeover after its lease or by the single worker holding its fence |
| `CoreRuns.ReachableOperations` | backend-go/internal/core/app.go:549-729 | Every stored view ends a life from preparation on: it has its status's shape and revision minus one counts the accepted changes |
| `CoreRuns.ReachableDecisions` | backend-go/internal/core/app.go:695-713 | In every reachable state a decision lasts one to sixty seconds, ends no later than the expiry column, and keeps to the expiry that the view shows exactly if a whole minute was left or the column is no later |
| `Witness.DecisionOutlasts` | backend-go/internal/core/app.go:695-701 | A run in which a decision, asked for in the last minute of an operation whose expiry rounds up, ends 400 nanoseconds after the expiry that the view shows |
| `CoreRuns.SuccessPassedTheGuard` | backend-go/internal/core/app.go:349-377 | Replays do not bypass the guard: every worker that goes on with an action or answers it with success, first or replayed, had itself found the operation to be its actor's, in the same authorization context, with a permitted tool, and open |
| `CoreAnswers.GuardAnswers` | backend-go/internal/core/app.go:348-362 | Which requests pass the guard, and each of its four refusals, exactly |
| `CoreAnswers.KeysExactly` | shared/migrations/001_core.sql:65-70 | Two requests compete for one key exactly when principal, workspace, client key and path agree |
| `CoreAnswers.ReserveAnswers` | backend-go/internal/core/app.go:363-378 | In every reachable state a checked worker whose key is published ends with exactly that reply if it is the same request, and with a conflict otherwise; an unpublished claim is in progress while its lease lasts, conflicts for another request, and is taken over afterwards; a free key is claimed for ten seconds |
| `CoreAnswers.PublishedIsReplayed` | backend-go/internal/core/app.go:372-373 | A retry whose request and key were ever published gets that publication's reply |
| `CoreAnswers.PrepareAnswers` | backend-go/internal/core/app.go:406-424 | A preparation is refused for an unknown catalog, a refused selection or a lost claim, and otherwise exactly its view is stored and published |
| `CoreAnswers.WorkflowAnswers` | backend-go/internal/core/app.go:384-405 | The same of a workflow: all operations of its bundle are stored and published together, or nothing is |
| `CoreAnswers.ActAnswers` | backend-go/internal/core/app.go:549-729 | An action is refused as guard or step refuse it, or for a lost claim; otherwise exactly the view, the receipts and the publication change |
| `CoreAnswers.ReleaseAnswers` | backend-go/internal/core/store.go:152-163 | A worker that gives up frees exactly its own unpublished claim |
| `Witness.RetryIsAnswered` | backend-go/internal/core/app.go:363-378 | A run in which a request comes twice with its key and the second gets the first answer |
| `CoreRuns.RunKeeps` | backend-go/internal/core/app.go:363-428 | Fences, one publication per key, replies, bundles, lives, distinct execution keys, truthful answers and known choices hold after every run |
| `CoreRuns.RunGrows` | backend-go/internal/core/store.go:117-163 | Publications, answers, lives and catalogs only accumulate along a run |
| `CoreRuns.StepKeeps` | backend-go/internal/core/app.go:120-428 | Each of the eleven kinds of step keeps the invariant |
| `Core.ReservedRow` | shared/migrations/001_core.sql:60-75 | A reservation changes one row at most, only to own an unpublished claim of this very request whose lease is over, and replays only the response of the same request |
| `Core.ReservedExactly` | shared/migrations/001_core.sql:60-75 | Conflict, replay of exactly the stored reply, processing and ownership, each if and only if the row has another hash, a response, a lease ahead, or none of these; and the row that ownership writes |
| `Core.FencedExactly` | backend-go/internal/core/store.go:138-163 | Publication and release go through exactly for the unpublished claim of one's own fence |
| `Core.CreatedExactly` | backend-go/internal/core/app.go:393-424 | A preparation goes in as a whole exactly when its identifiers are new and distinct and the claim is its own; the two refusals |
| `Core.CatalogExactly` | backend-go/internal/core/app.go:261-271 | A version is stored on first upload, accepted when the same, refused otherwise |
| `Core.MutatedExactly` | backend-go/internal/core/app.go:549-729 | An action commits exactly when its operation loads, the step accepts it and the claim is its own; then exactly the view, the receipts and the response change |
| `Core.CommittedMutation` | backend-go/internal/core/app.go:549-729 | A committed action was the owner's, was accepted, and changed one operation row and the claim row |
| `Core.Store.Reserve` | backend-go/internal/core/store.go:117-137 | The claim row and the four answers that `Core.ReservedExactly` tells apart |
| `Core.Store.Finish` | backend-go/internal/core/store.go:138-151 | Publishes under the current fence of an unpublished claim, else changes nothing and fails |
| `Core.Store.Release` | backend-go/internal/core/store.go:152-163 | Deletes only the caller's unpublished claim |
| `Core.Store.LoadOperation` | backend-go/internal/core/store.go:189-219 | Ownership, authorization context and tool permission, in this order |
| `Core.Store.PersistView` | backend-go/internal/core/store.go:220-235 | Inserts a new row or updates the view of an existing one |
| `Core.Store.InsertAll` | backend-go/internal/core/app.go:394-398 | Inserts all rows exactly when no identifier is taken or repeats |
| `Core.Store.Publish` | backend-go/internal/core/app.go:393-424 | One transaction for a whole preparation: all operations and the reply, or nothing |
| `Core.Store.PutCatalog` | backend-go/internal/core/app.go:261-271 | A version keeps its first upload; a different one is refused |
| `Core.Store.Act` | backend-go/internal/core/app.go:560-729 | The branches of an action on the loaded view compute the transition |
| `Core.Store.Mutate` | backend-go/internal/core/app.go:549-729 | Loads, acts, persists and publishes as one transaction, or leaves every table as it was |
| `Core.AllNewStep` | backend-go/internal/core/app.go:394-398 | A further row goes in exactly when its identifier is new, and once one does not the whole preparation stays out |
| `Operation.AcceptedStep` | backend-go/internal/core/app.go:549-729 | An accepted action keeps the shape of the view, evolves it (frozen tool, absorbing final states) and raises the revision by one exactly when it changes the view |
| `Operation.DecisionAnswered` | backend-go/internal/core/app.go:653-717 | A decision is answered only when the stored view carries it for exactly these arguments and it is still alive; the first one is for arguments that validate, later ones are the same |
| `Operation.FirstDecisionEndsExactly` | backend-go/internal/core/app.go:695-701 | A first decision keeps to the expiry that the view shows exactly if the clock leaves a whole minute or the last three digits of the expiry round down |
| `Operation.FinalRefuses` | backend-go/internal/core/app.go:602-674 | No-match, cancelled and issued operations refuse every action that would change them |
| `Operation.ReceiptsKeepTheFirst` | backend-go/internal/core/app.go:566-601 | The first receipt stays; a later one is accepted exactly when it reports the same outcome |
| `Operation.PreparedStartsALife` | backend-go/internal/core/app.go:499-548 | Every prepared view has its status's shape at revision 1 and offers only tools of its catalog |
| `Operation.PrepareExactly` | backend-go/internal/core/app.go:499-548 | Refused exactly for an allowed tool outside the catalog and then for missing permission to process data; else the view has fifteen minutes and, for a chosen tool, selects exactly it and is ready with the digest of the known arguments exactly when those have no issue, and otherwise carries exactly their issues and missing paths; the candidates, reason and message of every other selection |
| `Operation.CancelExactly` | backend-go/internal/core/app.go:602-613 | Each refusal of a cancel, and the view it leaves, exactly |
| `Operation.ResolveExactly` | backend-go/internal/core/app.go:614-652 | Each refusal of a resolve exactly; otherwise the next revision binds the chosen tool with the outcome of validating these arguments |
| `Operation.DecideExactly` | backend-go/internal/core/app.go:653-717 | Each refusal of a decision request exactly; the decision, its twelve fields and its end, exactly when the arguments validate and at least a second is left; the issues otherwise; the same decision again for the same arguments alone |
| `Operation.RecordExactly` | backend-go/internal/core/app.go:566-601 | Receipts of the own decision within a day: the first stays, another outcome is refused |
| `Operation.DeadlineIsNearest` | shared/migrations/001_core.sql:23 | The expiry column is the nearest whole microsecond, the even one of two |
| `Operation.LifeEvolves` | backend-go/internal/core/app.go:549-729 | Between any two moments of a life the view evolves: same operation, same catalog, frozen selection, absorbing final states |
| `Operation.RevisionCountsChanges` | backend-go/internal/core/app.go:549-729 | Revision minus one is the number of accepted changes |
| `Operation.RevisionDeterminesView` | sdk-typescript/packages/sdk/src/store.ts:79-80 | Within a life one revision has one view |
| `Operation.IssuedViewIsDetermined` | backend-go/internal/core/app.go:686-717 | The issued view follows from any view one revision earlier and the decision alone |
| `RustOperation.Mutate` | backend-rust/src/runtime/mod.rs:585-725 | From every well-formed view the next view, receipts, answer and refusal are those of the Go core exactly unless the request spells the stored revision as a float where the Go core would go on, or a resolve meets a catalog without the chosen candidate; what Rust answers in either case |
| `RustOperation.EncodingIsUnique` | backend-go/internal/core/app.go:468-498 | A view has one encoding as an object of fields, so agreement of encodings is agreement of views |
| `RustOperation.MutateResolve` | backend-rust/src/runtime/mod.rs:619-650 | Resolve on the object of fields, comparing the revision as written: a conflict for the stored revision spelled as a float, an internal error for a missed candidate, else the Go step |
| `RustOperation.MutateDecide` | backend-rust/src/runtime/mod.rs:651-696 | Decide on the object of fields, with whole milliseconds for the one-second floor: a conflict for the stored revision spelled as a float, else the Go step with the same instants |
| `RustOperation.MutateCancel` | backend-rust/src/runtime/mod.rs:602-618 | Cancel on the object of fields: a conflict for the stored revision spelled as a float, else the Go step |
| `RustOperation.InsertReceipt` | backend-rust/src/runtime/mod.rs:697-717 | The first receipt of a decision is kept with its duration as written; the answer tells whether the kept one has this outcome |
| `RustOperation.LoadRow` | backend-rust/src/runtime/store.rs:169-207 | Loading refuses a missing row, a foreign owner, a changed authorization context and a forbidden tool in the order and with the answers of the Go core |
| `Timestamps.SpelledAlikeExactly` | backend-rust/src/runtime/mod.rs:49-51 | The two cores write the fraction of an instant alike exactly when it is zero or the last group of three digits that Rust writes does not end in zero |
| `Timestamps.ReadAlike` | backend-rust/src/runtime/mod.rs:52-56 | Either spelling is read as the same nine digits |
| `RustOperation.ReadyView` | backend-rust/src/runtime/mod.rs:173-208 | Editing the object in place yields the encoding of the view that Go makes ready |
| `Parity.CatalogNeverMisses` | backend-rust/src/runtime/mod.rs:640-650 | In every reachable state the catalog lists every offered candidate, so that parting case never arises |
| `Parity.Mutate` | backend-rust/src/runtime/mod.rs:585-725 | From any row of any reachable state, present or not, the Rust core refuses to load what Go refuses and otherwise makes the same step exactly unless the request spells the stored revision as a float where the revision is checked; then Rust answers a conflict |
| `Parity.FloatCancelParts` | backend-rust/src/runtime/mod.rs:613-615 | That input is reachable: on an operation just prepared, at revision 1, a cancel that expects 1.0 is accepted by Go and meets the condition under which Rust refuses |
| `Selector.DecodeChoice` | backend-go/internal/core/selection.go:65-106 | Accepts exactly the complete closed distributions: sum within the tolerance, all in range, the choice at a maximum |
| `Selector.DecodedExactly` | backend-go/internal/core/selection.go:65-106 | Accepted exactly if it is the only answer and a distribution over exactly the keys with a sum from 0.9999 to 1.0001 that names a key of the highest probability; passed on unchanged |
| `Selector.ReduceBinary` | backend-go/internal/core/parallel.go:88-132 | Computes the reduction of the zipped pairs; a length mismatch is refused |
| `Selector.RustReduceBinary` | backend-rust/src/runtime/selection.rs:552-592 | Computes the same reduction, exactly unless a positive answer lacks a probability |
| `Selector.ClosedIsComplete` | backend-rust/src/runtime/selection.rs:12-50 | A closed answer lacks none, so on what the selector reduces the two cores agree |
| `Selector.ReduceForgetsOrder` | backend-go/internal/core/parallel.go:88-132 | The outcome depends on the collection of pairs alone |
| `Selector.ChosenExactly` | backend-go/internal/core/parallel.go:111-122 | A tool is chosen exactly when its positive answer has 0.70, or 0.85 unless it only reads, and leads its own negative and every other positive by 0.15, or 0.25 |
| `Selector.OfferedOtherwise` | backend-go/internal/core/parallel.go:123-131 | When none does, the best two to five positives in (probability, identifier) order are offered, or it abstains |
| `Selector.RankingRanks` | backend-go/internal/core/parallel.go:92-107 | The ranking holds exactly the positives, each once, best first |
| `Selector.ReduceSelectable` | backend-go/internal/core/parallel.go:88-132 | Every outcome is drawn from the catalog, with two to five distinct candidates when ambiguous |
| `SingleChoice.SelectTools` | backend-go/internal/core/selection.go:287-362 | The two passes, over map keys in any order and any number of candidates, compute the selection that `SingleChoice.ChoosesExactly` describes |
| `SingleChoice.ChoosesExactly` | backend-go/internal/core/selection.go:287-362 | For up to 9999 candidates, from the named options and probabilities alone: a tool is selected exactly when the first answer names it among the first 32 at its threshold, or names none of them so and, with more than 32, the second answer names it at its threshold; else it abstains exactly when no tool is more probable than "none" or only one is asked about, and otherwise offers the five most probable tools in order |
| `SingleChoice.ChooseRefusesExactly` | backend-go/internal/core/selection.go:287-302 | Without candidates nothing is asked; an invalid or failed answer is the outcome exactly when it is asked for |
| `SingleChoice.AcceptsExactly` | backend-go/internal/core/selection.go:307-333 | For a closed answer over up to 9999 options, acceptance is exactly that the named option is a tool with probability at least its threshold: the margin always clears, the ranking puts it first, no key is out of range |
| `SingleChoice.LongKeyNamesAnother` | backend-go/internal/core/selection.go:316-321 | Beyond 9999 options the promise fails: the key of the ten-thousandth tool reads as 1000 and selects that one |
| `SingleChoice.OffersFirstFive` | backend-go/internal/core/selection.go:341-359 | The offer is the first five tools of the ranking |
| `SingleChoice.ChooseSelectable` | backend-go/internal/core/selection.go:287-362 | For up to 9999 candidates every outcome is drawn from the catalog, with two to five distinct candidates when ambiguous |
| `SingleChoice.KeyRoundTrip` | backend-go/internal/core/selection.go:229-234 | Reading a printed option key gives its number back, for every number of at most four digits |
| `Retrieval.RetrieveTools` | backend-go/internal/core/selection.go:132-183 | Filter, score, sort and cut, proved against the specification |
| `Retrieval.RetrievesTheBest` | backend-go/internal/core/selection.go:132-183 | Distinct permitted tools, at most 64; with at most 32 all of them; with more, each one left out matches nothing or ranks behind all that are returned |
| `Retrieval.RetrievesInOrder` | backend-go/internal/core/selection.go:132-183 | Refused exactly beyond 256 tokens; up to 32 tools come by identifier, more of them by score and then identifier |
| `Retrieval.ScoreAddsUp` | backend-go/internal/core/selection.go:152-168 | What a further query token adds to a score, field by field, which determines every score |
| `Retrieval.RetrieveForgetsOrder` | backend-go/internal/core/selection.go:132-183 | The order of the catalog does not matter |
| `Workflow.DecodeWorkflowReply` | backend-go/internal/core/workflow.go:52-86 | The loop over the questions of one reply |
| `Workflow.DecodesExactly` | backend-go/internal/core/workflow.go:52-86 | A reply is accepted exactly if it names the model asked, has as many answers as tools and answers every question validly, and keeps exactly the tools included |
| `Workflow.IncludedExactly` | backend-go/internal/core/workflow.go:72-83 | An answer includes its tool exactly when it says yes with 0.70, or 0.85 for a tool that does not only read, and is valid exactly when it is a distribution over yes and no that names its maximum |
| `Workflow.JoinReplies` | backend-go/internal/core/workflow.go:200-224 | For every arrival order, the lowest failing index's error or all selected tools sorted by identifier |
| `Workflow.JoinExactly` | backend-go/internal/core/workflow.go:200-224 | The error is that of the lowest failing index, and without one exactly the tools that some reply keeps come by identifier |
| `Workflow.JointIsParallel` | backend-go/internal/core/workflow.go:158-224 | For the same answers, joint and parallel requests fail together with the same refusal or yield the same bundle under every cap, in every completion order |
| `Workflow.JointReplyDecodes` | backend-go/internal/core/workflow.go:52-86 | A joint reply selects exactly what its answers include, and one invalid answer fails it as a whole |
| `Workflow.PoolDelivers` | backend-go/internal/core/workflow.go:181-205 | The worker pool delivers each index exactly once, which is what the join needs |
| `Workflow.ExposeWorkflow` | backend-go/internal/core/workflow.go:37-44 | Sorts and caps |
| `Workflow.ExposesTheFirst` | backend-go/internal/core/workflow.go:37-44 | Exactly the tools with the smallest identifiers, in their order, as many as the cap allows |
| `Workflow.BundleExactly` | backend-go/internal/core/workflow.go:226-291 | A workflow is refused as a preparation is; it needs refinement exactly when more than eight tools remain under the cap, and otherwise prepares exactly those, each with the outcome of validating no arguments |
| `Pool.PoolReturns` | backend-go/internal/core/parallel.go:12-86 | Under every schedule no index is received twice; once n results are in, each was received once, the compare-and-swap peak is the largest number ever active, and that is at most 22 |
| `Pool.SendsNeverBlock` | backend-go/internal/core/parallel.go:43-62 | The result channel has room whenever a worker sends |
| `Pool.NeverStuck` | backend-go/internal/core/parallel.go:43-76 | Until all results are in, some step of the pool is possible or all permits are held by other requests |
| `Pool.HighIsHighest` | backend-go/internal/core/parallel.go:12-25 | The recorded maximum is reached in the run and never exceeded |
| `Pool.RunKeeps` | backend-go/internal/core/parallel.go:12-86 | Every index in exactly one place, counters equal to the workers they count, the peak lagging only while its worker still publishes it |
| `Pool.Collect` | backend-go/internal/core/parallel.go:63-84 | Answers by index, totals equal to the sums, and the error of the lowest failing index, for every arrival order |
| `Pool.FinishedIsEachOnce` | backend-go/internal/core/parallel.go:63-84 | What a finished run of the pool has received, under any schedule, is what the collecting loop asks for, so its totals and lowest error hold for every schedule |
| `Trace.FindIndices` | backend-go/internal/core/workflow.go:25-36 | First catalog position of each tool |
| `Trace.IndicesName` | backend-go/internal/core/workflow.go:25-36 | Indices name the tools they were taken from, one for one |
| `Trace.DecodesExactly` | sdk-typescript/packages/sdk/src/remote.ts:26-75 | The decoder returns a written trace unchanged exactly when it is valid, else null |
| `Trace.EmittedIsValid` | backend-go/internal/core/workflow.go:254-274 | An emitted trace is valid exactly when at most eight tools are exposed, hence for every cap from one to eight |
| `Trace.EmitsExactly` | backend-go/internal/core/workflow.go:254-274 | A trace tells the candidates by position, then all selected tools by identifier, then the first of these up to the cap; neither of the two if the selector failed |
| `Trace.TraceIsShort` | sdk-typescript/packages/sdk/src/remote.ts:27-27 | The text of an emitted trace is below 4096 characters |
| `Trace.TraceSurvives` | sdk-typescript/packages/sdk/src/remote.ts:26-75 | The SDK reads back every emitted trace unchanged exactly when at most eight tools are exposed, whatever parser it uses that reads grammatical texts as what they spell |
| `Trace.BoundedConforms` | sdk-typescript/packages/sdk/src/json.ts:2-83 | The bounded parser is one that does |
| `WireParser.ParseWireJson` | sdk-typescript/packages/sdk/src/json.ts:2-83 | The closures over one shared position compute the parse |
| `WireParser.Parser.Value` | sdk-typescript/packages/sdk/src/json.ts:25-76 | Reads one value from the position and always advances |
| `WireParser.Parser.String` | sdk-typescript/packages/sdk/src/json.ts:11-24 | Finds the closing quote and decodes the literal |
| `WireParser.Parser.Members` | sdk-typescript/packages/sdk/src/json.ts:41-65 | The object loop with its key set |
| `WireGrammar.ParsesExactly` | sdk-typescript/packages/sdk/src/json.ts:2-83 | A value is returned exactly on the texts that spell it: a grammatical tree of section 2 onward of RFC 8259 with white space anywhere, any escapes, bounded depth and width, unique harmless keys, safe numbers |
| `WireGrammar.ParsedIsSendable` | sdk-typescript/packages/sdk/src/codec.ts:32-77 | Every value the parser returns is one the value checker accepts |
| `WireGrammar.ParseUndoesPrint` | sdk-typescript/packages/sdk/src/codec.ts:32-77 | For every value the checker accepts, parsing its printed text gives it back |
| `WireGrammar.EscapeReads` | sdk-typescript/packages/sdk/src/json.ts:11-24 | A printed string literal, lone surrogates included, decodes to its string |
| `WireJson.JsonValue` | sdk-typescript/packages/sdk/src/codec.ts:32-77 | The recursive checker accepts exactly the sendable values |
| `StrictJson.GoParse` | backend-go/internal/core/json.go:20-103 | Checks while reading accept exactly the strict token trees |
| `StrictJson.RustStrict` | backend-rust/src/runtime/json.rs:91-99 | Visiting and then bounding accepts exactly the same trees |
| `StrictJson.VisitThenBound` | backend-rust/src/runtime/json.rs:46-89 | Visited and bounded is strict, at every depth |
| `StrictJson.ProfilesAgree` | backend-go/internal/core/json.go:124-149 | On strict trees the argument profile of Go, the bounding of Rust and the SDK's check are one |
| `Patterns.MatchString` | backend-go/internal/core/woku_patterns.go:20-78 | The hand-written matcher accepts exactly what each of the six expressions accepts under the matching rules of section 22.2.2 of ECMA-262 |
| `Patterns.PhoneAccepts` | backend-go/internal/core/woku_patterns.go:40-62 | What the expression with lookahead, optional plus and end anchor accepts, in plain terms |
| `Patterns.ColourAccepts` | backend-go/internal/core/woku_patterns.go:65-75 | What the colour expression accepts |
| `Patterns.IdAccepts` | backend-go/internal/core/woku_patterns.go:65-76 | What the two identifier expressions accept |
| `SchemaProfile.Walk` | backend-go/internal/core/validation.go:196-281 | The walk of either core, over keys in any order and with copied path sets, terminates and accepts what the recursive profile says |
| `SchemaProfile.AcceptsExactly` | backend-go/internal/core/validation.go:196-281 | Accepted exactly when every chain of positions and references from the root has at most 64 steps, repeats no reference, and ends at a supported schema |
| `SchemaProfile.AcceptedIsAcyclic` | backend-go/internal/core/validation.go:231-251 | In an accepted schema no chain comes back to a schema it has been at |
| `SchemaProfile.Follow` | backend-go/internal/core/validation.go:236-243 | Resolves a reference part by part through objects |
| `SchemaProfile.ReferenceLeadsExactly` | backend-go/internal/core/validation.go:231-243 | A reference made of keys, whatever their characters, leads to a node exactly when those keys do, member by member |
| `SchemaProfile.WalksAgreeExactly` | backend-rust/src/runtime/validation.rs:5-77 | Go accepts a schema exactly when Rust does and no reference that the Rust walk follows steps into a list |
| `SchemaProfile.ListReferenceParts` | backend-rust/src/runtime/validation.rs:51-60 | Such a schema: a reference to the first branch of an `allOf` is accepted by Rust and refused by Go |
| `Pointer.BuildPointer` | backend-go/internal/core/validation.go:64-70 | The pointer of a list of keys |
| `Pointer.KeysUndoPointer` | backend-go/internal/core/validation.go:231-243 | Splitting and the two decoding passes recover every non-empty list of keys |
| `Pointer.UnescapeUndoesEscape` | backend-go/internal/core/validation.go:242 | The two-pass decoder undoes the two-pass encoder |
| `Pointer.PointersDiffer` | backend-go/internal/core/validation.go:64-70 | Different lists of keys have different pointers |
| `Issues.NormalizeIssues` | backend-go/internal/core/validation.go:164-177 | Sort, drop repeated neighbours, cut at 128 |
| `Issues.ReportsTheFirst` | backend-go/internal/core/validation.go:164-177 | Where the order decides, the report is the first 128 of the different findings in order: whatever it leaves out comes after all of them |
| `Issues.CoresReportAlikeExactly` | backend-rust/src/runtime/validation.rs:132-140 | For every order and number in which the issues are found both cores report the same list exactly when no reported issue parts from a finding |
| `Issues.CoresReportOneOrderAlike` | backend-go/internal/core/validation.go:164-177 | When no two findings share one sort text, the same condition decides every single order of the findings |
| `Issues.CoresReportFewAlike` | backend-rust/src/runtime/validation.rs:132-140 | For at most 128 findings the condition is that no two of them part |
| `Issues.AnsweredReportsAlike` | backend-go/internal/core/validation.go:164-177 | Where no report contains a NUL, as in every view that can be stored, both cores report the same whatever else was found |
| `Issues.OrdersPartExactly` | backend-go/internal/core/validation.go:164-167 | The two orders differ on a pair exactly when one path is the other followed by NUL and more that compares differently with the other's schema path, or the paths are equal and the same holds of schema path and code |
| `Issues.CoresReportAlike` | backend-rust/src/runtime/validation.rs:132-140 | In particular, findings whose paths contain no NUL are reported alike |
| `Issues.SeparatorInPath` | backend-go/internal/core/validation.go:164-167 | Such an input: type errors under a declared property "x" and under a further key that begins with "x" and NUL are reported in opposite orders |
| `Issues.MissingAgreesExactly` | backend-go/internal/core/validation.go:178-181 | The missing paths of the two cores agree exactly when the first 128 in order repeat nothing |
| `Issues.FewMissingAgreeExactly` | backend-go/internal/core/validation.go:178-181 | For at most 128 missing paths they agree exactly when none repeats |
| `Issues.BothBranchesMiss` | backend-go/internal/core/validation.go:144-156 | Such an input: two branches of an `allOf` that require the same key leave it twice in Go's list and once in Rust's |
| `Calls.Host.ExecuteCalls` | tools/v3/calls.mjs:2-20 | Terminates; for every finishing order of the reads the state, outputs and first error are those of a serial run, starts keep the call order, writes run alone, the bound holds at every moment, and of the reads in a row the first so many run together, then the next, and so on |
| `Calls.Host.Join` | tools/v3/calls.mjs:12 | All reads of a batch finish, in any order, and their outcomes come in batch order |
| `Calls.AdvancesExactly` | tools/v3/calls.mjs:4-11 | The loop advances from every position exactly when the bound is at least one or there are no reads |
| `Sorting.SortForgetsOrder` | backend-go/internal/core/parallel.go:102-107 | Sorting distinct elements by a strict order has one result for every input order |

## Left out

- One scope of the core and one integration of the ledger are modelled; row-level security keeps others apart.
- HTTP, TLS, authentication, quotas, configuration, health and capability endpoints, headers other than the trace: easy or library-bound.
- PostgreSQL itself: a transaction is one atomic step on maps keyed as the SQL keys them, and a failed one changes nothing.
- Timestamps other than an operation's expiry column are exact: PostgreSQL rounds its columns to microseconds, and a tie of that rounding goes to the even one, where floating-point parsing might decide otherwise.
- SHA-256 and HMAC are injective constructors, canonical text is the value itself, and UUIDs are numbers never used before.
- The JSON Schema evaluators: one function from schema and arguments to issues and missing paths, shared by both cores and the SDK.
- Retention and purge of idempotency and ledger rows: no row expires away during a run.
- The SDK's retry loop and its one retry: the protocol allows any number of requests with the same key at any time, which covers it.
- The SDK's in-memory view checks of `prepareWorkflow`, and `resolve`'s local check before its request: any reply's views may be stored at any time, which covers what they let through.
- The body of `execute` as one asynchronous function: it is the step function over an executor's phases, since its awaits interleave.
- Unicode normalisation and the selector's judgement: token sets and answers are arbitrary inputs.
- IEEE rounding of probabilities: they are reals, so the sum of a distribution is exact.
- The platform's number codec of the wire JSON: a parameter whose only law is that read numbers print and read back; negative zero reads as zero.
- Property enumeration order of JavaScript objects with integer-like keys: members keep the order of the text.
- Cyclic JavaScript values: the value checker runs on finite trees, where its set of visited objects plays no part.
- Strings with unpaired surrogates: Go's reader replaces them and Rust's refuses them, where the token trees of `StrictJson` keep them; matchers run on code points.
- RustOperation.Mutate: compares timestamps as instants, since the cores may spell one instant differently (`Timestamps`); so do `RustOperation.MutateDecide` and `Parity.Mutate`.
- Parity.Mutate: ends where the new view, receipts and answer are known; both cores then write and publish them in the same transaction.
- The Rust core also ignores an exposure cap that is spelled as a float, where Go reads it; of the Rust core's workflows only the selection arithmetic is modelled.
- Size limits on canonical text of schemas, arguments and workflow answers, and Go's compiled-schema cache.
- Wall-clock timeouts of selection: cancellation may happen at any step of the pool.
- Fairness and liveness beyond `Pool.NeverStuck` and the termination of methods.
- Calls.Host.ExecuteCalls: states the serial equivalence for reads that leave the state as it is, which is what the scheduler is for; reads that change it have no serial meaning.
- Benchmark harness, reports and generated wire types.
