# ActionHarbor, verified

A Dafny model of ActionHarbor's server-side core: how a model-proposed action gets (or does not get)
authority, how the gateway executes it at most once in front of adapters that may answer late or never, and
how everything that happened is written to a hash-chained ledger. `dafny verify dfyconfig.toml` checks it.

## How the model is laid out

* **Canonical hashing** (`Json`, `KeyOrder`, `Canonical`, `JsonText`, `CanonicalHash`, `PlanHash`,
  `Receipts`). A JSON value is a tree whose objects list their properties in JavaScript's enumeration order
  (integer-like keys first, by number). `Meaning` forgets that order at every depth. `Canonicalize` runs the
  source's loop, property by property, into an object that enumerates its own way. SHA-256 is an arbitrary
  function `sha`; only lemmas that need it assume that it never collides. That canonical JSON text is
  unambiguous is proved, not assumed.
* **Ledger** (`HashChain`, `Ledger`, `Redaction`, `Projection`): entries, their hash, `append`, the
  integrity loop, redaction and the projection fold.
* **Gateway** (`Authority`, `StateMachine`, `Adapters`, `Stores`, `Gateway`, `GatewayObjects`,
  `GatewayDecisions`). JavaScript runs to completion between awaits, so `executeAction` is cut into atomic pieces: `Begin` (up to the race or
  the lookup), `Finish` (once the race is decided), `FinishLookup` (once the lookup has answered). `Gateway`
  states each piece as a function on registry, store and ledger; `GatewayObjects` carries it out on the
  shared objects, and `GatewayDecisions` says row by row, on the fields the checks look at, what each piece
  decides.
* **Gateway protocol** (`GatewayProtocol` and the modules built on it). A run is any list of events: pieces
  of any number of calls, registrations, and adapter effects that may fire at any time after their call began,
  also after it has returned `UNKNOWN_OUTCOME`.
* **Orchestrator** (`Orchestrator`, `OrchestratorCreation`, `OrchestratorDrift`, `RunHistory`, `OrchestratorRuns`, `OrchestratorAuthority`,
  `OrchestratorGrants`, `OrchestratorHistory`, `OrchestratorViews`, `OrchestratorReconcile`,
  `OrchestratorProgress`, `OrchestratorObjects`). The server is a map of runs over one
  registry. Entry calls, later gateway pieces and the application of a result are separate events in any
  order. `OrchestratorObjects.MutableRun` is the mutable run record; every method of it equals a step of that
  machine.

Which theorems need what:

| theorems | overlap on one key | adapter |
|---|---|---|
| `NoUnprovedSuccess`, `AnsweredForItsParameters`, `RecordsAreTraced` | allowed | any answers |
| `CapabilityAccounting`, `SpentWasRegistered` | allowed | any answers |
| `SecondExecutionExactly`, `SecondAttemptExactly`, `RecordsMoveExactly` | allowed | any answers |
| `OneReceiptPerKey`, `MintedOnce` | allowed | a fake adapter, effects at any time |
| `ExecutedOncePerKey` | calls on a key take turns | any answers |
| `EffectMatchesRecord`, `OkRepeatsItsParameters` | calls on a key take turns | a fake adapter, effects at any time |
| `ExecutedAtMostOnce` (runs), `DriftedNeverExecutes`, `LedgersStayIntact`, `EveryGrant` | allowed | any answers |
| `EveryEffectIsAuthorized`, `EffectIsTheApprovedPlan` | allowed | the effects of a fake adapter |
| `LedgerFollowsGrammar`, `ProjectionAgreesExactly`, `ReconciliationAsksExactly` | entry calls on a run take turns | any answers |
| `ProjectionAgrees`, `ReconciliationEndsExactly` | entry calls on a run take turns | a fake adapter |

## What turned out not to hold, and exactly when

* `execution.ts` says a known key never blindly reaches the adapter again. The store is written only when a
  call finishes, so this fails for overlapping calls: `OverlapExecutesTwice` gives two calls on one key that
  both reach `execute`. `SecondExecutionExactly` says when it happens, for every run: a call that passes every
  check, the gateway's own re-check included, meets a key with no record while an earlier call that reached
  `execute` is still under way.
* A recorded outcome is meant to be definite, an unknown one open only to reconciliation. The same run shows a
  success overwritten by an unknown outcome, and `ReconciliationOverwritesToo` one in which a reconciliation
  overwrites another attempt's record. `RecordsMoveExactly` says, for every run and event, when a record
  moves otherwise than from absent to present or from unknown to resolved: exactly when an attempt finishes on
  a key that has been recorded meanwhile, or a reconciliation that found a receipt finishes on a record that is
  neither the one it set out from nor already the one it writes.
* `reconcileRun` admits `RECONCILIATION_REQUIRED`, from which the transition table has no edge. Such a call
  writes store and ledger and then throws in `mustTransition`. `BeyondReconciliationRequired` shows that the
  run stays where it is. `ProjectionAgreesExactly` says over whole runs, with any adapter, when the projection
  and the state of a run disagree: exactly when a lookup has resolved the record of a run that is still
  `UNKNOWN_OUTCOME` or `RECONCILIATION_REQUIRED`.
* `reconcileRun` presents the run's capability again, which lives for a minute. `ReconciliationAsksExactly`
  says that a reconciliation asks the adapter exactly if it comes before that expiry, and
  `ReconciliationEndsExactly` where it then leaves the run.
* `computeProposalHash` speaks of the set of evidence; the code sorts a list, so repeated references count.
  `EvidenceIsNoSet` gives two plans with the same set and different hashes; `PlanHashExact` is about multisets.

## Model

| member | source | states |
|---|---|---|
| `Canonical.Canonicalize` | packages/domain/src/hash.ts:18-48 | the recursive loop over sorted keys, property by property, yields the canonical value, and throws exactly on values with a part that is no JSON |
| `Canonical.StoreSorted` | packages/domain/src/hash.ts:35-44 | storing properties one by one in code-unit order into an object that enumerates index keys by number gives the same object whatever order the input had |
| `Canonical.CanonMeaning` | packages/domain/src/hash.ts:33-45 | canonicalizing changes key order and nothing else, at every depth |
| `Canonical.CanonicalUnique` | packages/domain/src/hash.ts:6-17 | a canonical value is the only canonical value with its meaning |
| `Canonical.CanonDecidesMeaning` | packages/domain/src/hash.ts:6-17 | two values canonicalize alike if and only if they are equal up to key order at every depth |
| `Canonical.CanonIdempotent` | packages/domain/src/hash.ts:18-48 | canonicalizing twice is canonicalizing once |
| `KeyOrder.KeyLessExact` | packages/domain/src/hash.ts:33-45 | the canonical object lists index keys by their number, before all others, and the others by their UTF-16 code units |
| `KeyOrder.UnitLessIsUtf16` | packages/domain/src/hash.ts:35 | the order the keys are sorted in is the lexicographic order of their UTF-16 encodings |
| `JsonText.TextExact` | packages/domain/src/hash.ts:55-57 | the text is that of the JSON grammar: literals, numbers, strings, elements and members joined by commas between brackets and braces |
| `JsonText.EscapeExact` | packages/domain/src/hash.ts:55-57 | in strings the quote, the backslash and the control characters are escaped as section 7 of RFC 8259 has it, every other character stands for itself |
| `JsonText.TextReadable` | packages/domain/src/hash.ts:55-57 | the JSON text of a value can be read back whatever follows it: strings, numbers and containers end where they end |
| `JsonText.TextInjective` | packages/domain/src/hash.ts:55-57 | no two JSON values have the same text |
| `CanonicalHash.CanonicalTextExact` | packages/domain/src/hash.ts:55-57 | canonical texts are equal if and only if the values are equal up to key order |
| `CanonicalHash.ComputeHash` | packages/domain/src/hash.ts:50-57 | the hash of the canonical text, or the thrown error of a value that has none |
| `CanonicalHash.HashExact` | packages/domain/src/hash.ts:50-57 | with a collision-free SHA-256, hashes are equal if and only if the values are equal up to key order |
| `PlanHash.PlanHashExact` | packages/domain/src/hash.ts:80-88 | two plans have one hash if and only if version, action and resource agree, parameters agree up to key order and evidence as a multiset |
| `PlanHash.EvidenceIsNoSet` | packages/domain/src/hash.ts:76-88 | a plan with one reference listed twice has another hash, although the set of references is the same |
| `PlanHash.HashedPlan` | packages/domain/src/hash.ts:80-88 | the hashed object holds version, action, resource, parameters and the sorted evidence, each under its own name |
| `Receipts.PayloadHashInjective` | packages/gateway/src/execution.ts:163 | payload hashes tell the parameters of all action types apart, optional ones included |
| `Receipts.PostconditionExact` | packages/verifier/src/postcondition.ts:18-92 | the check passes if and only if the receipt is schema-valid, the expectation is one for the action, and they agree in key for a ticket, in key, customer, body and channel for a message, in key, order and amount for a refund |
| `Receipts.SchemaExact` | packages/contracts/src/index.ts:400-439 | the three receipt schemas field by field, lengths in UTF-16 code units |
| `Receipts.BuiltReceiptVerifies` | packages/verifier/src/postcondition.ts:18-92 | a schema-valid receipt built from parameters passes the check and meets, field by field, the expectation built from the same key and parameters |
| `Receipts.BuiltFieldByField` | packages/adapters/src/ticket-adapter.ts:50-62 | what every field of a new receipt is taken from |
| `Receipts.HashedTexts` | packages/gateway/src/execution.ts:163 | the hashed parameters hold the texts of their action type and no other, each under its own name |
| `HashChain.HashEntry` | packages/ledger/src/hash-chain.ts:39-41 | the entry hash is the canonical hash of everything but the hash, and throws exactly if the payload is unhashable |
| `HashChain.HashedParts` | packages/ledger/src/hash-chain.ts:50-64 | the hashed object holds sequence, actor, subject and payload of the entry, each under its own name |
| `HashChain.HashedOptionals` | packages/ledger/src/hash-chain.ts:59-62 | run, operation, policy version and request are in the hashed object exactly if the entry has them |
| `HashChain.EntryHashExact` | packages/ledger/src/hash-chain.ts:39-65 | entry hashes are equal if and only if all other properties are equal, present or absent, the payload up to key order |
| `Ledger.VerifyLedgerIntegrity` | packages/ledger/src/integrity.ts:28-53 | throws exactly if a well-formed prefix is followed by an entry that passes sequence and predecessor and has no hash; otherwise, without an expected count, accepts exactly the well-formed chains or names the first failed check of the first bad entry, one past the longest good prefix; a wrong count alone is reported as such |
| `Ledger.LongestIsLongest` | packages/ledger/src/integrity.ts:28-53 | the reported prefix is the longest: prefixes are well-formed exactly up to it |
| `Ledger.TamperEvident` | packages/ledger/src/integrity.ts:28-53 | two accepted ledgers whose last hashes agree have the same length and the same content in every entry |
| `Ledger.AuditLedger.Append` | packages/ledger/src/audit-ledger.ts:28-35 | one redacted, chained entry more at the end and nothing else changed; an unhashable payload stores nothing |
| `Ledger.AuditLedger.FindByOperation` | packages/ledger/src/audit-ledger.ts:41-43 | exactly the entries with this operation id, each as often as in the ledger, in order |
| `Ledger.AuditLedger.FindByRun` | packages/ledger/src/audit-ledger.ts:45-47 | exactly the entries with this run id, each as often as in the ledger, in order |
| `Ledger.FilterExact` | packages/ledger/src/audit-ledger.ts:41-47 | a filtered list holds each qualifying entry as often as the ledger does and no other |
| `Ledger.FilterInOrder` | packages/ledger/src/audit-ledger.ts:41-47 | kept entries stand in the order of the ledger |
| `Ledger.BuiltIsWellChained` | packages/ledger/src/audit-ledger.ts:28-35 | whatever is appended, the ledger passes the integrity check, and its first entry points to the genesis hash |
| `Ledger.BuildPrefix` | packages/ledger/src/audit-ledger.ts:12-26 | earlier entries never change, however many appends follow |
| `Ledger.BuiltFrom` | packages/ledger/src/hash-chain.ts:43-65 | an entry has its position as sequence number and keeps every property of its append, the payload redacted |
| `Redaction.RedactValue` | packages/ledger/src/redact.ts:34-45 | the recursion, arrays inheriting the property name, computes the redacted value |
| `Redaction.RedactPayload` | packages/ledger/src/redact.ts:48-54 | the loop over entries rebuilds the object with the same keys in the same order, each value redacted |
| `Redaction.SecretKeyExact` | packages/ledger/src/redact.ts:26 | a property name is secret if and only if some stretch of it, in any letter case, reads token, secret, password, passwd, credential, bearer, authorization, or api, private or access, an optional separator and key |
| `Redaction.RedactionExact` | packages/ledger/src/redact.ts:24-37 | a text property is stored as the marker if and only if its name is secret in that sense or its value has the bearer or the JWT shape, written out character by character; otherwise it is stored as it is |
| `Redaction.JwtExact` | packages/ledger/src/redact.ts:28 | the JWT shape is eyj in any case and three non-empty runs of token characters parted by two dots |
| `Redaction.BearerExact` | packages/ledger/src/redact.ts:27 | the bearer shape is bearer in any case, white space, and something that is none |
| `Redaction.RedactAtPath` | packages/ledger/src/redact.ts:34-54 | path by path: same shape, same non-string leaves, and a string stays or is marked as its nearest property name and its own shape, written out, say |
| `Redaction.NothingSecretRemains` | packages/ledger/src/redact.ts:24-54 | at no depth does a string survive under a property name with a secret stretch in any letter case, nor any bearer- or JWT-shaped string |
| `Redaction.RedactIdempotent` | packages/ledger/src/redact.ts:34-54 | redacting twice is redacting once |
| `Redaction.RedactCommutesWithCanon` | packages/ledger/src/redact.ts:34-54 | redaction and canonicalization commute |
| `Projection.ProjectOperation` | packages/ledger/src/projection.ts:101-117 | filter, sort and the two accumulators compute the step-by-step fold |
| `Projection.FoldFinal` | packages/ledger/src/projection.ts:52-90 | the final state is named by the last event that is neither an integrity check nor a detected duplicate |
| `Projection.FoldStages` | packages/ledger/src/projection.ts:24-50 | a stage is seen exactly if some event belongs to it, and is listed once |
| `Projection.StagesExact` | packages/ledger/src/projection.ts:24-50 | each of the six stages is seen exactly for the event types that belong to it, which are named |
| `Projection.LastEventDecides` | packages/ledger/src/projection.ts:52-90 | the final state for each type of the last telling event, both ways |
| `Projection.ProjectIgnoresOrder` | packages/ledger/src/projection.ts:101-117 | every permutation of entries with distinct sequence numbers projects alike |
| `Projection.ProjectIgnoresOthers` | packages/ledger/src/projection.ts:102-105 | entries of other operations have no influence wherever they stand |
| `Projection.ProjectExtends` | packages/ledger/src/projection.ts:107-114 | an append extends the projection by one step of the fold |
| `Projection.ProjectNothing` | packages/ledger/src/projection.ts:101-117 | an operation has no events, stages and state if and only if no entry is its own |
| `IdGenerator.IdTextInjective` | packages/domain/src/id.ts:23-27 | prefix and count can be read back from an id, past six digits too |
| `IdGenerator.IdExact` | packages/domain/src/id.ts:23-27 | an id is its prefix, an underscore and the count in decimal, at least six digits, padded with zeros only |
| `IdGenerator.IdAtExact` | packages/domain/src/id.ts:23-27 | the id of a request counts the earlier requests for its prefix and itself, so counting starts at one |
| `IdGenerator.AllIdsDistinct` | packages/domain/src/id.ts:20-28 | no two ids of one generator are equal, whatever the prefixes requested |
| `IdGenerator.CounterIdGenerator.Next` | packages/domain/src/id.ts:23-27 | returns the id that the history of requests determines and counts this request |
| `StateMachine.TransitionsLeadForward` | packages/domain/src/state-machine.ts:13-64 | every edge of the table leads to a later stage, so no state is visited twice; the last stage is exactly the terminal states |
| `StateMachine.EdgesExact` | packages/domain/src/state-machine.ts:13-82 | the eighteen edges and no other, by where they lead |
| `StateMachine.ExecutionNeedsAuthorization` | packages/domain/src/state-machine.ts:13-82 | whatever the triggers, a run gets to execution, its outcomes or STALE only through AUTHORIZED |
| `Authority.PolicyExact` | packages/policy/src/policy.ts:149-237 | all three outcomes exactly: allowed outright are the ticket actions of a recognised principal on its own active resource in its own tenant; an approval is asked for if no rule is broken and the action is a message, a refund or on another's resource, with the reason; everything that breaks a rule is denied |
| `Authority.DenialsExact` | packages/policy/src/policy.ts:149-196 | a denial names the reasons of the first broken rule, in the documented order of the rules |
| `Authority.ApprovalExact` | packages/domain/src/approval.ts:29-78 | an approval is refused for the first ground that applies, and consumable if and only if active, unexpired and matching in hash and scope; consuming changes its status only |
| `Authority.TriggerExact` | packages/domain/src/approval.ts:84-98 | only a match, an expiry and an earlier consumption move a run, each along its own edge |
| `Authority.MintExact` | packages/gateway/src/mint-capability.ts:38-80 | which evidence mints, why other does not, and every field of the capability, its lifetime capped at five minutes |
| `Authority.ApprovalAuthorizesOnlyItsPlan` | packages/gateway/src/mint-capability.ts:38-80 | a capability minted from a consumed approval validates only for the approved plan and scope and only strictly before an expiry at most five minutes after minting; the approval was active, unexpired and matching |
| `Authority.ApprovalConsumedOnce` | packages/domain/src/approval.ts:67-98 | a consumed approval is refused ever after, as a concurrent conflict |
| `Adapters.FakeAdapter.Execute` | packages/adapters/src/ticket-adapter.ts:34-76 | capability checks, idempotency table, schema check and both table writes, in that order; an error leaves both tables as they were |
| `Adapters.ExecuteExact` | packages/adapters/src/refund-adapter.ts:38-75 | check by check, in order: which error is thrown, and what a success writes to both tables |
| `Adapters.ExecuteKeepsOk` | packages/adapters/src/message-adapter.ts:31-67 | the two tables stay in agreement: every receipt found by operation id is the one minted for its key, and answers parameters with the recorded hash |
| `Adapters.EntriesAreForever` | packages/adapters/src/refund-adapter.ts:38-75 | an entry of the idempotency table is never changed or removed |
| `Adapters.ReceiptVerifies` | packages/adapters/src/message-adapter.ts:31-67 | every receipt returned, fresh or replayed, verifies against the expectation of its own key and parameters, and lookup then finds it |
| `Adapters.EveryReceiptVerifies` | packages/adapters/src/message-adapter.ts:31-67 | over any sequence of `execute` and `lookup` calls on a new adapter, every receipt `execute` answers with verifies for its own key and parameters |
| `Adapters.EveryFindingWasExecuted` | packages/adapters/src/message-adapter.ts:69-72 | over any such sequence, a receipt found by `lookup` was answered by an earlier `execute` for that operation, and verifies for that call |
| `Adapters.CountingAdapter.Execute` | apps/server/src/adapters/counting-adapter.ts:19-22 | counts one call and has the inner adapter's effect and answer |
| `Adapters.CountingAdapter.Lookup` | apps/server/src/adapters/counting-adapter.ts:24-26 | answers what the inner adapter's table holds |
| `Adapters.PayloadHashDiscriminates` | packages/adapters/src/message-adapter.ts:37-44 | the adapters' payload hash is injective if SHA-256 is, which replays rest on |
| `Adapters.EffectNeedsCapability` | packages/adapters/src/errors.ts:43-51 | an adapter's tables change only under an active capability for its own action type, strictly before its expiry at the time of the effect |
| `Stores.CapabilityRegistry.Consume` | packages/gateway/src/capability-registry.ts:42-57 | unknown id, wrong nonce and spent capability are told apart, each if and only if it is the first that applies, and change nothing; otherwise this one entry becomes consumed |
| `Stores.ConsumedOnce` | packages/gateway/src/capability-registry.ts:42-57 | a consumed capability is refused ever after and others are unaffected |
| `Stores.OperationStore.Check` | packages/gateway/src/operation-store.ts:44-53 | new, conflict and duplicate are told apart by key and payload hash alone |
| `Stores.OperationStore.Record` | packages/gateway/src/operation-store.ts:55-58 | both maps get the record and nothing else changes |
| `Stores.RecordedIsFound` | packages/gateway/src/operation-store.ts:44-62 | after a record its key is a duplicate for the recorded hash, a conflict for any other, its operation id finds it, and other keys answer as before |
| `GatewayDecisions.InvalidCapability` | packages/gateway/src/execution.ts:146-150 | a capability that is malformed, not active, expired or out of scope is refused for the first of these grounds, and nothing changes |
| `GatewayDecisions.StalePreconditions` | packages/gateway/src/execution.ts:152-161 | another plan or a moved resource version is refused with its reasons and one ledger entry naming them |
| `GatewayDecisions.PayloadConflict` | packages/gateway/src/execution.ts:163-170 | a recorded key presented with another payload is answered with the idempotency conflict and one entry with that reason; store and registry stay |
| `GatewayDecisions.KnownOutcome` | packages/gateway/src/execution.ts:172-268 | a recorded key presented with the same payload is answered with the recorded receipt or failure, or goes on to a lookup; `execute` and the registry are not touched |
| `GatewayDecisions.UnspendableCapability` | packages/gateway/src/execution.ts:177-180 | a capability the registry does not hold with this nonce, unspent, is refused with its own reason, and nothing changes |
| `GatewayDecisions.NewAttempt` | packages/gateway/src/execution.ts:174-195 | otherwise the capability is spent, the start logged, and `execute` entered unless the re-check finds it expired |
| `GatewayDecisions.ReceiptDecides` | packages/gateway/src/execution.ts:224-327 | a receipt completes the operation if and only if it is schema-valid and meets the expectation field by field; record, entry and result of either way |
| `GatewayDecisions.LookupDecides` | packages/gateway/src/execution.ts:268-327 | the same for what a lookup finds, and what finding nothing leaves |
| `GatewayDecisions.OutcomeIsRemembered` | packages/gateway/src/execution.ts:163-268 | after an attempt, whatever its outcome, the next fresh call on its key with the same payload is told that outcome, one with another payload meets a conflict, and neither spends its capability |
| `GatewayObjects.BeginAction` | packages/gateway/src/execution.ts:138-185 | the first piece on the shared objects equals the protocol's step; `execute` is entered, and counted, exactly if the call goes on to race it; the returned audit events are the entries added |
| `GatewayObjects.BeginNewAction` | packages/gateway/src/gateway.ts:32-42 | consume, log, re-check: a refused re-check decides the race without `execute` being called |
| `GatewayObjects.BeginDuplicateAction` | packages/gateway/src/execution.ts:254-268 | a recorded outcome is returned as it is; only an unknown one goes on to a lookup; `execute` is never entered |
| `GatewayObjects.FinishRace` | packages/gateway/src/execution.ts:197-243 | each way the race may end leaves the record, entry and result of the protocol's step |
| `GatewayObjects.FinishReconciliation` | packages/gateway/src/execution.ts:268-276 | the end of a reconciliation equals the protocol's step |
| `GatewayObjects.FinalizeFromReceipt` | packages/gateway/src/execution.ts:279-327 | check, record, log and result on the shared objects equal the protocol's step, whose success is exactly a receipt that meets the expectation |
| `GatewayObjects.Race.TimerFires` | packages/gateway/src/execution.ts:82-89 | the timer decides only if nothing came before it |
| `GatewayObjects.Race.AdapterAnswers` | packages/gateway/src/execution.ts:91-108 | the first signal decides the race and later ones are dropped |
| `GatewayEvidence.NoUnprovedSuccess` | packages/gateway/src/execution.ts:130-136 | in every interleaving and with any adapter, the receipt of an ok result was handed over by the adapter to a call on the same key, is schema-valid, and equals that call's expectation in every field that is checked for its action |
| `GatewayEvidence.AnsweredForItsPayload` | packages/gateway/src/execution.ts:163-172 | in every interleaving, a call that is answered with a receipt, fresh, reconciled or replayed, or that goes on to reconcile, presents the payload hash of an attempt on its key, and a reconciling one that of the record it found |
| `GatewayEvidence.AnsweredForItsParameters` | packages/gateway/src/execution.ts:163-172 | with an injective payload hash, such a call is on a key that was attempted for its very parameters |
| `GatewayEvidence.RecordsAreTraced` | packages/gateway/src/execution.ts:197-327 | every record names a capability that a call on its key consumed for parameters with the recorded hash, and a succeeded one holds a verified receipt |
| `GatewayReceipts.OneReceiptPerKey` | packages/gateway/src/execution.ts:138-327 | in every interleaving, overlap and late effects included, all ok results on a key carry the one receipt the adapter holds for that key |
| `GatewayReceipts.MintedOnce` | packages/gateway/src/execution.ts:138-327 | a key's receipt, once minted, stays through every continuation |
| `GatewayAccounting.CapabilityAccounting` | packages/gateway/src/execution.ts:174-185 | in every interleaving, EXECUTION_STARTED entries, consuming calls and consumed capabilities correspond one to one, and `execute` gets only the capability its own call consumed |
| `GatewayAccounting.SpentWasRegistered` | packages/gateway/src/capability-registry.ts:38-57 | in every interleaving, each call that consumed a capability presented the id and the nonce of a capability registered before that call began |
| `GatewayAccounting.OnlyNewAttemptsSpend` | packages/gateway/src/execution.ts:146-182 | the registry changes exactly if the call is a new accepted attempt; refused capabilities, failed preconditions, conflicts and duplicates leave it alone |
| `GatewaySequential.ExecutedOncePerKey` | packages/gateway/src/execution.ts:163-327 | if calls on a key take turns, `execute` is called at most once per key ever, and a record keeps hash and capability and only moves from unknown to succeeded or failed |
| `GatewaySequential.EffectMatchesRecord` | packages/gateway/src/execution.ts:163-327 | if calls on a key take turns, the adapter's entry for a recorded key has the record's payload hash, however late it landed |
| `GatewaySequential.OkRepeatsItsParameters` | packages/gateway/src/execution.ts:163-327 | if calls on a key take turns in front of a fake adapter, every ok result's receipt repeats the parameters of the call it answers, field by field |
| `GatewaySequential.SecondAttemptExactly` | packages/gateway/src/execution.ts:163-195 | over any run with any overlap, another capability is spent on a key on which one was spent before if and only if the call is admitted, the key has no record and an earlier such call is under way, whether or not its re-check lets it reach `execute` |
| `GatewaySequential.SecondExecutionExactly` | packages/gateway/src/gateway.ts:32-42 | over any run with any overlap, `execute` is entered again on a key if and only if the call is admitted, passes the re-check, meets no record and an earlier call that entered `execute` is under way |
| `GatewayOverlap.OverlapExecutesTwice` | packages/gateway/src/execution.ts:163-208 | two overlapping calls that both reach `execute`, and a success replaced by an unknown outcome |
| `GatewayOverlap.ReconciliationOverwritesToo` | packages/gateway/src/execution.ts:268-327 | a run in which a reconciliation's success replaces the record an overlapping attempt left after the lookup began |
| `GatewayOverlap.RecordsMoveExactly` | packages/gateway/src/execution.ts:197-327 | over any run with any overlap, an event overwrites a record instead of resolving it if and only if an attempt finishes on a recorded key, or a reconciliation that found a receipt finishes on a record that changed since to something other than it writes |
| `GatewayOverlap.SameTimeout` | packages/gateway/src/execution.ts:197-208 | an unknown record is determined by the capability it names |
| `OrchestratorObjects.MutableRun.constructor` | apps/server/src/orchestrator.ts:226-304 | the new run with its two first ledger entries, hash and verdict |
| `OrchestratorObjects.MutableRun.FollowPolicy` | apps/server/src/orchestrator.ts:304-320 | deny, wait for approval, or authorize and execute, as the verdict says |
| `OrchestratorObjects.MutableRun.Authorize` | apps/server/src/orchestrator.ts:83-106 | mint, log, register and start the call, in that order; refused evidence changes only the summary |
| `OrchestratorObjects.MutableRun.ExecuteAction` | apps/server/src/orchestrator.ts:109-155 | the gateway call with the run's own operation, parameters, versions and expectation; other action types throw |
| `OrchestratorObjects.MutableRun.Approve` | apps/server/src/orchestrator.ts:323-360 | only a waiting run; a fresh approval is consumed, logged and turned into authority |
| `OrchestratorObjects.MutableRun.Replay` | apps/server/src/orchestrator.ts:375-383 | only a verified run; the same call again |
| `OrchestratorObjects.MutableRun.Reconcile` | apps/server/src/orchestrator.ts:386-397 | only an unknown or unreconciled run; the same call again |
| `OrchestratorObjects.MutableRun.Drift` | apps/server/src/orchestrator.ts:363-372 | only a waiting run; the current version goes up by one and the run is marked as drifted |
| `OrchestratorDrift.DriftedNeverExecutes` | apps/server/src/orchestrator.ts:363-372 | over any interleaving with any adapter: the resource version has moved exactly if the run drifted, a drifted run never enters `execute` and gets no outcome, and a run is STALE only if it drifted, with the version as the reason |
| `OrchestratorDrift.DriftedIsStopped` | packages/domain/src/precondition.ts:33-43 | over any interleaving, a drifted run that is approved in time fails its preconditions for the changed version and ends STALE |
| `OrchestratorCreation.CreationExact` | apps/server/src/orchestrator.ts:220-321 | a proposal is denied, left to an approver or authorized at once by role, action and cited evidence alone, and what each way leaves of the run |
| `OrchestratorCreation.FreshApprovalExact` | apps/server/src/orchestrator.ts:329-345 | the approval is fresh, for this very plan and good for ten minutes, and is consumed if and only if that is checked in time |
| `OrchestratorCreation.EventsExact` | apps/server/src/orchestrator.ts:239-274 | actor, subject and payload of the proposal, policy and approval entries |
| `OrchestratorCreation.MintedExact` | apps/server/src/orchestrator.ts:96-102 | actor, subject and payload of the minting entry |
| `OrchestratorCreation.IntegrityExact` | apps/server/src/orchestrator.ts:403-411 | actor, subject and payload of the integrity entry, for either verdict |
| `OrchestratorObjects.MutableRun.VerifyLedger` | apps/server/src/orchestrator.ts:400-413 | the check finds the whole ledger intact, and is itself logged |
| `OrchestratorObjects.MutableRun.ApplyExecutionResult` | apps/server/src/orchestrator.ts:162-195 | the state moves along the table and the summary is the result, or, where the table has no edge, the throw leaves both as they were |
| `OrchestratorObjects.MutableRun.FinishCall` | packages/gateway/src/execution.ts:197-243 | the last piece of the run's attempt equals a step of the server's machine |
| `OrchestratorObjects.MutableRun.FinishReconcile` | packages/gateway/src/execution.ts:268-276 | the last piece of a reconciliation equals a step of the server's machine |
| `OrchestratorObjects.MutableRun.Fire` | apps/server/src/adapters/slow-ticket-adapter.ts:33-36 | the inner adapter's effect, at whatever later time, equals a step of the server's machine |
| `OrchestratorObjects.MutableRun.Settle` | packages/gateway/src/execution.ts:185-197 | the call goes on with the first signal of its race, as a step of the server's machine |
| `OrchestratorObjects.MutableRun.LookUp` | packages/gateway/src/execution.ts:268 | the lookup reads the adapter and equals a step of the server's machine |
| `OrchestratorRuns.ExecutedAtMostOnce` | apps/server/src/orchestrator.ts:83-397 | over any interleaving of entry calls, pieces and effects with any adapter: the `execute` count is at most 1, is 0 in DENIED, APPROVAL_REQUIRED and STALE, exactly 1 in VERIFIED, FAILED, UNKNOWN_OUTCOME and RECONCILIATION_REQUIRED, and no other state but AUTHORIZED is reached |
| `OrchestratorRuns.OutcomeStates` | apps/server/src/orchestrator.ts:162-195 | once there is an outcome, results only lead from UNKNOWN_OUTCOME on, or nowhere |
| `Orchestrator.AttemptResultsExact` | apps/server/src/orchestrator.ts:162-182 | where a success, a timeout or a failed check leads from each state, and where it leads nowhere |
| `Orchestrator.OtherResultsExact` | apps/server/src/orchestrator.ts:176-195 | a fruitless lookup leads on from UNKNOWN_OUTCOME only, the other results leave the state alone |
| `OrchestratorGrants.EveryGrant` | apps/server/src/orchestrator.ts:83-360 | over any interleaving, a capability a run holds was given to it by one event of the past: the approval of the waiting run, with the approval consumed and the capability minted at that event's clock readings, or the creation of a run policy allows |
| `OrchestratorGrants.EveryEffectIsAuthorized` | packages/gateway/src/mint-capability.ts:38-80 | over any interleaving, an effect, however late, is the run's own plan under that capability, less than its lifetime and never more than five minutes after the granting event's reading; for a message or refund that event consumed an approval, unexpired at its reading and matching in hash and scope, and the ledger told it before the minting |
| `OrchestratorGrants.OnePlanPerHash` | packages/domain/src/hash.ts:80-88 | with a collision-free SHA-256 a plan hash determines action, resource, parameters and the multiset of evidence |
| `OrchestratorGrants.EffectIsTheApprovedPlan` | apps/server/src/orchestrator.ts:323-360 | whatever plan bears the approved hash, an effect under that approval has exactly its action, resource and parameters |
| `OrchestratorAuthority.LedgersStayIntact` | apps/server/src/orchestrator.ts:400-413 | no integrity check ever made on a run throws, and each answers intact with the full length |
| `OrchestratorAuthority.VerdictKnowsAction` | apps/server/src/orchestrator.ts:258-265 | the verdict a run is created with allows only ticket actions outright |
| `RunHistory.GrammarExact` | apps/server/src/orchestrator.ts:220-413 | the ledger grammar as a step-by-step parser and in closed form accept the same sequences, with one shape each |
| `OrchestratorHistory.LedgerFollowsGrammar` | apps/server/src/orchestrator.ts:220-413 | if entry calls take turns, a run's ledger without integrity checks is always: proposal, policy, approval if the run holds one, capability, then a precondition failure or an execution start with outcome, fruitless reconciliations only before it and replays only after a verified one; and the shape fits the store |
| `OrchestratorHistory.MintSucceeds` | apps/server/src/orchestrator.ts:83-92 | the evidence the orchestrator builds is never refused by the minter |
| `OrchestratorViews.ProjectionAgrees` | packages/ledger/src/projection.ts:52-117 | whenever no result waits to be applied, the projection of a run's ledger agrees with its state in front of a fake adapter, until a reconciliation is tried from RECONCILIATION_REQUIRED |
| `OrchestratorViews.ProjectionAgreesExactly` | packages/ledger/src/projection.ts:52-117 | with any adapter, whenever no result waits to be applied, projection and state agree if and only if no lookup has resolved the record of a run still in UNKNOWN_OUTCOME or RECONCILIATION_REQUIRED |
| `OrchestratorViews.BeyondReconciliationRequired` | apps/server/src/orchestrator.ts:386-397 | a reconciliation from RECONCILIATION_REQUIRED never moves the run, and view and state agree afterwards if and only if the lookup found nothing |
| `OrchestratorReconcile.ReconciliationAsksExactly` | apps/server/src/orchestrator.ts:386-397 | a reconciliation of an unknown record reaches the adapter's lookup if and only if the run's capability has not expired; otherwise it changes nothing |
| `OrchestratorReconcile.ReconciliationEndsExactly` | apps/server/src/orchestrator.ts:386-397 | a whole reconciliation of an UNKNOWN_OUTCOME run leaves it so if the capability has expired, and otherwise ends in VERIFIED if the effect has landed and in RECONCILIATION_REQUIRED if not |
| `OrchestratorReconcile.RefundsAndUpdatesNeverExecute` | apps/server/src/orchestrator.ts:109-155 | over any interleaving, a refund or a status update, even when approved or allowed, makes no gateway call |
| `OrchestratorProgress.ApprovedMessageIsSent` | apps/server/src/orchestrator.ts:220-360 | from any state of the server, a well-formed message proposal that is approved and answered in time can be driven to VERIFIED with one `execute` call and its receipt in the adapter |
| `OrchestratorProgress.MessageNeedsApproval` | packages/policy/src/policy.ts:149-207 | a message of a recognised principal on an active resource of its tenant, with resolving evidence and no stale intent, always goes to an approver |
| `OrchestratorViews.NoWayOut` | packages/domain/src/state-machine.ts:61 | no result of a lookup leads out of RECONCILIATION_REQUIRED: the transition throws and only the outstanding call is settled |

## Left out

- SHA-256, UUIDs, the clock and ISO date text: an arbitrary hash function, ids and times given from outside, integer milliseconds.
- Timers: only which signal comes first is modelled, so a timeout may win at any moment while `execute` is under way.
- Text is a sequence of Unicode scalar values; lone surrogates in JavaScript strings are not modelled.
- Numbers are carried as the text JavaScript prints for them; -0 and 0 are one number.
- `__proto__` keys, class instances, getters and sparse arrays in hashed values.
- `Canonical.Canonicalize`: requires distinct keys in enumeration order, which every JavaScript object has.
- `IdGenerator.AllIdsDistinct`: counters are unbounded; JavaScript's lose exactness past 2^53.
- `GatewayReceipts.OneReceiptPerKey`: needs callers to expect their own key, or operation ids paired with keys; every caller in the repository does the first.
- `OrchestratorRuns.ExecutedAtMostOnce`: run ids are fresh at creation; that is the id generator's part.
- `Adapters.FakeAdapter.Execute`: one class for the ticket, message and refund adapters, told apart by action type; constant receipt fields such as a ticket's status are not carried.
- The slow ticket adapter is the same adapter with its effect as a later event.
- Zod: schemas appear as predicates on receipts and capabilities; issue mapping and `parseModelProposal` are not part of this model.
- `FakeModelAdapter` and the five scenarios: role, goal, proposal, resource and adapter kind are arbitrary inputs of `createRun`.
- `summarizeResult`: the summary holds the result itself instead of its display form; `lastActionAt` and `createdAt` are not carried.
- `getRunOrThrow` and unknown scenarios: entry calls name existing runs.
- Revoking capabilities: no code path of the server does it; the edges are in the transition table.
- `checkRetryBudget`, `validateAdapterReceipt` on its own, HTTP routing, views, the web application, the evaluation package.
