# Paladin operator, SDK and document generator: a verified model

A Dafny model of the parts of Paladin whose behaviour spans many steps, with proofs about every run
and every input. `dafny verify dfyconfig.toml` checks all of it.

**The deployment engine** (`Transactions`, `Dependencies`, `Reconcilers`, `Cluster`, `Safety`,
`Preservation`, `Passes`, `Guarantees`, `Versions`, `Publication`, `PublicationRuns`, `Progress`,
`Fairness`, `Rounds`). Five reconcilers
(SmartContractDeployment, TransactionInvoke, PaladinRegistration, PaladinRegistry, PaladinDomain)
step concurrently over a store of custom resources and drive transactions on Paladin nodes. Each
reconciler is imperative Dafny over mutable objects, proved equal to a function of what it read; the
transition system in `Cluster` is built from those functions. A CR keeps every version it ever had.
A pass may start from any version, read any version of other CRs, be cut off after any step, and
lose a request or an answer; its status update takes effect only against the version it read, and a
conflict is swallowed. `Safety.Inv` is kept by every event; the theorems follow for every run.

**Concurrent and timed helpers.** `ClientCache`: the double-checked RPC client cache under all
interleavings of its lock steps. `Rollout`: the debounced StatefulSet rollout. `WebSocketClient`: the
TypeScript client as a class, and its behaviour under any sequence of socket events, timers, user
calls and late callbacks.

**The state machine document generator** (`Text`, `Guards`, `GuardMeaning`, `GuardExactness`,
`Tables`, `TableText`, `TableRoundTrip`, `TableLoss`, `TableScanner`, `Diagrams`, `BrokenDiagram`),
character by character: guard rewriting, the nested table parsers as recursive functions and as the position loops
that compute them, and the two diagrams. The round trip covers tables as they are written: comments
with colons between keys, actions and validators around the parts searched for, aligned values,
`If` before or after `To`, guards over several lines, and events bound to variables.

**Configuration generation** (`Generation`, `Genesis`, `GenesisMap`, `Rlp`): service ports,
de-duplication, TLS mounts, genesis validators, QBFT extra data, and the genesis config map under
interleaved passes with stale reads.

Assumptions of the model:

- The spec of a CR does not change after creation (a changed one counts as a new CR under a new
  uid), and only these controllers write status.
- A generated idempotency key never repeats one generated for another slot (the code builds keys
  from the CR and a microsecond clock); a node gives every transaction a new id, keeps one
  transaction per key, and its receipts are final.
- A status update that changes nothing creates no version, and an empty resolved-address map reads
  back as nil, since it is dropped on persistence
  (operator/api/v1alpha1/smartcontractdeployment_types.go:81).
- Template evaluation, transaction building, JSON parsing, address parsing, md5 and key derivation
  are parameters or opaque values; clocks are parameters that never go backwards; regular
  expressions use their ASCII classes.

Where the obvious claim is not what the code does, the model follows the code and states when the
claim holds:

- `publishCount` is documented as the number of published and registered transactions, but every
  update overwrites it: with 0 until the registration has succeeded, that update included, and then
  with one plus what succeeded in that pass. `Versions.PublishCountExact` says of every version of
  every run whether it is right; `PublicationRuns.SuccessNotCounted` and
  `PublicationRuns.CountFallsBehind` are runs in which it is not, and `Versions.NothingToPublish` a
  case in which it stays 0.
- A transport listed twice is sent under a key nobody has persisted, and then exactly-once fails
  (`Publication.PersistedKeysExactly`; a run for every such list:
  `PublicationRuns.DuplicateTransports`).
- A required deployment listed twice is never ready (`Dependencies.ReadyExactly`).
- The config sum is stored with an `md5-` prefix and compared without it, so an unchanged
  configuration is rolled out again and again (`Rollout.UnchangedConfigRollsForEver`); an update after
  a stale first read of the StatefulSet skips the wait, and two updates come too close only if one of
  them is such a one (`Rollout.SpacedExactly`).
- A deleted node's RPC clients stay cached (`ClientCache.DeletedNodeKeepsClients`).
- `close()` of the WebSocket client is undone by a late ping or handshake callback
  (`WebSocketClient.CloseIsFinal`).
- The generator reports only the first list of transitions of an event, which loses two lists of the
  coordinator's table (core/go/internal/sequencer/coordinator/state_machine.go:287-319), and nothing
  of an event bound to a variable, which loses those of
  core/go/internal/sequencer/coordinator/transaction/state_machine.go:592-594
  (`TableLoss.AllReportedExactly`). It takes an action's guard for that of a transition without one
  (`TableLoss.ActionGuardIsBorrowed`; no table of the repository has this shape). It does not rewrite
  guards that span lines (`Guards.MultiLineIsLeftAlone`), so such guards, as in
  core/go/internal/sequencer/coordinator/state_machine.go:1158, break the lines of the detailed
  diagram (`BrokenDiagram.MultiLineGuardBreaksDiagram`), and it prints no parentheses
  (`GuardExactness.SafeExactly`).
- A mount the container has already, such as that of a log path under `/cert000`, can take a
  certificate directory (`Generation.CertDirIsMounted`).

## Model

| member | source | states |
|---|---|---|
| Transactions.TransactionReconcile.Reconcile | operator/internal/controller/transaction_reconcile.go:103-139 | the object's new status, receipt and flags and the nodes' ledger are those of the specification `ReconcileTx`, on every path: final status, new key, no RPC yet, submit, track |
| Transactions.TransactionReconcile.SubmitTransaction | operator/internal/controller/transaction_reconcile.go:141-182 | submits under the persisted key; on a duplicate-key answer it adopts the transaction the node already holds for that key; on a lost answer the record is unchanged |
| Transactions.TransactionReconcile.TrackTransaction | operator/internal/controller/transaction_reconcile.go:184-207 | a receipt ends the record as Success or Failed with its hash, block or failure; none leaves it as it is |
| Transactions.ReconcileStepsUp | operator/internal/controller/transaction_reconcile.go:103-207 | a coherent record moves up by exactly one status when a change is reported and is untouched otherwise; key and id are written once; the success and failure flags are the new status |
| Dependencies.ContractDependencies.CheckSmartContractDeps | operator/internal/controller/transactioninvoke_controller.go:180-213 | the loop computes `CheckDeps`: addresses, summary, changed, ready and error |
| Dependencies.ResolveAdds | operator/internal/controller/transactioninvoke_controller.go:195-208 | known addresses are never replaced, every added one is the answer to a read of that dependency, and only required names are added |
| Dependencies.ResolveCompletes | operator/internal/controller/transactioninvoke_controller.go:195-208 | if every read finds an address, every required name is resolved |
| Dependencies.ReadyExactly | operator/internal/controller/transactioninvoke_controller.go:180-186 | the comparison of two lengths holds exactly when the names are distinct and all resolved |
| Reconcilers.Resource.ReconcileContract | operator/internal/controller/smartcontractdeployment_controller.go:71-133 | a deployment or invoke pass writes exactly the status of `ContractPass` or nothing, and leaves the ledger it says, including a success without a contract becoming Failed |
| Reconcilers.Resource.ReconcileRegistration | operator/internal/controller/paladinregistration_controller.go:79-175 | the registration, then the transport loop, give the status, ledger and panic of `RegistrationPass` |
| Reconcilers.Resource.PublishTransports | operator/internal/controller/paladinregistration_controller.go:130-168 | the loop over transports computes `PublishAll`: count, changed flag, publish map and ledger, stopping at a write into a nil map |
| Reconcilers.Resource.ReconcileRegistry | operator/internal/controller/paladinregistry_controller.go:49-84 | the registry pass writes exactly the status of `RegistryPass` or nothing |
| Reconcilers.Resource.ReconcileDomain | operator/internal/controller/paladindomain_controller.go:47-77 | the domain pass writes exactly the status of `DomainPass` or nothing |
| Reconcilers.Resource.TrackDeployment | operator/internal/controller/paladindomain_controller.go:87-106 | adopts a deployment's address once it has one, and only then becomes Available |
| Passes.NextKeeps | operator/internal/controller/smartcontractdeployment_controller.go:135-141 | every event keeps the invariant of the engine and takes back no version, transaction, receipt or key |
| Guarantees.ExactlyOnce | operator/internal/controller/transaction_reconcile.go:103-182 | in every run at most one transaction exists per submission slot, over all nodes and keys |
| Guarantees.RecordedId | operator/internal/controller/transaction_reconcile.go:141-182 | a recorded transaction id is that of the slot's own transaction on its node under its persisted key |
| Guarantees.History | operator/internal/controller/smartcontractdeployment_controller.go:90-133 | statuses never move down, final records stay as they are, and keys, ids, resolved addresses, contract addresses and availability persist in every later version |
| Guarantees.OneStatusAtATime | operator/internal/controller/transaction_reconcile.go:103-207 | successive versions move a record at most one status: empty, Submitting, Pending, final |
| Guarantees.ReceiptAgreement | operator/internal/controller/smartcontractdeployment_controller.go:112-133 | a final status reports the node's receipt; a deployment has an address exactly on Success, and it is the receipt's contract |
| Guarantees.AvailableForEver | operator/internal/controller/paladindomain_controller.go:47-106 | an Available domain or registry keeps one non-empty address in every later version |
| Guarantees.DependencyOrder | operator/internal/controller/transactioninvoke_controller.go:180-227 | a deployment or invoke transaction appears only in a state where every required deployment has a Success version whose address is the one put into it |
| Guarantees.CyclesNeverSubmit | operator/internal/controller/transactioninvoke_controller.go:180-227 | for any set of names whose deployments each require a member of the set, nothing in or behind the set is ever submitted |
| Guarantees.RegistrationOrder | operator/internal/controller/paladinregistration_controller.go:93-149 | registration transactions target an address their registry was Available at; a transport transaction exists only after registerIdentity succeeded on the node |
| Guarantees.PublishCountBounded | operator/internal/controller/paladinregistration_controller.go:130-173 | a persisted PublishCount never exceeds the number of successes in that version |
| Guarantees.NoNilMapWrite | operator/internal/controller/paladinregistration_controller.go:93-166 | in no run does the loop write into the nil publish map |
| Guarantees.OneStepDrops | operator/internal/controller/smartcontractdeployment_controller.go:90-132 | every effective update of a deployment or invoke strictly lowers: summary unwritten, unresolved dependencies, statuses to go |
| Versions.EveryKindEnds | operator/internal/controller/smartcontractdeployment_controller.go:90-132 | in every run a deployment or invoke has at most its number of dependencies plus 5 versions, a registration 4 and 3 more for each transport, a registry or domain 3 |
| Versions.LeftDrops | operator/internal/controller/paladinregistration_controller.go:93-173 | every effective update of any kind of CR strictly lowers what it has left |
| Publication.CountsThisPass | operator/internal/controller/paladinregistration_controller.go:130-166 | with distinct transports the loop's count is one plus the publications that succeeded during it, and other slots are untouched |
| Versions.PublishCountExact | operator/internal/controller/paladinregistration_controller.go:93-173 | in every run a version's count is the true number of successes if and only if, the registration having succeeded in the version before, no transport had, or, it not having succeeded there, it has not in this one either |
| Versions.NothingToPublish | operator/internal/controller/paladinregistration_controller.go:93-173 | in every run a registration without transports has count 0 in every version |
| Publication.PersistedKeysExactly | operator/internal/controller/paladinregistration_controller.go:132-149 | whatever the environment does, the loop sends only under persisted keys if and only if no transport is listed twice |
| PublicationRuns.DuplicateTransports | operator/internal/controller/paladinregistration_controller.go:132-149 | for every registration with a repeated transport there is a run from the empty cluster that leaves two transactions for one slot |
| PublicationRuns.SuccessNotCounted | operator/internal/controller/paladinregistration_controller.go:93-120 | for every registration there is a run from the empty cluster to a version in which it has succeeded and the count is 0 |
| PublicationRuns.CountFallsBehind | operator/internal/controller/paladinregistration_controller.go:130-173 | for every registration with two different transports there is a run from the empty cluster to a version with three successes and a count of two |
| Progress.EverythingDeploys | operator/internal/controller/smartcontractdeployment_controller.go:71-133 | from every reachable state with acyclic dependencies, whose nodes have failed no deployment or invoke, there is an undisturbed continuation that finishes every live deployment and invoke |
| Progress.StepDown | operator/internal/controller/smartcontractdeployment_controller.go:71-133 | while some CR is unfinished, at most three undisturbed events lower the total work left |
| Fairness.EventCloser | operator/internal/controller/smartcontractdeployment_controller.go:71-141 | no event short of creation and deletion, faulty or stale or conflicting, makes any CR's remaining work grow or a finished CR unfinished, and every new version of a CR lowers its work |
| Fairness.ServedWrites | operator/internal/controller/smartcontractdeployment_controller.go:71-141 | a CR whose required deployments are finished gets a new version in every run that gives it one clean pass, whatever events of other passes, of the same CR too, come between the steps of that pass |
| Fairness.RoundLowers | operator/internal/controller/smartcontractdeployment_controller.go:71-141 | every run in which each unfinished CR gets one clean pass, interleaved with anything and amid any faults, strictly lowers the total work left |
| Fairness.EveryFairRunDeploys | operator/internal/controller/smartcontractdeployment_controller.go:71-141 | from every reachable state every sequence of as many such rounds as there is work left ends with all deployments and invokes at Success |
| Rounds.RoundsExist | operator/internal/controller/smartcontractdeployment_controller.go:71-141 | from every such state there are fair runs of any number of rounds |
| ClientCache.PrefixIsNode | operator/internal/controller/transaction_reconcile.go:272-284 | without "/" in names the prefix test selects exactly the keys of that node |
| ClientCache.KeyIdentifies | operator/internal/controller/transaction_reconcile.go:235-238 | equal cache keys mean equal node and timeout |
| ClientCache.DeletedNodeKeepsClients | operator/internal/controller/paladin_controller.go:88-101 | removal under the resource name touches no client of that node, and those of another exactly if it bears that name |
| ClientCache.RpcClientManager.RemoveNode | operator/internal/controller/transaction_reconcile.go:272-284 | the map loses exactly the keys with the node's prefix |
| ClientCache.BuiltOncePerAbsence | operator/internal/controller/transaction_reconcile.go:235-270 | in every interleaving two clients are built for one key only with a removal of that key in between |
| ClientCache.ReturnsOwnClient | operator/internal/controller/transaction_reconcile.go:235-270 | in every interleaving a call returns a client built for its own node and timeout, shared only by calls for the same pair |
| ClientCache.ReturnsCurrent | operator/internal/controller/transaction_reconcile.go:235-270 | in every interleaving, when a call returns, its client is the last one built for its key and the key has not been removed since |
| Rollout.InFlight.IsReady | operator/internal/controller/inflight.go:36-48 | ready exactly when queued and the wait has passed since the queueing |
| Rollout.InFlight.Insert | operator/internal/controller/inflight.go:50-63 | a key already queued keeps its first timestamp |
| Rollout.ReconcileRollout | operator/internal/controller/paladin_controller.go:148-189 | a pass changes queue and updates as `Step` says and no other resource's entry |
| Rollout.UnchangedConfigRollsForEver | operator/internal/controller/paladin_controller.go:158-188 | in every run of passes over a StatefulSet that carries the sum of its configuration, the wait apart, every second pass updates it again and the others queue it |
| Rollout.SumNeverMatches | operator/internal/controller/paladin_controller.go:164-166 | an annotation the operator stores (paladin_controller.go:390) never equals a computed digest |
| Rollout.UpdatesAreSpaced | operator/internal/controller/paladin_controller.go:148-189 | in every timely run any two updates that followed a read of the StatefulSet are at least the wait apart, whatever updates after a stale first read come between |
| Rollout.SpacedExactly | operator/internal/controller/paladin_controller.go:148-189 | all rollouts of a timely run are the wait apart if and only if each pass that missed the StatefulSet at first and then found and updated it is the wait apart from the rollouts before and after it |
| Rollout.ChurnNeverPostpones | operator/internal/controller/paladin_controller.go:158-173 | while a change is queued no configuration change moves its time, and the first accepted pass after the wait rolls out its own sum |
| Rollout.UpdateCarriesOwnSum | operator/internal/controller/paladin_controller.go:178-188 | every update carries the time and sum of one accepted pass that found the StatefulSet, and is marked stale exactly if that pass had first missed it |
| Rollout.StaleReadSkipsTheWait | operator/internal/controller/paladin_controller.go:174-180 | with stale first reads two updates happen with no wait between them |
| WebSocketClient.OneSocketOneTimerEach | sdk/typescript/src/websocket.ts:36-202 | after any events at most one socket carries the client's handlers, it is the current one, and at most one timer of each kind is armed |
| WebSocketClient.IdsNeverReused | sdk/typescript/src/websocket.ts:210-219 | request ids strictly increase across all reconnects |
| WebSocketClient.SubscriptionsBounded | sdk/typescript/src/websocket.ts:68-121 | pending plus active subscriptions since the last open never exceed the configured ones |
| WebSocketClient.ReconnectWaits | sdk/typescript/src/websocket.ts:192-201 | the k-th consecutive reconnect waits min(base·2^k, max), so the waits never shrink nor exceed the maximum |
| WebSocketClient.CloseIsFinal | sdk/typescript/src/websocket.ts:221-255 | after any run, closing is final if and only if no ping or handshake callback is outstanding or reconnecting is disabled |
| WebSocketClient.LateCallbackReopens | sdk/typescript/src/websocket.ts:95-110 | an outstanding callback reconnects a closed client |
| WebSocketClient.PaladinWebSocketClient.Open | sdk/typescript/src/websocket.ts:36-57 | the old socket loses its handlers, the reconnect timer is disarmed, one new socket is current |
| WebSocketClient.PaladinWebSocketClient.ClearPingTimers | sdk/typescript/src/websocket.ts:145-154 | both ping timers are disarmed and forgotten, nothing else changes |
| WebSocketClient.PaladinWebSocketClient.StartPing | sdk/typescript/src/websocket.ts:156-172 | the old pair of ping timers is replaced by a new pair |
| WebSocketClient.PaladinWebSocketClient.StartReconnect | sdk/typescript/src/websocket.ts:174-202 | a scheduled reconnect is left alone, a disabled one drops the socket, otherwise one timer is armed with the backoff of the attempts so far |
| WebSocketClient.PaladinWebSocketClient.OnOpen | sdk/typescript/src/websocket.ts:60-82 | attempts are reset, pings scheduled, old subscriptions forgotten and each configured one requested under a new id |
| WebSocketClient.PaladinWebSocketClient.Shutdown | sdk/typescript/src/websocket.ts:221-255 | all timers disarmed, the socket without handlers, no current socket |
| Guards.SplitArguments | scripts/generate_state_machine_docs.py:142-159 | the loop computes `SplitArgs` |
| Guards.SplitInvertsJoin | scripts/generate_state_machine_docs.py:142-159 | splitting undoes joining any non-empty list of arguments with ", " |
| Guards.SimplifyRendersInfix | scripts/generate_state_machine_docs.py:167-196 | for every guard tree the rewriting of its Go text is its infix rendering |
| Guards.MultiLineIsLeftAlone | scripts/generate_state_machine_docs.py:167-196 | a call whose arguments contain a line break is returned as it is |
| GuardMeaning.TextReads | scripts/generate_state_machine_docs.py:167-196 | the rendered text, read with the usual precedence, is the guard's disjunctive reading |
| GuardMeaning.SafeKeepsMeaning | scripts/generate_state_machine_docs.py:167-196 | if Not applies only to literals and Or never sits under And, the text has the guard's boolean meaning under every valuation |
| GuardExactness.SafeSuffices | scripts/generate_state_machine_docs.py:167-196 | any guard that is safe once double negations cancel keeps its meaning |
| GuardExactness.SafeExactly | scripts/generate_state_machine_docs.py:167-196 | for every guard in which no atom occurs twice, the text keeps the meaning if and only if, once double negations cancel, Not applies only to atoms and Or never sits under And |
| Tables.BlockOfBraced | scripts/generate_state_machine_docs.py:74-88 | a block with balanced contents is extracted whole, whatever follows |
| TableScanner.ExtractBlock | scripts/generate_state_machine_docs.py:74-88 | the depth-counting loop returns the text up to the matching brace, or to the end |
| TableScanner.ExtractFieldValue | scripts/generate_state_machine_docs.py:116-139 | the search and scan loops compute `FieldValue` |
| TableScanner.ParseTransitionStructs | scripts/generate_state_machine_docs.py:253-280 | the position loop strictly advances and computes `ParseStructs` |
| TableScanner.ParseEventHandlers | scripts/generate_state_machine_docs.py:283-311 | the position loop strictly advances and computes `ParseEvents` |
| TableScanner.ParseStateMap | scripts/generate_state_machine_docs.py:326-354 | the position loop strictly advances and computes `ParseStates` |
| TableScanner.ParseStateMachine | scripts/generate_state_machine_docs.py:314-363 | the transitions collected from a file are those of `ParseMachine` |
| TableRoundTrip.TargetRead | scripts/generate_state_machine_docs.py:263-275 | a printed transition, its two fields in either order, any other fields and comments around them and its guard over any number of lines, is read with its target and the first `If` of its text, which is its guard unless an action's comes first |
| TableRoundTrip.OneLineGuard | scripts/generate_state_machine_docs.py:167-196 | the guard of a transition written on one line is reported as its infix rendering |
| TableRoundTrip.MultiLineGuard | scripts/generate_state_machine_docs.py:167-196 | a guard call written over several lines is reported as it is written |
| TableRoundTrip.EventRead | scripts/generate_state_machine_docs.py:296-307 | the block of an event is read as the transitions of its first handler that lists any |
| TableRoundTrip.TableReadsBack | scripts/generate_state_machine_docs.py:253-363 | for every table printed in the layout, inside any file, the parsers return its states', events' and first lists' transitions, in order, guards included, and nothing for an event bound to a variable |
| TableLoss.AllReportedExactly | scripts/generate_state_machine_docs.py:253-311 | every transition is reported with its own guard if and only if in no event a handler after the first with a list contributes one, no event is bound to a variable whose handlers list any, and no action's guard stands for a transition's |
| TableLoss.SecondListIsLost | scripts/generate_state_machine_docs.py:300-306 | for a table with two lists in one event the second list's transition is missing, in any file |
| TableLoss.VariableIsLost | scripts/generate_state_machine_docs.py:298-308 | for a table with an event bound to a variable the transition of its handler is missing, in any file |
| TableLoss.ActionGuardIsBorrowed | scripts/generate_state_machine_docs.py:263-275 | a transition without a guard whose action has one is reported with the action's |
| Diagrams.SimpleArrows | scripts/generate_state_machine_docs.py:409-415 | the loop draws one arrow per pair of states, at its first occurrence |
| Diagrams.WithoutRepeatsFacts | scripts/generate_state_machine_docs.py:409-415 | leaving out repetitions keeps every line, each once, in order of first occurrence |
| Diagrams.GenerateSimple | scripts/generate_state_machine_docs.py:401-420 | header, state labels, initial arrow, one arrow per pair of states, and the arrows of terminal states |
| Diagrams.GenerateDetailed | scripts/generate_state_machine_docs.py:423-443 | the same first and last lines with one labelled arrow per transition between them |
| Diagrams.OneRelationTwoDiagrams | scripts/generate_state_machine_docs.py:401-443 | the simple diagram is the detailed one with, between the common first and last lines, labels cut off and repeated lines left out |
| Diagrams.TerminalExactly | scripts/generate_state_machine_docs.py:392-395 | a state has exactly one arrow to the end if no transition leaves it, and otherwise none |
| Diagrams.LinesExactly | scripts/generate_state_machine_docs.py:423-443 | for word states and events the text of the detailed diagram has the diagram's lines, one per transition, if and only if no guard contains a line break |
| BrokenDiagram.MultiLineGuardBreaksDiagram | scripts/generate_state_machine_docs.py:167-443 | from the file to the diagram: a table with a guard call over several lines gives a text that does not have the diagram's lines |
| BrokenDiagram.MultiLineExists | scripts/generate_state_machine_docs.py:167-196 | such guards exist for any two conditions |
| Generation.ServiceSpec.MergeServicePorts | operator/internal/controller/common.go:46-78 | the service lists the merged ports in strict name order |
| Generation.RequiredSideWins | operator/internal/controller/common.go:46-78 | the names are those provided or required; target port and protocol come from the required side; a port not required is unchanged |
| Generation.MergeIdempotent | operator/internal/controller/common.go:46-78 | merging the result again with the same required ports changes nothing |
| Generation.DeDupAndSort | operator/internal/controller/common.go:130-150 | one item per name, the first given, in strict name order |
| Generation.DeDupIgnoresOrder | operator/internal/controller/common.go:130-150 | if equal names mean equal items, the output does not depend on order or repetition of the input |
| Generation.NodeConfig.GeneratePaladinTransports | operator/internal/controller/paladin_controller.go:1334-1396 | computes the mounted secrets and each transport's certificate directory, or fails when a secret is not found |
| Generation.AddTLSSecretMounts | operator/internal/controller/paladin_controller.go:690-705 | the lists there already are followed by one volume and mount per secret, the i-th for the i-th secret |
| Generation.CertDirIsMounted | operator/internal/controller/paladin_controller.go:1334-1396 | a transport has a certificate directory exactly if it is configured with TLS, and there exactly one mount puts exactly one volume, with that transport's own secret, if and only if nothing the container had before takes the name or the directory |
| Generation.PaddedInjective | operator/internal/controller/paladin_controller.go:690-705 | the three-digit directory numbers are unambiguous, beyond 999 too |
| Genesis.GetInitialValidators | operator/internal/controller/besugenesis_controller.go:203-242 | ready, not ready or invalid exactly under the stated conditions, with the address of each name at its place |
| Genesis.EnoughSecrets | operator/internal/controller/besugenesis_controller.go:211-217 | as many secrets as validators are listed exactly when the names are distinct and each has its secret |
| Genesis.AddressesInSpecOrder | operator/internal/controller/besugenesis_controller.go:219-241 | in any listing order the address at a place is the identity of the name at that place in the spec |
| Genesis.ReadyExactlyWhen | operator/internal/controller/besugenesis_controller.go:191-242 | the condition under which `GetInitialValidators` is ready holds if and only if there are names, they are distinct, and each has an identity secret with a valid address |
| GenesisMap.ConfigMapStore.CreateConfigMap | operator/internal/controller/besugenesis_controller.go:111-135 | an undisturbed pass computes `Alone`: it writes only where there is no map, and reports only a genesis that is or was stored |
| GenesisMap.AloneIsARun | operator/internal/controller/besugenesis_controller.go:111-135 | the undisturbed pass is the run of its steps, with the same map and report at the end |
| GenesisMap.GenesisIsFinal | operator/internal/controller/besugenesis_controller.go:111-135 | after every run of interleaved passes that leaves a genesis, no further steps write the map until somebody deletes it, though reads are stale and answers lost |
| GenesisMap.OneGenesis | operator/internal/controller/besugenesis_controller.go:111-135 | while nobody deletes it, every pass that reports a genesis reports the one stored |
| Genesis.BuildQBFTExtraData | testinfra/pkg/besugenesis/genesis.go:59-79 | the buffer and list loops give the RLP encoding of vanity, validators, no vote, round 0 and no seals |
| Genesis.FitsExactly | testinfra/pkg/besugenesis/genesis.go:59-79 | the extra data can be encoded if and only if 21 bytes per validator and 45 more stay below 2^64 |
| Genesis.ExtraDataRoundTrip | testinfra/pkg/besugenesis/genesis.go:59-79 | decoding by Appendix B of the Ethereum Yellow Paper returns exactly those five parts |
| Genesis.ExtraDataInjective | testinfra/pkg/besugenesis/genesis.go:59-79 | different validator lists give different bytes |
| Rlp.DecodeEncode | testinfra/pkg/besugenesis/genesis.go:70-79 | decoding an encoded item followed by any bytes returns the item and those bytes |

## Left out

- GuardExactness.SafeExactly: the "only if" half is for guards in which no atom occurs twice; with repeated atoms a wrong text can mean the same by accident, as `a && a || a` does for the conjunction of `a` with the disjunction of `a` and `a`.
- TableRoundTrip.TableReadsBack: text between keys holds no braces, other Go text has balanced braces and does not hold the field searched for, and a value that is a variable is followed by a comma; text outside this layout is parsed by the same functions but not characterised.
- Diagrams.OneRelationTwoDiagrams: for transitions whose states are `State_` names.
- Genesis.BuildQBFTExtraData: for encodings shorter than 2^64 bytes, the range RLP defines (`Genesis.FitsExactly`).
- Fairness.EveryFairRunDeploys: that passes happen is the hypothesis of fairness; the queue of Kubernetes that makes them happen is not modelled.
- The sequencer, domains (Noto, Zeto, Pente), registries, transports, UI, examples and contract packaging.
- Kubernetes client, controller-runtime and Paladin RPC internals beyond a versioned store and nodes with unique keys and final receipts; watch predicates, requeue durations, logging and conditions.
- Building transactions from templates (`resolveTemplatesInValue`, link references, transport details): only that it succeeds, waits or fails, and which addresses go in.
- `generatePaladinDomains`, `generatePaladinRegistries`, signer, database, auth and log settings, and the PVC, PDB, Service and Secret templates: one lookup or copy each.
- `createCertificate`, the issuing of certificates, and a transport `configJSON` of `null`.
- `setQBFTConfig` and the other genesis fields beyond the extra data.
- The const-block readers (`parse_states`, `parse_events`) and the markdown tables of the generator.
- Passes of the Paladin reconciler that return an error before the rollout step; they change neither queue nor StatefulSet.
- The `wait` variant and the message payloads of the WebSocket client, and user callbacks that call back into it during an event.
