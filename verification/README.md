# A verified model of the workflow engine

The engine runs pinned workflows on top of one transactional store: deterministic
reducers compute the next value of an aggregate, controllers read aggregates one at
a time and publish what they decided in one atomic commit. This project models the
parts that carry its guarantees and proves them.

* **Durable store.** The journal file byte by byte: frames with header, payload and
  footer, recovery, torn tails, compaction (`Journal`, `JournalRecovery`,
  `JournalTamper`). Above it the transactional state with revisions, events, command
  replay, leased intents and inbox (`Store`, `Transactions`), and the store object with
  its poison flag (`FileStore`, `Durability`).
* **Workflow compiler and routing.** Kahn's sort, reachability, dominance, compilation
  (`Graph`, `Reachability`, `Workflow`), the AND-join at run time (`Routing`), exactly
  when a referenced output is available (`Availability`), retry delays (`Backoff`).
* **Values.** Canonical numbers and exact decimals (`Digits`, `Numbers`, `Decimals`),
  canonical JSON against a reader for sections 6 to 8 of RFC 8259 (`Json`,
  `JsonRoundTrip`, `JsonSurrogates`, `CanonicalJson`), schemas and what lies within
  what (`Schemas`, `Assignability`, `Subsumption`), the expression checker and evaluator
  and how far they agree (`Expressions`, `Soundness`, `SoundnessLimits`).
* **Controller protocol.** Stale reads and one commit (`Protocol`), run admission under
  one active owner (`ActiveOwner`) with its retries (`Ingress`), external waits
  (`ExternalWait`).
* **Kernel reducers.** Invocation ledger, effects, runtime bindings and fences, run
  lifecycle (`Invocation`, `Effect`, `RuntimeBinding`, `RunLifecycle`).
* **One run, driven.** Every commit of the drive loop, of wait resolution and of
  termination on the joint state of run, snapshot, invocations, effects and intents
  (`RunLoop`), its invariant (`RunFacts`, `RunInvariant`, `RunSafety`), what follows
  (`RunResults`, `RunWitness`), which runs can end (`RunEnding`), what commits do that
  were decided on an earlier read of the run (`RunStale`), and why driving ends
  (`RunPotential`, `RunProgress`, and the loop itself in `Controllers`).

Where the engine keeps its promise only under a condition, the condition is stated
and proved to be exact, and a concrete input shows the failure:

* A visible output is available on every execution from an entrypoint exactly if that
  entrypoint reaches its producer and an edge that asks for the success of the producer
  leads towards the node. With several entrypoints a producer that only another one
  reaches is not waited for (`Availability.AvailableExactly`,
  `Availability.UnguardedOutputMissing`, `Availability.OtherEntrysOutputMissing`).
* `assignable` is sound for enumeration-free sources exactly without holes below open
  ones (`Assignability.AssignableExactly`, `Assignability.OpenSourceIsNotSubsumed`).
  For all well-formed schemas `Subsumption.Within` decides what `assignable` approximates.
* Between enumerations `assignable` compares canonical texts, and validation compares
  nested values structurally: 0.0 and 0 inside a list have one text and are different
  values (`SoundnessLimits.EnumerationsExactly`, `SoundnessLimits.EnumerationsComparedByText`).
* The receipt of an external wait omits an empty payload when it is stored. After a
  success with an empty payload every reader of the receipt reports corruption for ever,
  and after any other resolution none does (`ExternalWait.RepetitionReplaysExactly`,
  `ExternalWait.NeverCorruptExactly`, `ExternalWait.EmptyPayloadIsCorrupt`).
* `coalesce` fits its type exactly if an argument is definite or the type is null
  (`SoundnessLimits.CoalesceFitsExactly`, `SoundnessLimits.UnguardedCoalesceIsUnsound`).
* A list constructor takes the type of its first element. It fits exactly if the other
  element types lie within that one; `sameType` looks at neither openness nor
  enumerations (`SoundnessLimits.ListFitsExactly`, `SoundnessLimits.SameTypeExactly`,
  `SoundnessLimits.ListForgetsOpenness`, `SoundnessLimits.ListForgetsEnumeration`).
* `cancelOpenInvocations` clears only the `Waiting` projection. A run that begins to
  stop while it waits for a child action or for a retry can therefore not be read any
  more once its invocation is canceled, and never ends; every other run can still end
  (`RunResults.DrainedStopIsReadableExactly`, `RunResults.TrappedForever`,
  `RunEnding.CanEndExactly`, `RunWitness.StoppedRetryNeverEnds`), although the comment at
  controller/controller.go:835-837 expects the projection to stay until settlement.
* `Drive` reads the run before the snapshot, and a claim swaps the invocation only. A
  claim decided on an older read of the run leaves the snapshot readable exactly if no
  retry wait was projected (`RunStale.StaleClaimIsHarmlessExactly`,
  `RunWitness.StaleClaimBreaksTheSnapshot`). Where one was, the run can end only through
  the claimant's own report, and `RunStale.LateEndsExactly` says exactly when. All other
  commits decided on an older read of the run are harmless (`RunStale.MixedKeepsExactly`).

Stable identities are modelled by what they are derived from, so they are injective;
the hash of the journal and the state codec are parameters, and tamper results read
"reported, or a collision is exhibited". The codec is taken to read back every state it
wrote; the receipt of an external wait, whose encoding omits an empty payload, is
modelled as it is stored. The engine applies its JSON node limits only when it loads a
state, so that opening is never refused holds while the stored state fits these limits.
Times are integers. Results of node executors, resumers, providers and child runs are
arguments of actions.

## Model

| member | source | states |
|---|---|---|
| `Journal.HeaderDecodes` | durable/filestore/filestore.go:731-772 | an encoded header decodes to the lengths and digests of its payload |
| `Journal.FooterDecodes` | durable/filestore/filestore.go:927-950 | an encoded footer decodes to the same metadata as its header |
| `Journal.CommittedFooterInRange` | durable/filestore/filestore.go:955-979 | the scan finds a footer exactly if some position of the bytes holds one whose announced frame ends there |
| `Journal.ReadFrameAt` | durable/filestore/filestore.go:832-900 | one step of recovery reads the frame that a pure reader of the remaining bytes reads |
| `Journal.LoadFile` | durable/filestore/filestore.go:832-900 | the recovery loop returns what folding complete frames over the file gives, within its frame and byte budgets |
| `JournalRecovery.CompleteFrameReads` | durable/filestore/filestore.go:731-772 | a complete frame is read back as its state, whatever bytes follow |
| `JournalRecovery.NoFooterInTornFrame` | durable/filestore/filestore.go:944-979 | no strict prefix of a frame with a zero-free payload contains a committed footer, even across the edge of payload and footer |
| `JournalRecovery.TornFrameReads` | durable/filestore/filestore.go:832-900 | every strict non-empty prefix of a frame is a crash tail, never a frame and never corruption |
| `JournalRecovery.LoadSkipsFrames` | durable/filestore/filestore.go:832-900 | recovery walks over any number of complete frames and continues with the rest |
| `JournalRecovery.TornTailLoads` | durable/filestore/filestore.go:832-900 | a committed journal followed by a prefix of one more frame recovers the state before it; the tail is torn exactly if the prefix is non-empty and strict |
| `JournalRecovery.CrashRecovers` | durable/filestore/filestore.go:687-729 | a crash during an append or a compaction leaves the state before or after it, the latter exactly if the frame was written in full, within the frame and byte budgets |
| `JournalRecovery.OpenAfterCrash` | durable/filestore/filestore.go:117-220 | opening after any such crash is never refused and restores a committed journal |
| `JournalRecovery.HistoryIsAtomic` | durable/filestore/filestore.go:687-820 | after every history of commits, compactions and crashes the store opens with the state that an atomic store would have |
| `JournalRecovery.ReopenKeepsState` | durable/filestore/filestore.go:117-220 | closing and reopening an intact journal changes nothing |
| `JournalTamper.PayloadDamageDetected` | durable/filestore/filestore.go:832-900 | another payload of the same length is reported as corruption, or a hash collision is exhibited |
| `JournalTamper.FooterDamageDetected` | durable/filestore/filestore.go:927-950 | another footer of the same length is always reported: the metadata determine it bit for bit |
| `JournalTamper.HeaderDamageDetected` | durable/filestore/filestore.go:902-925 | a changed header, even one that announces another length, is reported or exhibits a collision of the header hash |
| `JournalTamper.NewestFrameDamageDetected` | durable/filestore/filestore.go:832-979 | recovery fails closed on damage to one part of the newest frame instead of rolling back to an older one |
| `Store.CommitKeepsGapFree` | durable/filestore/filestore.go:539-635 | after any commit an aggregate at revision r has exactly the events 1..r |
| `Store.EventsAreFresh` | durable/filestore/filestore.go:577-604 | the events of an admissible transaction are new, so the comparison with known events never refuses |
| `Store.CommitRevision` | durable/filestore/filestore.go:539-581 | an admissible transaction raises exactly the revisions of what it writes, each by one |
| `Store.RunKeepsSound` | durable/filestore/filestore.go:236-537 | every sequence of store operations keeps the log gap-free and every intent well formed |
| `Store.RunAdvances` | durable/filestore/filestore.go:236-537 | no operation sequence loses an event, a command, an intent or lowers a revision |
| `Store.CommitUnlessFresh` | durable/filestore/filestore.go:236-278 | a refused or replayed commit changes nothing |
| `Store.RecordedCommandReplays` | durable/filestore/filestore.go:236-278 | a recorded command changes state once and returns its first outcome for ever, or is refused under another identity |
| `Store.SettledIntentIsFinal` | durable/filestore/filestore.go:503-537 | a completed or dead intent is never leased or settled again |
| `Store.LeaseIsExclusive` | durable/filestore/filestore.go:354-425 | a lease fence still holds only while the intent was not touched since, and meanwhile nobody else may claim it |
| `Transactions.ApplyTransaction` | durable/filestore/filestore.go:539-635 | the staged checks accept exactly the admissible transactions and then install all of their records, events and intents |
| `Transactions.IndexExpected` | durable/filestore/filestore.go:539-556 | the index of expected revisions is exact, and is refused exactly on a repeated key |
| `Transactions.CheckMutations` | durable/filestore/filestore.go:557-581 | mutations are accepted exactly if they are distinct, well formed and each swaps the expected revision |
| `FileStore.SoundStatesAreValid` | durable/filestore/filestore.go:1249-1323 | recovery never rejects a state that the operations can reach |
| `FileStore.FirstCandidates` | durable/filestore/filestore.go:354-425 | the sorted prefix of the candidates is the first eligible intents by availability and identity |
| `FileStore.DurableStore.Open` | durable/filestore/filestore.go:117-220 | the opened object holds what recovery finds and its file is the repaired journal |
| `FileStore.DurableStore.Restart` | durable/filestore/filestore.go:117-220 | a dead or poisoned process loses at most the append in flight |
| `FileStore.DurableStore.Publish` | durable/filestore/filestore.go:687-820 | a state is published exactly if its frame was written; a failed write leaves the state and poisons, or leaves the file alone |
| `FileStore.DurableStore.Commit` | durable/filestore/filestore.go:236-278 | the object commits as the value model does; every error leaves the state, and every error but an input/output one leaves the file |
| `FileStore.DurableStore.EventsAfter` | durable/filestore/filestore.go:329-352 | the next events of an aggregate, consecutive and without a gap |
| `FileStore.DurableStore.ClaimIntents` | durable/filestore/filestore.go:354-425 | exactly the first eligible intents are leased |
| `FileStore.DurableStore.FoldIntent` | durable/filestore/filestore.go:427-537 | only the holder of the current lease settles an intent, and each error says why |
| `FileStore.DurableStore.RecordInbox` | durable/filestore/filestore.go:474-501 | a message is recorded once, and a repetition with another digest conflicts |
| `Durability.LivedIsARun` | durable/filestore/filestore.go:102-278 | whatever was interrupted, the reopened state is that of a run of the surviving operations |
| `Durability.AcknowledgedCommandSurvives` | durable/filestore/filestore.go:236-278 | an acknowledged command is neither lost nor applied again across any later operations and crashes |
| `Graph.TopologicalOrder` | kernel/workflow/compile.go:331-365 | succeeds exactly on acyclic graphs, with a permutation whose edges point forward and which is the lexicographically least such order |
| `Graph.StuckIsCyclic` | kernel/workflow/compile.go:331-365 | nodes that never become ready contain a cycle |
| `Graph.GreedyIsLeast` | kernel/workflow/compile.go:331-365 | placing the smallest ready node each time gives the least order |
| `Reachability.Reachable` | kernel/workflow/compile.go:382-397 | returns exactly the nodes with a path from a start that avoids the excluded node |
| `Reachability.Dominates` | kernel/workflow/compile.go:423-428 | holds exactly if every entry path to the target passes through the source |
| `Reachability.VisiblePredecessors` | kernel/workflow/compile.go:399-421 | exactly the data predecessors that dominate the node along control edges |
| `Reachability.ResultVisibleNodes` | kernel/workflow/compile.go:114-137 | exactly the nodes that lie on every entry path to every sink |
| `Workflow.BuildGraph` | kernel/workflow/compile.go:211-288 | edges are accepted exactly if distinct, between known nodes and with selectors only on success; graph and indexes hold exactly them |
| `Workflow.Compile` | kernel/workflow/compile.go:23-112 | succeeds exactly on definitions that are acyclic, reachable and refer only to visible nodes, with the plan they determine |
| `Routing.CurrentNodeDisposition` | controller/routing.go:24-51 | the join loop decides as the join over incoming edges of this execution does |
| `Routing.JoinMeaning` | controller/routing.go:24-73 | a node is ready exactly if every incoming edge has a recorded and matching source, and blocked only for an unrecorded one |
| `Routing.NeverBlocked` | controller/routing.go:24-51 | in a forward order the current node is never blocked |
| `Routing.ExecutionRecords` | controller/routing.go:106-142 | after any execution the outcomes are exactly the prefix of the order, outputs belong to successes, and skips are the nodes whose join failed |
| `Routing.RanIsClosed` | controller/routing.go:24-51 | the nodes that ran are closed under predecessors along whole paths |
| `Routing.ResultNodesRan` | kernel/workflow/compile.go:114-137 | once any sink ran, no node visible to the result was skipped |
| `Routing.CompiledPlanFits` | kernel/workflow/compile.go:23-112 | a compiled single-entrypoint definition meets the hypotheses of the execution results with its whole graph and order |
| `Routing.EntryPlanFits` | kernel/workflow/compile.go:23-112 | every entry order of a compiled definition meets them with the part of the graph that the entrypoint reaches |
| `Availability.ReferencedOutputsRecorded` | controller/routing.go:24-51 | a ready node finds the output of every producer that a success edge joins to it or to a node before it |
| `Availability.AvailableExactly` | controller/routing.go:24-73 | over all executions of the plan of any entrypoint that make a node ready, an output is always recorded exactly if the entrypoint reaches its producer and a success edge goes from there to the node or to a node with a path to it |
| `Availability.CompiledReferencesExactly` | kernel/workflow/compile.go:56-112 | the same of every compiled definition and each of its entrypoints |
| `Availability.ReadyNodesFindTheirReferences` | kernel/workflow/compile.go:56-80 | in a compiled definition whose data edges ask for success, as they do by default, an output that a ready node refers to is recorded exactly if the selected entrypoint reaches its producer |
| `Availability.SingleEntryFindsAll` | kernel/workflow/compile.go:56-80 | with one entrypoint a ready node finds all of its references recorded |
| `Availability.OtherEntrysOutputMissing` | controller/routing.go:34-37 | a compiled definition with two entrypoints, every edge of which asks for success, and an execution that makes a node ready without an output that it refers to |
| `Availability.UnguardedOutputMissing` | kernel/workflow/compile.go:399-421 | a compiled plan whose only data edge has the condition "always" reaches a ready node without its output |
| `Backoff.RetryDelay` | controller/routing.go:161-177 | the delay is min(initial * 2^(k-1), maximum) exactly for the attempts that may be retried, and nothing overflows 64 bits |
| `Backoff.DelaysGrow` | kernel/workflow/compile.go:290-307 | successive delays never shrink and stay within the policy |
| `Numbers.NormalizeRenders` | kernel/canonicaljson/canonical.go:344-403 | an accepted text is rendered as its decimal in lowest terms, within the size limit |
| `Numbers.SameSpellingIffSameValue` | kernel/canonicaljson/canonical.go:344-403 | two accepted texts get one spelling exactly if they denote the same rational |
| `Numbers.NormalizeIsFixed` | kernel/canonicaljson/canonical.go:344-403 | the spelling denotes what the text did and is left unchanged |
| `Decimals.TerminatingDecimal` | kernel/expression/evaluate.go:371-421 | succeeds exactly if the reduced denominator is 2^a * 5^b within the scale limit, which is when a decimal of that scale exists; the text is exact and canonical |
| `Decimals.DecimalFactors` | kernel/expression/evaluate.go:371-421 | a fraction with a decimal of some scale has only twos and fives in its denominator, at most that often |
| `Decimals.DecimalIsUnique` | kernel/expression/evaluate.go:371-421 | a fraction has one decimal in lowest terms |
| `JsonRoundTrip.StringReads` | kernel/canonicaljson/canonical.go:312-342 | a printed string body is read back as the string, whatever follows |
| `JsonRoundTrip.NumberReads` | kernel/canonicaljson/canonical.go:256-276 | a printed number is read back as its canonical text before any delimiter, although number texts are not prefix-free |
| `JsonRoundTrip.ValueReads` | kernel/canonicaljson/canonical.go:256-310 | canonical text is read back by the grammar of RFC 8259 as the canonical value |
| `JsonSurrogates.RejectUnpairedSurrogates` | kernel/canonicaljson/canonical.go:417-472 | the index loop accepts exactly the texts whose escapes are paired |
| `JsonSurrogates.ValuePaired` | kernel/canonicaljson/canonical.go:417-472 | on any text that a lenient reader accepts, the scan passes exactly if no character would be replaced |
| `CanonicalJson.AppendString` | kernel/canonicaljson/canonical.go:312-342 | appends exactly the escaped string |
| `CanonicalJson.AppendValue` | kernel/canonicaljson/canonical.go:256-310 | appends the canonical text, or fails exactly on an unprintable number or the size limit |
| `CanonicalJson.Canonicalize` | kernel/canonicaljson/canonical.go:206-219 | returns the canonical text of the document, or fails exactly when there is none |
| `CanonicalJson.SameTextIffSameValue` | kernel/canonicaljson/canonical.go:256-310 | canonical bytes determine the value: objects as maps, numbers by value |
| `CanonicalJson.CanonicalizeIsIdempotent` | kernel/canonicaljson/canonical.go:202-219 | canonicalising canonical text changes nothing |
| `CanonicalJson.AcceptedTextIsReadStrictly` | kernel/canonicaljson/canonical.go:58-85 | no accepted document is read with a character replaced |
| `CanonicalJson.SameBytesIffSameDocument` | kernel/canonicaljson/canonical.go:202-219 | two accepted documents get the same bytes exactly if they say the same value |
| `Schemas.ResolveValue` | kernel/expression/evaluate.go:199-223 | the cursor loop finds what following the path finds |
| `Schemas.LookupConforms` | sdk/go/contracts/schema.go:281-307 | a path that a schema resolves never crosses a scalar of a conforming value and finds a conforming one |
| `Assignability.SameTypeDescribesTheSame` | kernel/expression/check.go:439-473 | enum-free closed schemas that sameType accepts describe the same values |
| `Assignability.AssignableIsSound` | kernel/expression/check.go:475-538 | without a hole, every value of an assignable source is one of the target |
| `Assignability.AssignableExactly` | kernel/expression/check.go:475-538 | assignable is sound exactly if no open source lets an undeclared name through that the target types |
| `Assignability.OpenSourceIsNotSubsumed` | kernel/expression/check.go:516-530 | the smallest such hole |
| `Expressions.DecimalTextIsTerminating` | kernel/expression/evaluate.go:371-421 | the spelling used by the evaluator is the one terminatingDecimal computes |
| `Soundness.InferFits` | kernel/expression/check.go:379-425 | a literal conforms to its inferred type |
| `Soundness.OperationFits` | kernel/expression/evaluate.go:225-336 | an operation on conforming arguments fits its type, or fails for a permitted reason |
| `Subsumption.ListingIsExact` | sdk/go/contracts/schema.go:142-216 | the finite list computed for a schema with finitely many values holds exactly its values |
| `Subsumption.WithoutWitness` | sdk/go/contracts/schema.go:142-216 | where the two definitions do not decide for inclusion, a value of the one is exhibited that the other rejects |
| `Subsumption.WithinDecides` | sdk/go/contracts/schema.go:142-216 | of any two well-formed schemas, open and enumerated ones included, every value of one is a value of the other exactly if a condition on the definitions holds |
| `Soundness.DefiniteIsPresent` | kernel/expression/evaluate.go:112-127 | a reference along required properties, a literal other than null, an operation, or a coalesce with such an argument never yields null or nothing |
| `Soundness.CheckedExpressionFits` | kernel/expression/check.go:89-176 | in any validated environment the outcome of an accepted, guarded expression fits its inferred type |
| `Soundness.AcceptedExpressionsAreSound` | kernel/expression/check.go:50-81 | what CheckAssignable accepts evaluates, where it is guarded and its type lies within the target, to a value of the target or to a missing value, a missing secret, division by zero or a decimal out of reach; never to a failed type assertion |
| `SoundnessLimits.CoalesceFitsExactly` | kernel/expression/check.go:303-330 | in an environment without enumerations, a coalesce of arguments within its type fits that type on all conforming values exactly if some argument is definite or the type is null |
| `SoundnessLimits.UnguardedCoalesceIsUnsound` | kernel/expression/evaluate.go:112-127 | an accepted coalesce of optional references yields null at a boolean type, and a type assertion fails above it |
| `SoundnessLimits.ListFitsExactly` | kernel/expression/check.go:156-172 | the type of a list, that of its first element, describes all lists of such elements exactly if every element type lies within the first |
| `SoundnessLimits.SameTypeExactly` | kernel/expression/check.go:439-473 | without enumerations, an element type that sameType accepts lies within the first exactly if it is open only where the first is |
| `SoundnessLimits.ListForgetsOpenness` | kernel/expression/check.go:156-172 | an accepted list of two references whose value its own type rejects: the second element carries an undeclared property |
| `SoundnessLimits.ListForgetsEnumeration` | kernel/expression/check.go:156-172 | the same for an enumerated first element and a second one that is not enumerated |
| `SoundnessLimits.EnumerationsExactly` | sdk/go/contracts/schema.go:142-216 | of two enumerated well-formed schemas the values of the one are values of the other exactly if validation finds each enumerated value in the other enumeration |
| `SoundnessLimits.EnumerationsComparedByText` | kernel/expression/check.go:475-538 | an accepted assignment between two enumerations whose value the target rejects: canonical texts agree on a number inside a list, and validation compares the list as it is |
| `SoundnessLimits.ClosedEnvironmentsAreSound` | kernel/expression/check.go:50-81 | in environments without open objects and enumerations, soundness needs the coalesce guard only |
| `Protocol.ComposedAdmissible` | durable/filestore/filestore.go:539-635 | a composed command commits exactly if everything it writes was read up to date |
| `Protocol.ComposedLookup` | durable/filestore/filestore.go:605-635 | a fresh commit leaves what it wrote and nothing else changed |
| `Protocol.ReadIsCurrent` | durable/filestore/filestore.go:280-294 | a stale read whose revision is still current was not stale |
| `ActiveOwner.PlayKeepsGuarded` | controller/admission.go:250-347 | every interleaving of stale-reading controllers keeps owners, runs and receipts in agreement |
| `ActiveOwner.SingleActiveRun` | controller/admission.go:250-295 | each owner has at most one run that has not ended |
| `ActiveOwner.OwnerRecordIsTruthful` | controller/admission.go:225-248 | the owner record is active exactly while a run of it is open, names that run and generation, and has revision 2g-1 or 2g |
| `ActiveOwner.ActiveOwnerIsNotDisplaced` | controller/admission.go:250-295 | no new command displaces an active owner, whatever it read |
| `ActiveOwner.StartSucceedsExactly` | controller/controller.go:415-541 | a start that read the owner last succeeds exactly if its identities are new and the owner is free |
| `ActiveOwner.ReceiptIsPermanent` | controller/admission.go:175-209 | a receipt never changes and never goes away |
| `ActiveOwner.AcceptedStartIsAnswered` | controller/controller.go:404-411 | whatever happens after an owned start was accepted, its repetition is answered with the run it started, which exists under the same admission, and another request under the same command is an identity conflict |
| `Ingress.Invoke` | controller/controller.go:396-541 | against other controllers at every step: at most four attempts and at most one fresh commit; the answer is its outcome, the outcome on record for the command, or the failure of the last attempt with its reason in the final state; undisturbed, an unseen owned start is begun exactly if the owner is free and its identities are new |
| `Ingress.Attempt` | controller/controller.go:415-541 | one attempt settles with a fresh or recorded outcome or a final refusal, or was refused for a stale revision or another identity and may be repeated |
| `Ingress.ControllersInterfere` | controller/admission.go:250-347 | whatever controllers do in any interleaving is covered by the interference that the two results allow |
| `ExternalWait.DecodesExactly` | controller/external_waits.go:569-594 | a stored receipt is read back exactly if the accepted request did not succeed with an empty payload, which the encoding omits |
| `ExternalWait.PlayKeepsPaired` | controller/external_waits.go:119-445 | in every interleaving each consumption record matches the receipt of one accepted request, and each receipt stores such a request as its encoding leaves it |
| `ExternalWait.ResolvedOnce` | controller/external_waits.go:119-445 | an occurrence is resolved by at most one command, and a command resolves at most one occurrence |
| `ExternalWait.RepetitionReplaysExactly` | controller/external_waits.go:150-180 | after a command resolved an occurrence, whatever follows: its repetition is a replay, another request under it an identity conflict and any command on the occurrence is told that it is consumed, exactly if it did not succeed with an empty payload; if it did, all of them are told of corruption |
| `ExternalWait.NeverCorruptExactly` | controller/external_waits.go:516-651 | over a whole history some caller is told of corruption exactly if a success with an empty payload was accepted |
| `ExternalWait.EmptyPayloadIsCorrupt` | controller/external_waits.go:49-66 | the smallest history in which a repetition and a second command are told of corruption |
| `Invocation.ApplyKeeps` | kernel/execution/invocation.go:187-790 | every reducer keeps the invariant, raises the revision by one and freezes ended attempts |
| `Invocation.RunKeeps` | kernel/execution/invocation.go:822-906 | every ledger reachable from activation has its live attempts pointed at and no attempt time beyond its own |
| `Invocation.AtMostOneLive` | kernel/execution/invocation.go:822-906 | at most one attempt is live |
| `Invocation.EndedAttemptsAreFrozen` | kernel/execution/invocation.go:808-820 | an ended attempt never changes again |
| `Invocation.HeartbeatKeepsValid` | kernel/execution/invocation.go:425-456 | a heartbeat keeps the ledger valid although it skips the final check |
| `Invocation.ScheduleKeepsValid` | kernel/execution/invocation.go:651-682 | scheduling a compensation keeps the ledger valid although it skips the final check |
| `Invocation.RevisionFencesCommands` | kernel/execution/invocation.go:996-1034 | of two commands prepared at one revision at most one is applied |
| `Invocation.CancelSucceeds` | kernel/execution/invocation.go:579-649 | an open invocation can always be canceled |
| `Invocation.ResolveSucceeds` | kernel/execution/invocation.go:336-423 | the wait of a waiting invocation can always be resolved by a success |
| `Invocation.ClaimHolds` | kernel/execution/invocation.go:187-257 | the worker that has just claimed an invocation holds its lease |
| `Invocation.ReportSucceeds` | kernel/execution/invocation.go:259-334 | the holder of the lease can always report an end |
| `Effect.RunKeeps` | kernel/effect/effect.go:204-546 | the state of an effect is the fold of its current command's receipts, and every earlier command ended in a transient refusal |
| `Effect.LedgersHaveSixShapes` | kernel/effect/effect.go:755-880 | a valid receipt ledger is empty, A, R, A S, A F or A U |
| `Effect.StateTellsLedger` | kernel/effect/effect.go:267-332 | applying, applied, failed and uncertain each hold exactly for their ledgers |
| `Effect.SettledEffectsStay` | kernel/effect/effect.go:204-262 | an applied, uncertain, canceled or permanently failed effect is never begun again and keeps its receipts |
| `Effect.BeginFollowsTransientRefusal` | kernel/effect/effect.go:204-262 | a further mutation is begun only after a transient refusal of every earlier one |
| `Effect.ReconcileKeepsValid` | kernel/effect/effect.go:337-369 | requesting reconciliation keeps the record valid although it skips the final check |
| `Effect.CompensationKeepsPrimary` | kernel/effect/effect.go:371-546 | compensation never touches the primary evidence |
| `Effect.CancelSucceeds` | kernel/effect/effect.go:162-202 | a prepared effect can always be withdrawn |
| `RuntimeBinding.ReleaseNeedsAStoppedObservation` | kernel/runtime/runtime.go:334-364 | an owned binding is released only on a stopped observation under its current generation and token |
| `RuntimeBinding.SupersededFenceIsRefused` | kernel/runtime/validation.go:117-132 | a fence from before a takeover is refused by every later binding |
| `RuntimeBinding.TakeoverWaitsAndForgets` | kernel/runtime/runtime.go:232-282 | a takeover waits for the lease to run out and discards what was observed |
| `RuntimeBinding.HeartbeatKeepsValid` | kernel/runtime/runtime.go:206-230 | a heartbeat keeps a binding valid unchecked |
| `RuntimeBinding.TakeoverKeepsValid` | kernel/runtime/runtime.go:232-282 | a takeover keeps a binding valid unchecked |
| `RuntimeBinding.Provider.AcceptFence` | provider/processlocal/provider.go:252-268 | accepts exactly the admissible fences and raises the high-water mark |
| `RuntimeBinding.NoOlderGenerationIsAccepted` | provider/processlocal/provider.go:252-268 | after a generation was accepted no older one is, whatever is presented in between |
| `RuntimeBinding.CurrentFenceIsAccepted` | provider/processlocal/provider.go:252-268 | the fence of a later binding is accepted by a provider that has seen only earlier ones |
| `RunLifecycle.TransitionSucceedsExactly` | kernel/execution/run.go:91-166 | the final validation refuses nothing that the guards admit but a termination requested at another revision and ill-formed cleanup failures |
| `RunLifecycle.TerminationIsFrozen` | kernel/execution/run.go:236-250 | a stopping run can only end, one revision later, in the state its frozen intent asks for |
| `RunLifecycle.TerminalIsFinal` | kernel/execution/run.go:168-183 | a terminal run never changes |
| `RunSafety.ReportKeeps` | controller/drive.go:235-345 | success, wait, child call, retry and failure of the claimed node each keep the invariant and spend potential |
| `RunSafety.RetryKeeps` | controller/failure.go:79-153 | scheduling a retry keeps the invariant: one projection, matching the invocation, while the run waits |
| `RunSafety.AwaitKeeps` | controller/action_calls.go:125-174 | waiting for a child keeps the invariant and announces the join in the same commit |
| `RunSafety.ResolutionRecords` | controller/waits.go:19-220 | resolving a wait ends its invocation, records exactly its outcome and output, clears every projection, and lets the run go on unless a failure is unhandled |
| `RunSafety.CancelKeeps` | controller/termination.go:186-246 | cancellation during stopping keeps the invariant |
| `RunSafety.PlayKeeps` | controller/drive.go:17-233 | every reachable state of a run keeps routing, ledgers, projections, effects and intents in agreement |
| `RunResults.SnapshotAgrees` | controller/controller.go:568-890 | until a run begins to stop, reading its snapshot never fails: exact outcome prefix, exactly one projection while it waits and none otherwise, matching the invocation |
| `RunResults.ReadableExactly` | controller/controller.go:817-890 | a snapshot can be read exactly unless a child wait or a retry wait has lost its invocation |
| `RunResults.DriveFindsItsNode` | controller/drive.go:67-91 | the current node is not blocked or recorded, a skipped one was not started, and a started one is ready, running or due for a retry |
| `RunResults.TerminationIntentsExist` | controller/termination.go:324-394 | each identity a stopping run waits for exists, and each terminal effect has its terminal revision |
| `RunResults.TerminalIsAnnounced` | controller/effects.go:270-370 | the commit in which an effect becomes terminal is an observation and announces exactly the resolution of that revision, which is a new identity |
| `RunResults.CleanupIsNew` | kernel/execution/run.go:128-163 | a cleanup intent never collides in the store |
| `RunResults.ChildResolutionIsNew` | controller/action_calls.go:157-165 | a join intent never collides in the store |
| `RunResults.WaitResolutionIsNew` | controller/effects.go:664-684 | a resolution intent never collides in the store |
| `RunResults.DrainedStopIsReadableExactly` | controller/termination.go:219-235 | once every invocation is closed a stopping run can be read exactly if it did not stop in a child wait or a retry wait |
| `RunResults.TrappedForever` | controller/failure.go:293-412 | a run that begins to stop in a child wait or a retry wait stays stopping, whatever is done |
| `RunEnding.StopCanEndExactly` | controller/failure.go:293-412 | some actions bring a stopping run to its end exactly if it did not begin to stop in a child wait or a retry wait |
| `RunEnding.CanEndExactly` | controller/drive.go:17-233 | every run that keeps the invariant, in whatever state, can still come to an end exactly if it is not such a stopping run |
| `RunEnding.RunsCanEnd` | controller/drive.go:17-233 | the same of every run from its admission on, after any actions |
| `RunStale.LateKeepsExactly` | controller/drive.go:17-233 | an activation, claim, skip or expiry decided on an earlier read of the run keeps the invariant exactly if it does not claim the invocation of a projected retry wait |
| `RunStale.MixedKeepsExactly` | controller/drive.go:17-233 | commits decided on the state they change and commits decided on an earlier read of the run, in any order, keep the invariant throughout exactly as long as no such claim occurs |
| `RunStale.MixedAgrees` | controller/controller.go:568-890 | until a run begins to stop, its snapshot can be read after any such commits |
| `RunStale.StaleClaimIsHarmlessExactly` | controller/drive.go:150-175 | a claim decided on an earlier read of the run leaves a readable snapshot exactly if no retry wait was projected |
| `RunStale.LateEndsExactly` | controller/drive.go:17-233 | after a commit decided on an earlier read of the run, the run can still end, except after the claim of a projected retry wait; there it can exactly if the claimant read the snapshot that is there and its node is no child action or has an edge that handles its failure |
| `RunWitness.StaleClaimBreaksTheSnapshot` | controller/drive.go:150-175 | a reachable run whose snapshot such a claim makes unreadable |
| `RunWitness.StoppedRetryNeverEnds` | controller/termination.go:67-162 | a reachable run that can be asked to stop and then never ends |
| `RunProgress.RunIsBounded` | controller/drive.go:17-233 | in any interleaving the accepted commits that drive a run are bounded by its potential |
| `RunProgress.WholeRunIsBounded` | controller/drive.go:17-25 | a run of n nodes is driven by at most 402 n + 1 commits |
| `RunProgress.AttemptsAreBounded` | controller/drive.go:181-186 | no invocation records more execution attempts than its policy allows |
| `RunPotential.PotentialIsBounded` | kernel/workflow/compile.go:290-307 | the potential of a run is at most 402 n + 3, so the round limit is out of reach up to 248 nodes |
| `Controllers.Controller.Drive` | controller/drive.go:17-233 | the loop keeps the invariant, never reports an inconsistency, finds a snapshot unreadable only if the run is trapped, and exceeds its rounds only if the potential was as large |
| `Controllers.Controller.Finalize` | controller/failure.go:293-412 | finalizing a stopping run never meets an inconsistency and ends it exactly if its children, compensations, announced work and ownership are closed and it is not trapped; otherwise the run stays, and unless it is trapped every invocation is closed and no effect is left prepared |
| `Controllers.Controller.CancelOpen` | controller/termination.go:186-246 | if the snapshot can be read, every open invocation is closed, no cancellation is ever refused, and neither the run nor its child or retry wait changes |
| `Controllers.Controller.WithdrawPrepared` | controller/termination.go:248-285 | every prepared effect is withdrawn, no withdrawal is ever refused, and what the run waits for stays the same |
| `Controllers.Controller.Round` | controller/drive.go:24-231 | a round goes on only after a commit that spent potential, and otherwise says why it stopped |
| `Controllers.Controller.Conclusion` | controller/failure.go:427-536 | a run at its end succeeds, or begins to stop if its result cannot be resolved |

## Left out

- Revisions and counters are unbounded here; the engine uses unsigned 64-bit and 32-bit integers. Only retry delays model the width.
- SHA-256 and the decoding of stored states are parameters: a function, and a codec that reads back what it wrote and whose payloads are free of zero bytes.
- Files are byte sequences with an atomic rename: path walking, directory and lock authority, permissions and the plumbing of synchronisation errors are not modelled; a failed write is a fault that may have written any prefix.
- The edges of a compiled plan keep their authored order here; the engine sorts them, which no result depends on.
- Identifier and digest syntax, and the depth, node, input and string limits of the JSON decoder and of expressions, are left out; where a validation outcome matters it is a `wellFormed` field.
- Strings are sequences of Unicode scalar values, so size limits of canonical JSON count characters where the engine counts bytes.
- Schema defaults and time formats are left out; iteration over an object is given as a list of its fields in one order.
- Soundness.AcceptedExpressionsAreSound: asks for a guard at every coalesce and list and for a type within the target, because the counterexamples show it false without them; each condition is exact for its own construct, but an expression that violates one deep inside may still be sound.
- SoundnessLimits.CoalesceFitsExactly: is stated for environments without enumerations, because an enumerated object can make an optional property certain; the guard is sufficient there, and only without enumerations also necessary.
- Workflow.Compile: does not check schemas, fixed inputs and action mappings of nodes; bindings are known by the producers they name.
- Controllers.Controller.Drive: does not contain the recursion into child runs and, after a failure, into the same run, which the caller drives again; the end of a child is an action of the run loop, and whether the children of a stopping run have ended is an argument.
- Controllers.Controller.Finalize: takes the due compensation and the ownership closure as arguments, and treats a required intent that died like one that is still open.
- RunResults.SnapshotAgrees: takes each commit to be decided on the state it changes; RunStale.MixedAgrees states the same with commits decided on an earlier read of the run.
- RunStale.LateEndsExactly: takes the late commit to be the last one decided on an earlier read; from then on every controller reads the run as it is, and only the claimant still acts on what it read.
- That a run ends, and not only can end, depends on schedules, providers and child runs, and is not part of this model.
- RunSafety.PlayKeeps: covers commits decided on the state they change, and RunStale.MixedKeepsExactly the others; it covers one run: its children and its owner record are arguments here, and the owner record is the subject of the admission model.
- The order in which effects are compensated, ownership closure proofs and the ownership graph are parameters of the final commits.
- Reserved ingress policies, action catalog, node registry and descriptors, capability grants, planners, credential brokers and provider adapters are not part of this model: they answer as arguments, or only validate and wire.
- Process start and stop, signals and log files of the process provider are not modelled, only its fences.
- Ingress.Invoke: begins where the request is validated and its identities are derived; what admission reads of the action catalog is in the request.
- Coordinator batching is left out: it calls the operations modelled here in some order.
