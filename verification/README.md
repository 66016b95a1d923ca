# Governance engines: model and proofs

This project models two governance engines, the encoding and the hash they rest on, and four smaller kernels, and
proves what they promise. Check it with `dafny verify dfyconfig.toml`.

## What is modelled

**Canonical encoding** (`Text.dfy`, `CanonicalJson.dfy`, `CanonicalJsonTheorems.dfy`, `SortedKeys.dfy`,
`JsonNesting.dfy`, `DefinitionHash.dfy`). JSON values with keys in insertion order, the printers that sort keys, and a
parser that undoes them. Strings follow section 7 of RFC 8259, in UTF-16 units. The main results: canonical texts are
equal exactly for values that are equal up to key order, and list keys by their units; the second encoder agrees exactly
on values without a key `__proto__`; and no printed object ends, after a colon, in a printed value.

**Durable governance runtime** (`Receipts.dfy`, `GovernanceRuntime.dfy`, `ReceiptTheorems.dfy`, `JournalTheorems.dfy`,
`ReceiptContents.dfy`, `TamperedLines.dfy`). A class over two append-only files, with its loading, persisting and
verifying methods. Each append happens whole or throws, and a process may die after any append. Proved: every run keeps
files verified and memory equal to what a restart would load, crashes are invisible, each receipt links to the last one of
the same party, and an injective hash makes tampering evident, also on lines whose fields hold values of any type or none.

**Governed pipeline** (`Enforcement.dfy`, `GovernedExecution.dfy`, `GovernedTheorems.dfy`, `IdempotencyTheorems.dfy`,
`AdmissionTheorems.dfy`, `ReplayLimits.dfy`). Admission, replay gates, adapter call and receipt of one call; runs are
sequences of calls that do not overlap, with failures, crashes and restarts between and inside them. Proved: exactly which
calls invoke their adapter, what each call reports and records, at most one success per blocked input, one input per
idempotency key, exactly when these hold, and a registry and calls for each way in which they fail.

**Capability compiler and loader** (`CapabilityFiles.dfy`, `Worksheets.dfy`, `WorksheetTheorems.dfy`). Validation of
worksheets, the files written from them, and their parsing, for files in any key order and for the files as printed.

**Constitutional membrane** (`MembraneRules.dfy`, `Membrane.dfy`, `MembraneTheorems.dfy`,
`MembraneRegistrations.dfy`, `MembraneVerdicts.dfy`, `MembraneFrames.dfy`, `MembraneProxy.dfy`). The checks on each frame
as functions; a transition system with one step per frame, locked section, receipt, entry into Gold and return from it of
any number of connections, hosts that register and invalidate at any time, and handlers that may end by an exception at
any point; the proxy and the receipt chain as classes whose methods are proved to be those steps. The theorems are about
every interleaving, or about any one frame.

**SHA-256** (`Sha256Standard.dfy`, `Sha256.dfy`). FIPS 180-4 on integers below 2^32, and the array-and-loop
implementation with JavaScript's mixed signed and unsigned operations. `Plus` demands that every sum is exactly
representable in a double.

**Proxy client** (`ClientQueue.dfy`, `ClientTheorems.dfy`, `ClientSessions.dfy`, `ClientVerdicts.dfy`). Framing, the
pending queue, the session promise, the operation chain and poisoning, as a class and as a transition system of event-loop
turns.

**Sigil kernel** (`ZakManifest.dfy`, `ZakRunner.dfy`, `ZakTuner.dfy`, `ZakVerdicts.dfy`). The fold of sigils into a manifest, JSON repair and
the word limit, and bounded tuning of a sigil body.

## What is assumed

- A digest function is a parameter; where a theorem needs it to be injective, it says so (`Injective`, `HashIsInjective`).
- Receipt ids of the membrane are injective in parent and core, and the starting head is not an id, where
  `IdsAreInjective` is required.
- Tokens are never drawn twice. Files are appended line by line, each line whole or not at all.
- JSON Schema, SemVer, the coercion of output schemas, constitution resolution, the search of the adversarial mode and Python's printing and comparing of
  values are parameters; `Reliable` and `ComparesExactly` state what is assumed of them.
- Arithmetic of manifests, word limits and tuning is exact.

## Where the code does less than it may seem to

- Replay protection depends on the policy key `capability@version`: the text before its first colon must hold an at-sign
  that is not its first character. Otherwise no ledger entry is written, and the same call succeeds again
  (`RepeatSucceedsIffNotBlockable`, and `ColonIdSucceedsTwice` for the id `a:b`). Every compiled capability meets the
  condition (`AcceptedIsProtected`).
- Idempotency binding needs, besides, a policy key without a colon (`KeyReuseIsRefusedIff`, `ColonIdTakesTwoPayments`).
- Replay keys do not see a key `__proto__` at any level of the input: the sorted copy is filled by assignments, and this
  one sets the prototype of the copy. Inputs that differ only there count as one: a `blocked` capability refuses the
  second (`RefusedIffOnRecord`), and a keyed one lets it through (`ProtoKeyTakesTwoPayments`). Inputs without such a key
  are told apart exactly (`ReplayKeyIsExact`).
- The printed `definition.json` loses keys `__proto__` of the input schema in the same way, while its hash is taken with
  them, so such a file would not load (`SortedFilesRoundTrip`). Normalisation takes these keys away before validation,
  so no compiled worksheet has them (`CompiledWorksheetsLoad`).
- Ids are joined by bars into chain keys without escaping, so ids that hold bars can put callers with different sessions and
  subjects on one chain (`BarsJoinChains`); without bars chains are kept apart exactly (`ChainKeyIsExact`).
- A call that reported `receipt_persistence` because its anchor was lost still blocks its input (`NoSecondRun`).
- The padded length is computed with 32-bit shifts, so messages of 2^31 - 72 bytes and more are not hashed
  (`PaddedLengthIsExact`).
- A poisoned client may still come to wait for a registration, if it was poisoned while connecting
  (`NothingPendingIffNotConnecting`, `PoisonWhileConnecting`).
- One word limit that is no number lifts the limits of all sigils (`OneBadLimitLiftsAll`), and a limit of zero limits
  nothing (`LimitsHoldIff`, `LimitHoldsIffPositive`).
- Ticket expiry is stored by the membrane but never looked at, so nothing is claimed about it.

## Model

| member | source | states |
|---|---|---|
| `CanonicalJsonTheorems.StringRoundTrip` | capability-registry/src/canonical-json.ts:3-6 | A quoted string, with all escapes and surrogate pairs, is read back by the string parser, whatever follows it |
| `CanonicalJsonTheorems.ParseUndoesStringify` | capability-registry/src/enforcement.ts:57-63 | Parsing the printed text of any JSON value gives the value, keys in printed order |
| `CanonicalJsonTheorems.StableIsStringifyOfOrdered` | capability-registry/src/canonical-json.ts:3-14 | The canonical text is the text JSON.stringify gives of the value with the keys of every object in order |
| `Texts.LessIff` | capability-registry/src/canonical-json.ts:11 | Keys are ordered by UTF-16 units: at the first difference the one that has ended or has the smaller unit comes first |
| `CanonicalJsonTheorems.CanonicalTextAscends` | capability-registry/src/canonical-json.ts:10-13 | The canonical text is the printed text of an equal value in which the keys of every object ascend in that order |
| `CanonicalJsonTheorems.EscapesAreThose` | capability-registry/src/canonical-json.ts:5 | In strings a quotation mark, a backslash and five control characters are escaped by a letter, other control characters and lone surrogates by four hexadecimal digits, and everything else stands for itself |
| `CanonicalJsonTheorems.CanonicalTextIsExact` | capability-registry/src/canonical-json.ts:3-14 | Two values of any depth have the same canonical text if and only if they are equal up to key order at every level |
| `CanonicalJsonTheorems.CanonicalTextParsesBack` | capability-registry/src/canonical-json.ts:3-14 | The canonical text parses to a value equal to the original up to key order |
| `SortedKeys.SortIsOrderOfStripped` | capability-registry/src/enforcement.ts:46-55 | Sorting by assignments to fresh objects gives what is left of the value without keys __proto__, with its keys in order |
| `SortedKeys.SameSortsAlike` | capability-registry/src/enforcement.ts:46-55 | Values equal up to key order become identical when their keys are sorted |
| `SortedKeys.SortedAlikeIffSame` | capability-registry/src/enforcement.ts:46-55 | Two values sort alike if and only if what is left of them without keys __proto__ is equal up to key order |
| `SortedKeys.StrippingLosesIff` | capability-registry/src/enforcement.ts:50-53 | A value equals what is left of it if and only if no object in it has a key __proto__ |
| `SortedKeys.EncodersAgreeIff` | capability-registry/src/enforcement.ts:46-63 | The two canonical encoders, sort-while-printing and print-after-sorting, print the same text if and only if no object in the value has a key __proto__ |
| `JsonNesting.StringifyIsBalanced` | capability-registry/src/enforcement.ts:57-63 | A printed value closes every string and bracket it opens, and no others |
| `JsonNesting.NoPrintedEnding` | capability-registry/src/enforcement.ts:57-67 | A printed object does not end, after a colon, with a printed value |
| `Texts.SortTextsAgree` | capability-registry/src/definition-hash.ts:50-52 | Two lists of texts sort to the same list if and only if they are equal as multisets |
| `DefinitionHash.DefinitionIdentity` | capability-registry/src/definition-hash.ts:33-57 | Two definitions have the same hash preimage if and only if all identity fields agree, schemas up to key order, tags as multisets, no tags as empty tags |
| `ReceiptContents.DefinitionRecordSays` | capability-registry/src/definition-hash.ts:33-57 | The record whose text is hashed holds version 1, id, version, adapter and schema of the definition, its description if there is one, and its tags in order if there are any |
| `ReceiptHashTheorems.ReceiptHashIsExact` | capability-registry/src/governance-runtime.ts:172-192 | With an injective digest two receipts have the same hash if and only if all seventeen hashed fields agree, authority and errors up to key order |
| `ReceiptHashTheorems.AnchorHashIsExact` | capability-registry/src/governance-runtime.ts:194-201 | With an injective digest two anchors have the same hash if and only if they are equal |
| `ReceiptContents.HashedRecordSays` | capability-registry/src/governance-runtime.ts:172-192 | The hashed record of a receipt holds each of its seventeen fields under its own key, with null for what is absent |
| `ReceiptContents.HashedAnchorSays` | capability-registry/src/governance-runtime.ts:194-201 | The hashed record of an anchor holds its four fields under their own keys |
| `ReceiptContents.ChainKeyIsExact` | capability-registry/src/governance-runtime.ts:162-170 | Where no id has a bar, two calls share a chain if and only if environment, runtime, session, subject and authority context agree, an absent id being read as a dash |
| `ReceiptContents.BarsJoinChains` | capability-registry/src/governance-runtime.ts:162-170 | The condition is needed: with bars in ids, two callers with different sessions and subjects share a chain |
| `ReceiptContents.ReceiptSays` | capability-registry/src/governance-runtime.ts:318-347 | A persisted receipt holds, field by field, what the draft says, with the clock where no time is given; empty errors and keys count as absent, and its hash is that of its fields |
| `ReceiptContents.PersistTells` | capability-registry/src/governance-runtime.ts:348-361 | A call adds its receipt unless that append fails, and its anchor unless either fails, and memory follows the files |
| `ReceiptContents.LinkIsToSameParty` | capability-registry/src/governance-runtime.ts:320-336 | A persisted receipt links to the last earlier receipt of the same environment, runtime, session, subject and authority context, and to none if there is none |
| `ReceiptContents.RunsWrite` | capability-registry/src/governance-runtime.ts:318-363 | Over every run from empty files each receipt carries the chain key of the party it names |
| `ReceiptContents.AnchorSays` | capability-registry/src/governance-runtime.ts:511-523 | An anchor holds chain key, hash and time of its receipt and the hash of the anchor before |
| `ReceiptContents.EntrySays` | capability-registry/src/governance-runtime.ts:140-156 | A ledger entry holds replay key, time, hash and idempotency key of a successful receipt, and the capability, version and input text its replay key starts with |
| `Receipts.ProjectionsAppend` | capability-registry/src/governance-runtime.ts:349-360 | One more receipt moves the chain heads and both indexes by exactly one update |
| `GovernanceRuntime.Disk.AppendReceipt` | capability-registry/src/governance-runtime.ts:348 | An append adds one whole line or throws and adds none |
| `GovernanceRuntime.Disk.AppendAnchor` | capability-registry/src/governance-runtime.ts:521 | The same for the anchor file |
| `GovernanceRuntime.FileGovernanceRuntime.constructor` | capability-registry/src/governance-runtime.ts:216-225 | A process started on files holds exactly what the files determine |
| `GovernanceRuntime.FileGovernanceRuntime.LoadState` | capability-registry/src/governance-runtime.ts:491-509 | Receipts, anchors, heads and both indexes are the folds over the journal |
| `GovernanceRuntime.FileGovernanceRuntime.UpdateProjections` | capability-registry/src/governance-runtime.ts:350-360 | Chain head, replay ledger and idempotency index are updated for one receipt |
| `GovernanceRuntime.FileGovernanceRuntime.PersistReceipt` | capability-registry/src/governance-runtime.ts:318-363 | Files and memory after a call are those of the persisting step, also when the first or the second append throws; what the step writes is told by ReceiptSays and LinkIsToSameParty |
| `GovernanceRuntime.FileGovernanceRuntime.PersistAnchor` | capability-registry/src/governance-runtime.ts:511-523 | The next anchor links to the last one and names the receipt |
| `GovernanceRuntime.FileGovernanceRuntime.HasBlockedReplay` | capability-registry/src/governance-runtime.ts:298-300 | True if and only if some receipt in the file makes a ledger entry for the replay key |
| `GovernanceRuntime.FileGovernanceRuntime.LookupIdempotencyKey` | capability-registry/src/governance-runtime.ts:302-306 | The replay key of the last receipt in the file that was filed under the index key, and none if there is no such receipt |
| `GovernanceRuntime.FileGovernanceRuntime.GroupByChain` | capability-registry/src/governance-runtime.ts:366-371 | Receipts are grouped by chain key, each group the chain of its key in journal order, each key once |
| `GovernanceRuntime.FileGovernanceRuntime.CheckChain` | capability-registry/src/governance-runtime.ts:376-411 | No error is found if and only if every link and every hash of the chain is right |
| `GovernanceRuntime.FileGovernanceRuntime.VerifyReceiptChain` | capability-registry/src/governance-runtime.ts:365-419 | The verifier accepts if and only if every chain verifies; it checks every receipt once and counts the chains |
| `GovernanceRuntime.FileGovernanceRuntime.VerifyReceiptAnchors` | capability-registry/src/governance-runtime.ts:421-446 | The verifier accepts if and only if every anchor names a receipt, links to its predecessor and has the right hash |
| `GovernanceRuntime.FileGovernanceRuntime.VerifyReplayLedgerConsistency` | capability-registry/src/governance-runtime.ts:448-479 | The verifier accepts if and only if both indexes agree with those recomputed from the receipts |
| `GovernanceRuntime.FileGovernanceRuntime.CountMismatches` | capability-registry/src/governance-runtime.ts:464-477 | The number of mismatches is zero if and only if the held entries agree with the recomputed ones |
| `GovernanceRuntime.FileGovernanceRuntime.AssertStartupInvariants` | capability-registry/src/governance-runtime.ts:231-296 | Startup is refused unless the store is there and all three verifiers accept |
| `GovernanceRuntime.ChainsCoverReceipts` | capability-registry/src/governance-runtime.ts:374-418 | The chains of all keys together hold every receipt exactly once |
| `JournalRuns.HeadsAreLast` | capability-registry/src/governance-runtime.ts:321-350 | Each chain head is the hash of the last receipt of its chain, and no other key has a head |
| `Receipts.LastBlockedWriter` | capability-registry/src/governance-runtime.ts:351-353 | The replay ledger holds for each key the entry of the last receipt that writes it |
| `Receipts.LastIndexWriter` | capability-registry/src/governance-runtime.ts:354-359 | So does the idempotency index |
| `JournalRuns.StepKeepsCoherence` | capability-registry/src/governance-runtime.ts:318-363 | After a call, whatever append failed, memory is what a restart would load |
| `JournalRuns.StepKeepsVerified` | capability-registry/src/governance-runtime.ts:318-363 | After a call the files still pass all verifiers |
| `JournalRuns.EveryRunIsVerified` | capability-registry/src/governance-runtime.ts:318-523 | Over any run of calls, failures, crashes and restarts the files verify and memory mirrors them |
| `JournalRuns.CrashesAreInvisible` | capability-registry/src/governance-runtime.ts:343-363 | Wherever a process dies and is restarted, between the two appends too, files and memory are those of a process that never stopped |
| `JournalRuns.EmptyIsVerified` | capability-registry/src/governance-runtime.ts:481-489 | Empty files verify, so runs may start from nothing |
| `TamperEvidence.HashCommitsToHistory` | capability-registry/src/governance-runtime.ts:365-419 | In verified chains an equal hash means an equal position and equal fields at it and at every earlier position |
| `TamperEvidence.TamperIsEvident` | capability-registry/src/governance-runtime.ts:365-419 | Two verified journals that agree on the last hash of every chain agree on every chain |
| `TamperEvidence.AnchorCommitsToHistory` | capability-registry/src/governance-runtime.ts:421-446 | An anchor hash determines its position and all anchors up to it |
| `TamperEvidence.LastAnchorCommits` | capability-registry/src/governance-runtime.ts:421-446 | The last anchor hash determines all anchors and the chain of every anchored receipt up to it |
| `TamperedLines.RecordTextIsExact` | capability-registry/src/canonical-json.ts:3-14 | Records with the same keys, whose fields may hold anything or be undefined, have the same text if and only if their fields agree up to key order |
| `TamperedLines.LineHashIsExact` | capability-registry/src/governance-runtime.ts:172-192 | With an injective digest two lines, whatever they hold, have the same hash if and only if their hashed fields agree |
| `TamperedLines.LineCommitsToHistory` | capability-registry/src/governance-runtime.ts:375-411 | In verified chains of lines that may hold anything an equal hash means an equal position and equal hashed fields at it and at every earlier position |
| `TamperedLines.TamperedLinesAreEvident` | capability-registry/src/governance-runtime.ts:365-419 | Two files of lines that may hold anything, both verified, with the same last hash under every chain key, agree under every chain key |
| `TamperedLines.LastAnchorLineDecides` | capability-registry/src/governance-runtime.ts:421-446 | The last hash of a verified anchor file, whatever its lines hold, determines all hashed fields of all anchors |
| `TamperedLines.WrittenLineHash` | capability-registry/src/governance-runtime.ts:380-402 | On a line as the runtime writes it this hash is the hash of the receipt |
| `GovernedExecution.AssertReplayAllowed` | capability-registry/src/enforcement.ts:163-216 | The replay gate asks the two lookups, and its answer is that of the decision on what the process remembers |
| `GovernedExecution.PrepareExecutionRequest` | capability-registry/src/bridge.ts:49-142 | The checks in their order, with the gate last, give the decision that PreparedIff and StagesOf describe |
| `GovernedExecution.PersistReceiptSafe` | capability-registry/src/governed-execution.ts:217-238 | The persisting step; no receipt is returned when an append throws |
| `GovernedExecution.ExecuteGovernedCapability` | capability-registry/src/governed-execution.ts:68-215 | State and outcome of one call are those of the decision on what the process remembers, followed by one persisting step; InvokedIff, OutcomeTells and CallTells describe both |
| `AdmissionTheorems.SufficesIff` | capability-registry/src/enforcement.ts:31-43 | Ten pairs of level and requirement are allowed, listed one by one: the rank of the level is at or above that of the requirement exactly for them |
| `AdmissionTheorems.AdmittedIff` | capability-registry/src/enforcement.ts:236-256 | Admission has no objection if and only if the class policy has none, level, source, time and context id are well-formed, and the level meets the requirement |
| `AdmissionTheorems.ClassPolicyIff` | capability-registry/src/capability-meta.ts:55-113 | The default class policy has no objection if and only if the output schema has a type and the fields of the class, and no others, are there |
| `AdmissionTheorems.ResolvedAuthoritySays` | capability-registry/src/enforcement.ts:121-149 | Level and source are those of the host, the time that of the clock, and each id the trimmed one of the draft, or else that of the host |
| `AdmissionTheorems.CoreIsUnique` | capability-registry/src/enforcement.ts:127-139 | A text has only one such trimmed form |
| `AdmissionTheorems.IdempotencyKeyIs` | capability-registry/src/enforcement.ts:151-157 | The idempotency key is the trimmed text of the input field of that name, if it is a text that is not blank |
| `AdmissionTheorems.GateIff` | capability-registry/src/enforcement.ts:163-216 | The replay gate is open if and only if: for blocked capabilities of class B no run is on the ledger and a required key is given; for same-key ones the mode is keyed, a key is given and the last entry under it has this replay key; and for all others always |
| `AdmissionTheorems.ResolveIff` | capability-registry/src/registry.ts:56-64 | A request resolves to the definition of the version asked for, or of the latest version if none is |
| `AdmissionTheorems.PreparedIff` | capability-registry/src/bridge.ts:49-142 | A call is prepared if and only if it resolves, its input is valid, it has metadata, the class policy is silent, the level is known and suffices, and the gate is open; version and definition hash are then those of the definition |
| `AdmissionTheorems.StagesOf` | capability-registry/src/bridge.ts:49-142 | A refusal names the stage of the first check that fails |
| `AdmissionTheorems.InvokedIff` | capability-registry/src/governed-execution.ts:68-133 | The adapter is invoked if and only if the store is there and verifies, and the call is prepared in that sense |
| `AdmissionTheorems.InsufficientIsRefused` | capability-registry/src/enforcement.ts:249-255 | A level below the requirement never reaches the adapter; the call fails at stage admission |
| `AdmissionTheorems.OutcomeTells` | capability-registry/src/governed-execution.ts:68-215 | A call fails at the first check that fails, with the validators' errors, and otherwise returns the adapter's output, unless an append fails |
| `AdmissionTheorems.CallTells` | capability-registry/src/governed-execution.ts:80-215 | Each call appends one receipt that tells it: id, version, definition hash once the adapter ran, authority, class letter, stage, success, validation, errors and keys; the outcome returns this receipt |
| `GovernedRuns.ReplayKeyIsExact` | capability-registry/src/enforcement.ts:46-67 | Two inputs of one capability have the same replay key if and only if they are equal up to key order once keys __proto__ are left out; without such keys, if and only if they are equal up to key order |
| `GovernedRuns.ProtoKeyIsNotSeen` | capability-registry/src/enforcement.ts:50-53 | The guard is tight: an input shares its replay key with what is left of it, which is another input if and only if it has a key __proto__ |
| `GovernedRuns.RunEntry` | capability-registry/src/governance-runtime.ts:140-156 | A successful run gets a ledger entry if and only if the policy key before its first colon has an at-sign that is not its first character; the split recovers capability and version |
| `GovernedRuns.NamedCapabilitiesAreBlockable` | capability-registry/src/governance-runtime.ts:144-146 | Every capability id that is not empty and has no colon meets that condition |
| `GovernedRuns.RunsStayGood` | capability-registry/src/governed-execution.ts:68-215 | Over every run of governed calls, crashes and restarts memory mirrors verified files |
| `GovernedRuns.ReceiptsGrow` | capability-registry/src/governance-runtime.ts:348 | Receipts are only ever added at the end |
| `GovernedRuns.StartupNeverFails` | capability-registry/src/governed-execution.ts:73 | With its store available a call never fails on its own startup checks |
| `GovernedRuns.SuccessMeansRecorded` | capability-registry/src/governed-execution.ts:184-215 | Success is reported if and only if the run passed every check and both appends worked; a lost anchor reports receipt_persistence |
| `GovernedRuns.RecordedRun` | capability-registry/src/governed-execution.ts:178-195 | What a recorded run of a replay-tracking capability leaves in the journal |
| `GovernedRuns.OtherReceipts` | capability-registry/src/governed-execution.ts:81-176 | Every other receipt records no success and writes no index |
| `GovernedRuns.RefusedIffOnRecord` | capability-registry/src/enforcement.ts:163-216 | A blocked capability is refused if and only if a run on the input is on record, or a required key is missing; a run on another input counts if and only if the two are equal up to keys __proto__ and key order |
| `GovernedRuns.NoSecondRun` | capability-registry/src/enforcement.ts:163-216 | Once a run is on record, also one that reported receipt_persistence or died, no later call with an equal input even invokes the adapter |
| `GovernedRuns.AtMostOneSuccess` | capability-registry/src/governed-execution.ts:80-204 | A blocked capability reports success at most once per capability, version and input up to key order |
| `GovernedRuns.RepeatSucceedsIffNotBlockable` | capability-registry/src/governance-runtime.ts:144-146 | The condition is exact: right after a success the same call succeeds again if and only if the policy key is not blockable |
| `IdempotencyRuns.OwnerOfReplayKey` | capability-registry/src/enforcement.ts:65-67 | A replay key of a colon-free policy key belongs to no other policy key, not even to one that extends it by a colon |
| `IdempotencyRuns.SlotOfEntry` | capability-registry/src/governance-runtime.ts:158-160 | The index slot of an entry is the policy key before the first colon with the key appended |
| `IdempotencyRuns.StepKeepsBound` | capability-registry/src/enforcement.ts:181-208 | A governed call keeps all runs under one key on one replay key, and the index slot on it |
| `IdempotencyRuns.OneKeyOneInput` | capability-registry/src/enforcement.ts:181-208 | Over any run, all recorded runs of a keyed capability under one trimmed key have the same input up to key order; where inputs have keys __proto__, the same rest |
| `IdempotencyRuns.KeyReuseIsRefusedIff` | capability-registry/src/enforcement.ts:188-207 | After a first success the same key is refused if and only if the policy key is bindable and the inputs differ in more than keys __proto__; without such keys another input is refused if and only if the policy key is bindable |
| `IdempotencyRuns.NothingIsBound` | capability-registry/src/enforcement.ts:181-208 | The theorem applies from empty files |
| `ReplayLimits.ColonIdIsNotBlockable` | capability-registry/src/governance-runtime.ts:144-146 | The policy key of the id a:b at version 1.0.0 is not blockable |
| `ReplayLimits.ColonIdSucceedsTwice` | capability-registry/src/enforcement.ts:210-215 | A blocked capability with that id succeeds twice on one input, on a given registry, from empty files |
| `ReplayLimits.ColonIdTakesTwoPayments` | capability-registry/src/enforcement.ts:188-207 | A keyed capability with the id a@b:c takes two different payments under one idempotency key |
| `ReplayLimits.ProtoKeyTakesTwoPayments` | capability-registry/src/enforcement.ts:46-55 | The bindable capability cap takes two payments under one idempotency key when their amounts are under a key __proto__ |
| `ReplayLimits.CallSucceeds` | capability-registry/src/governed-execution.ts:68-215 | On that registry every call that the replay gate lets through succeeds |
| `CapabilityFiles.DefinitionRoundTrip` | capability-registry/src/load-capabilities-from-disk.ts:23-62 | Whatever the key order of definition.json, the loader reads back the written definition and computes the hash the compiler wrote |
| `CapabilityFiles.MetaRoundTrip` | capability-registry/src/capability-meta.ts:124-189 | Whatever the key order of meta.json, the loader accepts it with the same class, authority and class-specific fields and no policy violation |
| `CapabilityFiles.SortedFilesRoundTrip` | capability-compiler/src/pretty-json.ts:3-20 | The files with sorted keys load, with the written definition hash if and only if the input schema has no key __proto__, and an equal output schema if and only if that has none |
| `CapabilityFiles.SortingTwiceIsOnce` | capability-compiler/src/meta.ts:24 | The meta record, sorted when built and again when printed, is the record sorted once |
| `CapabilityFiles.FieldsAgree` | capability-compiler/src/pretty-json.ts:7-20 | Reordered records have the same keys with equal values |
| `Worksheets.AcceptedIsValidated` | capability-compiler/src/validate.ts:56-264 | Every accepted worksheet has what writer and loader rely on |
| `WorksheetTheorems.AcceptedIff` | capability-compiler/src/validate.ts:56-264 | A worksheet is accepted if and only if its keys are known, id, version, adapter, authority, schemas and tags are well-formed, the fields of its class and of no other are there, and its golden case fits |
| `WorksheetTheorems.FieldsAIff` | capability-compiler/src/validate.ts:56-264 | Class A has no field of class B or C |
| `WorksheetTheorems.FieldsBIff` | capability-compiler/src/validate.ts:56-264 | Class B has a tier, an idempotency and a replay behavior, each one of its words, and no field of class C |
| `WorksheetTheorems.FieldsCIff` | capability-compiler/src/validate.ts:56-264 | Class C has a way to wait, a job id that is not blank and a truth value, and no field of class B |
| `WorksheetTheorems.WorksheetTells` | capability-compiler/src/validate.ts:226-264 | Each part of the validated worksheet is that of its field; description and tags are trimmed, tags sorted and without repetitions |
| `WorksheetTheorems.DefinitionIsRead` | capability-registry/src/load-capabilities-from-disk.ts:23-62 | definition.json loads as a definition if and only if its fields say so |
| `WorksheetTheorems.MetaIsRead` | capability-registry/src/capability-meta.ts:124-189 | meta.json loads as a meta if and only if its fields say so and the class policy has no objection |
| `WorksheetTheorems.MetaFileSays` | capability-compiler/src/meta.ts:5-25 | meta.json holds the versions, class letter, authority word and output schema under their keys |
| `Worksheets.AcceptedWorksheetsLoad` | capability-compiler/src/compile-def.ts:5-19 | Every accepted worksheet is written and read back with the same definition hash and a meta of the same content |
| `Worksheets.CompiledWorksheetsLoad` | capability-compiler/src/emit.ts:35-62 | From the parsed YAML tree on: the files printed for an accepted worksheet load with the written hash, the same meta and an equal output schema |
| `Worksheets.NormalizedIsFine` | capability-compiler/src/normalize.ts:39-52 | A normalised worksheet tree has no key twice and no key __proto__ |
| `Worksheets.AcceptedIsProtected` | capability-compiler/src/validate.ts:7 | For every capability compiled from an accepted worksheet the conditions of replay protection and of key binding hold, under the meta that is loaded for it |
| `Worksheets.CleanTags` | capability-compiler/src/validate.ts:230-236 | The tags are exactly what trimming leaves of the given ones, not empty and without repetitions |
| `MembraneRules.LoadSnapshot` | engine/capability_snapshot.py:72-138 | A snapshot loads if and only if all entries and pins are well-formed; the pairs are exactly the trimmed entries, the last pin of a pair counts |
| `MembraneRules.LoadPins` | engine/capability_snapshot.py:111-133 | Pins load if and only if each is well-formed, later ones replacing earlier ones |
| `MembraneFrames.LastPinCounts` | engine/capability_snapshot.py:111-133 | The pin that counts for a pair is the last one given for it |
| `MembraneRuns.LoadedPairsAreTrimmed` | engine/capability_snapshot.py:95-110 | The pairs of a loaded snapshot are trimmed |
| `MembraneRuns.ProposalIsAdmittedIffAdmissible` | engine/proxy.py:857-1061 | The chain of checks admits a proposal if and only if it is admissible: declared capability, listed version, matching pin, memory scope, allowed edge, no tripwire |
| `MembraneRuns.VersionIffListed` | engine/capability_snapshot.py:164-185 | The version passes if and only if it has 1 to 256 characters after trimming and the pair is listed |
| `MembraneRuns.HashIffPinned` | engine/capability_snapshot.py:188-211 | The definition hash passes if and only if it is absent, or well-formed and equal to the pin where there is one |
| `MembraneRuns.ScopeIffGiven` | engine/proxy.py:178-198 | The memory scope passes if and only if it has 1 to 256 characters after trimming, where the capability needs one |
| `MembraneFrames.VersionTells` | engine/capability_snapshot.py:164-185 | Which version is taken, and which fault is found first |
| `MembraneFrames.HashTells` | engine/capability_snapshot.py:188-211 | Which definition hash is taken, and which fault is found first |
| `MembraneFrames.ScopeTells` | engine/proxy.py:178-198 | Which memory scope is taken, and which fault is found first |
| `MembraneFrames.AdmittedIff` | engine/proxy.py:857-1061 | The same in terms of the fields of the proposal alone |
| `MembraneFrames.AdmitTells` | engine/proxy.py:738-856 | What becomes of an admit frame: killed for its shape, rejected for its constitution ids with a given receipt, or judged under the resolved constitution |
| `MembraneFrames.ProposalTells` | engine/proxy.py:857-1061 | What becomes of a proposal: killed for form, edge or tripwire, or rejected by a receipt that names the first fault or the declared capabilities |
| `MembraneRuns.RegistrationIsExact` | engine/proxy.py:454-728 | A registration is accepted if and only if it is attested, in scope, and expected by the host |
| `MembraneFrames.RegistrationTells` | engine/proxy.py:432-728 | What becomes of a first frame: dropped, refused by a receipt for the first check that fails, or a session that opens |
| `MembraneFrames.RefusalTells` | engine/proxy.py:479-716 | Which refusal a registration meets: the first check that fails |
| `MembraneFrames.RefusalIsHashed` | engine/proxy.py:479-716 | The hashed dictionary of a refusal names the check and what it was about |
| `MembraneRuns.ModeTellsThePin` | engine/capability_snapshot.py:141-161 | The mode on an admitted receipt says enforced_pinned if and only if the snapshot pins exactly the asserted hash |
| `MembraneRuns.StepKeeps` | engine/proxy.py:422-1270 | Every step of every connection keeps the invariant of tickets, receipts, Gold calls and phases |
| `MembraneRuns.RunsKeep` | engine/proxy.py:422-1270 | Every interleaving from a fresh proxy keeps it |
| `MembraneRuns.GoldIsAdmitted` | engine/proxy.py:1150-1223 | Each Gold call, whether it returns or raises, follows an admission granted to the same client for the same proposal hash |
| `MembraneRuns.GoldCallsAreDistinct` | engine/proxy.py:1150-1151 | No two Gold calls, whether they return or raise, rest on the same admission |
| `MembraneRuns.GoldGetsTheProposal` | engine/proxy.py:1152-1174 | With an injective hash Gold is given the admitted proposal, in an envelope of equal intent and payload |
| `MembraneRegistrations.AdmissionsAreRegistered` | engine/proxy.py:432-728 | Every admission was granted under a session that its client registered, by a first frame accepted before |
| `MembraneRegistrations.RunsKeepRegistered` | engine/proxy.py:422-1270 | Over every interleaving handlers act only for parties registered before |
| `MembraneRegistrations.GoldExecutesWhatWasAdmitted` | engine/proxy.py:541-1223 | With an injective hash the executed proposal is the admitted one: a capability declared in a registration accepted before, in the plugin scope, with an allowed edge, a listed version, a matching pin, and an envelope of equal intent and payload |
| `MembraneRuns.ReceiptsFormOneChain` | engine/receipts.py:82-115 | All receipts, in the order of their making, form one unbroken hash chain up to the current head |
| `MembraneRuns.IdsAreDistinct` | engine/receipts.py:40-42 | With injective ids and a fresh starting head no two receipts have the same id |
| `MembraneRuns.OutcomeHasCause` | engine/proxy.py:1062-1251 | Exactly granted admissions make admitted receipts, and only redeemed tickets make outcomes and executed receipts |
| `MembraneVerdicts.OutcomeIsGoldsAnswer` | engine/proxy.py:1180-1251 | Over every run an outcome receipt is executed if and only if the Gold call of its ticket was answered with ok, and rejected if and only if that answer was not ok or Gold was never called; its gold_ok is that answer |
| `MembraneVerdicts.AnswersStay` | engine/proxy.py:1223 | A Gold call ends at most once |
| `MembraneFrames.ExecutionTells` | engine/proxy.py:1150-1222 | Gold is called if and only if the ticket is for this client, proposal and admit receipt, intent and payload match, and a needed scope is given; otherwise the first check that fails decides |
| `MembraneFrames.GoldIsCalledIff` | engine/proxy.py:1132-1223 | An execute frame leads to Gold if and only if it is well-typed, its ticket is live and those checks pass; the ticket is used up either way |
| `MembraneFrames.AdmittedReceiptsTell` | engine/proxy.py:1062-1088 | Over every run an admitted receipt holds, field by field, what was asked, by whom, under which constitution, and what the checks found |
| `MembraneFrames.OutcomeReceiptsTell` | engine/proxy.py:1186-1251 | Over every run an outcome receipt holds, field by field, client, session, ticket and proposal |
| `MembraneFrames.DoomedIff` | engine/proxy.py:433-1270 | A frame of a registered client leads to a kill exactly for the listed reasons |
| `MembraneFrames.KillTells` | engine/proxy.py:340-382 | A kill takes the client off the registry, adds one receipt that names the reason and its class, and ends the connection; tickets stay |
| `MembraneFrames.RegistryTells` | engine/proxy.py:307-351 | The registry changes only by the host and by kills, for one client at a time |
| `MembraneRuns.OutcomesNameAdmissions` | engine/proxy.py:1180-1251 | Every outcome names an earlier admitted receipt with the same hashes, capability, constitution and client; with an injective hash also version, definition hash, mode and memory scope |
| `MembraneRuns.OutcomesNameDistinctAdmissions` | engine/proxy.py:1224-1250 | No two outcomes name the same admission |
| `MembraneRuns.OutcomesTellOfCalls` | engine/proxy.py:1223-1251 | A receipt that speaks of Gold belongs to exactly one Gold call, made for the admission it names |
| `MembraneRuns.RecheckCannotFail` | engine/proxy.py:1180-1222 | With an injective hash the second check of the memory scope never fails |
| `MembraneRuns.TicketsAreListedOnce` | engine/proxy.py:1104-1116 | A live ticket is listed under its own client and no other |
| `MembraneRuns.DisconnectIsExact` | engine/proxy.py:328-332 | A disconnect removes exactly the live tickets of its client and leaves all others as they were |
| `MembraneFrames.DisconnectTells` | engine/proxy.py:433-438 | The end of a client's stream, or an invalidation by the host, removes exactly the live tickets of that client |
| `MembraneRuns.TokensAreRedeemedOnce` | engine/proxy.py:1150-1151 | No token is redeemed twice, by whomever |
| `MembraneProxy.ReceiptChain.NextReceipt` | engine/receipts.py:82-115 | A receipt takes the head as parent and becomes the head |
| `MembraneProxy.KernelCallProxy.RegisterClient` | engine/proxy.py:307-311 | The registry entry is set and nothing else changes |
| `MembraneProxy.KernelCallProxy.UnregisterClient` | engine/proxy.py:313-315 | The registry entry is removed and nothing else changes |
| `MembraneProxy.KernelCallProxy.InvalidateAllAdmitTickets` | engine/proxy.py:317-320 | Both ticket tables are emptied |
| `MembraneProxy.KernelCallProxy.InvalidateClientAdmitTickets` | engine/proxy.py:328-332 | All listed tokens of the client leave the ticket table, and its list is dropped |
| `MembraneProxy.KernelCallProxy.PutTicket` | engine/proxy.py:1104-1116 | The ticket enters both tables |
| `MembraneProxy.KernelCallProxy.PopTicket` | engine/proxy.py:1150-1151 | The ticket leaves the table once; the per-client list keeps the token |
| `MembraneProxy.KernelCallProxy.KillClientSubprocess` | engine/proxy.py:340-382 | The registry entry is dropped and a killed receipt is made |
| `MembraneProxy.KernelCallProxy.HandleRegister` | engine/proxy.py:432-728 | The first frame, undisturbed, is the steps of the transition system |
| `MembraneProxy.KernelCallProxy.HandleAdmit` | engine/proxy.py:738-1130 | So is an admit frame |
| `MembraneProxy.KernelCallProxy.HandleExecute` | engine/proxy.py:1132-1151 | So is an execute frame up to its ticket |
| `MembraneProxy.KernelCallProxy.Settle` | engine/proxy.py:1152-1266 | And the checks on the ticket, the Gold call and the outcome receipt, as the steps that OutcomeIsGoldsAnswer is about |
| `MembraneProxy.KernelCallProxy.HandleFrame` | engine/proxy.py:432-1270 | Every frame after registration, undisturbed, leaves tables, chain, phase and receipts as the steps do |
| `MembraneProxy.HandlingIsARun` | engine/proxy.py:432-1270 | Those steps are a run of the transition system |
| `Sha256Standard.CombineIsBitwise` | capability-registry/src/sha256.ts:66-70 | And, or and exclusive or act bit by bit |
| `Sha256Standard.ComplementFlips` | capability-registry/src/sha256.ts:66 | The complement flips every bit |
| `Sha256Standard.RotationMovesBits` | capability-registry/src/sha256.ts:1-3 | The rotation moves bit i + n, counted round the 32 positions, to bit i |
| `Sha256Standard.ConstantsAreCubeRoots` | capability-registry/src/sha256.ts:5-14 | Each round constant is the first 32 bits of the fractional part of the cube root of the number the standard pairs it with |
| `Sha256Standard.StartIsSquareRoots` | capability-registry/src/sha256.ts:34-41 | The starting words are those bits of the square roots of the first eight primes |
| `Sha256Standard.PadIsLeast` | capability-registry/src/sha256.ts:23-32 | The padded length is the least multiple of 64 at or above the length plus nine |
| `Sha256Standard.BigEndianDecodes` | capability-registry/src/sha256.ts:28-32 | The length bytes stand for the bit length |
| `Sha256.RightRotate` | capability-registry/src/sha256.ts:1-3 | On signed or unsigned 32-bit numbers the rotation agrees with the standard modulo 2^32 |
| `Sha256.PaddedLengthIsExact` | capability-registry/src/sha256.ts:23 | The shifts compute the padded length if and only if the length plus 72 is below 2^31; otherwise the buffer is too small |
| `Sha256.SetUint32` | capability-registry/src/sha256.ts:31-32 | A 32-bit store writes four big-endian bytes and nothing else |
| `Sha256.PadMessage` | capability-registry/src/sha256.ts:21-32 | The buffer is the padded message of FIPS 180-4, or the engine raises an error |
| `Sha256.FillSchedule` | capability-registry/src/sha256.ts:46-53 | The array holds the message schedule of the block |
| `Sha256.ScheduleSum` | capability-registry/src/sha256.ts:52 | Mixed signed and unsigned sums of the schedule are addition modulo 2^32 |
| `Sha256.FirstSum` | capability-registry/src/sha256.ts:67 | So is the first temporary sum of a round |
| `Sha256.Compress` | capability-registry/src/sha256.ts:55-81 | The loop computes the 64 rounds |
| `Sha256.HashPadded` | capability-registry/src/sha256.ts:45-90 | The loop over the blocks computes the hash value |
| `Sha256.Sha256Hex` | capability-registry/src/sha256.ts:20-95 | The result is the SHA-256 digest in hex for every message whose padded length fits |
| `Sha256.HexOf` | capability-registry/src/sha256.ts:92-94 | The result has 64 lowercase hex digits |
| `Sha256.HexOfDecodes` | capability-registry/src/sha256.ts:92-94 | The digits determine the hash value |
| `Sha256.PaddedHex` | capability-registry/src/sha256.ts:93 | Printing in base 16 and padding to eight gives all eight digits |
| `ClientQueue.ProxyKernelClient.OnData` | zak-adapters/src/proxy/ProxyKernelClient.ts:189-206 | The loop answers waiters with complete lines in order and stops at a line without a waiter; LinesSettleFrames says with what |
| `ClientQueue.ProxyKernelClient.PoisonFromTransportLoss` | zak-adapters/src/proxy/ProxyKernelClient.ts:177-187 | The first loss rejects all that is pending and resets the transport; later ones change nothing |
| `ClientQueue.ProxyKernelClient.RejectEach` | zak-adapters/src/proxy/ProxyKernelClient.ts:209-212 | The promises are rejected in order |
| `ClientQueue.ProxyKernelClient.Request` | zak-adapters/src/proxy/ProxyKernelClient.ts:46-55 | A request is rejected when poisoned, goes on in a live session, or waits for the session it may have started |
| `ClientQueue.ProxyKernelClient.OnSessionFailed` | zak-adapters/src/proxy/ProxyKernelClient.ts:231-243 | A failed session drops its transport unless poisoned and fails those who wait |
| `ClientQueue.ProxyKernelClient.OnConnected` | zak-adapters/src/proxy/ProxyKernelClient.ts:271-317 | A connection writes its registration, whether or not the client has been poisoned meanwhile |
| `ClientQueue.ProxyKernelClient.FinishOpening` | zak-adapters/src/proxy/ProxyKernelClient.ts:319-325 | Only an answer with ok true opens the session |
| `ClientQueue.ProxyKernelClient.Proceed` | zak-adapters/src/proxy/ProxyKernelClient.ts:55-59 | A request let through is chained if there is a socket, and rejected otherwise |
| `ClientQueue.ProxyKernelClient.RunNext` | zak-adapters/src/proxy/ProxyKernelClient.ts:62-77 | The next operation writes its frame once the one before is settled, unless poisoned |
| `ClientQueue.ProxyKernelClient.OnWriteError` | zak-adapters/src/proxy/ProxyKernelClient.ts:68-75 | A write error rejects the last waiter, or the frame itself |
| `ClientQueue.ProxyKernelClient.OnRegisterWriteError` | zak-adapters/src/proxy/ProxyKernelClient.ts:312-315 | A failed registration write drops the last waiter and rejects the registration |
| `ClientRuns.LinesSettleFrames` | zak-adapters/src/proxy/ProxyKernelClient.ts:189-206 | On one session whose server answers each frame with one line, the k-th settlement is of the k-th frame: answered with the k-th line if and only if that line parses, and otherwise rejected, however the stream is cut |
| `ClientSessions.SessionSettlesInOrder` | zak-adapters/src/proxy/ProxyKernelClient.ts:46-84 | In every undisturbed run of the client the first line settles the registration and each further line the next request written, answered with the line if and only if it parses, whatever the cut into chunks |
| `ClientRuns.CutsDoNotMatterIffWaiters` | zak-adapters/src/proxy/ProxyKernelClient.ts:189-206 | Cutting the stream makes no difference if and only if there is at most one line more than waiters |
| `ClientVerdicts.LinesAreCut` | zak-adapters/src/proxy/ProxyKernelClient.ts:191-194 | Lines and tail make up the stream, and none of them holds a newline |
| `ClientVerdicts.TurnSettles` | zak-adapters/src/proxy/ProxyKernelClient.ts:46-243 | Which requests each turn settles, in which order and how: lost connection, failed session, missing socket or write error |
| `ClientVerdicts.TurnTells` | zak-adapters/src/proxy/ProxyKernelClient.ts:46-325 | When the client is poisoned, connected or in a session, and when a frame is written and becomes pending |
| `ClientVerdicts.RegistrationIsAnswered` | zak-adapters/src/proxy/ProxyKernelClient.ts:306-325 | A registration answered by a line that parses with ok true opens the session and lets every waiting request through in order; any other answer fails them |
| `ClientVerdicts.NoRequestIsForgotten` | zak-adapters/src/proxy/ProxyKernelClient.ts:46-84 | Over every run each request made is queued, running or settled |
| `ClientVerdicts.FramesGoOutInOrder` | zak-adapters/src/proxy/ProxyKernelClient.ts:78-84 | Over every run frames are written in the order of their requests, before all that is still queued |
| `ClientRuns.RunsKeep` | zak-adapters/src/proxy/ProxyKernelClient.ts:46-325 | The invariant of queues, promises and session holds in every reachable state |
| `ClientRuns.AtMostOneOutstanding` | zak-adapters/src/proxy/ProxyKernelClient.ts:62-84 | At most one frame waits for an answer |
| `ClientRuns.SettledAtMostOnce` | zak-adapters/src/proxy/ProxyKernelClient.ts:189-215 | Every request is settled at most once |
| `ClientRuns.PoisonIsPermanent` | zak-adapters/src/proxy/ProxyKernelClient.ts:177-187 | Poisoning is permanent, and a poisoned client writes no request frame |
| `ClientRuns.NothingPendingIffNotConnecting` | zak-adapters/src/proxy/ProxyKernelClient.ts:208-221 | A loss leaves nothing pending; nothing becomes pending later if and only if no connection was being made |
| `ClientRuns.PoisonWhileConnecting` | zak-adapters/src/proxy/ProxyKernelClient.ts:231-243 | The failing case is reachable: a rejected registration keeps its socket, a second request connects anew, the first socket closes |
| `ZakManifest.CompileContext` | zak-core/src/kernel/compiler.ts:30-91 | The manifest is that of the maximum roughness, the least limit, and the gates that all sigils leave open |
| `ZakVerdicts.ManifestTells` | zak-core/src/kernel/compiler.ts:38-91 | Tools and retrieval are allowed if and only if no sigil is closed or directed, JSON is asked for if and only if one is directed, bias if and only if one refuses opinions, and the token maximum is 1.3 times the least limit, rounded up |
| `ZakVerdicts.EngineTells` | zak-core/src/kernel/compiler.ts:19-26 | The engine numbers for any roughness, to the nearest hundredth, with their floors |
| `ZakManifest.ManifestIsOrderIndependent` | zak-core/src/kernel/compiler.ts:32-91 | The manifest depends only on which sigils are given, not on their order or number |
| `ZakManifest.MoreSigilsAreNoFreer` | zak-core/src/kernel/compiler.ts:43-81 | Adding sigils never makes the manifest freer while word limits are numbers |
| `ZakManifest.OneBadLimitLiftsAll` | zak-core/src/kernel/compiler.ts:63-78 | The token maximum is no number if and only if some word limit is no number |
| `ZakManifest.PhysicsIsMonotone` | zak-core/src/kernel/compiler.ts:19-26 | Rougher material never raises temperature, top_p or top_k and never lowers the repeat penalty |
| `ZakRunner.LimitRoundTrip` | zak-core/src/kernel/runner.ts:81 | In exact arithmetic the runner recovers the word limit the compiler started from, for every integer |
| `ZakRunner.SplitUndoesJoin` | zak-core/src/kernel/runner.ts:82-84 | Splitting joined words gives them back |
| `ZakVerdicts.JoinAppends` | zak-core/src/kernel/runner.ts:84 | Words are joined by one space each |
| `ZakVerdicts.TruncationTells` | zak-core/src/kernel/runner.ts:80-87 | A text is cut if and only if there is a token maximum other than 0 and the text has more words than it allows |
| `ZakRunner.TruncationKeepsFirstWords` | zak-core/src/kernel/runner.ts:80-87 | With a positive limit exactly the first words are kept, or the text is left alone |
| `ZakRunner.LimitHoldsIffPositive` | zak-core/src/kernel/runner.ts:80-87 | The limit holds for every text if and only if it is positive |
| `ZakRunner.EnforceJson` | zak-core/src/kernel/runner.ts:52-76 | The output parses, at worst after one cut from the first to the last brace; otherwise the run is refused |
| `ZakVerdicts.BracedIs` | zak-core/src/kernel/runner.ts:58-66 | The repair keeps what is from the first opening to the last closing brace |
| `ZakVerdicts.ReleasedIff` | zak-core/src/kernel/runner.ts:22-105 | A run lets a text out if and only if bias and generation work and the text, or what is between its braces, parses where JSON is asked for |
| `ZakVerdicts.LogTells` | zak-core/src/kernel/runner.ts:22-105 | Which actions a run logs |
| `ZakRunner.EnforceLimit` | zak-core/src/kernel/runner.ts:80-87 | The text is cut to the word limit and the cut is logged |
| `ZakRunner.Execute` | zak-core/src/kernel/runner.ts:22-105 | Result and action log of a run, also when the adapter cannot translate the bias or cannot generate |
| `ZakRunner.OutputIsWithinEveryLimit` | zak-core/src/kernel/runner.ts:80-87 | A successful run under a compiled manifest returns at most as many words as the least limit of all sigils, the first ones of its source |
| `ZakRunner.LimitsHoldIff` | zak-core/src/kernel/runner.ts:80-87 | Where some sigil gives a number, all runs keep every word limit if and only if all limits are numbers and the least is positive |
| `ZakTuner.SetThenGet` | zak-core/src/kernel/tuner.ts:83-92 | A value set at a path is read at that path |
| `ZakTuner.OtherLeavesStay` | zak-core/src/kernel/tuner.ts:83-92 | Setting one leaf changes no other leaf and makes none appear or disappear |
| `ZakTuner.MoveIsBounded` | zak-core/src/kernel/tuner.ts:49-70 | A number in bounds moves by at most one step and stays in bounds |
| `ZakMoves.MoveIsTheDelta` | zak-core/src/kernel/tuner.ts:49-68 | A number moves by the delta itself where delta and sum are in range |
| `ZakMoves.MoveFollowsTheSign` | zak-core/src/kernel/tuner.ts:49-68 | A number in bounds moves in the direction of the delta, and does move if there is room |
| `ZakMoves.MoveIsCapped` | zak-core/src/kernel/tuner.ts:49-68 | A larger delta counts as the maximal step, and a sum beyond a bound as the bound |
| `ZakMoves.CallSetsLeaf` | zak-core/src/kernel/tuner.ts:37-71 | A call sets each tunable leaf it names to what its own delta makes of it |
| `ZakMoves.PathLeads` | zak-core/src/kernel/tuner.ts:83-85 | A path leads from key to key |
| `ZakMoves.ChildTells` | zak-core/src/kernel/tuner.ts:83-85 | Records have children under their keys, lists under the numerals of their positions |
| `ZakTuner.ApplyTuning` | zak-core/src/kernel/tuner.ts:27-78 | The body is changed entry by entry, the version raised by one, the seal recomputed |
| `ZakTuner.CallMovesOnce` | zak-core/src/kernel/tuner.ts:37-71 | One call moves a tunable leaf at most once and no other leaf |
| `ZakTuner.HistoryIsBounded` | zak-core/src/kernel/tuner.ts:33-76 | Over any history drift is at most one step per call, other leaves never change, the version counts the calls, and the validator accepts the seal |

## Left out

- Numbers are carried by their JSON text; NaN and -0 are not JSON values here, and `undefined` only appears as a missing field of a journal line in `TamperedLines`.
- Integer-like object keys, which the engine would list first whatever their insertion order.
- Error messages are shortened to codes, so the texts that receipts record for failed calls differ from the original's.
- `GovernedRuns.AtMostOneSuccess`: is about calls that do not overlap, as the gate and the receipt are separated by the adapter call.
- `GovernedRuns.NoSecondRun`: starts from a recorded run; when the receipt append itself fails, the adapter may be invoked again.
- `GovernedRuns.StartupNeverFails`: receipts are values here; in the code a failed call returns the `errors` array that the receipt in memory holds, so a caller that changes it makes the next startup check of that process fail, until a restart.
- The fallback `String(input)` of the replay key, for inputs that `JSON.stringify` cannot print; inputs are JSON values here.
- The field `normalized_input` of ledger entries is modelled with the cut at the second colon, and nothing else is claimed of it.
- Torn lines, and the text of the journal files: a journal is a sequence of records.
- Listing of recent receipts and ledger entries, and locale-dependent sorting.
- Registry updates during a run, and the cache of output validators.
- `TamperedLines.TamperedLinesAreEvident`: says nothing of lines whose chain key is an object or an array, as each of them is a chain of its own.
- JSON Schema, SemVer, YAML and the coercion of shorthand output schemas, which are parameters.
- Trimming of all worksheet texts before their keys are sorted, code generation, and the walk over capability directories.
- UTF-8 encoding: `Sha256.Sha256Hex` starts from bytes.
- Sockets, threads, subprocesses and signals of the engine; the order in which receipts are printed; frames with lone surrogates.
- The registry is popped and the last session read in one step when the membrane kills a client.
- `MembraneProxy.KernelCallProxy.HandleFrame`: is about one frame without interference; interleavings are covered by the transition system.
- Replies written to clients by the membrane, governance log lines, and which handler runs inside Gold.
- Keys such as `length` on arrays and strings as tuning paths, and inherited properties.
- Environment variables, proposal building and response interpretation of the proxy client; multi-byte characters cut between chunks.
- Invariants of sigils are modelled by their key and their parsed parameter, and the seal of a sigil by a hash parameter that tuner and validator share.
- Rounding of floating-point arithmetic, and biases of single tokens in the runner.
- The language-model adapters, intent classifier, web interfaces, money parser and packet magic check, which would only add easy members.
