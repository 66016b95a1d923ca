/** The governed pipeline of `governed-execution.ts`. */
module GovernedExecution {
  import opened Texts
  import opened CanonicalJson
  import opened Receipts
  import opened Enforcement
  import opened GovernanceRuntime
  import DefinitionHash

  /** What the adapter does when it is invoked. */
  datatype AdapterOutcome = Threw(message: Text) | Returned(output: Json)

  /** What a call meets outside the pipeline: the store, the clock, the adapter, and a failing append. */
  datatype Surroundings = Surroundings(
    storeAvailable: bool,
    resolvedAt: Text,
    preparedAt: Text,
    persistedAt: Text,
    adapter: AdapterOutcome,
    fault: Fault)

  datatype Outcome =
    | StartupFailed
    | Failure(stage: Text, errors: seq<Json>, recorded: Option<Receipt>)
    | Success(output: Json, receipt: Receipt)

  function ClassName(c: ExecutionClass): Text {
    match c
    case ClassA => Ascii("A")
    case ClassB => Ascii("B")
    case ClassC => Ascii("C")
  }

  function FailureDraft(capability: Text, version: Option<Text>, definitionHash: Option<Text>,
                        authority: AuthorityContext, meta: Option<Meta>, stage: Text, validated: Option<bool>,
                        errors: seq<Json>): Draft {
    Draft(capability, version, definitionHash, authority,
          if meta.Some? then Some(ClassName(meta.value.executionClass)) else None,
          stage, false, validated, Some(errors), None, None, None)
  }

  /** The draft of a run whose output passed validation. */
  function SuccessDraft(q: Request, version: Text, definitionHash: Text, authority: AuthorityContext,
                        meta: Meta): Draft {
    Draft(q.capability, Some(version), Some(definitionHash), authority,
          Some(ClassName(meta.executionClass)), EXECUTED, true, Some(true), None,
          if TracksReplay(meta) then Some(ReplayKey(PolicyKey(q.capability, version), q.input)) else None,
          IdempotencyKeyOf(q.input), None)
  }

  /** What a call decides to record, and what it reports once the record is durable. */
  datatype Verdict = Verdict(draft: Draft, stage: Text, errors: seq<Json>, output: Option<Json>)

  function ResolvedVersion(reg: Registry, q: Request): Option<Text> {
    match Resolve(reg, q.capability, q.hint)
    case None => if q.hint.Some? then q.hint else None
    case Some(d) => Some(d.version)
  }

  function ResolvedMeta(reg: Registry, q: Request): Option<Meta> {
    match Resolve(reg, q.capability, q.hint)
    case None => None
    case Some(d) => MetaOf(reg, d.capability, d.version)
  }

  /** The decision of one call, as a function of what the process remembers. */
  function Decide(digest: Text -> Text, reg: Registry, q: Request, s: Surroundings, memory: Memory): Verdict {
    var authority := ResolveAuthority(q.context, q.authority, s.resolvedAt);
    match Prepare(digest, reg, q, s.preparedAt, memory)
    case Refused(stage, errors) =>
      Verdict(
        FailureDraft(q.capability, ResolvedVersion(reg, q), None, authority, ResolvedMeta(reg, q), stage, None, errors),
        stage, errors, None)
    case Prepared(version, definitionHash) =>
      match MetaOf(reg, q.capability, version)
      case None =>
        var errors := [ErrorItem(Ascii("no_meta"))];
        Verdict(
          FailureDraft(q.capability, Some(version), Some(definitionHash), authority, None, Ascii("governance_meta"),
                       None, errors), Ascii("governance_meta"), errors, None)
      case Some(meta) =>
        match s.adapter
        case Threw(message) =>
          var errors := [ErrorItem(Ascii("adapter: ") + message)];
          Verdict(
            FailureDraft(q.capability, Some(version), Some(definitionHash), authority, Some(meta), Ascii("adapter"),
                         None, errors), Ascii("adapter"), errors, None)
        case Returned(output) =>
          match reg.outputErrors(PolicyKey(q.capability, version), output)
          case Some(errors) =>
            Verdict(
              FailureDraft(q.capability, Some(version), Some(definitionHash), authority, Some(meta),
                           Ascii("output_validation"), Some(false), errors),
              Ascii("output_validation"), errors, None)
          case None =>
            Verdict(SuccessDraft(q, version, definitionHash, authority, meta), EXECUTED, [], Some(output))
  }

  /** What the caller is told: success needs a durable receipt, a refused call keeps its refusal without one. */
  function Report(v: Verdict, receipt: Option<Receipt>): Outcome {
    if v.output.None? then Failure(v.stage, v.errors, receipt)
    else if receipt.None? then
      Failure(Ascii("receipt_persistence"),
              [ErrorItem(Ascii("not_persisted"))], None)
    else Success(v.output.value, receipt.value)
  }

  ghost predicate StartsUp(digest: Text -> Text, s: Surroundings, p: Process) {
    s.storeAvailable && Verified(digest, p.journal)
  }

  /** The process after one governed call. */
  ghost function GovernedStep(digest: Text -> Text, o: Options, reg: Registry, p: Process, q: Request,
                              s: Surroundings): Process {
    if !StartsUp(digest, s, p) then p
    else PersistStep(digest, o, p, Decide(digest, reg, q, s, p.memory).draft, s.persistedAt, s.fault)
  }

  ghost function GovernedOutcome(digest: Text -> Text, o: Options, reg: Registry, p: Process, q: Request,
                                 s: Surroundings): Outcome {
    if !StartsUp(digest, s, p) then StartupFailed
    else
      var v := Decide(digest, reg, q, s, p.memory);
      Report(v, if s.fault.NoFault? then Some(NextReceipt(digest, o, p.memory.heads, v.draft, s.persistedAt)) else None)
  }

  /** `assertReplayAllowed` */
  method AssertReplayAllowed(runtime: FileGovernanceRuntime, meta: Meta, capability: Text, version: Text, input: Json)
    returns (refusal: Option<Text>)
    requires runtime.Memory() == Load(runtime.disk.Journal())
    ensures refusal == ReplayRefusal(meta, capability, version, input, runtime.Memory())
  {
    hide WritesBlocked, WritesIndex, ReplayKey, PolicyKey, IndexKey, IdempotencyKeyOf, Load, Ascii;
    if !TracksReplay(meta) {
      return None;
    }
    var idempotencyKey := IdempotencyKeyOf(input);
    if meta.idempotency == Some(Keyed) && idempotencyKey.None? {
      return Some(Ascii("key_required"));
    }
    var key := ReplayKey(PolicyKey(capability, version), input);
    if meta.replayBehavior == Some(AllowedSameKey) {
      if meta.idempotency != Some(Keyed) {
        return Some(Ascii("not_keyed"));
      }
      var existing := runtime.LookupIdempotencyKey(IndexKey(capability, version, idempotencyKey.value));
      return if existing.Some? && existing.value != key then Some(Ascii("key_reused")) else None;
    }
    var found := runtime.HasBlockedReplay(key);
    refusal := if found then Some(Ascii("duplicate")) else None;
  }

  /** `prepareExecutionRequest` */
  method PrepareExecutionRequest(runtime: FileGovernanceRuntime, reg: Registry, q: Request, now: Text)
    returns (prep: Preparation)
    requires runtime.Memory() == Load(runtime.disk.Journal())
    ensures prep == Prepare(runtime.digest, reg, q, now, runtime.Memory())
  {
    hide ReplayRefusal, AdmissionErrors, ResolveAuthority, Resolve;
    if q.authority.None? {
      return Refused(Ascii("admission"), [ErrorItem(Ascii("no_authority"))]);
    }
    var resolved := Resolve(reg, q.capability, q.hint);
    if resolved.None? {
      return Refused(Ascii("definition"), [ErrorItem(Ascii("unknown"))]);
    }
    var definition := resolved.value;
    var inputErrors := reg.inputErrors(PolicyKey(q.capability, definition.version), q.input);
    if inputErrors.Some? {
      return Refused(Ascii("input_validation"), inputErrors.value);
    }
    var meta := MetaOf(reg, q.capability, definition.version);
    if meta.None? {
      return Refused(Ascii("governance_meta"), [ErrorItem(Ascii("no_meta"))]);
    }
    var errors := AdmissionErrors(meta.value, ResolveAuthority(q.context, q.authority, now), q.classPolicy);
    if errors != [] {
      return Refused(Ascii("admission"), errors);
    }
    var refusal := AssertReplayAllowed(runtime, meta.value, q.capability, definition.version, q.input);
    if refusal.Some? {
      return Refused(Ascii("admission"), [ErrorItem(refusal.value)]);
    }
    prep := Prepared(definition.version, Ascii("sha256:") + runtime.digest(DefinitionHash.Preimage(definition)));
  }

  method PersistReceiptSafe(runtime: FileGovernanceRuntime, draft: Draft, s: Surroundings)
    returns (receipt: Option<Receipt>)
    modifies runtime, runtime.disk
    ensures runtime.Process() == PersistStep(runtime.digest, runtime.options, old(runtime.Process()), draft,
                                             s.persistedAt, s.fault)
    ensures receipt == if s.fault.NoFault?
                       then Some(NextReceipt(runtime.digest, runtime.options, old(runtime.receiptHeads), draft,
                                             s.persistedAt))
                       else None
  {
    receipt := runtime.PersistReceipt(draft, s.persistedAt, s.fault);
  }

  /** `executeGovernedCapability`: one non-overlapping call on a runtime that mirrors its files. */
  method ExecuteGovernedCapability(runtime: FileGovernanceRuntime, reg: Registry, q: Request, s: Surroundings)
    returns (outcome: Outcome)
    requires runtime.Memory() == Load(runtime.disk.Journal())
    modifies runtime, runtime.disk
    ensures runtime.Process() == GovernedStep(runtime.digest, runtime.options, reg, old(runtime.Process()), q, s)
    ensures outcome == GovernedOutcome(runtime.digest, runtime.options, reg, old(runtime.Process()), q, s)
  {
    var started := runtime.AssertStartupInvariants(s.storeAvailable);
    if !started {
      return StartupFailed;
    }
    var authority := ResolveAuthority(q.context, q.authority, s.resolvedAt);
    var prep := PrepareExecutionRequest(runtime, reg, q, s.preparedAt);
    if prep.Refused? {
      var draft := FailureDraft(q.capability, ResolvedVersion(reg, q), None, authority, ResolvedMeta(reg, q),
                                prep.stage, None, prep.errors);
      var receipt := PersistReceiptSafe(runtime, draft, s);
      return Failure(prep.stage, prep.errors, receipt);
    }
    var version, definitionHash := prep.version, prep.definitionHash;
    var meta := MetaOf(reg, q.capability, version);
    if meta.None? {
      var errors := [ErrorItem(Ascii("no_meta"))];
      var draft := FailureDraft(q.capability, Some(version), Some(definitionHash), authority, None,
                                Ascii("governance_meta"), None, errors);
      var receipt := PersistReceiptSafe(runtime, draft, s);
      return Failure(Ascii("governance_meta"), errors, receipt);
    }
    if s.adapter.Threw? {
      var errors := [ErrorItem(Ascii("adapter: ") + s.adapter.message)];
      var draft := FailureDraft(q.capability, Some(version), Some(definitionHash), authority, meta,
                                Ascii("adapter"), None, errors);
      var receipt := PersistReceiptSafe(runtime, draft, s);
      return Failure(Ascii("adapter"), errors, receipt);
    }
    var invalid := reg.outputErrors(PolicyKey(q.capability, version), s.adapter.output);
    if invalid.Some? {
      var draft := FailureDraft(q.capability, Some(version), Some(definitionHash), authority, meta,
                                Ascii("output_validation"), Some(false), invalid.value);
      var receipt := PersistReceiptSafe(runtime, draft, s);
      return Failure(Ascii("output_validation"), invalid.value, receipt);
    }
    var receipt := PersistReceiptSafe(runtime, SuccessDraft(q, version, definitionHash, authority, meta.value), s);
    if receipt.None? {
      return Failure(Ascii("receipt_persistence"),
                     [ErrorItem(Ascii("not_persisted"))], None);
    }
    outcome := Success(s.adapter.output, receipt.value);
  }
}
