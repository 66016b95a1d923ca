/** Admission decisions of `enforcement.ts`, `capability-meta.ts` and `bridge.ts`. */
module Enforcement {
  import opened Texts
  import opened CanonicalJson
  import opened Receipts
  import DefinitionHash

  datatype AuthorityRequirement = NoAuthority | Standard | Elevated | ContinuousResonanceRequired

  datatype ExecutionClass = ClassA | ClassB | ClassC

  datatype SideEffectTier = Low | Medium | Irreversible

  datatype Idempotency = NotIdempotent | Keyed | Inherent

  datatype ReplayBehavior = Blocked | AllowedSameKey | AllowedReadOnlySubset

  datatype Meta = Meta(
    authorityRequirement: AuthorityRequirement,
    executionClass: ExecutionClass,
    outputSchema: Json,
    asyncModel: Option<Text>,
    jobIdField: Option<Text>,
    partialReceipt: Option<bool>,
    sideEffectTier: Option<SideEffectTier>,
    idempotency: Option<Idempotency>,
    replayBehavior: Option<ReplayBehavior>)

  /** One validation error. Message texts are shortened to codes. */
  function ErrorItem(message: Text): Json {
    Obj([Field(Ascii("message"), Str(message))])
  }

  function ErrorIf(condition: bool, message: string): seq<Json> {
    if condition then [ErrorItem(Ascii(message))] else []
  }

  predicate HasType(schema: Json) {
    schema.Obj? && exists i | 0 <= i < |schema.fields| ::
      schema.fields[i].key == Ascii("type") && schema.fields[i].value.Str? && schema.fields[i].value.s != []
  }

  predicate AbsentOrEmpty(t: Option<Text>) {
    t.None? || t.value == []
  }

  /** `collectExecutionClassPolicyViolations`, the default class policy. */
  function ClassViolations(m: Meta): seq<Json> {
    ErrorIf(!m.outputSchema.Obj?, "output_schema")
    + ErrorIf(m.outputSchema.Obj? && !HasType(m.outputSchema), "schema_type")
    + (if m.executionClass.ClassC? then
         ErrorIf(AbsentOrEmpty(m.asyncModel), "async_model")
         + ErrorIf(AbsentOrEmpty(m.jobIdField), "job_id_field")
         + ErrorIf(m.partialReceipt.None?, "partial")
       else [])
    + (if m.executionClass.ClassB? then
         ErrorIf(m.sideEffectTier.None?, "tier")
         + ErrorIf(m.idempotency.None?, "idempotency")
         + ErrorIf(m.replayBehavior.None?, "replay")
       else
         ErrorIf(m.sideEffectTier.Some?, "tier_set")
         + ErrorIf(m.idempotency.Some?, "idem_set")
         + ErrorIf(m.replayBehavior.Some?, "replay_set"))
  }

  /** The trimmed text, if anything is left of it. */
  function Trimmed(t: Option<Text>): Option<Text> {
    if t.Some? && Trim(t.value) != [] then Some(Trim(t.value)) else None
  }

  // ------------------------------------------------------------------- authority

  function AdmissionRank(level: Text): Option<nat> {
    if level == Ascii("none") then Some(0)
    else if level == Ascii("standard") then Some(1)
    else if level == Ascii("elevated") then Some(2)
    else if level == Ascii("continuous_resonance") then Some(3)
    else None
  }

  function RequirementRank(r: AuthorityRequirement): nat {
    match r
    case NoAuthority => 0
    case Standard => 1
    case Elevated => 2
    case ContinuousResonanceRequired => 3
  }

  function AuthorityErrors(a: AuthorityContext): seq<Json> {
    ErrorIf(AdmissionRank(a.level).None?, "level")
    + ErrorIf(Trim(a.source) == [], "source")
    + ErrorIf(Trim(a.evaluatedAt) == [], "evaluated_at")
    + ErrorIf(a.authorityContextId.Some? && Trim(a.authorityContextId.value) == [],
              "context_id")
  }

  function AdmissionErrors(m: Meta, a: AuthorityContext, classPolicy: Meta -> seq<Json>): seq<Json> {
    var errors := classPolicy(m) + AuthorityErrors(a);
    if errors != [] then errors
    else ErrorIf(AdmissionRank(a.level).Some? && AdmissionRank(a.level).value < RequirementRank(m.authorityRequirement),
                 "insufficient")
  }

  /** Host context fields that are strings; other values count as absent. */
  datatype Context = Context(sessionId: Option<Text>, subjectId: Option<Text>, authorityContextId: Option<Text>)

  /** `resolveExecutionAuthorityContext`: the draft's context overrides the host's seed. */
  function ResolveAuthority(c: Context, seed: Option<AuthorityContext>, now: Text): AuthorityContext {
    AuthorityContext(
      if seed.Some? then seed.value.level else Ascii("none"),
      Ascii("resolved:") + (if seed.Some? then seed.value.source else Ascii("host")),
      now,
      if Trimmed(c.sessionId).Some? then Trimmed(c.sessionId)
      else if seed.Some? then Truthy(seed.value.sessionId) else None,
      if Trimmed(c.subjectId).Some? then Trimmed(c.subjectId)
      else if seed.Some? then Truthy(seed.value.subjectId) else None,
      if Trimmed(c.authorityContextId).Some? then Trimmed(c.authorityContextId)
      else if seed.Some? then Trimmed(seed.value.authorityContextId) else None)
  }

  // ---------------------------------------------------------------------- replay

  function PolicyKey(capability: Text, version: Text): Text {
    capability + [AT_SIGN] + version
  }

  /** `replayBlockedLookupKey`: policy key, colon, input with sorted keys. */
  function ReplayKey(policyKey: Text, input: Json): Text {
    policyKey + [COLON] + Stringify(SortKeysDeep(input))
  }

  function FieldNamed(fields: seq<Field>, key: Text): Option<Json> {
    if fields == [] then None
    else if fields[0].key == key then Some(fields[0].value)
    else FieldNamed(fields[1..], key)
  }

  function IdempotencyKeyOf(input: Json): Option<Text> {
    if !input.Obj? then None
    else
      match FieldNamed(input.fields, Ascii("idempotency_key"))
      case Some(Str(s)) => Trimmed(Some(s))
      case _ => None
  }

  /** Class B capabilities whose successful runs are recorded under a replay key. */
  predicate TracksReplay(m: Meta) {
    m.executionClass.ClassB? && (m.replayBehavior == Some(Blocked) || m.replayBehavior == Some(AllowedSameKey))
  }

  /** `assertReplayAllowed`: the refusal, if any. */
  function ReplayRefusal(m: Meta, capability: Text, version: Text, input: Json, memory: Memory): Option<Text> {
    var pk := PolicyKey(capability, version);
    var idempotencyKey := IdempotencyKeyOf(input);
    if !TracksReplay(m) then None
    else if m.idempotency == Some(Keyed) && idempotencyKey.None? then
      Some(Ascii("key_required"))
    else if m.replayBehavior == Some(AllowedSameKey) then
      if m.idempotency != Some(Keyed) then
        Some(Ascii("not_keyed"))
      else
        var slot := IndexKey(capability, version, idempotencyKey.value);
        if slot in memory.index && memory.index[slot].replayKey != ReplayKey(pk, input) then
          Some(Ascii("key_reused"))
        else None
    else if ReplayKey(pk, input) in memory.blocked then
      Some(Ascii("duplicate"))
    else None
  }

  // -------------------------------------------------------------------- registry

  /**
   What the registry holds during a run. `latest` is the semver choice per capability; the two validators
   stand for the compiled JSON schemas and semantic validators, `None` meaning valid.
   */
  datatype Registry = Registry(
    definitions: map<Text, DefinitionHash.Definition>,
    latest: map<Text, Text>,
    metas: map<Text, Meta>,
    inputErrors: (Text, Json) -> Option<seq<Json>>,
    outputErrors: (Text, Json) -> Option<seq<Json>>)

  function Resolve(reg: Registry, capability: Text, hint: Option<Text>): Option<DefinitionHash.Definition> {
    var key := if hint.Some? && hint.value != [] then Some(PolicyKey(capability, hint.value))
               else if capability in reg.latest then Some(PolicyKey(capability, reg.latest[capability]))
               else None;
    if key.Some? && key.value in reg.definitions then Some(reg.definitions[key.value]) else None
  }

  function MetaOf(reg: Registry, capability: Text, version: Text): Option<Meta> {
    var key := PolicyKey(capability, version);
    if key in reg.metas then Some(reg.metas[key]) else None
  }

  /** The draft a host submits, with the authority it asserts. */
  datatype Request = Request(
    capability: Text,
    hint: Option<Text>,
    input: Json,
    context: Context,
    authority: Option<AuthorityContext>,
    classPolicy: Meta -> seq<Json>)

  datatype Preparation =
    | Refused(stage: Text, errors: seq<Json>)
    | Prepared(version: Text, definitionHash: Text)

  /** `prepareExecutionRequest`: definition, input, metadata, admission, replay, in this order. */
  function Prepare(digest: Text -> Text, reg: Registry, q: Request, now: Text, memory: Memory): Preparation {
    if q.authority.None? then
      Refused(Ascii("admission"), [ErrorItem(Ascii("no_authority"))])
    else
      match Resolve(reg, q.capability, q.hint)
      case None => Refused(Ascii("definition"), [ErrorItem(Ascii("unknown"))])
      case Some(definition) =>
        var version := definition.version;
        var inputErrors := reg.inputErrors(PolicyKey(q.capability, version), q.input);
        if inputErrors.Some? then Refused(Ascii("input_validation"), inputErrors.value)
        else
          match MetaOf(reg, q.capability, version)
          case None => Refused(Ascii("governance_meta"), [ErrorItem(Ascii("no_meta"))])
          case Some(meta) =>
            var errors := AdmissionErrors(meta, ResolveAuthority(q.context, q.authority, now), q.classPolicy);
            if errors != [] then Refused(Ascii("admission"), errors)
            else
              match ReplayRefusal(meta, q.capability, version, q.input, memory)
              case Some(message) => Refused(Ascii("admission"), [ErrorItem(message)])
              case None => Prepared(version, Ascii("sha256:") + digest(DefinitionHash.Preimage(definition)))
  }
}
