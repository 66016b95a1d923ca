/** Receipts, anchors, replay entries and journals of `governance-runtime.ts`, as values. */
module Receipts {
  import opened Texts
  import opened CanonicalJson

  datatype AuthorityContext = AuthorityContext(
    level: Text,
    source: Text,
    evaluatedAt: Text,
    sessionId: Option<Text>,
    subjectId: Option<Text>,
    authorityContextId: Option<Text>)

  datatype Draft = Draft(
    capability: Text,
    version: Option<Text>,
    definitionHash: Option<Text>,
    authority: AuthorityContext,
    executionClass: Option<Text>,
    stage: Text,
    success: bool,
    outputValidationPassed: Option<bool>,
    errors: Option<seq<Json>>,
    replayKey: Option<Text>,
    idempotencyKey: Option<Text>,
    timestamp: Option<Text>)

  /** A receipt without its hash. A journal line may hold any JSON object as its authority. */
  datatype Core = Core(
    capability: Text,
    version: Option<Text>,
    definitionHash: Option<Text>,
    authorityLevel: Text,
    authority: Json,
    executionClass: Option<Text>,
    timestamp: Text,
    stage: Text,
    success: bool,
    outputValidationPassed: Option<bool>,
    errors: Option<seq<Json>>,
    prev: Option<Text>,
    environmentId: Text,
    runtimeId: Text,
    chainKey: Text,
    replayKey: Option<Text>,
    idempotencyKey: Option<Text>)

  datatype Receipt = Receipt(core: Core, hash: Text)

  datatype AnchorCore = AnchorCore(chainKey: Text, receiptHash: Text, prev: Option<Text>, anchoredAt: Text)

  datatype Anchor = Anchor(core: AnchorCore, hash: Text)

  datatype ReplayEntry = ReplayEntry(
    replayKey: Text,
    capability: Text,
    version: Text,
    normalizedInput: Text,
    recordedAt: Text,
    receiptHash: Text,
    idempotencyKey: Option<Text>)

  /** The two append-only files. */
  datatype Journal = Journal(receipts: seq<Receipt>, anchors: seq<Anchor>)

  datatype Options = Options(environmentId: Text, runtimeId: Text)

  const EXECUTED: Text := Ascii("executed")

  // --------------------------------------------------------------------- hashing

  function OrNull(t: Option<Text>): Json {
    match t
    case None => Null
    case Some(s) => Str(s)
  }

  function IdentityFields(c: Core): seq<Field> {
    [Field(Ascii("capability"), Str(c.capability)),
     Field(Ascii("version"), OrNull(c.version)),
     Field(Ascii("capability_definition_hash"), OrNull(c.definitionHash)),
     Field(Ascii("authority_level_used"), Str(c.authorityLevel)),
     Field(Ascii("authority"), c.authority),
     Field(Ascii("execution_class"), OrNull(c.executionClass))]
  }

  function OutcomeFields(c: Core): seq<Field> {
    [Field(Ascii("timestamp"), Str(c.timestamp)),
     Field(Ascii("stage"), Str(c.stage)),
     Field(Ascii("success"), Bool(c.success)),
     Field(Ascii("output_validation_passed"),
           if c.outputValidationPassed.Some? then Bool(c.outputValidationPassed.value) else Null),
     Field(Ascii("errors"), if c.errors.Some? then Arr(c.errors.value) else Null)]
  }

  function LinkFields(c: Core): seq<Field> {
    [Field(Ascii("prev_receipt_hash"), OrNull(c.prev)),
     Field(Ascii("environment_id"), Str(c.environmentId)),
     Field(Ascii("runtime_id"), Str(c.runtimeId)),
     Field(Ascii("chain_key"), Str(c.chainKey)),
     Field(Ascii("replay_key"), OrNull(c.replayKey)),
     Field(Ascii("idempotency_key"), OrNull(c.idempotencyKey))]
  }

  function HashPayload(c: Core): Json {
    Obj(IdentityFields(c) + OutcomeFields(c) + LinkFields(c))
  }

  /** `sha256TaggedCanonical`, for a digest function from text to hex text. */
  function Tagged(digest: Text -> Text, j: Json): Text {
    Ascii("sha256:") + digest(StableStringify(j))
  }

  function ReceiptHash(digest: Text -> Text, c: Core): Text {
    Tagged(digest, HashPayload(c))
  }

  function AnchorFields(a: AnchorCore): seq<Field> {
    [Field(Ascii("chain_key"), Str(a.chainKey)),
     Field(Ascii("anchored_receipt_hash"), Str(a.receiptHash)),
     Field(Ascii("prev_anchor_hash"), OrNull(a.prev)),
     Field(Ascii("anchored_at"), Str(a.anchoredAt))]
  }

  function AnchorHash(digest: Text -> Text, a: AnchorCore): Text {
    Tagged(digest, Obj(AnchorFields(a)))
  }

  // ------------------------------------------------------------------ projections

  /** An optional string that a spread such as `...(key ? { key } : {})` keeps. */
  function Truthy(t: Option<Text>): Option<Text> {
    if t.Some? && t.value == [] then None else t
  }

  /** The core as the verifier rebuilds it from a journal line: empty keys count as absent. */
  function Rebuilt(c: Core): Core {
    c.(replayKey := Truthy(c.replayKey), idempotencyKey := Truthy(c.idempotencyKey))
  }

  function UpTo(u: Unit, t: Text): Text {
    match IndexOf(u, t)
    case None => t
    case Some(i) => t[..i]
  }

  function ToReplayEntry(r: Receipt): Option<ReplayEntry> {
    if !r.core.success || r.core.stage != EXECUTED || r.core.replayKey.None? then None
    else
      var key := r.core.replayKey.value;
      var capVersion := UpTo(COLON, key);
      match (LastIndexOf(AT_SIGN, capVersion), IndexOf(COLON, key))
      case (Some(at), Some(colon)) =>
        if at == 0 then None
        else Some(ReplayEntry(
                    key,
                    capVersion[..at],
                    capVersion[at + 1..],
                    UpTo(COLON, key[colon + 1..]),
                    r.core.timestamp,
                    r.hash,
                    Truthy(r.core.idempotencyKey)))
      case _ => None
  }

  function IndexKey(capability: Text, version: Text, idempotencyKey: Text): Text {
    capability + [AT_SIGN] + version + [HASH_SIGN] + idempotencyKey
  }

  function OrDash(t: Option<Text>): Text {
    if t.Some? then t.value else Ascii("-")
  }

  function ChainKeyFor(o: Options, a: AuthorityContext): Text {
    Ascii("env:") + o.environmentId
    + Ascii("|runtime:") + o.runtimeId
    + Ascii("|session:") + OrDash(a.sessionId)
    + Ascii("|subject:") + OrDash(a.subjectId)
    + Ascii("|authctx:") + OrDash(a.authorityContextId)
  }

  function OptionalField(key: string, t: Option<Text>): seq<Field> {
    if t.Some? then [Field(Ascii(key), Str(t.value))] else []
  }

  function AuthorityJson(a: AuthorityContext): Json {
    Obj([Field(Ascii("resolved_authority_level"), Str(a.level)),
         Field(Ascii("source"), Str(a.source)),
         Field(Ascii("evaluated_at"), Str(a.evaluatedAt))]
        + OptionalField("session_id", a.sessionId)
        + OptionalField("subject_id", a.subjectId)
        + OptionalField("authority_context_id", a.authorityContextId))
  }

  /** The receipt core that `persistReceipt` builds from a draft. */
  function CoreOf(o: Options, d: Draft, now: Text, prev: Option<Text>): Core {
    Core(
      d.capability,
      d.version,
      d.definitionHash,
      d.authority.level,
      AuthorityJson(d.authority),
      d.executionClass,
      if d.timestamp.Some? then d.timestamp.value else now,
      d.stage,
      d.success,
      d.outputValidationPassed,
      if d.errors.Some? && d.errors.value != [] then d.errors else None,
      prev,
      o.environmentId,
      o.runtimeId,
      ChainKeyFor(o, d.authority),
      Truthy(d.replayKey),
      Truthy(d.idempotencyKey))
  }

  // ---------------------------------------------------------- what a journal determines

  function Heads(rs: seq<Receipt>): map<Text, Text> {
    if rs == [] then map[]
    else
      var last := rs[|rs| - 1];
      Heads(rs[..|rs| - 1])[last.core.chainKey := last.hash]
  }

  function BlockedReplay(rs: seq<Receipt>): map<Text, ReplayEntry> {
    if rs == [] then map[]
    else WithBlocked(BlockedReplay(rs[..|rs| - 1]), ToReplayEntry(rs[|rs| - 1]))
  }

  function IdempotencyIndex(rs: seq<Receipt>): map<Text, ReplayEntry> {
    if rs == [] then map[]
    else WithIndexed(IdempotencyIndex(rs[..|rs| - 1]), ToReplayEntry(rs[|rs| - 1]))
  }

  function WithBlocked(m: map<Text, ReplayEntry>, e: Option<ReplayEntry>): map<Text, ReplayEntry> {
    if e.Some? then m[e.value.replayKey := e.value] else m
  }

  function WithIndexed(m: map<Text, ReplayEntry>, e: Option<ReplayEntry>): map<Text, ReplayEntry> {
    if e.Some? && e.value.idempotencyKey.Some?
    then m[IndexKey(e.value.capability, e.value.version, e.value.idempotencyKey.value) := e.value]
    else m
  }

  /** One more receipt updates what the journal determines by one step. */
  lemma ProjectionsAppend(rs: seq<Receipt>, r: Receipt)
    ensures Heads(rs + [r]) == Heads(rs)[r.core.chainKey := r.hash]
    ensures BlockedReplay(rs + [r]) == WithBlocked(BlockedReplay(rs), ToReplayEntry(r))
    ensures IdempotencyIndex(rs + [r]) == WithIndexed(IdempotencyIndex(rs), ToReplayEntry(r))
  {
    assert (rs + [r])[..|rs|] == rs;
  }

  ghost predicate WritesBlocked(r: Receipt, key: Text) {
    ToReplayEntry(r).Some? && ToReplayEntry(r).value.replayKey == key
  }

  ghost predicate WritesIndex(r: Receipt, key: Text) {
    && ToReplayEntry(r).Some?
    && var e := ToReplayEntry(r).value;
       e.idempotencyKey.Some? && IndexKey(e.capability, e.version, e.idempotencyKey.value) == key
  }

  /** The replay ledger holds, for each key, the entry of the last receipt that writes it. */
  lemma {:induction false} LastBlockedWriter(rs: seq<Receipt>, key: Text) returns (i: int)
    ensures -1 <= i < |rs|
    ensures i == -1 <==> key !in BlockedReplay(rs)
    ensures i >= 0 ==> WritesBlocked(rs[i], key) && BlockedReplay(rs)[key] == ToReplayEntry(rs[i]).value
    ensures forall k | i < k < |rs| :: !WritesBlocked(rs[k], key)
  {
    if rs == [] {
      i := -1;
    } else if WritesBlocked(rs[|rs| - 1], key) {
      i := |rs| - 1;
    } else {
      i := LastBlockedWriter(rs[..|rs| - 1], key);
    }
  }

  /** So does the idempotency index. */
  lemma {:induction false} LastIndexWriter(rs: seq<Receipt>, key: Text) returns (i: int)
    ensures -1 <= i < |rs|
    ensures i == -1 <==> key !in IdempotencyIndex(rs)
    ensures i >= 0 ==> WritesIndex(rs[i], key) && IdempotencyIndex(rs)[key] == ToReplayEntry(rs[i]).value
    ensures forall k | i < k < |rs| :: !WritesIndex(rs[k], key)
  {
    if rs == [] {
      i := -1;
    } else if WritesIndex(rs[|rs| - 1], key) {
      i := |rs| - 1;
    } else {
      i := LastIndexWriter(rs[..|rs| - 1], key);
    }
  }

  function ChainOf(rs: seq<Receipt>, key: Text): (c: seq<Receipt>)
    ensures forall i | 0 <= i < |c| :: c[i].core.chainKey == key && c[i] in rs
    ensures |c| <= |rs|
  {
    if rs == [] then []
    else
      var last := rs[|rs| - 1];
      var c := ChainOf(rs[..|rs| - 1], key);
      if last.core.chainKey == key then c + [last] else c
  }

  ghost function ChainKeys(rs: seq<Receipt>): set<Text> {
    set r | r in rs :: r.core.chainKey
  }

  // ------------------------------------------------------------------- verification

  function PrevHash(c: seq<Receipt>, i: nat): Option<Text>
    requires i <= |c|
  {
    if i == 0 then None else Some(c[i - 1].hash)
  }

  predicate LinkVerifies(digest: Text -> Text, c: seq<Receipt>, i: nat)
    requires i < |c|
  {
    c[i].core.prev == PrevHash(c, i) && c[i].hash == ReceiptHash(digest, Rebuilt(c[i].core))
  }

  ghost predicate LinksVerify(digest: Text -> Text, c: seq<Receipt>, n: nat)
    requires n <= |c|
  {
    forall i | 0 <= i < n :: LinkVerifies(digest, c, i)
  }

  ghost predicate ChainVerifies(digest: Text -> Text, c: seq<Receipt>) {
    LinksVerify(digest, c, |c|)
  }

  ghost predicate ReceiptsVerify(digest: Text -> Text, rs: seq<Receipt>) {
    forall key: Text :: ChainVerifies(digest, ChainOf(rs, key))
  }

  ghost predicate HasHash(rs: seq<Receipt>, h: Text) {
    exists i | 0 <= i < |rs| :: rs[i].hash == h
  }

  ghost predicate AnchorVerifies(digest: Text -> Text, j: Journal, i: nat)
    requires i < |j.anchors|
  {
    && HasHash(j.receipts, j.anchors[i].core.receiptHash)
    && j.anchors[i].core.prev == (if i == 0 then None else Some(j.anchors[i - 1].hash))
    && j.anchors[i].hash == AnchorHash(digest, j.anchors[i].core)
  }

  ghost predicate AnchorsVerifyUpTo(digest: Text -> Text, j: Journal, n: nat)
    requires n <= |j.anchors|
  {
    forall i | 0 <= i < n :: AnchorVerifies(digest, j, i)
  }

  ghost predicate AnchorsVerify(digest: Text -> Text, j: Journal) {
    AnchorsVerifyUpTo(digest, j, |j.anchors|)
  }

  ghost predicate Verified(digest: Text -> Text, j: Journal) {
    ReceiptsVerify(digest, j.receipts) && AnchorsVerify(digest, j)
  }

  // -------------------------------------------------------------------- persisting

  /** Which append of `persistReceipt` throws, if any. A crash leaves the files as the same fault does. */
  datatype Fault = NoFault | ReceiptAppendFails | AnchorAppendFails

  function NextReceipt(digest: Text -> Text, o: Options, heads: map<Text, Text>, d: Draft, now: Text): Receipt {
    var key := ChainKeyFor(o, d.authority);
    var core := CoreOf(o, d, now, if key in heads then Some(heads[key]) else None);
    Receipt(core, ReceiptHash(digest, core))
  }

  function NextAnchor(digest: Text -> Text, anchors: seq<Anchor>, r: Receipt): Anchor {
    var prev := if anchors == [] then None else Some(anchors[|anchors| - 1].hash);
    var core := AnchorCore(r.core.chainKey, r.hash, prev, r.core.timestamp);
    Anchor(core, AnchorHash(digest, core))
  }

  /** What a running process holds in memory. */
  datatype Memory = Memory(
    receipts: seq<Receipt>,
    anchors: seq<Anchor>,
    heads: map<Text, Text>,
    blocked: map<Text, ReplayEntry>,
    index: map<Text, ReplayEntry>)

  datatype Process = Process(journal: Journal, memory: Memory)

  /** What a process that starts on these files holds in memory. */
  function Load(j: Journal): Memory {
    Memory(j.receipts, j.anchors, Heads(j.receipts), BlockedReplay(j.receipts), IdempotencyIndex(j.receipts))
  }

  /** Once one more receipt has been written, before its anchor. */
  function WithReceipt(p: Process, r: Receipt): Process {
    var m := p.memory;
    Process(
      Journal(p.journal.receipts + [r], p.journal.anchors),
      Memory(
        m.receipts + [r],
        m.anchors,
        m.heads[r.core.chainKey := r.hash],
        WithBlocked(m.blocked, ToReplayEntry(r)),
        WithIndexed(m.index, ToReplayEntry(r))))
  }

  function WithAnchor(p: Process, a: Anchor): Process {
    Process(
      Journal(p.journal.receipts, p.journal.anchors + [a]),
      p.memory.(anchors := p.memory.anchors + [a]))
  }

  /** One call of `persistReceipt` on a running process. */
  function PersistStep(digest: Text -> Text, o: Options, p: Process, d: Draft, now: Text, fault: Fault): Process {
    var r := NextReceipt(digest, o, p.memory.heads, d, now);
    match fault
    case ReceiptAppendFails => p
    case AnchorAppendFails => WithReceipt(p, r)
    case NoFault => WithAnchor(WithReceipt(p, r), NextAnchor(digest, p.memory.anchors, r))
  }
}
