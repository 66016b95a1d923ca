/**
 Policy checks and frame decisions of the constitutional membrane (`engine/proxy.py`,
 `engine/capability_snapshot.py`).
 */
module MembraneRules {
  import opened Texts

  /** A JSON value as Python loads it. Numbers are carried by their JSON text. */
  datatype Val =
    | VNull
    | VBool(b: bool)
    | VNum(text: string)
    | VStr(s: string)
    | VList(items: seq<Val>)
    | VDict(fields: Dict)

  type Dict = map<string, Val>

  function Get(d: Dict, key: string): Val {
    if key in d then d[key] else VNull
  }

  /** The string under a key, empty when there is none. */
  function TextAt(d: Dict, key: string): string {
    if key in d && d[key].VStr? then d[key].s else ""
  }

  // -------------------------------------------------------------------- strings

  predicate IsWhitespace(c: char) {
    var u := c as int;
    9 <= u <= 13 || 28 <= u <= 32 || u == 0x85 || u == 0xA0 || u == 0x1680 || 0x2000 <= u <= 0x200A
    || u == 0x2028 || u == 0x2029 || u == 0x202F || u == 0x205F || u == 0x3000
  }

  function StripLeft(s: string): (r: string)
    ensures r != [] ==> !IsWhitespace(r[0])
  {
    if s != [] && IsWhitespace(s[0]) then StripLeft(s[1..]) else s
  }

  function StripRight(s: string): (r: string)
    ensures r <= s
    ensures r != [] ==> !IsWhitespace(r[|r| - 1])
  {
    if s != [] && IsWhitespace(s[|s| - 1]) then StripRight(s[..|s| - 1]) else s
  }

  function Strip(s: string): string {
    StripRight(StripLeft(s))
  }

  predicate Contains(s: string, part: string) {
    exists i | 0 <= i <= |s| :: part <= s[i..]
  }

  predicate IsHex(c: char) {
    '0' <= c <= '9' || 'a' <= c <= 'f'
  }

  /** `sha256:` and 64 lowercase hex digits. */
  predicate IsDefinitionHash(s: string) {
    |s| == 71 && "sha256:" <= s && forall i | 7 <= i < 71 :: IsHex(s[i])
  }

  // --------------------------------------------------------------------- policy

  datatype Policy = Policy(
    allowlist: set<(string, string)>,
    nodeIds: set<string>,
    untrusted: set<string>,
    scope: map<string, set<string>>)

  datatype Snapshot = Snapshot(allowedPairs: set<(string, string)>, pins: map<(string, string), string>)

  datatype Resolved = Resolved(constitutionId: string, policyHash: string)

  /**
   What one proxy is configured with. `inputHash` hashes a dictionary, `receiptId` a parent and a receipt
   core, `dumps` prints a value with sorted keys, `sameValue` is Python's comparison, `tripwire` the search
   of the adversarial mode, `sorted` lists a set of strings in order.
   */
  datatype World = World(
    policy: Policy,
    bundleHashes: map<string, string>,
    snapshot: Snapshot,
    adversarial: bool,
    inputHash: Dict -> string,
    receiptId: (string, Core) -> string,
    dumps: Val -> string,
    sameValue: (Val, Val) -> bool,
    lower: string -> string,
    str: Val -> string,
    truthy: Val -> bool,
    sorted: set<string> -> seq<string>,
    tripwire: Dict -> bool,
    killText: KillReason -> string)

  predicate EdgeIsAllowed(p: Policy, from: string, to: string) {
    from in p.nodeIds && to in p.nodeIds && (from, to) in p.allowlist
  }

  // ------------------------------------------------------------------- receipts

  datatype Decision = Admitted | Rejected | Executed | Killed

  datatype Reason = CapabilityViolation | PolicyViolation | Adversarial | UnknownClient

  datatype Operation = MemoryRead | MemoryWrite

  datatype HashMode = Absent | EnforcedPinned | Observability

  datatype Detail =
    | ConstitutionIdMismatch | MissingConstitutionId
    | VersionMissing | VersionInvalid | VersionNotListed
    | HashInvalid | HashMalformed | HashMismatch
    | ScopeMissing | ScopeWrongType | ScopeEmpty | ScopeTooLong

  datatype Extra =
    | NoExtra
    | KillText(text: string)
    | DetailOnly(detail: Detail)
    | Allowed(capabilities: set<string>)
    | Edge(from: string, to: string)
    | GoldOutcome(ok: bool, admitReceiptId: string)
    | ScopeOutcome(detail: Detail, admitReceiptId: string)

  /** A receipt without its id and parent. */
  datatype Core = Core(
    trusted: bool,
    adapterId: Option<string>,
    capability: string,
    inputHash: string,
    policyHash: string,
    timestamp: string,
    decision: Decision,
    capabilityValid: bool,
    reason: Option<Reason>,
    contextPresent: bool,
    clientId: string,
    extra: Extra,
    constitutionId: Option<string>,
    memoryScope: Option<string>,
    memoryOperation: Option<Operation>,
    version: Option<string>,
    definitionHash: Option<string>,
    mode: Option<HashMode>)

  datatype Receipt = Receipt(id: string, parent: string, core: Core)

  // --------------------------------------------------------------------- checks

  datatype Check<T> = Fine(value: T) | Faulty(detail: Detail)

  /** `verify_capability_version_field` */
  function VersionField(proposal: Dict, snapshot: Snapshot, capability: string): Check<string> {
    match Get(proposal, "capability_version")
    case VNull => Faulty(VersionMissing)
    case VStr(raw) =>
      var s := Strip(raw);
      if s == "" then Faulty(VersionMissing)
      else if |s| > 256 then Faulty(VersionInvalid)
      else if (capability, s) !in snapshot.allowedPairs then Faulty(VersionNotListed)
      else Fine(s)
    case _ => Faulty(VersionInvalid)
  }

  /** `verify_capability_definition_hash_field` */
  function HashField(proposal: Dict, snapshot: Snapshot, capability: string, version: string): Check<Option<string>> {
    match Get(proposal, "capability_definition_hash")
    case VNull => Fine(None)
    case VStr(raw) =>
      if !IsDefinitionHash(raw) then Faulty(HashMalformed)
      else if (capability, version) in snapshot.pins
           && snapshot.pins[(capability, version)] != raw then Faulty(HashMismatch)
      else Fine(Some(raw))
    case _ => Faulty(HashInvalid)
  }

  // ------------------------------------------------------------------- snapshots

  /** The trimmed capability and version of a snapshot entry. */
  function PairOf(entry: Val): Option<(string, string)> {
    if entry.VDict? && Get(entry.fields, "capability").VStr? && Get(entry.fields, "version").VStr?
    then
      var pair := (Strip(TextAt(entry.fields, "capability")), Strip(TextAt(entry.fields, "version")));
      if pair.0 == "" || pair.1 == "" then None else Some(pair)
    else None
  }

  predicate IsPin(entry: Val) {
    PairOf(entry).Some? && IsDefinitionHash(TextAt(entry.fields, "hash"))
  }

  function PinOf(entry: Val): ((string, string), string)
    requires IsPin(entry)
  {
    (PairOf(entry).value, TextAt(entry.fields, "hash"))
  }

  /** The later of two pins for one pair counts. */
  function PinsOf(entries: seq<Val>): map<(string, string), string>
    requires forall e | e in entries :: IsPin(e)
  {
    if entries == [] then map[]
    else
      var pin := PinOf(entries[|entries| - 1]);
      PinsOf(entries[..|entries| - 1])[pin.0 := pin.1]
  }

  predicate IsSnapshot(data: Dict) {
    && Get(data, "entries").VList? && (forall e | e in Get(data, "entries").items :: PairOf(e).Some?)
    && (|| Get(data, "definition_hash_pins").VNull?
        || (Get(data, "definition_hash_pins").VList?
            && forall e | e in Get(data, "definition_hash_pins").items :: IsPin(e)))
  }

  /** `load_capability_snapshot`, once the file has been read and its hash compared. */
  method LoadSnapshot(data: Dict) returns (r: Option<Snapshot>)
    ensures r.Some? <==> IsSnapshot(data)
    ensures r.Some? ==>
              && (forall pair :: pair in r.value.allowedPairs <==>
                    exists e :: e in Get(data, "entries").items && PairOf(e) == Some(pair))
              && r.value.pins == (if Get(data, "definition_hash_pins").VNull? then map[]
                                  else PinsOf(Get(data, "definition_hash_pins").items))
  {
    var entries := Get(data, "entries");
    if !entries.VList? {
      return None;
    }
    var pairs: set<(string, string)> := {};
    for i := 0 to |entries.items|
      invariant forall e | e in entries.items[..i] :: PairOf(e).Some?
      invariant forall pair :: pair in pairs <==> exists e :: e in entries.items[..i] && PairOf(e) == Some(pair)
    {
      var entry := entries.items[i];
      assert entry in entries.items && entries.items[..i + 1] == entries.items[..i] + [entry];
      if PairOf(entry).None? {
        return None;
      }
      pairs := pairs + {PairOf(entry).value};
    }
    assert entries.items[..|entries.items|] == entries.items;
    var raw := Get(data, "definition_hash_pins");
    if raw.VNull? {
      return Some(Snapshot(pairs, map[]));
    }
    if !raw.VList? {
      return None;
    }
    var pins := LoadPins(raw.items);
    r := if pins.None? then None else Some(Snapshot(pairs, pins.value));
  }

  method LoadPins(items: seq<Val>) returns (r: Option<map<(string, string), string>>)
    ensures r.Some? <==> forall e | e in items :: IsPin(e)
    ensures r.Some? ==> r.value == PinsOf(items)
  {
    var pins: map<(string, string), string> := map[];
    for i := 0 to |items|
      invariant forall e | e in items[..i] :: IsPin(e)
      invariant pins == PinsOf(items[..i])
    {
      var entry := items[i];
      assert entry in items && items[..i + 1] == items[..i] + [entry];
      if !IsPin(entry) {
        return None;
      }
      assert items[..i + 1][..i] == items[..i];
      pins := pins[PinOf(entry).0 := PinOf(entry).1];
    }
    assert items[..|items|] == items;
    r := Some(pins);
  }

  /** `effective_definition_hash_mode` */
  function EffectiveMode(snapshot: Snapshot, capability: string, version: Option<string>,
                         hash: Option<string>): HashMode {
    if hash.None? || hash.value == "" then Absent
    else if (Strip(capability), Strip(if version.Some? then version.value else "")) in snapshot.pins then EnforcedPinned
    else Observability
  }

  function OperationOf(capability: string): Option<Operation> {
    if capability == "memory.read" then Some(MemoryRead)
    else if capability == "memory.write" then Some(MemoryWrite)
    else None
  }

  /** `_normalize_memory_scope` */
  function ScopeField(capability: string, proposal: Dict): Check<Option<string>> {
    if OperationOf(capability).None? then Fine(None)
    else
      match Get(proposal, "payload")
      case VDict(payload) =>
        if "memory_scope" !in payload then Faulty(ScopeMissing)
        else if !payload["memory_scope"].VStr? then Faulty(ScopeWrongType)
        else
          var s := Strip(payload["memory_scope"].s);
          if s == "" then Faulty(ScopeEmpty)
          else if |s| > 256 then Faulty(ScopeTooLong)
          else Fine(Some(s))
      case _ => Faulty(ScopeMissing)
  }

  function ReceiptVersion(proposal: Dict): Option<string> {
    var s := Strip(TextAt(proposal, "capability_version"));
    if s == "" then None else Some(s)
  }

  function ReceiptHash(proposal: Dict): Option<string> {
    match Get(proposal, "capability_definition_hash")
    case VStr(raw) => Some(raw)
    case _ => None
  }

  // ----------------------------------------------------------------- registering

  datatype Slot = Slot(plugin: string, adapterId: string)

  datatype Session = Session(adapterId: string, allowed: set<string>, bundleHash: string, plugin: string)

  datatype Refusal =
    | NoBundleOracle(plugin: string)
    | BundleMismatch(expected: string, got: string)
    | UnknownPluginScope(plugin: string)
    | CapabilityEscalation(declared: set<string>, scope: set<string>)
    | NoSuchClient(claimed: string)
    | AdapterMismatch(expected: string, got: string)
    | PluginMismatch(expected: string, got: string)

  function Strings(ss: seq<string>): Val {
    VList(seq(|ss|, i requires 0 <= i < |ss| => VStr(ss[i])))
  }

  /** The dictionary whose hash a refused registration records. */
  function RefusalDict(w: World, r: Refusal): Dict {
    match r
    case NoBundleOracle(plugin) => RegisterDict("no_bundle_oracle", map["plugin" := VStr(plugin)])
    case BundleMismatch(expected, got) =>
      RegisterDict("bundle_mismatch", map["expected" := VStr(expected), "got" := VStr(got)])
    case UnknownPluginScope(plugin) => RegisterDict("unknown_plugin_scope", map["plugin" := VStr(plugin)])
    case CapabilityEscalation(declared, scope) =>
      RegisterDict("capability_escalation",
                   map["declared" := Strings(w.sorted(declared)), "allowed_scope" := Strings(w.sorted(scope))])
    case NoSuchClient(claimed) => RegisterDict("unknown_client", map["claimed_adapter_id" := VStr(claimed)])
    case AdapterMismatch(expected, got) =>
      RegisterDict("adapter_id_mismatch", map["expected" := VStr(expected), "got" := VStr(got)])
    case PluginMismatch(expected, got) =>
      RegisterDict("plugin_mismatch", map["expected" := VStr(expected), "got" := VStr(got)])
  }

  function RegisterDict(reject: string, more: Dict): Dict {
    more["kind" := VStr("register")]["reject" := VStr(reject)]
  }

  function RefusalCore(w: World, r: Refusal, client: string, adapterId: string, policyHash: string, now: string): Core {
    Core(!r.NoSuchClient?,
         if r.NoSuchClient? then None else Some(adapterId),
         "registration", w.inputHash(RefusalDict(w, r)), policyHash, now, Rejected,
         r.BundleMismatch? || r.AdapterMismatch? || r.PluginMismatch?,
         Some(if r.CapabilityEscalation? then CapabilityViolation
              else if r.NoSuchClient? then UnknownClient else PolicyViolation),
         false, client, NoExtra, None, None, None, None, None, None)
  }

  /** What a handler meets outside the proxy: the clock and the constitution resolver. */
  datatype Outside = Outside(now: string, resolved: Option<Resolved>, defaultPolicy: string)

  datatype RegisterVerdict = Drop | Refuse(core: Core) | Accept(client: string, session: Session)

  function Declared(w: World, raw: seq<Val>): set<string> {
    set v | v in raw && w.truthy(v) :: w.str(v)
  }

  datatype Attestation = Attestation(client: string, plugin: string, adapterId: string, bundle: string,
                                     capabilities: seq<Val>)

  function AttestationOf(msg: Dict): Option<Attestation> {
    if && Get(msg, "client_id").VStr? && Get(msg, "plugin").VStr? && Get(msg, "adapter_id").VStr?
       && Get(msg, "adapter_bundle_hash").VStr? && Get(msg, "declared_capabilities").VList?
    then Some(Attestation(TextAt(msg, "client_id"), TextAt(msg, "plugin"), TextAt(msg, "adapter_id"),
                          TextAt(msg, "adapter_bundle_hash"), Get(msg, "declared_capabilities").items))
    else None
  }

  /** The first frame of a connection. */
  function RegisterFrame(w: World, registry: map<string, Slot>, msg: Dict, x: Outside): RegisterVerdict {
    if Get(msg, "op") != VStr("register") || AttestationOf(msg).None? then Drop
    else
      var a := AttestationOf(msg).value;
      var declared := Declared(w, a.capabilities);
      if declared == {} then Drop
      else
        match RegisterRefusal(w, registry, a.client, a.plugin, a.adapterId, w.lower(a.bundle), declared)
        case Some(r) => Refuse(RefusalCore(w, r, a.client, a.adapterId, x.defaultPolicy, x.now))
        case None =>
          if a.plugin !in w.policy.untrusted then Drop
          else Accept(a.client, Session(a.adapterId, declared, w.lower(a.bundle), a.plugin))
  }

  function RegisterRefusal(w: World, registry: map<string, Slot>, client: string, plugin: string, adapterId: string,
                           bundle: string, declared: set<string>): Option<Refusal> {
    var scope := if plugin in w.policy.scope then w.policy.scope[plugin] else {};
    if plugin !in w.bundleHashes then Some(NoBundleOracle(plugin))
    else if bundle != w.bundleHashes[plugin] then Some(BundleMismatch(w.bundleHashes[plugin], bundle))
    else if scope == {} then Some(UnknownPluginScope(plugin))
    else if !(declared <= scope) then Some(CapabilityEscalation(declared, scope))
    else if client !in registry then Some(NoSuchClient(adapterId))
    else if adapterId != registry[client].adapterId then Some(AdapterMismatch(registry[client].adapterId, adapterId))
    else if registry[client].plugin != plugin then Some(PluginMismatch(registry[client].plugin, plugin))
    else None
  }

  // -------------------------------------------------------------------- killing

  datatype ShapeError = TagsInvalid | MetadataInvalid | MetadataNotShallow

  datatype KillReason =
    | MalformedFrame | NotAnObject | BareInvoke
    | AdmitMalformed | ContextShape(error: ShapeError) | ContextNotObject | ResolveFailed
    | NoPayload | ProposalInvalid | EdgeDenied(from: string, to: string) | Tripwire
    | ExecuteMalformed | NotAdmitted | IntentMismatch | PayloadMismatch
    | UnknownOp(op: Val)

  /** The decision reason of a kill: as given, or by what the text says. */
  function KillWhy(w: World, reason: KillReason): Reason {
    if reason.ContextShape? || reason.ContextNotObject? || reason.ExecuteMalformed?
       || reason.NotAdmitted? then PolicyViolation
    else if reason.Tripwire? || Contains(w.lower(w.killText(reason)), "adversarial") then Adversarial
    else PolicyViolation
  }

  function KillCore(w: World, client: string, session: Option<Session>, reason: KillReason, x: Outside): Core {
    var text := w.killText(reason);
    Core(session.Some?, if session.Some? then Some(session.value.adapterId) else None,
         "violation", w.inputHash(map["kill_reason" := VStr(text)]), x.defaultPolicy, x.now, Killed, true,
         Some(KillWhy(w, reason)), false, client, KillText(text), None, None, None, None, None, None)
  }

  // ------------------------------------------------------------------- admitting

  function ShapeErrorOf(ctx: Dict): Option<ShapeError> {
    var tags, metadata := Get(ctx, "tags"), Get(ctx, "metadata");
    if !tags.VNull? && !(tags.VList? && forall v | v in tags.items :: v.VStr?) then Some(TagsInvalid)
    else if metadata.VNull? then None
    else if !metadata.VDict? then Some(MetadataInvalid)
    else if exists k | k in metadata.fields :: metadata.fields[k].VDict? || metadata.fields[k].VList? then
      Some(MetadataNotShallow)
    else None
  }

  /** A non-blank string under `constitution_id`, trimmed. */
  function IdIn(d: Dict): Option<string> {
    var s := Strip(TextAt(d, "constitution_id"));
    if s == "" then None else Some(s)
  }

  function ContextOf(msg: Dict): Dict {
    match Get(msg, "context")
    case VDict(ctx) => ctx
    case _ => map[]
  }

  predicate IdsClash(msg: Dict) {
    IdIn(ContextOf(msg)).Some? && IdIn(msg).Some? && IdIn(ContextOf(msg)) != IdIn(msg)
  }

  function ClaimedId(msg: Dict): Option<string> {
    if IdIn(ContextOf(msg)).Some? then IdIn(ContextOf(msg)) else IdIn(msg)
  }

  /** An admission the membrane grants: who asked, under which session, for what. */
  datatype Admission = Admission(
    client: string,
    session: Session,
    proposal: Dict,
    resolved: Resolved,
    contextPresent: bool,
    now: string)

  datatype AdmitVerdict = KillAdmit(reason: KillReason) | Reject(core: Core) | Admit(admission: Admission)

  function AdmitFrame(w: World, client: string, session: Session, msg: Dict, x: Outside): AdmitVerdict {
    match Get(msg, "proposal")
    case VDict(proposal) =>
      var context := Get(msg, "context");
      if context.VDict? && ShapeErrorOf(context.fields).Some? then
         KillAdmit(ContextShape(ShapeErrorOf(context.fields).value))
      else if !context.VNull? && !context.VDict? then KillAdmit(ContextNotObject)
      else if IdsClash(msg) then
        Reject(AdmissionCore(w, session, client, ConstitutionIdMismatch, context.VDict?,
                             map["reject" := VStr("constitution_id_mismatch"), "proposal" := VDict(proposal)], x))
      else if ClaimedId(msg).None? then
        Reject(AdmissionCore(w, session, client, MissingConstitutionId, context.VDict?,
                             map["reject" := VStr("missing_constitution_id"), "partial" := VBool(true)], x))
      else if x.resolved.None? then KillAdmit(ResolveFailed)
      else AdmitProposal(w, Admission(client, session, proposal, x.resolved.value, context.VDict?, x.now))
    case _ => KillAdmit(AdmitMalformed)
  }

  /** The receipt of a request rejected before its proposal is looked at. */
  function AdmissionCore(w: World, session: Session, client: string, detail: Detail, contextPresent: bool,
                         subject: Dict, x: Outside): Core {
    Core(true, Some(session.adapterId), "admission", w.inputHash(subject), x.defaultPolicy, x.now, Rejected, false,
         Some(PolicyViolation), contextPresent, client, DetailOnly(detail), None, None, None, None, None, None)
  }

  predicate HasTexts(proposal: Dict) {
    && Get(proposal, "capability").VStr? && Get(proposal, "from_module").VStr?
    && Get(proposal, "to_module").VStr? && Get(proposal, "intent_id").VStr?
  }

  function AdmitProposal(w: World, a: Admission): AdmitVerdict {
    var proposal := a.proposal;
    if "payload" !in proposal then KillAdmit(NoPayload)
    else if !HasTexts(proposal) then KillAdmit(ProposalInvalid)
    else
      var capability := TextAt(proposal, "capability");
      var from, to := TextAt(proposal, "from_module"), TextAt(proposal, "to_module");
      match VersionField(proposal, w.snapshot, capability)
      case Faulty(detail) =>
        Reject(AnswerCore(w, a, Rejected, Some(PolicyViolation), true, DetailOnly(detail), None, None, None, None))
      case Fine(version) =>
        match HashField(proposal, w.snapshot, capability, version)
        case Faulty(detail) =>
          Reject(AnswerCore(w, a, Rejected, Some(PolicyViolation), true, DetailOnly(detail), None, Some(version),
                            None, None))
        case Fine(hash) =>
          var mode := Some(EffectiveMode(w.snapshot, capability, Some(version), hash));
          match ScopeField(capability, proposal)
          case Faulty(detail) =>
            Reject(AnswerCore(w, a, Rejected, Some(PolicyViolation), true, DetailOnly(detail), None, Some(version),
                              hash, mode))
          case Fine(scope) =>
            if capability !in a.session.allowed then
              Reject(AnswerCore(w, a, Rejected, Some(CapabilityViolation), false, Allowed(a.session.allowed),
                                scope, Some(version), hash, mode))
            else if !EdgeIsAllowed(w.policy, from, to) then KillAdmit(EdgeDenied(from, to))
            else if w.adversarial && (EndsWith(capability, ".evil") || w.tripwire(proposal)) then KillAdmit(Tripwire)
            else Admit(a)
  }

  predicate EndsWith(s: string, end: string) {
    |end| <= |s| && s[|s| - |end|..] == end
  }

  /** The receipt that answers an admission request once its proposal is well-formed. */
  function AnswerCore(w: World, a: Admission, decision: Decision, reason: Option<Reason>, capabilityValid: bool,
                      extra: Extra, scope: Option<string>, version: Option<string>, hash: Option<string>,
                      mode: Option<HashMode>): Core {
    var capability := TextAt(a.proposal, "capability");
    Core(true, Some(a.session.adapterId), capability, w.inputHash(a.proposal), a.resolved.policyHash, a.now,
         decision, capabilityValid, reason, a.contextPresent, a.client, extra, Some(a.resolved.constitutionId),
         scope, OperationOf(capability), version, hash, mode)
  }

  function ValueOr<T>(c: Check<T>, otherwise: T): T {
    if c.Fine? then c.value else otherwise
  }

  /** The receipt of a granted admission. */
  function AdmittedCore(w: World, a: Admission): Core {
    var capability := TextAt(a.proposal, "capability");
    var version := ValueOr(VersionField(a.proposal, w.snapshot, capability), "");
    var hash := ValueOr(HashField(a.proposal, w.snapshot, capability, version), None);
    AnswerCore(w, a, Admitted, None, true, Edge(TextAt(a.proposal, "from_module"), TextAt(a.proposal, "to_module")),
               ValueOr(ScopeField(capability, a.proposal), None), Some(version), hash,
               Some(EffectiveMode(w.snapshot, capability, Some(version), hash)))
  }

  // ------------------------------------------------------------------- executing

  /** A stored ticket. Its creation and expiry times are kept by the proxy but never looked at. */
  datatype Ticket = Ticket(
    client: string,
    adapterId: string,
    inputHash: string,
    policyHash: string,
    capability: string,
    constitutionId: string,
    admitReceiptId: string)

  function TicketOf(w: World, a: Admission, admitReceiptId: string): Ticket {
    Ticket(a.client, a.session.adapterId, w.inputHash(a.proposal), a.resolved.policyHash,
           TextAt(a.proposal, "capability"), a.resolved.constitutionId, admitReceiptId)
  }

  /** What an execute frame asks for, once its fields have the right types. */
  datatype Execution = Execution(token: string, admitReceiptId: string, proposal: Dict, envelope: Dict)

  function ExecutionOf(msg: Dict): Option<Execution> {
    if && Get(msg, "admit_ticket").VStr? && Get(msg, "admit_receipt_id").VStr?
       && Get(msg, "proposal").VDict? && Get(msg, "envelope").VDict?
    then Some(Execution(TextAt(msg, "admit_ticket"), TextAt(msg, "admit_receipt_id"),
                        Get(msg, "proposal").fields, Get(msg, "envelope").fields))
    else None
  }

  /** `Fail`: the handler raises and its connection ends without a receipt. */
  datatype ExecuteVerdict = KillExecute(reason: KillReason) | Fail | Unscoped(detail: Detail) | Invoke

  /** The checks after a ticket has been taken out of the table. */
  function ExecuteFrame(w: World, client: string, e: Execution, ticket: Ticket): ExecuteVerdict {
    if || ticket.client != client || ticket.inputHash != w.inputHash(e.proposal)
       || ticket.admitReceiptId != e.admitReceiptId
    then KillExecute(NotAdmitted)
    else if !w.sameValue(Get(e.envelope, "intentId"), Get(e.proposal, "intent_id")) then KillExecute(IntentMismatch)
    else if "payload" !in e.proposal then Fail
    else if w.dumps(Get(e.envelope, "payload")) != w.dumps(e.proposal["payload"]) then KillExecute(PayloadMismatch)
    else
      match ScopeField(ticket.capability, e.proposal)
      case Faulty(detail) => Unscoped(detail)
      case Fine(_) => Invoke
  }

  /** The receipt of a redeemed ticket: after Gold, or instead of it. */
  function OutcomeCore(w: World, client: string, session: Session, ticket: Ticket, proposal: Dict, extra: Extra,
                       now: string): Core {
    var rejected := !(extra.GoldOutcome? && extra.ok);
    Core(true, Some(session.adapterId), ticket.capability, ticket.inputHash, ticket.policyHash, now,
         if rejected then Rejected else Executed, true,
         if extra.ScopeOutcome? then Some(PolicyViolation) else None, false, client, extra,
         Some(ticket.constitutionId), ValueOr(ScopeField(ticket.capability, proposal), None),
         OperationOf(ticket.capability), ReceiptVersion(proposal), ReceiptHash(proposal),
         Some(EffectiveMode(w.snapshot, ticket.capability, ReceiptVersion(proposal), ReceiptHash(proposal))))
  }
}
