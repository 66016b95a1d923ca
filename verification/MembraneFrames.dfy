/** What each frame of a connection leads to, and what the receipts of the membrane hold, field by field. */
module MembraneFrames {
  import opened Texts
  import opened MembraneRules
  import opened MembraneSteps
  import opened MembraneRuns
  import MembraneVerdicts

  // -------------------------------------------------------------------------- strings

  /** The 29 characters that Python's `str.strip` takes for white space. */
  lemma WhitespaceIsListed(c: char)
    ensures IsWhitespace(c) <==>
            c as int in [9, 10, 11, 12, 13, 28, 29, 30, 31, 32, 133, 160, 5760, 8192, 8193, 8194, 8195, 8196, 8197,
                         8198, 8199, 8200, 8201, 8202, 8232, 8233, 8239, 8287, 12288]
  {
  }

  predicate Blank(s: string) {
    forall i | 0 <= i < |s| :: IsWhitespace(s[i])
  }

  /** What is left of the text without the white space at its ends. */
  ghost predicate IsStripped(t: string, s: string) {
    && (t != "" ==> !IsWhitespace(t[0]) && !IsWhitespace(t[|t| - 1]))
    && exists before, after :: s == before + t + after && Blank(before) && Blank(after)
  }

  lemma {:induction false} LeftIsBlank(s: string) returns (before: string)
    ensures s == before + StripLeft(s) && Blank(before)
  {
    if s != [] && IsWhitespace(s[0]) {
      before := LeftIsBlank(s[1..]);
      before := [s[0]] + before;
    } else {
      before := [];
    }
  }

  lemma {:induction false} RightIsBlank(s: string) returns (after: string)
    ensures s == StripRight(s) + after && Blank(after)
  {
    if s != [] && IsWhitespace(s[|s| - 1]) {
      after := RightIsBlank(s[..|s| - 1]);
      after := after + [s[|s| - 1]];
    } else {
      after := [];
    }
  }

  lemma StripIsStripped(s: string)
    ensures IsStripped(Strip(s), s)
    ensures Strip(s) == "" <==> Blank(s)
  {
    var before := LeftIsBlank(s);
    var after := RightIsBlank(StripLeft(s));
    assert s == before + Strip(s) + after;
    if Strip(s) != "" {
      assert s[|before|] == Strip(s)[0] == StripLeft(s)[0];
    }
  }

  lemma ContainsIff(s: string, part: string)
    ensures Contains(s, part) <==> exists before, after :: s == before + part + after
  {
    if Contains(s, part) {
      var i :| 0 <= i <= |s| && part <= s[i..];
      assert s == s[..i] + part + s[i + |part|..];
    }
    if before, after :| s == before + part + after {
      assert part <= s[|before|..];
    }
  }

  // ---------------------------------------------------------------------- field checks

  /** A value that is not there counts as null. */
  predicate Lacks(d: Dict, key: string) {
    key !in d || d[key].VNull?
  }

  predicate HasText(d: Dict, key: string) {
    key in d && d[key].VStr?
  }

  predicate IsMemory(capability: string) {
    capability in ["memory.read", "memory.write"]
  }

  lemma VersionTells(proposal: Dict, snapshot: Snapshot, capability: string)
    ensures var v := VersionField(proposal, snapshot, capability);
            var key := "capability_version";
            if Lacks(proposal, key) || (HasText(proposal, key) && Blank(proposal[key].s)) then
              v == Faulty(VersionMissing)
            else if !HasText(proposal, key) || |Strip(proposal[key].s)| > 256 then v == Faulty(VersionInvalid)
            else if (capability, Strip(proposal[key].s)) !in snapshot.allowedPairs then v == Faulty(VersionNotListed)
            else v == Fine(Strip(proposal[key].s))
  {
    if HasText(proposal, "capability_version") {
      StripIsStripped(proposal["capability_version"].s);
    }
    hide Strip, Blank, IsStripped;
  }

  predicate IsTagged(s: string) {
    |s| == 71 && s[..7] == "sha256:" && forall i | 7 <= i < 71 :: s[i] in "0123456789abcdef"
  }

  lemma TaggedIff(s: string)
    ensures IsDefinitionHash(s) <==> IsTagged(s)
  {
    assert forall c: char :: IsHex(c) <==> c in "0123456789abcdef";
    hide IsHex;
  }

  lemma HashTells(proposal: Dict, snapshot: Snapshot, capability: string, version: string)
    ensures var h := HashField(proposal, snapshot, capability, version);
            var key, pair := "capability_definition_hash", (capability, version);
            if Lacks(proposal, key) then h == Fine(None)
            else if !HasText(proposal, key) then h == Faulty(HashInvalid)
            else if !IsTagged(proposal[key].s) then h == Faulty(HashMalformed)
            else if pair in snapshot.pins && snapshot.pins[pair] != proposal[key].s then h == Faulty(HashMismatch)
            else h == Fine(Some(proposal[key].s))
  {
    if HasText(proposal, "capability_definition_hash") {
      TaggedIff(proposal["capability_definition_hash"].s);
    }
    hide IsDefinitionHash, IsTagged;
  }

  lemma OperationTells(capability: string)
    ensures OperationOf(capability) == Some(MemoryRead) <==> capability == "memory.read"
    ensures OperationOf(capability) == Some(MemoryWrite) <==> capability == "memory.write"
    ensures OperationOf(capability).None? <==> !IsMemory(capability)
  {
    assert "memory.read"[7] != "memory.write"[7];
  }

  lemma ScopeTells(capability: string, proposal: Dict)
    ensures var f := ScopeField(capability, proposal);
            if !IsMemory(capability) then f == Fine(None)
            else if !("payload" in proposal && proposal["payload"].VDict?) then f == Faulty(ScopeMissing)
            else
              var payload := proposal["payload"].fields;
              if "memory_scope" !in payload then f == Faulty(ScopeMissing)
              else if !payload["memory_scope"].VStr? then f == Faulty(ScopeWrongType)
              else if Blank(payload["memory_scope"].s) then f == Faulty(ScopeEmpty)
              else if |Strip(payload["memory_scope"].s)| > 256 then f == Faulty(ScopeTooLong)
              else f == Fine(Some(Strip(payload["memory_scope"].s)))
  {
    OperationTells(capability);
    if "payload" in proposal && proposal["payload"].VDict? && HasText(proposal["payload"].fields, "memory_scope") {
      StripIsStripped(proposal["payload"].fields["memory_scope"].s);
    }
    hide OperationOf, IsMemory, Strip, Blank, IsStripped;
  }

  // -------------------------------------------------------------------------- snapshots

  lemma PairTells(entry: Val, capability: string, version: string)
    ensures PairOf(entry) == Some((capability, version)) <==>
            && entry.VDict? && HasText(entry.fields, "capability") && HasText(entry.fields, "version")
            && capability != "" && capability == Strip(entry.fields["capability"].s)
            && version != "" && version == Strip(entry.fields["version"].s)
  {
    hide Strip;
  }

  /** The entry pins this hash for the pair. */
  predicate Pins(entry: Val, pair: (string, string), hash: string) {
    PairOf(entry) == Some(pair) && entry.VDict? && HasText(entry.fields, "hash") && entry.fields["hash"].s == hash
  }

  /** The pin that counts for a pair is the last one given for it. */
  lemma {:induction false} LastPinCounts(entries: seq<Val>, pair: (string, string), hash: string)
    requires forall e | e in entries :: IsPin(e)
    ensures pair in PinsOf(entries) && PinsOf(entries)[pair] == hash <==>
            exists i | 0 <= i < |entries| ::
              Pins(entries[i], pair, hash) && forall k | i < k < |entries| :: PairOf(entries[k]) != Some(pair)
  {
    hide PairOf, IsDefinitionHash;
    if entries != [] {
      var n := |entries| - 1;
      var last := entries[n];
      assert last in entries;
      TextIsGiven(last);
      LastPinCounts(entries[..n], pair, hash);
      if PairOf(last) == Some(pair) {
        assert PinOf(last).1 == hash ==> Pins(entries[n], pair, hash);
      } else {
        if i :| 0 <= i < n && Pins(entries[..n][i], pair, hash)
                && forall k | i < k < n :: PairOf(entries[..n][k]) != Some(pair) {
          assert Pins(entries[i], pair, hash);
          assert forall k | i < k < |entries| :: k == n || entries[k] == entries[..n][k];
        }
        if i :| 0 <= i < |entries| && Pins(entries[i], pair, hash)
                && forall k | i < k < |entries| :: PairOf(entries[k]) != Some(pair) {
          assert i < n && Pins(entries[..n][i], pair, hash);
          assert forall k | i < k < n :: entries[..n][k] == entries[k];
        }
      }
    }
  }

  lemma TextIsGiven(e: Val)
    requires IsPin(e)
    ensures e.VDict? && HasText(e.fields, "hash") && TextAt(e.fields, "hash") == e.fields["hash"].s
    ensures forall pair, hash :: Pins(e, pair, hash) <==> PinOf(e) == (pair, hash)
  {
  }

  /** A pin names a pair and a well-formed hash. */
  lemma PinIff(e: Val)
    ensures IsPin(e) <==> PairOf(e).Some? && e.VDict? && HasText(e.fields, "hash") && IsTagged(e.fields["hash"].s)
  {
    TaggedIff(TextAt(if e.VDict? then e.fields else map[], "hash"));
  }

  // -------------------------------------------------------------------------- admitting

  /** The proposal has a payload and the four texts. */
  predicate IsFormed(p: Dict) {
    && "payload" in p && HasText(p, "capability") && HasText(p, "from_module") && HasText(p, "to_module")
    && HasText(p, "intent_id")
  }

  /** What the policy asks of a proposal, in terms of its fields. */
  predicate MayBeAdmitted(w: World, session: Session, p: Dict) {
    && IsFormed(p) && HasText(p, "capability_version")
    && var capability, version := p["capability"].s, Strip(p["capability_version"].s);
       && 1 <= |version| <= 256 && (capability, version) in w.snapshot.allowedPairs
       && (Lacks(p, "capability_definition_hash")
           || (HasText(p, "capability_definition_hash") && IsTagged(p["capability_definition_hash"].s)
               && ((capability, version) in w.snapshot.pins ==>
                     w.snapshot.pins[(capability, version)] == p["capability_definition_hash"].s)))
       && (IsMemory(capability) ==>
             && p["payload"].VDict? && HasText(p["payload"].fields, "memory_scope")
             && 1 <= |Strip(p["payload"].fields["memory_scope"].s)| <= 256)
       && capability in session.allowed
       && p["from_module"].s in w.policy.nodeIds && p["to_module"].s in w.policy.nodeIds
       && (p["from_module"].s, p["to_module"].s) in w.policy.allowlist
       && !(w.adversarial && (IsEvil(capability) || w.tripwire(p)))
  }

  /** The name ends in `.evil`. */
  predicate IsEvil(capability: string) {
    |capability| >= 5 && capability == capability[..|capability| - 5] + ".evil"
  }

  lemma EvilIff(capability: string)
    ensures EndsWith(capability, ".evil") <==> IsEvil(capability)
  {
    var n := |capability| - 5;
    if n >= 0 {
      assert capability == capability[..n] + capability[n..];
      assert IsEvil(capability) ==> capability[n..] == ".evil";
    }
  }

  /** A proposal passes all checks exactly when its fields are as the policy asks. */
  lemma AdmittedIff(w: World, a: Admission)
    ensures AdmitProposal(w, a) == Admit(a) <==> MayBeAdmitted(w, a.session, a.proposal)
  {
    ProposalIsAdmittedIffAdmissible(w, a);
    var p := a.proposal;
    if HasText(p, "capability") {
      EvilIff(p["capability"].s);
      OperationTells(p["capability"].s);
    }
    if HasText(p, "capability_definition_hash") {
      TaggedIff(p["capability_definition_hash"].s);
    }
    hide AdmitProposal, Strip, EndsWith, IsEvil, IsTagged, IsDefinitionHash, OperationOf, IsMemory;
  }

  /** The context is absent or an object of the allowed shape. */
  predicate ContextIsFine(msg: Dict) {
    Lacks(msg, "context") || (msg["context"].VDict? && HasShape(msg["context"].fields))
  }

  /** Tags are strings, and metadata is an object without objects or lists in it. */
  predicate HasShape(ctx: Dict) {
    && (Lacks(ctx, "tags") || (ctx["tags"].VList? && forall v | v in ctx["tags"].items :: v.VStr?))
    && (Lacks(ctx, "metadata")
        || (ctx["metadata"].VDict?
            && forall k | k in ctx["metadata"].fields ::
                 !ctx["metadata"].fields[k].VDict? && !ctx["metadata"].fields[k].VList?))
  }

  lemma ShapeIff(ctx: Dict)
    ensures ShapeErrorOf(ctx).None? <==> HasShape(ctx)
    ensures ShapeErrorOf(ctx) == Some(TagsInvalid) <==>
            !Lacks(ctx, "tags") && !(ctx["tags"].VList? && forall v | v in ctx["tags"].items :: v.VStr?)
    ensures ShapeErrorOf(ctx) == Some(MetadataInvalid) ==> !Lacks(ctx, "metadata") && !ctx["metadata"].VDict?
    ensures ShapeErrorOf(ctx) == Some(MetadataNotShallow) ==> !Lacks(ctx, "metadata") && ctx["metadata"].VDict?
  {
  }

  /** A constitution id is given under this dictionary: a text that is not blank. */
  predicate GivesId(d: Dict) {
    HasText(d, "constitution_id") && !Blank(d["constitution_id"].s)
  }

  lemma IdTells(d: Dict)
    ensures IdIn(d) == if GivesId(d) then Some(Strip(d["constitution_id"].s)) else None
  {
    if HasText(d, "constitution_id") {
      StripIsStripped(d["constitution_id"].s);
    }
    hide Strip, Blank, IsStripped;
  }

  predicate ContextGivesId(msg: Dict) {
    "context" in msg && msg["context"].VDict? && GivesId(msg["context"].fields)
  }

  /** Context and message give two constitution ids that differ. */
  predicate GivesTwoIds(msg: Dict) {
    && ContextGivesId(msg) && GivesId(msg)
    && Strip(msg["context"].fields["constitution_id"].s) != Strip(msg["constitution_id"].s)
  }

  /**
   What becomes of an admit frame: the first check that fails decides. The policy is asked only once the request
   gives one constitution id and it resolves.
   */
  lemma AdmitTells(w: World, client: string, session: Session, msg: Dict, x: Outside)
    ensures var v := AdmitFrame(w, client, session, msg, x);
            var contextPresent := "context" in msg && msg["context"].VDict?;
            if !("proposal" in msg && msg["proposal"].VDict?) then v == KillAdmit(AdmitMalformed)
            else if contextPresent && !HasShape(msg["context"].fields) then
              v.KillAdmit? && v.reason.ContextShape? && ShapeErrorOf(msg["context"].fields) == Some(v.reason.error)
            else if !Lacks(msg, "context") && !contextPresent then v == KillAdmit(ContextNotObject)
            else if GivesTwoIds(msg) then
              v.Reject? && IsEarlyReject(w, client, session, x, contextPresent, ConstitutionIdMismatch, v.core)
              && v.core.inputHash == w.inputHash(map["reject" := VStr("constitution_id_mismatch"),
                                                     "proposal" := msg["proposal"]])
            else if !ContextGivesId(msg) && !GivesId(msg) then
              v.Reject? && IsEarlyReject(w, client, session, x, contextPresent, MissingConstitutionId, v.core)
              && v.core.inputHash == w.inputHash(map["reject" := VStr("missing_constitution_id"),
                                                     "partial" := VBool(true)])
            else if x.resolved.None? then v == KillAdmit(ResolveFailed)
            else v == AdmitProposal(w, Admission(client, session, msg["proposal"].fields, x.resolved.value,
                                                 contextPresent, x.now))
  {
    IdTells(msg);
    if "context" in msg && msg["context"].VDict? {
      IdTells(msg["context"].fields);
      ShapeIff(msg["context"].fields);
    } else {
      IdTells(map[]);
    }
    hide AdmitProposal, IdIn, ShapeErrorOf, HasShape, GivesId, Strip;
  }

  /** The receipt of a request rejected before its proposal is looked at. */
  ghost predicate IsEarlyReject(w: World, client: string, session: Session, x: Outside, contextPresent: bool,
                                detail: Detail, core: Core) {
    && core.trusted && core.adapterId == Some(session.adapterId) && core.capability == "admission"
    && core.policyHash == x.defaultPolicy && core.timestamp == x.now && core.decision.Rejected? && !core.capabilityValid
    && core.reason == Some(PolicyViolation) && core.contextPresent == contextPresent && core.clientId == client
    && core.extra == DetailOnly(detail) && core.constitutionId.None? && core.memoryScope.None?
    && core.memoryOperation.None? && core.version.None? && core.definitionHash.None? && core.mode.None?
  }

  /** The receipt names the proposal, the client's session and the constitution it was judged under. */
  ghost predicate NamesRequest(w: World, a: Admission, core: Core) {
    && core.trusted && core.adapterId == Some(a.session.adapterId) && core.clientId == a.client
    && HasText(a.proposal, "capability") && core.capability == a.proposal["capability"].s
    && core.inputHash == w.inputHash(a.proposal) && core.policyHash == a.resolved.policyHash
    && core.constitutionId == Some(a.resolved.constitutionId) && core.timestamp == a.now
    && core.contextPresent == a.contextPresent
    && (core.memoryOperation == Some(MemoryRead) <==> core.capability == "memory.read")
    && (core.memoryOperation == Some(MemoryWrite) <==> core.capability == "memory.write")
    && (core.memoryOperation.None? <==> !IsMemory(core.capability))
  }

  /** What a well-formed proposal is rejected for: the first field that is at fault, or a capability not declared. */
  ghost predicate IsLateReject(w: World, a: Admission, core: Core)
    requires IsFormed(a.proposal)
  {
    var capability := a.proposal["capability"].s;
    var version := VersionField(a.proposal, w.snapshot, capability);
    && NamesRequest(w, a, core) && core.decision.Rejected?
    && if version.Faulty? then
         && core.reason == Some(PolicyViolation) && core.capabilityValid && core.extra == DetailOnly(version.detail)
         && core.version.None? && core.definitionHash.None? && core.mode.None? && core.memoryScope.None?
       else
         var hash, scope := HashField(a.proposal, w.snapshot, capability, version.value),
                            ScopeField(capability, a.proposal);
         && core.version == Some(version.value)
         && if hash.Faulty? then
              && core.reason == Some(PolicyViolation) && core.capabilityValid && core.extra == DetailOnly(hash.detail)
              && core.definitionHash.None? && core.mode.None? && core.memoryScope.None?
            else
              && core.definitionHash == hash.value && core.mode.Some?
              && if scope.Faulty? then
                   && core.reason == Some(PolicyViolation) && core.capabilityValid
                   && core.extra == DetailOnly(scope.detail) && core.memoryScope.None?
                 else
                   && core.reason == Some(CapabilityViolation) && !core.capabilityValid
                   && core.extra == Allowed(a.session.allowed) && core.memoryScope == scope.value
                   && capability !in a.session.allowed
  }

  /**
   What becomes of a proposal: refused unread, rejected by a receipt, killed for its edge or the tripwire, or
   admitted.
   */
  lemma ProposalTells(w: World, a: Admission)
    ensures var v, p := AdmitProposal(w, a), a.proposal;
            && (v == KillAdmit(NoPayload) <==> "payload" !in p)
            && (v == KillAdmit(ProposalInvalid) <==> "payload" in p && !IsFormed(p))
            && (v.Reject? ==> IsFormed(p) && IsLateReject(w, a, v.core))
            && (v.KillAdmit? && IsFormed(p) ==>
                  && p["capability"].s in a.session.allowed
                  && VersionField(p, w.snapshot, p["capability"].s).Fine?
                  && ScopeField(p["capability"].s, p).Fine?
                  && if EdgeIsAllowed(w.policy, p["from_module"].s, p["to_module"].s) then v.reason == Tripwire
                     else v.reason == EdgeDenied(p["from_module"].s, p["to_module"].s))
  {
    ProposalKills(w, a);
    if AdmitProposal(w, a).Reject? {
      ProposalRejects(w, a);
    }
    hide AdmitProposal, VersionField, ScopeField, EdgeIsAllowed, IsLateReject, IsFormed;
  }

  lemma ProposalRejects(w: World, a: Admission)
    requires AdmitProposal(w, a).Reject?
    ensures IsFormed(a.proposal) && IsLateReject(w, a, AdmitProposal(w, a).core)
  {
    var p := a.proposal;
    var capability := p["capability"].s;
    var version := VersionField(p, w.snapshot, capability);
    if version.Faulty? {
      AnswerTells(w, a, Rejected, Some(PolicyViolation), true, DetailOnly(version.detail), None, None, None, None);
    } else {
      var v := Some(version.value);
      var hash, scope := HashField(p, w.snapshot, capability, version.value), ScopeField(capability, p);
      if hash.Faulty? {
        AnswerTells(w, a, Rejected, Some(PolicyViolation), true, DetailOnly(hash.detail), None, v, None, None);
      } else {
        var mode := Some(EffectiveMode(w.snapshot, capability, v, hash.value));
        if scope.Faulty? {
          AnswerTells(w, a, Rejected, Some(PolicyViolation), true, DetailOnly(scope.detail), None, v, hash.value, mode);
        } else {
          AnswerTells(w, a, Rejected, Some(CapabilityViolation), false, Allowed(a.session.allowed), scope.value, v,
                      hash.value, mode);
        }
      }
    }
    hide VersionField, HashField, ScopeField, EffectiveMode, EdgeIsAllowed, EndsWith, NamesRequest, AnswerCore;
  }

  /** An answer names its request and holds what it is given. */
  lemma AnswerTells(w: World, a: Admission, decision: Decision, reason: Option<Reason>, valid: bool, extra: Extra,
                    scope: Option<string>, version: Option<string>, hash: Option<string>, mode: Option<HashMode>)
    requires HasText(a.proposal, "capability")
    ensures var core := AnswerCore(w, a, decision, reason, valid, extra, scope, version, hash, mode);
            && NamesRequest(w, a, core) && core.decision == decision && core.reason == reason
            && core.capabilityValid == valid && core.extra == extra && core.memoryScope == scope
            && core.version == version && core.definitionHash == hash && core.mode == mode
  {
    OperationTells(a.proposal["capability"].s);
    hide OperationOf, IsMemory;
  }

  lemma ProposalKills(w: World, a: Admission)
    ensures var v, p := AdmitProposal(w, a), a.proposal;
            && (v == KillAdmit(NoPayload) <==> "payload" !in p)
            && (v == KillAdmit(ProposalInvalid) <==> "payload" in p && !IsFormed(p))
            && (v.Reject? ==> IsFormed(p))
            && (v.KillAdmit? && IsFormed(p) ==>
                  && p["capability"].s in a.session.allowed
                  && VersionField(p, w.snapshot, p["capability"].s).Fine?
                  && ScopeField(p["capability"].s, p).Fine?
                  && if EdgeIsAllowed(w.policy, p["from_module"].s, p["to_module"].s) then v.reason == Tripwire
                     else v.reason == EdgeDenied(p["from_module"].s, p["to_module"].s))
  {
    hide VersionField, HashField, ScopeField, EffectiveMode, OperationOf, EdgeIsAllowed, EndsWith, AnswerCore;
  }

  /** Over every run, a receipt made for an admission tells it, with everything the checks found. */
  lemma AdmittedReceiptsTell(w: World, registry: map<string, Slot>, head: string, es: seq<Event>, i: nat)
    requires i < |Run(w, Start(registry, head), es).history|
    requires Run(w, Start(registry, head), es).history[i].cause.ForAdmission?
    ensures var entry := Run(w, Start(registry, head), es).history[i];
            var a, core := entry.cause.admission, entry.receipt.core;
            && MayBeAdmitted(w, a.session, a.proposal) && NamesRequest(w, a, core)
            && core.decision.Admitted? && core.reason.None? && core.capabilityValid
            && core.extra == Edge(a.proposal["from_module"].s, a.proposal["to_module"].s)
            && core.version == Some(Strip(a.proposal["capability_version"].s))
            && core.definitionHash == (if Lacks(a.proposal, "capability_definition_hash") then None
                                       else Some(TextAt(a.proposal, "capability_definition_hash")))
            && core.memoryScope == (if !IsMemory(core.capability) then None
                                    else Some(Strip(TextAt(a.proposal["payload"].fields, "memory_scope"))))
  {
    RunsKeep(w, registry, head, es);
    var s := Run(w, Start(registry, head), es);
    hide Run;
    CauseIsAdmission(w, s, i);
    AdmittedCoreTells(w, s.history[i].cause.admission);
    hide *;
  }

  lemma CauseIsAdmission(w: World, s: State, i: nat)
    requires Invariant(w, s) && i < |s.history| && s.history[i].cause.ForAdmission?
    ensures GrantsAdmission(w, s.history[i].cause.admission, s.history[i].receipt.core)
  {
    hide Invariant, GrantsAdmission;
    EntryIsOk(w, s, i);
  }

  lemma AdmittedCoreTells(w: World, a: Admission)
    requires Admissible(w, a.session, a.proposal)
    ensures var core := AdmittedCore(w, a);
            && MayBeAdmitted(w, a.session, a.proposal) && NamesRequest(w, a, core)
            && core.decision.Admitted? && core.reason.None? && core.capabilityValid
            && core.extra == Edge(a.proposal["from_module"].s, a.proposal["to_module"].s)
            && core.version == Some(Strip(a.proposal["capability_version"].s))
            && core.definitionHash == (if Lacks(a.proposal, "capability_definition_hash") then None
                                       else Some(TextAt(a.proposal, "capability_definition_hash")))
            && core.memoryScope == (if !IsMemory(core.capability) then None
                                    else Some(Strip(TextAt(a.proposal["payload"].fields, "memory_scope"))))
  {
    ProposalIsAdmittedIffAdmissible(w, a);
    AdmittedIff(w, a);
    var p := a.proposal;
    var capability := p["capability"].s;
    OperationTells(capability);
    VersionIffListed(w, p, capability);
    HashTells(p, w.snapshot, capability, Strip(p["capability_version"].s));
    HashIffPinned(w, p, capability, Strip(p["capability_version"].s));
    ScopeTells(capability, p);
    ScopeIffGiven(p, capability);
    hide AdmitProposal, VersionField, HashField, ScopeField, EffectiveMode, OperationOf, Strip, Admissible, ScopeGiven,
         PinRespected, IsTagged, Blank;
  }

  // -------------------------------------------------------------------------- executing

  /** The ticket was issued to this client, for this proposal, with this receipt. */
  predicate IsFor(w: World, client: string, e: Execution, ticket: Ticket) {
    ticket.client == client && ticket.inputHash == w.inputHash(e.proposal) && ticket.admitReceiptId == e.admitReceiptId
  }

  predicate IntentsMatch(w: World, e: Execution) {
    w.sameValue(Get(e.envelope, "intentId"), Get(e.proposal, "intent_id"))
  }

  predicate PayloadsMatch(w: World, e: Execution)
    requires "payload" in e.proposal
  {
    w.dumps(if "payload" in e.envelope then e.envelope["payload"] else VNull) == w.dumps(e.proposal["payload"])
  }

  /**
   Gold is called exactly when the ticket is for this client, proposal and receipt, intent and payload of the
   envelope are those of the proposal, and the memory scope, where one is needed, is given. Otherwise the first check
   that fails decides.
   */
  lemma ExecutionTells(w: World, client: string, e: Execution, ticket: Ticket)
    ensures var v := ExecuteFrame(w, client, e, ticket);
            && (v.Invoke? <==>
                  && IsFor(w, client, e, ticket) && IntentsMatch(w, e) && "payload" in e.proposal && PayloadsMatch(w, e)
                  && ScopeGiven(e.proposal, ticket.capability))
            && (v == KillExecute(NotAdmitted) <==> !IsFor(w, client, e, ticket))
            && (v == KillExecute(IntentMismatch) <==> IsFor(w, client, e, ticket) && !IntentsMatch(w, e))
            && (v.Fail? <==> IsFor(w, client, e, ticket) && IntentsMatch(w, e) && "payload" !in e.proposal)
            && (v == KillExecute(PayloadMismatch) <==>
                  && IsFor(w, client, e, ticket) && IntentsMatch(w, e) && "payload" in e.proposal
                  && !PayloadsMatch(w, e))
            && (v.Unscoped? ==> ScopeField(ticket.capability, e.proposal) == Faulty(v.detail))
  {
    ScopeIffGiven(e.proposal, ticket.capability);
    hide ScopeField, ScopeGiven;
  }

  /** The frame has an admit ticket, a receipt id, a proposal and an envelope of the right types. */
  predicate IsTyped(msg: Dict) {
    && HasText(msg, "admit_ticket") && HasText(msg, "admit_receipt_id")
    && "proposal" in msg && msg["proposal"].VDict? && "envelope" in msg && msg["envelope"].VDict?
  }

  lemma TypedIff(msg: Dict)
    ensures ExecutionOf(msg) == if IsTyped(msg) then
                                  Some(Execution(msg["admit_ticket"].s, msg["admit_receipt_id"].s,
                                                 msg["proposal"].fields, msg["envelope"].fields))
                                else None
  {
  }

  /** An execute frame leads to Gold exactly when its ticket is live and all checks pass; the ticket is then used up. */
  lemma GoldIsCalledIff(w: World, s: State, c: nat, client: string, session: Session, msg: Dict, x: Outside)
    requires c in s.conns && s.conns[c] == Idle(client, session) && TextAt(msg, "op") == "execute"
    ensures var s' := Step(w, s, Receive(c, Message(msg), x));
            && c in s'.conns
            && (s'.conns[c].Calling? <==>
                  && IsTyped(msg)
                  && var e := ExecutionOf(msg).value;
                     && e.token in s.tables.tickets
                     && var ticket := s.tables.tickets[e.token];
                        && IsFor(w, client, e, ticket) && IntentsMatch(w, e) && "payload" in e.proposal
                        && PayloadsMatch(w, e) && ScopeGiven(e.proposal, ticket.capability))
            && (s'.conns[c].Calling? ==>
                  s'.conns[c].redemption == Redemption(client, session, s.tables.tickets[msg["admit_ticket"].s],
                                                       ExecutionOf(msg).value))
            && s'.tables.tickets == (if IsTyped(msg) then s.tables.tickets - {msg["admit_ticket"].s}
                                     else s.tables.tickets)
  {
    TypedIff(msg);
    var s' := Step(w, s, Receive(c, Message(msg), x));
    assert Get(msg, "op") == VStr("execute") && "execute"[0] != "admit"[0] && "execute"[0] != "invoke"[0];
    assert s' == ReceiveExecute(w, s, c, client, session, msg, x);
    ExecuteLeadsTo(w, s, c, client, session, msg, x);
    hide *;
  }

  lemma ExecuteLeadsTo(w: World, s: State, c: nat, client: string, session: Session, msg: Dict, x: Outside)
    ensures var s' := ReceiveExecute(w, s, c, client, session, msg, x);
            && c in s'.conns
            && (s'.conns[c].Calling? <==>
                  && IsTyped(msg)
                  && var e := ExecutionOf(msg).value;
                     && e.token in s.tables.tickets
                     && var ticket := s.tables.tickets[e.token];
                        && IsFor(w, client, e, ticket) && IntentsMatch(w, e) && "payload" in e.proposal
                        && PayloadsMatch(w, e) && ScopeGiven(e.proposal, ticket.capability))
            && (s'.conns[c].Calling? ==>
                  s'.conns[c].redemption == Redemption(client, session, s.tables.tickets[msg["admit_ticket"].s],
                                                       ExecutionOf(msg).value))
            && s'.tables.tickets == (if IsTyped(msg) then s.tables.tickets - {msg["admit_ticket"].s}
                                     else s.tables.tickets)
  {
    TypedIff(msg);
    if IsTyped(msg) {
      var e := ExecutionOf(msg).value;
      if e.token in s.tables.tickets {
        ExecutionTells(w, client, e, s.tables.tickets[e.token]);
      } else {
        assert s.tables.tickets - {e.token} == s.tables.tickets;
      }
    }
    hide IsTyped, ExecutionOf, ExecuteFrame, IsFor, IntentsMatch, PayloadsMatch, ScopeGiven, OutcomeCore;
  }

  /** Over every run, an outcome receipt tells the ticket it used up and the proposal that was executed. */
  lemma OutcomeReceiptsTell(w: World, registry: map<string, Slot>, head: string, es: seq<Event>, i: nat)
    requires i < |Run(w, Start(registry, head), es).history|
    requires Run(w, Start(registry, head), es).history[i].cause.ForRedemption?
    ensures var entry := Run(w, Start(registry, head), es).history[i];
            NamesRedemption(w, entry.cause.redemption, entry.receipt.core)
  {
    RunsKeep(w, registry, head, es);
    var s := Run(w, Start(registry, head), es);
    hide Run;
    CauseIsRedemption(w, s, i);
    RedemptionTells(w, s.history[i].cause.redemption, s.history[i].receipt.core);
    hide *;
  }

  /** The receipt names the client, its session, the ticket's admission and the proposal. */
  ghost predicate NamesRedemption(w: World, r: Redemption, core: Core) {
    var p := r.execution.proposal;
    && core.trusted && core.adapterId == Some(r.session.adapterId) && core.clientId == r.client
    && core.capability == r.ticket.capability && core.inputHash == r.ticket.inputHash
    && core.policyHash == r.ticket.policyHash && core.constitutionId == Some(r.ticket.constitutionId)
    && core.capabilityValid && !core.contextPresent
    && (core.extra.GoldOutcome? ==> core.reason.None? && core.extra.admitReceiptId == r.ticket.admitReceiptId)
    && (!core.extra.GoldOutcome? ==>
          && core.reason == Some(PolicyViolation) && core.memoryScope.None?
          && core.extra.ScopeOutcome? && core.extra.admitReceiptId == r.ticket.admitReceiptId
          && ScopeField(core.capability, p) == Faulty(core.extra.detail))
    && (core.memoryOperation == Some(MemoryRead) <==> core.capability == "memory.read")
    && (core.memoryOperation == Some(MemoryWrite) <==> core.capability == "memory.write")
    && core.version == (if HasText(p, "capability_version") && !Blank(p["capability_version"].s)
                        then Some(Strip(p["capability_version"].s)) else None)
    && core.definitionHash == (if HasText(p, "capability_definition_hash")
                               then Some(p["capability_definition_hash"].s) else None)
    && (core.mode == Some(HashMode.Absent) <==> core.definitionHash.None? || core.definitionHash == Some(""))
    && (core.extra.GoldOutcome? ==> (core.memoryScope.Some? <==> IsMemory(core.capability)))
  }

  lemma CauseIsRedemption(w: World, s: State, i: nat)
    requires Invariant(w, s) && i < |s.history| && s.history[i].cause.ForRedemption?
    ensures TellsOutcome(w, s.history[i].cause.redemption, s.history[i].receipt.core)
  {
    hide Invariant, TellsOutcome, RedemptionOk;
    EntryIsOk(w, s, i);
  }

  lemma RedemptionTells(w: World, r: Redemption, core: Core)
    requires TellsOutcome(w, r, core)
    ensures NamesRedemption(w, r, core)
  {
    var p := r.execution.proposal;
    OperationTells(r.ticket.capability);
    ScopeTells(r.ticket.capability, p);
    if HasText(p, "capability_version") {
      StripIsStripped(p["capability_version"].s);
    } else {
      StripIsStripped("");
    }
    hide ScopeField, OperationOf, Strip, Blank, IsStripped, IsMemory;
  }

  /** A ticket is made for its admission. */
  lemma TicketTells(w: World, a: Admission, admitReceiptId: string)
    requires HasText(a.proposal, "capability")
    ensures var t := TicketOf(w, a, admitReceiptId);
            && t.client == a.client && t.adapterId == a.session.adapterId && t.inputHash == w.inputHash(a.proposal)
            && t.policyHash == a.resolved.policyHash && t.capability == a.proposal["capability"].s
            && t.constitutionId == a.resolved.constitutionId && t.admitReceiptId == admitReceiptId
  {
  }

  // ----------------------------------------------------------------- frames and kills

  /** Why a frame of a registered client is answered by a kill, if it is. */
  ghost function KillReasonFor(w: World, s: State, client: string, session: Session, frame: Frame,
                               x: Outside): Option<KillReason> {
    match frame
    case EndOfStream => None
    case Malformed => Some(MalformedFrame)
    case NotObject => Some(NotAnObject)
    case Message(msg) =>
      var op := if "op" in msg then msg["op"] else VNull;
      if op == VStr("invoke") then Some(BareInvoke)
      else if op == VStr("admit") then AdmitKill(AdmitFrame(w, client, session, msg, x))
      else if op == VStr("execute") then ExecuteKill(w, s, client, msg)
      else Some(UnknownOp(op))
  }

  function AdmitKill(v: AdmitVerdict): Option<KillReason> {
    if v.KillAdmit? then Some(v.reason) else None
  }

  function ExecuteKill(w: World, s: State, client: string, msg: Dict): Option<KillReason> {
    if !IsTyped(msg) then Some(ExecuteMalformed)
    else if msg["admit_ticket"].s !in s.tables.tickets then Some(NotAdmitted)
    else
      var v := ExecuteFrame(w, client, Execution(msg["admit_ticket"].s, msg["admit_receipt_id"].s,
                                                 msg["proposal"].fields, msg["envelope"].fields),
                            s.tables.tickets[msg["admit_ticket"].s]);
      if v.KillExecute? then Some(v.reason) else None
  }

  /** The connection is doomed exactly for this reason, if there is one. */
  ghost predicate IsDoomed(s: State, c: nat, client: string, x: Outside, reason: Option<KillReason>) {
    && c in s.conns
    && (s.conns[c].Doomed? <==> reason.Some?)
    && (reason.Some? ==> s.conns[c] == Doomed(client, reason.value, x))
  }

  lemma AdmitDooms(w: World, s: State, c: nat, client: string, session: Session, msg: Dict, x: Outside)
    ensures IsDoomed(ReceiveAdmit(w, s, c, client, session, msg, x), c, client, x,
                     AdmitKill(AdmitFrame(w, client, session, msg, x)))
  {
    hide AdmitFrame, AdmittedCore;
  }

  lemma ExecuteDooms(w: World, s: State, c: nat, client: string, session: Session, msg: Dict, x: Outside)
    ensures IsDoomed(ReceiveExecute(w, s, c, client, session, msg, x), c, client, x, ExecuteKill(w, s, client, msg))
  {
    TypedIff(msg);
    hide IsTyped, ExecutionOf, ExecuteFrame, OutcomeCore;
  }

  lemma FrameDooms(w: World, s: State, c: nat, client: string, session: Session, frame: Frame, x: Outside)
    ensures IsDoomed(ReceiveNext(w, s, c, client, session, frame, x), c, client, x,
                     KillReasonFor(w, s, client, session, frame, x))
  {
    hide AdmitFrame, AdmitKill, ExecuteKill, ReceiveAdmit, ReceiveExecute, WithoutClient;
    assert "execute"[0] != "admit"[0] && "execute"[0] != "invoke"[0] && "admit"[0] != "invoke"[0];
    if frame.Message? && Get(frame.msg, "op") == VStr("admit") {
      AdmitDooms(w, s, c, client, session, frame.msg, x);
      hide IsDoomed;
    } else if frame.Message? && Get(frame.msg, "op") == VStr("execute") {
      ExecuteDooms(w, s, c, client, session, frame.msg, x);
      hide IsDoomed;
    } else {
      OtherFrameDooms(w, s, c, client, session, frame, x);
      hide IsDoomed;
    }
  }

  lemma OtherFrameDooms(w: World, s: State, c: nat, client: string, session: Session, frame: Frame, x: Outside)
    requires frame.Message? ==> Get(frame.msg, "op") != VStr("admit") && Get(frame.msg, "op") != VStr("execute")
    ensures IsDoomed(ReceiveNext(w, s, c, client, session, frame, x), c, client, x,
                     KillReasonFor(w, s, client, session, frame, x))
  {
    hide AdmitFrame, AdmitKill, ExecuteKill, ReceiveAdmit, ReceiveExecute, WithoutClient;
  }

  /** A frame of a registered client dooms its connection exactly for these reasons; the end of the stream closes it. */
  lemma DoomedIff(w: World, s: State, c: nat, client: string, session: Session, frame: Frame, x: Outside)
    requires c in s.conns && s.conns[c] == Idle(client, session)
    ensures var s' := Step(w, s, Receive(c, frame, x));
            && IsDoomed(s', c, client, x, KillReasonFor(w, s, client, session, frame, x))
            && (frame.EndOfStream? ==> s'.conns[c].Closed?)
  {
    FrameDooms(w, s, c, client, session, frame, x);
    assert Step(w, s, Receive(c, frame, x)) == ReceiveNext(w, s, c, client, session, frame, x);
    hide KillReasonFor, ReceiveAdmit, ReceiveExecute, WithoutClient;
  }

  /** The receipt of a kill. */
  ghost predicate IsKillReceipt(w: World, client: string, session: Option<Session>, reason: KillReason, x: Outside,
                                core: Core) {
    && core.decision.Killed? && core.clientId == client && core.capability == "violation"
    && (core.trusted <==> session.Some?)
    && core.adapterId == (if session.Some? then Some(session.value.adapterId) else None)
    && core.inputHash == w.inputHash(map["kill_reason" := VStr(w.killText(reason))])
    && core.policyHash == x.defaultPolicy && core.timestamp == x.now && core.capabilityValid && !core.contextPresent
    && core.extra == KillText(w.killText(reason)) && core.constitutionId.None? && core.memoryScope.None?
    && core.memoryOperation.None? && core.version.None? && core.definitionHash.None? && core.mode.None?
    && core.reason in [Some(PolicyViolation), Some(Adversarial)]
    && (core.reason == Some(Adversarial) <==>
          || reason.Tripwire?
          || (&& !reason.ContextShape? && !reason.ContextNotObject? && !reason.ExecuteMalformed? && !reason.NotAdmitted?
              && exists before, after :: w.lower(w.killText(reason)) == before + "adversarial" + after))
  }

  /** A doomed connection takes its client off the registry, adds the receipt of the kill and ends; tickets stay. */
  lemma KillTells(w: World, s: State, c: nat, client: string, reason: KillReason, x: Outside)
    requires c in s.conns && s.conns[c] == Doomed(client, reason, x)
    ensures var s1 := Step(w, s, PopRegistry(c));
            var s2 := Step(w, s1, MakeReceipt(c));
            && s1.history == s.history && s1.tables.registry == s.tables.registry - {client}
            && |s2.history| == |s.history| + 1 && s.history == s2.history[..|s.history|]
            && IsKillReceipt(w, client, SessionUnder(s.tables, client), reason, x, s2.history[|s.history|].receipt.core)
            && s2.tables == s.tables.(registry := s.tables.registry - {client})
            && c in s2.conns && s2.conns[c] == Closed
  {
    var s1 := Step(w, s, PopRegistry(c));
    var session := SessionUnder(s.tables, client);
    var core := KillCore(w, client, session, reason, x);
    assert s1 == Unlisted(w, s, c, client, reason, x);
    MembraneVerdicts.ReportedIs(w, s1, c, core, Hangup);
    assert Step(w, s1, MakeReceipt(c)) == Reported(w, s1, c, core, Hangup);
    KillCoreTells(w, client, session, reason, x);
    hide KillCore, IsKillReceipt, SessionUnder;
  }

  lemma KillCoreTells(w: World, client: string, session: Option<Session>, reason: KillReason, x: Outside)
    ensures IsKillReceipt(w, client, session, reason, x, KillCore(w, client, session, reason, x))
  {
    ContainsIff(w.lower(w.killText(reason)), "adversarial");
    hide Contains;
  }

  lemma AdmitLeavesRegistry(w: World, s: State, c: nat, client: string, session: Session, msg: Dict, x: Outside)
    ensures ReceiveAdmit(w, s, c, client, session, msg, x).tables == s.tables
  {
    hide AdmitFrame, AdmittedCore;
  }

  lemma ExecuteLeavesRegistry(w: World, s: State, c: nat, client: string, session: Session, msg: Dict, x: Outside)
    ensures ReceiveExecute(w, s, c, client, session, msg, x).tables.registry == s.tables.registry
  {
    hide ExecutionOf, ExecuteFrame, PhaseAfter;
  }

  lemma FirstLeavesRegistry(w: World, s: State, c: nat, frame: Frame, x: Outside)
    ensures ReceiveFirst(w, s, c, frame, x).tables.registry == s.tables.registry
  {
    hide RegisterFrame;
  }

  lemma FramesLeaveRegistry(w: World, s: State, c: nat, client: string, session: Session, frame: Frame, x: Outside)
    ensures ReceiveNext(w, s, c, client, session, frame, x).tables.registry == s.tables.registry
  {
    hide ReceiveAdmit, ReceiveExecute;
    if frame.Message? {
      AdmitLeavesRegistry(w, s, c, client, session, frame.msg, x);
      ExecuteLeavesRegistry(w, s, c, client, session, frame.msg, x);
    }
  }

  /** The client whom this step takes off the registry with a kill, if it does. */
  ghost predicate Kills(s: State, e: Event, client: string) {
    e.PopRegistry? && e.conn in s.conns && s.conns[e.conn].Doomed? && s.conns[e.conn].client == client
  }

  lemma ConnLeavesRegistry(w: World, s: State, e: Event)
    requires e.Receive? || e.PopRegistry? || e.MakeReceipt? || e.StoreTicket? || e.CallGold? || e.GoldEnds?
    requires e.conn in s.conns
    ensures ConnStep(w, s, e).tables.registry
            == if e.PopRegistry? && s.conns[e.conn].Doomed? then s.tables.registry - {s.conns[e.conn].client}
               else s.tables.registry
  {
    if e.Receive? && s.conns[e.conn].Idle? {
      FramesLeaveRegistry(w, s, e.conn, s.conns[e.conn].client, s.conns[e.conn].session, e.frame, e.x);
    } else if e.Receive? && s.conns[e.conn].Fresh? {
      FirstLeavesRegistry(w, s, e.conn, e.frame, e.x);
    }
    hide ReceiveFirst, ReceiveNext, KillCore, OutcomeCore, TicketOf;
  }

  /** The registry changes only by the host and by kills, and then only for one client. */
  lemma RegistryTells(w: World, s: State, e: Event, client: string)
    ensures var before, after := s.tables.registry, Step(w, s, e).tables.registry;
            && (client in after <==>
                  || (e.HostRegister? && e.client == client)
                  || (client in before && !(e.HostUnregister? && e.client == client) && !Kills(s, e, client)))
            && (client in after ==>
                  after[client] == if e.HostRegister? && e.client == client then e.slot else before[client])
  {
    if e.Receive? || e.PopRegistry? || e.MakeReceipt? || e.StoreTicket? || e.CallGold? || e.GoldEnds? {
      if e.conn in s.conns {
        ConnLeavesRegistry(w, s, e);
      }
    }
    hide ConnStep, WithoutClient;
  }

  /** A disconnect, by the end of the stream or by the host, removes exactly the live tickets of its client. */
  lemma DisconnectTells(w: World, registry: map<string, Slot>, head: string, es: seq<Event>, e: Event, client: string)
    requires var s := Run(w, Start(registry, head), es);
             || e == InvalidateClient(client)
             || (e.Receive? && e.frame.EndOfStream? && e.conn in s.conns && s.conns[e.conn].Idle?
                 && s.conns[e.conn].client == client)
    ensures var tb := Run(w, Start(registry, head), es).tables;
            var tb' := Step(w, Run(w, Start(registry, head), es), e).tables;
            && (forall t :: t in tb'.tickets <==> t in tb.tickets && tb.tickets[t].client != client)
            && (forall t | t in tb'.tickets :: tb'.tickets[t] == tb.tickets[t])
            && (forall other | other != client :: ListedUnder(tb'.byClient, other) == ListedUnder(tb.byClient, other))
            && ListedUnder(tb'.byClient, client) == {}
  {
    DisconnectIsExact(w, registry, head, es, client);
    hide Run, WithoutClient, ListedUnder;
  }

  // ------------------------------------------------------------------------ registering

  lemma AttestationTells(msg: Dict)
    ensures AttestationOf(msg).Some? <==>
            && HasText(msg, "client_id") && HasText(msg, "plugin") && HasText(msg, "adapter_id")
            && HasText(msg, "adapter_bundle_hash")
            && "declared_capabilities" in msg && msg["declared_capabilities"].VList?
    ensures AttestationOf(msg).Some? ==>
              var a := AttestationOf(msg).value;
              && a.client == msg["client_id"].s && a.plugin == msg["plugin"].s && a.adapterId == msg["adapter_id"].s
              && a.bundle == msg["adapter_bundle_hash"].s && a.capabilities == msg["declared_capabilities"].items
  {
  }

  lemma DeclaredTells(w: World, raw: seq<Val>, capability: string)
    ensures capability in Declared(w, raw) <==> exists v :: v in raw && w.truthy(v) && w.str(v) == capability
  {
  }

  /** Why an attested registration is refused: the first check that fails. */
  lemma RefusalTells(w: World, registry: map<string, Slot>, client: string, plugin: string, adapterId: string,
                     bundle: string, declared: set<string>)
    requires declared != {}
    ensures var r := RegisterRefusal(w, registry, client, plugin, adapterId, bundle, declared);
            if plugin !in w.bundleHashes then r == Some(NoBundleOracle(plugin))
            else if w.bundleHashes[plugin] != bundle then r == Some(BundleMismatch(w.bundleHashes[plugin], bundle))
            else if plugin !in w.policy.scope || w.policy.scope[plugin] == {} then r == Some(UnknownPluginScope(plugin))
            else if exists capability :: capability in declared && capability !in w.policy.scope[plugin] then
              r == Some(CapabilityEscalation(declared, w.policy.scope[plugin]))
            else if client !in registry then r == Some(NoSuchClient(adapterId))
            else if registry[client].adapterId != adapterId then
              r == Some(AdapterMismatch(registry[client].adapterId, adapterId))
            else if registry[client].plugin != plugin then r == Some(PluginMismatch(registry[client].plugin, plugin))
            else r.None?
  {
  }

  /** The receipt of a refused registration. */
  ghost predicate IsRefusal(w: World, r: Refusal, a: Attestation, x: Outside, core: Core) {
    && core.decision.Rejected? && core.clientId == a.client && core.capability == "registration"
    && (core.trusted <==> !r.NoSuchClient?)
    && core.adapterId == (if r.NoSuchClient? then None else Some(a.adapterId))
    && core.policyHash == x.defaultPolicy && core.timestamp == x.now && !core.contextPresent && core.extra == NoExtra
    && (core.capabilityValid <==> r.BundleMismatch? || r.AdapterMismatch? || r.PluginMismatch?)
    && (core.reason == Some(CapabilityViolation) <==> r.CapabilityEscalation?)
    && (core.reason == Some(UnknownClient) <==> r.NoSuchClient?)
    && (core.reason == Some(PolicyViolation) <==> !r.CapabilityEscalation? && !r.NoSuchClient?)
    && core.constitutionId.None? && core.memoryScope.None? && core.memoryOperation.None? && core.version.None?
    && core.definitionHash.None? && core.mode.None?
  }

  /** What a refused registration has hashed says which check failed, on what. */
  lemma RefusalIsHashed(w: World, r: Refusal)
    ensures var d := RefusalDict(w, r);
            && TextAt(d, "kind") == "register"
            && (r.NoBundleOracle? ==> TextAt(d, "reject") == "no_bundle_oracle" && TextAt(d, "plugin") == r.plugin)
            && (r.UnknownPluginScope? ==>
                  TextAt(d, "reject") == "unknown_plugin_scope" && TextAt(d, "plugin") == r.plugin)
            && (r.BundleMismatch? ==> TextAt(d, "reject") == "bundle_mismatch")
            && (r.AdapterMismatch? ==> TextAt(d, "reject") == "adapter_id_mismatch")
            && (r.PluginMismatch? ==> TextAt(d, "reject") == "plugin_mismatch")
            && (r.BundleMismatch? || r.AdapterMismatch? || r.PluginMismatch? ==>
                  TextAt(d, "expected") == r.expected && TextAt(d, "got") == r.got)
            && (r.NoSuchClient? ==>
                  TextAt(d, "reject") == "unknown_client" && TextAt(d, "claimed_adapter_id") == r.claimed)
            && (r.CapabilityEscalation? ==>
                  && TextAt(d, "reject") == "capability_escalation"
                  && Get(d, "declared") == Strings(w.sorted(r.declared))
                  && Get(d, "allowed_scope") == Strings(w.sorted(r.scope)))
  {
  }

  /**
   What becomes of a first frame: dropped without a receipt if it is no attested registration that declares something,
   or of a plugin that is no proxy client; refused by a receipt for the first check that fails; else the session opens.
   */
  lemma RegistrationTells(w: World, s: State, c: nat, frame: Frame, x: Outside)
    requires c in s.conns && s.conns[c] == Fresh
    ensures var s' := Step(w, s, Receive(c, frame, x));
            && c in s'.conns
            && if !(frame.Message? && "op" in frame.msg && frame.msg["op"] == VStr("register")
                    && AttestationOf(frame.msg).Some?
                    && Declared(w, AttestationOf(frame.msg).value.capabilities) != {})
               then s'.conns[c] == Closed && s'.tables == s.tables
               else
                 var a := AttestationOf(frame.msg).value;
                 var declared := Declared(w, a.capabilities);
                 var refusal := RegisterRefusal(w, s.tables.registry, a.client, a.plugin, a.adapterId,
                                                w.lower(a.bundle), declared);
                 if refusal.Some? then
                   && s'.tables == s.tables && s'.conns[c].Reporting? && s'.conns[c].next == Hangup
                   && IsRefusal(w, refusal.value, a, x, s'.conns[c].core)
                   && s'.conns[c].core.inputHash == w.inputHash(RefusalDict(w, refusal.value))
                 else if a.plugin !in w.policy.untrusted then s'.conns[c] == Closed && s'.tables == s.tables
                 else
                   var session := Session(a.adapterId, declared, w.lower(a.bundle), a.plugin);
                   && s'.conns[c] == Idle(a.client, session)
                   && s'.tables == s.tables.(sessions := s.tables.sessions[a.client := session])
  {
    if frame.Message? {
      FirstFrameTells(w, s.tables.registry, frame.msg, x);
    }
    hide AttestationOf, Declared, RegisterRefusal, RefusalDict, RegisterFrame, IsRefusal;
  }

  lemma FirstFrameTells(w: World, registry: map<string, Slot>, msg: Dict, x: Outside)
    ensures var v := RegisterFrame(w, registry, msg, x);
            if !("op" in msg && msg["op"] == VStr("register") && AttestationOf(msg).Some?
                 && Declared(w, AttestationOf(msg).value.capabilities) != {}) then v.Drop?
            else
              var a := AttestationOf(msg).value;
              var declared := Declared(w, a.capabilities);
              var refusal := RegisterRefusal(w, registry, a.client, a.plugin, a.adapterId, w.lower(a.bundle), declared);
              if refusal.Some? then
                && v.Refuse? && IsRefusal(w, refusal.value, a, x, v.core)
                && v.core.inputHash == w.inputHash(RefusalDict(w, refusal.value))
              else if a.plugin !in w.policy.untrusted then v.Drop?
              else v == Accept(a.client, Session(a.adapterId, declared, w.lower(a.bundle), a.plugin))
  {
    hide AttestationOf, Declared, RegisterRefusal, RefusalDict;
  }
}
