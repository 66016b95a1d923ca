/** Which calls admission lets through, and what each call that reaches the store leaves in its receipt. */
module AdmissionTheorems {
  import opened Texts
  import opened CanonicalJson
  import opened Receipts
  import opened Enforcement
  import opened GovernanceRuntime
  import opened GovernedExecution
  import opened JournalRuns
  import opened GovernedRuns
  import DefinitionHash

  // ------------------------------------------------------------------------ authority

  lemma BlankIff(t: Text)
    ensures Trim(t) == [] <==> AllSpace(t)
  {
    var before, after := TrimIsExact(t);
    if Trim(t) != [] {
      assert t[|before|] == Trim(t)[0];
    }
  }

  /** The text without the white space at its ends. */
  ghost predicate IsCore(core: Text, t: Text) {
    && core != [] && !IsSpace(core[0]) && !IsSpace(core[|core| - 1])
    && exists before, after :: t == before + core + after && AllSpace(before) && AllSpace(after)
  }

  lemma TrimmedIs(t: Option<Text>)
    ensures Trimmed(t).Some? <==> t.Some? && !AllSpace(t.value)
    ensures Trimmed(t).Some? ==> IsCore(Trimmed(t).value, t.value)
  {
    if t.Some? {
      BlankIff(t.value);
      var before, after := TrimIsExact(t.value);
    }
  }

  predicate KnownLevel(level: Text) {
    level in [Ascii("none"), Ascii("standard"), Ascii("elevated"), Ascii("continuous_resonance")]
  }

  /** The ten pairs of an asserted level and a requirement that it meets. */
  predicate Suffices(level: Text, r: AuthorityRequirement) {
    (level, r) in [
      (Ascii("none"), NoAuthority),
      (Ascii("standard"), NoAuthority),
      (Ascii("standard"), Standard),
      (Ascii("elevated"), NoAuthority),
      (Ascii("elevated"), Standard),
      (Ascii("elevated"), Elevated),
      (Ascii("continuous_resonance"), NoAuthority),
      (Ascii("continuous_resonance"), Standard),
      (Ascii("continuous_resonance"), Elevated),
      (Ascii("continuous_resonance"), ContinuousResonanceRequired)]
  }

  /** A known level, a source and a time that are not blank, and no blank authority context id. */
  predicate AuthorityIsWellFormed(a: AuthorityContext) {
    && KnownLevel(a.level) && !AllSpace(a.source) && !AllSpace(a.evaluatedAt)
    && (a.authorityContextId.Some? ==> !AllSpace(a.authorityContextId.value))
  }

  lemma LevelsDiffer()
    ensures Ascii("none") != Ascii("standard") && Ascii("none") != Ascii("elevated")
    ensures Ascii("none") != Ascii("continuous_resonance") && Ascii("standard") != Ascii("elevated")
    ensures Ascii("standard") != Ascii("continuous_resonance") && Ascii("elevated") != Ascii("continuous_resonance")
  {
    assert Ascii("none")[0] == 110 && Ascii("standard")[0] == 115 && Ascii("elevated")[0] == 101;
    assert Ascii("continuous_resonance")[0] == 99;
  }

  lemma SufficesIff(level: Text, r: AuthorityRequirement)
    ensures KnownLevel(level) <==> AdmissionRank(level).Some?
    ensures Suffices(level, r) <==> AdmissionRank(level).Some? && AdmissionRank(level).value >= RequirementRank(r)
  {
    LevelsDiffer();
    hide Ascii;
  }

  lemma NoErrorsIff(a: seq<Json>, b: seq<Json>)
    ensures a + b == [] <==> a == [] && b == []
  {
    assert |a + b| == |a| + |b|;
  }

  lemma AuthorityErrorsIff(a: AuthorityContext)
    ensures AuthorityErrors(a) == [] <==> AuthorityIsWellFormed(a)
  {
    BlankIff(a.source);
    BlankIff(a.evaluatedAt);
    if a.authorityContextId.Some? {
      BlankIff(a.authorityContextId.value);
    }
    SufficesIff(a.level, NoAuthority);
    hide Ascii, Trim, AllSpace, AdmissionRank, KnownLevel, ErrorItem;
    assert |AuthorityErrors(a)| == 0 <==> AuthorityIsWellFormed(a);
  }

  /**
   Admission has no objection exactly when the class policy has none and the authority is well-formed and suffices.
   */
  lemma AdmittedIff(m: Meta, a: AuthorityContext, classPolicy: Meta -> seq<Json>)
    ensures AdmissionErrors(m, a, classPolicy) == [] <==>
            classPolicy(m) == [] && AuthorityIsWellFormed(a) && Suffices(a.level, m.authorityRequirement)
  {
    AuthorityErrorsIff(a);
    SufficesIff(a.level, m.authorityRequirement);
    NoErrorsIff(classPolicy(m), AuthorityErrors(a));
    hide AuthorityErrors, KnownLevel, AllSpace, Suffices, AdmissionRank, ErrorItem, Ascii;
  }

  /**
   The authority of a call: level and source of the host, the clock's time, and ids the draft's context may override.
   */
  lemma ResolvedAuthoritySays(c: Context, seed: Option<AuthorityContext>, now: Text)
    ensures var a := ResolveAuthority(c, seed, now);
            && a.level == (if seed.Some? then seed.value.level else Ascii("none"))
            && |a.source| >= 9 && a.source[..9] == Ascii("resolved:")
            && a.source[9..] == (if seed.Some? then seed.value.source else Ascii("host"))
            && a.evaluatedAt == now
            && OverridesId(a.sessionId, c.sessionId, if seed.Some? then seed.value.sessionId else None)
            && OverridesId(a.subjectId, c.subjectId, if seed.Some? then seed.value.subjectId else None)
            && OverridesContextId(a.authorityContextId, c.authorityContextId,
                                  if seed.Some? then seed.value.authorityContextId else None)
  {
    TrimmedIs(c.sessionId);
    TrimmedIs(c.subjectId);
    TrimmedIs(c.authorityContextId);
    if seed.Some? {
      TrimmedIs(seed.value.authorityContextId);
    }
    hide Ascii, Trim, AllSpace;
  }

  /** The draft's id without white space at its ends, if anything is left of it; else the host's, unless it is empty. */
  ghost predicate OverridesId(id: Option<Text>, drafted: Option<Text>, seeded: Option<Text>) {
    if drafted.Some? && !AllSpace(drafted.value) then id.Some? && IsCore(id.value, drafted.value)
    else if seeded.Some? && seeded.value != [] then id == seeded
    else id == None
  }

  /** So for the authority context id, except that the host's is trimmed as well. */
  ghost predicate OverridesContextId(id: Option<Text>, drafted: Option<Text>, seeded: Option<Text>) {
    if drafted.Some? && !AllSpace(drafted.value) then id.Some? && IsCore(id.value, drafted.value)
    else if seeded.Some? && !AllSpace(seeded.value) then id.Some? && IsCore(id.value, seeded.value)
    else id == None
  }

  ghost predicate FirstMark(t: Text, i: int) {
    0 <= i < |t| && !IsSpace(t[i]) && forall k | 0 <= k < i :: IsSpace(t[k])
  }

  ghost predicate LastMark(t: Text, i: int) {
    0 <= i < |t| && !IsSpace(t[i]) && forall k | i < k < |t| :: IsSpace(t[k])
  }

  /** A text has at most one such core, so these predicates determine the ids. */
  lemma CoreIsUnique(a: Text, b: Text, t: Text)
    requires IsCore(a, t) && IsCore(b, t)
    ensures a == b
  {
    var a1, a2 :| t == a1 + a + a2 && AllSpace(a1) && AllSpace(a2);
    var b1, b2 :| t == b1 + b + b2 && AllSpace(b1) && AllSpace(b2);
    assert FirstMark(t, |a1|) && FirstMark(t, |b1|);
    assert LastMark(t, |a1| + |a| - 1) && LastMark(t, |b1| + |b| - 1);
    assert a == t[|a1|..|a1| + |a|] && b == t[|b1|..|b1| + |b|];
  }

  /** The authority that a call resolves is well-formed exactly when its level is known and the clock tells a time. */
  lemma ResolvedIsWellFormed(c: Context, seed: Option<AuthorityContext>, now: Text)
    ensures AuthorityIsWellFormed(ResolveAuthority(c, seed, now)) <==>
            (seed.Some? ==> KnownLevel(seed.value.level)) && !AllSpace(now)
  {
    ResolvedAuthoritySays(c, seed, now);
    var a := ResolveAuthority(c, seed, now);
    SourceIsNotBlank(a.source);
    CoreIsNotBlank(a.authorityContextId);
    hide IsSpace, ResolveAuthority, IsCore, OverridesId, AllSpace;
    assert KnownLevel(Ascii("none"));
    hide Ascii, KnownLevel;
  }

  lemma SourceIsNotBlank(source: Text)
    requires |source| >= 9 && source[..9] == Ascii("resolved:")
    ensures !AllSpace(source)
  {
    assert Ascii("resolved:")[0] == 114;
    assert source[0] == source[..9][0];
  }

  lemma CoreIsNotBlank(id: Option<Text>)
    ensures id.Some? ==> (forall t :: IsCore(id.value, t) ==> !AllSpace(id.value))
    ensures id.Some? && id.value != [] && !IsSpace(id.value[0]) ==> !AllSpace(id.value)
  {
  }

  // --------------------------------------------------------------------- class policy

  predicate NotEmpty(t: Option<Text>) {
    t.Some? && t.value != []
  }

  /** The output schema is an object with a type. */
  predicate SchemaIsTyped(schema: Json) {
    schema.Obj? && exists f | f in schema.fields :: f.key == Ascii("type") && f.value.Str? && f.value.s != []
  }

  /** What the default class policy asks of each class. */
  predicate ClassIsComplete(m: Meta) {
    match m.executionClass
    case ClassA => m.sideEffectTier.None? && m.idempotency.None? && m.replayBehavior.None?
    case ClassB => m.sideEffectTier.Some? && m.idempotency.Some? && m.replayBehavior.Some?
    case ClassC =>
      && m.sideEffectTier.None? && m.idempotency.None? && m.replayBehavior.None?
      && NotEmpty(m.asyncModel) && NotEmpty(m.jobIdField) && m.partialReceipt.Some?
  }

  /** The default class policy has no objection exactly when the schema is typed and the class is complete. */
  lemma ClassPolicyIff(m: Meta)
    ensures ClassViolations(m) == [] <==> SchemaIsTyped(m.outputSchema) && ClassIsComplete(m)
  {
    assert m.outputSchema.Obj? ==> (HasType(m.outputSchema) <==> SchemaIsTyped(m.outputSchema));
    hide HasType, SchemaIsTyped, Ascii, ErrorItem;
    assert |ClassViolations(m)| == 0 <==> SchemaIsTyped(m.outputSchema) && ClassIsComplete(m);
  }

  // ---------------------------------------------------------------------- replay gate

  /** The key without white space at its ends, of a string field of this name that is not blank. */
  lemma IdempotencyKeyIs(input: Json)
    ensures var key := IdempotencyKeyOf(input);
            && (key.Some? <==> KeyGiven(input))
            && (key.Some? ==> IsCore(key.value, FieldNamed(input.fields, Ascii("idempotency_key")).value.s))
  {
    if input.Obj? {
      var field := FieldNamed(input.fields, Ascii("idempotency_key"));
      if field.Some? && field.value.Str? {
        TrimmedIs(Some(field.value.s));
      }
    }
    hide Ascii, Trimmed;
  }

  predicate KeyGiven(input: Json) {
    && input.Obj?
    && var field := FieldNamed(input.fields, Ascii("idempotency_key"));
       field.Some? && field.value.Str? && !AllSpace(field.value.s)
  }

  /** Some receipt makes a ledger entry for this replay key. */
  ghost predicate OnLedger(rs: seq<Receipt>, replayKey: Text) {
    exists i | 0 <= i < |rs| :: WritesBlocked(rs[i], replayKey)
  }

  /** The last receipt that was filed under the slot, if any, has this replay key. */
  ghost predicate SlotAgrees(rs: seq<Receipt>, slot: Text, replayKey: Text) {
    forall i | 0 <= i < |rs| && WritesIndex(rs[i], slot) && (forall k | i < k < |rs| :: !WritesIndex(rs[k], slot)) ::
      ToReplayEntry(rs[i]).value.replayKey == replayKey
  }

  /** What the replay gate asks of a call. */
  ghost predicate GateIsOpen(m: Meta, capability: Text, version: Text, input: Json, rs: seq<Receipt>) {
    var policyKey := capability + [AT_SIGN] + version;
    var replayKey := policyKey + [COLON] + Stringify(SortKeysDeep(input));
    m.executionClass.ClassB? ==>
      && (m.replayBehavior == Some(Blocked) ==>
            (m.idempotency == Some(Keyed) ==> KeyGiven(input)) && !OnLedger(rs, replayKey))
      && (m.replayBehavior == Some(AllowedSameKey) ==>
            && m.idempotency == Some(Keyed) && IdempotencyKeyOf(input).Some?
            && SlotAgrees(rs, policyKey + [HASH_SIGN] + IdempotencyKeyOf(input).value, replayKey))
  }

  lemma OnLedgerIff(rs: seq<Receipt>, replayKey: Text)
    ensures replayKey in BlockedReplay(rs) <==> OnLedger(rs, replayKey)
  {
    var i := LastBlockedWriter(rs, replayKey);
  }

  lemma SlotAgreesIff(rs: seq<Receipt>, slot: Text, replayKey: Text)
    ensures SlotAgrees(rs, slot, replayKey) <==>
            (slot in IdempotencyIndex(rs) ==> IdempotencyIndex(rs)[slot].replayKey == replayKey)
  {
    var i := LastIndexWriter(rs, slot);
    hide WritesIndex;
  }

  /** The replay gate is silent exactly when it is open: for no class but B, and not where replay is read-only. */
  lemma GateIff(p: Process, m: Meta, capability: Text, version: Text, input: Json)
    requires Coherent(p)
    ensures ReplayRefusal(m, capability, version, input, p.memory).None? <==>
            GateIsOpen(m, capability, version, input, p.journal.receipts)
  {
    IdempotencyKeyIs(input);
    var rs := p.journal.receipts;
    var policyKey := capability + [AT_SIGN] + version;
    var replayKey := policyKey + [COLON] + Stringify(SortKeysDeep(input));
    OnLedgerIff(rs, replayKey);
    if IdempotencyKeyOf(input).Some? {
      SlotAgreesIff(rs, policyKey + [HASH_SIGN] + IdempotencyKeyOf(input).value, replayKey);
    }
    hide Ascii, IdempotencyKeyOf, Stringify, SortKeysDeep, OnLedger, SlotAgrees, BlockedReplay, IdempotencyIndex, Heads;
  }

  // ------------------------------------------------------------------------ admission

  /** The definition of this capability at the version asked for, or at the latest one if none is. */
  ghost predicate Names(reg: Registry, capability: Text, hint: Option<Text>, d: DefinitionHash.Definition) {
    exists version: Text ::
      && (NotEmpty(hint) ==> hint == Some(version))
      && (!NotEmpty(hint) ==> capability in reg.latest && reg.latest[capability] == version)
      && capability + [AT_SIGN] + version in reg.definitions
      && reg.definitions[capability + [AT_SIGN] + version] == d
  }

  lemma ResolveIff(reg: Registry, capability: Text, hint: Option<Text>, d: DefinitionHash.Definition)
    ensures Resolve(reg, capability, hint) == Some(d) <==> Names(reg, capability, hint, d)
  {
    if Resolve(reg, capability, hint) == Some(d) {
      var version := if NotEmpty(hint) then hint.value else reg.latest[capability];
      assert capability + [AT_SIGN] + version in reg.definitions;
    }
  }

  /** Metadata is on file for the version, and neither the admission policy nor the replay gate objects. */
  ghost predicate Admissible(reg: Registry, q: Request, version: Text, now: Text, rs: seq<Receipt>) {
    var policyKey := q.capability + [AT_SIGN] + version;
    && policyKey in reg.metas
    && var m := reg.metas[policyKey];
       && q.classPolicy(m) == []
       && q.authority.Some? && KnownLevel(q.authority.value.level) && !AllSpace(now)
       && Suffices(q.authority.value.level, m.authorityRequirement)
       && GateIsOpen(m, q.capability, version, q.input, rs)
  }

  /**
   A call is prepared exactly when its definition resolves, its input is valid and it is admissible; it then has the
   version of the definition and the tagged digest of the definition's canonical text.
   */
  lemma PreparedIff(digest: Text -> Text, reg: Registry, q: Request, now: Text, p: Process)
    requires Coherent(p)
    ensures var prep := Prepare(digest, reg, q, now, p.memory);
            && (prep.Prepared? <==>
                  exists d :: && Names(reg, q.capability, q.hint, d)
                              && reg.inputErrors(q.capability + [AT_SIGN] + d.version, q.input).None?
                              && Admissible(reg, q, d.version, now, p.journal.receipts))
            && (prep.Prepared? ==>
                  forall d | Names(reg, q.capability, q.hint, d) ::
                    && prep.version == d.version
                    && prep.definitionHash == Ascii("sha256:") + digest(DefinitionHash.Preimage(d)))
  {
    var prep := Prepare(digest, reg, q, now, p.memory);
    var found := Resolve(reg, q.capability, q.hint);
    if found.Some? {
      StagesOf(digest, reg, q, now, p, found.value);
      ResolveIff(reg, q.capability, q.hint, found.value);
    }
    forall d | Names(reg, q.capability, q.hint, d)
      ensures found == Some(d)
    {
      ResolveIff(reg, q.capability, q.hint, d);
    }
    hide Names, Admissible, Resolve, Ascii;
  }

  /** The stage of a refusal is that of the first check that fails. */
  lemma StagesOf(digest: Text -> Text, reg: Registry, q: Request, now: Text, p: Process, d: DefinitionHash.Definition)
    requires Coherent(p) && Resolve(reg, q.capability, q.hint) == Some(d)
    ensures var prep := Prepare(digest, reg, q, now, p.memory);
            var policyKey := q.capability + [AT_SIGN] + d.version;
            var invalid := reg.inputErrors(policyKey, q.input);
            if q.authority.None? then prep.Refused? && prep.stage == Ascii("admission")
            else if invalid.Some? then prep == Refused(Ascii("input_validation"), invalid.value)
            else if policyKey !in reg.metas then prep.Refused? && prep.stage == Ascii("governance_meta")
            else if !Admissible(reg, q, d.version, now, p.journal.receipts)
            then prep.Refused? && prep.stage == Ascii("admission")
            else prep == Prepared(d.version, Ascii("sha256:") + digest(DefinitionHash.Preimage(d)))
  {
    var policyKey := q.capability + [AT_SIGN] + d.version;
    if q.authority.Some? && policyKey in reg.metas {
      var m, a := reg.metas[policyKey], ResolveAuthority(q.context, q.authority, now);
      AdmittedIff(m, a, q.classPolicy);
      ResolvedIsWellFormed(q.context, q.authority, now);
      assert a.level == q.authority.value.level;
      GateIff(p, m, q.capability, d.version, q.input);
    }
    hide Ascii, ResolveAuthority, AdmissionErrors, Suffices, KnownLevel, AllSpace, GateIsOpen, ReplayRefusal, Resolve;
    hide AuthorityIsWellFormed, Load;
  }

  // -------------------------------------------------------------------- governed calls

  /** What the request resolves to, if anything. */
  ghost predicate Finds(reg: Registry, q: Request, found: Option<DefinitionHash.Definition>) {
    forall d :: Names(reg, q.capability, q.hint, d) <==> found == Some(d)
  }

  lemma FindsResolved(reg: Registry, q: Request)
    ensures Finds(reg, q, Resolve(reg, q.capability, q.hint))
    ensures forall found :: Finds(reg, q, found) ==> found == Resolve(reg, q.capability, q.hint)
  {
    forall d
      ensures Names(reg, q.capability, q.hint, d) <==> Resolve(reg, q.capability, q.hint) == Some(d)
    {
      ResolveIff(reg, q.capability, q.hint, d);
    }
    hide Names, Resolve;
    var resolved := Resolve(reg, q.capability, q.hint);
    forall found | Finds(reg, q, found)
      ensures found == resolved
    {
      assert found.Some? ==> Names(reg, q.capability, q.hint, found.value);
      assert resolved.Some? ==> Names(reg, q.capability, q.hint, resolved.value);
    }
  }

  /** The store is there and its files verify, the request resolves, its input is valid and the call is admissible. */
  ghost predicate MayInvoke(digest: Text -> Text, reg: Registry, p: Process, q: Request, s: Surroundings) {
    && s.storeAvailable && Verified(digest, p.journal)
    && exists d :: && Names(reg, q.capability, q.hint, d)
                   && reg.inputErrors(q.capability + [AT_SIGN] + d.version, q.input).None?
                   && Admissible(reg, q, d.version, s.preparedAt, p.journal.receipts)
  }

  /** The adapter is invoked exactly for these calls. */
  lemma InvokedIff(digest: Text -> Text, reg: Registry, p: Process, q: Request, s: Surroundings)
    requires Coherent(p)
    ensures Invoked(digest, reg, p, q, s) <==> MayInvoke(digest, reg, p, q, s)
  {
    PreparedIff(digest, reg, q, s.preparedAt, p);
    hide Names, Admissible, Prepare, Verified;
  }

  /** The adapter returned, and its output is valid. */
  predicate OutputIsValid(reg: Registry, q: Request, s: Surroundings, version: Text) {
    s.adapter.Returned? && reg.outputErrors(q.capability + [AT_SIGN] + version, s.adapter.output).None?
  }

  /** Where a call stops whose store is there and verifies: at the first check that fails. */
  ghost function StopsAt(reg: Registry, p: Process, q: Request, s: Surroundings,
                         found: Option<DefinitionHash.Definition>): Text {
    if q.authority.None? then Ascii("admission")
    else if found.None? then Ascii("definition")
    else
      var version := found.value.version;
      var policyKey := q.capability + [AT_SIGN] + version;
      if reg.inputErrors(policyKey, q.input).Some? then Ascii("input_validation")
      else if policyKey !in reg.metas then Ascii("governance_meta")
      else if !Admissible(reg, q, version, s.preparedAt, p.journal.receipts) then Ascii("admission")
      else if s.adapter.Threw? then Ascii("adapter")
      else if reg.outputErrors(policyKey, s.adapter.output).Some? then Ascii("output_validation")
      else Ascii("executed")
  }

  /**
   A call fails at the first check that fails; where none does, it succeeds with the adapter's output, unless its
   receipt or its anchor cannot be appended.
   */
  lemma OutcomeTells(digest: Text -> Text, o: Options, reg: Registry, p: Process, q: Request, s: Surroundings,
                     found: Option<DefinitionHash.Definition>)
    requires Coherent(p) && Finds(reg, q, found)
    ensures var out, stop := GovernedOutcome(digest, o, reg, p, q, s), StopsAt(reg, p, q, s, found);
            if !s.storeAvailable || !Verified(digest, p.journal) then
              out.StartupFailed? && GovernedStep(digest, o, reg, p, q, s) == p
            else if stop != Ascii("executed") then
              && out.Failure? && out.stage == stop && (out.recorded.Some? <==> s.fault.NoFault?)
              && (stop == Ascii("input_validation") ==>
                    Some(out.errors) == reg.inputErrors(q.capability + [AT_SIGN] + found.value.version, q.input))
              && (stop == Ascii("output_validation") ==>
                    s.adapter.Returned? && Some(out.errors)
                       == reg.outputErrors(q.capability + [AT_SIGN] + found.value.version, s.adapter.output))
            else if !s.fault.NoFault? then
              out.Failure? && out.stage == Ascii("receipt_persistence") && out.recorded.None?
            else out.Success? && s.adapter.Returned? && out.output == s.adapter.output
  {
    DecisionTells(digest, reg, p, q, s, found);
    hide Decide, StopsAt, Finds, Verified, Ascii, Admissible, NextReceipt;
  }

  /** The stages a call can stop at once its adapter has been invoked. */
  predicate Ran(stop: Text) {
    stop in [Ascii("adapter"), Ascii("output_validation"), Ascii("executed")]
  }

  predicate Early(stop: Text) {
    stop in [Ascii("admission"), Ascii("definition"), Ascii("input_validation"), Ascii("governance_meta")]
  }

  lemma LateStagesDiffer()
    ensures Ascii("adapter") != Ascii("executed") && Ascii("adapter") != Ascii("output_validation")
    ensures Ascii("executed") != Ascii("output_validation")
  {
    StagesDiffer();
    hide Ascii;
  }

  lemma EarlyIffNotRan(stop: Text)
    ensures Early(stop) ==> !Ran(stop)
    ensures Ran(Ascii("adapter")) && Ran(Ascii("output_validation")) && Ran(Ascii("executed"))
    ensures Ran(stop) ==> stop != Ascii("input_validation")
  {
    StagesDiffer();
    hide Ascii;
  }

  lemma StagesDiffer()
    ensures forall stage | stage in ["admission", "definition", "input_validation", "governance_meta", "adapter",
                                     "output_validation"] :: Ascii(stage) != Ascii("executed")
    ensures forall stage | stage in ["admission", "definition", "governance_meta", "adapter", "output_validation"] ::
              Ascii(stage) != Ascii("input_validation")
    ensures forall stage | stage in ["admission", "definition", "input_validation", "governance_meta", "adapter"] ::
              Ascii(stage) != Ascii("output_validation")
    ensures forall stage | stage in ["admission", "definition", "input_validation", "governance_meta"] ::
              Ascii(stage) != Ascii("adapter")
  {
    assert |Ascii("admission")| == 9 && |Ascii("adapter")| == 7;
    assert Ascii("executed")[0] == 101 && Ascii("admission")[0] == 97 && Ascii("definition")[0] == 100;
    assert Ascii("input_validation")[0] == 105 && Ascii("governance_meta")[0] == 103 && Ascii("adapter")[0] == 97;
    assert Ascii("output_validation")[0] == 111;
  }

  /** Up to the adapter, a call stops where its preparation refuses it. */
  lemma PreparationTells(digest: Text -> Text, reg: Registry, p: Process, q: Request, s: Surroundings,
                         found: Option<DefinitionHash.Definition>)
    requires Coherent(p) && Finds(reg, q, found)
    ensures var prep, stop := Prepare(digest, reg, q, s.preparedAt, p.memory), StopsAt(reg, p, q, s, found);
            && (prep.Refused? ==>
                  && stop == prep.stage && Early(stop)
                  && (stop == Ascii("input_validation") ==>
                        && found.Some?
                        && Some(prep.errors)
                           == reg.inputErrors(q.capability + [AT_SIGN] + found.value.version, q.input)))
            && (prep.Prepared? ==>
                  && found.Some? && prep.version == found.value.version
                  && prep.definitionHash == Ascii("sha256:") + digest(DefinitionHash.Preimage(found.value))
                  && q.capability + [AT_SIGN] + prep.version in reg.metas
                  && stop == (if s.adapter.Threw? then Ascii("adapter")
                              else if OutputIsValid(reg, q, s, prep.version) then Ascii("executed")
                              else Ascii("output_validation")))
  {
    FindsResolved(reg, q);
    StagesDiffer();
    if found.Some? {
      StagesOf(digest, reg, q, s.preparedAt, p, found.value);
    } else {
      NothingFound(digest, reg, p, q, s);
    }
    hide Finds, Ascii, Admissible, Prepare, DefinitionHash.Preimage;
  }

  lemma NothingFound(digest: Text -> Text, reg: Registry, p: Process, q: Request, s: Surroundings)
    requires Resolve(reg, q.capability, q.hint).None?
    ensures var prep := Prepare(digest, reg, q, s.preparedAt, p.memory);
            && prep.Refused?
            && prep.stage == if q.authority.None? then Ascii("admission") else Ascii("definition")
  {
    hide Ascii, Resolve;
  }

  lemma RefusedDecision(digest: Text -> Text, reg: Registry, q: Request, s: Surroundings, memory: Memory)
    requires Prepare(digest, reg, q, s.preparedAt, memory).Refused?
    ensures var prep, v := Prepare(digest, reg, q, s.preparedAt, memory), Decide(digest, reg, q, s, memory);
            && v.stage == prep.stage == v.draft.stage && v.errors == prep.errors && v.output.None?
            && v.draft.errors == Some(v.errors)
  {
    hide Prepare, Ascii, ResolveAuthority;
  }

  lemma PreparedDecision(digest: Text -> Text, reg: Registry, q: Request, s: Surroundings, memory: Memory)
    requires Prepare(digest, reg, q, s.preparedAt, memory).Prepared?
    requires q.capability + [AT_SIGN] + Prepare(digest, reg, q, s.preparedAt, memory).version in reg.metas
    ensures var prep, v := Prepare(digest, reg, q, s.preparedAt, memory), Decide(digest, reg, q, s, memory);
            var valid := OutputIsValid(reg, q, s, prep.version);
            && v.stage == v.draft.stage && (!valid ==> v.draft.errors == Some(v.errors))
            && v.stage == (if s.adapter.Threw? then Ascii("adapter")
                           else if valid then Ascii("executed") else Ascii("output_validation"))
            && (v.output.Some? <==> valid) && (valid ==> v.output == Some(s.adapter.output))
            && (s.adapter.Returned? && !valid ==>
                  Some(v.errors) == reg.outputErrors(q.capability + [AT_SIGN] + prep.version, s.adapter.output))
  {
    hide Prepare, Ascii, ResolveAuthority;
  }

  /** What the decision of a call says: where it stops, and, where it does not, the adapter's output. */
  lemma DecisionTells(digest: Text -> Text, reg: Registry, p: Process, q: Request, s: Surroundings,
                      found: Option<DefinitionHash.Definition>)
    requires Coherent(p) && Finds(reg, q, found)
    ensures var v, stop := Decide(digest, reg, q, s, p.memory), StopsAt(reg, p, q, s, found);
            && v.stage == stop && v.draft.stage == stop
            && (v.output.None? ==> v.draft.errors == Some(v.errors))
            && (v.output.Some? <==> stop == Ascii("executed"))
            && (v.output.Some? ==> s.adapter == Returned(v.output.value))
            && (stop == Ascii("input_validation") ==>
                  && found.Some?
                  && Some(v.errors) == reg.inputErrors(q.capability + [AT_SIGN] + found.value.version, q.input))
            && (stop == Ascii("output_validation") ==>
                  && found.Some? && s.adapter.Returned?
                  && Some(v.errors)
                     == reg.outputErrors(q.capability + [AT_SIGN] + found.value.version, s.adapter.output))
  {
    PreparationTells(digest, reg, p, q, s, found);
    EarlyIffNotRan(StopsAt(reg, p, q, s, found));
    LateStagesDiffer();
    if Prepare(digest, reg, q, s.preparedAt, p.memory).Refused? {
      RefusedDecision(digest, reg, q, s, p.memory);
    } else {
      PreparedDecision(digest, reg, q, s, p.memory);
    }
    hide Finds, Ascii, Decide, Prepare, StopsAt, Early, Ran;
  }

  /** A level below the requirement never reaches the adapter: the call fails at admission. */
  lemma InsufficientIsRefused(digest: Text -> Text, o: Options, reg: Registry, p: Process, q: Request, s: Surroundings,
                              d: DefinitionHash.Definition, seed: AuthorityContext)
    requires Coherent(p) && StartsUp(digest, s, p) && Names(reg, q.capability, q.hint, d) && q.authority == Some(seed)
    requires reg.inputErrors(q.capability + [AT_SIGN] + d.version, q.input).None?
    requires q.capability + [AT_SIGN] + d.version in reg.metas
    requires !Suffices(seed.level, reg.metas[q.capability + [AT_SIGN] + d.version].authorityRequirement)
    ensures !Invoked(digest, reg, p, q, s)
    ensures GovernedOutcome(digest, o, reg, p, q, s).Failure?
    ensures GovernedOutcome(digest, o, reg, p, q, s).stage == Ascii("admission")
  {
    ResolveIff(reg, q.capability, q.hint, d);
    FindsResolved(reg, q);
    StagesDiffer();
    OutcomeTells(digest, o, reg, p, q, s, Some(d));
    StagesOf(digest, reg, q, s.preparedAt, p, d);
    hide Names, Suffices, Ascii, Prepare, GovernedOutcome, GateIsOpen, KnownLevel, Finds, Verified;
  }

  // --------------------------------------------------------------------- call receipts

  /** The letter of the class. */
  predicate IsLetter(t: Text, c: ExecutionClass) {
    |t| == 1 && (c.ClassA? <==> t[0] == 65) && (c.ClassB? <==> t[0] == 66) && (c.ClassC? <==> t[0] == 67)
  }

  /**
   The receipt of a call tells it: capability, version, definition hash from the adapter on, authority, class, and
   where it stopped; only a run that passed every check records success, with its keys.
   */
  ghost predicate TellsCall(digest: Text -> Text, reg: Registry, q: Request, s: Surroundings, stop: Text,
                            found: Option<DefinitionHash.Definition>, d: Draft) {
    var ran := Ran(stop);
    var done := stop == Ascii("executed");
    && d.capability == q.capability
    && d.version == (if found.Some? then Some(found.value.version) else q.hint)
    && d.definitionHash == (if ran && found.Some?
                            then Some(Ascii("sha256:") + digest(DefinitionHash.Preimage(found.value))) else None)
    && d.authority == ResolveAuthority(q.context, q.authority, s.resolvedAt)
    && d.timestamp.None? && d.stage == stop && (d.success <==> done)
    && d.outputValidationPassed == (if done then Some(true)
                                    else if stop == Ascii("output_validation") then Some(false) else None)
    && (d.errors.None? <==> done)
    && (done ==> d.idempotencyKey == IdempotencyKeyOf(q.input))
    && (!done ==> d.replayKey.None? && d.idempotencyKey.None?)
  }

  /**
   The class a receipt names is that of the metadata, if there are any: before the adapter those of the definition's
   own capability id. Only runs of class B that watch for replay have a replay key.
   */
  ghost predicate TellsClass(reg: Registry, q: Request, stop: Text, found: Option<DefinitionHash.Definition>,
                             d: Draft) {
    if found.None? then d.executionClass.None? && d.replayKey.None?
    else
      var ran := Ran(stop);
      var policyKey := q.capability + [AT_SIGN] + found.value.version;
      var ownKey := if ran then policyKey else found.value.capability + [AT_SIGN] + found.value.version;
      && (d.executionClass.Some? <==> ownKey in reg.metas)
      && (d.executionClass.Some? ==> IsLetter(d.executionClass.value, reg.metas[ownKey].executionClass))
      && (d.replayKey.Some? <==>
            && stop == Ascii("executed") && policyKey in reg.metas && reg.metas[policyKey].executionClass.ClassB?
            && reg.metas[policyKey].replayBehavior in [Some(Blocked), Some(AllowedSameKey)])
      && (d.replayKey.Some? ==> d.replayKey.value == policyKey + [COLON] + Stringify(SortKeysDeep(q.input)))
  }

  lemma RefusedDraft(digest: Text -> Text, reg: Registry, q: Request, s: Surroundings, memory: Memory)
    requires Prepare(digest, reg, q, s.preparedAt, memory).Refused?
    ensures var prep, d := Prepare(digest, reg, q, s.preparedAt, memory), Decide(digest, reg, q, s, memory).draft;
            d == FailureDraft(q.capability, ResolvedVersion(reg, q), None,
                              ResolveAuthority(q.context, q.authority, s.resolvedAt), ResolvedMeta(reg, q), prep.stage,
                              None, prep.errors)
  {
    hide Prepare, Ascii, ResolveAuthority, FailureDraft;
  }

  lemma PreparedDraft(digest: Text -> Text, reg: Registry, q: Request, s: Surroundings, memory: Memory)
    requires Prepare(digest, reg, q, s.preparedAt, memory).Prepared?
    requires q.capability + [AT_SIGN] + Prepare(digest, reg, q, s.preparedAt, memory).version in reg.metas
    ensures var prep, d := Prepare(digest, reg, q, s.preparedAt, memory), Decide(digest, reg, q, s, memory).draft;
            var policyKey := q.capability + [AT_SIGN] + prep.version;
            var m, done := reg.metas[policyKey], OutputIsValid(reg, q, s, prep.version);
            && d.capability == q.capability && d.version == Some(prep.version)
            && d.definitionHash == Some(prep.definitionHash)
            && d.authority == ResolveAuthority(q.context, q.authority, s.resolvedAt)
            && d.timestamp.None? && (d.success <==> done) && (d.errors.None? <==> done)
            && d.outputValidationPassed == (if done then Some(true)
                                            else if s.adapter.Threw? then None else Some(false))
            && d.executionClass.Some? && IsLetter(d.executionClass.value, m.executionClass)
            && d.idempotencyKey == (if done then IdempotencyKeyOf(q.input) else None)
            && d.replayKey == (if done && TracksReplay(m)
                               then Some(policyKey + [COLON] + Stringify(SortKeysDeep(q.input))) else None)
  {
    LettersAre();
    hide Prepare, ResolveAuthority, IdempotencyKeyOf, Stringify, SortKeysDeep, Ascii, TracksReplay;
  }

  lemma LettersAre()
    ensures forall c: ExecutionClass :: IsLetter(ClassName(c), c)
  {
    assert Ascii("A")[0] == 65 && Ascii("B")[0] == 66 && Ascii("C")[0] == 67;
  }

  /** The draft of a call tells it. */
  lemma DraftTells(digest: Text -> Text, reg: Registry, p: Process, q: Request, s: Surroundings,
                   found: Option<DefinitionHash.Definition>)
    requires Coherent(p) && Finds(reg, q, found)
    ensures var d, stop := Decide(digest, reg, q, s, p.memory).draft, StopsAt(reg, p, q, s, found);
            TellsCall(digest, reg, q, s, stop, found, d) && TellsClass(reg, q, stop, found, d)
  {
    FindsResolved(reg, q);
    DecisionTells(digest, reg, p, q, s, found);
    PreparationTells(digest, reg, p, q, s, found);
    var stop := StopsAt(reg, p, q, s, found);
    hide Decide, Prepare, StopsAt, Finds, TellsCall, TellsClass;
    if Prepare(digest, reg, q, s.preparedAt, p.memory).Refused? {
      RefusedDraft(digest, reg, q, s, p.memory);
      EarlyDraftTells(digest, reg, q, s, stop, found, Decide(digest, reg, q, s, p.memory).draft,
                      Prepare(digest, reg, q, s.preparedAt, p.memory).errors);
    } else {
      PreparedDraft(digest, reg, q, s, p.memory);
      LateDraftTells(digest, reg, q, s, stop, found, Decide(digest, reg, q, s, p.memory).draft);
    }
  }

  lemma LateDraftTells(digest: Text -> Text, reg: Registry, q: Request, s: Surroundings, stop: Text,
                       found: Option<DefinitionHash.Definition>, d: Draft)
    requires found.Some? && q.capability + [AT_SIGN] + found.value.version in reg.metas
    requires stop == if s.adapter.Threw? then Ascii("adapter")
                     else if OutputIsValid(reg, q, s, found.value.version) then Ascii("executed")
                     else Ascii("output_validation")
    requires var policyKey := q.capability + [AT_SIGN] + found.value.version;
             var m, done := reg.metas[policyKey], OutputIsValid(reg, q, s, found.value.version);
             && d.capability == q.capability && d.version == Some(found.value.version) && d.stage == stop
             && d.definitionHash == Some(Ascii("sha256:") + digest(DefinitionHash.Preimage(found.value)))
             && d.authority == ResolveAuthority(q.context, q.authority, s.resolvedAt)
             && d.timestamp.None? && (d.success <==> done) && (d.errors.None? <==> done)
             && d.outputValidationPassed
                == (if done then Some(true) else if s.adapter.Threw? then None else Some(false))
             && d.executionClass.Some? && IsLetter(d.executionClass.value, m.executionClass)
             && d.idempotencyKey == (if done then IdempotencyKeyOf(q.input) else None)
             && d.replayKey == (if done && TracksReplay(m)
                                then Some(policyKey + [COLON] + Stringify(SortKeysDeep(q.input))) else None)
    ensures TellsCall(digest, reg, q, s, stop, found, d) && TellsClass(reg, q, stop, found, d)
  {
    LateStagesDiffer();
    EarlyIffNotRan(stop);
    hide Ascii, ResolveAuthority, IdempotencyKeyOf, Ran, IsLetter, Stringify, SortKeysDeep;
  }

  lemma EarlyDraftTells(digest: Text -> Text, reg: Registry, q: Request, s: Surroundings, stop: Text,
                        found: Option<DefinitionHash.Definition>, d: Draft, errors: seq<Json>)
    requires Early(stop) && found == Resolve(reg, q.capability, q.hint)
    requires d == FailureDraft(q.capability, ResolvedVersion(reg, q), None,
                               ResolveAuthority(q.context, q.authority, s.resolvedAt), ResolvedMeta(reg, q), stop, None,
                               errors)
    ensures TellsCall(digest, reg, q, s, stop, found, d) && TellsClass(reg, q, stop, found, d)
  {
    EarlyIffNotRan(stop);
    LettersAre();
    hide Ascii, Resolve, ResolveAuthority, IdempotencyKeyOf, Ran, Early, IsLetter;
  }

  /**
   A call whose store is there and verifies appends exactly one receipt, made from a draft that tells the call, unless
   that append fails; its outcome returns this receipt, and the errors it reports are those of the draft.
   */
  lemma CallTells(digest: Text -> Text, o: Options, reg: Registry, p: Process, q: Request, s: Surroundings,
                  found: Option<DefinitionHash.Definition>) returns (d: Draft, stop: Text)
    requires Coherent(p) && StartsUp(digest, s, p) && Finds(reg, q, found)
    ensures stop == StopsAt(reg, p, q, s, found)
    ensures TellsCall(digest, reg, q, s, stop, found, d) && TellsClass(reg, q, stop, found, d)
    ensures var r := NextReceipt(digest, o, p.memory.heads, d, s.persistedAt);
            var out := GovernedOutcome(digest, o, reg, p, q, s);
            && GovernedStep(digest, o, reg, p, q, s).journal.receipts
               == p.journal.receipts + (if s.fault.ReceiptAppendFails? then [] else [r])
            && (out.Success? ==> out.receipt == r)
            && (out.Failure? ==> out.recorded.None? || out.recorded == Some(r))
            && (stop != Ascii("executed") ==> out.Failure? && d.errors == Some(out.errors))
  {
    stop := StopsAt(reg, p, q, s, found);
    d := Decide(digest, reg, q, s, p.memory).draft;
    DraftTells(digest, reg, p, q, s, found);
    DecisionTells(digest, reg, p, q, s, found);
    hide Decide, StopsAt, Finds, Verified, Ascii, NextReceipt, TellsCall, TellsClass, Coherent, NextAnchor;
  }
}
