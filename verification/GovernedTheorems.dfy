/** Replay protection of the governed pipeline over every run of calls, crashes and restarts. */
module GovernedRuns {
  import opened Texts
  import opened CanonicalJson
  import opened CanonicalJsonTheorems
  import opened SortedKeys
  import opened Receipts
  import opened Enforcement
  import opened GovernanceRuntime
  import opened GovernedExecution
  import opened JournalRuns

  // ------------------------------------------------------------- replay keys

  lemma {:induction false} UpToStops(u: Unit, t: Text, x: Text)
    ensures UpTo(u, t + [u] + x) == UpTo(u, t)
    ensures IndexOf(u, t + [u] + x).Some?
  {
    var whole := t + [u] + x;
    if t == [] || t[0] == u {
    } else {
      UpToStops(u, t[1..], x);
      assert whole[1..] == t[1..] + [u] + x;
      assert whole[..1] + UpTo(u, whole[1..]) == UpTo(u, whole);
      assert t[..1] + UpTo(u, t[1..]) == UpTo(u, t);
    }
  }

  lemma UpToWhole(u: Unit, t: Text)
    requires u !in t
    ensures UpTo(u, t) == t
  {
  }

  /**
   Two inputs of one capability share a replay key exactly when what is left of them without keys `__proto__` is
   equal up to key order; where neither has such a key, exactly when they are equal up to key order.
   */
  lemma ReplayKeyIsExact(policyKey: Text, a: Json, b: Json)
    requires WellFormed(a) && WellFormed(b)
    ensures ReplayKey(policyKey, a) == ReplayKey(policyKey, b) <==> Same(Stripped(a), Stripped(b))
    ensures ProtoFree(a) && ProtoFree(b) ==> (ReplayKey(policyKey, a) == ReplayKey(policyKey, b) <==> Same(a, b))
  {
    var prefix := policyKey + [COLON];
    assert ReplayKey(policyKey, a)[|prefix|..] == Stringify(SortKeysDeep(a));
    assert ReplayKey(policyKey, b)[|prefix|..] == Stringify(SortKeysDeep(b));
    ParseUndoesStringify(SortKeysDeep(a));
    ParseUndoesStringify(SortKeysDeep(b));
    SortedAlikeIffSame(a, b);
    if ProtoFree(a) && ProtoFree(b) {
      NothingToStrip(a);
      NothingToStrip(b);
    }
  }

  /** The guard is tight: an input with a key `__proto__` anywhere shares its replay key with a different input. */
  lemma ProtoKeyIsNotSeen(policyKey: Text, a: Json)
    requires WellFormed(a)
    ensures WellFormed(Stripped(a)) && ReplayKey(policyKey, a) == ReplayKey(policyKey, Stripped(a))
    ensures Same(a, Stripped(a)) <==> ProtoFree(a)
  {
    StrippedIsWellFormed(a);
    StrippedIsProtoFree(a);
    NothingToStrip(Stripped(a));
    SameIsReflexive(Stripped(a));
    ReplayKeyIsExact(policyKey, a, Stripped(a));
    StrippingLosesIff(a);
  }

  /** The part of the policy key before its first colon has an at-sign that is not its first unit. */
  predicate Blockable(policyKey: Text) {
    var at := LastIndexOf(AT_SIGN, UpTo(COLON, policyKey));
    at.Some? && at.value > 0
  }

  /** The policy key has no colon and an at-sign that is not its first unit. */
  predicate Bindable(policyKey: Text) {
    COLON !in policyKey && Blockable(policyKey)
  }

  /** Every capability id that is not empty and has no colon is protected, whatever its version. */
  lemma NamedCapabilitiesAreBlockable(capability: Text, version: Text)
    requires capability != [] && COLON !in capability
    ensures Blockable(PolicyKey(capability, version))
    ensures COLON !in version ==> Bindable(PolicyKey(capability, version))
  {
    var pk := PolicyKey(capability, version);
    var prefix := UpTo(COLON, pk);
    assert pk[|capability|] == AT_SIGN;
    assert forall i | 0 <= i < |capability| :: pk[i] == capability[i];
    assert |prefix| > |capability| && prefix[|capability|] == AT_SIGN;
  }

  ghost predicate IsRun(r: Receipt, policyKey: Text, text: Text) {
    r.core.success && r.core.stage == EXECUTED && r.core.replayKey == Some(policyKey + [COLON] + text)
  }

  /** A successful run gets a ledger entry exactly when its policy key is blockable. */
  lemma RunEntry(r: Receipt, policyKey: Text, text: Text)
    requires IsRun(r, policyKey, text)
    ensures ToReplayEntry(r).Some? <==> Blockable(policyKey)
    ensures Blockable(policyKey) ==>
              var e := ToReplayEntry(r).value;
              && e.replayKey == policyKey + [COLON] + text
              && e.capability + [AT_SIGN] + e.version == UpTo(COLON, policyKey)
              && e.idempotencyKey == Truthy(r.core.idempotencyKey)
  {
    UpToStops(COLON, policyKey, text);
    var capVersion := UpTo(COLON, policyKey);
    var at := LastIndexOf(AT_SIGN, capVersion);
    if at.Some? {
      assert capVersion == capVersion[..at.value] + [AT_SIGN] + capVersion[at.value + 1..];
    }
  }

  // -------------------------------------------------------------------- runs

  /** `CrashIn`: the process dies inside the call, as far as its fault says, and a new one starts. */
  datatype GovernedEvent =
    | Execute(q: Request, s: Surroundings)
    | CrashIn(q: Request, s: Surroundings)
    | Restart

  ghost function Advance(digest: Text -> Text, o: Options, reg: Registry, p: Process, e: GovernedEvent): Process {
    match e
    case Execute(q, s) => GovernedStep(digest, o, reg, p, q, s)
    case CrashIn(q, s) =>
      var j := GovernedStep(digest, o, reg, p, q, s).journal;
      Process(j, Load(j))
    case Restart => Process(p.journal, Load(p.journal))
  }

  ghost function After(digest: Text -> Text, o: Options, reg: Registry, p: Process, es: seq<GovernedEvent>): Process {
    if es == [] then p
    else Advance(digest, o, reg, After(digest, o, reg, p, es[..|es| - 1]), es[|es| - 1])
  }

  /** The process on which event `i` of a run starts. */
  ghost function Before(digest: Text -> Text, o: Options, reg: Registry, p: Process, es: seq<GovernedEvent>,
                        i: nat): Process
    requires i <= |es|
  {
    After(digest, o, reg, p, es[..i])
  }

  ghost predicate Good(digest: Text -> Text, p: Process) {
    Coherent(p) && Verified(digest, p.journal)
  }

  lemma PersistKeepsGood(digest: Text -> Text, o: Options, p: Process, d: Draft, now: Text, fault: Fault)
    requires Good(digest, p)
    ensures Good(digest, PersistStep(digest, o, p, d, now, fault))
    ensures p.journal.receipts <= PersistStep(digest, o, p, d, now, fault).journal.receipts
  {
    StepKeepsCoherence(digest, o, p, d, now, fault);
    StepKeepsVerified(digest, o, p, d, now, fault);
  }

  lemma AdvanceKeepsGood(digest: Text -> Text, o: Options, reg: Registry, p: Process, e: GovernedEvent)
    requires Good(digest, p)
    ensures Good(digest, Advance(digest, o, reg, p, e))
    ensures p.journal.receipts <= Advance(digest, o, reg, p, e).journal.receipts
  {
    if !e.Restart? && StartsUp(digest, e.s, p) {
      PersistKeepsGood(digest, o, p, Decide(digest, reg, e.q, e.s, p.memory).draft, e.s.persistedAt, e.s.fault);
    }
  }

  lemma {:induction false} RunsStayGood(digest: Text -> Text, o: Options, reg: Registry, p: Process,
                                        es: seq<GovernedEvent>, i: nat)
    requires Good(digest, p) && i <= |es|
    ensures Good(digest, Before(digest, o, reg, p, es, i))
  {
    if i > 0 {
      RunsStayGood(digest, o, reg, p, es, i - 1);
      assert es[..i][..i - 1] == es[..i - 1];
      AdvanceKeepsGood(digest, o, reg, Before(digest, o, reg, p, es, i - 1), es[i - 1]);
    }
  }

  /** Receipts are only ever added at the end. */
  lemma {:induction false} ReceiptsGrow(digest: Text -> Text, o: Options, reg: Registry, p: Process,
                                        es: seq<GovernedEvent>, i: nat, k: nat)
    requires Good(digest, p) && i <= k <= |es|
    ensures Before(digest, o, reg, p, es, i).journal.receipts <= Before(digest, o, reg, p, es, k).journal.receipts
    decreases k - i
  {
    if i < k {
      ReceiptsGrow(digest, o, reg, p, es, i, k - 1);
      RunsStayGood(digest, o, reg, p, es, k - 1);
      assert es[..k][..k - 1] == es[..k - 1];
      AdvanceKeepsGood(digest, o, reg, Before(digest, o, reg, p, es, k - 1), es[k - 1]);
    }
  }

  /** With its store available, a governed call never fails on its own startup checks. */
  lemma StartupNeverFails(digest: Text -> Text, o: Options, reg: Registry, p: Process, es: seq<GovernedEvent>, i: nat)
    requires Good(digest, p) && i < |es| && es[i].Execute? && es[i].s.storeAvailable
    ensures !GovernedOutcome(digest, o, reg, Before(digest, o, reg, p, es, i), es[i].q, es[i].s).StartupFailed?
  {
    RunsStayGood(digest, o, reg, p, es, i);
  }

  // ----------------------------------------------------------- one governed call

  /** The capability and version a request resolves to, with their metadata. */
  ghost predicate ResolvesTo(reg: Registry, q: Request, version: Text, meta: Meta) {
    && Resolve(reg, q.capability, q.hint).Some?
    && Resolve(reg, q.capability, q.hint).value.version == version
    && MetaOf(reg, q.capability, version) == Some(meta)
  }

  /** The adapter is invoked for this call. */
  ghost predicate Invoked(digest: Text -> Text, reg: Registry, p: Process, q: Request, s: Surroundings) {
    && StartsUp(digest, s, p)
    && Prepare(digest, reg, q, s.preparedAt, p.memory).Prepared?
  }

  /** The call passes every check and its `executed` receipt reaches the journal. */
  ghost predicate Recorded(digest: Text -> Text, reg: Registry, p: Process, q: Request, s: Surroundings) {
    && StartsUp(digest, s, p)
    && Decide(digest, reg, q, s, p.memory).output.Some?
    && !s.fault.ReceiptAppendFails?
  }

  ghost function RunReceipt(digest: Text -> Text, o: Options, reg: Registry, p: Process, q: Request,
                            s: Surroundings): Receipt {
    NextReceipt(digest, o, p.memory.heads, Decide(digest, reg, q, s, p.memory).draft, s.persistedAt)
  }

  /** Success is reported only for a recorded run, and a recorded run that loses its anchor reports failure. */
  lemma SuccessMeansRecorded(digest: Text -> Text, o: Options, reg: Registry, p: Process, q: Request, s: Surroundings)
    ensures GovernedOutcome(digest, o, reg, p, q, s).Success? <==> Recorded(digest, reg, p, q, s) && s.fault.NoFault?
    ensures Recorded(digest, reg, p, q, s) && s.fault.AnchorAppendFails? ==>
              GovernedOutcome(digest, o, reg, p, q, s).Failure?
              && GovernedOutcome(digest, o, reg, p, q, s).stage == Ascii("receipt_persistence")
    ensures Recorded(digest, reg, p, q, s) ==> Invoked(digest, reg, p, q, s)
  {
  }

  /** A prepared call has a definition and metadata. */
  lemma PreparedResolves(digest: Text -> Text, reg: Registry, q: Request, now: Text, memory: Memory)
    requires Prepare(digest, reg, q, now, memory).Prepared?
    ensures var version := Prepare(digest, reg, q, now, memory).version;
            && Resolve(reg, q.capability, q.hint).Some?
            && Resolve(reg, q.capability, q.hint).value.version == version
            && MetaOf(reg, q.capability, version).Some?
  {
  }

  /** The replay gate had no objection to a prepared call. */
  lemma PreparedShape(digest: Text -> Text, reg: Registry, q: Request, now: Text, memory: Memory)
    requires Prepare(digest, reg, q, now, memory).Prepared?
    ensures var version := Prepare(digest, reg, q, now, memory).version;
            && Resolve(reg, q.capability, q.hint).Some?
            && Resolve(reg, q.capability, q.hint).value.version == version
            && MetaOf(reg, q.capability, version).Some?
            && ReplayRefusal(MetaOf(reg, q.capability, version).value, q.capability, version, q.input, memory).None?
  {
    PreparedResolves(digest, reg, q, now, memory);
    var version := Resolve(reg, q.capability, q.hint).value.version;
    var refusal := ReplayRefusal(MetaOf(reg, q.capability, version).value, q.capability, version, q.input, memory);
    assert refusal.Some? ==> Prepare(digest, reg, q, now, memory).Refused?;
  }

  lemma DecisionShape(digest: Text -> Text, reg: Registry, q: Request, s: Surroundings, memory: Memory)
    ensures var v := Decide(digest, reg, q, s, memory);
            if v.output.None? then !v.draft.success
            else
              var prep := Prepare(digest, reg, q, s.preparedAt, memory);
              && prep.Prepared?
              && MetaOf(reg, q.capability, prep.version).Some?
              && v.draft == SuccessDraft(q, prep.version, prep.definitionHash,
                                         ResolveAuthority(q.context, q.authority, s.resolvedAt),
                                         MetaOf(reg, q.capability, prep.version).value)
  {
  }

  lemma ReceiptOfDraft(digest: Text -> Text, o: Options, heads: map<Text, Text>, d: Draft, now: Text)
    ensures var c := NextReceipt(digest, o, heads, d, now).core;
            && c.success == d.success && c.stage == d.stage
            && c.replayKey == Truthy(d.replayKey) && c.idempotencyKey == Truthy(d.idempotencyKey)
  {
  }

  /** What a recorded run of a replay-tracking capability leaves in the journal. */
  lemma RecordedRun(digest: Text -> Text, o: Options, reg: Registry, p: Process, q: Request, s: Surroundings,
                    version: Text, meta: Meta)
    requires Recorded(digest, reg, p, q, s) && ResolvesTo(reg, q, version, meta) && TracksReplay(meta)
    ensures var r := RunReceipt(digest, o, reg, p, q, s);
            && GovernedStep(digest, o, reg, p, q, s).journal.receipts == p.journal.receipts + [r]
            && IsRun(r, PolicyKey(q.capability, version), Stringify(SortKeysDeep(q.input)))
            && r.core.idempotencyKey == IdempotencyKeyOf(q.input)
            && ReplayRefusal(meta, q.capability, version, q.input, p.memory).None?
  {
    DecisionShape(digest, reg, q, s, p.memory);
    PreparedShape(digest, reg, q, s.preparedAt, p.memory);
    var d := Decide(digest, reg, q, s, p.memory).draft;
    ReceiptOfDraft(digest, o, p.memory.heads, d, s.persistedAt);
    var pk := PolicyKey(q.capability, version);
    assert ReplayKey(pk, q.input)[|pk|] == COLON;
  }

  /** Every other receipt of a call records no success. */
  lemma OtherReceipts(digest: Text -> Text, o: Options, reg: Registry, p: Process, q: Request, s: Surroundings)
    requires Decide(digest, reg, q, s, p.memory).output.None?
    ensures !RunReceipt(digest, o, reg, p, q, s).core.success
    ensures ToReplayEntry(RunReceipt(digest, o, reg, p, q, s)).None?
  {
    DecisionShape(digest, reg, q, s, p.memory);
    ReceiptOfDraft(digest, o, p.memory.heads, Decide(digest, reg, q, s, p.memory).draft, s.persistedAt);
  }

  // --------------------------------------------------------------- at most once

  ghost predicate IsBlocked(meta: Meta) {
    meta.executionClass.ClassB? && meta.replayBehavior == Some(Blocked)
  }

  lemma RunIsBlocked(rs: seq<Receipt>, i: nat, policyKey: Text, text: Text)
    requires i < |rs| && IsRun(rs[i], policyKey, text) && Blockable(policyKey)
    ensures policyKey + [COLON] + text in BlockedReplay(rs)
  {
    RunEntry(rs[i], policyKey, text);
    var k := LastBlockedWriter(rs, policyKey + [COLON] + text);
    assert WritesBlocked(rs[i], policyKey + [COLON] + text);
  }

  /** A recorded run of this policy key on this input. */
  ghost predicate RunOf(r: Receipt, policyKey: Text, input: Json) {
    IsRun(r, policyKey, Stringify(SortKeysDeep(input)))
  }

  /** A run on record is one on this input exactly when its own input agrees up to keys `__proto__` and key order. */
  ghost predicate RunsTellInput(rs: seq<Receipt>, policyKey: Text, input: Json) {
    forall i, past | 0 <= i < |rs| && WellFormed(past) && RunOf(rs[i], policyKey, past) ::
      RunOf(rs[i], policyKey, input) <==> Same(Stripped(past), Stripped(input))
  }

  lemma RunsTell(rs: seq<Receipt>, policyKey: Text, input: Json)
    requires WellFormed(input)
    ensures RunsTellInput(rs, policyKey, input)
  {
    hide Stringify, SortKeysDeep, Stripped, Same, WellFormed;
    forall i, past | 0 <= i < |rs| && WellFormed(past) && RunOf(rs[i], policyKey, past)
      ensures RunOf(rs[i], policyKey, input) <==> Same(Stripped(past), Stripped(input))
    {
      ReplayKeyIsExact(policyKey, past, input);
    }
  }

  /**
   A blocked capability refuses an input exactly when a run on this input is on record, or a required key is
   missing. A run on another input counts as one on this input exactly when the two agree up to keys `__proto__` and
   key order.
   */
  lemma RefusedIffOnRecord(p: Process, meta: Meta, capability: Text, version: Text, input: Json)
    requires Coherent(p) && IsBlocked(meta)
    requires Blockable(PolicyKey(capability, version))
    ensures ReplayRefusal(meta, capability, version, input, p.memory).Some? <==>
            || (meta.idempotency == Some(Keyed) && IdempotencyKeyOf(input).None?)
            || exists i | 0 <= i < |p.journal.receipts| ::
               RunOf(p.journal.receipts[i], PolicyKey(capability, version), input)
    ensures WellFormed(input) ==> RunsTellInput(p.journal.receipts, PolicyKey(capability, version), input)
  {
    var rs := p.journal.receipts;
    var pk, text := PolicyKey(capability, version), Stringify(SortKeysDeep(input));
    hide Stringify, SortKeysDeep, RunsTellInput;
    if WellFormed(input) {
      RunsTell(rs, pk, input);
    }
    if ReplayKey(pk, input) in p.memory.blocked {
      var i := LastBlockedWriter(rs, ReplayKey(pk, input));
      assert RunOf(rs[i], pk, input);
    }
    if i :| 0 <= i < |rs| && RunOf(rs[i], pk, input) {
      RunIsBlocked(rs, i, pk, text);
    }
  }

  /** Two events that ask the same of one blocked capability. */
  ghost predicate SameBlockedCall(reg: Registry, q1: Request, q2: Request, version: Text, meta: Meta) {
    && ResolvesTo(reg, q1, version, meta) && ResolvesTo(reg, q2, version, meta) && IsBlocked(meta)
    && q1.capability == q2.capability
    && WellFormed(q1.input) && WellFormed(q2.input) && Same(q1.input, q2.input)
  }

  /** The run recorded by event `i` is on record at every later event `k`. */
  lemma RunStaysOnRecord(digest: Text -> Text, o: Options, reg: Registry, p: Process, es: seq<GovernedEvent>, i: nat,
                         k: nat, version: Text, meta: Meta) returns (n: nat)
    requires Good(digest, p) && i < k <= |es| && !es[i].Restart?
    requires ResolvesTo(reg, es[i].q, version, meta) && TracksReplay(meta)
    requires Recorded(digest, reg, Before(digest, o, reg, p, es, i), es[i].q, es[i].s)
    ensures var p1, rs := Before(digest, o, reg, p, es, i), Before(digest, o, reg, p, es, k).journal.receipts;
            n < |rs| && rs[n] == RunReceipt(digest, o, reg, p1, es[i].q, es[i].s)
  {
    var p1 := Before(digest, o, reg, p, es, i);
    RunsStayGood(digest, o, reg, p, es, i);
    RecordedRun(digest, o, reg, p1, es[i].q, es[i].s, version, meta);
    hide Recorded, ResolvesTo, TracksReplay, IsRun, GovernedStep, RunReceipt, Good;
    assert es[..i + 1][..i] == es[..i];
    n := |p1.journal.receipts|;
    assert Before(digest, o, reg, p, es, i + 1).journal.receipts[n] == RunReceipt(digest, o, reg, p1, es[i].q, es[i].s);
    ReceiptsGrow(digest, o, reg, p, es, i + 1, k);
  }

  /** With an equal run on record, a blocked capability is refused before its adapter is invoked. */
  lemma OnRecordIsNotInvoked(digest: Text -> Text, reg: Registry, p: Process, q: Request, s: Surroundings,
                             version: Text, meta: Meta, n: nat)
    requires Coherent(p) && ResolvesTo(reg, q, version, meta) && IsBlocked(meta)
    requires Blockable(PolicyKey(q.capability, version))
    requires n < |p.journal.receipts|
    requires IsRun(p.journal.receipts[n], PolicyKey(q.capability, version), Stringify(SortKeysDeep(q.input)))
    ensures !Invoked(digest, reg, p, q, s)
  {
    RefusedIffOnRecord(p, meta, q.capability, version, q.input);
    assert RunOf(p.journal.receipts[n], PolicyKey(q.capability, version), q.input);
    if Invoked(digest, reg, p, q, s) {
      PreparedShape(digest, reg, q, s.preparedAt, p.memory);
    }
  }

  /**
   Once a run of a blocked capability is on record, no later call with an equal input even invokes the adapter.
   The first event may have reported success, may have reported `receipt_persistence`, or may have crashed.
   */
  lemma NoSecondRun(digest: Text -> Text, o: Options, reg: Registry, p: Process, es: seq<GovernedEvent>, i: nat, k: nat,
                    version: Text, meta: Meta)
    requires Good(digest, p) && i < k < |es| && !es[i].Restart? && !es[k].Restart?
    requires SameBlockedCall(reg, es[i].q, es[k].q, version, meta)
    requires Blockable(PolicyKey(es[i].q.capability, version))
    requires Recorded(digest, reg, Before(digest, o, reg, p, es, i), es[i].q, es[i].s)
    ensures !Invoked(digest, reg, Before(digest, o, reg, p, es, k), es[k].q, es[k].s)
  {
    var pk := PolicyKey(es[i].q.capability, version);
    RecordedRun(digest, o, reg, Before(digest, o, reg, p, es, i), es[i].q, es[i].s, version, meta);
    var n := RunStaysOnRecord(digest, o, reg, p, es, i, k, version, meta);
    RunsStayGood(digest, o, reg, p, es, k);
    SameSortsAlike(es[i].q.input, es[k].q.input);
    OnRecordIsNotInvoked(digest, reg, Before(digest, o, reg, p, es, k), es[k].q, es[k].s, version, meta, n);
  }

  /** A blocked capability reports success at most once per capability, version and input up to key order. */
  lemma AtMostOneSuccess(digest: Text -> Text, o: Options, reg: Registry, p: Process, es: seq<GovernedEvent>, i: nat,
                         k: nat, version: Text, meta: Meta)
    requires Good(digest, p) && i < k < |es| && es[i].Execute? && es[k].Execute?
    requires SameBlockedCall(reg, es[i].q, es[k].q, version, meta)
    requires Blockable(PolicyKey(es[i].q.capability, version))
    ensures !(GovernedOutcome(digest, o, reg, Before(digest, o, reg, p, es, i), es[i].q, es[i].s).Success?
              && GovernedOutcome(digest, o, reg, Before(digest, o, reg, p, es, k), es[k].q, es[k].s).Success?)
  {
    SuccessMeansRecorded(digest, o, reg, Before(digest, o, reg, p, es, i), es[i].q, es[i].s);
    SuccessMeansRecorded(digest, o, reg, Before(digest, o, reg, p, es, k), es[k].q, es[k].s);
    if Recorded(digest, reg, Before(digest, o, reg, p, es, i), es[i].q, es[i].s) {
      NoSecondRun(digest, o, reg, p, es, i, k, version, meta);
    }
  }

  /** Admission looks at memory only through the replay gate. */
  lemma PrepareDependsOnGate(digest: Text -> Text, reg: Registry, q: Request, now: Text, m1: Memory, m2: Memory,
                             version: Text, meta: Meta)
    requires Prepare(digest, reg, q, now, m1).Prepared? && ResolvesTo(reg, q, version, meta)
    requires ReplayRefusal(meta, q.capability, version, q.input, m2).None?
    ensures Prepare(digest, reg, q, now, m2) == Prepare(digest, reg, q, now, m1)
  {
  }

  /**
   The condition on the policy key is exact: right after a success, the very same call succeeds again
   if and only if the policy key is not blockable.
   */
  lemma RepeatSucceedsIffNotBlockable(digest: Text -> Text, o: Options, reg: Registry, p: Process, q: Request,
                                      s: Surroundings, version: Text, meta: Meta)
    requires Good(digest, p) && ResolvesTo(reg, q, version, meta) && IsBlocked(meta)
    requires GovernedOutcome(digest, o, reg, p, q, s).Success?
    ensures var p' := GovernedStep(digest, o, reg, p, q, s);
            GovernedOutcome(digest, o, reg, p', q, s).Success? <==> !Blockable(PolicyKey(q.capability, version))
  {
    var p' := GovernedStep(digest, o, reg, p, q, s);
    var r := RunReceipt(digest, o, reg, p, q, s);
    var pk, text := PolicyKey(q.capability, version), Stringify(SortKeysDeep(q.input));
    var rs := p.journal.receipts;
    SuccessMeansRecorded(digest, o, reg, p, q, s);
    SuccessMeansRecorded(digest, o, reg, p', q, s);
    RecordedRun(digest, o, reg, p, q, s, version, meta);
    AdvanceKeepsGood(digest, o, reg, p, Execute(q, s));
    RunEntry(r, pk, text);
    ProjectionsAppend(rs, r);
    if Blockable(pk) {
      RunIsBlocked(rs + [r], |rs|, pk, text);
      if Invoked(digest, reg, p', q, s) {
        PreparedShape(digest, reg, q, s.preparedAt, p'.memory);
      }
    } else {
      assert p'.memory.blocked == p.memory.blocked;
      PrepareDependsOnGate(digest, reg, q, s.preparedAt, p.memory, p'.memory, version, meta);
      SameDecision(digest, reg, q, s, p.memory, p'.memory);
    }
  }

  lemma SameDecision(digest: Text -> Text, reg: Registry, q: Request, s: Surroundings, m1: Memory, m2: Memory)
    requires Prepare(digest, reg, q, s.preparedAt, m1) == Prepare(digest, reg, q, s.preparedAt, m2)
    ensures Decide(digest, reg, q, s, m1) == Decide(digest, reg, q, s, m2)
  {
  }
}
