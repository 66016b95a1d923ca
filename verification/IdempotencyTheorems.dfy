/** One idempotency key, one input: keyed capabilities over every run of calls, crashes and restarts. */
module IdempotencyRuns {
  import opened Texts
  import opened CanonicalJson
  import opened CanonicalJsonTheorems
  import opened SortedKeys
  import opened JsonNesting
  import opened Receipts
  import opened Enforcement
  import opened GovernanceRuntime
  import opened GovernedExecution
  import opened JournalRuns
  import opened GovernedRuns

  ghost predicate IsKeyed(meta: Meta) {
    meta.executionClass.ClassB? && meta.replayBehavior == Some(AllowedSameKey)
  }

  function Slot(policyKey: Text, key: Text): Text {
    policyKey + [HASH_SIGN] + key
  }

  /** A replay key of this policy key, for an input that is an object. */
  ghost predicate IsKeyOf(policyKey: Text, replayKey: Text) {
    exists fields: seq<Field> :: replayKey == policyKey + [COLON] + Stringify(Obj(fields))
  }

  /** A recorded run of this policy key under this idempotency key. */
  ghost predicate KeyedRun(r: Receipt, policyKey: Text, key: Text) {
    && r.core.success && r.core.stage == EXECUTED
    && r.core.replayKey.Some? && IsKeyOf(policyKey, r.core.replayKey.value)
    && Truthy(r.core.idempotencyKey) == Some(key)
  }

  /**
   All recorded runs under the key have one replay key, and the slot of the index holds that replay key
   unless a capability with another policy key has taken the slot.
   */
  ghost predicate Bound(rs: seq<Receipt>, policyKey: Text, key: Text) {
    OneReplayKey(rs, policyKey, key) && SlotKept(rs, policyKey, key)
  }

  ghost predicate OneReplayKey(rs: seq<Receipt>, policyKey: Text, key: Text) {
    forall i, k | 0 <= i < |rs| && 0 <= k < |rs| && KeyedRun(rs[i], policyKey, key)
           && KeyedRun(rs[k], policyKey, key) ::
      rs[i].core.replayKey == rs[k].core.replayKey
  }

  ghost predicate SlotKept(rs: seq<Receipt>, policyKey: Text, key: Text) {
    forall i | 0 <= i < |rs| && KeyedRun(rs[i], policyKey, key) :: SlotHolds(rs, policyKey, key, rs[i])
  }

  ghost predicate SlotHolds(rs: seq<Receipt>, policyKey: Text, key: Text, r: Receipt)
    requires KeyedRun(r, policyKey, key)
  {
    && Slot(policyKey, key) in IdempotencyIndex(rs)
    && var held := IdempotencyIndex(rs)[Slot(policyKey, key)].replayKey;
       IsKeyOf(policyKey, held) ==> held == r.core.replayKey.value
  }

  // ------------------------------------------------------------ texts with a colon

  lemma PolicyKeyIsCutOff(policyKey: Text, replayKey: Text)
    requires COLON !in policyKey && IsKeyOf(policyKey, replayKey)
    ensures UpTo(COLON, replayKey) == policyKey
  {
    var fields :| replayKey == policyKey + [COLON] + Stringify(Obj(fields));
    UpToStops(COLON, policyKey, Stringify(Obj(fields)));
    UpToWhole(COLON, policyKey);
  }

  /**
   A replay key of a colon-free policy key is a replay key of no other policy key, even one that extends it by a
   colon: the printed input of the one would have to end in the printed input of the other.
   */
  lemma OwnerOfReplayKey(policyKey: Text, owner: Text, j: Json)
    requires COLON !in policyKey && IsKeyOf(policyKey, owner + [COLON] + Stringify(j))
    ensures owner == policyKey
  {
    var fields :| owner + [COLON] + Stringify(j) == policyKey + [COLON] + Stringify(Obj(fields));
    hide Stringify;
    var whole := owner + [COLON] + Stringify(j);
    assert whole[|policyKey|] == COLON && whole[|owner|] == COLON;
    assert forall i | 0 <= i < |policyKey| :: whole[i] == policyKey[i];
    assert whole[..|owner|] == owner && whole[..|policyKey|] == policyKey;
    if |owner| > |policyKey| {
      var n := |policyKey| + 1;
      assert Stringify(Obj(fields)) == whole[n..] == owner[n..] + [COLON] + Stringify(j);
      NoPrintedEnding(fields, owner[n..], j);
    }
  }

  /** Which slot a ledger entry takes. */
  lemma SlotOfEntry(r: Receipt)
    requires ToReplayEntry(r).Some? && ToReplayEntry(r).value.idempotencyKey.Some?
    ensures var e := ToReplayEntry(r).value;
            IndexKey(e.capability, e.version, e.idempotencyKey.value)
            == Slot(UpTo(COLON, r.core.replayKey.value), e.idempotencyKey.value)
  {
    var capVersion := UpTo(COLON, r.core.replayKey.value);
    var at := LastIndexOf(AT_SIGN, capVersion).value;
    assert capVersion == capVersion[..at] + [AT_SIGN] + capVersion[at + 1..];
  }

  // ----------------------------------------------------------------- one receipt

  /** Whoever writes the slot with a replay key of this policy key is a run under the key. */
  lemma WriterOfSlot(r: Receipt, policyKey: Text, key: Text)
    requires COLON !in policyKey && WritesIndex(r, Slot(policyKey, key))
    requires IsKeyOf(policyKey, r.core.replayKey.value)
    ensures KeyedRun(r, policyKey, key)
  {
    SlotOfEntry(r);
    PolicyKeyIsCutOff(policyKey, r.core.replayKey.value);
    var written := ToReplayEntry(r).value.idempotencyKey.value;
    assert Slot(policyKey, written)[|policyKey| + 1..] == written;
    assert Slot(policyKey, key)[|policyKey| + 1..] == key;
  }

  /** A receipt that is no run under the key cannot put a replay key of this policy key into the slot. */
  lemma OthersKeepBound(rs: seq<Receipt>, r: Receipt, policyKey: Text, key: Text)
    requires COLON !in policyKey && Bound(rs, policyKey, key) && !KeyedRun(r, policyKey, key)
    ensures Bound(rs + [r], policyKey, key)
  {
    ProjectionsAppend(rs, r);
    var rs' := rs + [r];
    var slot := Slot(policyKey, key);
    if WritesIndex(r, slot) && IsKeyOf(policyKey, r.core.replayKey.value) {
      WriterOfSlot(r, policyKey, key);
    }
    forall i | 0 <= i < |rs'| && KeyedRun(rs'[i], policyKey, key)
      ensures SlotHolds(rs', policyKey, key, rs'[i])
    {
      assert rs'[i] == rs[i] && SlotHolds(rs, policyKey, key, rs[i]);
    }
  }

  /** A run writes its own replay key into its slot. */
  lemma RunTakesSlot(rs: seq<Receipt>, r: Receipt, policyKey: Text, text: Text, key: Text)
    requires Bindable(policyKey) && IsRun(r, policyKey, text) && r.core.idempotencyKey == Some(key) && key != []
    ensures var index := IdempotencyIndex(rs + [r]);
            Slot(policyKey, key) in index && index[Slot(policyKey, key)].replayKey == r.core.replayKey.value
  {
    ProjectionsAppend(rs, r);
    RunEntry(r, policyKey, text);
    UpToStops(COLON, policyKey, text);
    UpToWhole(COLON, policyKey);
    SlotOfEntry(r);
  }

  /** If the slot holds the replay key `held` of this policy key, so do all runs under the key. */
  lemma RunsMatchSlot(rs: seq<Receipt>, policyKey: Text, key: Text, held: Text)
    requires SlotKept(rs, policyKey, key) && IsKeyOf(policyKey, held)
    requires Slot(policyKey, key) in IdempotencyIndex(rs) ==>
             IdempotencyIndex(rs)[Slot(policyKey, key)].replayKey == held
    ensures forall i | 0 <= i < |rs| && KeyedRun(rs[i], policyKey, key) :: rs[i].core.replayKey == Some(held)
  {
    forall i | 0 <= i < |rs| && KeyedRun(rs[i], policyKey, key)
      ensures rs[i].core.replayKey == Some(held)
    {
      assert SlotHolds(rs, policyKey, key, rs[i]);
    }
  }

  /** A run under the key that agrees with what the slot holds keeps the binding. */
  lemma RunKeepsBound(rs: seq<Receipt>, r: Receipt, policyKey: Text, text: Text, key: Text)
    requires Bindable(policyKey) && Bound(rs, policyKey, key) && IsKeyOf(policyKey, policyKey + [COLON] + text)
    requires IsRun(r, policyKey, text) && r.core.idempotencyKey == Some(key) && key != []
    requires Slot(policyKey, key) in IdempotencyIndex(rs) ==>
               IdempotencyIndex(rs)[Slot(policyKey, key)].replayKey == policyKey + [COLON] + text
    ensures Bound(rs + [r], policyKey, key)
  {
    var held := policyKey + [COLON] + text;
    RunTakesSlot(rs, r, policyKey, text, key);
    RunsMatchSlot(rs, policyKey, key, held);
    AllHold(rs + [r], policyKey, key, held);
  }

  lemma AllHold(rs: seq<Receipt>, policyKey: Text, key: Text, held: Text)
    requires forall i | 0 <= i < |rs| && KeyedRun(rs[i], policyKey, key) :: rs[i].core.replayKey == Some(held)
    requires Slot(policyKey, key) in IdempotencyIndex(rs)
             && IdempotencyIndex(rs)[Slot(policyKey, key)].replayKey == held
    ensures Bound(rs, policyKey, key)
  {
  }

  // ------------------------------------------------------------------- every run

  /** The keyed capability under study, as registered. */
  ghost predicate KeyedCapability(reg: Registry, policyKey: Text) {
    policyKey in reg.metas && IsKeyed(reg.metas[policyKey]) && Bindable(policyKey)
  }

  lemma TrimmedIsNotEmpty(input: Json)
    ensures IdempotencyKeyOf(input).Some? ==> IdempotencyKeyOf(input).value != []
  {
  }

  /** The run receipt of a call is a run under the key only if the call is one of this capability with this key. */
  lemma RunUnderKey(digest: Text -> Text, o: Options, reg: Registry, p: Process, q: Request, s: Surroundings,
                    policyKey: Text, key: Text)
    returns (version: Text, meta: Meta)
    requires KeyedCapability(reg, policyKey)
    requires Recorded(digest, reg, p, q, s) && KeyedRun(RunReceipt(digest, o, reg, p, q, s), policyKey, key)
    ensures ResolvesTo(reg, q, version, meta) && PolicyKey(q.capability, version) == policyKey
    ensures meta == reg.metas[policyKey] && IdempotencyKeyOf(q.input) == Some(key)
  {
    DecisionShape(digest, reg, q, s, p.memory);
    PreparedResolves(digest, reg, q, s.preparedAt, p.memory);
    version := Prepare(digest, reg, q, s.preparedAt, p.memory).version;
    meta := MetaOf(reg, q.capability, version).value;
    ReceiptOfDraft(digest, o, p.memory.heads, Decide(digest, reg, q, s, p.memory).draft, s.persistedAt);
    OwnerOfReplayKey(policyKey, PolicyKey(q.capability, version), SortKeysDeep(q.input));
  }

  /** An input with an idempotency key is an object, so its replay key is one of an object. */
  lemma KeyedInputIsObject(policyKey: Text, input: Json)
    requires IdempotencyKeyOf(input).Some?
    ensures IsKeyOf(policyKey, ReplayKey(policyKey, input))
  {
    assert SortKeysDeep(input).Obj?;
    assert ReplayKey(policyKey, input) == policyKey + [COLON] + Stringify(Obj(SortKeysDeep(input).fields));
  }

  lemma SlotIsIndexKey(capability: Text, version: Text, key: Text)
    ensures IndexKey(capability, version, key) == Slot(PolicyKey(capability, version), key)
  {
  }

  /** A call adds its receipt, unless it never starts or the append fails. */
  lemma StepReceipts(digest: Text -> Text, o: Options, reg: Registry, p: Process, q: Request, s: Surroundings)
    ensures GovernedStep(digest, o, reg, p, q, s).journal.receipts
            == if StartsUp(digest, s, p) && !s.fault.ReceiptAppendFails?
               then p.journal.receipts + [RunReceipt(digest, o, reg, p, q, s)]
               else p.journal.receipts
  {
    hide Decide, NextReceipt;
  }

  lemma KeyedRunIsRecorded(digest: Text -> Text, o: Options, reg: Registry, p: Process, q: Request, s: Surroundings,
                           policyKey: Text, key: Text)
    requires StartsUp(digest, s, p) && !s.fault.ReceiptAppendFails?
    requires KeyedRun(RunReceipt(digest, o, reg, p, q, s), policyKey, key)
    ensures Recorded(digest, reg, p, q, s)
  {
    hide RunReceipt;
    if Decide(digest, reg, q, s, p.memory).output.None? {
      OtherReceipts(digest, o, reg, p, q, s);
    }
  }

  /** The replay gate let the run through, so the slot was free or held the same replay key. */
  lemma SlotAgrees(p: Process, q: Request, version: Text, meta: Meta, key: Text)
    requires Coherent(p) && IsKeyed(meta) && IdempotencyKeyOf(q.input) == Some(key)
    requires ReplayRefusal(meta, q.capability, version, q.input, p.memory).None?
    ensures var pk := PolicyKey(q.capability, version);
            var index := IdempotencyIndex(p.journal.receipts);
            Slot(pk, key) in index ==> index[Slot(pk, key)].replayKey == pk + [COLON] + Stringify(SortKeysDeep(q.input))
  {
    SlotIsIndexKey(q.capability, version, key);
  }

  lemma KeyedStepKeepsBound(digest: Text -> Text, o: Options, reg: Registry, p: Process, q: Request, s: Surroundings,
                            policyKey: Text, key: Text)
    requires Coherent(p) && KeyedCapability(reg, policyKey) && Bound(p.journal.receipts, policyKey, key)
    requires Recorded(digest, reg, p, q, s) && KeyedRun(RunReceipt(digest, o, reg, p, q, s), policyKey, key)
    ensures Bound(p.journal.receipts + [RunReceipt(digest, o, reg, p, q, s)], policyKey, key)
  {
    hide Recorded, Bound, RunReceipt, Coherent, GovernedStep, ReplayRefusal;
    var version, meta := RunUnderKey(digest, o, reg, p, q, s, policyKey, key);
    RecordedRun(digest, o, reg, p, q, s, version, meta);
    SlotAgrees(p, q, version, meta, key);
    TrimmedIsNotEmpty(q.input);
    KeyedInputIsObject(policyKey, q.input);
    RunKeepsBound(p.journal.receipts, RunReceipt(digest, o, reg, p, q, s), policyKey,
                  Stringify(SortKeysDeep(q.input)), key);
  }

  lemma StepKeepsBound(digest: Text -> Text, o: Options, reg: Registry, p: Process, q: Request, s: Surroundings,
                       policyKey: Text, key: Text)
    requires Coherent(p) && KeyedCapability(reg, policyKey) && Bound(p.journal.receipts, policyKey, key)
    ensures Bound(GovernedStep(digest, o, reg, p, q, s).journal.receipts, policyKey, key)
  {
    hide Recorded, Bound, RunReceipt, KeyedRun, GovernedStep, Coherent;
    var r := RunReceipt(digest, o, reg, p, q, s);
    StepReceipts(digest, o, reg, p, q, s);
    if StartsUp(digest, s, p) && !s.fault.ReceiptAppendFails? {
      if KeyedRun(r, policyKey, key) {
        KeyedRunIsRecorded(digest, o, reg, p, q, s, policyKey, key);
        KeyedStepKeepsBound(digest, o, reg, p, q, s, policyKey, key);
      } else {
        OthersKeepBound(p.journal.receipts, r, policyKey, key);
      }
    }
  }

  lemma {:induction false} RunsStayBound(digest: Text -> Text, o: Options, reg: Registry, p: Process,
                                         es: seq<GovernedEvent>, i: nat, policyKey: Text, key: Text)
    requires Good(digest, p) && i <= |es|
    requires KeyedCapability(reg, policyKey) && Bound(p.journal.receipts, policyKey, key)
    ensures Bound(Before(digest, o, reg, p, es, i).journal.receipts, policyKey, key)
  {
    if i > 0 {
      RunsStayBound(digest, o, reg, p, es, i - 1, policyKey, key);
      RunsStayGood(digest, o, reg, p, es, i - 1);
      assert es[..i][..i - 1] == es[..i - 1];
      if !es[i - 1].Restart? {
        StepKeepsBound(digest, o, reg, Before(digest, o, reg, p, es, i - 1), es[i - 1].q, es[i - 1].s, policyKey, key);
      }
    }
  }

  /** A call of this capability with this key whose run reaches the journal. */
  ghost predicate RecordsUnderKey(digest: Text -> Text, reg: Registry, p: Process, e: GovernedEvent, version: Text,
                                  meta: Meta, policyKey: Text, key: Text) {
    && !e.Restart? && ResolvesTo(reg, e.q, version, meta) && PolicyKey(e.q.capability, version) == policyKey
    && IdempotencyKeyOf(e.q.input) == Some(key) && WellFormed(e.q.input)
    && Recorded(digest, reg, p, e.q, e.s)
  }

  lemma RecordIsKeyedRun(digest: Text -> Text, o: Options, reg: Registry, p: Process, e: GovernedEvent,
                         version: Text, meta: Meta, policyKey: Text, key: Text)
    requires RecordsUnderKey(digest, reg, p, e, version, meta, policyKey, key) && IsKeyed(meta)
    ensures KeyedRun(RunReceipt(digest, o, reg, p, e.q, e.s), policyKey, key)
    ensures RunReceipt(digest, o, reg, p, e.q, e.s).core.replayKey == Some(ReplayKey(policyKey, e.q.input))
  {
    RecordedRun(digest, o, reg, p, e.q, e.s, version, meta);
    TrimmedIsNotEmpty(e.q.input);
    KeyedInputIsObject(policyKey, e.q.input);
  }

  /** Receipt `n` is a run under the key with this input. */
  ghost predicate OnRecord(rs: seq<Receipt>, n: nat, policyKey: Text, key: Text, input: Json) {
    && n < |rs| && KeyedRun(rs[n], policyKey, key) && WellFormed(input)
    && rs[n].core.replayKey == Some(ReplayKey(policyKey, input))
  }

  /** The run of event `i` is a run under the key in every later journal. */
  lemma RecordStays(digest: Text -> Text, o: Options, reg: Registry, p: Process, es: seq<GovernedEvent>, i: nat, k: nat,
                    version: Text, meta: Meta, policyKey: Text, key: Text) returns (n: nat)
    requires Good(digest, p) && i < k <= |es| && IsKeyed(meta)
    requires RecordsUnderKey(digest, reg, Before(digest, o, reg, p, es, i), es[i], version, meta, policyKey, key)
    ensures OnRecord(Before(digest, o, reg, p, es, k).journal.receipts, n, policyKey, key, es[i].q.input)
  {
    n := RunStaysOnRecord(digest, o, reg, p, es, i, k, version, meta);
    RecordIsKeyedRun(digest, o, reg, Before(digest, o, reg, p, es, i), es[i], version, meta, policyKey, key);
  }

  lemma BoundRunsAgree(rs: seq<Receipt>, n1: nat, n2: nat, policyKey: Text, key: Text, a: Json, b: Json)
    requires Bound(rs, policyKey, key) && OnRecord(rs, n1, policyKey, key, a) && OnRecord(rs, n2, policyKey, key, b)
    ensures Same(Stripped(a), Stripped(b))
    ensures ProtoFree(a) && ProtoFree(b) ==> Same(a, b)
  {
    ReplayKeyIsExact(policyKey, a, b);
  }

  /**
   All runs of a keyed capability that reach the journal under one trimmed key have the same input up to key order,
   over any run of non-overlapping calls, crashes and restarts: the whole input where no key is `__proto__`, and
   otherwise what is left of it.
   */
  lemma OneKeyOneInput(digest: Text -> Text, o: Options, reg: Registry, p: Process, es: seq<GovernedEvent>, i: nat,
                       k: nat, v1: Text, v2: Text, meta: Meta, policyKey: Text, key: Text)
    requires Good(digest, p) && i < k < |es| && !es[i].Restart? && !es[k].Restart?
    requires KeyedCapability(reg, policyKey) && meta == reg.metas[policyKey]
    requires Bound(p.journal.receipts, policyKey, key)
    requires RecordsUnderKey(digest, reg, Before(digest, o, reg, p, es, i), es[i], v1, meta, policyKey, key)
    requires RecordsUnderKey(digest, reg, Before(digest, o, reg, p, es, k), es[k], v2, meta, policyKey, key)
    ensures Same(Stripped(es[i].q.input), Stripped(es[k].q.input))
    ensures ProtoFree(es[i].q.input) && ProtoFree(es[k].q.input) ==> Same(es[i].q.input, es[k].q.input)
  {
    hide Recorded, Good, Bound, OnRecord, Bindable, Same, WellFormed, Before, Decide, Resolve, MetaOf, Stripped,
         ProtoFree, RecordsUnderKey;
    var n1 := RecordStays(digest, o, reg, p, es, i, k + 1, v1, meta, policyKey, key);
    var n2 := RecordStays(digest, o, reg, p, es, k, k + 1, v2, meta, policyKey, key);
    RunsStayBound(digest, o, reg, p, es, k + 1, policyKey, key);
    BoundRunsAgree(Before(digest, o, reg, p, es, k + 1).journal.receipts, n1, n2, policyKey, key, es[i].q.input,
                   es[k].q.input);
  }

  /** A journal without runs under the key is bound, so the theorem applies from empty files. */
  lemma NothingIsBound(policyKey: Text, key: Text)
    ensures Bound([], policyKey, key)
  {
  }

  /** A new call is reached by the gate of a keyed capability only through its slot. */
  lemma GateReadsSlot(reg: Registry, p: Process, q: Request, version: Text, meta: Meta)
    requires Coherent(p) && IsKeyed(meta) && meta.idempotency == Some(Idempotency.Keyed)
             && IdempotencyKeyOf(q.input).Some?
    ensures var pk := PolicyKey(q.capability, version);
            var slot := Slot(pk, IdempotencyKeyOf(q.input).value);
            var index := IdempotencyIndex(p.journal.receipts);
            ReplayRefusal(meta, q.capability, version, q.input, p.memory).Some? <==>
            slot in index && index[slot].replayKey != ReplayKey(pk, q.input)
  {
    SlotIsIndexKey(q.capability, version, IdempotencyKeyOf(q.input).value);
  }

  /**
   The conditions are exact: after the first success from empty files, the replay gate refuses the same key with
   another input if and only if the policy key is bindable and the inputs differ in more than keys `__proto__`. With
   inputs that have no such key, it refuses a different input if and only if the policy key is bindable.
   */
  lemma KeyReuseIsRefusedIff(digest: Text -> Text, o: Options, reg: Registry, q1: Request, q2: Request, s: Surroundings,
                             version: Text, meta: Meta)
    requires ResolvesTo(reg, q1, version, meta) && IsKeyed(meta)
    requires q1.capability == q2.capability && IdempotencyKeyOf(q1.input) == IdempotencyKeyOf(q2.input)
    requires WellFormed(q1.input) && WellFormed(q2.input)
    requires var empty := Process(Journal([], []), Load(Journal([], [])));
             GovernedOutcome(digest, o, reg, empty, q1, s).Success?
    ensures var empty := Process(Journal([], []), Load(Journal([], [])));
            var p := GovernedStep(digest, o, reg, empty, q1, s);
            var refused := ReplayRefusal(meta, q2.capability, version, q2.input, p.memory).Some?;
            var pk := PolicyKey(q1.capability, version);
            && (refused <==> Bindable(pk) && !Same(Stripped(q1.input), Stripped(q2.input)))
            && (ProtoFree(q1.input) && ProtoFree(q2.input) && !Same(q1.input, q2.input) ==> (refused <==> Bindable(pk)))
  {
    var empty := Process(Journal([], []), Load(Journal([], [])));
    var p := GovernedStep(digest, o, reg, empty, q1, s);
    var r := RunReceipt(digest, o, reg, empty, q1, s);
    var pk := PolicyKey(q1.capability, version);
    EmptyIsVerified(digest);
    SuccessMeansRecorded(digest, o, reg, empty, q1, s);
    RecordedRun(digest, o, reg, empty, q1, s, version, meta);
    AdvanceKeepsGood(digest, o, reg, empty, Execute(q1, s));
    assert p.journal.receipts == [r];
    ProjectionsAppend([], r);
    assert [] + [r] == [r];
    RunEntry(r, pk, Stringify(SortKeysDeep(q1.input)));
    KeyedGateNeedsKey(meta, q1.capability, version, q1.input, empty.memory);
    TrimmedIsNotEmpty(q1.input);
    GateReadsSlot(reg, p, q2, version, meta);
    ReplayKeyIsExact(pk, q1.input, q2.input);
    var key := IdempotencyKeyOf(q1.input).value;
    if Blockable(pk) {
      SlotOfEntry(r);
      UpToStops(COLON, pk, Stringify(SortKeysDeep(q1.input)));
      SlotsTellColons(pk, key);
    }
  }

  lemma KeyedGateNeedsKey(meta: Meta, capability: Text, version: Text, input: Json, memory: Memory)
    requires IsKeyed(meta) && ReplayRefusal(meta, capability, version, input, memory).None?
    ensures meta.idempotency == Some(Idempotency.Keyed) && IdempotencyKeyOf(input).Some?
  {
  }

  /** A policy key with a colon is filed under a shorter slot than the one looked up. */
  lemma SlotsTellColons(policyKey: Text, key: Text)
    ensures Slot(UpTo(COLON, policyKey), key) == Slot(policyKey, key) <==> COLON !in policyKey
  {
    if COLON in policyKey {
      assert |UpTo(COLON, policyKey)| < |policyKey|;
    } else {
      UpToWhole(COLON, policyKey);
    }
  }
}
