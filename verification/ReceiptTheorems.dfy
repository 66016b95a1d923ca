/** What the receipt hash covers, and what a verified journal proves. */
module ReceiptHashTheorems {
  import opened Texts
  import opened CanonicalJson
  import opened CanonicalJsonTheorems
  import opened Receipts

  /** No two texts share a digest. */
  ghost predicate Injective(digest: Text -> Text) {
    forall x, y :: digest(x) == digest(y) ==> x == y
  }

  ghost predicate WellFormedCore(c: Core) {
    WellFormed(c.authority) && (c.errors.Some? ==> WellFormed(Arr(c.errors.value)))
  }

  ghost predicate SameErrors(a: Option<seq<Json>>, b: Option<seq<Json>>) {
    (a.None? && b.None?) || (a.Some? && b.Some? && Same(Arr(a.value), Arr(b.value)))
  }

  /** Every hashed field agrees; the two JSON-valued fields agree up to key order. */
  ghost predicate SameCore(a: Core, b: Core) {
    && a == b.(authority := a.authority, errors := a.errors)
    && Same(a.authority, b.authority)
    && SameErrors(a.errors, b.errors)
  }

  // ------------------------------------------------------------- the payload's keys

  /** Tells the seventeen keys of the payload apart by length and first letters. */
  function KeyRank(t: Text): int {
    if |t| == 10 then (if t[0] == 99 then 0 else if t[1] == 117 then 13 else 15)
    else if |t| == 7 then (if t[0] == 118 then 1 else 8)
    else if |t| == 26 then 2
    else if |t| == 20 then 3
    else if |t| == 9 then (if t[0] == 97 then 4 else if t[0] == 116 then 6 else 14)
    else if |t| == 15 then (if t[0] == 101 then 5 else 16)
    else if |t| == 5 then 7
    else if |t| == 24 then 9
    else if |t| == 6 then 10
    else if |t| == 17 then 11
    else if |t| == 14 then 12
    else -1
  }

  lemma IdentityKeys(c: Core)
    ensures forall i | 0 <= i < 6 :: KeyRank(IdentityFields(c)[i].key) == i
  {
    var fs := IdentityFields(c);
    assert fs[0].key[0] == 99 && fs[1].key[0] == 118 && fs[4].key[0] == 97 && fs[5].key[0] == 101;
  }

  lemma OutcomeKeys(c: Core)
    ensures forall i | 0 <= i < 5 :: KeyRank(OutcomeFields(c)[i].key) == 6 + i
  {
    var fs := OutcomeFields(c);
    assert fs[0].key[0] == 116 && fs[2].key[0] == 115;
  }

  lemma LinkKeys(c: Core)
    ensures forall i | 0 <= i < 6 :: KeyRank(LinkFields(c)[i].key) == 11 + i
  {
    var fs := LinkFields(c);
    assert fs[2].key[0] == 114 && fs[2].key[1] == 117;
    assert fs[3].key[0] == 99;
    assert fs[4].key[0] == 114 && fs[4].key[1] == 101;
    assert fs[5].key[0] == 105;
  }

  lemma PayloadKeys(c: Core)
    ensures |HashPayload(c).fields| == 17
    ensures forall i | 0 <= i < 17 :: KeyRank(HashPayload(c).fields[i].key) == i
  {
    var p, q, r := IdentityFields(c), OutcomeFields(c), LinkFields(c);
    IdentityKeys(c);
    OutcomeKeys(c);
    LinkKeys(c);
    forall i | 0 <= i < 17
      ensures KeyRank((p + q + r)[i].key) == i
    {
      assert (p + q + r)[i] == if i < 6 then p[i] else if i < 11 then q[i - 6] else r[i - 11];
    }
  }

  lemma PayloadDistinct(c: Core)
    ensures DistinctFieldKeys(HashPayload(c).fields)
  {
    PayloadKeys(c);
    var fs := HashPayload(c).fields;
    forall i, k | 0 <= i < k < |fs|
      ensures fs[i].key != fs[k].key
    {
      assert KeyRank(fs[i].key) == i && KeyRank(fs[k].key) == k;
    }
  }

  lemma PayloadWellFormed(c: Core)
    requires WellFormedCore(c)
    ensures WellFormed(HashPayload(c))
  {
    PayloadDistinct(c);
    var p, q, r := IdentityFields(c), OutcomeFields(c), LinkFields(c);
    var fs := HashPayload(c).fields;
    forall i | 0 <= i < |fs|
      ensures WellFormed(fs[i].value)
    {
      assert fs[i] in p || fs[i] in q || fs[i] in r;
    }
  }

  // ------------------------------------------------------------- field by field

  lemma SameOrNull(a: Option<Text>, b: Option<Text>)
    ensures Same(OrNull(a), OrNull(b)) <==> a == b
  {
  }

  lemma SixSame(fs: seq<Field>, gs: seq<Field>)
    requires |fs| == |gs| == 6 && forall i | 0 <= i < 6 :: fs[i].key == gs[i].key
    ensures AllSame(fs, gs) <==>
            && Same(fs[0].value, gs[0].value) && Same(fs[1].value, gs[1].value) && Same(fs[2].value, gs[2].value)
            && Same(fs[3].value, gs[3].value) && Same(fs[4].value, gs[4].value) && Same(fs[5].value, gs[5].value)
  {
  }

  lemma SameIdentity(a: Core, b: Core)
    ensures AllSame(IdentityFields(a), IdentityFields(b)) <==>
            && a.capability == b.capability && a.version == b.version && a.definitionHash == b.definitionHash
            && a.authorityLevel == b.authorityLevel && Same(a.authority, b.authority)
            && a.executionClass == b.executionClass
  {
    SixSame(IdentityFields(a), IdentityFields(b));
    SameStr(a.capability, b.capability);
    SameOrNull(a.version, b.version);
    SameOrNull(a.definitionHash, b.definitionHash);
    SameStr(a.authorityLevel, b.authorityLevel);
    SameOrNull(a.executionClass, b.executionClass);
  }

  lemma SameOutcome(a: Core, b: Core)
    ensures AllSame(OutcomeFields(a), OutcomeFields(b)) <==>
            && a.timestamp == b.timestamp && a.stage == b.stage && a.success == b.success
            && a.outputValidationPassed == b.outputValidationPassed && SameErrors(a.errors, b.errors)
  {
    FiveSame(OutcomeFields(a), OutcomeFields(b));
    SameStr(a.timestamp, b.timestamp);
    SameStr(a.stage, b.stage);
    assert Same(Bool(a.success), Bool(b.success)) <==> a.success == b.success;
  }

  lemma SameLink(a: Core, b: Core)
    ensures AllSame(LinkFields(a), LinkFields(b)) <==>
            && a.prev == b.prev && a.environmentId == b.environmentId && a.runtimeId == b.runtimeId
            && a.chainKey == b.chainKey && a.replayKey == b.replayKey && a.idempotencyKey == b.idempotencyKey
  {
    SixSame(LinkFields(a), LinkFields(b));
    SameOrNull(a.prev, b.prev);
    SameStr(a.environmentId, b.environmentId);
    SameStr(a.runtimeId, b.runtimeId);
    SameStr(a.chainKey, b.chainKey);
    SameOrNull(a.replayKey, b.replayKey);
    SameOrNull(a.idempotencyKey, b.idempotencyKey);
  }

  lemma SamePayload(a: Core, b: Core)
    ensures Same(HashPayload(a), HashPayload(b)) <==> SameCore(a, b)
  {
    PayloadKeys(a);
    PayloadKeys(b);
    PayloadDistinct(b);
    SameRecords(HashPayload(a), HashPayload(b));
    AllSameConcat(IdentityFields(a) + OutcomeFields(a), IdentityFields(b) + OutcomeFields(b), LinkFields(a),
                  LinkFields(b));
    AllSameConcat(IdentityFields(a), IdentityFields(b), OutcomeFields(a), OutcomeFields(b));
    SameIdentity(a, b);
    SameOutcome(a, b);
    SameLink(a, b);
  }

  lemma TaggedIsExact(digest: Text -> Text, a: Json, b: Json)
    requires Injective(digest) && WellFormed(a) && WellFormed(b)
    ensures Tagged(digest, a) == Tagged(digest, b) <==> Same(a, b)
  {
    CanonicalTextIsExact(a, b);
    var tag := Ascii("sha256:");
    assert Tagged(digest, a)[|tag|..] == digest(StableStringify(a));
    assert Tagged(digest, b)[|tag|..] == digest(StableStringify(b));
  }

  /** With an injective digest, the receipt hash is equal exactly when every hashed field is. */
  lemma ReceiptHashIsExact(digest: Text -> Text, a: Core, b: Core)
    requires Injective(digest) && WellFormedCore(a) && WellFormedCore(b)
    ensures ReceiptHash(digest, a) == ReceiptHash(digest, b) <==> SameCore(a, b)
  {
    PayloadWellFormed(a);
    PayloadWellFormed(b);
    TaggedIsExact(digest, HashPayload(a), HashPayload(b));
    SamePayload(a, b);
  }

  lemma AnchorKeys(a: AnchorCore)
    ensures DistinctFieldKeys(AnchorFields(a)) && WellFormed(Obj(AnchorFields(a)))
  {
    var fs := AnchorFields(a);
    assert |fs[0].key| == 9 && |fs[1].key| == 21 && |fs[2].key| == 16 && |fs[3].key| == 11;
  }

  lemma AnchorHashIsExact(digest: Text -> Text, a: AnchorCore, b: AnchorCore)
    requires Injective(digest)
    ensures AnchorHash(digest, a) == AnchorHash(digest, b) <==> a == b
  {
    AnchorKeys(a);
    AnchorKeys(b);
    TaggedIsExact(digest, Obj(AnchorFields(a)), Obj(AnchorFields(b)));
    var fs, gs := AnchorFields(a), AnchorFields(b);
    SameRecords(Obj(fs), Obj(gs));
    SameStr(a.chainKey, b.chainKey);
    SameStr(a.receiptHash, b.receiptHash);
    SameOrNull(a.prev, b.prev);
    SameStr(a.anchoredAt, b.anchoredAt);
    assert AllSame(fs, gs) <==>
           && Same(fs[0].value, gs[0].value) && Same(fs[1].value, gs[1].value)
           && Same(fs[2].value, gs[2].value) && Same(fs[3].value, gs[3].value);
  }
}
