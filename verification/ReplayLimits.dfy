/**
 Capabilities and inputs at which replay protection and key binding end, each with a registry and calls that meet
 every hypothesis of the theorems but the guard.
 */
module ReplayLimits {
  import opened Texts
  import opened CanonicalJson
  import opened CanonicalJsonTheorems
  import opened Receipts
  import opened Enforcement
  import opened GovernanceRuntime
  import opened GovernedExecution
  import opened JournalRuns
  import opened GovernedRuns
  import opened IdempotencyRuns
  import DefinitionHash

  // ------------------------------------------------------------ one capability, one host

  /** A registry with one capability whose schemas take every input and every output. */
  function OneCapability(capability: Text, version: Text, meta: Meta): Registry {
    var pk := PolicyKey(capability, version);
    Registry(
      map[pk := DefinitionHash.Definition(capability, version, Ascii("adapter"), Ascii("route"), Obj([]), None, None)],
      map[capability := version],
      map[pk := meta],
      (key, input) => None,
      (key, output) => None)
  }

  function HostCall(capability: Text, version: Text, input: Json): Request {
    Request(capability, Some(version), input, Context(None, None, None),
            Some(AuthorityContext(Ascii("standard"), Ascii("host"), Ascii("noon"), None, None, None)), ClassViolations)
  }

  const CALM: Surroundings :=
    Surroundings(true, Ascii("noon"), Ascii("noon"), Ascii("noon"), Returned(Null), NoFault)

  function ClassBMeta(idempotency: Idempotency, replay: ReplayBehavior): Meta {
    Meta(NoAuthority, ClassB, Obj([Field(Ascii("type"), Str(Ascii("object")))]), None, None, None,
         Some(Low), Some(idempotency), Some(replay))
  }

  ghost function Empty(): Process {
    Process(Journal([], []), Load(Journal([], [])))
  }

  lemma ClassBMetaIsFine(idempotency: Idempotency, replay: ReplayBehavior)
    ensures ClassViolations(ClassBMeta(idempotency, replay)) == []
  {
    var schema := ClassBMeta(idempotency, replay).outputSchema;
    assert schema.fields[0].key == Ascii("type") && |schema.fields[0].value.s| == 6;
  }

  lemma AuthorityIsFine(capability: Text, version: Text, input: Json, meta: Meta)
    requires meta.authorityRequirement.NoAuthority? && ClassViolations(meta) == []
    ensures var q := HostCall(capability, version, input);
            AdmissionErrors(meta, ResolveAuthority(q.context, q.authority, Ascii("noon")), q.classPolicy) == []
  {
    var a := ResolveAuthority(Context(None, None, None), HostCall(capability, version, input).authority, Ascii("noon"));
    assert a.source[0] == 114 && a.source[|a.source| - 1] == 116 && a.evaluatedAt[0] == 110 && a.evaluatedAt[3] == 110;
    assert TrimStart(a.source) == a.source && TrimEnd(a.source) == a.source;
    assert TrimStart(a.evaluatedAt) == a.evaluatedAt && TrimEnd(a.evaluatedAt) == a.evaluatedAt;
    assert |Ascii("none")| == 4 && |Ascii("standard")| == 8;
    hide ClassViolations;
  }

  lemma CallResolves(capability: Text, version: Text, meta: Meta, input: Json)
    requires version != []
    ensures ResolvesTo(OneCapability(capability, version, meta), HostCall(capability, version, input), version, meta)
  {
  }

  lemma CallIsPrepared(digest: Text -> Text, capability: Text, version: Text, meta: Meta, input: Json, memory: Memory)
    requires version != [] && meta.authorityRequirement.NoAuthority? && ClassViolations(meta) == []
    requires ReplayRefusal(meta, capability, version, input, memory).None?
    ensures var reg, q := OneCapability(capability, version, meta), HostCall(capability, version, input);
            Prepare(digest, reg, q, Ascii("noon"), memory).Prepared?
  {
    AuthorityIsFine(capability, version, input, meta);
    CallResolves(capability, version, meta, input);
    hide ReplayRefusal, AdmissionErrors, ResolveAuthority, ClassViolations, Resolve, Ascii;
  }

  /** Once the replay gate lets it through, a call on this registry succeeds. */
  lemma CallSucceeds(digest: Text -> Text, o: Options, p: Process, capability: Text, version: Text, meta: Meta,
                     input: Json)
    requires Good(digest, p) && version != []
    requires meta.authorityRequirement.NoAuthority? && ClassViolations(meta) == []
    requires ReplayRefusal(meta, capability, version, input, p.memory).None?
    ensures var reg, q := OneCapability(capability, version, meta), HostCall(capability, version, input);
            ResolvesTo(reg, q, version, meta) && GovernedOutcome(digest, o, reg, p, q, CALM).Success?
  {
    var reg, q := OneCapability(capability, version, meta), HostCall(capability, version, input);
    CallResolves(capability, version, meta, input);
    CallIsPrepared(digest, capability, version, meta, input, p.memory);
    hide Verified, Ascii, ResolveAuthority, Resolve, NextReceipt, ClassViolations, ReplayRefusal;
    PreparedResolves(digest, reg, q, CALM.preparedAt, p.memory);
    hide Prepare;
    assert Decide(digest, reg, q, CALM, p.memory).output == Some(Null);
  }

  // --------------------------------------------------------------- ids with a colon

  /** The part of `a:b@1.0.0` before its colon has no at-sign. */
  lemma ColonIdIsNotBlockable()
    ensures !Blockable(PolicyKey(Ascii("a:b"), Ascii("1.0.0")))
  {
    var pk := PolicyKey(Ascii("a:b"), Ascii("1.0.0"));
    assert pk[0] == 97 && pk[1] == COLON;
    assert pk == [97] + [COLON] + pk[2..];
    UpToStops(COLON, [97], pk[2..]);
    UpToWhole(COLON, [97]);
  }

  /** A blocked capability with the id `a:b` runs twice on one input, both times with success. */
  lemma ColonIdSucceedsTwice(digest: Text -> Text, o: Options, input: Json)
    ensures var id, version, meta := Ascii("a:b"), Ascii("1.0.0"), ClassBMeta(NotIdempotent, Blocked);
            var reg, q := OneCapability(id, version, meta), HostCall(id, version, input);
            && IsBlocked(meta) && ResolvesTo(reg, q, version, meta)
            && GovernedOutcome(digest, o, reg, Empty(), q, CALM).Success?
            && GovernedOutcome(digest, o, reg, GovernedStep(digest, o, reg, Empty(), q, CALM), q, CALM).Success?
  {
    var id, version, meta := Ascii("a:b"), Ascii("1.0.0"), ClassBMeta(NotIdempotent, Blocked);
    EmptyIsVerified(digest);
    ClassBMetaIsFine(NotIdempotent, Blocked);
    ColonIdIsNotBlockable();
    CallSucceeds(digest, o, Empty(), id, version, meta, input);
    RepeatSucceedsIffNotBlockable(digest, o, OneCapability(id, version, meta), Empty(), HostCall(id, version, input),
                                  CALM, version, meta);
  }

  // ------------------------------------------------------------------ keyed payments

  /** `{"idempotency_key": "k", key: {"amount": n}}` */
  function Payment(key: Text, n: NumLit): Json {
    Obj([Field(Ascii("idempotency_key"), Str(Ascii("k"))),
         Field(key, Obj([Field(Ascii("amount"), Num(n))]))])
  }

  lemma PaymentHasKey(key: Text, n: NumLit)
    ensures IdempotencyKeyOf(Payment(key, n)) == Some(Ascii("k"))
  {
    var t := Ascii("k");
    assert t[0] == 107 && TrimStart(t) == t && TrimEnd(t) == t;
  }

  lemma PaymentIsWellFormed(key: Text, n: NumLit)
    requires key != Ascii("idempotency_key")
    ensures WellFormed(Payment(key, n))
  {
    var fs := Payment(key, n).fields;
    assert WellFormed(fs[0].value);
    assert forall i | 0 <= i < |fs[1].value.fields| :: WellFormed(fs[1].value.fields[i].value);
    assert WellFormed(fs[1].value);
  }

  lemma SamePaymentsSameAmount(key: Text, m: NumLit, n: NumLit)
    requires key != Ascii("idempotency_key") && Same(Payment(key, m), Payment(key, n))
    ensures m == n
  {
    var fs, gs := Payment(key, m).fields, Payment(key, n).fields;
    hide Ascii;
    SameRecords(Payment(key, m), Payment(key, n));
    SameRecords(fs[1].value, gs[1].value);
    assert Same(fs[1].value, gs[1].value) && AllSame(fs[1].value.fields, gs[1].value.fields);
    assert Same(fs[1].value.fields[0].value, gs[1].value.fields[0].value);
  }

  /** On empty files the gate of a keyed capability lets every input with a key through. */
  lemma FirstUseOfKey(id: Text, version: Text, input: Json)
    requires IdempotencyKeyOf(input).Some?
    ensures ReplayRefusal(ClassBMeta(Keyed, AllowedSameKey), id, version, input, Empty().memory).None?
  {
  }

  /**
   Two payments under one idempotency key, the second let through by the gate after the first: both succeed, although
   their inputs differ.
   */
  lemma BothPaymentsSucceed(digest: Text -> Text, o: Options, id: Text, key: Text, m: NumLit, n: NumLit)
    requires key != Ascii("idempotency_key") && m != n
    requires !Bindable(PolicyKey(id, Ascii("1.0.0"))) || Same(Stripped(Payment(key, m)), Stripped(Payment(key, n)))
    ensures var version, meta := Ascii("1.0.0"), ClassBMeta(Keyed, AllowedSameKey);
            var reg := OneCapability(id, version, meta);
            var q1, q2 := HostCall(id, version, Payment(key, m)), HostCall(id, version, Payment(key, n));
            && IsKeyed(meta) && ResolvesTo(reg, q1, version, meta) && ResolvesTo(reg, q2, version, meta)
            && IdempotencyKeyOf(q1.input) == IdempotencyKeyOf(q2.input)
            && WellFormed(q1.input) && WellFormed(q2.input) && !Same(q1.input, q2.input)
            && GovernedOutcome(digest, o, reg, Empty(), q1, CALM).Success?
            && GovernedOutcome(digest, o, reg, GovernedStep(digest, o, reg, Empty(), q1, CALM), q2, CALM).Success?
  {
    var version, meta := Ascii("1.0.0"), ClassBMeta(Keyed, AllowedSameKey);
    var reg := OneCapability(id, version, meta);
    var q1, q2 := HostCall(id, version, Payment(key, m)), HostCall(id, version, Payment(key, n));
    PaymentHasKey(key, m);
    PaymentHasKey(key, n);
    PaymentIsWellFormed(key, m);
    PaymentIsWellFormed(key, n);
    if Same(q1.input, q2.input) {
      SamePaymentsSameAmount(key, m, n);
    }
    ClassBMetaIsFine(Keyed, AllowedSameKey);
    EmptyIsVerified(digest);
    FirstUseOfKey(id, version, q1.input);
    hide GovernedStep, GovernedOutcome, ReplayRefusal, Payment, Verified, WellFormed, Stripped, ResolvesTo;
    CallSucceeds(digest, o, Empty(), id, version, meta, q1.input);
    KeyReuseIsRefusedIff(digest, o, reg, q1, q2, CALM, version, meta);
    AdvanceKeepsGood(digest, o, reg, Empty(), Execute(q1, CALM));
    CallSucceeds(digest, o, GovernedStep(digest, o, reg, Empty(), q1, CALM), id, version, meta, q2.input);
  }

  const ONE: NumLit := [49]
  const TWO: NumLit := [50]

  /** The policy key `a@b:c@1.0.0` is blockable, but its colon keeps it from being bindable: one key, two payments. */
  lemma ColonIdTakesTwoPayments(digest: Text -> Text, o: Options)
    ensures Blockable(PolicyKey(Ascii("a@b:c"), Ascii("1.0.0"))) && !Bindable(PolicyKey(Ascii("a@b:c"), Ascii("1.0.0")))
    ensures var reg := OneCapability(Ascii("a@b:c"), Ascii("1.0.0"), ClassBMeta(Keyed, AllowedSameKey));
            var q1 := HostCall(Ascii("a@b:c"), Ascii("1.0.0"), Payment(Ascii("to"), ONE));
            var q2 := HostCall(Ascii("a@b:c"), Ascii("1.0.0"), Payment(Ascii("to"), TWO));
            && IdempotencyKeyOf(q1.input) == IdempotencyKeyOf(q2.input) && !Same(q1.input, q2.input)
            && GovernedOutcome(digest, o, reg, Empty(), q1, CALM).Success?
            && GovernedOutcome(digest, o, reg, GovernedStep(digest, o, reg, Empty(), q1, CALM), q2, CALM).Success?
  {
    var pk := PolicyKey(Ascii("a@b:c"), Ascii("1.0.0"));
    assert pk[0] == 97 && pk[1] == AT_SIGN && pk[2] == 98 && pk[3] == COLON;
    assert pk == [97, AT_SIGN, 98] + [COLON] + pk[4..];
    UpToStops(COLON, [97, AT_SIGN, 98], pk[4..]);
    UpToWhole(COLON, [97, AT_SIGN, 98]);
    assert [97, AT_SIGN, 98][1] == AT_SIGN;
    assert |Ascii("to")| == 2 && |Ascii("idempotency_key")| == 15;
    BothPaymentsSucceed(digest, o, Ascii("a@b:c"), Ascii("to"), ONE, TWO);
  }

  /** Nothing of a payment under the key `__proto__` is left but its idempotency key. */
  lemma ProtoPaymentIsLost(n: NumLit)
    ensures Stripped(Payment(PROTO, n)) == Obj([Field(Ascii("idempotency_key"), Str(Ascii("k")))])
  {
    var fs := Payment(PROTO, n).fields;
    assert |Ascii("idempotency_key")| == 15 && |PROTO| == 9;
    hide Ascii;
    assert fs[1..][1..] == [] && StripFields(fs[1..]) == StripFields(fs[1..][1..]) == [];
    assert StripFields(fs) == [Field(fs[0].key, Stripped(fs[0].value))] + StripFields(fs[1..]);
  }

  lemma NoColonInCap()
    ensures COLON !in Ascii("cap") && Ascii("cap") != []
  {
    var t := Ascii("cap");
    assert t[0] == 99 && t[1] == 97 && t[2] == 112;
  }

  lemma NoColonInVersion()
    ensures COLON !in Ascii("1.0.0")
  {
    var t := Ascii("1.0.0");
    assert t[0] == 49 && t[1] == 46 && t[2] == 48 && t[3] == 46 && t[4] == 48;
  }

  lemma CapIsBindable()
    ensures Bindable(PolicyKey(Ascii("cap"), Ascii("1.0.0")))
  {
    NoColonInCap();
    NoColonInVersion();
    hide Ascii, Bindable, PolicyKey;
    NamedCapabilitiesAreBlockable(Ascii("cap"), Ascii("1.0.0"));
  }

  /**
   The capability `cap@1.0.0` is bindable, but the gate does not see a key `__proto__`: two payments of different
   amounts under one idempotency key both succeed.
   */
  lemma ProtoKeyTakesTwoPayments(digest: Text -> Text, o: Options)
    ensures Bindable(PolicyKey(Ascii("cap"), Ascii("1.0.0")))
    ensures var reg := OneCapability(Ascii("cap"), Ascii("1.0.0"), ClassBMeta(Keyed, AllowedSameKey));
            var q1 := HostCall(Ascii("cap"), Ascii("1.0.0"), Payment(PROTO, ONE));
            var q2 := HostCall(Ascii("cap"), Ascii("1.0.0"), Payment(PROTO, TWO));
            && IdempotencyKeyOf(q1.input) == IdempotencyKeyOf(q2.input) && !Same(q1.input, q2.input)
            && GovernedOutcome(digest, o, reg, Empty(), q1, CALM).Success?
            && GovernedOutcome(digest, o, reg, GovernedStep(digest, o, reg, Empty(), q1, CALM), q2, CALM).Success?
  {
    CapIsBindable();
    ProtoPaymentIsLost(ONE);
    ProtoPaymentIsLost(TWO);
    assert |Ascii("idempotency_key")| == 15 && |PROTO| == 9;
    hide Ascii, Payment, Stripped, GovernedStep, GovernedOutcome, Bindable, OneCapability, HostCall;
    SameIsReflexive(Stripped(Payment(PROTO, ONE)));
    BothPaymentsSucceed(digest, o, Ascii("cap"), PROTO, ONE, TWO);
  }
}
