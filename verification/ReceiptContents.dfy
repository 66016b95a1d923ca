/** What receipts, anchors, ledger entries and hash preimages hold, field by field, and which receipts share a chain. */
module ReceiptContents {
  import opened Texts
  import opened CanonicalJson
  import opened CanonicalJsonTheorems
  import opened Receipts
  import opened Enforcement
  import opened JournalRuns
  import opened ReceiptHashTheorems
  import opened DefinitionHash

  const BAR: Unit := 124

  // ----------------------------------------------------------------------- chain keys

  /** The host's environment and runtime, and the caller's session, subject and authority context. */
  datatype Party = Party(
    environmentId: Text,
    runtimeId: Text,
    sessionId: Option<Text>,
    subjectId: Option<Text>,
    authorityContextId: Option<Text>)

  function PartyOf(o: Options, a: AuthorityContext): Party {
    Party(o.environmentId, o.runtimeId, a.sessionId, a.subjectId, a.authorityContextId)
  }

  /** The ids are the same, where a missing one and a dash are not told apart. */
  predicate SameId(a: Option<Text>, b: Option<Text>) {
    a == b || (a.None? && b == Some(Ascii("-"))) || (b.None? && a == Some(Ascii("-")))
  }

  predicate SameParty(p: Party, q: Party) {
    && p.environmentId == q.environmentId && p.runtimeId == q.runtimeId && SameId(p.sessionId, q.sessionId)
    && SameId(p.subjectId, q.subjectId) && SameId(p.authorityContextId, q.authorityContextId)
  }

  predicate NoBar(t: Option<Text>) {
    t.Some? ==> BAR !in t.value
  }

  predicate NoBars(p: Party) {
    && BAR !in p.environmentId && BAR !in p.runtimeId
    && NoBar(p.sessionId) && NoBar(p.subjectId) && NoBar(p.authorityContextId)
  }

  ghost predicate LastBarAt(t: Text, i: nat) {
    i < |t| && t[i] == BAR && forall k | i < k < |t| :: t[k] != BAR
  }

  /** Texts cut at their last bar. */
  lemma CutAtBar(x: Text, a: Text, y: Text, b: Text)
    requires BAR !in a && BAR !in b && x + ([BAR] + a) == y + ([BAR] + b)
    ensures a == b && x == y
  {
    var s, t := x + ([BAR] + a), y + ([BAR] + b);
    assert LastBarAt(s, |x|) && LastBarAt(t, |y|);
    assert s[..|x|] == x && t[..|y|] == y && s[|x| + 1..] == a && t[|y| + 1..] == b;
  }

  lemma SamePrefix(tag: Text, a: Text, b: Text)
    requires tag + a == tag + b
    ensures a == b
  {
    assert (tag + a)[|tag|..] == a && (tag + b)[|tag|..] == b;
  }

  /** A chain key as labelled parts between bars. */
  function KeyParts(o: Options, a: AuthorityContext): seq<Text> {
    [Ascii("env:") + o.environmentId, Ascii("runtime:") + o.runtimeId, Ascii("session:") + OrDash(a.sessionId),
     Ascii("subject:") + OrDash(a.subjectId), Ascii("authctx:") + OrDash(a.authorityContextId)]
  }

  function Barred(parts: seq<Text>): Text
    requires parts != []
  {
    var n := |parts| - 1;
    if n == 0 then parts[0] else Barred(parts[..n]) + ([BAR] + parts[n])
  }

  lemma {:induction false} BarredIsExact(ps: seq<Text>, qs: seq<Text>)
    requires |ps| == |qs| > 0
    requires forall i | 0 <= i < |ps| :: BAR !in ps[i] && BAR !in qs[i]
    requires Barred(ps) == Barred(qs)
    ensures ps == qs
  {
    var n := |ps| - 1;
    if n > 0 {
      CutAtBar(Barred(ps[..n]), ps[n], Barred(qs[..n]), qs[n]);
      BarredIsExact(ps[..n], qs[..n]);
    }
    assert ps == ps[..n] + [ps[n]] && qs == qs[..n] + [qs[n]];
  }

  lemma TagIs(tag: string, after: Text)
    requires tag in {"env:", "runtime:", "session:", "subject:", "authctx:"}
    ensures BAR !in Ascii(tag)
    ensures tag != "env:" ==> Ascii("|" + tag) + after == [BAR] + (Ascii(tag) + after)
  {
    assert forall i | 0 <= i < |tag| :: tag[i] != '|' && tag[i] < 128 as char;
    var t := Ascii("|" + tag);
    assert t[1..] == Ascii(tag);
    assert t == [t[0]] + t[1..];
  }

  lemma Regroup(x: Text, y: Text, z: Text)
    ensures x + y + z == x + (y + z)
  {
  }

  lemma ChainKeyIsBarred(o: Options, a: AuthorityContext)
    ensures ChainKeyFor(o, a) == Barred(KeyParts(o, a))
  {
    var r, s, u, c := o.runtimeId, OrDash(a.sessionId), OrDash(a.subjectId), OrDash(a.authorityContextId);
    TagIs("runtime:", r);
    TagIs("session:", s);
    TagIs("subject:", u);
    TagIs("authctx:", c);
    assert "|" + "runtime:" == "|runtime:" && "|" + "session:" == "|session:";
    assert "|" + "subject:" == "|subject:" && "|" + "authctx:" == "|authctx:";
    var ps := KeyParts(o, a);
    FiveBarred(ps);
    hide Ascii, Barred, KeyParts;
    var k1 := ps[0];
    var k2 := k1 + Ascii("|runtime:") + r;
    var k3 := k2 + Ascii("|session:") + s;
    var k4 := k3 + Ascii("|subject:") + u;
    Regroup(k1, Ascii("|runtime:"), r);
    Regroup(k2, Ascii("|session:"), s);
    Regroup(k3, Ascii("|subject:"), u);
    Regroup(k4, Ascii("|authctx:"), c);
  }

  lemma FiveBarred(ps: seq<Text>)
    requires |ps| == 5
    ensures Barred(ps) == ps[0] + ([BAR] + ps[1]) + ([BAR] + ps[2]) + ([BAR] + ps[3]) + ([BAR] + ps[4])
  {
    var p4 := ps[..4];
    var p3 := p4[..3];
    var p2 := p3[..2];
    assert Barred(p2[..1]) == ps[0];
    assert Barred(p2) == ps[0] + ([BAR] + ps[1]);
    assert Barred(p3) == Barred(p2) + ([BAR] + ps[2]);
    assert Barred(p4) == Barred(p3) + ([BAR] + ps[3]);
  }

  lemma PartsHaveNoBar(o: Options, a: AuthorityContext)
    requires NoBars(PartyOf(o, a))
    ensures forall i | 0 <= i < 5 :: BAR !in KeyParts(o, a)[i]
  {
    TagIs("env:", []);
    TagIs("runtime:", []);
    TagIs("session:", []);
    TagIs("subject:", []);
    TagIs("authctx:", []);
    assert Ascii("-")[0] == 45;
    hide Ascii;
  }

  lemma DashIsSameId(a: Option<Text>, b: Option<Text>)
    ensures OrDash(a) == OrDash(b) <==> SameId(a, b)
  {
  }

  /**
   Two calls share a chain exactly when environment, runtime, session, subject and authority context agree, a missing
   id being read as a dash, as long as none of them has a bar.
   */
  lemma ChainKeyIsExact(o: Options, a: AuthorityContext, o': Options, b: AuthorityContext)
    requires NoBars(PartyOf(o, a)) && NoBars(PartyOf(o', b))
    ensures ChainKeyFor(o, a) == ChainKeyFor(o', b) <==> SameParty(PartyOf(o, a), PartyOf(o', b))
  {
    ChainKeyIsBarred(o, a);
    ChainKeyIsBarred(o', b);
    PartsHaveNoBar(o, a);
    PartsHaveNoBar(o', b);
    DashIsSameId(a.sessionId, b.sessionId);
    DashIsSameId(a.subjectId, b.subjectId);
    DashIsSameId(a.authorityContextId, b.authorityContextId);
    hide ChainKeyFor, Ascii, OrDash, SameId, Barred;
    if ChainKeyFor(o, a) == ChainKeyFor(o', b) {
      var ps, qs := KeyParts(o, a), KeyParts(o', b);
      BarredIsExact(ps, qs);
      assert ps[0] == qs[0] && ps[1] == qs[1] && ps[2] == qs[2] && ps[3] == qs[3] && ps[4] == qs[4];
      SamePrefix(Ascii("env:"), o.environmentId, o'.environmentId);
      SamePrefix(Ascii("runtime:"), o.runtimeId, o'.runtimeId);
      SamePrefix(Ascii("session:"), OrDash(a.sessionId), OrDash(b.sessionId));
      SamePrefix(Ascii("subject:"), OrDash(a.subjectId), OrDash(b.subjectId));
      SamePrefix(Ascii("authctx:"), OrDash(a.authorityContextId), OrDash(b.authorityContextId));
    }
  }

  /** The authority of a session and a subject. */
  function AuthorityFor(session: Text, subject: Text): AuthorityContext {
    AuthorityContext(Ascii("standard"), Ascii("host"), Ascii("noon"), Some(session), Some(subject), None)
  }

  /** With bars the chains of different sessions and subjects may be one. */
  lemma BarsJoinChains(o: Options)
    ensures ChainKeyFor(o, AuthorityFor(Ascii("a|subject:b"), Ascii("c")))
            == ChainKeyFor(o, AuthorityFor(Ascii("a"), Ascii("b|subject:c")))
  {
    var u, v := Ascii("a|subject:b"), Ascii("b|subject:c");
    assert u + Ascii("|subject:") + Ascii("c") == Ascii("a") + Ascii("|subject:") + v;
    hide Ascii;
    var start := Ascii("env:") + o.environmentId + Ascii("|runtime:") + o.runtimeId + Ascii("|session:");
    SplitThree(start, u, Ascii("|subject:"), Ascii("c"));
    SplitThree(start, Ascii("a"), Ascii("|subject:"), v);
  }

  lemma SplitThree(start: Text, x: Text, y: Text, z: Text)
    ensures start + x + y + z == start + (x + y + z)
  {
    Regroup(start, x, y);
    Regroup(start, x + y, z);
  }

  // ------------------------------------------------------------------------- receipts

  /** The value of an optional field of the authority a receipt holds. */
  function AuthorityText(c: Core, key: string): Option<Text> {
    if !c.authority.Obj? then None
    else
      match FieldNamed(c.authority.fields, Ascii(key))
      case Some(Str(s)) => Some(s)
      case _ => None
  }

  lemma AuthorityKeysDiffer()
    ensures Ascii("resolved_authority_level") != Ascii("source") && Ascii("source") != Ascii("evaluated_at")
    ensures forall key | key in {"session_id", "subject_id", "authority_context_id"} ::
              Ascii(key) != Ascii("resolved_authority_level") && Ascii(key) != Ascii("source")
                  && Ascii(key) != Ascii("evaluated_at")
    ensures Ascii("session_id") != Ascii("subject_id") && Ascii("session_id") != Ascii("authority_context_id")
    ensures Ascii("subject_id") != Ascii("authority_context_id")
    ensures Ascii("resolved_authority_level") != Ascii("evaluated_at")
  {
    assert |Ascii("resolved_authority_level")| == 24 && |Ascii("source")| == 6 && |Ascii("evaluated_at")| == 12;
    assert Ascii("session_id")[1] == 101 && Ascii("subject_id")[1] == 117 && |Ascii("authority_context_id")| == 20;
    assert |Ascii("session_id")| == 10 && |Ascii("subject_id")| == 10;
  }

  lemma FirstField(f: Field, fs: seq<Field>, key: Text)
    ensures FieldNamed([f] + fs, key) == if f.key == key then Some(f.value) else FieldNamed(fs, key)
  {
    assert ([f] + fs)[1..] == fs;
  }

  lemma OptionalFieldIs(key: string, t: Option<Text>, rest: seq<Field>, wanted: Text)
    ensures FieldNamed(OptionalField(key, t) + rest, wanted)
            == if t.Some? && Ascii(key) == wanted then Some(Str(t.value)) else FieldNamed(rest, wanted)
  {
    if t.Some? {
      FirstField(Field(Ascii(key), Str(t.value)), rest, wanted);
    } else {
      assert OptionalField(key, t) + rest == rest;
    }
  }

  /** The authority a receipt holds says what the authority context says. */
  lemma AuthoritySays(a: AuthorityContext, c: Core)
    requires c.authority == AuthorityJson(a)
    ensures AuthorityText(c, "resolved_authority_level") == Some(a.level)
    ensures AuthorityText(c, "source") == Some(a.source) && AuthorityText(c, "evaluated_at") == Some(a.evaluatedAt)
    ensures AuthorityText(c, "session_id") == a.sessionId && AuthorityText(c, "subject_id") == a.subjectId
    ensures AuthorityText(c, "authority_context_id") == a.authorityContextId
  {
    AuthorityKeysDiffer();
    hide Ascii, FieldNamed;
    var level := Field(Ascii("resolved_authority_level"), Str(a.level));
    var source, at := Field(Ascii("source"), Str(a.source)), Field(Ascii("evaluated_at"), Str(a.evaluatedAt));
    var session, subject := OptionalField("session_id", a.sessionId), OptionalField("subject_id", a.subjectId);
    var context := OptionalField("authority_context_id", a.authorityContextId);
    var fs := c.authority.fields;
    assert fs == [level] + ([source] + ([at] + (session + (subject + (context + [])))));
    forall key | key in {"resolved_authority_level", "source", "evaluated_at", "session_id", "subject_id",
                         "authority_context_id"}
      ensures FieldNamed(fs, Ascii(key))
              == if key == "resolved_authority_level" then Some(Str(a.level))
                 else if key == "source" then Some(Str(a.source))
                 else if key == "evaluated_at" then Some(Str(a.evaluatedAt))
                 else if key == "session_id" then StrOf(a.sessionId)
                 else if key == "subject_id" then StrOf(a.subjectId)
                 else StrOf(a.authorityContextId)
    {
      var wanted := Ascii(key);
      NothingNamed(wanted);
      OptionalFieldIs("authority_context_id", a.authorityContextId, [], wanted);
      OptionalFieldIs("subject_id", a.subjectId, context + [], wanted);
      OptionalFieldIs("session_id", a.sessionId, subject + (context + []), wanted);
      FirstField(at, session + (subject + (context + [])), wanted);
      FirstField(source, [at] + (session + (subject + (context + []))), wanted);
      FirstField(level, [source] + ([at] + (session + (subject + (context + [])))), wanted);
    }
  }

  function StrOf(t: Option<Text>): Option<Json> {
    if t.Some? then Some(Str(t.value)) else None
  }

  lemma NothingNamed(key: Text)
    ensures FieldNamed([], key) == None
  {
  }

  /** The party a receipt names. */
  function NamedParty(c: Core): Party {
    Party(c.environmentId, c.runtimeId, AuthorityText(c, "session_id"), AuthorityText(c, "subject_id"),
          AuthorityText(c, "authority_context_id"))
  }

  /** The receipt was written by a runtime: its chain key is that of the party it names. */
  ghost predicate Written(r: Receipt) {
    exists o: Options, a: AuthorityContext ::
      r.core.chainKey == ChainKeyFor(o, a) && NamedParty(r.core) == PartyOf(o, a)
  }

  /**
   A new receipt says, field by field, what the draft says; empty errors and empty keys count as absent, and the
   runtime's clock stands in for a missing time. Its hash is that of its fields.
   */
  lemma ReceiptSays(digest: Text -> Text, o: Options, heads: map<Text, Text>, d: Draft, now: Text)
    ensures var r := NextReceipt(digest, o, heads, d, now);
            var c := r.core;
            && c.capability == d.capability && c.version == d.version && c.definitionHash == d.definitionHash
            && c.authorityLevel == d.authority.level && c.executionClass == d.executionClass
            && c.timestamp == (if d.timestamp.Some? then d.timestamp.value else now)
            && c.stage == d.stage && c.success == d.success && c.outputValidationPassed == d.outputValidationPassed
            && (c.errors.Some? <==> d.errors.Some? && d.errors.value != []) && (c.errors.Some? ==> c.errors == d.errors)
            && (c.replayKey.Some? <==> d.replayKey.Some? && d.replayKey.value != [])
            && (c.replayKey.Some? ==> c.replayKey == d.replayKey)
            && (c.idempotencyKey.Some? <==> d.idempotencyKey.Some? && d.idempotencyKey.value != [])
            && (c.idempotencyKey.Some? ==> c.idempotencyKey == d.idempotencyKey)
            && NamedParty(c) == PartyOf(o, d.authority)
            && AuthorityText(c, "resolved_authority_level") == Some(d.authority.level)
            && AuthorityText(c, "source") == Some(d.authority.source)
            && AuthorityText(c, "evaluated_at") == Some(d.authority.evaluatedAt)
            && Written(r) && r.hash == ReceiptHash(digest, c)
  {
    var r := NextReceipt(digest, o, heads, d, now);
    AuthoritySays(d.authority, r.core);
    assert r.core.chainKey == ChainKeyFor(o, d.authority);
    hide AuthorityText, AuthorityJson, ChainKeyFor;
  }

  ghost predicate AllWritten(rs: seq<Receipt>) {
    forall i | 0 <= i < |rs| :: Written(rs[i]) && NoBars(NamedParty(rs[i].core))
  }

  lemma WrittenKeysTellParties(r: Receipt, q: Receipt)
    requires Written(r) && Written(q) && NoBars(NamedParty(r.core)) && NoBars(NamedParty(q.core))
    ensures r.core.chainKey == q.core.chainKey <==> SameParty(NamedParty(r.core), NamedParty(q.core))
  {
    hide ChainKeyFor, NamedParty, NoBars, SameParty;
    var o: Options, a: AuthorityContext :| r.core.chainKey == ChainKeyFor(o, a) && NamedParty(r.core) == PartyOf(o, a);
    var o': Options, b: AuthorityContext :| q.core.chainKey == ChainKeyFor(o', b)
        && NamedParty(q.core) == PartyOf(o', b);
    ChainKeyIsExact(o, a, o', b);
  }

  lemma {:induction false} LastOnChain(rs: seq<Receipt>, key: Text) returns (i: int)
    ensures -1 <= i < |rs| && (i == -1 <==> key !in Heads(rs))
    ensures i >= 0 ==> rs[i].core.chainKey == key && Heads(rs)[key] == rs[i].hash
    ensures forall k | i < k < |rs| :: rs[k].core.chainKey != key
  {
    if rs == [] {
      i := -1;
    } else if rs[|rs| - 1].core.chainKey == key {
      i := |rs| - 1;
    } else {
      i := LastOnChain(rs[..|rs| - 1], key);
    }
  }

  /**
   A new receipt links to the last earlier receipt that names the same environment, runtime, session, subject and
   authority context, and to none if there is no such receipt.
   */
  lemma LinkIsToSameParty(digest: Text -> Text, o: Options, p: Process, d: Draft, now: Text) returns (i: int)
    requires Coherent(p) && AllWritten(p.journal.receipts) && NoBars(PartyOf(o, d.authority))
    ensures var rs, r := p.journal.receipts, NextReceipt(digest, o, p.memory.heads, d, now);
            && -1 <= i < |rs|
            && r.core.prev == (if i == -1 then None else Some(rs[i].hash))
            && (i >= 0 ==> SameParty(NamedParty(rs[i].core), NamedParty(r.core)))
            && forall k | i < k < |rs| :: !SameParty(NamedParty(rs[k].core), NamedParty(r.core))
  {
    var rs, r := p.journal.receipts, NextReceipt(digest, o, p.memory.heads, d, now);
    ReceiptSays(digest, o, p.memory.heads, d, now);
    i := LastOnChain(rs, ChainKeyFor(o, d.authority));
    assert r.core.chainKey == ChainKeyFor(o, d.authority);
    assert r.core.prev == if i == -1 then None else Some(rs[i].hash);
    hide ChainKeyFor, NamedParty, NoBars, SameParty, Written, CoreOf;
    forall k | 0 <= k < |rs|
      ensures rs[k].core.chainKey == r.core.chainKey <==> SameParty(NamedParty(rs[k].core), NamedParty(r.core))
    {
      WrittenKeysTellParties(rs[k], r);
    }
  }

  /** The ids in the drafts of these calls have no bars. */
  predicate DraftsHaveNoBars(o: Options, es: seq<Event>) {
    forall i | 0 <= i < |es| && !es[i].Restart? :: NoBars(PartyOf(o, es[i].draft.authority))
  }

  lemma StepWrites(digest: Text -> Text, o: Options, p: Process, d: Draft, now: Text, fault: Fault)
    requires AllWritten(p.journal.receipts) && NoBars(PartyOf(o, d.authority))
    ensures AllWritten(PersistStep(digest, o, p, d, now, fault).journal.receipts)
  {
    ReceiptSays(digest, o, p.memory.heads, d, now);
    var r := NextReceipt(digest, o, p.memory.heads, d, now);
    hide NextReceipt, NamedParty, NoBars, Written;
    assert AllWritten(p.journal.receipts + [r]);
  }

  /** Over every run from empty files memory mirrors the files, and every receipt was written for the party it names. */
  lemma {:induction false} RunsWrite(digest: Text -> Text, o: Options, es: seq<Event>)
    requires DraftsHaveNoBars(o, es)
    ensures var p := Run(digest, o, Process(Journal([], []), Load(Journal([], []))), es);
            Coherent(p) && AllWritten(p.journal.receipts)
  {
    var start := Process(Journal([], []), Load(Journal([], [])));
    EmptyIsVerified(digest);
    EveryRunIsVerified(digest, o, start, es);
    hide NoBars, Written, PersistStep, Load;
    if es != [] {
      var front, e := es[..|es| - 1], es[|es| - 1];
      RunsWrite(digest, o, front);
      if !e.Restart? {
        StepWrites(digest, o, Run(digest, o, start, front), e.draft, e.now, e.fault);
      }
    }
  }

  /** An anchor holds chain key, hash and time of its receipt, and the hash of the anchor before. */
  lemma AnchorSays(digest: Text -> Text, anchors: seq<Anchor>, r: Receipt)
    ensures var a := NextAnchor(digest, anchors, r);
            && a.core.chainKey == r.core.chainKey && a.core.receiptHash == r.hash
               && a.core.anchoredAt == r.core.timestamp
            && (a.core.prev.None? <==> anchors == [])
               && (anchors != [] ==> a.core.prev == Some(anchors[|anchors| - 1].hash))
            && a.hash == AnchorHash(digest, a.core)
  {
  }

  /**
   A call adds its receipt to the file unless that append fails, and the anchor of that receipt unless one of the two
   fails; what the process remembers follows the files.
   */
  lemma PersistTells(digest: Text -> Text, o: Options, p: Process, d: Draft, now: Text, fault: Fault)
    requires Coherent(p)
    ensures var p', r := PersistStep(digest, o, p, d, now, fault), NextReceipt(digest, o, p.memory.heads, d, now);
            && p'.journal.receipts == p.journal.receipts + (if fault.ReceiptAppendFails? then [] else [r])
            && p'.journal.anchors
               == p.journal.anchors + (if fault.NoFault? then [NextAnchor(digest, p.journal.anchors, r)] else [])
            && p'.memory == Load(p'.journal)
  {
    StepKeepsCoherence(digest, o, p, d, now, fault);
    hide NextReceipt, NextAnchor, Load;
  }

  // ------------------------------------------------------------------------- preimages

  lemma {:induction false} FieldAt(fs: seq<Field>, i: nat)
    requires i < |fs| && DistinctFieldKeys(fs)
    ensures FieldNamed(fs, fs[i].key) == Some(fs[i].value)
  {
    if i > 0 {
      assert fs[0].key != fs[i].key;
      FieldAt(fs[1..], i - 1);
    }
  }

  function NullOr(t: Option<Text>): Json {
    if t.Some? then Str(t.value) else Null
  }

  /** What the hashed record of a receipt says under each key. */
  lemma HashedRecordSays(c: Core)
    ensures HashPayload(c).Obj? && |HashPayload(c).fields| == 17
    ensures var fs := HashPayload(c).fields;
            && FieldNamed(fs, Ascii("capability")) == Some(Str(c.capability))
            && FieldNamed(fs, Ascii("version")) == Some(NullOr(c.version))
            && FieldNamed(fs, Ascii("capability_definition_hash")) == Some(NullOr(c.definitionHash))
            && FieldNamed(fs, Ascii("authority_level_used")) == Some(Str(c.authorityLevel))
            && FieldNamed(fs, Ascii("authority")) == Some(c.authority)
            && FieldNamed(fs, Ascii("execution_class")) == Some(NullOr(c.executionClass))
            && FieldNamed(fs, Ascii("timestamp")) == Some(Str(c.timestamp))
            && FieldNamed(fs, Ascii("stage")) == Some(Str(c.stage))
            && FieldNamed(fs, Ascii("success")) == Some(Bool(c.success))
            && FieldNamed(fs, Ascii("output_validation_passed"))
               == Some(if c.outputValidationPassed.Some? then Bool(c.outputValidationPassed.value) else Null)
            && FieldNamed(fs, Ascii("errors")) == Some(if c.errors.Some? then Arr(c.errors.value) else Null)
            && FieldNamed(fs, Ascii("prev_receipt_hash")) == Some(NullOr(c.prev))
            && FieldNamed(fs, Ascii("environment_id")) == Some(Str(c.environmentId))
            && FieldNamed(fs, Ascii("runtime_id")) == Some(Str(c.runtimeId))
            && FieldNamed(fs, Ascii("chain_key")) == Some(Str(c.chainKey))
            && FieldNamed(fs, Ascii("replay_key")) == Some(NullOr(c.replayKey))
            && FieldNamed(fs, Ascii("idempotency_key")) == Some(NullOr(c.idempotencyKey))
  {
    PayloadKeys(c);
    PayloadDistinct(c);
    hide Ascii, FieldNamed, DistinctFieldKeys, KeyRank;
    var fs := HashPayload(c).fields;
    forall i | 0 <= i < 17
      ensures FieldNamed(fs, fs[i].key) == Some(fs[i].value)
    {
      FieldAt(fs, i);
    }
    var p, q, r := IdentityFields(c), OutcomeFields(c), LinkFields(c);
    assert forall i | 0 <= i < 6 :: fs[i] == p[i];
    assert forall i | 0 <= i < 5 :: fs[6 + i] == q[i];
    assert forall i | 0 <= i < 6 :: fs[11 + i] == r[i];
    assert fs[0] == p[0] && fs[1] == p[1] && fs[2] == p[2] && fs[3] == p[3] && fs[4] == p[4] && fs[5] == p[5];
    assert fs[6] == q[0] && fs[7] == q[1] && fs[8] == q[2] && fs[9] == q[3] && fs[10] == q[4];
    assert fs[11] == r[0] && fs[12] == r[1] && fs[13] == r[2] && fs[14] == r[3] && fs[15] == r[4] && fs[16] == r[5];
  }

  /** What the hashed record of an anchor says under each key. */
  lemma HashedAnchorSays(a: AnchorCore)
    ensures |AnchorFields(a)| == 4
    ensures var fs := AnchorFields(a);
            && FieldNamed(fs, Ascii("chain_key")) == Some(Str(a.chainKey))
            && FieldNamed(fs, Ascii("anchored_receipt_hash")) == Some(Str(a.receiptHash))
            && FieldNamed(fs, Ascii("prev_anchor_hash")) == Some(NullOr(a.prev))
            && FieldNamed(fs, Ascii("anchored_at")) == Some(Str(a.anchoredAt))
  {
    AnchorKeys(a);
    hide Ascii, FieldNamed;
    FieldAt(AnchorFields(a), 0);
    FieldAt(AnchorFields(a), 1);
    FieldAt(AnchorFields(a), 2);
    FieldAt(AnchorFields(a), 3);
  }

  /** Receipt and anchor hashes are the tag and the digest of the canonical text of these records. */
  lemma HashesAreTagged(digest: Text -> Text, c: Core, a: AnchorCore)
    ensures var h := ReceiptHash(digest, c);
            |h| == 7 + |digest(StableStringify(HashPayload(c)))| && h[7..] == digest(StableStringify(HashPayload(c)))
    ensures var h := AnchorHash(digest, a);
            |h| == 7 + |digest(StableStringify(Obj(AnchorFields(a))))|
                && h[7..] == digest(StableStringify(Obj(AnchorFields(a))))
    ensures ReceiptHash(digest, c)[..7] == AnchorHash(digest, a)[..7] == Ascii("sha256:")
  {
    hide StableStringify, HashPayload;
  }

  lemma {:induction false} AbsentKey(fs: seq<Field>, key: Text)
    requires forall i | 0 <= i < |fs| :: fs[i].key != key
    ensures FieldNamed(fs, key) == None
  {
    if fs != [] {
      AbsentKey(fs[1..], key);
    }
  }

  /** The texts are these, in the order of their units. */
  ghost predicate ListsInOrder(j: Json, ts: seq<Text>) {
    && j.Arr?
    && (forall i | 0 <= i < |j.items| :: j.items[i].Str?)
    && (forall i, k | 0 <= i < k < |j.items| :: !ComesBefore(j.items[k].s, j.items[i].s))
    && multiset(seq(|j.items|, i requires 0 <= i < |j.items| => j.items[i].s)) == multiset(ts)
  }

  lemma TagsAreListed(ts: seq<Text>)
    ensures ListsInOrder(Arr(TextItems(SortTexts(ts))), ts)
  {
    SortTextsSorts(ts);
    var sorted := SortTexts(ts);
    var items := TextItems(sorted);
    forall i, k | 0 <= i < k < |items|
      ensures !ComesBefore(items[k].s, items[i].s)
    {
      LessIff(sorted[k], sorted[i]);
    }
    assert seq(|items|, i requires 0 <= i < |items| => items[i].s) == sorted;
  }

  /** What the hashed record of a definition says under each key, and which keys it leaves out. */
  lemma DefinitionRecordSays(d: Definition)
    ensures Payload(d).Obj?
    ensures var fs := Payload(d).fields;
            var description, tags := FieldNamed(fs, Ascii("description")), FieldNamed(fs, Ascii("tags"));
            && FieldNamed(fs, Ascii("v")) == Some(Num([49]))
            && FieldNamed(fs, Ascii("capability")) == Some(Str(d.capability))
            && FieldNamed(fs, Ascii("version")) == Some(Str(d.version))
            && FieldNamed(fs, Ascii("adapter"))
               == Some(Obj([Field(Ascii("key"), Str(d.adapterKey)), Field(Ascii("route"), Str(d.adapterRoute))]))
            && FieldNamed(fs, Ascii("input_schema")) == Some(d.inputSchema)
            && description == (if d.description.Some? then Some(Str(d.description.value)) else None)
            && (tags.Some? <==> d.tags.Some? && d.tags.value != [])
            && (tags.Some? ==> ListsInOrder(tags.value, d.tags.value))
  {
    OptionalKeysDiffer(d);
    LeftOutFields(d);
    if d.tags.Some? {
      TagsAreListed(d.tags.value);
    }
    var fs, required, described := Payload(d).fields, RequiredFields(d), DescriptionFields(d);
    hide Ascii, FieldNamed, DistinctFieldKeys, ListsInOrder, SortTexts, TextItems;
    forall i | 0 <= i < |fs|
      ensures FieldNamed(fs, fs[i].key) == Some(fs[i].value)
    {
      FieldAt(fs, i);
    }
    assert fs[0] == required[0] && fs[1] == required[1] && fs[2] == required[2] && fs[3] == required[3];
    assert fs[4] == required[4];
    if described != [] {
      assert fs[5] == described[0];
    }
    if TagFields(d) != [] {
      assert fs[|fs| - 1] == TagFields(d)[0];
    }
  }

  lemma LeftOutFields(d: Definition)
    ensures DescriptionFields(d) == [] ==> FieldNamed(Payload(d).fields, Ascii("description")) == None
    ensures TagFields(d) == [] ==> FieldNamed(Payload(d).fields, Ascii("tags")) == None
  {
    forall i | 0 <= i < |Payload(d).fields|
      ensures Payload(d).fields[i].key == Ascii("description") ==> DescriptionFields(d) != []
      ensures Payload(d).fields[i].key == Ascii("tags") ==> TagFields(d) != []
    {
      OptionalFieldsAppear(d, i);
    }
    hide Ascii;
    if DescriptionFields(d) == [] {
      AbsentKey(Payload(d).fields, Ascii("description"));
    }
    if TagFields(d) == [] {
      AbsentKey(Payload(d).fields, Ascii("tags"));
    }
  }

  // -------------------------------------------------------------------- ledger entries

  /**
   The ledger entry of a receipt holds its replay key, time, hash and idempotency key, and the parts of the replay
   key.
   */
  lemma EntrySays(r: Receipt)
    ensures ToReplayEntry(r).Some? ==>
              var e := ToReplayEntry(r).value;
              && r.core.success && r.core.stage == Ascii("executed") && Some(e.replayKey) == r.core.replayKey
              && e.recordedAt == r.core.timestamp && e.receiptHash == r.hash
              && (e.idempotencyKey.Some? <==> r.core.idempotencyKey.Some? && r.core.idempotencyKey.value != [])
              && (e.idempotencyKey.Some? ==> e.idempotencyKey == r.core.idempotencyKey)
              && COLON !in e.capability && COLON !in e.version && COLON !in e.normalizedInput
              && e.capability != [] && AT_SIGN !in e.version
              && e.capability + [AT_SIGN] + e.version + [COLON] + e.normalizedInput <= e.replayKey
  {
    if ToReplayEntry(r).Some? {
      KeySplits(r.core.replayKey.value);
    }
    hide UpTo;
  }

  /** A replay key is cut at its first colon and its second one, and its first part at the last at-sign. */
  lemma KeySplits(key: Text)
    ensures var first, colon := UpTo(COLON, key), IndexOf(COLON, key);
            var at := LastIndexOf(AT_SIGN, first);
            at.Some? && at.value > 0 && colon.Some? ==>
              var id, version := first[..at.value], first[at.value + 1..];
              var input := UpTo(COLON, key[colon.value + 1..]);
              && COLON !in id && COLON !in version && COLON !in input && id != [] && AT_SIGN !in version
              && id + [AT_SIGN] + version + [COLON] + input <= key
  {
    var first, at, colon := UpTo(COLON, key), LastIndexOf(AT_SIGN, UpTo(COLON, key)), IndexOf(COLON, key);
    if at.Some? && at.value > 0 && colon.Some? {
      var rest := key[colon.value + 1..];
      assert key == first + [COLON] + rest;
      UpToIsPrefix(COLON, key);
      UpToIsPrefix(COLON, rest);
      PartsAreIn(first, at.value);
      hide UpTo;
      JoinedParts(first, at.value, rest, UpTo(COLON, rest));
    }
  }

  lemma UpToIsPrefix(u: Unit, t: Text)
    ensures UpTo(u, t) <= t && u !in UpTo(u, t)
  {
  }

  lemma PartsAreIn(t: Text, at: nat)
    requires at < |t|
    ensures forall u | u !in t :: u !in t[..at] && u !in t[at + 1..]
  {
  }

  lemma JoinedParts(first: Text, at: nat, rest: Text, input: Text)
    requires at < |first| && first[at] == AT_SIGN && input <= rest
    ensures first[..at] + [AT_SIGN] + first[at + 1..] + [COLON] + input <= first + [COLON] + rest
  {
    assert first == first[..at] + [AT_SIGN] + first[at + 1..];
  }
}
