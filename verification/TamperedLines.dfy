/**
 Tamper evidence for journal lines that may hold anything: every hashed field is a JSON value or absent, as
 `JSON.parse` leaves it, and nothing is assumed of its type.
 */
module TamperedLines {
  import opened Texts
  import opened CanonicalJson
  import opened CanonicalJsonTheorems
  import opened Receipts
  import opened ReceiptHashTheorems
  import opened Enforcement

  // ------------------------------------------------------------ texts of hashed fields

  const UNDEFINED_TEXT: Text := Ascii("undefined")

  /** What `stableStringify` puts after a key: the text of the value, or `undefined` where there is none. */
  function ContentText(v: Option<Json>): Text {
    match v
    case None => UNDEFINED_TEXT
    case Some(j) => StableStringify(j)
  }

  function PartsOf(keys: seq<Text>, vs: seq<Option<Json>>): (ps: seq<Part<Text>>)
    requires |keys| == |vs|
    ensures |ps| == |keys| && forall i | 0 <= i < |ps| :: ps[i] == Part(keys[i], ContentText(vs[i]))
  {
    seq(|keys|, i requires 0 <= i < |keys| => Part(keys[i], ContentText(vs[i])))
  }

  /** `stableStringify` of a record with these keys and values. */
  function RecordText(keys: seq<Text>, vs: seq<Option<Json>>): Text
    requires |keys| == |vs|
  {
    [LBRACE] + JoinParts(SortByKey(PartsOf(keys, vs))) + [RBRACE]
  }

  ghost predicate SameValue(v: Option<Json>, w: Option<Json>) {
    match v
    case None => w.None?
    case Some(j) => w.Some? && Same(j, w.value)
  }

  ghost predicate SameValues(vs: seq<Option<Json>>, ws: seq<Option<Json>>) {
    |vs| == |ws| && forall i | 0 <= i < |vs| :: SameValue(vs[i], ws[i])
  }

  ghost predicate AllWellFormed(vs: seq<Option<Json>>) {
    forall i | 0 <= i < |vs| && vs[i].Some? :: WellFormed(vs[i].value)
  }

  ghost predicate IsContent(t: Text) {
    exists v: Option<Json> :: t == ContentText(v)
  }

  /** What follows a value in a record: the end, or the comma before the next key. */
  predicate Follows(t: Text) {
    t == [] || t[0] == COMMA
  }

  lemma ValueIsNotUndefined(j: Json)
    ensures Stringify(j) != [] && Stringify(j)[0] != UNDEFINED_TEXT[0]
  {
    assert UNDEFINED_TEXT[0] == 117;
  }

  /** A value and what follows it can be told apart. */
  lemma ContentsAgree(c: Text, s: Text, d: Text, t: Text)
    requires IsContent(c) && IsContent(d) && Follows(s) && Follows(t) && c + s == d + t
    ensures c == d && s == t
  {
    var v: Option<Json> :| c == ContentText(v);
    var w: Option<Json> :| d == ContentText(w);
    assert (c + s)[0] == c[0] && (d + t)[0] == d[0] by {
      NotEmpty(v);
      NotEmpty(w);
    }
    if v.Some? {
      StableIsStringifyOfOrdered(v.value);
      ValueIsNotUndefined(Ordered(v.value));
    }
    if w.Some? {
      StableIsStringifyOfOrdered(w.value);
      ValueIsNotUndefined(Ordered(w.value));
    }
    if v.Some? && w.Some? {
      hide Stringify, Ordered, ParseValue, StableStringify;
      StringifyReads(Ordered(v.value), s);
      StringifyReads(Ordered(w.value), t);
    } else {
      assert (c + s)[|c|..] == s && (d + t)[|d|..] == t;
    }
  }

  lemma NotEmpty(v: Option<Json>)
    ensures ContentText(v) != []
  {
    if v.Some? {
      StableIsStringifyOfOrdered(v.value);
      ValueIsNotUndefined(Ordered(v.value));
    }
  }

  /** Two records with the same keys in the same order and the same text have the same contents. */
  lemma {:induction false} JoinsAgree(ps: seq<Part<Text>>, qs: seq<Part<Text>>)
    requires |ps| == |qs| && forall i | 0 <= i < |ps| :: ps[i].key == qs[i].key
    requires forall i | 0 <= i < |ps| :: IsContent(ps[i].content) && IsContent(qs[i].content)
    requires JoinParts(ps) == JoinParts(qs)
    ensures ps == qs
  {
    if ps != [] {
      hide IsContent;
      var head := Quote(ps[0].key) + [COLON];
      var s, t := Rest(ps), Rest(qs);
      JoinSplits(ps);
      JoinSplits(qs);
      assert (head + (ps[0].content + s))[|head|..] == ps[0].content + s;
      assert (head + (qs[0].content + t))[|head|..] == qs[0].content + t;
      ContentsAgree(ps[0].content, s, qs[0].content, t);
      if |ps| > 1 {
        assert s[1..] == JoinParts(ps[1..]) && t[1..] == JoinParts(qs[1..]);
        JoinsAgree(ps[1..], qs[1..]);
      }
      assert ps == [ps[0]] + ps[1..] && qs == [qs[0]] + qs[1..];
    }
  }

  function Rest(ps: seq<Part<Text>>): Text
    requires ps != []
  {
    if |ps| == 1 then [] else [COMMA] + JoinParts(ps[1..])
  }

  lemma JoinSplits(ps: seq<Part<Text>>)
    requires ps != []
    ensures JoinParts(ps) == Quote(ps[0].key) + [COLON] + (ps[0].content + Rest(ps)) && Follows(Rest(ps))
  {
    hide Quote;
  }

  /** Sorting puts records with the same keys in the same order. */
  lemma {:induction false} SortedKeysAgree(ps: seq<Part<Text>>, qs: seq<Part<Text>>)
    requires |ps| == |qs| && forall i | 0 <= i < |ps| :: ps[i].key == qs[i].key
    ensures |SortByKey(ps)| == |SortByKey(qs)| == |ps|
    ensures forall i | 0 <= i < |SortByKey(ps)| :: SortByKey(ps)[i].key == SortByKey(qs)[i].key
  {
    if ps != [] {
      SortedKeysAgree(ps[1..], qs[1..]);
      InsertedKeysAgree(ps[0], SortByKey(ps[1..]), qs[0], SortByKey(qs[1..]));
    }
  }

  lemma {:induction false} InsertedKeysAgree(p: Part<Text>, ps: seq<Part<Text>>, q: Part<Text>, qs: seq<Part<Text>>)
    requires p.key == q.key && |ps| == |qs| && forall i | 0 <= i < |ps| :: ps[i].key == qs[i].key
    ensures |Insert(p, ps)| == |Insert(q, qs)| == |ps| + 1
    ensures forall i | 0 <= i <= |ps| :: Insert(p, ps)[i].key == Insert(q, qs)[i].key
  {
    if ps != [] && !Less(p.key, ps[0].key) {
      InsertedKeysAgree(p, ps[1..], q, qs[1..]);
    }
  }

  lemma SortedAreContents(ps: seq<Part<Text>>)
    requires forall i | 0 <= i < |ps| :: IsContent(ps[i].content)
    ensures forall i | 0 <= i < |SortByKey(ps)| :: IsContent(SortByKey(ps)[i].content)
  {
    SortByKeyKeepsElements(ps);
    forall i | 0 <= i < |SortByKey(ps)|
      ensures IsContent(SortByKey(ps)[i].content)
    {
      assert SortByKey(ps)[i] in multiset(SortByKey(ps));
      assert SortByKey(ps)[i] in ps;
    }
  }

  lemma SameTextSameParts(ps: seq<Part<Text>>, qs: seq<Part<Text>>)
    requires |ps| == |qs| && forall i | 0 <= i < |ps| :: ps[i].key == qs[i].key
    requires forall i | 0 <= i < |ps| :: IsContent(ps[i].content) && IsContent(qs[i].content)
    requires [LBRACE] + JoinParts(SortByKey(ps)) + [RBRACE] == [LBRACE] + JoinParts(SortByKey(qs)) + [RBRACE]
    ensures forall i | 0 <= i < |ps| :: ps[i] in qs
  {
    hide IsContent, Insert;
    SortedKeysAgree(ps, qs);
    SortedAreContents(ps);
    SortedAreContents(qs);
    var a, b := JoinParts(SortByKey(ps)), JoinParts(SortByKey(qs));
    assert ([LBRACE] + a + [RBRACE])[1..|a| + 1] == a && |a| == |b|;
    assert ([LBRACE] + b + [RBRACE])[1..|b| + 1] == b;
    JoinsAgree(SortByKey(ps), SortByKey(qs));
    SortedAlikeShareParts(ps, qs);
  }

  lemma PartsAreContents(keys: seq<Text>, vs: seq<Option<Json>>)
    requires |keys| == |vs|
    ensures forall i | 0 <= i < |keys| :: IsContent(PartsOf(keys, vs)[i].content)
  {
    forall i | 0 <= i < |keys|
      ensures IsContent(PartsOf(keys, vs)[i].content)
    {
      assert PartsOf(keys, vs)[i].content == ContentText(vs[i]);
    }
  }

  lemma ValuesAreWellFormed(vs: seq<Option<Json>>, i: nat)
    requires AllWellFormed(vs) && i < |vs|
    ensures vs[i].Some? ==> WellFormed(vs[i].value)
  {
    hide WellFormed;
  }

  lemma SamePartSameValue(keys: seq<Text>, vs: seq<Option<Json>>, ws: seq<Option<Json>>, i: nat)
    requires |keys| == |vs| == |ws| && forall i, k | 0 <= i < k < |keys| :: keys[i] != keys[k]
    requires AllWellFormed(vs) && AllWellFormed(ws)
    requires i < |keys| && PartsOf(keys, vs)[i] in PartsOf(keys, ws)
    ensures SameValue(vs[i], ws[i])
  {
    hide ContentText, WellFormed, SameValue, AllWellFormed;
    ValuesAreWellFormed(vs, i);
    ValuesAreWellFormed(ws, i);
    ValueTextIsExact(vs[i], ws[i]);
  }

  lemma SameTextSameValues(keys: seq<Text>, vs: seq<Option<Json>>, ws: seq<Option<Json>>)
    requires |keys| == |vs| == |ws| && forall i, k | 0 <= i < k < |keys| :: keys[i] != keys[k]
    requires AllWellFormed(vs) && AllWellFormed(ws)
    requires RecordText(keys, vs) == RecordText(keys, ws)
    ensures SameValues(vs, ws)
  {
    var ps, qs := PartsOf(keys, vs), PartsOf(keys, ws);
    PartsAreContents(keys, vs);
    PartsAreContents(keys, ws);
    hide IsContent, SortByKey, JoinParts, ContentText, WellFormed, SameValue, AllWellFormed;
    SameTextSameParts(ps, qs);
    forall i | 0 <= i < |vs|
      ensures SameValue(vs[i], ws[i])
    {
      SamePartSameValue(keys, vs, ws, i);
    }
  }

  /** Records with the same text have the same values, up to key order, and the reverse. */
  lemma RecordTextIsExact(keys: seq<Text>, vs: seq<Option<Json>>, ws: seq<Option<Json>>)
    requires |keys| == |vs| == |ws| && forall i, k | 0 <= i < k < |keys| :: keys[i] != keys[k]
    requires AllWellFormed(vs) && AllWellFormed(ws)
    ensures RecordText(keys, vs) == RecordText(keys, ws) <==> SameValues(vs, ws)
  {
    hide SortByKey, JoinParts, ContentText, WellFormed, SameValue;
    if RecordText(keys, vs) == RecordText(keys, ws) {
      SameTextSameValues(keys, vs, ws);
    }
    if SameValues(vs, ws) {
      forall i | 0 <= i < |vs|
        ensures PartsOf(keys, vs)[i] == PartsOf(keys, ws)[i]
      {
        ValueTextIsExact(vs[i], ws[i]);
      }
      assert PartsOf(keys, vs) == PartsOf(keys, ws);
    }
  }

  lemma ValueTextIsExact(v: Option<Json>, w: Option<Json>)
    requires (v.Some? ==> WellFormed(v.value)) && (w.Some? ==> WellFormed(w.value))
    ensures ContentText(v) == ContentText(w) <==> SameValue(v, w)
  {
    if v.Some? && w.Some? {
      CanonicalTextIsExact(v.value, w.value);
    }
    if v.Some? {
      StableIsStringifyOfOrdered(v.value);
      ValueIsNotUndefined(Ordered(v.value));
    }
    if w.Some? {
      StableIsStringifyOfOrdered(w.value);
      ValueIsNotUndefined(Ordered(w.value));
    }
  }

  // ---------------------------------------------------------------------- hash chains

  /**
   How lines are hashed: the keys of the hashed record, the place of the link to the line before, the key of the hash,
   and what the verifier makes of a field before it is hashed.
   */
  datatype Format = Format(keys: seq<Text>, prevAt: nat, hashKey: Text, rebuilt: (nat, Option<Json>) -> Option<Json>)

  /** The keys differ, the link is hashed as it is, and rebuilding makes nothing ill-formed. */
  ghost predicate IsFormat(f: Format) {
    && (forall i, k | 0 <= i < k < |f.keys| :: f.keys[i] != f.keys[k])
    && f.prevAt < |f.keys| && (forall v :: f.rebuilt(f.prevAt, v) == v)
    && (forall i, v: Option<Json> | v.Some? && WellFormed(v.value)
        && f.rebuilt(i, v).Some? :: WellFormed(f.rebuilt(i, v).value))
    && (forall i | f.rebuilt(i, None).Some? :: WellFormed(f.rebuilt(i, None).value))
  }

  /** The value of a line under a key; lines that are no objects have none. */
  function At(line: Json, key: Text): Option<Json> {
    if line.Obj? then FieldNamed(line.fields, key) else None
  }

  /** The values that are hashed. */
  function Hashed(f: Format, line: Json): (vs: seq<Option<Json>>)
    ensures |vs| == |f.keys| && forall i | 0 <= i < |vs| :: vs[i] == f.rebuilt(i, At(line, f.keys[i]))
  {
    seq(|f.keys|, i requires 0 <= i < |f.keys| => f.rebuilt(i, At(line, f.keys[i])))
  }

  function LineHash(digest: Text -> Text, f: Format, line: Json): Text {
    Ascii("sha256:") + digest(RecordText(f.keys, Hashed(f, line)))
  }

  /** `===` on fields of different lines: objects and arrays are never identical. */
  predicate Identical(v: Option<Json>, w: Option<Json>) {
    v == w && (v.Some? ==> !v.value.Arr? && !v.value.Obj?)
  }

  /** Line `i` links to the line before it, and carries its own hash. */
  predicate LineVerifies(digest: Text -> Text, f: Format, c: seq<Json>, i: nat)
    requires i < |c| && f.prevAt < |f.keys|
  {
    && Identical(At(c[i], f.keys[f.prevAt]), if i == 0 then Some(Null) else At(c[i - 1], f.hashKey))
    && At(c[i], f.hashKey) == Some(Str(LineHash(digest, f, c[i])))
  }

  ghost predicate LinesVerify(digest: Text -> Text, f: Format, c: seq<Json>)
    requires f.prevAt < |f.keys|
  {
    forall i | 0 <= i < |c| :: LineVerifies(digest, f, c, i)
  }

  ghost predicate WellFormedLines(c: seq<Json>) {
    forall i | 0 <= i < |c| :: WellFormed(c[i])
  }

  lemma {:induction false} NamedIsWellFormed(fields: seq<Field>, key: Text)
    requires forall i | 0 <= i < |fields| :: WellFormed(fields[i].value)
    ensures FieldNamed(fields, key).Some? ==> WellFormed(FieldNamed(fields, key).value)
  {
    if fields != [] && fields[0].key != key {
      NamedIsWellFormed(fields[1..], key);
    }
  }

  lemma HashedIsWellFormed(f: Format, line: Json)
    requires IsFormat(f) && WellFormed(line)
    ensures AllWellFormed(Hashed(f, line))
  {
    forall i | 0 <= i < |f.keys| && Hashed(f, line)[i].Some?
      ensures WellFormed(Hashed(f, line)[i].value)
    {
      if line.Obj? {
        NamedIsWellFormed(line.fields, f.keys[i]);
      }
      assert Hashed(f, line)[i] == f.rebuilt(i, At(line, f.keys[i]));
    }
  }

  /** With an injective digest, lines have the same hash exactly when their hashed values agree. */
  lemma LineHashIsExact(digest: Text -> Text, f: Format, a: Json, b: Json)
    requires Injective(digest) && IsFormat(f) && WellFormed(a) && WellFormed(b)
    ensures LineHash(digest, f, a) == LineHash(digest, f, b) <==> SameValues(Hashed(f, a), Hashed(f, b))
  {
    HashedIsWellFormed(f, a);
    HashedIsWellFormed(f, b);
    RecordTextIsExact(f.keys, Hashed(f, a), Hashed(f, b));
    var p, s, t := Ascii("sha256:"), RecordText(f.keys, Hashed(f, a)), RecordText(f.keys, Hashed(f, b));
    assert (p + digest(s))[|p|..] == digest(s) && (p + digest(t))[|p|..] == digest(t);
  }

  /** The first `n` lines have the same hashes and the same hashed values. */
  ghost predicate SameLines(f: Format, c1: seq<Json>, c2: seq<Json>, n: nat) {
    && n <= |c1| && n <= |c2|
    && forall i | 0 <= i < n ::
         At(c1[i], f.hashKey) == At(c2[i], f.hashKey) && SameValues(Hashed(f, c1[i]), Hashed(f, c2[i]))
  }

  lemma LinksAgree(digest: Text -> Text, f: Format, c1: seq<Json>, i: nat, c2: seq<Json>, k: nat)
    requires IsFormat(f) && i < |c1| && k < |c2| && LinesVerify(digest, f, c1) && LinesVerify(digest, f, c2)
    requires SameValues(Hashed(f, c1[i]), Hashed(f, c2[k]))
    ensures i == 0 <==> k == 0
    ensures i > 0 && k > 0 ==> At(c1[i - 1], f.hashKey) == At(c2[k - 1], f.hashKey)
  {
    assert LineVerifies(digest, f, c1, i) && LineVerifies(digest, f, c2, k);
    if i > 0 {
      assert LineVerifies(digest, f, c1, i - 1);
    }
    if k > 0 {
      assert LineVerifies(digest, f, c2, k - 1);
    }
    hide LineHash;
    assert SameValue(Hashed(f, c1[i])[f.prevAt], Hashed(f, c2[k])[f.prevAt]);
  }

  lemma EqualHashesEqualValues(digest: Text -> Text, f: Format, c1: seq<Json>, i: nat, c2: seq<Json>, k: nat)
    requires Injective(digest) && IsFormat(f) && WellFormedLines(c1) && WellFormedLines(c2)
    requires LinesVerify(digest, f, c1) && LinesVerify(digest, f, c2)
    requires i < |c1| && k < |c2| && At(c1[i], f.hashKey) == At(c2[k], f.hashKey)
    ensures SameValues(Hashed(f, c1[i]), Hashed(f, c2[k]))
  {
    assert LineVerifies(digest, f, c1, i) && LineVerifies(digest, f, c2, k);
    hide WellFormed, IsFormat, LineHash, Hashed, SameValues, At, Injective;
    LineHashIsExact(digest, f, c1[i], c2[k]);
  }

  lemma NoLines(f: Format, c1: seq<Json>, c2: seq<Json>)
    ensures SameLines(f, c1, c2, 0)
  {
  }

  lemma OneMoreLine(f: Format, c1: seq<Json>, c2: seq<Json>, n: nat)
    requires SameLines(f, c1, c2, n) && n < |c1| && n < |c2|
    requires At(c1[n], f.hashKey) == At(c2[n], f.hashKey) && SameValues(Hashed(f, c1[n]), Hashed(f, c2[n]))
    ensures SameLines(f, c1, c2, n + 1)
  {
    hide SameValues, Hashed, At;
  }

  /**
   Whatever the lines of two verified chains hold, an equal hash means an equal position, and equal hashed values at it
   and at every position before.
   */
  lemma {:induction false} LineCommitsToHistory(digest: Text -> Text, f: Format, c1: seq<Json>, i: nat,
                                                c2: seq<Json>, k: nat)
    requires Injective(digest) && IsFormat(f) && WellFormedLines(c1) && WellFormedLines(c2)
    requires LinesVerify(digest, f, c1) && LinesVerify(digest, f, c2)
    requires i < |c1| && k < |c2| && At(c1[i], f.hashKey) == At(c2[k], f.hashKey)
    ensures i == k && SameLines(f, c1, c2, i + 1)
    decreases i
  {
    EqualHashesEqualValues(digest, f, c1, i, c2, k);
    hide Injective, WellFormedLines, SameValues, IsFormat, LinesVerify, SameLines, Hashed, At;
    LinksAgree(digest, f, c1, i, c2, k);
    if i > 0 {
      LineCommitsToHistory(digest, f, c1, i - 1, c2, k - 1);
    } else {
      NoLines(f, c1, c2);
    }
    OneMoreLine(f, c1, c2, i);
  }

  // ------------------------------------------------------------- receipts and anchors

  /** The keys of `receiptHashPayload`, in the order in which the source lists them. */
  const RECEIPT_KEYS: seq<Text> :=
    [Ascii("capability"), Ascii("version"), Ascii("capability_definition_hash"), Ascii("authority_level_used"),
     Ascii("authority"), Ascii("execution_class"), Ascii("timestamp"), Ascii("stage"), Ascii("success"),
     Ascii("output_validation_passed"), Ascii("errors"), Ascii("prev_receipt_hash"), Ascii("environment_id"),
     Ascii("runtime_id"), Ascii("chain_key"), Ascii("replay_key"), Ascii("idempotency_key")]

  const ANCHOR_KEYS: seq<Text> :=
    [Ascii("chain_key"), Ascii("anchored_receipt_hash"), Ascii("prev_anchor_hash"), Ascii("anchored_at")]

  /**
   A field as the verifier hashes it: `output_validation_passed` is `null` where it is absent, and `errors` and the two
   keys are `null` where they are absent or falsy.
   */
  function RebuiltField(i: nat, v: Option<Json>): Option<Json> {
    if i == 9 then (if v.None? then Some(Null) else v)
    else if i == 10 || i == 15 || i == 16 then (if v.None? || !IsTruthy(v.value) then Some(Null) else v)
    else v
  }

  const RECEIPT_LINES: Format := Format(RECEIPT_KEYS, 11, Ascii("receipt_hash"), RebuiltField)

  const ANCHOR_LINES: Format := Format(ANCHOR_KEYS, 2, Ascii("anchor_hash"), (i, v) => v)

  /** A core whose payload has exactly the keys in question. */
  const SAMPLE: Core :=
    Core([], None, None, [], Null, None, [], [], false, None, None, None, [], [], [], None, None)

  lemma ReceiptKeysAreThose(c: Core)
    ensures |HashPayload(c).fields| == 17 && forall i | 0 <= i < 17 :: HashPayload(c).fields[i].key == RECEIPT_KEYS[i]
  {
    hide Ascii;
  }

  lemma ReceiptLinesAreAFormat()
    ensures IsFormat(RECEIPT_LINES)
  {
    ReceiptKeysAreThose(SAMPLE);
    PayloadDistinct(SAMPLE);
    hide Ascii, KeyRank;
    var fs := HashPayload(SAMPLE).fields;
    forall i, k | 0 <= i < k < |RECEIPT_KEYS|
      ensures RECEIPT_KEYS[i] != RECEIPT_KEYS[k]
    {
      assert fs[i].key != fs[k].key;
    }
    assert WellFormed(Null);
  }

  lemma AnchorLinesAreAFormat()
    ensures IsFormat(ANCHOR_LINES)
  {
    var keys := ANCHOR_KEYS;
    assert |keys[0]| == 9 && |keys[1]| == 21 && |keys[2]| == 16 && |keys[3]| == 11;
    hide Ascii;
  }

  /** The lines of one chain key, for any key that is neither an object nor an array, absent included. */
  function LinesOf(lines: seq<Json>, key: Option<Json>): (c: seq<Json>)
    ensures forall i | 0 <= i < |c| :: c[i] in lines
  {
    if lines == [] then []
    else
      var last := lines[|lines| - 1];
      var c := LinesOf(lines[..|lines| - 1], key);
      if Identical(At(last, Ascii("chain_key")), key) then c + [last] else c
  }

  function LastLineHash(f: Format, c: seq<Json>): Option<Json> {
    if c == [] then None else At(c[|c| - 1], f.hashKey)
  }

  /**
   Two receipt files whose lines may hold anything, both accepted by the chain verifier, with the same last hash under
   every chain key: under each key they have the same number of lines, with the same hashes and the same hashed values
   at every position.
   */
  lemma TamperedLinesAreEvident(digest: Text -> Text, l1: seq<Json>, l2: seq<Json>)
    requires Injective(digest) && WellFormedLines(l1) && WellFormedLines(l2)
    requires forall key: Option<Json> :: LinesVerify(digest, RECEIPT_LINES, LinesOf(l1, key))
    requires forall key: Option<Json> :: LinesVerify(digest, RECEIPT_LINES, LinesOf(l2, key))
    requires forall key: Option<Json> ::
             LastLineHash(RECEIPT_LINES, LinesOf(l1, key)) == LastLineHash(RECEIPT_LINES, LinesOf(l2, key))
    ensures forall key: Option<Json> ::
              |LinesOf(l1, key)| == |LinesOf(l2, key)|
              && SameLines(RECEIPT_LINES, LinesOf(l1, key), LinesOf(l2, key), |LinesOf(l1, key)|)
  {
    ReceiptLinesAreAFormat();
    hide IsFormat, LinesVerify, SameLines, Ascii;
    forall key: Option<Json>
      ensures |LinesOf(l1, key)| == |LinesOf(l2, key)|
              && SameLines(RECEIPT_LINES, LinesOf(l1, key), LinesOf(l2, key), |LinesOf(l1, key)|)
    {
      LastLineDecides(digest, RECEIPT_LINES, l1, LinesOf(l1, key), l2, LinesOf(l2, key));
    }
  }

  lemma LastLineDecides(digest: Text -> Text, f: Format, l1: seq<Json>, c1: seq<Json>, l2: seq<Json>, c2: seq<Json>)
    requires Injective(digest) && IsFormat(f) && WellFormedLines(l1) && WellFormedLines(l2)
    requires (forall i | 0 <= i < |c1| :: c1[i] in l1) && (forall i | 0 <= i < |c2| :: c2[i] in l2)
    requires LinesVerify(digest, f, c1) && LinesVerify(digest, f, c2) && LastLineHash(f, c1) == LastLineHash(f, c2)
    ensures |c1| == |c2| && SameLines(f, c1, c2, |c1|)
  {
    hide WellFormed, LineHash;
    if c1 != [] {
      assert LineVerifies(digest, f, c1, |c1| - 1);
    }
    if c2 != [] {
      assert LineVerifies(digest, f, c2, |c2| - 1);
    }
    if c1 != [] && c2 != [] {
      LineCommitsToHistory(digest, f, c1, |c1| - 1, c2, |c2| - 1);
    }
  }

  /** The same for the anchor file: its last hash determines every hashed value of every anchor. */
  lemma LastAnchorLineDecides(digest: Text -> Text, l1: seq<Json>, l2: seq<Json>)
    requires Injective(digest) && WellFormedLines(l1) && WellFormedLines(l2)
    requires LinesVerify(digest, ANCHOR_LINES, l1) && LinesVerify(digest, ANCHOR_LINES, l2)
    requires LastLineHash(ANCHOR_LINES, l1) == LastLineHash(ANCHOR_LINES, l2)
    ensures |l1| == |l2| && SameLines(ANCHOR_LINES, l1, l2, |l1|)
  {
    AnchorLinesAreAFormat();
    hide IsFormat, LinesVerify, SameLines, Ascii;
    LastLineDecides(digest, ANCHOR_LINES, l1, l1, l2, l2);
  }

  // ------------------------------------------------------------------ lines as written

  /** The values the payload of a receipt has under its keys. */
  function PayloadValues(c: Core): (vs: seq<Option<Json>>)
    ensures |vs| == |HashPayload(c).fields| && forall i | 0 <= i < |vs| :: vs[i] == Some(HashPayload(c).fields[i].value)
  {
    var fs := HashPayload(c).fields;
    seq(|fs|, i requires 0 <= i < |fs| => Some(fs[i].value))
  }

  lemma {:induction false} StablePartsAt(fields: seq<Field>, i: nat)
    requires i < |fields|
    ensures |StableParts(fields)| == |fields|
    ensures StableParts(fields)[i] == Part(fields[i].key, StableStringify(fields[i].value))
  {
    if i > 0 {
      StablePartsAt(fields[1..], i - 1);
    } else if |fields| > 1 {
      StablePartsAt(fields[1..], 0);
    }
  }

  /** On a line that holds a receipt as the runtime writes it, the hash of the line is the hash of the receipt. */
  lemma WrittenLineHash(digest: Text -> Text, c: Core, line: Json)
    requires Hashed(RECEIPT_LINES, line) == PayloadValues(Rebuilt(c))
    ensures LineHash(digest, RECEIPT_LINES, line) == ReceiptHash(digest, Rebuilt(c))
  {
    var fs, vs := HashPayload(Rebuilt(c)).fields, PayloadValues(Rebuilt(c));
    ReceiptKeysAreThose(Rebuilt(c));
    hide Ascii, HashPayload, StableStringify;
    StablePartsAt(fs, 0);
    forall i | 0 <= i < 17
      ensures StableParts(fs)[i] == PartsOf(RECEIPT_KEYS, vs)[i]
    {
      StablePartsAt(fs, i);
    }
    assert StableParts(fs) == PartsOf(RECEIPT_KEYS, vs);
    PrintedRecord(fs);
  }

  lemma PrintedRecord(fs: seq<Field>)
    ensures StableStringify(Obj(fs)) == [LBRACE] + JoinParts(SortByKey(StableParts(fs))) + [RBRACE]
  {
  }
}
