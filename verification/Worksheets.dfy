/** `validateWorksheet` of the capability compiler, and what it guarantees to the loader and to replay protection. */
module Worksheets {
  import opened Texts
  import opened CanonicalJson
  import opened CanonicalJsonTheorems
  import opened SortedKeys
  import opened Enforcement
  import opened DefinitionHash
  import opened CapabilityFiles
  import opened GovernedRuns
  import opened IdempotencyRuns

  /**
   The libraries validation calls: SemVer, the coercion of shorthand output schemas, and the JSON Schema compiler
   and validator.
   */
  datatype Libraries = Libraries(
    isSemVer: Text -> bool,
    coerceOutput: Json -> Option<Json>,
    compiles: Json -> bool,
    accepts: (Json, Json) -> bool)

  // -------------------------------------------------------------- character classes

  predicate IsLower(u: Unit) {
    97 <= u <= 122
  }

  predicate IsDigit(u: Unit) {
    48 <= u <= 57
  }

  predicate IsIdUnit(u: Unit) {
    IsLower(u) || IsDigit(u) || u == 95 || u == 46
  }

  /** `^[a-z][a-z0-9_.]*$` */
  predicate IsRoute(t: Text) {
    t != [] && IsLower(t[0]) && forall i | 1 <= i < |t| :: IsIdUnit(t[i])
  }

  /** `^[a-z][a-z0-9-]*$` */
  predicate IsAdapterKey(t: Text) {
    t != [] && IsLower(t[0]) && forall i | 1 <= i < |t| :: IsLower(t[i]) || IsDigit(t[i]) || t[i] == 45
  }

  /** `^(hai|zak)\.[a-z][a-z0-9_.]*$` */
  predicate IsCapabilityId(t: Text) {
    |t| > 4 && (t[..4] == Ascii("hai.") || t[..4] == Ascii("zak.")) && IsRoute(t[4..])
  }

  // ------------------------------------------------------------------ what is asked

  const TOP_KEYS: seq<Text> :=
    [Ascii("capability"), Ascii("version"), Ascii("adapter"), Ascii("execution_class"), Ascii("authority_requirements"),
     Ascii("input_schema"), Ascii("output_schema"), Ascii("golden"), Ascii("description"), Ascii("tags"),
     Ascii("side_effect_tier"), Ascii("idempotency"), Ascii("replay_behavior"), Ascii("async_model"),
     Ascii("job_id_field"), Ascii("partial_receipt")]

  predicate Has(fields: seq<Field>, key: string) {
    FieldNamed(fields, Ascii(key)).Some?
  }

  function TextUnder(fields: seq<Field>, key: string): Option<Text> {
    TextField(fields, Ascii(key))
  }

  predicate PresentAndNotNull(fields: seq<Field>, key: string) {
    Has(fields, key) && !FieldNamed(fields, Ascii(key)).value.Null?
  }

  predicate AdapterFits(fields: seq<Field>) {
    match FieldNamed(fields, Ascii("adapter"))
    case Some(Obj(inner)) =>
      && TextUnder(inner, "key").Some? && IsAdapterKey(TextUnder(inner, "key").value)
      && TextUnder(inner, "route").Some? && IsRoute(TextUnder(inner, "route").value)
    case _ => false
  }

  predicate NoClassB(fields: seq<Field>) {
    !Has(fields, "side_effect_tier") && !Has(fields, "idempotency") && !Has(fields, "replay_behavior")
  }

  predicate NoClassC(fields: seq<Field>) {
    !Has(fields, "async_model") && !Has(fields, "job_id_field") && !Has(fields, "partial_receipt")
  }

  predicate IsAsyncModel(t: Option<Text>) {
    t == Some(Ascii("poll")) || t == Some(Ascii("callback")) || t == Some(Ascii("poll_or_callback"))
  }

  /** The class-specific fields, if they are those of the class. */
  function ClassFieldsOf(fields: seq<Field>): Option<ClassFields> {
    match ParseClass(TextUnder(fields, "execution_class"))
    case None => None
    case Some(ClassA) => if NoClassB(fields) && NoClassC(fields) then Some(FieldsA) else None
    case Some(ClassB) =>
      var tier := ParseTier(TextUnder(fields, "side_effect_tier"));
      var idempotency := ParseIdempotency(TextUnder(fields, "idempotency"));
      var replay := ParseReplay(TextUnder(fields, "replay_behavior"));
      if NoClassC(fields) && tier.Some? && idempotency.Some? && replay.Some?
      then Some(FieldsB(tier.value, idempotency.value, replay.value)) else None
    case Some(ClassC) =>
      var model, job := TextUnder(fields, "async_model"), TextUnder(fields, "job_id_field");
      var partial := FieldNamed(fields, Ascii("partial_receipt"));
      if NoClassB(fields) && IsAsyncModel(model) && job.Some? && Trim(job.value) != [] && partial.Some?
         && partial.value.Bool?
      then Some(FieldsC(model.value, Trim(job.value), partial.value.b)) else None
  }

  /** The errors collected before any schema is compiled are none. */
  predicate ShapeFits(libs: Libraries, fields: seq<Field>) {
    && TextUnder(fields, "capability").Some? && IsCapabilityId(TextUnder(fields, "capability").value)
    && TextUnder(fields, "version").Some? && libs.isSemVer(TextUnder(fields, "version").value)
    && AdapterFits(fields)
    && ParseAuthority(TextUnder(fields, "authority_requirements")).Some?
    && Has(fields, "input_schema") && FieldNamed(fields, Ascii("input_schema")).value.Obj?
    && PresentAndNotNull(fields, "output_schema") && PresentAndNotNull(fields, "golden")
    && ClassFieldsOf(fields).Some?
  }

  /** The golden case has an input that the input schema takes, and no output that the output schema refuses. */
  predicate GoldenFits(libs: Libraries, golden: Json, inputSchema: Json, outputSchema: Json) {
    && golden.Obj? && Has(golden.fields, "input")
    && FieldNamed(golden.fields, Ascii("input")).value.Obj?
    && libs.accepts(inputSchema, FieldNamed(golden.fields, Ascii("input")).value)
    && (PresentAndNotNull(golden.fields, "output") ==>
        libs.accepts(outputSchema, FieldNamed(golden.fields, Ascii("output")).value))
  }

  predicate TagsFit(fields: seq<Field>) {
    Has(fields, "tags") ==>
      var tags := FieldNamed(fields, Ascii("tags")).value;
      tags.Arr? && forall i | 0 <= i < |tags.items| :: tags.items[i].Str?
  }

  // --------------------------------------------------------------- what is returned

  /** The tag is what trimming leaves of one of the items. */
  predicate IsTrimmedTag(items: seq<Json>, tag: Text) {
    exists i | 0 <= i < |items| :: items[i].Str? && Trim(items[i].s) == tag
  }

  /** Trimmed, without empty ones and repetitions, in the order of their first occurrence. */
  function CleanTags(items: seq<Json>): (r: seq<Text>)
    ensures forall t :: t in r <==> t != [] && IsTrimmedTag(items, t)
    ensures forall i, k | 0 <= i < k < |r| :: r[i] != r[k]
  {
    if items == [] then []
    else
      var before := CleanTags(items[..|items| - 1]);
      var last := items[|items| - 1];
      assert forall t :: IsTrimmedTag(items, t) <==>
                         IsTrimmedTag(items[..|items| - 1], t) || (last.Str? && Trim(last.s) == t);
      if !last.Str? || Trim(last.s) == [] || Trim(last.s) in before then before else before + [Trim(last.s)]
  }

  function TagsOf(fields: seq<Field>): Option<seq<Text>> {
    match FieldNamed(fields, Ascii("tags"))
    case Some(Arr(items)) => if CleanTags(items) == [] then None else Some(SortTexts(CleanTags(items)))
    case _ => None
  }

  function TextAt(fields: seq<Field>, key: string): Text {
    if TextUnder(fields, key).Some? then TextUnder(fields, key).value else []
  }

  function InnerText(fields: seq<Field>, key: string): Text {
    match FieldNamed(fields, Ascii("adapter"))
    case Some(Obj(inner)) => TextAt(inner, key)
    case _ => []
  }

  function WorksheetOf(fields: seq<Field>, outputSchema: Json): Worksheet
    requires ClassFieldsOf(fields).Some? && ParseAuthority(TextUnder(fields, "authority_requirements")).Some?
    requires Has(fields, "input_schema")
  {
    Worksheet(
      Definition(TextAt(fields, "capability"), TextAt(fields, "version"), InnerText(fields, "key"),
                 InnerText(fields, "route"), FieldNamed(fields, Ascii("input_schema")).value,
                 NonEmpty(Some(Trim(TextAt(fields, "description")))), TagsOf(fields)),
      ParseAuthority(TextUnder(fields, "authority_requirements")).value,
      outputSchema,
      ClassFieldsOf(fields).value)
  }

  predicate KeysKnown(fields: seq<Field>) {
    forall i | 0 <= i < |fields| :: fields[i].key in TOP_KEYS
  }

  /** What `validateWorksheet` accepts, with the coerced output schema. */
  predicate Accepts(libs: Libraries, raw: Json) {
    && raw.Obj? && KeysKnown(raw.fields) && ShapeFits(libs, raw.fields)
    && var output := libs.coerceOutput(FieldNamed(raw.fields, Ascii("output_schema")).value);
       && output.Some? && libs.compiles(output.value)
       && libs.compiles(FieldNamed(raw.fields, Ascii("input_schema")).value)
       && GoldenFits(libs, FieldNamed(raw.fields, Ascii("golden")).value,
                     FieldNamed(raw.fields, Ascii("input_schema")).value, output.value)
       && TagsFit(raw.fields)
  }

  function Validate(libs: Libraries, raw: Json): Option<Worksheet> {
    if Accepts(libs, raw)
    then Some(WorksheetOf(raw.fields, libs.coerceOutput(FieldNamed(raw.fields, Ascii("output_schema")).value).value))
    else None
  }

  /**
   What is assumed of the libraries: a SemVer text has no colon, an output schema that compiles has a type, and the
   coercion of a schema brings in no key `__proto__`.
   */
  ghost predicate Reliable(libs: Libraries) {
    && (forall t | libs.isSemVer(t) :: t != [] && COLON !in t)
    && (forall raw, out | WellFormed(raw) && libs.coerceOutput(raw) == Some(out) && libs.compiles(out) ::
          out.Obj? && WellFormed(out) && HasType(out) && (ProtoFree(raw) ==> ProtoFree(out)))
  }

  lemma ClassFieldsAreFull(fields: seq<Field>)
    ensures ClassFieldsOf(fields).Some? && ClassFieldsOf(fields).value.FieldsC? ==>
              ClassFieldsOf(fields).value.asyncModel != [] && ClassFieldsOf(fields).value.jobIdField != []
  {
    hide FieldNamed, ParseTier, ParseIdempotency, ParseReplay, ParseClass, NoClassB, NoClassC, Trim;
    assert |Ascii("poll")| == 4 && |Ascii("callback")| == 8 && |Ascii("poll_or_callback")| == 16;
  }

  lemma CompiledIsTyped(libs: Libraries, raw: Json, out: Json)
    requires Reliable(libs) && WellFormed(raw) && libs.coerceOutput(raw) == Some(out) && libs.compiles(out)
    ensures out.Obj? && WellFormed(out) && HasType(out) && (ProtoFree(raw) ==> ProtoFree(out))
  {
    hide WellFormed, HasType, ProtoFree;
  }

  lemma OutputIsTyped(libs: Libraries, raw: Json)
    requires Reliable(libs) && WellFormed(raw) && Accepts(libs, raw)
    ensures var out := libs.coerceOutput(FieldNamed(raw.fields, Ascii("output_schema")).value).value;
            out.Obj? && WellFormed(out) && HasType(out) && (ProtoFree(raw) ==> ProtoFree(out))
  {
    if ProtoFree(raw) && Has(raw.fields, "output_schema") {
      FieldIsProtoFree(raw, Ascii("output_schema"));
    }
    hide ProtoFree, FieldNamed, KeysKnown, GoldenFits, AdapterFits, TagsFit, ParseAuthority, ClassFieldsOf,
         IsCapabilityId, HasType, WellFormed, Reliable, Ascii, IsRoute;
    FieldIsWellFormed(raw, Ascii("output_schema"));
    var schema := FieldNamed(raw.fields, Ascii("output_schema")).value;
    CompiledIsTyped(libs, schema, libs.coerceOutput(schema).value);
  }

  lemma InputIsObject(libs: Libraries, raw: Json)
    requires WellFormed(raw) && Accepts(libs, raw)
    ensures FieldNamed(raw.fields, Ascii("input_schema")).value.Obj?
            && WellFormed(FieldNamed(raw.fields, Ascii("input_schema")).value)
    ensures Reliable(libs) ==> TextAt(raw.fields, "capability") != [] && TextAt(raw.fields, "version") != []
  {
    FieldIsWellFormed(raw, Ascii("input_schema"));
    hide FieldNamed, KeysKnown, GoldenFits, AdapterFits, TagsFit, ParseAuthority, ClassFieldsOf, HasType, WellFormed,
         Ascii;
  }

  /** Every accepted worksheet is what the writer and the loader rely on. */
  lemma AcceptedIsValidated(libs: Libraries, raw: Json)
    requires Reliable(libs) && WellFormed(raw) && Validate(libs, raw).Some?
    ensures Validated(Validate(libs, raw).value)
  {
    InputIsObject(libs, raw);
    OutputIsTyped(libs, raw);
    ClassFieldsAreFull(raw.fields);
    SortedTagsExist(raw.fields);
    hide FieldNamed, KeysKnown, ShapeFits, GoldenFits, TagsFit, ClassFieldsOf, HasType, WellFormed, Trim, TagsOf,
         Ascii, TextAt, InnerText, Reliable;
  }

  lemma SortedTagsExist(fields: seq<Field>)
    ensures TagsOf(fields) != Some([])
  {
    match FieldNamed(fields, Ascii("tags"))
    case Some(Arr(items)) =>
      SortTextsSorts(CleanTags(items));
      if CleanTags(items) != [] {
        assert CleanTags(items)[0] in multiset(SortTexts(CleanTags(items)));
      }
    case _ =>
  }

  /**
   From worksheet to loaded capability: every accepted worksheet is written and read back, whatever the key order of
   the files, with the same definition hash and a meta of the same class, authority and class-specific fields.
   */
  lemma AcceptedWorksheetsLoad(libs: Libraries, raw: Json, compiler: Text, template: Text, definition: Json, meta: Json,
                               toText: Json -> Text)
    requires Reliable(libs) && WellFormed(raw) && Validate(libs, raw).Some?
    requires WellFormed(definition) && Same(DefinitionJson(Validate(libs, raw).value.definition), definition)
    requires WellFormed(meta) && Same(MetaJson(Validate(libs, raw).value, compiler, template), meta)
    ensures var ws := Validate(libs, raw).value;
            && ParseDefinition(definition).Some? && ParseMeta(toText, meta).Some?
            && Preimage(ParseDefinition(definition).value) == Preimage(ws.definition)
            && var m := ParseMeta(toText, meta).value;
               m == LoadedMeta(ws, m.outputSchema) && Same(ws.outputSchema, m.outputSchema) && ClassViolations(m) == []
  {
    hide Validate, Validated, ParseDefinition, ParseMeta, DefinitionJson, MetaJson, Same, Preimage, LoadedMeta;
    AcceptedIsValidated(libs, raw);
    var ws := Validate(libs, raw).value;
    DefinitionRoundTrip(ws, definition);
    MetaRoundTrip(ws, compiler, template, meta, toText);
  }

  lemma IdsHaveNoColon(t: Text)
    requires IsCapabilityId(t)
    ensures t != [] && COLON !in t
  {
    forall i | 0 <= i < |t|
      ensures t[i] != COLON
    {
      if i < 4 {
        assert t[i] == t[..4][i];
        assert Ascii("hai.")[0] == 104 && Ascii("hai.")[1] == 97 && Ascii("hai.")[2] == 105 && Ascii("hai.")[3] == 46;
        assert Ascii("zak.")[0] == 122 && Ascii("zak.")[1] == 97 && Ascii("zak.")[2] == 107 && Ascii("zak.")[3] == 46;
      } else {
        assert t[i] == t[4..][i - 4];
      }
    }
  }

  /**
   Replay protection and key binding apply to every capability that was compiled from an accepted worksheet: its policy
   key meets the conditions, and under the meta that is loaded for it the at-most-once theorem applies to `blocked`
   capabilities and the one-key-one-input theorem to `allowed_same_key` ones.
   */
  lemma AcceptedIsProtected(libs: Libraries, raw: Json, reg: Registry, schema: Json)
    requires Reliable(libs) && Validate(libs, raw).Some?
    ensures var ws := Validate(libs, raw).value;
            var pk := PolicyKey(ws.definition.capability, ws.definition.version);
            && Blockable(pk) && Bindable(pk)
            && (ws.classFields.FieldsB? && ws.classFields.replay.Blocked? ==> IsBlocked(LoadedMeta(ws, schema)))
            && (ws.classFields.FieldsB? && ws.classFields.replay.AllowedSameKey? ==>
                  (pk in reg.metas && reg.metas[pk] == LoadedMeta(ws, schema) ==> KeyedCapability(reg, pk)))
  {
    hide FieldNamed, KeysKnown, GoldenFits, AdapterFits, TagsFit, ParseAuthority, ClassFieldsOf, IsCapabilityId, TagsOf,
         Blockable;
    var d := Validate(libs, raw).value.definition;
    IdsHaveNoColon(d.capability);
    NamedCapabilitiesAreBlockable(d.capability, d.version);
  }

  // ---------------------------------------------------------------- from the YAML tree

  /** `applyNamingNorm`, for one field of the adapter. `lower` stands for lower-casing. */
  function TrimmedField(f: Field): Field {
    if (f.key == Ascii("key") || f.key == Ascii("route")) && f.value.Str? then Field(f.key, Str(Trim(f.value.s))) else f
  }

  /** The same for one field of the worksheet. */
  function NormalField(lower: Text -> Text, f: Field): Field {
    if f.key == Ascii("capability") && f.value.Str? then Field(f.key, Str(lower(Trim(f.value.s))))
    else if f.key == Ascii("adapter") && f.value.Obj? then
      Field(f.key, Obj(seq(|f.value.fields|, i requires 0 <= i < |f.value.fields| => TrimmedField(f.value.fields[i]))))
    else f
  }

  /**
   `parseWorksheetYaml`, from the tree whose strings have been trimmed: keys are sorted by assignments to fresh
   objects, and the names are put in their normal form.
   */
  function NormalizedTree(lower: Text -> Text, trimmed: Json): Json {
    match SortKeysDeep(trimmed)
    case Obj(fields) => Obj(seq(|fields|, i requires 0 <= i < |fields| => NormalField(lower, fields[i])))
    case j => j
  }

  lemma NormalFieldIsFine(lower: Text -> Text, f: Field)
    ensures NormalField(lower, f).key == f.key
    ensures WellFormed(f.value) ==> WellFormed(NormalField(lower, f).value)
    ensures ProtoFree(f.value) ==> ProtoFree(NormalField(lower, f).value)
  {
    hide Trim;
  }

  lemma NormalizedIsFine(lower: Text -> Text, trimmed: Json)
    requires WellFormed(trimmed)
    ensures WellFormed(NormalizedTree(lower, trimmed)) && ProtoFree(NormalizedTree(lower, trimmed))
  {
    SortedIsSame(trimmed);
    SortedIsProtoFree(trimmed);
    hide NormalField;
    var j := SortKeysDeep(trimmed);
    if j.Obj? {
      forall i | 0 <= i < |j.fields|
        ensures NormalField(lower, j.fields[i]).key == j.fields[i].key
        ensures WellFormed(NormalField(lower, j.fields[i]).value) && ProtoFree(NormalField(lower, j.fields[i]).value)
      {
        NormalFieldIsFine(lower, j.fields[i]);
      }
    }
  }

  /**
   From worksheet file to loaded capability: whatever the tree the YAML parser makes, if the worksheet is accepted, the
   files the compiler prints load again, with the hash it wrote and the same meta and output schema.
   */
  lemma CompiledWorksheetsLoad(libs: Libraries, lower: Text -> Text, trimmed: Json, compiler: Text, template: Text,
                               toText: Json -> Text)
    requires Reliable(libs) && WellFormed(trimmed) && Validate(libs, NormalizedTree(lower, trimmed)).Some?
    ensures var ws := Validate(libs, NormalizedTree(lower, trimmed)).value;
            var d := ParseDefinition(SortKeysDeep(DefinitionJson(ws.definition)));
            var m := ParseMeta(toText, SortKeysDeep(MetaJson(ws, compiler, template)));
            && d.Some? && Preimage(d.value) == Preimage(ws.definition)
            && m.Some? && m.value == LoadedMeta(ws, m.value.outputSchema) && Same(ws.outputSchema, m.value.outputSchema)
  {
    var raw := NormalizedTree(lower, trimmed);
    NormalizedIsFine(lower, trimmed);
    AcceptedIsValidated(libs, raw);
    SchemasAreProtoFree(libs, raw);
    hide Validate, Validated, NormalizedTree, ParseDefinition, ParseMeta, DefinitionJson, MetaJson, Preimage,
         ClassViolations;
    SortedFilesRoundTrip(Validate(libs, raw).value, compiler, template, toText);
  }

  lemma SchemasAreProtoFree(libs: Libraries, raw: Json)
    requires Reliable(libs) && WellFormed(raw) && ProtoFree(raw) && Validate(libs, raw).Some?
    ensures var ws := Validate(libs, raw).value; ProtoFree(ws.definition.inputSchema) && ProtoFree(ws.outputSchema)
  {
    OutputIsTyped(libs, raw);
    InputIsThere(libs, raw);
    FieldIsProtoFree(raw, Ascii("input_schema"));
    hide FieldNamed, KeysKnown, ShapeFits, GoldenFits, TagsFit, ClassFieldsOf, HasType, WellFormed, Trim, TagsOf, Ascii,
         TextAt, InnerText, Reliable, ProtoFree;
  }

  lemma InputIsThere(libs: Libraries, raw: Json)
    requires Accepts(libs, raw)
    ensures FieldNamed(raw.fields, Ascii("input_schema")).Some?
  {
    hide FieldNamed, KeysKnown, GoldenFits, AdapterFits, TagsFit, ParseAuthority, ClassFieldsOf, Ascii;
  }
}
