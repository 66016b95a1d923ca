/** What the capability compiler writes to `definition.json` and `meta.json`, and what the loader makes of it. */
module CapabilityFiles {
  import opened Texts
  import opened CanonicalJson
  import opened CanonicalJsonTheorems
  import opened SortedKeys
  import opened Enforcement
  import opened DefinitionHash

  datatype ClassFields =
    | FieldsA
    | FieldsB(tier: SideEffectTier, idempotency: Idempotency, replay: ReplayBehavior)
    | FieldsC(asyncModel: Text, jobIdField: Text, partialReceipt: bool)

  /** A validated worksheet, without its golden case. */
  datatype Worksheet = Worksheet(
    definition: Definition,
    authority: AuthorityRequirement,
    outputSchema: Json,
    classFields: ClassFields)

  /** What validation guarantees; the schemas have been compiled, and a schema that compiles has a type. */
  ghost predicate Validated(ws: Worksheet) {
    && ws.definition.capability != [] && ws.definition.version != []
    && ws.definition.inputSchema.Obj? && WellFormed(ws.definition.inputSchema)
    && ws.definition.description != Some([])
    && ws.definition.tags != Some([])
    && ws.outputSchema.Obj? && WellFormed(ws.outputSchema) && HasType(ws.outputSchema)
    && (ws.classFields.FieldsC? ==> ws.classFields.asyncModel != [] && ws.classFields.jobIdField != [])
  }

  // --------------------------------------------------------------------- writing

  function DefinitionFields(d: Definition): seq<Field> {
    [Field(Ascii("capability"), Str(d.capability)),
     Field(Ascii("version"), Str(d.version)),
     Field(Ascii("adapter"), Obj(AdapterFields(d))),
     Field(Ascii("input_schema"), d.inputSchema)]
    + DescriptionFields(d)
    + (if d.tags.Some? && d.tags.value != [] then [Field(Ascii("tags"), Arr(TextItems(d.tags.value)))] else [])
  }

  /** `worksheetToCapabilityDefinition`, as the JSON that is printed with sorted keys. */
  function DefinitionJson(d: Definition): Json {
    Obj(DefinitionFields(d))
  }

  function AuthorityName(a: AuthorityRequirement): Text {
    match a
    case NoAuthority => Ascii("none")
    case Standard => Ascii("standard")
    case Elevated => Ascii("elevated")
    case ContinuousResonanceRequired => Ascii("continuous_resonance_required")
  }

  function TierName(t: SideEffectTier): Text {
    match t
    case Low => Ascii("low")
    case Medium => Ascii("medium")
    case Irreversible => Ascii("irreversible")
  }

  function IdempotencyName(i: Idempotency): Text {
    match i
    case NotIdempotent => Ascii("none")
    case Keyed => Ascii("keyed")
    case Inherent => Ascii("inherent")
  }

  function ReplayName(r: ReplayBehavior): Text {
    match r
    case Blocked => Ascii("blocked")
    case AllowedSameKey => Ascii("allowed_same_key")
    case AllowedReadOnlySubset => Ascii("allowed_read_only_subset")
  }

  function LetterOf(c: ClassFields): Text {
    match c
    case FieldsA => Ascii("A")
    case FieldsB(_, _, _) => Ascii("B")
    case FieldsC(_, _, _) => Ascii("C")
  }

  function ClassSpecific(c: ClassFields): seq<Field> {
    match c
    case FieldsA => []
    case FieldsB(tier, idempotency, replay) =>
      [Field(Ascii("side_effect_tier"), Str(TierName(tier))),
       Field(Ascii("idempotency"), Str(IdempotencyName(idempotency))),
       Field(Ascii("replay_behavior"), Str(ReplayName(replay)))]
    case FieldsC(asyncModel, jobIdField, partialReceipt) =>
      [Field(Ascii("async_model"), Str(asyncModel)),
       Field(Ascii("job_id_field"), Str(jobIdField)),
       Field(Ascii("partial_receipt"), Bool(partialReceipt))]
  }

  /** `buildMeta`, for the versions of compiler and template. */
  function MetaFields(ws: Worksheet, compiler: Text, template: Text): seq<Field> {
    [Field(Ascii("generated_by"), Str(Ascii("@zak/capability-compiler"))),
     Field(Ascii("compiler_version"), Str(compiler)),
     Field(Ascii("template_version"), Str(template)),
     Field(Ascii("execution_class"), Str(LetterOf(ws.classFields))),
     Field(Ascii("authority_requirements"), Str(AuthorityName(ws.authority))),
     Field(Ascii("output_schema"), ws.outputSchema)]
    + ClassSpecific(ws.classFields)
  }

  function MetaJson(ws: Worksheet, compiler: Text, template: Text): Json {
    Obj(MetaFields(ws, compiler, template))
  }

  // --------------------------------------------------------------------- reading

  function TextField(fields: seq<Field>, key: Text): Option<Text> {
    match FieldNamed(fields, key)
    case Some(Str(s)) => Some(s)
    case _ => None
  }

  function TextsIn(items: seq<Json>): seq<Text> {
    if items == [] then []
    else (if items[0].Str? then [items[0].s] else []) + TextsIn(items[1..])
  }

  /** `parseDefinitionJson`; `None` where it throws. */
  function ParseDefinition(j: Json): Option<Definition> {
    if !j.Obj? then None
    else
      var capability, version := TextField(j.fields, Ascii("capability")), TextField(j.fields, Ascii("version"));
      var adapter, schema := FieldNamed(j.fields, Ascii("adapter")), FieldNamed(j.fields, Ascii("input_schema"));
      if capability.None? || capability.value == [] || version.None? || version.value == [] then None
      else if adapter.None? || !adapter.value.Obj? then None
      else
        var key, route := TextField(adapter.value.fields, Ascii("key")),
                          TextField(adapter.value.fields, Ascii("route"));
        if key.None? || route.None? || schema.None? || !schema.value.Obj? then None
        else
          Some(Definition(capability.value, version.value, key.value, route.value, schema.value,
                          NonEmpty(TextField(j.fields, Ascii("description"))), ParsedTags(j.fields)))
  }

  function NonEmpty(t: Option<Text>): Option<Text> {
    if t.Some? && t.value != [] then t else None
  }

  function ParsedTags(fields: seq<Field>): Option<seq<Text>> {
    match FieldNamed(fields, Ascii("tags"))
    case Some(Arr(items)) => if TextsIn(items) == [] then None else Some(TextsIn(items))
    case _ => None
  }

  function ParseAuthority(t: Option<Text>): Option<AuthorityRequirement> {
    if t == Some(AuthorityName(NoAuthority)) then Some(NoAuthority)
    else if t == Some(AuthorityName(Standard)) then Some(Standard)
    else if t == Some(AuthorityName(Elevated)) then Some(Elevated)
    else if t == Some(AuthorityName(ContinuousResonanceRequired)) then Some(ContinuousResonanceRequired)
    else None
  }

  function ParseClass(t: Option<Text>): Option<ExecutionClass> {
    if t == Some(Ascii("A")) then Some(ClassA)
    else if t == Some(Ascii("B")) then Some(ClassB)
    else if t == Some(Ascii("C")) then Some(ClassC)
    else None
  }

  function ParseTier(t: Option<Text>): Option<SideEffectTier> {
    if t == Some(TierName(Low)) then Some(Low)
    else if t == Some(TierName(Medium)) then Some(Medium)
    else if t == Some(TierName(Irreversible)) then Some(Irreversible)
    else None
  }

  function ParseIdempotency(t: Option<Text>): Option<Idempotency> {
    if t == Some(IdempotencyName(NotIdempotent)) then Some(NotIdempotent)
    else if t == Some(IdempotencyName(Keyed)) then Some(Keyed)
    else if t == Some(IdempotencyName(Inherent)) then Some(Inherent)
    else None
  }

  function ParseReplay(t: Option<Text>): Option<ReplayBehavior> {
    if t == Some(ReplayName(Blocked)) then Some(Blocked)
    else if t == Some(ReplayName(AllowedSameKey)) then Some(AllowedSameKey)
    else if t == Some(ReplayName(AllowedReadOnlySubset)) then Some(AllowedReadOnlySubset)
    else None
  }

  /** `String(x)`, for what it makes of values that are no strings. */
  function AsText(toText: Json -> Text, j: Json): Text {
    if j.Str? then j.s else toText(j)
  }

  function AsyncText(toText: Json -> Text, fields: seq<Field>, key: Text): Option<Text> {
    match FieldNamed(fields, key)
    case None => None
    case Some(v) => Some(AsText(toText, v))
  }

  /** The fields of class B: all three valid for class B, all three absent otherwise. */
  function ClassBFields(class_: ExecutionClass, fields: seq<Field>)
    : Option<(Option<SideEffectTier>, Option<Idempotency>, Option<ReplayBehavior>)> {
    var tierKey, idempotencyKey, replayKey := Ascii("side_effect_tier"), Ascii("idempotency"), Ascii("replay_behavior");
    if class_.ClassB? then
      var tier := ParseTier(TextField(fields, tierKey));
      var idempotency := ParseIdempotency(TextField(fields, idempotencyKey));
      var replay := ParseReplay(TextField(fields, replayKey));
      if tier.None? || idempotency.None? || replay.None? then None else Some((tier, idempotency, replay))
    else if FieldNamed(fields, tierKey).Some? || FieldNamed(fields, idempotencyKey).Some?
         || FieldNamed(fields, replayKey).Some?
    then None
    else Some((None, None, None))
  }

  /** `parseCapabilityCompiledMeta`; `None` where it throws. */
  function ParseMeta(toText: Json -> Text, j: Json): Option<Meta> {
    if !j.Obj? then None
    else
      var authority := ParseAuthority(TextField(j.fields, Ascii("authority_requirements")));
      var class_ := ParseClass(TextField(j.fields, Ascii("execution_class")));
      var schema := FieldNamed(j.fields, Ascii("output_schema"));
      if authority.None? || class_.None? || schema.None? || !schema.value.Obj? then None
      else
        var partial := FieldNamed(j.fields, Ascii("partial_receipt"));
        match ClassBFields(class_.value, j.fields)
        case None => None
        case Some(b) =>
          var meta := Meta(authority.value, class_.value, schema.value,
                           AsyncText(toText, j.fields, Ascii("async_model")),
                           AsyncText(toText, j.fields, Ascii("job_id_field")),
                           if partial.Some? then Some(IsTruthy(partial.value)) else None,
                           b.0, b.1, b.2);
          if ClassViolations(meta) == [] then Some(meta) else None
  }

  // ------------------------------------------------------- records in any key order

  lemma {:induction false} NamedAt(fields: seq<Field>, i: nat)
    requires i < |fields| && DistinctFieldKeys(fields)
    ensures FieldNamed(fields, fields[i].key) == Some(fields[i].value)
  {
    if i > 0 {
      assert fields[0].key != fields[i].key;
      NamedAt(fields[1..], i - 1);
    }
  }

  lemma {:induction false} NamedIsThere(fields: seq<Field>, key: Text)
    ensures FieldNamed(fields, key).None? <==> forall i | 0 <= i < |fields| :: fields[i].key != key
    ensures FieldNamed(fields, key).Some? ==> Field(key, FieldNamed(fields, key).value) in fields
  {
    if fields != [] && fields[0].key != key {
      NamedIsThere(fields[1..], key);
    }
  }

  lemma SameIsSymmetric(a: Json, b: Json)
    requires WellFormed(a) && WellFormed(b) && Same(a, b)
    ensures Same(b, a)
  {
    SameOrdersAlike(a, b);
    OrderedAlikeAreSame(b, a);
  }

  lemma NamedInSame(a: Json, b: Json, key: Text)
    requires WellFormed(b) && a.Obj? && b.Obj? && Same(a, b) && FieldNamed(a.fields, key).Some?
    ensures FieldNamed(b.fields, key).Some? && Same(FieldNamed(a.fields, key).value, FieldNamed(b.fields, key).value)
  {
    NamedIsThere(a.fields, key);
    var f := Field(key, FieldNamed(a.fields, key).value);
    var i :| 0 <= i < |a.fields| && a.fields[i] == f;
    assert HasSame(a.fields[i], b.fields);
    var k :| 0 <= k < |b.fields| && f.key == b.fields[k].key && Same(f.value, b.fields[k].value);
    NamedAt(b.fields, k);
  }

  /** Reordered records have the same keys, with equal values. */
  lemma FieldsAgree(a: Json, b: Json, key: Text)
    requires WellFormed(a) && WellFormed(b) && a.Obj? && b.Obj? && Same(a, b)
    ensures FieldNamed(a.fields, key).Some? <==> FieldNamed(b.fields, key).Some?
    ensures FieldNamed(a.fields, key).Some? ==> Same(FieldNamed(a.fields, key).value, FieldNamed(b.fields, key).value)
  {
    if FieldNamed(a.fields, key).Some? {
      NamedInSame(a, b, key);
    }
    if FieldNamed(b.fields, key).Some? {
      SameIsSymmetric(a, b);
      NamedInSame(b, a, key);
    }
  }

  // ------------------------------------------------------------ definitions come back

  lemma DefinitionKeysDiffer(d: Definition)
    ensures DistinctFieldKeys(DefinitionFields(d))
  {
    var fs := DefinitionFields(d);
    assert fs[0].key[0] == 99 && fs[1].key[0] == 118 && fs[2].key[0] == 97 && fs[3].key[0] == 105;
    assert Ascii("description")[0] == 100 && Ascii("tags")[0] == 116;
  }

  lemma DefinitionJsonWellFormed(d: Definition)
    requires WellFormed(d.inputSchema)
    ensures WellFormed(DefinitionJson(d))
  {
    DefinitionKeysDiffer(d);
    RequiredKeysDiffer(d);
    var fs := DefinitionFields(d);
    assert WellFormed(fs[0].value) && WellFormed(fs[1].value) && WellFormed(fs[2].value) && WellFormed(fs[3].value);
    forall i | 4 <= i < |fs|
      ensures WellFormed(fs[i].value)
    {
    }
  }

  /** What the loader looks up in the record the compiler wrote. */
  lemma WrittenDefinition(d: Definition)
    ensures FieldNamed(DefinitionFields(d), Ascii("capability")) == Some(Str(d.capability))
    ensures FieldNamed(DefinitionFields(d), Ascii("version")) == Some(Str(d.version))
    ensures FieldNamed(DefinitionFields(d), Ascii("adapter")) == Some(Obj(AdapterFields(d)))
    ensures FieldNamed(DefinitionFields(d), Ascii("input_schema")) == Some(d.inputSchema)
    ensures FieldNamed(AdapterFields(d), Ascii("key")) == Some(Str(d.adapterKey))
    ensures FieldNamed(AdapterFields(d), Ascii("route")) == Some(Str(d.adapterRoute))
  {
    DefinitionKeysDiffer(d);
    RequiredKeysDiffer(d);
    NamedAt(DefinitionFields(d), 0);
    NamedAt(DefinitionFields(d), 1);
    NamedAt(DefinitionFields(d), 2);
    NamedAt(DefinitionFields(d), 3);
    NamedAt(AdapterFields(d), 0);
    NamedAt(AdapterFields(d), 1);
  }

  lemma WrittenOptions(d: Definition)
    ensures FieldNamed(DefinitionFields(d), Ascii("description"))
            == if d.description.Some? then Some(Str(d.description.value)) else None
    ensures FieldNamed(DefinitionFields(d), Ascii("tags"))
            == if d.tags.Some? && d.tags.value != [] then Some(Arr(TextItems(d.tags.value))) else None
  {
    DefinitionKeysDiffer(d);
    var fs := DefinitionFields(d);
    assert fs[0].key[0] == 99 && fs[1].key[0] == 118 && fs[2].key[0] == 97 && fs[3].key[0] == 105;
    assert Ascii("description")[0] == 100 && Ascii("tags")[0] == 116;
    NamedIsThere(fs, Ascii("description"));
    NamedIsThere(fs, Ascii("tags"));
    if |fs| > 4 {
      NamedAt(fs, 4);
      NamedAt(fs, |fs| - 1);
    }
  }

  lemma {:induction false} TextsOfItems(ts: seq<Text>, items: seq<Json>)
    requires Same(Arr(TextItems(ts)), Arr(items))
    ensures TextsIn(items) == ts
  {
    if ts != [] {
      assert Same(TextItems(ts)[0], items[0]);
      forall i | 0 <= i < |ts| - 1
        ensures Same(TextItems(ts[1..])[i], items[1..][i])
      {
        assert Same(TextItems(ts)[i + 1], items[i + 1]);
      }
      TextsOfItems(ts[1..], items[1..]);
    }
  }

  /** A text comes back as it was; a missing field stays missing. */
  lemma TextComesBack(a: Json, b: Json, key: Text)
    requires WellFormed(a) && WellFormed(b) && a.Obj? && b.Obj? && Same(a, b)
    requires FieldNamed(a.fields, key).Some? ==> FieldNamed(a.fields, key).value.Str?
    ensures FieldNamed(b.fields, key) == FieldNamed(a.fields, key)
    ensures TextField(b.fields, key) == TextField(a.fields, key)
  {
    FieldsAgree(a, b, key);
  }

  lemma FieldIsWellFormed(j: Json, key: Text)
    requires j.Obj? && WellFormed(j) && FieldNamed(j.fields, key).Some?
    ensures WellFormed(FieldNamed(j.fields, key).value)
  {
    NamedIsThere(j.fields, key);
    var i :| 0 <= i < |j.fields| && j.fields[i] == Field(key, FieldNamed(j.fields, key).value);
    assert WellFormed(j.fields[i].value);
  }

  lemma AdapterComesBack(d: Definition, j: Json)
    requires WellFormed(d.inputSchema) && WellFormed(j) && j.Obj? && Same(DefinitionJson(d), j)
    ensures var adapter := FieldNamed(j.fields, Ascii("adapter"));
            && adapter.Some? && adapter.value.Obj?
            && TextField(adapter.value.fields, Ascii("key")) == Some(d.adapterKey)
            && TextField(adapter.value.fields, Ascii("route")) == Some(d.adapterRoute)
  {
    DefinitionJsonWellFormed(d);
    WrittenDefinition(d);
    FieldsAgree(DefinitionJson(d), j, Ascii("adapter"));
    FieldIsWellFormed(j, Ascii("adapter"));
    FieldIsWellFormed(DefinitionJson(d), Ascii("adapter"));
    hide FieldNamed, Same, WellFormed, DefinitionFields;
    var adapter := FieldNamed(j.fields, Ascii("adapter")).value;
    ObjStaysObj(Obj(AdapterFields(d)), adapter);
    TextComesBack(Obj(AdapterFields(d)), adapter, Ascii("key"));
    TextComesBack(Obj(AdapterFields(d)), adapter, Ascii("route"));
  }

  lemma ObjStaysObj(a: Json, b: Json)
    requires Same(a, b)
    ensures a.Obj? <==> b.Obj?
    ensures a.Arr? <==> b.Arr?
    ensures !a.Obj? && !a.Arr? ==> a == b
  {
  }

  lemma TagsComeBack(d: Definition, j: Json)
    requires WellFormed(d.inputSchema) && d.tags != Some([])
    requires WellFormed(j) && j.Obj? && Same(DefinitionJson(d), j)
    ensures ParsedTags(j.fields) == d.tags
  {
    DefinitionJsonWellFormed(d);
    WrittenOptions(d);
    FieldsAgree(DefinitionJson(d), j, Ascii("tags"));
    hide FieldNamed, WellFormed, DefinitionFields, TextItems;
    if d.tags.Some? {
      ObjStaysObj(Arr(TextItems(d.tags.value)), FieldNamed(j.fields, Ascii("tags")).value);
      TextsOfItems(d.tags.value, FieldNamed(j.fields, Ascii("tags")).value.items);
    }
  }

  /**
   Whatever the order of keys in `definition.json`, at any level, the loader reads back the definition that was
   written, up to the order of keys inside the input schema, and so computes the hash the compiler wrote.
   */
  lemma DefinitionRoundTrip(ws: Worksheet, j: Json)
    requires Validated(ws) && WellFormed(j) && Same(DefinitionJson(ws.definition), j)
    ensures ParseDefinition(j).Some?
    ensures SameDefinition(ParseDefinition(j).value, ws.definition)
    ensures Preimage(ParseDefinition(j).value) == Preimage(ws.definition)
  {
    hide FieldNamed, WellFormed, DefinitionFields, DefinitionJson, Same, ParsedTags, Preimage, Ascii, TextField,
         HasType;
    var d := ws.definition;
    PlainFieldsComeBack(d, j);
    AdapterComesBack(d, j);
    TagsComeBack(d, j);
    DefinitionIdentity(ParseDefinition(j).value, d);
  }

  lemma PlainFieldsComeBack(d: Definition, j: Json)
    requires d.inputSchema.Obj? && WellFormed(d.inputSchema) && WellFormed(j) && Same(DefinitionJson(d), j)
    ensures j.Obj?
    ensures TextField(j.fields, Ascii("capability")) == Some(d.capability)
            && TextField(j.fields, Ascii("version")) == Some(d.version)
    ensures TextField(j.fields, Ascii("description")) == d.description
    ensures FieldNamed(j.fields, Ascii("input_schema")).Some? && FieldNamed(j.fields, Ascii("input_schema")).value.Obj?
    ensures WellFormed(FieldNamed(j.fields, Ascii("input_schema")).value)
    ensures Same(FieldNamed(j.fields, Ascii("input_schema")).value, d.inputSchema)
  {
    ObjStaysObj(DefinitionJson(d), j);
    hide FieldNamed, WellFormed, DefinitionFields, Same, Ascii;
    DefinitionJsonWellFormed(d);
    WrittenDefinition(d);
    WrittenOptions(d);
    TextComesBack(DefinitionJson(d), j, Ascii("capability"));
    TextComesBack(DefinitionJson(d), j, Ascii("version"));
    TextComesBack(DefinitionJson(d), j, Ascii("description"));
    FieldsAgree(DefinitionJson(d), j, Ascii("input_schema"));
    FieldIsWellFormed(j, Ascii("input_schema"));
    ObjStaysObj(d.inputSchema, FieldNamed(j.fields, Ascii("input_schema")).value);
    SchemaComesBack(d, j);
  }

  lemma SchemaComesBack(d: Definition, j: Json)
    requires j.Obj? && FieldNamed(j.fields, Ascii("input_schema")).Some? && d.inputSchema.Obj?
    requires WellFormed(d.inputSchema) && WellFormed(FieldNamed(j.fields, Ascii("input_schema")).value)
    requires Same(d.inputSchema, FieldNamed(j.fields, Ascii("input_schema")).value)
    ensures FieldNamed(j.fields, Ascii("input_schema")).value.Obj?
    ensures Same(FieldNamed(j.fields, Ascii("input_schema")).value, d.inputSchema)
  {
    SameIsSymmetric(d.inputSchema, FieldNamed(j.fields, Ascii("input_schema")).value);
  }

  // ----------------------------------------------------------------- metas come back

  /** The record the loader should make of a worksheet, for the output schema it reads. */
  function LoadedMeta(ws: Worksheet, schema: Json): Meta {
    var c := ws.classFields;
    Meta(ws.authority,
         match c
         case FieldsA => ClassA
         case FieldsB(_, _, _) => ClassB
         case FieldsC(_, _, _) => ClassC,
         schema,
         if c.FieldsC? then Some(c.asyncModel) else None,
         if c.FieldsC? then Some(c.jobIdField) else None,
         if c.FieldsC? then Some(c.partialReceipt) else None,
         if c.FieldsB? then Some(c.tier) else None,
         if c.FieldsB? then Some(c.idempotency) else None,
         if c.FieldsB? then Some(c.replay) else None)
  }

  lemma NamesAreRead(authority: AuthorityRequirement, tier: SideEffectTier, idempotency: Idempotency,
                     replay: ReplayBehavior)
    ensures ParseAuthority(Some(AuthorityName(authority))) == Some(authority)
    ensures ParseTier(Some(TierName(tier))) == Some(tier)
    ensures ParseIdempotency(Some(IdempotencyName(idempotency))) == Some(idempotency)
    ensures ParseReplay(Some(ReplayName(replay))) == Some(replay)
  {
    assert |Ascii("none")| == 4 && |Ascii("standard")| == 8 && Ascii("standard")[0] == 115
           && Ascii("elevated")[0] == 101;
    assert |Ascii("low")| == 3 && |Ascii("medium")| == 6;
    assert |Ascii("keyed")| == 5 && |Ascii("inherent")| == 8;
    assert |Ascii("blocked")| == 7 && |Ascii("allowed_same_key")| == 16 && |Ascii("allowed_read_only_subset")| == 24;
  }

  lemma ClassIsRead(c: ClassFields)
    ensures ParseClass(Some(LetterOf(c)))
            == Some(match c case FieldsA => ClassA case FieldsB(_, _, _) => ClassB case FieldsC(_, _, _) => ClassC)
  {
    assert Ascii("A")[0] == 65 && Ascii("B")[0] == 66 && Ascii("C")[0] == 67;
  }

  /** First letter and length of a key: enough to tell the keys of `meta.json` apart. */
  function Mark(key: Text): (nat, nat)
    requires key != []
  {
    (key[0] as nat, |key|)
  }

  lemma FixedMarks()
    ensures Mark(Ascii("generated_by")) == (103, 12) && Mark(Ascii("compiler_version")) == (99, 16)
    ensures Mark(Ascii("template_version")) == (116, 16) && Mark(Ascii("execution_class")) == (101, 15)
    ensures Mark(Ascii("authority_requirements")) == (97, 22) && Mark(Ascii("output_schema")) == (111, 13)
  {
  }

  lemma ClassMarks()
    ensures Mark(Ascii("side_effect_tier")) == (115, 16) && Mark(Ascii("idempotency")) == (105, 11)
    ensures Mark(Ascii("replay_behavior")) == (114, 15) && Mark(Ascii("async_model")) == (97, 11)
    ensures Mark(Ascii("job_id_field")) == (106, 12) && Mark(Ascii("partial_receipt")) == (112, 15)
  {
  }

  lemma MetaKeysDiffer(ws: Worksheet, compiler: Text, template: Text)
    ensures DistinctFieldKeys(MetaFields(ws, compiler, template))
  {
    FixedMarks();
    ClassMarks();
    hide Ascii, Mark;
    var fs := MetaFields(ws, compiler, template);
    forall i, k | 0 <= i < k < |fs|
      ensures Mark(fs[i].key) != Mark(fs[k].key)
    {
    }
  }

  lemma MetaJsonWellFormed(ws: Worksheet, compiler: Text, template: Text)
    requires WellFormed(ws.outputSchema)
    ensures WellFormed(MetaJson(ws, compiler, template))
  {
    MetaKeysDiffer(ws, compiler, template);
    hide Ascii;
  }

  lemma WrittenMeta(ws: Worksheet, compiler: Text, template: Text)
    ensures var fs := MetaFields(ws, compiler, template);
            && FieldNamed(fs, Ascii("execution_class")) == Some(Str(LetterOf(ws.classFields)))
            && FieldNamed(fs, Ascii("authority_requirements")) == Some(Str(AuthorityName(ws.authority)))
            && FieldNamed(fs, Ascii("output_schema")) == Some(ws.outputSchema)
  {
    MetaKeysDiffer(ws, compiler, template);
    hide Ascii, LetterOf, AuthorityName;
    var fs := MetaFields(ws, compiler, template);
    NamedAt(fs, 3);
    NamedAt(fs, 4);
    NamedAt(fs, 5);
  }

  /** The three class-specific fields that are present, and none of the others. */
  lemma WrittenClassFields(ws: Worksheet, compiler: Text, template: Text, key: Text)
    requires key in {Ascii("side_effect_tier"), Ascii("idempotency"), Ascii("replay_behavior"),
                     Ascii("async_model"), Ascii("job_id_field"), Ascii("partial_receipt")}
    ensures FieldNamed(MetaFields(ws, compiler, template), key) == FieldNamed(ClassSpecific(ws.classFields), key)
  {
    FixedMarks();
    ClassMarks();
    MetaKeysDiffer(ws, compiler, template);
    hide Ascii, Mark;
    var fs, cs := MetaFields(ws, compiler, template), ClassSpecific(ws.classFields);
    NamedIsThere(fs, key);
    NamedIsThere(cs, key);
    if i :| 0 <= i < |cs| && cs[i].key == key {
      NamedAt(fs, 6 + i);
      forall i, k | 0 <= i < k < |cs|
        ensures cs[i].key != cs[k].key
      {
        assert fs[6 + i] == cs[i] && fs[6 + k] == cs[k];
      }
      NamedAt(cs, i);
    } else {
      forall i | 0 <= i < |fs|
        ensures fs[i].key != key
      {
        if i >= 6 {
          assert fs[i] == cs[i - 6];
        }
      }
    }
  }

  /** What the loader finds of the class-specific fields. */
  lemma ClassLookups(c: ClassFields)
    ensures var fs := ClassSpecific(c);
            && FieldNamed(fs, Ascii("side_effect_tier")) == (if c.FieldsB? then Some(Str(TierName(c.tier))) else None)
            && FieldNamed(fs, Ascii("idempotency"))
               == (if c.FieldsB? then Some(Str(IdempotencyName(c.idempotency))) else None)
            && FieldNamed(fs, Ascii("replay_behavior"))
               == (if c.FieldsB? then Some(Str(ReplayName(c.replay))) else None)
            && FieldNamed(fs, Ascii("async_model")) == (if c.FieldsC? then Some(Str(c.asyncModel)) else None)
            && FieldNamed(fs, Ascii("job_id_field")) == (if c.FieldsC? then Some(Str(c.jobIdField)) else None)
            && FieldNamed(fs, Ascii("partial_receipt")) == (if c.FieldsC? then Some(Bool(c.partialReceipt)) else None)
  {
    ClassMarks();
    hide Ascii, Mark, TierName, IdempotencyName, ReplayName;
    var fs := ClassSpecific(c);
    ThreeFields(fs, Ascii("side_effect_tier"));
    ThreeFields(fs, Ascii("idempotency"));
    ThreeFields(fs, Ascii("replay_behavior"));
    ThreeFields(fs, Ascii("async_model"));
    ThreeFields(fs, Ascii("job_id_field"));
    ThreeFields(fs, Ascii("partial_receipt"));
  }

  lemma ThreeFields(fs: seq<Field>, key: Text)
    ensures fs == [] ==> FieldNamed(fs, key) == None
    ensures |fs| == 3 ==>
              FieldNamed(fs, key) == if fs[0].key == key then Some(fs[0].value)
                  else if fs[1].key == key then Some(fs[1].value)
                                     else if fs[2].key == key then Some(fs[2].value) else None
  {
    if |fs| == 3 {
      var rest := fs[1..];
      var last := rest[1..];
      assert rest[0] == fs[1] && last[0] == fs[2] && last[1..] == [];
      assert FieldNamed(last, key) == if fs[2].key == key then Some(fs[2].value) else None;
    }
  }

  predicate IsClassKey(key: Text) {
    key in {Ascii("side_effect_tier"), Ascii("idempotency"), Ascii("replay_behavior"),
            Ascii("async_model"), Ascii("job_id_field"), Ascii("partial_receipt")}
  }

  /** In a reordered record, too. */
  lemma ClassFieldComesBack(ws: Worksheet, compiler: Text, template: Text, j: Json, key: Text)
    requires WellFormed(ws.outputSchema) && WellFormed(j) && j.Obj? && Same(MetaJson(ws, compiler, template), j)
    requires IsClassKey(key)
    ensures FieldNamed(j.fields, key) == FieldNamed(ClassSpecific(ws.classFields), key)
  {
    MetaJsonWellFormed(ws, compiler, template);
    WrittenClassFields(ws, compiler, template, key);
    FieldsAgree(MetaJson(ws, compiler, template), j, key);
    ClassLookups(ws.classFields);
    hide FieldNamed, ClassSpecific, MetaFields, Ascii;
  }

  lemma TypeComesBack(a: Json, b: Json)
    requires Same(a, b) && a.Obj? && HasType(a)
    ensures b.Obj? && HasType(b)
  {
    var i :| 0 <= i < |a.fields| && a.fields[i].key == Ascii("type") && a.fields[i].value.Str?
        && a.fields[i].value.s != [];
    assert HasSame(a.fields[i], b.fields);
    var k :| 0 <= k < |b.fields| && a.fields[i].key == b.fields[k].key && Same(a.fields[i].value, b.fields[k].value);
    assert b.fields[k].value == a.fields[i].value;
  }

  lemma NoViolations(ws: Worksheet, schema: Json)
    requires Validated(ws) && schema.Obj? && HasType(schema)
    ensures ClassViolations(LoadedMeta(ws, schema)) == []
  {
    hide HasType;
  }

  lemma FixedFieldsComeBack(ws: Worksheet, compiler: Text, template: Text, j: Json)
    requires Validated(ws) && WellFormed(j) && j.Obj? && Same(MetaJson(ws, compiler, template), j)
    ensures TextField(j.fields, Ascii("execution_class")) == Some(LetterOf(ws.classFields))
    ensures TextField(j.fields, Ascii("authority_requirements")) == Some(AuthorityName(ws.authority))
    ensures FieldNamed(j.fields, Ascii("output_schema")).Some?
    ensures Same(ws.outputSchema, FieldNamed(j.fields, Ascii("output_schema")).value)
  {
    MetaJsonWellFormed(ws, compiler, template);
    WrittenMeta(ws, compiler, template);
    FieldsAgree(MetaJson(ws, compiler, template), j, Ascii("execution_class"));
    FieldsAgree(MetaJson(ws, compiler, template), j, Ascii("authority_requirements"));
    FieldsAgree(MetaJson(ws, compiler, template), j, Ascii("output_schema"));
    hide FieldNamed, MetaFields, Ascii, LetterOf, AuthorityName;
  }

  lemma ClassFieldsComeBack(ws: Worksheet, compiler: Text, template: Text, j: Json, toText: Json -> Text)
    requires WellFormed(ws.outputSchema) && WellFormed(j) && j.Obj? && Same(MetaJson(ws, compiler, template), j)
    ensures var m := LoadedMeta(ws, j);
            && ClassBFields(m.executionClass, j.fields) == Some((m.sideEffectTier, m.idempotency, m.replayBehavior))
            && AsyncText(toText, j.fields, Ascii("async_model")) == m.asyncModel
            && AsyncText(toText, j.fields, Ascii("job_id_field")) == m.jobIdField
            && FieldNamed(j.fields, Ascii("partial_receipt"))
               == if m.partialReceipt.Some? then Some(Bool(m.partialReceipt.value)) else None
  {
    ClassFieldComesBack(ws, compiler, template, j, Ascii("side_effect_tier"));
    ClassFieldComesBack(ws, compiler, template, j, Ascii("idempotency"));
    ClassFieldComesBack(ws, compiler, template, j, Ascii("replay_behavior"));
    ClassFieldComesBack(ws, compiler, template, j, Ascii("async_model"));
    ClassFieldComesBack(ws, compiler, template, j, Ascii("job_id_field"));
    ClassFieldComesBack(ws, compiler, template, j, Ascii("partial_receipt"));
    ClassLookups(ws.classFields);
    var c := ws.classFields;
    if c.FieldsB? {
      NamesAreRead(ws.authority, c.tier, c.idempotency, c.replay);
    }
    hide FieldNamed, ClassSpecific, MetaFields, Ascii, TierName, IdempotencyName, ReplayName, ParseTier,
         ParseIdempotency, ParseReplay, Same, WellFormed;
  }

  /**
   Whatever the order of keys in `meta.json`, the loader accepts what the compiler wrote for a validated worksheet:
   the same class, authority and class-specific fields, an equal output schema, and no policy violation.
   */
  lemma MetaRoundTrip(ws: Worksheet, compiler: Text, template: Text, j: Json, toText: Json -> Text)
    requires Validated(ws) && WellFormed(j) && Same(MetaJson(ws, compiler, template), j)
    ensures ParseMeta(toText, j).Some?
    ensures var m := ParseMeta(toText, j).value;
            m == LoadedMeta(ws, m.outputSchema) && Same(ws.outputSchema, m.outputSchema) && ClassViolations(m) == []
  {
    ObjStaysObj(MetaJson(ws, compiler, template), j);
    FixedFieldsComeBack(ws, compiler, template, j);
    var schema := FieldNamed(j.fields, Ascii("output_schema")).value;
    TypeComesBack(ws.outputSchema, schema);
    ClassFieldsComeBack(ws, compiler, template, j, toText);
    ClassIsRead(ws.classFields);
    NamesAreRead(ws.authority, Low, Keyed, Blocked);
    NoViolations(ws, schema);
    hide FieldNamed, MetaFields, Ascii, Same, WellFormed, ClassViolations, ClassBFields, AsyncText, ParseAuthority,
         ParseClass, AuthorityName, LetterOf, TextField, HasType;
  }

  // ------------------------------------------------------------- files with sorted keys

  /** The worksheet whose files the compiler in fact writes: its schemas without keys `__proto__`. */
  function WithoutProto(ws: Worksheet): Worksheet {
    ws.(definition := ws.definition.(inputSchema := Stripped(ws.definition.inputSchema)),
        outputSchema := Stripped(ws.outputSchema))
  }

  lemma TypeIsKept(schema: Json)
    requires schema.Obj? && HasType(schema)
    ensures Stripped(schema).Obj? && HasType(Stripped(schema))
  {
    var i :| 0 <= i < |schema.fields| && schema.fields[i].key == Ascii("type")
             && schema.fields[i].value.Str? && schema.fields[i].value.s != [];
    assert |Ascii("type")| == 4 && |PROTO| == 9;
    StripFieldsHas(schema.fields);
    assert Field(schema.fields[i].key, Stripped(schema.fields[i].value)) in StripFields(schema.fields);
  }

  lemma StaysValidated(ws: Worksheet)
    requires Validated(ws)
    ensures Validated(WithoutProto(ws))
  {
    StrippedIsWellFormed(ws.definition.inputSchema);
    StrippedIsWellFormed(ws.outputSchema);
    TypeIsKept(ws.outputSchema);
    hide WellFormed, HasType;
  }

  /** Records without a key `__proto__` are stripped field by field. */
  lemma {:induction false} StripRecord(fs: seq<Field>, gs: seq<Field>)
    requires |fs| == |gs|
    requires forall i | 0 <= i < |fs| :: fs[i].key != PROTO && gs[i] == Field(fs[i].key, Stripped(fs[i].value))
    ensures StripFields(fs) == gs
  {
    if fs != [] {
      StripRecord(fs[1..], gs[1..]);
    }
  }

  predicate StartsSmall(key: Text) {
    key != [] && 97 <= key[0] <= 122
  }

  lemma DefinitionKeysStartSmall(d: Definition)
    ensures forall i | 0 <= i < |DefinitionFields(d)| :: StartsSmall(DefinitionFields(d)[i].key)
  {
  }

  lemma MetaKeysStartSmall(ws: Worksheet, compiler: Text, template: Text)
    ensures forall i | 0 <= i < |MetaFields(ws, compiler, template)| ::
            StartsSmall(MetaFields(ws, compiler, template)[i].key)
  {
    FixedMarks();
    ClassMarks();
    hide Ascii;
  }

  lemma {:induction false} TextsAreProtoFree(ts: seq<Text>)
    ensures ProtoFree(Arr(TextItems(ts)))
  {
    if ts != [] {
      TextsAreProtoFree(ts[1..]);
    }
  }

  lemma AdapterIsProtoFree(d: Definition)
    ensures ProtoFree(Obj(AdapterFields(d)))
  {
    assert |Ascii("key")| == 3 && |Ascii("route")| == 5 && |PROTO| == 9;
  }

  lemma StrippedDefinition(d: Definition)
    ensures Stripped(DefinitionJson(d)) == DefinitionJson(d.(inputSchema := Stripped(d.inputSchema)))
  {
    var fs, gs := DefinitionFields(d), DefinitionFields(d.(inputSchema := Stripped(d.inputSchema)));
    DefinitionKeysStartSmall(d);
    AdapterIsProtoFree(d);
    NothingToStrip(Obj(AdapterFields(d)));
    if d.tags.Some? {
      TextsAreProtoFree(d.tags.value);
      NothingToStrip(Arr(TextItems(d.tags.value)));
    }
    hide Ascii, TextItems;
    forall i | 0 <= i < |fs|
      ensures fs[i].key != PROTO && gs[i] == Field(fs[i].key, Stripped(fs[i].value))
    {
      assert PROTO[0] == 95;
    }
    StripRecord(fs, gs);
  }

  lemma StrippedMeta(ws: Worksheet, compiler: Text, template: Text)
    ensures Stripped(MetaJson(ws, compiler, template)) == MetaJson(WithoutProto(ws), compiler, template)
  {
    var fs, gs := MetaFields(ws, compiler, template), MetaFields(WithoutProto(ws), compiler, template);
    MetaKeysStartSmall(ws, compiler, template);
    hide Ascii, AuthorityName, LetterOf, TierName, IdempotencyName, ReplayName;
    forall i | 0 <= i < |fs|
      ensures fs[i].key != PROTO && gs[i] == Field(fs[i].key, Stripped(fs[i].value))
    {
      assert PROTO[0] == 95;
    }
    StripRecord(fs, gs);
  }

  /** A file that is equal up to key order to what is left of a value when it is printed with sorted keys. */
  lemma SortedIsSame(j: Json)
    requires WellFormed(j)
    ensures WellFormed(SortKeysDeep(j)) && Same(Stripped(j), SortKeysDeep(j))
  {
    SortIsOrderOfStripped(j);
    StrippedIsWellFormed(j);
    OrderingKeepsForm(Stripped(j));
    SameAsOrdered(Stripped(j));
  }

  /** Sorting twice, as is done to the meta record, is sorting once. */
  lemma SortingTwiceIsOnce(j: Json)
    requires WellFormed(j)
    ensures SortKeysDeep(SortKeysDeep(j)) == SortKeysDeep(j)
  {
    SortedIsSame(j);
    SortedIsProtoFree(j);
    StrippedIsWellFormed(j);
    NothingToStrip(SortKeysDeep(j));
    SortIsOrderOfStripped(SortKeysDeep(j));
    SameOrdersAlike(Stripped(j), SortKeysDeep(j));
    SortIsOrderOfStripped(j);
  }

  /**
   The files with sorted keys that the compiler prints always load, to the class, authority and class-specific fields
   of the worksheet. The definition has the hash the compiler wrote exactly when the input schema has no key
   `__proto__`, and the output schema comes back exactly when it has none.
   */
  lemma SortedFilesRoundTrip(ws: Worksheet, compiler: Text, template: Text, toText: Json -> Text)
    requires Validated(ws)
    ensures var d := ParseDefinition(SortKeysDeep(DefinitionJson(ws.definition)));
            d.Some? && (Preimage(d.value) == Preimage(ws.definition) <==> ProtoFree(ws.definition.inputSchema))
    ensures var m := ParseMeta(toText, SortKeysDeep(MetaJson(ws, compiler, template)));
            && m.Some? && m.value == LoadedMeta(ws, m.value.outputSchema) && ClassViolations(m.value) == []
            && (Same(ws.outputSchema, m.value.outputSchema) <==> ProtoFree(ws.outputSchema))
  {
    SortedDefinitionLoads(ws);
    SortedMetaLoads(ws, compiler, template, toText);
  }

  lemma SortedDefinitionLoads(ws: Worksheet)
    requires Validated(ws)
    ensures var d := ParseDefinition(SortKeysDeep(DefinitionJson(ws.definition)));
            d.Some? && (Preimage(d.value) == Preimage(ws.definition) <==> ProtoFree(ws.definition.inputSchema))
  {
    hide DefinitionJson, ParseDefinition, Preimage, Ascii, HasType;
    var left := WithoutProto(ws);
    StaysValidated(ws);
    DefinitionJsonWellFormed(ws.definition);
    StrippedDefinition(ws.definition);
    SortedIsSame(DefinitionJson(ws.definition));
    DefinitionRoundTrip(left, SortKeysDeep(DefinitionJson(ws.definition)));
    DefinitionIdentity(ws.definition, left.definition);
    StrippingLosesIff(ws.definition.inputSchema);
  }

  lemma LoadedSchemaIsProtoFree(toText: Json -> Text, j: Json)
    requires ProtoFree(j) && ParseMeta(toText, j).Some?
    ensures ProtoFree(ParseMeta(toText, j).value.outputSchema)
  {
    hide Ascii, ParseAuthority, ParseClass, ClassBFields, AsyncText, ClassViolations, FieldNamed, ProtoFree;
    FieldIsProtoFree(j, Ascii("output_schema"));
  }

  lemma FieldIsProtoFree(j: Json, key: Text)
    requires j.Obj? && ProtoFree(j) && FieldNamed(j.fields, key).Some?
    ensures ProtoFree(FieldNamed(j.fields, key).value)
  {
    NamedIsThere(j.fields, key);
    var i :| 0 <= i < |j.fields| && j.fields[i] == Field(key, FieldNamed(j.fields, key).value);
    assert ProtoFree(j.fields[i].value);
  }

  lemma SortedMetaLoads(ws: Worksheet, compiler: Text, template: Text, toText: Json -> Text)
    requires Validated(ws)
    ensures var m := ParseMeta(toText, SortKeysDeep(MetaJson(ws, compiler, template)));
            && m.Some? && m.value == LoadedMeta(ws, m.value.outputSchema) && ClassViolations(m.value) == []
            && (Same(ws.outputSchema, m.value.outputSchema) <==> ProtoFree(ws.outputSchema))
  {
    hide MetaJson, ParseMeta, ClassViolations, Ascii, HasType;
    var left := WithoutProto(ws);
    StaysValidated(ws);
    MetaJsonWellFormed(ws, compiler, template);
    StrippedMeta(ws, compiler, template);
    var file := SortKeysDeep(MetaJson(ws, compiler, template));
    SortedIsSame(MetaJson(ws, compiler, template));
    MetaRoundTrip(left, compiler, template, file, toText);
    var loaded := ParseMeta(toText, file).value.outputSchema;
    SortedIsProtoFree(MetaJson(ws, compiler, template));
    LoadedSchemaIsProtoFree(toText, file);
    if Same(ws.outputSchema, loaded) {
      SameKeepsProtoFree(ws.outputSchema, loaded);
    }
    if ProtoFree(ws.outputSchema) {
      NothingToStrip(ws.outputSchema);
    }
  }

  /** Putting keys in order leaves no key twice. */
  lemma {:induction false} OrderingKeepsForm(j: Json)
    requires WellFormed(j)
    ensures WellFormed(Ordered(j))
    decreases j
  {
    match j
    case Arr(items) =>
      forall i | 0 <= i < |items|
        ensures WellFormed(OrderItems(items)[i])
      {
        OrderItemsAt(items, i);
        OrderingKeepsForm(items[i]);
      }
    case Obj(fields) =>
      OrderedPartsDistinct(j);
      var parts := OrderedParts(fields);
      forall i | 0 <= i < |fields|
        ensures WellFormed(parts[i].content)
      {
        OrderedPartsAt(fields, i);
        OrderingKeepsForm(fields[i].value);
      }
      SortedObjectForm(parts);
    case _ =>
  }

  lemma SortedObjectForm(parts: seq<Part<Json>>)
    requires DistinctKeys(parts) && forall i | 0 <= i < |parts| :: WellFormed(parts[i].content)
    ensures WellFormed(Obj(AsFields(SortByKey(parts))))
  {
    SortByKeyKeepsElements(parts);
    var sorted := SortByKey(parts);
    forall i | 0 <= i < |sorted|
      ensures sorted[i] in parts
    {
      assert sorted[i] in multiset(sorted);
    }
    SortByKeySorts(parts);
    forall i, k | 0 <= i < k < |sorted|
      ensures sorted[i].key != sorted[k].key
    {
      LessIsAsymmetric(sorted[i].key, sorted[k].key);
    }
  }
}
