/** Which worksheets are accepted and what they become, and which files load, in terms of their fields. */
module WorksheetTheorems {
  import opened Texts
  import opened CanonicalJson
  import opened Enforcement
  import opened DefinitionHash
  import opened CapabilityFiles
  import opened Worksheets

  /** The value under a key, if there is one. */
  function Under(fields: seq<Field>, key: string): Option<Json> {
    FieldNamed(fields, Ascii(key))
  }

  predicate HasText(fields: seq<Field>, key: string) {
    Under(fields, key).Some? && Under(fields, key).value.Str?
  }

  /** The field is this text. */
  predicate Reads(fields: seq<Field>, key: string, text: string) {
    Under(fields, key) == Some(Str(Ascii(text)))
  }

  predicate HasObject(fields: seq<Field>, key: string) {
    Under(fields, key).Some? && Under(fields, key).value.Obj?
  }

  // ---------------------------------------------------------------------------- names

  predicate Between(u: Unit, low: char, high: char) {
    low as int <= u as int <= high as int
  }

  predicate IsUnit(u: Unit, c: char) {
    u as int == c as int
  }

  /** A lower-case letter, then lower-case letters, digits, underscores and dots. */
  predicate IsPath(t: Text) {
    && t != [] && Between(t[0], 'a', 'z')
    && forall i | 1 <= i < |t| ::
         Between(t[i], 'a', 'z') || Between(t[i], '0', '9') || IsUnit(t[i], '_') || IsUnit(t[i], '.')
  }

  /** A lower-case letter, then lower-case letters, digits and hyphens. */
  predicate IsSlug(t: Text) {
    && t != [] && Between(t[0], 'a', 'z')
    && forall i | 1 <= i < |t| :: Between(t[i], 'a', 'z') || Between(t[i], '0', '9') || IsUnit(t[i], '-')
  }

  /** `hai.` or `zak.`, and a path. */
  ghost predicate IsId(t: Text) {
    exists path: Text :: IsPath(path) && (t == Ascii("hai.") + path || t == Ascii("zak.") + path)
  }

  lemma NamesIff(t: Text)
    ensures IsRoute(t) <==> IsPath(t)
    ensures IsAdapterKey(t) <==> IsSlug(t)
    ensures IsCapabilityId(t) <==> IsId(t)
  {
    if |t| > 4 {
      assert t == t[..4] + t[4..];
      assert IsRoute(t[4..]) <==> IsPath(t[4..]);
    }
    if IsId(t) {
      var path: Text :| IsPath(path) && (t == Ascii("hai.") + path || t == Ascii("zak.") + path);
      assert t[4..] == path && |path| > 0;
      assert t[..4] == Ascii("hai.") || t[..4] == Ascii("zak.");
    }
  }

  // ----------------------------------------------------------------- words of the files

  lemma AuthorityIsRead(t: Option<Text>)
    ensures ParseAuthority(t) == Some(NoAuthority) <==> t == Some(Ascii("none"))
    ensures ParseAuthority(t) == Some(Standard) <==> t == Some(Ascii("standard"))
    ensures ParseAuthority(t) == Some(Elevated) <==> t == Some(Ascii("elevated"))
    ensures ParseAuthority(t) == Some(ContinuousResonanceRequired) <==>
            t == Some(Ascii("continuous_resonance_required"))
  {
    assert Ascii("none")[0] == 110 && Ascii("standard")[0] == 115 && Ascii("elevated")[0] == 101;
    assert Ascii("continuous_resonance_required")[0] == 99;
    hide Ascii;
  }

  lemma ClassIsReadAs(t: Option<Text>)
    ensures ParseClass(t) == Some(ClassA) <==> t == Some(Ascii("A"))
    ensures ParseClass(t) == Some(ClassB) <==> t == Some(Ascii("B"))
    ensures ParseClass(t) == Some(ClassC) <==> t == Some(Ascii("C"))
  {
    assert Ascii("A")[0] == 65 && Ascii("B")[0] == 66 && Ascii("C")[0] == 67;
    hide Ascii;
  }

  lemma TierIsRead(t: Option<Text>)
    ensures ParseTier(t) == Some(Low) <==> t == Some(Ascii("low"))
    ensures ParseTier(t) == Some(Medium) <==> t == Some(Ascii("medium"))
    ensures ParseTier(t) == Some(Irreversible) <==> t == Some(Ascii("irreversible"))
  {
    assert Ascii("low")[0] == 108 && Ascii("medium")[0] == 109 && Ascii("irreversible")[0] == 105;
    hide Ascii;
  }

  lemma IdempotencyIsRead(t: Option<Text>)
    ensures ParseIdempotency(t) == Some(NotIdempotent) <==> t == Some(Ascii("none"))
    ensures ParseIdempotency(t) == Some(Keyed) <==> t == Some(Ascii("keyed"))
    ensures ParseIdempotency(t) == Some(Inherent) <==> t == Some(Ascii("inherent"))
  {
    assert Ascii("none")[0] == 110 && Ascii("keyed")[0] == 107 && Ascii("inherent")[0] == 105;
    hide Ascii;
  }

  lemma ReplayIsRead(t: Option<Text>)
    ensures ParseReplay(t) == Some(Blocked) <==> t == Some(Ascii("blocked"))
    ensures ParseReplay(t) == Some(AllowedSameKey) <==> t == Some(Ascii("allowed_same_key"))
    ensures ParseReplay(t) == Some(AllowedReadOnlySubset) <==> t == Some(Ascii("allowed_read_only_subset"))
  {
    assert Ascii("blocked")[0] == 98 && |Ascii("allowed_same_key")| == 16 && |Ascii("allowed_read_only_subset")| == 24;
    hide Ascii;
  }

  lemma TextIs(fields: seq<Field>, key: string)
    ensures TextUnder(fields, key).Some? <==> HasText(fields, key)
    ensures HasText(fields, key) ==> TextUnder(fields, key).value == Under(fields, key).value.s
    ensures TextUnder(fields, key) == TextField(fields, Ascii(key))
    ensures forall text: string :: TextUnder(fields, key) == Some(Ascii(text)) <==> Reads(fields, key, text)
  {
  }

  // ------------------------------------------------------------------- class by class

  predicate LacksClassB(fields: seq<Field>) {
    Under(fields, "side_effect_tier").None? && Under(fields, "idempotency").None?
    && Under(fields, "replay_behavior").None?
  }

  predicate LacksClassC(fields: seq<Field>) {
    Under(fields, "async_model").None? && Under(fields, "job_id_field").None? && Under(fields, "partial_receipt").None?
  }

  /** Class A: no field of class B or C. */
  predicate IsA(fields: seq<Field>) {
    Reads(fields, "execution_class", "A") && LacksClassB(fields) && LacksClassC(fields)
  }

  /** Class B: a tier, an idempotency and a replay behavior, and no field of class C. */
  predicate IsB(fields: seq<Field>, tier: SideEffectTier, idempotency: Idempotency, replay: ReplayBehavior) {
    && Reads(fields, "execution_class", "B") && LacksClassC(fields)
    && Reads(fields, "side_effect_tier",
             if tier.Low? then "low" else if tier.Medium? then "medium" else "irreversible")
    && Reads(fields, "idempotency",
             if idempotency.NotIdempotent? then "none" else if idempotency.Keyed? then "keyed" else "inherent")
    && Reads(fields, "replay_behavior",
             if replay.Blocked? then "blocked" else if replay.AllowedSameKey? then "allowed_same_key"
             else "allowed_read_only_subset")
  }

  /** Class C: a way to wait, a job id that is not blank and a truth value, and no field of class B. */
  predicate IsC(fields: seq<Field>, model: Text, job: Text, partial: bool) {
    && Reads(fields, "execution_class", "C") && LacksClassB(fields)
    && model in [Ascii("poll"), Ascii("callback"), Ascii("poll_or_callback")]
    && Under(fields, "async_model") == Some(Str(model))
    && HasText(fields, "job_id_field") && job != [] && job == Trim(Under(fields, "job_id_field").value.s)
    && Under(fields, "partial_receipt") == Some(Bool(partial))
  }

  lemma ClassWords()
    ensures Ascii("A") != Ascii("B") && Ascii("A") != Ascii("C") && Ascii("B") != Ascii("C")
  {
    assert Ascii("A")[0] == 65 && Ascii("B")[0] == 66 && Ascii("C")[0] == 67;
  }

  lemma LackIff(fields: seq<Field>)
    ensures NoClassB(fields) <==> LacksClassB(fields)
    ensures NoClassC(fields) <==> LacksClassC(fields)
  {
    hide Ascii, FieldNamed;
  }

  lemma FieldsAIff(fields: seq<Field>)
    ensures ClassFieldsOf(fields) == Some(FieldsA) <==> IsA(fields)
  {
    TextIs(fields, "execution_class");
    ClassIsReadAs(TextUnder(fields, "execution_class"));
    LackIff(fields);
    hide Ascii, FieldNamed, ParseClass, ParseTier, ParseIdempotency, ParseReplay, NoClassB, NoClassC, LacksClassB,
         LacksClassC, Trim, TextUnder, Reads, IsAsyncModel;
  }

  lemma FieldsBIff(fields: seq<Field>, tier: SideEffectTier, idempotency: Idempotency, replay: ReplayBehavior)
    ensures ClassFieldsOf(fields) == Some(FieldsB(tier, idempotency, replay)) <==>
            IsB(fields, tier, idempotency, replay)
  {
    TextIs(fields, "execution_class");
    TextIs(fields, "side_effect_tier");
    TextIs(fields, "idempotency");
    TextIs(fields, "replay_behavior");
    ClassIsReadAs(TextUnder(fields, "execution_class"));
    TierIsRead(TextUnder(fields, "side_effect_tier"));
    IdempotencyIsRead(TextUnder(fields, "idempotency"));
    ReplayIsRead(TextUnder(fields, "replay_behavior"));
    LackIff(fields);
    hide Ascii, FieldNamed, ParseClass, ParseTier, ParseIdempotency, ParseReplay, NoClassB, NoClassC, LacksClassB,
         LacksClassC, Trim, TextUnder, Reads, IsAsyncModel;
  }

  lemma FieldsCIff(fields: seq<Field>, model: Text, job: Text, partial: bool)
    ensures ClassFieldsOf(fields) == Some(FieldsC(model, job, partial)) <==> IsC(fields, model, job, partial)
  {
    TextIs(fields, "execution_class");
    TextIs(fields, "async_model");
    TextIs(fields, "job_id_field");
    ClassIsReadAs(TextUnder(fields, "execution_class"));
    LackIff(fields);
    assert Under(fields, "partial_receipt") == FieldNamed(fields, Ascii("partial_receipt"));
    assert Under(fields, "async_model") == Some(Str(model)) <==> TextUnder(fields, "async_model") == Some(model);
    hide Ascii, FieldNamed, ParseClass, ParseTier, ParseIdempotency, ParseReplay, NoClassB, NoClassC, LacksClassB,
         LacksClassC, Trim, TextUnder, Reads, Under, HasText;
  }

  // ----------------------------------------------------------------------- acceptance

  /** A value is there, and it is not null. */
  predicate Given(fields: seq<Field>, key: string) {
    Under(fields, key).Some? && !Under(fields, key).value.Null?
  }

  predicate KnownKeys(fields: seq<Field>) {
    forall i | 0 <= i < |fields| ::
      exists key :: && key in ["capability", "version", "adapter", "execution_class", "authority_requirements",
                               "input_schema", "output_schema", "golden", "description", "tags", "side_effect_tier",
                               "idempotency", "replay_behavior", "async_model", "job_id_field", "partial_receipt"]
                    && fields[i].key == Ascii(key)
  }

  ghost predicate AdapterIsGiven(fields: seq<Field>) {
    && HasObject(fields, "adapter")
    && var adapter := Under(fields, "adapter").value.fields;
       && HasText(adapter, "key") && IsSlug(Under(adapter, "key").value.s)
       && HasText(adapter, "route") && IsPath(Under(adapter, "route").value.s)
  }

  predicate AuthorityIsGiven(fields: seq<Field>) {
    exists word :: word in ["none", "standard", "elevated", "continuous_resonance_required"]
                   && Reads(fields, "authority_requirements", word)
  }

  ghost predicate ClassIsGiven(fields: seq<Field>) {
    || IsA(fields)
    || (exists tier, idempotency, replay :: IsB(fields, tier, idempotency, replay))
    || (exists model, job, partial :: IsC(fields, model, job, partial))
  }

  /** The golden case: an input that the input schema takes, and no output, or one that the output schema takes. */
  predicate GoldenIsFine(libs: Libraries, fields: seq<Field>, input: Json, output: Json) {
    && HasObject(fields, "golden")
    && var golden := Under(fields, "golden").value.fields;
       && HasObject(golden, "input") && libs.accepts(input, Under(golden, "input").value)
       && (!Given(golden, "output") || libs.accepts(output, Under(golden, "output").value))
  }

  predicate TagsAreTexts(fields: seq<Field>) {
    Under(fields, "tags").Some? ==>
      Under(fields, "tags").value.Arr? && forall tag | tag in Under(fields, "tags").value.items :: tag.Str?
  }

  /** What is asked of a worksheet. */
  ghost predicate MayBeAccepted(libs: Libraries, raw: Json) {
    && raw.Obj? && KnownKeys(raw.fields)
    && HasText(raw.fields, "capability") && IsId(Under(raw.fields, "capability").value.s)
    && HasText(raw.fields, "version") && libs.isSemVer(Under(raw.fields, "version").value.s)
    && AdapterIsGiven(raw.fields) && AuthorityIsGiven(raw.fields) && ClassIsGiven(raw.fields)
    && HasObject(raw.fields, "input_schema") && Given(raw.fields, "output_schema") && TagsAreTexts(raw.fields)
    && var input, output := Under(raw.fields, "input_schema").value,
                            libs.coerceOutput(Under(raw.fields, "output_schema").value);
       && libs.compiles(input) && output.Some? && libs.compiles(output.value)
       && GoldenIsFine(libs, raw.fields, input, output.value)
  }

  lemma KeysIff(fields: seq<Field>)
    ensures KeysKnown(fields) <==> KnownKeys(fields)
  {
    var keys := ["capability", "version", "adapter", "execution_class", "authority_requirements", "input_schema",
                 "output_schema", "golden", "description", "tags", "side_effect_tier", "idempotency", "replay_behavior",
                 "async_model", "job_id_field", "partial_receipt"];
    hide Ascii;
    assert |TOP_KEYS| == |keys| && forall k | 0 <= k < |keys| :: TOP_KEYS[k] == Ascii(keys[k]);
    forall i | 0 <= i < |fields| && fields[i].key in TOP_KEYS
      ensures exists key :: key in keys && fields[i].key == Ascii(key)
    {
      var k :| 0 <= k < |keys| && fields[i].key == TOP_KEYS[k];
      assert keys[k] in keys;
    }
  }

  lemma AdapterIff(fields: seq<Field>)
    ensures AdapterFits(fields) <==> AdapterIsGiven(fields)
  {
    if HasObject(fields, "adapter") {
      var adapter := Under(fields, "adapter").value.fields;
      TextIs(adapter, "key");
      TextIs(adapter, "route");
      if HasText(adapter, "key") {
        NamesIff(Under(adapter, "key").value.s);
      }
      if HasText(adapter, "route") {
        NamesIff(Under(adapter, "route").value.s);
      }
    }
    hide Ascii, FieldNamed, IsSlug, IsPath, IsRoute, IsAdapterKey, TextUnder;
  }

  lemma ClassIff(fields: seq<Field>)
    ensures ClassFieldsOf(fields).Some? <==> ClassIsGiven(fields)
  {
    FieldsAIff(fields);
    forall tier, idempotency, replay
      ensures ClassFieldsOf(fields) == Some(FieldsB(tier, idempotency, replay)) <==>
              IsB(fields, tier, idempotency, replay)
    {
      FieldsBIff(fields, tier, idempotency, replay);
    }
    forall model, job, partial
      ensures ClassFieldsOf(fields) == Some(FieldsC(model, job, partial)) <==> IsC(fields, model, job, partial)
    {
      FieldsCIff(fields, model, job, partial);
    }
    hide ClassFieldsOf, IsA, IsB, IsC;
    if ClassFieldsOf(fields).Some? {
      var c := ClassFieldsOf(fields).value;
      assert c.FieldsB? ==> c == FieldsB(c.tier, c.idempotency, c.replay);
      assert c.FieldsC? ==> c == FieldsC(c.asyncModel, c.jobIdField, c.partialReceipt);
    }
  }

  lemma AuthorityIff(fields: seq<Field>)
    ensures ParseAuthority(TextUnder(fields, "authority_requirements")).Some? <==> AuthorityIsGiven(fields)
  {
    TextIs(fields, "authority_requirements");
    AuthorityIsRead(TextUnder(fields, "authority_requirements"));
    var t := TextUnder(fields, "authority_requirements");
    hide Ascii, FieldNamed, ParseAuthority, TextUnder, Reads;
    if AuthorityIsGiven(fields) {
      var word :| word in ["none", "standard", "elevated", "continuous_resonance_required"]
                  && Reads(fields, "authority_requirements", word);
      assert t == Some(Ascii(word));
    }
    var r := ParseAuthority(t);
    assert r.Some? ==> r.value.NoAuthority? || r.value.Standard? || r.value.Elevated?
                       || r.value.ContinuousResonanceRequired?;
  }

  lemma ShapeIff(libs: Libraries, fields: seq<Field>)
    ensures ShapeFits(libs, fields) <==>
            && HasText(fields, "capability") && IsId(Under(fields, "capability").value.s)
            && HasText(fields, "version") && libs.isSemVer(Under(fields, "version").value.s)
            && AdapterIsGiven(fields) && AuthorityIsGiven(fields) && ClassIsGiven(fields)
            && HasObject(fields, "input_schema") && Given(fields, "output_schema") && Given(fields, "golden")
  {
    TextIs(fields, "capability");
    TextIs(fields, "version");
    if HasText(fields, "capability") {
      NamesIff(Under(fields, "capability").value.s);
    }
    AdapterIff(fields);
    AuthorityIff(fields);
    ClassIff(fields);
    hide Ascii, FieldNamed, AdapterFits, AdapterIsGiven, ParseAuthority, AuthorityIsGiven, ClassFieldsOf, ClassIsGiven,
         IsCapabilityId, IsId, TextUnder;
  }

  lemma GoldenIff(libs: Libraries, fields: seq<Field>, input: Json, output: Json)
    requires Given(fields, "golden")
    ensures GoldenFits(libs, Under(fields, "golden").value, input, output) <==>
            GoldenIsFine(libs, fields, input, output)
  {
    hide Ascii, FieldNamed;
  }

  /** A worksheet is accepted exactly when its fields are what is asked: class by class, with its golden case. */
  lemma AcceptedIff(libs: Libraries, raw: Json)
    ensures Validate(libs, raw).Some? <==> MayBeAccepted(libs, raw)
  {
    if raw.Obj? {
      KeysIff(raw.fields);
      ShapeIff(libs, raw.fields);
      if Given(raw.fields, "golden") && HasObject(raw.fields, "input_schema") && Given(raw.fields, "output_schema") {
        var output := libs.coerceOutput(Under(raw.fields, "output_schema").value);
        if output.Some? {
          GoldenIff(libs, raw.fields, Under(raw.fields, "input_schema").value, output.value);
        }
      }
    }
    hide Ascii, FieldNamed, KeysKnown, KnownKeys, ShapeFits, IsId, AdapterIsGiven, AuthorityIsGiven, ClassIsGiven,
         GoldenFits, WorksheetOf, ClassFieldsOf, ParseAuthority;
  }

  /** What an accepted worksheet becomes. */
  ghost predicate IsMadeFrom(libs: Libraries, fields: seq<Field>, ws: Worksheet) {
    var d := ws.definition;
    && Under(fields, "capability") == Some(Str(d.capability)) && Under(fields, "version") == Some(Str(d.version))
    && HasObject(fields, "adapter")
    && Under(Under(fields, "adapter").value.fields, "key") == Some(Str(d.adapterKey))
    && Under(Under(fields, "adapter").value.fields, "route") == Some(Str(d.adapterRoute))
    && Under(fields, "input_schema") == Some(d.inputSchema)
    && Under(fields, "output_schema").Some?
       && libs.coerceOutput(Under(fields, "output_schema").value) == Some(ws.outputSchema)
    && d.description == (if HasText(fields, "description") && Trim(Under(fields, "description").value.s) != []
                         then Some(Trim(Under(fields, "description").value.s)) else None)
    && (ws.authority.NoAuthority? <==> Reads(fields, "authority_requirements", "none"))
    && (ws.authority.Standard? <==> Reads(fields, "authority_requirements", "standard"))
    && (ws.authority.Elevated? <==> Reads(fields, "authority_requirements", "elevated"))
    && match ws.classFields
       case FieldsA => IsA(fields)
       case FieldsB(tier, idempotency, replay) => IsB(fields, tier, idempotency, replay)
       case FieldsC(model, job, partial) => IsC(fields, model, job, partial)
  }

  lemma PartsAre(libs: Libraries, raw: Json)
    requires Validate(libs, raw).Some?
    ensures raw.Obj?
    ensures var ws, fields := Validate(libs, raw).value, raw.fields;
            var d := ws.definition;
            && d.capability == TextAt(fields, "capability") && d.version == TextAt(fields, "version")
            && d.adapterKey == InnerText(fields, "key") && d.adapterRoute == InnerText(fields, "route")
            && Under(fields, "input_schema") == Some(d.inputSchema)
            && d.description == NonEmpty(Some(Trim(TextAt(fields, "description")))) && d.tags == TagsOf(fields)
            && ParseAuthority(TextUnder(fields, "authority_requirements")) == Some(ws.authority)
            && ClassFieldsOf(fields) == Some(ws.classFields)
            && Under(fields, "output_schema").Some?
            && libs.coerceOutput(Under(fields, "output_schema").value) == Some(ws.outputSchema)
  {
    hide Ascii, FieldNamed, KeysKnown, GoldenFits, AdapterFits, TagsFit, IsCapabilityId, ParseAuthority, ClassFieldsOf,
         Trim, TagsOf, InnerText, TextAt, TextUnder;
  }

  lemma AuthorityTells(fields: seq<Field>, authority: AuthorityRequirement)
    requires ParseAuthority(TextUnder(fields, "authority_requirements")) == Some(authority)
    ensures authority.NoAuthority? <==> Reads(fields, "authority_requirements", "none")
    ensures authority.Standard? <==> Reads(fields, "authority_requirements", "standard")
    ensures authority.Elevated? <==> Reads(fields, "authority_requirements", "elevated")
  {
    TextIs(fields, "authority_requirements");
    AuthorityIsRead(TextUnder(fields, "authority_requirements"));
    hide Ascii, FieldNamed, ParseAuthority, TextUnder, Reads;
  }

  lemma ClassTells(fields: seq<Field>, c: ClassFields)
    requires ClassFieldsOf(fields) == Some(c)
    ensures match c
            case FieldsA => IsA(fields)
            case FieldsB(tier, idempotency, replay) => IsB(fields, tier, idempotency, replay)
            case FieldsC(model, job, partial) => IsC(fields, model, job, partial)
  {
    FieldsAIff(fields);
    if c.FieldsB? {
      FieldsBIff(fields, c.tier, c.idempotency, c.replay);
    } else if c.FieldsC? {
      FieldsCIff(fields, c.asyncModel, c.jobIdField, c.partialReceipt);
    }
    hide ClassFieldsOf, IsA, IsB, IsC;
  }

  lemma AdapterTells(fields: seq<Field>)
    requires AdapterIsGiven(fields)
    ensures Under(Under(fields, "adapter").value.fields, "key") == Some(Str(InnerText(fields, "key")))
    ensures Under(Under(fields, "adapter").value.fields, "route") == Some(Str(InnerText(fields, "route")))
  {
    hide Ascii, FieldNamed, IsSlug, IsPath;
  }

  lemma TextTells(fields: seq<Field>, key: string)
    ensures HasText(fields, key) ==> Under(fields, key) == Some(Str(TextAt(fields, key)))
    ensures !HasText(fields, key) ==> TextAt(fields, key) == []
  {
  }

  /** What an accepted worksheet becomes: each part is that of its field, and the tags are cleaned. */
  lemma WorksheetTells(libs: Libraries, raw: Json)
    requires Validate(libs, raw).Some?
    ensures raw.Obj? && IsMadeFrom(libs, raw.fields, Validate(libs, raw).value)
    ensures IsCleaned(raw.fields, Validate(libs, raw).value.definition.tags)
  {
    var fields, ws := raw.fields, Validate(libs, raw).value;
    PartsAre(libs, raw);
    AcceptedIff(libs, raw);
    TextTells(fields, "capability");
    TextTells(fields, "version");
    TextTells(fields, "description");
    assert Trim([]) == [];
    AuthorityTells(fields, ws.authority);
    ClassTells(fields, ws.classFields);
    AdapterTells(fields);
    TagsTell(fields);
    hide Ascii, FieldNamed, Validate, KnownKeys, IsId, ClassIsGiven, AuthorityIsGiven, GoldenIsFine, TagsAreTexts, Trim,
         TagsOf, InnerText, TextAt, Reads, IsA, IsB, IsC, ParseAuthority, ClassFieldsOf, IsCleaned, TextUnder, Under;
  }

  /** The texts are in the order of their units, without repetitions. */
  ghost predicate Ascend(ts: seq<Text>) {
    forall i, k | 0 <= i < k < |ts| :: ComesBefore(ts[i], ts[k])
  }

  /** These are the tags of the field, trimmed, without empty ones and repetitions, in the order of their units. */
  ghost predicate IsCleaned(fields: seq<Field>, tags: Option<seq<Text>>) {
    && (tags.Some? ==> tags.value != [] && Ascend(tags.value))
    && forall tag: Text :: (tags.Some? && tag in tags.value) <==>
         && tag != [] && Under(fields, "tags").Some? && Under(fields, "tags").value.Arr?
         && IsTrimmedOf(Under(fields, "tags").value.items, tag)
  }

  ghost predicate IsTrimmedOf(items: seq<Json>, tag: Text) {
    exists item :: item in items && item.Str? && Trim(item.s) == tag
  }

  lemma TrimmedIff(items: seq<Json>, tag: Text)
    ensures IsTrimmedTag(items, tag) <==> IsTrimmedOf(items, tag)
  {
    hide Trim;
    if item :| item in items && item.Str? && Trim(item.s) == tag {
      var i :| 0 <= i < |items| && items[i] == item;
    }
  }

  lemma TagsTell(fields: seq<Field>)
    ensures IsCleaned(fields, TagsOf(fields))
  {
    if Under(fields, "tags").Some? && Under(fields, "tags").value.Arr? {
      var items := Under(fields, "tags").value.items;
      var clean := CleanTags(items);
      CleanTagsAscend(items);
      SortTextsSorts(clean);
      assert TagsOf(fields) == if clean == [] then None else Some(SortTexts(clean));
      assert SortTexts([]) == [];
      hide Trim, SortTexts, Ascend, TagsOf, IsTrimmedTag, IsTrimmedOf, Ascii, FieldNamed;
      forall tag: Text
        ensures tag in SortTexts(clean) <==> tag != [] && IsTrimmedOf(items, tag)
      {
        assert tag in multiset(clean) <==> tag in multiset(SortTexts(clean));
        TrimmedIff(items, tag);
      }
      if clean != [] {
        assert clean[0] in multiset(SortTexts(clean));
      }
    }
  }

  /** Sorting texts without repetitions makes them ascend. */
  lemma CleanTagsAscend(items: seq<Json>)
    ensures Ascend(SortTexts(CleanTags(items)))
  {
    var clean := CleanTags(items);
    var tags := SortTexts(clean);
    SortTextsSorts(clean);
    OnceEach(clean, tags);
    forall i, k | 0 <= i < k < |tags|
      ensures ComesBefore(tags[i], tags[k])
    {
      LessIsTotal(tags[i], tags[k]);
      LessIff(tags[i], tags[k]);
    }
  }

  lemma OnceEach(xs: seq<Text>, ys: seq<Text>)
    requires multiset(xs) == multiset(ys) && forall i, k | 0 <= i < k < |xs| :: xs[i] != xs[k]
    ensures forall i, k | 0 <= i < k < |ys| :: ys[i] != ys[k]
  {
    forall i, k | 0 <= i < k < |ys|
      ensures ys[i] != ys[k]
    {
      CountOf(xs, ys[k]);
      assert ys == ys[..k] + [ys[k]] + ys[k + 1..];
      assert ys[..k][i] == ys[i];
    }
  }

  lemma {:induction false} CountOf(xs: seq<Text>, x: Text)
    requires forall i, k | 0 <= i < k < |xs| :: xs[i] != xs[k]
    ensures multiset(xs)[x] <= 1
  {
    if xs != [] {
      CountOf(xs[1..], x);
      assert xs == [xs[0]] + xs[1..];
      assert xs[0] !in xs[1..];
    }
  }

  // ---------------------------------------------------------------------------- files

  /** What the loader reads of `definition.json`, and when it does. */
  ghost predicate IsReadAs(j: Json, d: Definition) {
    && j.Obj?
    && Under(j.fields, "capability") == Some(Str(d.capability)) && d.capability != []
    && Under(j.fields, "version") == Some(Str(d.version)) && d.version != []
    && HasObject(j.fields, "adapter")
    && Under(Under(j.fields, "adapter").value.fields, "key") == Some(Str(d.adapterKey))
    && Under(Under(j.fields, "adapter").value.fields, "route") == Some(Str(d.adapterRoute))
    && Under(j.fields, "input_schema") == Some(d.inputSchema) && d.inputSchema.Obj?
    && d.description == (if HasText(j.fields, "description") && Under(j.fields, "description").value.s != []
                         then Some(Under(j.fields, "description").value.s) else None)
    && d.tags == (if Under(j.fields, "tags").Some? && Under(j.fields, "tags").value.Arr?
                     && (exists tag :: tag in Under(j.fields, "tags").value.items && tag.Str?)
                  then Some(TextsIn(Under(j.fields, "tags").value.items)) else None)
  }

  lemma {:induction false} TextsInIff(items: seq<Json>)
    ensures TextsIn(items) == [] <==> forall tag | tag in items :: !tag.Str?
  {
    if items != [] {
      TextsInIff(items[1..]);
      assert items == [items[0]] + items[1..];
    }
  }

  /** The texts among the items, in their order: one more item adds its text, if it is one. */
  lemma {:induction false} TextsInAppends(items: seq<Json>, item: Json)
    ensures TextsIn(items + [item]) == TextsIn(items) + (if item.Str? then [item.s] else [])
  {
    if items == [] {
      assert [item][1..] == [] && [] + [item] == [item];
    } else {
      var first := if items[0].Str? then [items[0].s] else [];
      var last := if item.Str? then [item.s] else [];
      var rest := items[1..];
      assert (items + [item])[0] == items[0] && (items + [item])[1..] == rest + [item];
      TextsInAppends(rest, item);
      assert first + (TextsIn(rest) + last) == first + TextsIn(rest) + last;
    }
  }

  /** `definition.json` loads as this definition exactly when its fields say so. */
  lemma DefinitionIsRead(j: Json, d: Definition)
    ensures ParseDefinition(j) == Some(d) <==> IsReadAs(j, d)
  {
    if j.Obj? {
      TextIs(j.fields, "capability");
      TextIs(j.fields, "version");
      TextIs(j.fields, "description");
      if HasObject(j.fields, "adapter") {
        TextIs(Under(j.fields, "adapter").value.fields, "key");
        TextIs(Under(j.fields, "adapter").value.fields, "route");
      }
      if Under(j.fields, "tags").Some? && Under(j.fields, "tags").value.Arr? {
        TextsInIff(Under(j.fields, "tags").value.items);
      }
    }
    hide Ascii, FieldNamed, TextsIn;
  }

  /** The text of a value, as `String` makes it. */
  predicate IsTextOf(toText: Json -> Text, j: Json, t: Text) {
    t == if j.Str? then j.s else toText(j)
  }

  /** What the loader reads of `meta.json`, and when it does. */
  ghost predicate IsMetaOf(toText: Json -> Text, fields: seq<Field>, m: Meta) {
    && AuthorityIsGiven(fields)
    && (m.authorityRequirement.NoAuthority? <==> Reads(fields, "authority_requirements", "none"))
    && (m.authorityRequirement.Standard? <==> Reads(fields, "authority_requirements", "standard"))
    && (m.authorityRequirement.Elevated? <==> Reads(fields, "authority_requirements", "elevated"))
    && Reads(fields, "execution_class",
             if m.executionClass.ClassA? then "A" else if m.executionClass.ClassB? then "B" else "C")
    && Under(fields, "output_schema") == Some(m.outputSchema) && m.outputSchema.Obj?
    && m.asyncModel == AsyncText(toText, fields, Ascii("async_model"))
    && m.jobIdField == AsyncText(toText, fields, Ascii("job_id_field"))
    && m.partialReceipt == (if Under(fields, "partial_receipt").Some?
                            then Some(IsTruthy(Under(fields, "partial_receipt").value)) else None)
    && ClassBFields(m.executionClass, fields) == Some((m.sideEffectTier, m.idempotency, m.replayBehavior))
    && ClassViolations(m) == []
  }

  lemma AsyncTextIs(toText: Json -> Text, fields: seq<Field>, key: string)
    ensures var t := AsyncText(toText, fields, Ascii(key));
            && (t.Some? <==> Under(fields, key).Some?)
            && (t.Some? ==> IsTextOf(toText, Under(fields, key).value, t.value))
  {
  }

  /** Class B has all three fields, each one of its words, and the other classes have none of them. */
  lemma ClassBFieldsAre(c: ExecutionClass, fields: seq<Field>, tier: Option<SideEffectTier>,
                        idempotency: Option<Idempotency>, replay: Option<ReplayBehavior>)
    ensures ClassBFields(c, fields) == Some((tier, idempotency, replay)) <==>
            if c.ClassB? then
              && tier.Some? && idempotency.Some? && replay.Some?
              && Reads(fields, "side_effect_tier",
                       if tier.value.Low? then "low" else if tier.value.Medium? then "medium" else "irreversible")
              && Reads(fields, "idempotency",
                       if idempotency.value.NotIdempotent? then "none" else if idempotency.value.Keyed? then "keyed"
                       else "inherent")
              && Reads(fields, "replay_behavior",
                       if replay.value.Blocked? then "blocked"
                       else if replay.value.AllowedSameKey? then "allowed_same_key"
                       else "allowed_read_only_subset")
            else tier.None? && idempotency.None? && replay.None? && LacksClassB(fields)
  {
    if c.ClassB? {
      ClassBTextsAre(fields);
    }
    hide Ascii, FieldNamed, ParseTier, ParseIdempotency, ParseReplay, Reads, TextField;
  }

  /** The three fields of class B, in one go. */
  lemma ClassBTextsAre(fields: seq<Field>)
    ensures forall tier :: ParseTier(TextField(fields, Ascii("side_effect_tier"))) == Some(tier) <==>
                           Reads(fields, "side_effect_tier",
                                 if tier.Low? then "low" else if tier.Medium? then "medium" else "irreversible")
    ensures forall mode :: ParseIdempotency(TextField(fields, Ascii("idempotency"))) == Some(mode) <==>
                           Reads(fields, "idempotency",
                                 if mode.NotIdempotent? then "none" else if mode.Keyed? then "keyed" else "inherent")
    ensures forall replay :: ParseReplay(TextField(fields, Ascii("replay_behavior"))) == Some(replay) <==>
                             Reads(fields, "replay_behavior",
                                   if replay.Blocked? then "blocked"
                                   else if replay.AllowedSameKey? then "allowed_same_key"
                                   else "allowed_read_only_subset")
  {
    TextIs(fields, "side_effect_tier");
    TextIs(fields, "idempotency");
    TextIs(fields, "replay_behavior");
    TierIsRead(TextUnder(fields, "side_effect_tier"));
    IdempotencyIsRead(TextUnder(fields, "idempotency"));
    ReplayIsRead(TextUnder(fields, "replay_behavior"));
    hide Ascii, FieldNamed, ParseTier, ParseIdempotency, ParseReplay, TextUnder, Reads, TextField;
  }

  lemma MetaParts(toText: Json -> Text, j: Json, m: Meta)
    requires j.Obj?
    ensures ParseMeta(toText, j) == Some(m) <==>
            && ParseAuthority(TextUnder(j.fields, "authority_requirements")) == Some(m.authorityRequirement)
            && ParseClass(TextUnder(j.fields, "execution_class")) == Some(m.executionClass)
            && Under(j.fields, "output_schema") == Some(m.outputSchema) && m.outputSchema.Obj?
            && m.asyncModel == AsyncText(toText, j.fields, Ascii("async_model"))
            && m.jobIdField == AsyncText(toText, j.fields, Ascii("job_id_field"))
            && m.partialReceipt == (if Under(j.fields, "partial_receipt").Some?
                                    then Some(IsTruthy(Under(j.fields, "partial_receipt").value)) else None)
            && ClassBFields(m.executionClass, j.fields) == Some((m.sideEffectTier, m.idempotency, m.replayBehavior))
            && ClassViolations(m) == []
  {
    hide Ascii, FieldNamed, ParseAuthority, ParseClass, TextField, AsyncText, ClassBFields, ClassViolations, IsTruthy;
  }

  lemma AuthorityMatches(fields: seq<Field>, a: AuthorityRequirement)
    ensures ParseAuthority(TextUnder(fields, "authority_requirements")) == Some(a) <==>
            && AuthorityIsGiven(fields)
            && (a.NoAuthority? <==> Reads(fields, "authority_requirements", "none"))
            && (a.Standard? <==> Reads(fields, "authority_requirements", "standard"))
            && (a.Elevated? <==> Reads(fields, "authority_requirements", "elevated"))
  {
    AuthorityIff(fields);
    var t := ParseAuthority(TextUnder(fields, "authority_requirements"));
    if t.Some? {
      AuthorityTells(fields, t.value);
    }
    hide ParseAuthority, TextUnder, AuthorityIsGiven, Reads;
  }

  lemma ClassMatches(fields: seq<Field>, c: ExecutionClass)
    ensures ParseClass(TextUnder(fields, "execution_class")) == Some(c) <==>
            Reads(fields, "execution_class", if c.ClassA? then "A" else if c.ClassB? then "B" else "C")
  {
    TextIs(fields, "execution_class");
    ClassIsReadAs(TextUnder(fields, "execution_class"));
    hide ParseClass, TextUnder, Reads, Ascii;
  }

  /** `meta.json` loads as this meta exactly when its fields say so and the class policy has no objection. */
  lemma MetaIsRead(toText: Json -> Text, j: Json, m: Meta)
    ensures ParseMeta(toText, j) == Some(m) <==> j.Obj? && IsMetaOf(toText, j.fields, m)
  {
    if j.Obj? {
      MetaParts(toText, j, m);
      AuthorityMatches(j.fields, m.authorityRequirement);
      ClassMatches(j.fields, m.executionClass);
      hide ParseMeta, ParseAuthority, ParseClass, TextUnder, Reads, AsyncText, ClassBFields, ClassViolations, IsTruthy,
           AuthorityIsGiven, Under, Ascii;
    }
  }

  /** What is written to `meta.json` under each key. */
  lemma MetaFileSays(ws: Worksheet, compiler: Text, template: Text)
    ensures MetaJson(ws, compiler, template).Obj?
    ensures var fs := MetaJson(ws, compiler, template).fields;
            && Reads(fs, "generated_by", "@zak/capability-compiler")
            && Under(fs, "compiler_version") == Some(Str(compiler))
               && Under(fs, "template_version") == Some(Str(template))
            && Reads(fs, "execution_class",
                     if ws.classFields.FieldsA? then "A" else if ws.classFields.FieldsB? then "B" else "C")
            && Under(fs, "output_schema") == Some(ws.outputSchema)
            && (ws.authority.NoAuthority? ==> Reads(fs, "authority_requirements", "none"))
            && (ws.authority.Standard? ==> Reads(fs, "authority_requirements", "standard"))
            && (ws.authority.Elevated? ==> Reads(fs, "authority_requirements", "elevated"))
            && (ws.authority.ContinuousResonanceRequired? ==>
                  Reads(fs, "authority_requirements", "continuous_resonance_required"))
  {
    var fs := MetaJson(ws, compiler, template).fields;
    var known := MetaFields(ws, compiler, template);
    assert fs[0].key[0] == 103 && fs[1].key[0] == 99 && fs[2].key[0] == 116 && fs[3].key[0] == 101 && fs[4].key[0] == 97
           && fs[5].key[0] == 111;
    SixFields(fs);
  }

  /** The first fields of a record, if their keys differ. */
  lemma SixFields(fs: seq<Field>)
    requires |fs| >= 6 && forall i, k | 0 <= i < k < 6 :: fs[i].key != fs[k].key
    ensures forall i | 0 <= i < 6 :: FieldNamed(fs, fs[i].key) == Some(fs[i].value)
  {
    forall i: nat | 0 <= i < 6
      ensures FieldNamed(fs, fs[i].key) == Some(fs[i].value)
    {
      FirstNamed(fs, i);
    }
  }

  lemma {:induction false} FirstNamed(fs: seq<Field>, i: nat)
    requires i < |fs| && forall k | 0 <= k < i :: fs[k].key != fs[i].key
    ensures FieldNamed(fs, fs[i].key) == Some(fs[i].value)
  {
    if i > 0 {
      FirstNamed(fs[1..], i - 1);
    }
  }

  // --------------------------------------------------------------------------- trees

  /** The normal form of a tree: the capability id lower-cased and trimmed, key and route of the adapter trimmed. */
  lemma NormalFieldTells(lower: Text -> Text, f: Field)
    ensures var g := NormalField(lower, f);
            && g.key == f.key
            && (f.key == Ascii("capability") && f.value.Str? ==> g.value == Str(lower(Trim(f.value.s))))
            && (f.key == Ascii("adapter") && f.value.Obj? ==>
                  && g.value.Obj? && |g.value.fields| == |f.value.fields|
                  && forall i | 0 <= i < |f.value.fields| ::
                       var inner := f.value.fields[i];
                       && g.value.fields[i].key == inner.key
                       && g.value.fields[i].value
                          == if inner.key in [Ascii("key"), Ascii("route")] && inner.value.Str?
                             then Str(Trim(inner.value.s))
                             else inner.value)
            && (!(f.key == Ascii("capability") && f.value.Str?) && !(f.key == Ascii("adapter") && f.value.Obj?) ==>
                g == f)
  {
    assert Ascii("capability")[0] == 99 && Ascii("adapter")[0] == 97;
    hide Ascii, Trim;
  }
}
