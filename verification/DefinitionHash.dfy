/** What the definition hash of `definition-hash.ts` identifies. */
module DefinitionHash {
  import opened Texts
  import opened CanonicalJson
  import opened CanonicalJsonTheorems

  datatype Definition = Definition(
    capability: Text,
    version: Text,
    adapterKey: Text,
    adapterRoute: Text,
    inputSchema: Json,
    description: Option<Text>,
    tags: Option<seq<Text>>)

  const ONE: NumLit := [49]

  function TextItems(ts: seq<Text>): (r: seq<Json>)
    ensures |r| == |ts| && forall i | 0 <= i < |r| :: r[i] == Str(ts[i])
  {
    seq(|ts|, i requires 0 <= i < |ts| => Str(ts[i]))
  }

  function AdapterFields(d: Definition): seq<Field> {
    [Field(Ascii("key"), Str(d.adapterKey)), Field(Ascii("route"), Str(d.adapterRoute))]
  }

  function RequiredFields(d: Definition): seq<Field> {
    [Field(Ascii("v"), Num(ONE)),
     Field(Ascii("capability"), Str(d.capability)),
     Field(Ascii("version"), Str(d.version)),
     Field(Ascii("adapter"), Obj(AdapterFields(d))),
     Field(Ascii("input_schema"), d.inputSchema)]
  }

  function DescriptionFields(d: Definition): seq<Field> {
    if d.description.Some? then [Field(Ascii("description"), Str(d.description.value))] else []
  }

  function TagFields(d: Definition): seq<Field> {
    if d.tags.Some? && d.tags.value != []
    then [Field(Ascii("tags"), Arr(TextItems(SortTexts(d.tags.value))))]
    else []
  }

  function Payload(d: Definition): Json {
    Obj(RequiredFields(d) + DescriptionFields(d) + TagFields(d))
  }

  /** The text that `computeCapabilityDefinitionHash` feeds to SHA-256. */
  function Preimage(d: Definition): Text {
    StableStringify(Payload(d))
  }

  // ------------------------------------------------------------------ identity

  /** No tags and an empty list of tags are the same thing; order of tags is not part of identity. */
  ghost function TagBag(d: Definition): multiset<Text> {
    if d.tags.Some? then multiset(d.tags.value) else multiset{}
  }

  ghost predicate SameDefinition(a: Definition, b: Definition) {
    && a.capability == b.capability
    && a.version == b.version
    && a.adapterKey == b.adapterKey
    && a.adapterRoute == b.adapterRoute
    && a.description == b.description
    && Same(a.inputSchema, b.inputSchema)
    && TagBag(a) == TagBag(b)
  }

  lemma RequiredKeysDiffer(d: Definition)
    ensures DistinctFieldKeys(RequiredFields(d)) && DistinctFieldKeys(AdapterFields(d))
  {
    var fs := RequiredFields(d);
    assert fs[0].key[0] == 118 && |fs[0].key| == 1;
    assert fs[1].key[0] == 99;
    assert fs[2].key[0] == 118 && |fs[2].key| == 7;
    assert fs[3].key[0] == 97;
    assert fs[4].key[0] == 105;
    assert AdapterFields(d)[0].key[0] == 107 && AdapterFields(d)[1].key[0] == 114;
  }

  lemma OptionalKeysDiffer(d: Definition)
    ensures DistinctFieldKeys(RequiredFields(d) + DescriptionFields(d) + TagFields(d))
  {
    RequiredKeysDiffer(d);
    var fs := RequiredFields(d);
    assert Ascii("description")[0] == 100 && Ascii("tags")[0] == 116;
    assert fs[0].key[0] == 118 && fs[1].key[0] == 99 && fs[2].key[0] == 118 && fs[3].key[0] == 97
           && fs[4].key[0] == 105;
  }

  lemma PayloadWellFormed(d: Definition)
    requires WellFormed(d.inputSchema)
    ensures WellFormed(Payload(d))
  {
    RequiredKeysDiffer(d);
    OptionalKeysDiffer(d);
    var fs := RequiredFields(d) + DescriptionFields(d) + TagFields(d);
    forall i | 0 <= i < |fs|
      ensures WellFormed(fs[i].value)
    {
      assert fs[i] in RequiredFields(d) || fs[i] in DescriptionFields(d) || fs[i] in TagFields(d);
    }
  }

  lemma OptionalFieldsAppear(d: Definition, i: nat)
    requires i < |Payload(d).fields|
    ensures Payload(d).fields[i].key == Ascii("description") ==> DescriptionFields(d) != []
    ensures Payload(d).fields[i].key == Ascii("tags") ==> TagFields(d) != []
  {
    var fs := RequiredFields(d);
    assert fs[0].key[0] == 118 && fs[1].key[0] == 99 && fs[2].key[0] == 118 && fs[3].key[0] == 97
           && fs[4].key[0] == 105;
    assert Ascii("description")[0] == 100 && Ascii("tags")[0] == 116;
    assert Payload(d).fields[i] in fs || Payload(d).fields[i] in DescriptionFields(d)
           || Payload(d).fields[i] in TagFields(d);
  }

  /** Payloads that agree up to key order have the same optional fields. */
  lemma SamePayloadShape(a: Definition, b: Definition)
    requires Same(Payload(a), Payload(b))
    ensures |DescriptionFields(a)| == |DescriptionFields(b)| && |TagFields(a)| == |TagFields(b)|
  {
    var fs, gs := Payload(a).fields, Payload(b).fields;
    if DescriptionFields(a) != [] {
      assert fs[5] == DescriptionFields(a)[0];
      assert HasSame(fs[5], gs);
      var k :| 0 <= k < |gs| && fs[5].key == gs[k].key;
      OptionalFieldsAppear(b, k);
    }
    if TagFields(a) != [] {
      var i := |fs| - 1;
      assert fs[i] == TagFields(a)[0];
      assert HasSame(fs[i], gs);
      var k :| 0 <= k < |gs| && fs[i].key == gs[k].key;
      OptionalFieldsAppear(b, k);
    }
  }

  lemma SameTexts(xs: seq<Text>, ys: seq<Text>)
    ensures Same(Arr(TextItems(xs)), Arr(TextItems(ys))) <==> xs == ys
  {
    if Same(Arr(TextItems(xs)), Arr(TextItems(ys))) {
      forall i | 0 <= i < |xs|
        ensures xs[i] == ys[i]
      {
        assert Same(TextItems(xs)[i], TextItems(ys)[i]);
      }
    }
  }

  lemma SameTagFields(a: Definition, b: Definition)
    requires |TagFields(a)| == |TagFields(b)|
    ensures AllSame(TagFields(a), TagFields(b)) <==> TagBag(a) == TagBag(b)
  {
    if TagFields(a) != [] {
      SortTextsAgree(a.tags.value, b.tags.value);
      SameTexts(SortTexts(a.tags.value), SortTexts(b.tags.value));
      assert AllSame(TagFields(a), TagFields(b)) <==> Same(TagFields(a)[0].value, TagFields(b)[0].value);
    }
  }

  lemma SameDescriptionFields(a: Definition, b: Definition)
    requires |DescriptionFields(a)| == |DescriptionFields(b)|
    ensures AllSame(DescriptionFields(a), DescriptionFields(b)) <==> a.description == b.description
  {
    if DescriptionFields(a) != [] {
      SameStr(a.description.value, b.description.value);
      var fs, gs := DescriptionFields(a), DescriptionFields(b);
      assert AllSame(fs, gs) <==> Same(fs[0].value, gs[0].value);
    }
  }

  lemma SameAdapters(a: Definition, b: Definition)
    ensures Same(Obj(AdapterFields(a)), Obj(AdapterFields(b))) <==>
            a.adapterKey == b.adapterKey && a.adapterRoute == b.adapterRoute
  {
    var fs, gs := AdapterFields(a), AdapterFields(b);
    RequiredKeysDiffer(b);
    SameRecords(Obj(fs), Obj(gs));
    SameStr(a.adapterKey, b.adapterKey);
    SameStr(a.adapterRoute, b.adapterRoute);
    assert fs[0].value == Str(a.adapterKey) && fs[1].value == Str(a.adapterRoute);
    assert gs[0].value == Str(b.adapterKey) && gs[1].value == Str(b.adapterRoute);
  }

  lemma SameRequired(a: Definition, b: Definition)
    ensures AllSame(RequiredFields(a), RequiredFields(b)) <==>
            && a.capability == b.capability && a.version == b.version
            && a.adapterKey == b.adapterKey && a.adapterRoute == b.adapterRoute
            && Same(a.inputSchema, b.inputSchema)
  {
    FiveSame(RequiredFields(a), RequiredFields(b));
    SameStr(a.capability, b.capability);
    SameStr(a.version, b.version);
    SameAdapters(a, b);
    assert Same(Num(ONE), Num(ONE));
  }

  /** With the same optional fields present, payloads agree exactly when the definitions do. */
  lemma SamePayload(a: Definition, b: Definition)
    requires |DescriptionFields(a)| == |DescriptionFields(b)| && |TagFields(a)| == |TagFields(b)|
    ensures Same(Payload(a), Payload(b)) <==> SameDefinition(a, b)
  {
    OptionalKeysDiffer(b);
    SameRecords(Payload(a), Payload(b));
    AllSameConcat(RequiredFields(a) + DescriptionFields(a), RequiredFields(b) + DescriptionFields(b),
                  TagFields(a), TagFields(b));
    AllSameConcat(RequiredFields(a), RequiredFields(b), DescriptionFields(a), DescriptionFields(b));
    SameRequired(a, b);
    SameDescriptionFields(a, b);
    SameTagFields(a, b);
  }

  /** The parts of a definition that decide which optional fields its payload has. */
  lemma SameDefinitionShape(a: Definition, b: Definition)
    requires SameDefinition(a, b)
    ensures |DescriptionFields(a)| == |DescriptionFields(b)| && |TagFields(a)| == |TagFields(b)|
  {
    assert TagFields(a) == [] <==> TagBag(a) == multiset{};
    assert TagFields(b) == [] <==> TagBag(b) == multiset{};
  }

  /** Two definitions have the same preimage exactly when they are the same definition. */
  lemma DefinitionIdentity(a: Definition, b: Definition)
    requires WellFormed(a.inputSchema) && WellFormed(b.inputSchema)
    ensures Preimage(a) == Preimage(b) <==> SameDefinition(a, b)
  {
    PayloadWellFormed(a);
    PayloadWellFormed(b);
    CanonicalTextIsExact(Payload(a), Payload(b));
    if Same(Payload(a), Payload(b)) {
      SamePayloadShape(a, b);
      SamePayload(a, b);
    }
    if SameDefinition(a, b) {
      SameDefinitionShape(a, b);
      SamePayload(a, b);
    }
  }
}
