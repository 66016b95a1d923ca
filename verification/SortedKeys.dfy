/**
 What `JSON.stringify(sortKeysDeep(x))` of `enforcement.ts` and `pretty-json.ts` makes of a value: the text of what
 is left of it without keys `__proto__`, in key order.
 */
module SortedKeys {
  import opened Texts
  import opened CanonicalJson
  import opened CanonicalJsonTheorems

  // -------------------------------------------------------- what `sortKeysDeep` makes

  lemma {:induction false} AssignedIsStripped(parts: seq<Part<Json>>)
    ensures Assigned(MapParts(Stripped, parts)) == StripFields(AsFields(parts))
  {
    if parts != [] {
      AssignedIsStripped(parts[1..]);
      assert AsFields(parts)[1..] == AsFields(parts[1..]);
    }
  }

  /** Sorting and assigning is ordering the keys and then stripping. */
  lemma {:induction false} SortIsStrippedOrder(j: Json)
    ensures SortKeysDeep(j) == Stripped(Ordered(j))
    decreases j, 1
  {
    match j
    case Arr(items) => SortItemsAreStripped(items);
    case Obj(fields) =>
      SortedPartsAreStripped(fields);
      SortCommutes(Stripped, OrderedParts(fields));
      AssignedIsStripped(SortByKey(OrderedParts(fields)));
    case _ =>
  }

  lemma {:induction false} SortItemsAreStripped(items: seq<Json>)
    ensures SortItems(items) == StripItems(OrderItems(items))
    decreases items, 0
  {
    if items != [] {
      SortIsStrippedOrder(items[0]);
      SortItemsAreStripped(items[1..]);
      assert OrderItems(items)[1..] == OrderItems(items[1..]);
    }
  }

  lemma {:induction false} SortedPartsAreStripped(fields: seq<Field>)
    ensures SortedParts(fields) == MapParts(Stripped, OrderedParts(fields))
    decreases fields, 0
  {
    if fields != [] {
      SortIsStrippedOrder(fields[0].value);
      SortedPartsAreStripped(fields[1..]);
      assert OrderedParts(fields)[1..] == OrderedParts(fields[1..]);
    }
  }

  /** Values equal up to key order become identical when their keys are sorted. */
  lemma SameSortsAlike(a: Json, b: Json)
    requires WellFormed(a) && WellFormed(b) && Same(a, b)
    ensures SortKeysDeep(a) == SortKeysDeep(b)
  {
    SameOrdersAlike(a, b);
    SortIsStrippedOrder(a);
    SortIsStrippedOrder(b);
  }

  function Kept(parts: seq<Part<Json>>): seq<Part<Json>> {
    if parts == [] then []
    else if parts[0].key == PROTO then Kept(parts[1..])
    else [parts[0]] + Kept(parts[1..])
  }

  lemma {:induction false} KeptAreParts(parts: seq<Part<Json>>)
    ensures forall i | 0 <= i < |Kept(parts)| :: Kept(parts)[i] in parts && Kept(parts)[i].key != PROTO
  {
    if parts != [] {
      KeptAreParts(parts[1..]);
    }
  }

  lemma {:induction false} KeptOfInsert(x: Part<Json>, xs: seq<Part<Json>>)
    requires Ascending(xs)
    ensures Kept(Insert(x, xs)) == if x.key == PROTO then Kept(xs) else Insert(x, Kept(xs))
  {
    if xs == [] {
    } else if Less(x.key, xs[0].key) {
      assert ([x] + xs)[1..] == xs;
      KeptAreParts(xs);
      if Kept(xs) != [] && Kept(xs)[0] != xs[0] {
        LessIsTransitive(x.key, xs[0].key, Kept(xs)[0].key);
      }
    } else {
      KeptOfInsert(x, xs[1..]);
      assert ([xs[0]] + Insert(x, xs[1..]))[1..] == Insert(x, xs[1..]);
    }
  }

  lemma {:induction false} KeptOfSort(parts: seq<Part<Json>>)
    requires DistinctKeys(parts)
    ensures Kept(SortByKey(parts)) == SortByKey(Kept(parts))
  {
    if parts != [] {
      KeptOfSort(parts[1..]);
      SortByKeySorts(parts[1..]);
      KeptOfInsert(parts[0], SortByKey(parts[1..]));
    }
  }

  lemma {:induction false} AssignedIsKept(parts: seq<Part<Json>>)
    ensures Assigned(parts) == AsFields(Kept(parts))
  {
    if parts != [] {
      AssignedIsKept(parts[1..]);
    }
  }

  /** Stripping and then ordering the keys comes to the same. */
  lemma {:induction false} SortIsOrderOfStripped(j: Json)
    requires WellFormed(j)
    ensures SortKeysDeep(j) == Ordered(Stripped(j))
    decreases j, 1
  {
    match j
    case Arr(items) => SortItemsAreOrdered(items);
    case Obj(fields) =>
      var parts := SortedParts(fields);
      assert DistinctFieldKeys(fields);
      SortedPartsDistinct(fields);
      KeptOfSort(parts);
      AssignedIsKept(SortByKey(parts));
      KeptPartsAreOrdered(fields);
    case _ =>
  }

  lemma {:induction false} SortItemsAreOrdered(items: seq<Json>)
    requires forall i | 0 <= i < |items| :: WellFormed(items[i])
    ensures SortItems(items) == OrderItems(StripItems(items))
    decreases items, 0
  {
    if items != [] {
      SortIsOrderOfStripped(items[0]);
      SortItemsAreOrdered(items[1..]);
      assert StripItems(items)[1..] == StripItems(items[1..]);
    }
  }

  lemma {:induction false} KeptPartsAreOrdered(fields: seq<Field>)
    requires forall i | 0 <= i < |fields| :: WellFormed(fields[i].value)
    ensures Kept(SortedParts(fields)) == OrderedParts(StripFields(fields))
    decreases fields, 0
  {
    if fields != [] {
      SortIsOrderOfStripped(fields[0].value);
      KeptPartsAreOrdered(fields[1..]);
      assert SortedParts(fields)[1..] == SortedParts(fields[1..]);
    }
  }

  lemma {:induction false} SortedPartsAt(fields: seq<Field>, i: nat)
    requires i < |fields|
    ensures SortedParts(fields)[i] == Part(fields[i].key, SortKeysDeep(fields[i].value))
  {
    if i > 0 {
      SortedPartsAt(fields[1..], i - 1);
    }
  }

  lemma SortedPartsDistinct(fields: seq<Field>)
    requires DistinctFieldKeys(fields)
    ensures DistinctKeys(SortedParts(fields))
  {
    var parts := SortedParts(fields);
    forall i, k | 0 <= i < k < |parts|
      ensures parts[i].key != parts[k].key
    {
      SortedPartsAt(fields, i);
      SortedPartsAt(fields, k);
      assert fields[i].key != fields[k].key;
    }
  }

  // ------------------------------------------------------------------- stripping

  /** What is left of each field, and nothing else. */
  lemma {:induction false} StripFieldsHas(fields: seq<Field>)
    ensures forall i | 0 <= i < |fields| && fields[i].key != PROTO ::
              Field(fields[i].key, Stripped(fields[i].value)) in StripFields(fields)
    ensures forall g | g in StripFields(fields) ::
              g.key != PROTO && exists i | 0 <= i < |fields| :: g == Field(fields[i].key, Stripped(fields[i].value))
  {
    if fields != [] {
      StripFieldsHas(fields[1..]);
      assert fields == [fields[0]] + fields[1..];
    }
  }

  lemma {:induction false} StripItemsAt(items: seq<Json>, i: nat)
    requires i < |items|
    ensures StripItems(items)[i] == Stripped(items[i])
  {
    if i > 0 {
      StripItemsAt(items[1..], i - 1);
    }
  }

  lemma {:induction false} StrippedIsProtoFree(j: Json)
    ensures ProtoFree(Stripped(j))
    decreases j
  {
    match j
    case Arr(items) =>
      forall i | 0 <= i < |items|
        ensures ProtoFree(StripItems(items)[i])
      {
        StripItemsAt(items, i);
        StrippedIsProtoFree(items[i]);
      }
    case Obj(fields) =>
      var left := StripFields(fields);
      StripFieldsHas(fields);
      forall k | 0 <= k < |left|
        ensures left[k].key != PROTO && ProtoFree(left[k].value)
      {
        var i :| 0 <= i < |fields| && left[k] == Field(fields[i].key, Stripped(fields[i].value));
        StrippedIsProtoFree(fields[i].value);
      }
    case _ =>
  }

  lemma {:induction false} NothingToStrip(j: Json)
    requires ProtoFree(j)
    ensures Stripped(j) == j
    decreases j, 1
  {
    match j
    case Arr(items) => NoItemsToStrip(items);
    case Obj(fields) => NoFieldsToStrip(fields);
    case _ =>
  }

  lemma {:induction false} NoItemsToStrip(items: seq<Json>)
    requires forall i | 0 <= i < |items| :: ProtoFree(items[i])
    ensures StripItems(items) == items
    decreases items, 0
  {
    if items != [] {
      NothingToStrip(items[0]);
      NoItemsToStrip(items[1..]);
    }
  }

  lemma {:induction false} NoFieldsToStrip(fields: seq<Field>)
    requires forall i | 0 <= i < |fields| :: fields[i].key != PROTO && ProtoFree(fields[i].value)
    ensures StripFields(fields) == fields
    decreases fields, 0
  {
    if fields != [] {
      NothingToStrip(fields[0].value);
      NoFieldsToStrip(fields[1..]);
    }
  }

  lemma {:induction false} StripFieldsKeeps(fields: seq<Field>, key: Text)
    requires forall i | 0 <= i < |fields| :: fields[i].key != key
    ensures forall k | 0 <= k < |StripFields(fields)| :: StripFields(fields)[k].key != key
  {
    if fields != [] {
      StripFieldsKeeps(fields[1..], key);
    }
  }

  lemma {:induction false} StrippedFieldsDistinct(fields: seq<Field>)
    requires DistinctFieldKeys(fields)
    ensures DistinctFieldKeys(StripFields(fields))
  {
    if fields != [] {
      StrippedFieldsDistinct(fields[1..]);
      StripFieldsKeeps(fields[1..], fields[0].key);
    }
  }

  /** Stripping leaves no key twice. */
  lemma {:induction false} StrippedIsWellFormed(j: Json)
    requires WellFormed(j)
    ensures WellFormed(Stripped(j))
    decreases j
  {
    match j
    case Arr(items) =>
      forall i | 0 <= i < |items|
        ensures WellFormed(StripItems(items)[i])
      {
        StripItemsAt(items, i);
        StrippedIsWellFormed(items[i]);
      }
    case Obj(fields) =>
      var left := StripFields(fields);
      StripFieldsHas(fields);
      assert DistinctFieldKeys(fields);
      StrippedFieldsDistinct(fields);
      forall k | 0 <= k < |left|
        ensures WellFormed(left[k].value)
      {
        assert left[k] in left;
        var i :| 0 <= i < |fields| && left[k] == Field(fields[i].key, Stripped(fields[i].value));
        StrippedIsWellFormed(fields[i].value);
      }
    case _ =>
  }

  /** Reordering keys does not hide a key. */
  lemma {:induction false} SameKeepsProtoFree(a: Json, b: Json)
    requires Same(a, b) && ProtoFree(b)
    ensures ProtoFree(a)
    decreases a
  {
    match a
    case Arr(xs) =>
      forall i | 0 <= i < |xs|
        ensures ProtoFree(xs[i])
      {
        SameKeepsProtoFree(xs[i], b.items[i]);
      }
    case Obj(fs) =>
      forall i | 0 <= i < |fs|
        ensures fs[i].key != PROTO && ProtoFree(fs[i].value)
      {
        assert HasSame(fs[i], b.fields);
        var k :| 0 <= k < |b.fields| && fs[i].key == b.fields[k].key && Same(fs[i].value, b.fields[k].value);
        SameKeepsProtoFree(fs[i].value, b.fields[k].value);
      }
    case _ =>
  }

  /** A value equals what is left of it exactly when no object in it has a key `__proto__`. */
  lemma StrippingLosesIff(j: Json)
    ensures Same(j, Stripped(j)) <==> ProtoFree(j)
  {
    StrippedIsProtoFree(j);
    if Same(j, Stripped(j)) {
      SameKeepsProtoFree(j, Stripped(j));
    }
    if ProtoFree(j) {
      NothingToStrip(j);
      SameIsReflexive(j);
    }
  }

  lemma SortedIsProtoFree(j: Json)
    ensures ProtoFree(SortKeysDeep(j))
  {
    SortIsStrippedOrder(j);
    StrippedIsProtoFree(Ordered(j));
  }

  /** Two values sort alike exactly when what is left of them is equal up to key order. */
  lemma SortedAlikeIffSame(a: Json, b: Json)
    requires WellFormed(a) && WellFormed(b)
    ensures SortKeysDeep(a) == SortKeysDeep(b) <==> Same(Stripped(a), Stripped(b))
  {
    SortIsOrderOfStripped(a);
    SortIsOrderOfStripped(b);
    StrippedIsWellFormed(a);
    StrippedIsWellFormed(b);
    if Same(Stripped(a), Stripped(b)) {
      SameOrdersAlike(Stripped(a), Stripped(b));
    }
    if SortKeysDeep(a) == SortKeysDeep(b) {
      OrderedAlikeAreSame(Stripped(a), Stripped(b));
    }
  }

  /** The two encoders print the same text exactly for values without a key `__proto__`. */
  lemma EncodersAgreeIff(j: Json)
    requires WellFormed(j)
    ensures StableStringify(j) == Stringify(SortKeysDeep(j)) <==> ProtoFree(j)
  {
    StableIsStringifyOfOrdered(j);
    SortIsOrderOfStripped(j);
    StableIsStringifyOfOrdered(Stripped(j));
    StrippedIsWellFormed(j);
    CanonicalTextIsExact(j, Stripped(j));
    StrippingLosesIff(j);
  }
}
