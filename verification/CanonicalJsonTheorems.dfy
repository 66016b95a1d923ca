/** The canonical encoding is exact: equal texts mean equal values up to key order, and the reverse. */
module CanonicalJsonTheorems {
  import opened Texts
  import opened CanonicalJson

  // ------------------------------------------------- the parser undoes the printer

  lemma HexDigitRoundTrip(d: nat)
    requires d < 16
    ensures HexValue(HexDigit(d)) == Some(d)
  {
  }

  lemma RawUnit(u: Unit, t: Text)
    requires u != QUOTE && u != BACKSLASH
    ensures ParseString([u] + t) == Prepend(u, ParseString(t))
  {
    assert ([u] + t)[1..] == t;
  }

  lemma UnicodeEscapeReads(u: Unit, t: Text)
    ensures ParseString(UnicodeEscape(u) + t) == Prepend(u, ParseString(t))
  {
    var n := u as int;
    HexDigitRoundTrip(n / 4096);
    HexDigitRoundTrip(n / 256 % 16);
    HexDigitRoundTrip(n / 16 % 16);
    HexDigitRoundTrip(n % 16);
    FourDigits(n);
    WordReads(UnicodeEscape(u), t);
    EscapeDispatch(UnicodeEscape(u) + t, n / 4096, n / 256 % 16, n / 16 % 16, n % 16);
  }

  lemma FourDigits(n: nat)
    ensures n / 4096 * 4096 + n / 256 % 16 * 256 + n / 16 % 16 * 16 + n % 16 == n
  {
    assert n / 256 == n / 16 / 16 && n / 4096 == n / 256 / 16;
  }

  lemma EscapeDispatch(t: Text, a: nat, b: nat, c: nat, d: nat)
    requires |t| >= 6 && t[0] == BACKSLASH && t[1] == 117
    requires a < 16 && b < 16 && c < 16 && d < 16
    requires HexValue(t[2]) == Some(a) && HexValue(t[3]) == Some(b)
    requires HexValue(t[4]) == Some(c) && HexValue(t[5]) == Some(d)
    ensures ParseString(t) == Prepend((a * 4096 + b * 256 + c * 16 + d) as Unit, ParseString(t[6..]))
  {
  }

  lemma ShortEscapeReads(u: Unit, t: Text)
    requires |EscapeUnit(u)| == 2
    ensures ParseString(EscapeUnit(u) + t) == Prepend(u, ParseString(t))
  {
    var e := EscapeUnit(u) + t;
    assert e[2..] == t && e[0] == BACKSLASH && e[1] == EscapeUnit(u)[1];
  }

  lemma EscapedUnitReads(u: Unit, t: Text)
    ensures ParseString(EscapeUnit(u) + t) == Prepend(u, ParseString(t))
  {
    if |EscapeUnit(u)| == 1 {
      RawUnit(u, t);
    } else if |EscapeUnit(u)| == 2 {
      ShortEscapeReads(u, t);
    } else {
      UnicodeEscapeReads(u, t);
    }
  }

  lemma PairReads(u: Unit, v: Unit, t: Text)
    requires IsHighSurrogate(u) && IsLowSurrogate(v)
    ensures ParseString([u, v] + t) == Prepend(u, Prepend(v, ParseString(t)))
  {
    assert [u, v] + t == [u] + ([v] + t);
    RawUnit(u, [v] + t);
    RawUnit(v, t);
  }

  lemma Assoc(a: Text, b: Text, c: Text)
    ensures (a + b) + c == a + (b + c)
  {
  }

  lemma {:induction false} PairStep(s: Text, tail: Text)
    requires |s| > 1 && IsHighSurrogate(s[0]) && IsLowSurrogate(s[1])
    requires tail != []
    requires ParseString(Escape(s[2..]) + tail) == Some(Parsed(s[2..], tail[1..]))
    ensures ParseString(Escape(s) + tail) == Some(Parsed(s, tail[1..]))
  {
    Assoc([s[0], s[1]], Escape(s[2..]), tail);
    PairReads(s[0], s[1], Escape(s[2..]) + tail);
    assert s == [s[0]] + ([s[1]] + s[2..]);
  }

  lemma {:induction false} UnitStep(s: Text, tail: Text)
    requires s != [] && Escape(s) == EscapeUnit(s[0]) + Escape(s[1..])
    requires tail != []
    requires ParseString(Escape(s[1..]) + tail) == Some(Parsed(s[1..], tail[1..]))
    ensures ParseString(Escape(s) + tail) == Some(Parsed(s, tail[1..]))
  {
    Assoc(EscapeUnit(s[0]), Escape(s[1..]), tail);
    EscapedUnitReads(s[0], Escape(s[1..]) + tail);
    assert s == [s[0]] + s[1..];
  }

  /** Every string, lone surrogates included, survives quoting and reading. */
  lemma {:induction false} StringRoundTrip(s: Text, tail: Text)
    requires tail != [] && tail[0] == QUOTE
    ensures ParseString(Escape(s) + tail) == Some(Parsed(s, tail[1..]))
  {
    if s == [] {
      assert Escape(s) + tail == tail;
    } else if IsHighSurrogate(s[0]) && |s| > 1 && IsLowSurrogate(s[1]) {
      StringRoundTrip(s[2..], tail);
      PairStep(s, tail);
    } else {
      StringRoundTrip(s[1..], tail);
      UnitStep(s, tail);
    }
  }

  lemma QuotedReads(s: Text, rest: Text)
    ensures (Quote(s) + rest)[0] == QUOTE
    ensures ParseString((Quote(s) + rest)[1..]) == Some(Parsed(s, rest))
  {
    hide ParseString, Escape;
    StringRoundTrip(s, [QUOTE] + rest);
    assert (Quote(s) + rest)[1..] == Escape(s) + ([QUOTE] + rest);
    assert ([QUOTE] + rest)[1..] == rest;
  }

  lemma StringReads(s: Text, rest: Text)
    ensures ParseValue(Quote(s) + rest) == Some(Parsed(Str(s), rest))
  {
    QuotedReads(s, rest);
    hide ParseString, Escape, ParseItems, ParseFields;
  }

  lemma {:induction false} NumPrefixOf(lit: Text, rest: Text)
    requires forall i | 0 <= i < |lit| :: IsNumUnit(lit[i])
    requires rest == [] || !IsNumUnit(rest[0])
    ensures NumPrefix(lit + rest) == |lit|
  {
    if lit == [] {
      assert lit + rest == rest;
    } else {
      NumPrefixOf(lit[1..], rest);
      assert (lit + rest)[1..] == lit[1..] + rest;
    }
  }

  /** No printed value starts with a closing bracket. */
  lemma PrintedHead(j: Json)
    ensures Stringify(j) != [] && Stringify(j)[0] != RBRACKET && Stringify(j)[0] != RBRACE
  {
  }

  lemma WordReads(word: Text, rest: Text)
    ensures (word + rest)[..|word|] == word && (word + rest)[|word|..] == rest
  {
  }

  lemma LiteralReads(j: Json, rest: Text)
    requires j.Null? || j.Bool?
    ensures ParseValue(Stringify(j) + rest) == Some(Parsed(j, rest))
  {
    var t := Stringify(j) + rest;
    WordReads(Stringify(j), rest);
    assert t[0] == Stringify(j)[0];
  }

  lemma NumberReads(lit: NumLit, rest: Text)
    requires rest == [] || !IsNumUnit(rest[0])
    ensures ParseValue(lit + rest) == Some(Parsed(Num(lit), rest))
  {
    var t := lit + rest;
    NumPrefixOf(lit, rest);
    WordReads(lit, rest);
    assert t[0] == lit[0];
  }

  lemma ArrayDispatch(t: Text)
    requires |t| > 1 && t[0] == LBRACKET && t[1] != RBRACKET
    requires ParseItems(t[1..]).Some?
    ensures ParseValue(t) == Some(Parsed(Arr(ParseItems(t[1..]).value.value), ParseItems(t[1..]).value.rest))
  {
    hide ParseItems, ParseFields;
  }

  lemma ItemsHead(items: seq<Json>)
    requires items != []
    ensures StringifyItems(items) != [] && StringifyItems(items)[0] != RBRACKET
  {
    PrintedHead(items[0]);
    hide Stringify;
  }

  lemma ArrayReads(items: seq<Json>, rest: Text)
    requires items != [] ==>
               ParseItems(StringifyItems(items) + ([RBRACKET] + rest)) == Some(Parsed(items, rest))
    ensures ParseValue(Stringify(Arr(items)) + rest) == Some(Parsed(Arr(items), rest))
  {
    if items == [] {
      var t := Stringify(Arr(items)) + rest;
      assert Stringify(Arr(items)) == [LBRACKET, RBRACKET];
      assert t[0] == LBRACKET && t[1] == RBRACKET && t[2..] == rest;
    } else {
      hide ParseItems, ParseValue, StringifyItems;
      var body := StringifyItems(items);
      ItemsHead(items);
      WrappedReads(LBRACKET, body, RBRACKET, rest);
      Assoc(body, [RBRACKET], rest);
      ArrayDispatch([LBRACKET] + body + [RBRACKET] + rest);
    }
  }

  lemma FieldsHead(fields: seq<Field>)
    requires fields != []
    ensures StringifyFields(fields) != [] && StringifyFields(fields)[0] == QUOTE
  {
  }

  lemma WrappedReads(open: Unit, body: Text, close: Unit, rest: Text)
    requires body != []
    ensures ([open] + body + [close] + rest)[1..] == body + [close] + rest
    ensures ([open] + body + [close] + rest)[0] == open
    ensures ([open] + body + [close] + rest)[1] == body[0]
  {
  }

  lemma ObjectDispatch(t: Text)
    requires |t| > 1 && t[0] == LBRACE && t[1] != RBRACE
    requires ParseFields(t[1..]).Some?
    ensures ParseValue(t) == Some(Parsed(Obj(ParseFields(t[1..]).value.value), ParseFields(t[1..]).value.rest))
  {
    hide ParseItems, ParseFields;
  }

  lemma ObjectReads(fields: seq<Field>, rest: Text)
    requires fields != [] ==>
               ParseFields(StringifyFields(fields) + ([RBRACE] + rest)) == Some(Parsed(fields, rest))
    ensures ParseValue(Stringify(Obj(fields)) + rest) == Some(Parsed(Obj(fields), rest))
  {
    if fields == [] {
      var t := Stringify(Obj(fields)) + rest;
      assert Stringify(Obj(fields)) == [LBRACE, RBRACE];
      assert t[0] == LBRACE && t[1] == RBRACE && t[2..] == rest;
    } else {
      hide ParseFields, ParseValue, StringifyFields;
      var body := StringifyFields(fields);
      FieldsHead(fields);
      WrappedReads(LBRACE, body, RBRACE, rest);
      Assoc(body, [RBRACE], rest);
      ObjectDispatch([LBRACE] + body + [RBRACE] + rest);
    }
  }

  lemma {:induction false} StringifyReads(j: Json, rest: Text)
    requires rest == [] || !IsNumUnit(rest[0])
    ensures ParseValue(Stringify(j) + rest) == Some(Parsed(j, rest))
    decreases j, 1
  {
    hide ParseItems, ParseFields, ParseValue, StringifyItems, StringifyFields;
    match j
    case Null => LiteralReads(j, rest);
    case Bool(_) => LiteralReads(j, rest);
    case Num(lit) => NumberReads(lit, rest);
    case Str(s) => StringReads(s, rest);
    case Arr(items) =>
      if items != [] {
        ItemsRead(items, rest);
      }
      ArrayReads(items, rest);
    case Obj(fields) =>
      if fields != [] {
        FieldsRead(fields, rest);
      }
      ObjectReads(fields, rest);
  }

  /** What `ParseItems` does once a value has been read. */
  lemma ItemReads(j: Json, tail: Text)
    requires ParseValue(Stringify(j) + tail) == Some(Parsed(j, tail))
    requires tail != []
    ensures tail[0] == RBRACKET ==> ParseItems(Stringify(j) + tail) == Some(Parsed([j], tail[1..]))
    ensures tail[0] == COMMA && ParseItems(tail[1..]).Some? ==>
              var q := ParseItems(tail[1..]).value;
              ParseItems(Stringify(j) + tail) == Some(Parsed([j] + q.value, q.rest))
  {
  }

  lemma ItemsText(items: seq<Json>, rest: Text)
    requires items != []
    ensures var tail := if |items| == 1 then [RBRACKET] + rest
                        else [COMMA] + (StringifyItems(items[1..]) + ([RBRACKET] + rest));
            StringifyItems(items) + ([RBRACKET] + rest) == Stringify(items[0]) + tail
  {
    if |items| > 1 {
      Assoc(Stringify(items[0]) + [COMMA], StringifyItems(items[1..]), [RBRACKET] + rest);
      Assoc(Stringify(items[0]), [COMMA], StringifyItems(items[1..]) + ([RBRACKET] + rest));
    }
  }

  lemma {:induction false} ItemsRead(items: seq<Json>, rest: Text)
    requires items != []
    ensures ParseItems(StringifyItems(items) + ([RBRACKET] + rest)) == Some(Parsed(items, rest))
    decreases items, 0
  {
    hide ParseItems, ParseValue, Stringify, StringifyItems;
    var inner := StringifyItems(items[1..]) + ([RBRACKET] + rest);
    var tail := if |items| == 1 then [RBRACKET] + rest else [COMMA] + inner;
    ItemsText(items, rest);
    StringifyReads(items[0], tail);
    ItemReads(items[0], tail);
    if |items| == 1 {
      assert tail[1..] == rest && items == [items[0]];
    } else {
      ItemsRead(items[1..], rest);
      assert tail[1..] == inner;
      assert items == [items[0]] + items[1..];
    }
  }

  /** What `ParseFields` does once a key and its value have been read. */
  lemma FieldReads(f: Field, t: Text, tail: Text)
    requires t == Quote(f.key) + ([COLON] + (Stringify(f.value) + tail))
    requires ParseValue(Stringify(f.value) + tail) == Some(Parsed(f.value, tail))
    requires tail != []
    ensures tail[0] == RBRACE ==> ParseFields(t) == Some(Parsed([f], tail[1..]))
    ensures tail[0] == COMMA && ParseFields(tail[1..]).Some? ==>
              var q := ParseFields(tail[1..]).value;
              ParseFields(t) == Some(Parsed([f] + q.value, q.rest))
  {
    var afterKey := [COLON] + (Stringify(f.value) + tail);
    QuotedReads(f.key, afterKey);
    assert afterKey[1..] == Stringify(f.value) + tail;
  }

  lemma FieldsText(fields: seq<Field>, rest: Text)
    requires fields != []
    ensures var f := fields[0];
            var tail := if |fields| == 1 then [RBRACE] + rest
                        else [COMMA] + (StringifyFields(fields[1..]) + ([RBRACE] + rest));
            StringifyFields(fields) + ([RBRACE] + rest) == Quote(f.key) + ([COLON] + (Stringify(f.value) + tail))
  {
    var f := fields[0];
    var q, v := Quote(f.key), Stringify(f.value);
    if |fields| == 1 {
      SplitField(q, v, [], [RBRACE] + rest);
      assert q + [COLON] + v + [] == q + [COLON] + v;
    } else {
      var more := [COMMA] + StringifyFields(fields[1..]);
      SplitField(q, v, more, [RBRACE] + rest);
      Assoc(q + [COLON] + v, [COMMA], StringifyFields(fields[1..]));
      Assoc([COMMA], StringifyFields(fields[1..]), [RBRACE] + rest);
    }
  }

  lemma SplitField(q: Text, v: Text, more: Text, tail: Text)
    ensures (q + [COLON] + v + more) + tail == q + ([COLON] + (v + (more + tail)))
    ensures [] + tail == tail
  {
  }

  lemma {:induction false} FieldsRead(fields: seq<Field>, rest: Text)
    requires fields != []
    ensures ParseFields(StringifyFields(fields) + ([RBRACE] + rest)) == Some(Parsed(fields, rest))
    decreases fields, 0
  {
    hide ParseFields, ParseValue, Stringify, StringifyFields, Quote;
    var inner := StringifyFields(fields[1..]) + ([RBRACE] + rest);
    var tail := if |fields| == 1 then [RBRACE] + rest else [COMMA] + inner;
    FieldsText(fields, rest);
    StringifyReads(fields[0].value, tail);
    FieldReads(fields[0], StringifyFields(fields) + ([RBRACE] + rest), tail);
    if |fields| == 1 {
      assert tail[1..] == rest && fields == [fields[0]];
    } else {
      FieldsRead(fields[1..], rest);
      assert tail[1..] == inner;
      assert fields == [fields[0]] + fields[1..];
    }
  }

  /** `JSON.parse` undoes `JSON.stringify`, key order included. */
  lemma ParseUndoesStringify(j: Json)
    ensures Parse(Stringify(j)) == Some(j)
  {
    StringifyReads(j, []);
    assert Stringify(j) + [] == Stringify(j);
  }

  // ------------------------------------------------------------ sorting of keys

  function Keys<T>(xs: seq<Part<T>>): (r: seq<Text>)
    ensures |r| == |xs| && forall i | 0 <= i < |r| :: r[i] == xs[i].key
  {
    seq(|xs|, i requires 0 <= i < |xs| => xs[i].key)
  }

  ghost predicate DistinctKeys<T>(xs: seq<Part<T>>) {
    forall i, k | 0 <= i < k < |xs| :: xs[i].key != xs[k].key
  }

  ghost predicate Ascending<T>(xs: seq<Part<T>>) {
    forall i, k | 0 <= i < k < |xs| :: Less(xs[i].key, xs[k].key)
  }

  lemma {:induction false} InsertKeepsElements<T>(x: Part<T>, xs: seq<Part<T>>)
    ensures multiset(Insert(x, xs)) == multiset{x} + multiset(xs)
    ensures |Insert(x, xs)| == |xs| + 1
  {
    if xs == [] || Less(x.key, xs[0].key) {
    } else {
      InsertKeepsElements(x, xs[1..]);
      assert xs == [xs[0]] + xs[1..];
    }
  }

  lemma AscendingCons<T>(x: Part<T>, xs: seq<Part<T>>)
    requires Ascending(xs) && forall i | 0 <= i < |xs| :: Less(x.key, xs[i].key)
    ensures Ascending([x] + xs)
  {
  }

  lemma {:induction false} InsertKeepsOrder<T>(x: Part<T>, xs: seq<Part<T>>)
    requires Ascending(xs) && forall i | 0 <= i < |xs| :: xs[i].key != x.key
    ensures Ascending(Insert(x, xs))
  {
    if xs == [] {
    } else if Less(x.key, xs[0].key) {
      forall i | 0 < i < |xs|
        ensures Less(x.key, xs[i].key)
      {
        LessIsTransitive(x.key, xs[0].key, xs[i].key);
      }
      AscendingCons(x, xs);
    } else {
      var rest := Insert(x, xs[1..]);
      InsertKeepsOrder(x, xs[1..]);
      InsertKeepsElements(x, xs[1..]);
      LessIsTotal(x.key, xs[0].key);
      forall i | 0 <= i < |rest|
        ensures Less(xs[0].key, rest[i].key)
      {
        assert rest[i] in multiset(rest);
      }
      AscendingCons(xs[0], rest);
    }
  }

  lemma {:induction false} SortByKeyKeepsElements<T>(xs: seq<Part<T>>)
    ensures multiset(SortByKey(xs)) == multiset(xs)
    ensures |SortByKey(xs)| == |xs|
  {
    if xs != [] {
      SortByKeyKeepsElements(xs[1..]);
      InsertKeepsElements(xs[0], SortByKey(xs[1..]));
      assert xs == [xs[0]] + xs[1..];
    }
  }

  lemma {:induction false} SortByKeySorts<T>(xs: seq<Part<T>>)
    requires DistinctKeys(xs)
    ensures Ascending(SortByKey(xs))
  {
    if xs != [] {
      var sorted := SortByKey(xs[1..]);
      SortByKeySorts(xs[1..]);
      SortByKeyKeepsElements(xs[1..]);
      forall i | 0 <= i < |sorted|
        ensures sorted[i].key != xs[0].key
      {
        assert sorted[i] in multiset(sorted);
        assert sorted[i] in xs[1..];
      }
      InsertKeepsOrder(xs[0], sorted);
    }
  }

  lemma MemberIndex<T>(xs: seq<T>, ys: seq<T>, i: nat) returns (k: nat)
    requires multiset(xs) == multiset(ys) && i < |xs|
    ensures k < |ys| && ys[k] == xs[i]
  {
    assert xs[i] in multiset(xs);
    k :| 0 <= k < |ys| && ys[k] == xs[i];
  }

  lemma AscendingHead<T>(xs: seq<Part<T>>, ys: seq<Part<T>>)
    requires Ascending(xs) && Ascending(ys) && multiset(xs) == multiset(ys) && xs != [] && ys != []
    ensures xs[0] == ys[0]
  {
    var k := MemberIndex(xs, ys, 0);
    var i := MemberIndex(ys, xs, 0);
    LessIsAsymmetric(xs[0].key, ys[0].key);
  }

  lemma TailElements<T>(xs: seq<T>)
    requires xs != []
    ensures multiset(xs[1..]) == multiset(xs) - multiset{xs[0]}
  {
    assert xs == [xs[0]] + xs[1..];
  }

  /** There is only one way to list a set of elements in strictly ascending key order. */
  lemma {:induction false} AscendingIsUnique<T>(xs: seq<Part<T>>, ys: seq<Part<T>>)
    requires Ascending(xs) && Ascending(ys)
    requires multiset(xs) == multiset(ys)
    ensures xs == ys
  {
    assert |xs| == |multiset(xs)| == |multiset(ys)| == |ys|;
    if xs != [] {
      AscendingHead(xs, ys);
      TailElements(xs);
      TailElements(ys);
      AscendingIsUnique(xs[1..], ys[1..]);
      assert xs == [xs[0]] + xs[1..] && ys == [ys[0]] + ys[1..];
    }
  }

  // ------------------------------------------------------ printing in key order

  /** The value with the keys of every object in order: what `stableStringify` prints. */
  function Ordered(j: Json): Json
    decreases j
  {
    match j
    case Arr(items) => Arr(OrderItems(items))
    case Obj(fields) => Obj(AsFields(SortByKey(OrderedParts(fields))))
    case _ => j
  }

  function OrderItems(items: seq<Json>): (r: seq<Json>)
    ensures |r| == |items|
    decreases items
  {
    if items == [] then [] else [Ordered(items[0])] + OrderItems(items[1..])
  }

  function OrderedParts(fields: seq<Field>): (r: seq<Part<Json>>)
    ensures |r| == |fields|
    decreases fields
  {
    if fields == [] then [] else [Part(fields[0].key, Ordered(fields[0].value))] + OrderedParts(fields[1..])
  }

  function AsFields(parts: seq<Part<Json>>): (r: seq<Field>)
    ensures |r| == |parts|
    ensures forall i | 0 <= i < |r| :: r[i] == Field(parts[i].key, parts[i].content)
  {
    if parts == [] then [] else [Field(parts[0].key, parts[0].content)] + AsFields(parts[1..])
  }

  function MapParts<T>(f: Json -> T, parts: seq<Part<Json>>): (r: seq<Part<T>>)
    ensures |r| == |parts|
  {
    if parts == [] then []
    else [Part(parts[0].key, f(parts[0].content))] + MapParts(f, parts[1..])
  }

  /** Changing the contents and inserting commute, as insertion only looks at keys. */
  lemma {:induction false} InsertCommutes<T>(f: Json -> T, x: Part<Json>, xs: seq<Part<Json>>)
    ensures MapParts(f, Insert(x, xs)) == Insert(Part(x.key, f(x.content)), MapParts(f, xs))
  {
    if xs == [] || Less(x.key, xs[0].key) {
      assert ([x] + xs)[1..] == xs;
    } else {
      InsertCommutes(f, x, xs[1..]);
      assert ([xs[0]] + Insert(x, xs[1..]))[1..] == Insert(x, xs[1..]);
    }
  }

  lemma {:induction false} SortCommutes<T>(f: Json -> T, parts: seq<Part<Json>>)
    ensures MapParts(f, SortByKey(parts)) == SortByKey(MapParts(f, parts))
  {
    if parts != [] {
      SortCommutes(f, parts[1..]);
      InsertCommutes(f, parts[0], SortByKey(parts[1..]));
    }
  }

  lemma {:induction false} JoinIsStringifyFields(parts: seq<Part<Json>>)
    ensures JoinParts(MapParts(Stringify, parts)) == StringifyFields(AsFields(parts))
  {
    if |parts| > 1 {
      JoinIsStringifyFields(parts[1..]);
      assert AsFields(parts)[1..] == AsFields(parts[1..]);
    }
  }

  /** `stableStringify` prints the value with its keys in order. */
  lemma {:induction false} StableIsStringifyOfOrdered(j: Json)
    ensures StableStringify(j) == Stringify(Ordered(j))
    decreases j, 1
  {
    match j
    case Arr(items) =>
      StableItemsOrdered(items);
    case Obj(fields) =>
      StablePartsOrdered(fields);
      SortCommutes(Stringify, OrderedParts(fields));
      JoinIsStringifyFields(SortByKey(OrderedParts(fields)));
    case _ =>
  }

  lemma {:induction false} StableItemsOrdered(items: seq<Json>)
    ensures StableItems(items) == StringifyItems(OrderItems(items))
    decreases items, 0
  {
    if items != [] {
      StableIsStringifyOfOrdered(items[0]);
      StableItemsOrdered(items[1..]);
      assert OrderItems(items)[1..] == OrderItems(items[1..]);
    }
  }

  lemma {:induction false} StablePartsOrdered(fields: seq<Field>)
    ensures StableParts(fields) == MapParts(Stringify, OrderedParts(fields))
    decreases fields, 0
  {
    if fields != [] {
      StableIsStringifyOfOrdered(fields[0].value);
      StablePartsOrdered(fields[1..]);
      assert OrderedParts(fields)[1..] == OrderedParts(fields[1..]);
    }
  }

  // ------------------------------------------ sorted forms decide equality up to key order

  lemma {:induction false} OrderItemsAt(items: seq<Json>, i: nat)
    requires i < |items|
    ensures OrderItems(items)[i] == Ordered(items[i])
  {
    if i > 0 {
      OrderItemsAt(items[1..], i - 1);
    }
  }

  lemma {:induction false} OrderedPartsAt(fields: seq<Field>, i: nat)
    requires i < |fields|
    ensures OrderedParts(fields)[i] == Part(fields[i].key, Ordered(fields[i].value))
  {
    if i > 0 {
      OrderedPartsAt(fields[1..], i - 1);
    }
  }

  lemma OrderedPartsDistinct(j: Json)
    requires j.Obj? && WellFormed(j)
    ensures DistinctKeys(OrderedParts(j.fields))
  {
    var parts := OrderedParts(j.fields);
    forall i, k | 0 <= i < k < |parts|
      ensures parts[i].key != parts[k].key
    {
      OrderedPartsAt(j.fields, i);
      OrderedPartsAt(j.fields, k);
    }
  }

  ghost function Elements<T>(xs: seq<T>): set<T> {
    set x | x in xs
  }

  lemma {:induction false} DistinctCount<T>(xs: seq<Part<T>>)
    requires DistinctKeys(xs)
    ensures |Elements(xs)| == |xs|
    ensures multiset(xs) == multiset(Elements(xs))
  {
    if xs != [] {
      DistinctCount(xs[1..]);
      assert xs == [xs[0]] + xs[1..];
      assert xs[0] !in Elements(xs[1..]);
      assert Elements(xs) == {xs[0]} + Elements(xs[1..]);
    }
  }

  lemma SubsetOfSameSize<T>(a: set<T>, b: set<T>)
    requires a <= b && |a| == |b|
    ensures a == b
  {
    assert |b - a| == 0;
    assert b == a + (b - a);
  }

  /** Lists with distinct keys hold the same elements as soon as one contains the other and the lengths agree. */
  lemma ContainedPartsSortAlike<T>(xs: seq<Part<T>>, ys: seq<Part<T>>)
    requires DistinctKeys(xs) && DistinctKeys(ys) && |xs| == |ys|
    requires forall i | 0 <= i < |xs| :: xs[i] in ys
    ensures SortByKey(xs) == SortByKey(ys)
  {
    DistinctCount(xs);
    DistinctCount(ys);
    SubsetOfSameSize(Elements(xs), Elements(ys));
    SortByKeyKeepsElements(xs);
    SortByKeyKeepsElements(ys);
    SortByKeySorts(xs);
    SortByKeySorts(ys);
    AscendingIsUnique(SortByKey(xs), SortByKey(ys));
  }

  lemma {:induction false} SameOrdersAlike(a: Json, b: Json)
    requires WellFormed(a) && WellFormed(b) && Same(a, b)
    ensures Ordered(a) == Ordered(b)
    decreases a
  {
    match a
    case Arr(xs) =>
      forall i | 0 <= i < |xs|
        ensures OrderItems(xs)[i] == OrderItems(b.items)[i]
      {
        OrderItemsAt(xs, i);
        OrderItemsAt(b.items, i);
        SameOrdersAlike(xs[i], b.items[i]);
      }
    case Obj(fs) =>
      var ps, qs := OrderedParts(fs), OrderedParts(b.fields);
      forall i | 0 <= i < |ps|
        ensures ps[i] in qs
      {
        assert HasSame(fs[i], b.fields);
        var k :| 0 <= k < |b.fields| && fs[i].key == b.fields[k].key && Same(fs[i].value, b.fields[k].value);
        SameOrdersAlike(fs[i].value, b.fields[k].value);
        OrderedPartsAt(fs, i);
        OrderedPartsAt(b.fields, k);
        assert qs[k] == ps[i];
      }
      OrderedPartsDistinct(a);
      OrderedPartsDistinct(b);
      ContainedPartsSortAlike(ps, qs);
    case _ =>
  }

  lemma {:induction false} AsFieldsInjective(xs: seq<Part<Json>>, ys: seq<Part<Json>>)
    requires AsFields(xs) == AsFields(ys)
    ensures xs == ys
  {
    assert |xs| == |ys|;
    forall i | 0 <= i < |xs|
      ensures xs[i] == ys[i]
    {
      assert AsFields(xs)[i] == AsFields(ys)[i];
    }
  }

  lemma SortedAlikeShareParts<T>(ps: seq<Part<T>>, qs: seq<Part<T>>)
    requires SortByKey(ps) == SortByKey(qs)
    ensures |ps| == |qs| && forall i | 0 <= i < |ps| :: ps[i] in qs
  {
    SortByKeyKeepsElements(ps);
    SortByKeyKeepsElements(qs);
    forall i | 0 <= i < |ps|
      ensures ps[i] in qs
    {
      assert ps[i] in multiset(ps);
    }
  }

  /** The sorted form keeps the kind of value. */
  lemma OrderedKind(a: Json, b: Json)
    requires Ordered(a) == Ordered(b)
    ensures a.Arr? <==> b.Arr?
    ensures a.Obj? <==> b.Obj?
    ensures !a.Arr? && !a.Obj? ==> a == b
    ensures a.Arr? ==> OrderItems(a.items) == OrderItems(b.items)
    ensures a.Obj? ==> SortByKey(OrderedParts(a.fields)) == SortByKey(OrderedParts(b.fields))
  {
    if a.Obj? && b.Obj? {
      AsFieldsInjective(SortByKey(OrderedParts(a.fields)), SortByKey(OrderedParts(b.fields)));
    }
  }

  lemma {:induction false} OrderedAlikeAreSame(a: Json, b: Json)
    requires Ordered(a) == Ordered(b)
    ensures Same(a, b)
    decreases a
  {
    OrderedKind(a, b);
    match a
    case Arr(xs) =>
      forall i | 0 <= i < |xs|
        ensures |xs| == |b.items| && Same(xs[i], b.items[i])
      {
        assert |OrderItems(xs)| == |xs| && |OrderItems(b.items)| == |b.items|;
        OrderItemsAt(xs, i);
        OrderItemsAt(b.items, i);
        OrderedAlikeAreSame(xs[i], b.items[i]);
      }
      assert |OrderItems(xs)| == |xs| && |OrderItems(b.items)| == |b.items|;
    case Obj(fs) =>
      var ps, qs := OrderedParts(fs), OrderedParts(b.fields);
      SortedAlikeShareParts(ps, qs);
      forall i | 0 <= i < |fs|
        ensures HasSame(fs[i], b.fields)
      {
        var k :| 0 <= k < |qs| && qs[k] == ps[i];
        OrderedPartsAt(fs, i);
        OrderedPartsAt(b.fields, k);
        OrderedAlikeAreSame(fs[i].value, b.fields[k].value);
      }
    case _ =>
  }

  lemma {:induction false} SameIsReflexive(j: Json)
    ensures Same(j, j)
    decreases j
  {
    match j
    case Arr(items) =>
      forall i | 0 <= i < |items|
        ensures Same(items[i], items[i])
      {
        SameIsReflexive(items[i]);
      }
    case Obj(fields) =>
      forall i | 0 <= i < |fields|
        ensures HasSame(fields[i], fields)
      {
        SameIsReflexive(fields[i].value);
      }
    case _ =>
  }

  /** The canonical text decides equality up to key order: it neither merges nor splits values. */
  lemma CanonicalTextIsExact(a: Json, b: Json)
    requires WellFormed(a) && WellFormed(b)
    ensures StableStringify(a) == StableStringify(b) <==> Same(a, b)
  {
    StableIsStringifyOfOrdered(a);
    StableIsStringifyOfOrdered(b);
    if Same(a, b) {
      SameOrdersAlike(a, b);
    }
    if StableStringify(a) == StableStringify(b) {
      ParseUndoesStringify(Ordered(a));
      ParseUndoesStringify(Ordered(b));
      OrderedAlikeAreSame(a, b);
    }
  }

  /** Every field of an object has its sorted counterpart among the sorted fields. */
  lemma OrderedFieldOf(fields: seq<Field>, i: nat) returns (k: nat)
    requires i < |fields|
    ensures var sorted := AsFields(SortByKey(OrderedParts(fields)));
            |sorted| == |fields| && k < |sorted| && sorted[k] == Field(fields[i].key, Ordered(fields[i].value))
  {
    var ps := OrderedParts(fields);
    SortByKeyKeepsElements(ps);
    OrderedPartsAt(fields, i);
    k := MemberIndex(ps, SortByKey(ps), i);
  }

  lemma {:induction false} SameAsOrdered(j: Json)
    ensures Same(j, Ordered(j))
    decreases j
  {
    match j
    case Arr(items) =>
      forall i | 0 <= i < |items|
        ensures Same(items[i], OrderItems(items)[i])
      {
        OrderItemsAt(items, i);
        SameAsOrdered(items[i]);
      }
    case Obj(fields) =>
      var sorted := AsFields(SortByKey(OrderedParts(fields)));
      if fields != [] {
        var _ := OrderedFieldOf(fields, 0);
      }
      forall i | 0 <= i < |fields|
        ensures HasSame(fields[i], sorted)
      {
        var k := OrderedFieldOf(fields, i);
        SameAsOrdered(fields[i].value);
      }
    case _ =>
  }

  /** Reading the canonical text back gives the value itself, up to key order. */
  lemma CanonicalTextParsesBack(j: Json)
    ensures Parse(StableStringify(j)).Some? && Same(j, Parse(StableStringify(j)).value)
  {
    StableIsStringifyOfOrdered(j);
    ParseUndoesStringify(Ordered(j));
    SameAsOrdered(j);
  }

  // -------------------------------------------------------- what the text looks like

  /** The keys of every object, at every level, come in the order of their UTF-16 units. */
  ghost predicate KeysAscend(j: Json) {
    match j
    case Arr(items) => forall i | 0 <= i < |items| :: KeysAscend(items[i])
    case Obj(fields) =>
      && (forall i | 0 <= i < |fields| :: KeysAscend(fields[i].value))
      && (forall i, k | 0 <= i < k < |fields| :: ComesBefore(fields[i].key, fields[k].key))
    case _ => true
  }

  lemma {:induction false} OrderedAscends(j: Json)
    requires WellFormed(j)
    ensures KeysAscend(Ordered(j))
    decreases j
  {
    match j
    case Arr(items) =>
      forall i | 0 <= i < |items|
        ensures KeysAscend(OrderItems(items)[i])
      {
        OrderItemsAt(items, i);
        OrderedAscends(items[i]);
      }
    case Obj(fields) =>
      OrderedPartsDistinct(j);
      var parts := OrderedParts(fields);
      forall i | 0 <= i < |fields|
        ensures KeysAscend(parts[i].content)
      {
        OrderedPartsAt(fields, i);
        OrderedAscends(fields[i].value);
      }
      AscendingObject(parts);
    case _ =>
  }

  lemma AscendingObject(parts: seq<Part<Json>>)
    requires DistinctKeys(parts) && forall i | 0 <= i < |parts| :: KeysAscend(parts[i].content)
    ensures KeysAscend(Obj(AsFields(SortByKey(parts))))
  {
    hide Less, ComesBefore;
    SortByKeyKeepsElements(parts);
    SortByKeySorts(parts);
    var sorted := SortByKey(parts);
    forall i | 0 <= i < |sorted|
      ensures KeysAscend(sorted[i].content)
    {
      assert sorted[i] in multiset(sorted);
      assert sorted[i] in parts;
    }
    forall i, k | 0 <= i < k < |sorted|
      ensures ComesBefore(sorted[i].key, sorted[k].key)
    {
      LessIff(sorted[i].key, sorted[k].key);
    }
  }

  /**
   The canonical text is what `JSON.stringify` prints of the value equal to the given one up to key order whose keys
   come, in every object, in the order of their UTF-16 units.
   */
  lemma CanonicalTextAscends(j: Json) returns (k: Json)
    requires WellFormed(j)
    ensures StableStringify(j) == Stringify(k) && Same(j, k) && KeysAscend(k)
  {
    k := Ordered(j);
    StableIsStringifyOfOrdered(j);
    SameAsOrdered(j);
    OrderedAscends(j);
  }

  /** The characters of JSON text by name. */
  lemma CharacterCodes()
    ensures Ascii("\"#,:@[\\]{}")
            == [QUOTE, HASH_SIGN, COMMA, COLON, AT_SIGN, LBRACKET, BACKSLASH, RBRACKET, LBRACE, RBRACE]
    ensures Ascii("null") == NULL_TEXT && Ascii("true") == TRUE_TEXT && Ascii("false") == FALSE_TEXT
    ensures Ascii("__proto__") == PROTO
  {
  }

  /** A unit that stands for itself in a printed string. */
  predicate IsRaw(u: Unit) {
    u >= 32 && u != QUOTE && u != BACKSLASH && !(0xD800 <= u <= 0xDFFF)
  }

  /** The letter of a two-character escape. */
  function EscapeLetter(u: Unit): Option<char> {
    if u == QUOTE then Some('"') else if u == BACKSLASH then Some('\\')
    else if u == 8 then Some('b') else if u == 9 then Some('t') else if u == 10 then Some('n')
    else if u == 12 then Some('f') else if u == 13 then Some('r')
    else None
  }

  /**
   Quotation mark, backslash and the five control characters with a letter are escaped by it, all other control
   characters and lone surrogates by four lower-case hexadecimal digits, and everything else stands for itself.
   */
  lemma EscapesAreThose(u: Unit)
    ensures IsRaw(u) <==> EscapeUnit(u) == [u]
    ensures EscapeLetter(u).Some? ==> EscapeUnit(u) == [BACKSLASH, EscapeLetter(u).value as int as Unit]
    ensures !IsRaw(u) && EscapeLetter(u).None? ==>
              var e := EscapeUnit(u);
              && |e| == 6 && e[0] == BACKSLASH && e[1] == 'u' as int as Unit
              && (forall i | 2 <= i < 6 :: 48 <= e[i] <= 57 || 97 <= e[i] <= 102)
              && var (a, b, c, d) := (HexValue(e[2]).value, HexValue(e[3]).value, HexValue(e[4]).value,
                                      HexValue(e[5]).value);
                 a * 4096 + b * 256 + c * 16 + d == u as int
  {
    var n := u as int;
    HexDigitRoundTrip(n / 4096);
    HexDigitRoundTrip(n / 256 % 16);
    HexDigitRoundTrip(n / 16 % 16);
    HexDigitRoundTrip(n % 16);
    FourDigits(n);
  }

  /** A surrogate pair stands for itself. */
  lemma PairsStayRaw(u: Unit, v: Unit, s: Text)
    requires 0xD800 <= u <= 0xDBFF && 0xDC00 <= v <= 0xDFFF
    ensures Escape([u, v] + s) == [u, v] + Escape(s)
  {
    assert ([u, v] + s)[2..] == s;
  }

  // ------------------------------------------------------------------ records

  ghost predicate DistinctFieldKeys(fs: seq<Field>) {
    forall i, k | 0 <= i < k < |fs| :: fs[i].key != fs[k].key
  }

  /** Place by place, equal keys and equal values. */
  ghost predicate AllSame(fs: seq<Field>, gs: seq<Field>) {
    |fs| == |gs| && forall i | 0 <= i < |fs| :: fs[i].key == gs[i].key && Same(fs[i].value, gs[i].value)
  }

  lemma AllSameConcat(fs: seq<Field>, gs: seq<Field>, fs': seq<Field>, gs': seq<Field>)
    requires |fs| == |gs|
    ensures AllSame(fs + fs', gs + gs') <==> AllSame(fs, gs) && AllSame(fs', gs')
  {
    if AllSame(fs + fs', gs + gs') {
      forall i | 0 <= i < |fs|
        ensures fs[i].key == gs[i].key && Same(fs[i].value, gs[i].value)
      {
        assert (fs + fs')[i] == fs[i] && (gs + gs')[i] == gs[i];
      }
      forall i | 0 <= i < |fs'|
        ensures fs'[i].key == gs'[i].key && Same(fs'[i].value, gs'[i].value)
      {
        assert (fs + fs')[|fs| + i] == fs'[i] && (gs + gs')[|fs| + i] == gs'[i];
      }
    }
  }

  lemma SameByPosition(a: Json, b: Json)
    requires a.Obj? && b.Obj? && AllSame(a.fields, b.fields)
    ensures Same(a, b)
  {
    forall i | 0 <= i < |a.fields|
      ensures HasSame(a.fields[i], b.fields)
    {
      assert a.fields[i].key == b.fields[i].key && Same(a.fields[i].value, b.fields[i].value);
    }
  }

  lemma SameAtKey(f: Field, gs: seq<Field>, i: nat)
    requires i < |gs| && f.key == gs[i].key && DistinctFieldKeys(gs) && HasSame(f, gs)
    ensures Same(f.value, gs[i].value)
  {
    var k :| 0 <= k < |gs| && f.key == gs[k].key && Same(f.value, gs[k].value);
    assert gs[i].key == gs[k].key;
  }

  /** Objects with the same keys in the same places are compared place by place. */
  lemma SameRecords(a: Json, b: Json)
    requires a.Obj? && b.Obj? && |a.fields| == |b.fields|
    requires forall i | 0 <= i < |a.fields| :: a.fields[i].key == b.fields[i].key
    requires DistinctFieldKeys(b.fields)
    ensures Same(a, b) <==> AllSame(a.fields, b.fields)
  {
    if AllSame(a.fields, b.fields) {
      SameByPosition(a, b);
    }
    if Same(a, b) {
      forall i | 0 <= i < |a.fields|
        ensures Same(a.fields[i].value, b.fields[i].value)
      {
        assert HasSame(a.fields[i], b.fields);
        SameAtKey(a.fields[i], b.fields, i);
      }
    }
  }

  lemma SameStr(x: Text, y: Text)
    ensures Same(Str(x), Str(y)) <==> x == y
  {
  }

  /** Records with five given keys, compared value by value. */
  lemma FiveSame(fs: seq<Field>, gs: seq<Field>)
    requires |fs| == |gs| == 5 && forall i | 0 <= i < 5 :: fs[i].key == gs[i].key
    ensures AllSame(fs, gs) <==>
            && Same(fs[0].value, gs[0].value) && Same(fs[1].value, gs[1].value) && Same(fs[2].value, gs[2].value)
            && Same(fs[3].value, gs[3].value) && Same(fs[4].value, gs[4].value)
  {
  }
}
