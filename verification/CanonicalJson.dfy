/**
 The canonical encoder of `canonical-json.ts` and the two-step encoder of `enforcement.ts`
 (`JSON.stringify(sortKeysDeep(x))`), together with a parser that undoes them.
 */
module CanonicalJson {
  import opened Texts

  // ---------------------------------------------------------------- values

  predicate IsNumUnit(u: Unit) {
    48 <= u <= 57 || u == 43 || u == 45 || u == 46 || u == 69 || u == 101   // 0-9 + - . E e
  }

  predicate IsNumText(t: Text) {
    t != [] && forall i | 0 <= i < |t| :: IsNumUnit(t[i])
  }

  /** A finite number, carried as the text `JSON.stringify` gives it. */
  type NumLit = t: Text | IsNumText(t) witness [48]

  datatype Json =
    | Null
    | Bool(b: bool)
    | Num(lit: NumLit)
    | Str(s: Text)
    | Arr(items: seq<Json>)
    | Obj(fields: seq<Field>)      // own keys, in insertion order

  datatype Field = Field(key: Text, value: Json)

  /** A JavaScript object never holds one key twice. */
  ghost predicate WellFormed(j: Json) {
    match j
    case Arr(items) => forall i | 0 <= i < |items| :: WellFormed(items[i])
    case Obj(fields) =>
      && (forall i | 0 <= i < |fields| :: WellFormed(fields[i].value))
      && (forall i, k | 0 <= i < k < |fields| :: fields[i].key != fields[k].key)
    case _ => true
  }

  /** Equal values, where the order of keys does not matter at any level. */
  ghost predicate Same(a: Json, b: Json)
    decreases a
  {
    match a
    case Arr(xs) => b.Arr? && |xs| == |b.items| && forall i | 0 <= i < |xs| :: Same(xs[i], b.items[i])
    case Obj(fs) =>
      && b.Obj? && |fs| == |b.fields|
      && forall i | 0 <= i < |fs| :: HasSame(fs[i], b.fields)
    case _ => a == b
  }

  ghost predicate HasSame(f: Field, gs: seq<Field>)
    decreases f
  {
    exists k | 0 <= k < |gs| :: f.key == gs[k].key && Same(f.value, gs[k].value)
  }

  /** `Boolean(x)` */
  predicate IsTruthy(j: Json) {
    match j
    case Null => false
    case Bool(b) => b
    case Num(lit) => lit != [48]
    case Str(s) => s != []
    case _ => true
  }

  // --------------------------------------------------------------- strings

  function HexDigit(d: nat): Unit
    requires d < 16
  {
    if d < 10 then (48 + d) as Unit else (87 + d) as Unit
  }

  function HexValue(u: Unit): Option<nat> {
    if 48 <= u <= 57 then Some(u as int - 48)
    else if 97 <= u <= 102 then Some(u as int - 87)
    else None
  }

  predicate IsHighSurrogate(u: Unit) { 0xD800 <= u <= 0xDBFF }

  predicate IsLowSurrogate(u: Unit) { 0xDC00 <= u <= 0xDFFF }

  function UnicodeEscape(u: Unit): Text {
    var n := u as int;
    [BACKSLASH, 117, HexDigit(n / 4096), HexDigit(n / 256 % 16), HexDigit(n / 16 % 16), HexDigit(n % 16)]
  }

  function EscapeUnit(u: Unit): Text {
    if u == QUOTE || u == BACKSLASH then [BACKSLASH, u]
    else if u == 8 then [BACKSLASH, 98]
    else if u == 9 then [BACKSLASH, 116]
    else if u == 10 then [BACKSLASH, 110]
    else if u == 12 then [BACKSLASH, 102]
    else if u == 13 then [BACKSLASH, 114]
    else if u < 32 || IsHighSurrogate(u) || IsLowSurrogate(u) then UnicodeEscape(u)
    else [u]
  }

  /** A surrogate pair is printed raw; a lone surrogate is escaped (well-formed JSON.stringify). */
  function Escape(s: Text): Text {
    if s == [] then []
    else if IsHighSurrogate(s[0]) && |s| > 1 && IsLowSurrogate(s[1]) then [s[0], s[1]] + Escape(s[2..])
    else EscapeUnit(s[0]) + Escape(s[1..])
  }

  function Quote(s: Text): Text {
    [QUOTE] + Escape(s) + [QUOTE]
  }

  // --------------------------------------------------------------- printers

  const NULL_TEXT: Text := [110, 117, 108, 108]
  const TRUE_TEXT: Text := [116, 114, 117, 101]
  const FALSE_TEXT: Text := [102, 97, 108, 115, 101]

  /** `JSON.stringify`: keys in insertion order. */
  function Stringify(j: Json): Text
    decreases j
  {
    match j
    case Null => NULL_TEXT
    case Bool(b) => if b then TRUE_TEXT else FALSE_TEXT
    case Num(lit) => lit
    case Str(s) => Quote(s)
    case Arr(items) => [LBRACKET] + StringifyItems(items) + [RBRACKET]
    case Obj(fields) => [LBRACE] + StringifyFields(fields) + [RBRACE]
  }

  function StringifyItems(items: seq<Json>): Text
    decreases items
  {
    if items == [] then []
    else if |items| == 1 then Stringify(items[0])
    else Stringify(items[0]) + [COMMA] + StringifyItems(items[1..])
  }

  function StringifyFields(fields: seq<Field>): Text
    decreases fields
  {
    if fields == [] then []
    else
      var first := Quote(fields[0].key) + [COLON] + Stringify(fields[0].value);
      if |fields| == 1 then first else first + [COMMA] + StringifyFields(fields[1..])
  }

  /** A keyed part of an object: either its value or its printed value. */
  datatype Part<T> = Part(key: Text, content: T)

  function Insert<T>(x: Part<T>, xs: seq<Part<T>>): seq<Part<T>> {
    if xs == [] || Less(x.key, xs[0].key) then [x] + xs
    else [xs[0]] + Insert(x, xs[1..])
  }

  /** `Object.keys(obj).sort()` followed by a lookup of each key. */
  function SortByKey<T>(xs: seq<Part<T>>): seq<Part<T>> {
    if xs == [] then [] else Insert(xs[0], SortByKey(xs[1..]))
  }

  function JoinParts(parts: seq<Part<Text>>): Text {
    if parts == [] then []
    else
      var first := Quote(parts[0].key) + [COLON] + parts[0].content;
      if |parts| == 1 then first else first + [COMMA] + JoinParts(parts[1..])
  }

  /** `stableStringify`: prints while sorting the keys of every object. */
  function StableStringify(j: Json): Text
    decreases j
  {
    match j
    case Null => NULL_TEXT
    case Bool(b) => if b then TRUE_TEXT else FALSE_TEXT
    case Num(lit) => lit
    case Str(s) => Quote(s)
    case Arr(items) => [LBRACKET] + StableItems(items) + [RBRACKET]
    case Obj(fields) => [LBRACE] + JoinParts(SortByKey(StableParts(fields))) + [RBRACE]
  }

  function StableItems(items: seq<Json>): Text
    decreases items
  {
    if items == [] then []
    else if |items| == 1 then StableStringify(items[0])
    else StableStringify(items[0]) + [COMMA] + StableItems(items[1..])
  }

  function StableParts(fields: seq<Field>): seq<Part<Text>>
    decreases fields
  {
    if fields == [] then []
    else [Part(fields[0].key, StableStringify(fields[0].value))] + StableParts(fields[1..])
  }

  const PROTO: Text := [95, 95, 112, 114, 111, 116, 111, 95, 95]   // __proto__

  /**
   `sortKeysDeep`: rebuilds the value with sorted keys and leaves printing to `JSON.stringify`. The new object is
   filled by assignments, and an assignment to `__proto__` sets its prototype instead of adding a key.
   */
  function SortKeysDeep(j: Json): Json
    decreases j
  {
    match j
    case Arr(items) => Arr(SortItems(items))
    case Obj(fields) => Obj(Assigned(SortByKey(SortedParts(fields))))
    case _ => j
  }

  function SortItems(items: seq<Json>): (r: seq<Json>)
    ensures |r| == |items|
    decreases items
  {
    if items == [] then [] else [SortKeysDeep(items[0])] + SortItems(items[1..])
  }

  function SortedParts(fields: seq<Field>): (r: seq<Part<Json>>)
    ensures |r| == |fields|
    decreases fields
  {
    if fields == [] then [] else [Part(fields[0].key, SortKeysDeep(fields[0].value))] + SortedParts(fields[1..])
  }

  /** The own keys of an object after the assignments. */
  function Assigned(parts: seq<Part<Json>>): (r: seq<Field>)
    ensures |r| <= |parts|
  {
    if parts == [] then []
    else if parts[0].key == PROTO then Assigned(parts[1..])
    else [Field(parts[0].key, parts[0].content)] + Assigned(parts[1..])
  }

  /** The value without the keys `__proto__`, at every level. */
  function Stripped(j: Json): Json
    decreases j
  {
    match j
    case Arr(items) => Arr(StripItems(items))
    case Obj(fields) => Obj(StripFields(fields))
    case _ => j
  }

  function StripItems(items: seq<Json>): (r: seq<Json>)
    ensures |r| == |items|
    decreases items
  {
    if items == [] then [] else [Stripped(items[0])] + StripItems(items[1..])
  }

  function StripFields(fields: seq<Field>): (r: seq<Field>)
    ensures |r| <= |fields|
    decreases fields
  {
    if fields == [] then []
    else if fields[0].key == PROTO then StripFields(fields[1..])
    else [Field(fields[0].key, Stripped(fields[0].value))] + StripFields(fields[1..])
  }

  /** No object at any level has a key `__proto__`. */
  ghost predicate ProtoFree(j: Json) {
    match j
    case Arr(items) => forall i | 0 <= i < |items| :: ProtoFree(items[i])
    case Obj(fields) => forall i | 0 <= i < |fields| :: fields[i].key != PROTO && ProtoFree(fields[i].value)
    case _ => true
  }

  // ---------------------------------------------------------------- parser

  datatype Parsed<T> = Parsed(value: T, rest: Text)

  /** Reads the inside of a string up to and including its closing quote. */
  function ParseString(t: Text): (r: Option<Parsed<Text>>)
    ensures r.Some? ==> |r.value.rest| < |t|
  {
    if t == [] then None
    else if t[0] == QUOTE then Some(Parsed([], t[1..]))
    else if t[0] != BACKSLASH then Prepend(t[0], ParseString(t[1..]))
    else if |t| < 2 then None
    else if t[1] == 117 then
      if |t| < 6 then None
      else
        match (HexValue(t[2]), HexValue(t[3]), HexValue(t[4]), HexValue(t[5]))
        case (Some(a), Some(b), Some(c), Some(d)) =>
          Prepend((a * 4096 + b * 256 + c * 16 + d) as Unit, ParseString(t[6..]))
        case _ => None
    else if t[1] == QUOTE || t[1] == BACKSLASH || t[1] == 47 then Prepend(t[1], ParseString(t[2..]))
    else if t[1] == 98 then Prepend(8, ParseString(t[2..]))
    else if t[1] == 116 then Prepend(9, ParseString(t[2..]))
    else if t[1] == 110 then Prepend(10, ParseString(t[2..]))
    else if t[1] == 102 then Prepend(12, ParseString(t[2..]))
    else if t[1] == 114 then Prepend(13, ParseString(t[2..]))
    else None
  }

  function Prepend(u: Unit, r: Option<Parsed<Text>>): (r': Option<Parsed<Text>>)
    ensures r'.Some? <==> r.Some?
    ensures r.Some? ==> r'.value == Parsed([u] + r.value.value, r.value.rest)
  {
    match r
    case None => None
    case Some(p) => Some(Parsed([u] + p.value, p.rest))
  }

  function NumPrefix(t: Text): (n: nat)
    ensures n <= |t|
    ensures forall i | 0 <= i < n :: IsNumUnit(t[i])
    ensures n < |t| ==> !IsNumUnit(t[n])
  {
    if t == [] || !IsNumUnit(t[0]) then 0 else 1 + NumPrefix(t[1..])
  }

  function ParseValue(t: Text): (r: Option<Parsed<Json>>)
    ensures r.Some? ==> |r.value.rest| < |t|
    decreases |t|, 0
  {
    if t == [] then None
    else if NULL_TEXT <= t then Some(Parsed(Null, t[4..]))
    else if TRUE_TEXT <= t then Some(Parsed(Bool(true), t[4..]))
    else if FALSE_TEXT <= t then Some(Parsed(Bool(false), t[5..]))
    else if IsNumUnit(t[0]) then
      var n := NumPrefix(t);
      Some(Parsed(Num(t[..n]), t[n..]))
    else if t[0] == QUOTE then
      (match ParseString(t[1..])
       case None => None
       case Some(p) => Some(Parsed(Str(p.value), p.rest)))
    else if t[0] == LBRACKET then
      if |t| > 1 && t[1] == RBRACKET then Some(Parsed(Arr([]), t[2..]))
      else
        (match ParseItems(t[1..])
         case None => None
         case Some(p) => Some(Parsed(Arr(p.value), p.rest)))
    else if t[0] == LBRACE then
      if |t| > 1 && t[1] == RBRACE then Some(Parsed(Obj([]), t[2..]))
      else
        (match ParseFields(t[1..])
         case None => None
         case Some(p) => Some(Parsed(Obj(p.value), p.rest)))
    else None
  }

  /** One or more items, then the closing bracket. */
  function ParseItems(t: Text): (r: Option<Parsed<seq<Json>>>)
    ensures r.Some? ==> |r.value.rest| < |t|
    decreases |t|, 1
  {
    match ParseValue(t)
    case None => None
    case Some(p) =>
      if p.rest == [] then None
      else if p.rest[0] == RBRACKET then Some(Parsed([p.value], p.rest[1..]))
      else if p.rest[0] != COMMA then None
      else
        match ParseItems(p.rest[1..])
        case None => None
        case Some(q) => Some(Parsed([p.value] + q.value, q.rest))
  }

  /** One or more fields, then the closing brace. */
  function ParseFields(t: Text): (r: Option<Parsed<seq<Field>>>)
    ensures r.Some? ==> |r.value.rest| < |t|
    decreases |t|, 1
  {
    if t == [] || t[0] != QUOTE then None
    else
      match ParseString(t[1..])
      case None => None
      case Some(k) =>
        if k.rest == [] || k.rest[0] != COLON then None
        else
          match ParseValue(k.rest[1..])
          case None => None
          case Some(v) =>
            if v.rest == [] then None
            else if v.rest[0] == RBRACE then Some(Parsed([Field(k.value, v.value)], v.rest[1..]))
            else if v.rest[0] != COMMA then None
            else
              match ParseFields(v.rest[1..])
              case None => None
              case Some(q) => Some(Parsed([Field(k.value, v.value)] + q.value, q.rest))
  }

  /** `JSON.parse` on text without insignificant white space: one value and nothing after it. */
  function Parse(t: Text): Option<Json> {
    match ParseValue(t)
    case None => None
    case Some(p) => if p.rest == [] then Some(p.value) else None
  }
}
