/** Strings as the JavaScript engine sees them: sequences of UTF-16 code units, compared unit by unit. */
module Texts {
  newtype Unit = x: int | 0 <= x < 0x1_0000

  type Text = seq<Unit>

  datatype Option<+T> = None | Some(value: T)

  const QUOTE: Unit := 34
  const HASH_SIGN: Unit := 35
  const COMMA: Unit := 44
  const COLON: Unit := 58
  const AT_SIGN: Unit := 64
  const LBRACKET: Unit := 91
  const BACKSLASH: Unit := 92
  const RBRACKET: Unit := 93
  const LBRACE: Unit := 123
  const RBRACE: Unit := 125

  /** The units of an ASCII literal. */
  function Ascii(s: string): (t: Text)
    ensures |t| == |s|
    ensures forall i | 0 <= i < |s| && s[i] < 128 as char :: t[i] as int == s[i] as int
  {
    seq(|s|, i requires 0 <= i < |s| => (s[i] as int % 0x1_0000) as Unit)
  }

  /** The order `Array.prototype.sort` uses on strings. */
  predicate Less(a: Text, b: Text) {
    if b == [] then false
    else if a == [] then true
    else if a[0] != b[0] then a[0] < b[0]
    else Less(a[1..], b[1..])
  }

  /** At the first place where the texts differ, `a` has ended or has the smaller unit. */
  ghost predicate ComesBefore(a: Text, b: Text) {
    exists i | 0 <= i <= |a| :: i < |b| && a[..i] == b[..i] && (i == |a| || a[i] < b[i])
  }

  /** The order is that of the units at the first difference, a proper prefix coming first. */
  /** Where the heads differ, they decide. */
  lemma HeadsDecide(a: Text, b: Text)
    requires a != [] && b != [] && a[0] != b[0]
    ensures ComesBefore(a, b) <==> a[0] < b[0]
  {
    assert a[..0] == b[..0];
    forall i | 0 < i <= |a| && i < |b|
      ensures a[..i] != b[..i]
    {
      assert a[..i][0] == a[0] && b[..i][0] == b[0];
    }
  }

  lemma {:induction false} LessIff(a: Text, b: Text)
    ensures Less(a, b) <==> ComesBefore(a, b)
  {
    if a == [] || b == [] {
      if b != [] {
        assert a[..0] == b[..0];
      }
    } else if a[0] != b[0] {
      HeadsDecide(a, b);
    } else {
      LessIff(a[1..], b[1..]);
      if ComesBefore(a[1..], b[1..]) {
        var i :| 0 <= i <= |a| - 1 && i < |b| - 1 && a[1..][..i] == b[1..][..i]
            && (i == |a| - 1 || a[1..][i] < b[1..][i]);
        assert a[..i + 1] == [a[0]] + a[1..][..i] && b[..i + 1] == [b[0]] + b[1..][..i];
      }
      if ComesBefore(a, b) {
        var i :| 0 <= i <= |a| && i < |b| && a[..i] == b[..i] && (i == |a| || a[i] < b[i]);
        assert a[1..][..i - 1] == a[..i][1..] && b[1..][..i - 1] == b[..i][1..];
      }
    }
  }

  lemma {:induction false} LessIsTotal(a: Text, b: Text)
    ensures a == b || Less(a, b) || Less(b, a)
  {
    if a != [] && b != [] && a[0] == b[0] {
      LessIsTotal(a[1..], b[1..]);
      assert a == [a[0]] + a[1..] && b == [b[0]] + b[1..];
    }
  }

  lemma {:induction false} LessIsAsymmetric(a: Text, b: Text)
    ensures Less(a, b) ==> !Less(b, a) && a != b
  {
    if a != [] && b != [] && a[0] == b[0] {
      LessIsAsymmetric(a[1..], b[1..]);
    }
  }

  lemma {:induction false} LessIsTransitive(a: Text, b: Text, c: Text)
    requires Less(a, b) && Less(b, c)
    ensures Less(a, c)
  {
    if a != [] && a[0] == b[0] == c[0] {
      LessIsTransitive(a[1..], b[1..], c[1..]);
    }
  }

  // ---------------------------------------------------------- sorted lists of strings

  function InsertText(x: Text, xs: seq<Text>): seq<Text> {
    if xs == [] || !Less(xs[0], x) then [x] + xs else [xs[0]] + InsertText(x, xs[1..])
  }

  function SortTexts(xs: seq<Text>): seq<Text> {
    if xs == [] then [] else InsertText(xs[0], SortTexts(xs[1..]))
  }

  ghost predicate Sorted(xs: seq<Text>) {
    forall i, k | 0 <= i < k < |xs| :: !Less(xs[k], xs[i])
  }

  lemma {:induction false} InsertTextKeepsElements(x: Text, xs: seq<Text>)
    ensures multiset(InsertText(x, xs)) == multiset{x} + multiset(xs)
  {
    if xs != [] && Less(xs[0], x) {
      InsertTextKeepsElements(x, xs[1..]);
      assert xs == [xs[0]] + xs[1..];
    }
  }

  lemma {:induction false} InsertTextKeepsOrder(x: Text, xs: seq<Text>)
    requires Sorted(xs)
    ensures Sorted(InsertText(x, xs))
  {
    var r := InsertText(x, xs);
    if xs == [] {
    } else if !Less(xs[0], x) {
      forall k | 0 < k < |r|
        ensures !Less(r[k], x)
      {
        if k > 1 && Less(r[k], x) {
          LessIsTotal(xs[0], x);
          if Less(x, xs[0]) {
            LessIsTransitive(r[k], x, xs[0]);
          }
        }
      }
    } else {
      var rest := InsertText(x, xs[1..]);
      InsertTextKeepsOrder(x, xs[1..]);
      InsertTextKeepsElements(x, xs[1..]);
      LessIsAsymmetric(xs[0], x);
      forall k | 0 <= k < |rest|
        ensures !Less(rest[k], xs[0])
      {
        assert rest[k] in multiset(rest);
      }
      assert r == [xs[0]] + rest;
    }
  }

  lemma {:induction false} SortTextsSorts(xs: seq<Text>)
    ensures Sorted(SortTexts(xs)) && multiset(SortTexts(xs)) == multiset(xs)
  {
    if xs != [] {
      SortTextsSorts(xs[1..]);
      InsertTextKeepsOrder(xs[0], SortTexts(xs[1..]));
      InsertTextKeepsElements(xs[0], SortTexts(xs[1..]));
      assert xs == [xs[0]] + xs[1..];
    }
  }

  lemma SortedHead(xs: seq<Text>, ys: seq<Text>)
    requires Sorted(xs) && Sorted(ys) && multiset(xs) == multiset(ys) && xs != [] && ys != []
    ensures xs[0] == ys[0]
  {
    assert xs[0] in multiset(ys) && ys[0] in multiset(xs);
    var i :| 0 <= i < |ys| && ys[i] == xs[0];
    var k :| 0 <= k < |xs| && xs[k] == ys[0];
    LessIsTotal(xs[0], ys[0]);
  }

  lemma {:induction false} SortedIsUnique(xs: seq<Text>, ys: seq<Text>)
    requires Sorted(xs) && Sorted(ys) && multiset(xs) == multiset(ys)
    ensures xs == ys
  {
    assert |xs| == |multiset(xs)| == |multiset(ys)| == |ys|;
    if xs != [] {
      SortedHead(xs, ys);
      assert xs == [xs[0]] + xs[1..] && ys == [ys[0]] + ys[1..];
      assert multiset(xs[1..]) == multiset(xs) - multiset{xs[0]};
      assert multiset(ys[1..]) == multiset(ys) - multiset{ys[0]};
      SortedIsUnique(xs[1..], ys[1..]);
    }
  }

  /** Sorting forgets the order of a list and nothing else. */
  lemma SortTextsAgree(xs: seq<Text>, ys: seq<Text>)
    ensures SortTexts(xs) == SortTexts(ys) <==> multiset(xs) == multiset(ys)
  {
    SortTextsSorts(xs);
    SortTextsSorts(ys);
    if multiset(xs) == multiset(ys) {
      SortedIsUnique(SortTexts(xs), SortTexts(ys));
    }
  }

  // ------------------------------------------------------------------------ searching

  function IndexOf(u: Unit, t: Text): (r: Option<nat>)
    ensures r.Some? ==> r.value < |t| && t[r.value] == u && u !in t[..r.value]
    ensures r.None? ==> u !in t
  {
    if t == [] then None
    else if t[0] == u then Some(0)
    else
      match IndexOf(u, t[1..])
      case None => None
      case Some(i) => Some(i + 1)
  }

  function LastIndexOf(u: Unit, t: Text): (r: Option<nat>)
    ensures r.Some? ==> r.value < |t| && t[r.value] == u && u !in t[r.value + 1..]
    ensures r.None? ==> u !in t
  {
    if t == [] then None
    else if t[|t| - 1] == u then Some(|t| - 1)
    else LastIndexOf(u, t[..|t| - 1])
  }

  // ---------------------------------------------------------------------- white space

  predicate IsSpace(u: Unit) {
    9 <= u <= 13 || u == 32 || u == 0xA0 || u == 0x1680 || 0x2000 <= u <= 0x200A
    || u == 0x2028 || u == 0x2029 || u == 0x202F || u == 0x205F || u == 0x3000 || u == 0xFEFF
  }

  /** Tab to carriage return, the byte order mark, the line separators and the 17 space separators of Unicode. */
  lemma SpacesAreListed(u: Unit)
    ensures IsSpace(u) <==>
            u in [9, 10, 11, 12, 13, 0xFEFF, 0x2028, 0x2029,
                  32, 160, 5760, 8192, 8193, 8194, 8195, 8196, 8197, 8198, 8199, 8200, 8201, 8202, 8239, 8287, 12288]
  {
  }

  function TrimStart(t: Text): (r: Text)
    ensures |r| <= |t| && (t != [] && IsSpace(t[0]) ==> |r| < |t|)
    ensures r != [] ==> !IsSpace(r[0])
  {
    if t != [] && IsSpace(t[0]) then TrimStart(t[1..]) else t
  }

  function TrimEnd(t: Text): (r: Text)
    ensures r <= t && (r != [] ==> !IsSpace(r[|r| - 1]))
  {
    if t != [] && IsSpace(t[|t| - 1]) then TrimEnd(t[..|t| - 1]) else t
  }

  function Trim(t: Text): Text {
    TrimEnd(TrimStart(t))
  }

  predicate AllSpace(t: Text) {
    forall i | 0 <= i < |t| :: IsSpace(t[i])
  }

  lemma {:induction false} TrimStartTakesSpace(t: Text) returns (before: Text)
    ensures t == before + TrimStart(t) && AllSpace(before)
  {
    if t != [] && IsSpace(t[0]) {
      before := TrimStartTakesSpace(t[1..]);
      before := [t[0]] + before;
    } else {
      before := [];
    }
  }

  lemma {:induction false} TrimEndTakesSpace(t: Text) returns (after: Text)
    ensures t == TrimEnd(t) + after && AllSpace(after)
  {
    if t != [] && IsSpace(t[|t| - 1]) {
      after := TrimEndTakesSpace(t[..|t| - 1]);
      after := after + [t[|t| - 1]];
    } else {
      after := [];
    }
  }

  /** Trimming takes away space at both ends and nothing else, and leaves no space there. */
  lemma TrimIsExact(t: Text) returns (before: Text, after: Text)
    ensures t == before + Trim(t) + after && AllSpace(before) && AllSpace(after)
    ensures Trim(t) != [] ==> !IsSpace(Trim(t)[0]) && !IsSpace(Trim(t)[|Trim(t)| - 1])
  {
    before := TrimStartTakesSpace(t);
    after := TrimEndTakesSpace(TrimStart(t));
    assert Trim(t) != [] ==> Trim(t)[0] == TrimStart(t)[0];
  }
}
