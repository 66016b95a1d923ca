/**
 A printed object has no proper ending, after a colon, that is a printed value: a reader of the object stands inside
 a string or inside a bracket there, and a reader of the ending would not.
 */
module JsonNesting {
  import opened Texts
  import opened CanonicalJson

  /** Where a reader of JSON text stands: between tokens, in a string, after a backslash, or on no JSON text at all. */
  datatype Mode = Between(depth: int) | Inside(depth: int) | Escaping(depth: int) | Lost

  function After(m: Mode, u: Unit): Mode {
    match m
    case Between(d) =>
      if u == QUOTE then Inside(d)
      else if u == BACKSLASH then Lost
      else if u == LBRACE || u == LBRACKET then Between(d + 1)
      else if u == RBRACE || u == RBRACKET then Between(d - 1)
      else m
    case Inside(d) => if u == QUOTE then Between(d) else if u == BACKSLASH then Escaping(d) else m
    case Escaping(d) => Inside(d)
    case Lost => Lost
  }

  function Scan(m: Mode, t: Text): Mode
    decreases t
  {
    if t == [] then m else Scan(After(m, t[0]), t[1..])
  }

  /** The reader never gets lost and never above depth `d`. */
  predicate Under(m: Mode, t: Text, d: int)
    decreases t
  {
    !m.Lost? && m.depth >= d && (t != [] ==> Under(After(m, t[0]), t[1..], d))
  }

  lemma {:induction false} ScanConcat(m: Mode, t: Text, u: Text)
    ensures Scan(m, t + u) == Scan(Scan(m, t), u)
    decreases t
  {
    if t == [] {
      assert t + u == u;
    } else {
      ScanConcat(After(m, t[0]), t[1..], u);
      assert (t + u)[1..] == t[1..] + u;
    }
  }

  lemma {:induction false} UnderConcat(m: Mode, t: Text, u: Text, d: int)
    ensures Under(m, t + u, d) <==> Under(m, t, d) && Under(Scan(m, t), u, d)
    decreases t
  {
    if t == [] {
      assert t + u == u;
    } else {
      UnderConcat(After(m, t[0]), t[1..], u, d);
      assert (t + u)[1..] == t[1..] + u;
    }
  }

  lemma {:induction false} LowerFloor(m: Mode, t: Text, d: int, e: int)
    requires Under(m, t, d) && e <= d
    ensures Under(m, t, e)
    decreases t
  {
    if t != [] {
      LowerFloor(After(m, t[0]), t[1..], d, e);
    }
  }

  // ---------------------------------------------------------- two readers of one text

  function Sunk(m: Mode, n: int): Mode {
    match m
    case Between(d) => Between(d + n)
    case Inside(d) => Inside(d + n)
    case Escaping(d) => Escaping(d + n)
    case Lost => Lost
  }

  /** Starting deeper means ending deeper. */
  lemma {:induction false} ScanSunk(m: Mode, n: int, t: Text)
    ensures Scan(Sunk(m, n), t) == Sunk(Scan(m, t), n)
    decreases t
  {
    if t != [] {
      ScanSunk(After(m, t[0]), n, t[1..]);
    }
  }

  /** One reader is in a string where the other is not, unless one of them is lost. */
  predicate OutOfStep(a: Mode, b: Mode) {
    a.Lost? || b.Lost? || (a.Between? && b.Inside?) || (a.Inside? && b.Between?)
  }

  /** A quote turns both readers round, and a backslash loses one of them for good. */
  lemma {:induction false} StayOutOfStep(a: Mode, b: Mode, t: Text)
    requires OutOfStep(a, b)
    ensures OutOfStep(Scan(a, t), Scan(b, t))
    decreases t
  {
    if a.Lost? || b.Lost? {
      LostStaysLost(t);
    } else if t != [] {
      if After(a, t[0]).Lost? || After(b, t[0]).Lost? {
        LostStaysLost(t[1..]);
      } else {
        StayOutOfStep(After(a, t[0]), After(b, t[0]), t[1..]);
      }
    }
  }

  lemma {:induction false} LostStaysLost(t: Text)
    ensures Scan(Lost, t) == Lost
  {
    if t != [] {
      LostStaysLost(t[1..]);
    }
  }

  // ------------------------------------------------------------------ printed values

  /** Read from depth `d`, the text ends there again, and the reader never gets above it. */
  ghost predicate Balanced(t: Text, d: int) {
    Scan(Between(d), t) == Between(d) && Under(Between(d), t, d)
  }

  lemma BalancedConcat(t: Text, u: Text, d: int)
    requires Balanced(t, d) && Balanced(u, d)
    ensures Balanced(t + u, d)
  {
    ScanConcat(Between(d), t, u);
    UnderConcat(Between(d), t, u, d);
  }

  predicate IsPlain(u: Unit) {
    u != QUOTE && u != BACKSLASH && u != LBRACE && u != RBRACE && u != LBRACKET && u != RBRACKET
  }

  lemma {:induction false} PlainIsBalanced(t: Text, d: int)
    requires forall i | 0 <= i < |t| :: IsPlain(t[i])
    ensures Balanced(t, d)
  {
    if t != [] {
      PlainIsBalanced(t[1..], d);
    }
  }

  /** Read inside a string at depth `d`, the text ends inside that string. */
  ghost predicate KeepsInside(t: Text, d: int) {
    Scan(Inside(d), t) == Inside(d) && Under(Inside(d), t, d)
  }

  lemma KeepsInsideConcat(t: Text, u: Text, d: int)
    requires KeepsInside(t, d) && KeepsInside(u, d)
    ensures KeepsInside(t + u, d)
  {
    ScanConcat(Inside(d), t, u);
    UnderConcat(Inside(d), t, u, d);
  }

  lemma OrdinaryKeepsInside(u: Unit, d: int)
    requires u != QUOTE && u != BACKSLASH
    ensures KeepsInside([u], d)
  {
    assert [u][1..] == [];
  }

  lemma ShortEscapeKeepsInside(u: Unit, d: int)
    ensures KeepsInside([BACKSLASH, u], d)
  {
    var t := [BACKSLASH, u];
    assert t[1..] == [u] && t[1..][1..] == [];
    assert Scan(Escaping(d), [u]) == Inside(d);
  }

  lemma HexKeepsInside(x: nat, d: int)
    requires x < 16
    ensures KeepsInside([HexDigit(x)], d)
  {
    OrdinaryKeepsInside(HexDigit(x), d);
  }

  lemma EscapeUnitKeepsInside(u: Unit, d: int)
    ensures KeepsInside(EscapeUnit(u), d)
  {
    hide KeepsInside;
    var t := EscapeUnit(u);
    if |t| == 1 {
      OrdinaryKeepsInside(u, d);
    } else if |t| == 2 {
      ShortEscapeKeepsInside(t[1], d);
    } else {
      var n := u as int;
      var h1, h2, h3, h4 := HexDigit(n / 4096), HexDigit(n / 256 % 16), HexDigit(n / 16 % 16), HexDigit(n % 16);
      ShortEscapeKeepsInside(117, d);
      HexKeepsInside(n / 4096, d);
      HexKeepsInside(n / 256 % 16, d);
      HexKeepsInside(n / 16 % 16, d);
      HexKeepsInside(n % 16, d);
      KeepsInsideConcat([BACKSLASH, 117], [h1], d);
      KeepsInsideConcat([BACKSLASH, 117] + [h1], [h2], d);
      KeepsInsideConcat([BACKSLASH, 117] + [h1] + [h2], [h3], d);
      KeepsInsideConcat([BACKSLASH, 117] + [h1] + [h2] + [h3], [h4], d);
      assert t == [BACKSLASH, 117] + [h1] + [h2] + [h3] + [h4];
    }
  }

  lemma {:induction false} EscapeKeepsInside(s: Text, d: int)
    ensures KeepsInside(Escape(s), d)
  {
    hide KeepsInside, EscapeUnit;
    if s == [] {
      NothingKeepsInside(d);
    } else if IsHighSurrogate(s[0]) && |s| > 1 && IsLowSurrogate(s[1]) {
      EscapeKeepsInside(s[2..], d);
      OrdinaryKeepsInside(s[0], d);
      OrdinaryKeepsInside(s[1], d);
      KeepsInsideConcat([s[0]], [s[1]], d);
      assert [s[0], s[1]] == [s[0]] + [s[1]];
      KeepsInsideConcat([s[0], s[1]], Escape(s[2..]), d);
    } else {
      EscapeKeepsInside(s[1..], d);
      EscapeUnitKeepsInside(s[0], d);
      KeepsInsideConcat(EscapeUnit(s[0]), Escape(s[1..]), d);
    }
  }

  lemma NothingKeepsInside(d: int)
    ensures KeepsInside([], d)
  {
  }

  lemma QuoteIsBalanced(s: Text, d: int)
    ensures Balanced(Quote(s), d)
  {
    EscapeKeepsInside(s, d);
    hide Escape;
    assert [QUOTE][1..] == [];
    ScanConcat(Inside(d), Escape(s), [QUOTE]);
    UnderConcat(Inside(d), Escape(s), [QUOTE], d);
    assert Quote(s)[1..] == Escape(s) + [QUOTE];
  }

  /** A balanced text between brackets. */
  lemma WrappedIsBalanced(open: Unit, body: Text, close: Unit, d: int)
    requires (open == LBRACE && close == RBRACE) || (open == LBRACKET && close == RBRACKET)
    requires Balanced(body, d + 1)
    ensures Balanced([open] + body + [close], d)
  {
    assert [close][1..] == [];
    ScanConcat(Between(d + 1), body, [close]);
    LowerFloor(Between(d + 1), body, d + 1, d);
    UnderConcat(Between(d + 1), body, [close], d);
    assert ([open] + body + [close])[1..] == body + [close];
  }

  lemma {:induction false} StringifyIsBalanced(j: Json, d: int)
    ensures Balanced(Stringify(j), d)
    decreases j, 1
  {
    hide Balanced;
    match j
    case Null => PlainIsBalanced(NULL_TEXT, d);
    case Bool(b) => PlainIsBalanced(Stringify(j), d);
    case Num(lit) => PlainIsBalanced(lit, d);
    case Str(s) => QuoteIsBalanced(s, d);
    case Arr(items) =>
      ItemsAreBalanced(items, d + 1);
      WrappedIsBalanced(LBRACKET, StringifyItems(items), RBRACKET, d);
    case Obj(fields) =>
      FieldsAreBalanced(fields, d + 1);
      WrappedIsBalanced(LBRACE, StringifyFields(fields), RBRACE, d);
  }

  lemma {:induction false} ItemsAreBalanced(items: seq<Json>, d: int)
    ensures Balanced(StringifyItems(items), d)
    decreases items, 0
  {
    hide Balanced;
    PlainIsBalanced([], d);
    if items != [] {
      StringifyIsBalanced(items[0], d);
      ItemsAreBalanced(items[1..], d);
      PlainIsBalanced([COMMA], d);
      BalancedConcat(Stringify(items[0]), [COMMA], d);
      BalancedConcat(Stringify(items[0]) + [COMMA], StringifyItems(items[1..]), d);
    }
  }

  lemma {:induction false} FieldsAreBalanced(fields: seq<Field>, d: int)
    ensures Balanced(StringifyFields(fields), d)
    decreases fields, 0
  {
    hide Balanced, Quote;
    PlainIsBalanced([], d);
    if fields != [] {
      var key, value := Quote(fields[0].key), Stringify(fields[0].value);
      QuoteIsBalanced(fields[0].key, d);
      StringifyIsBalanced(fields[0].value, d);
      FieldsAreBalanced(fields[1..], d);
      PlainIsBalanced([COMMA], d);
      PlainIsBalanced([COLON], d);
      BalancedConcat(key, [COLON], d);
      BalancedConcat(key + [COLON], value, d);
      BalancedConcat(key + [COLON] + value, [COMMA], d);
      BalancedConcat(key + [COLON] + value + [COMMA], StringifyFields(fields[1..]), d);
    }
  }

  // ------------------------------------------------------------------ proper endings

  /** Within a printed object, a reader between tokens is at depth one or deeper. */
  lemma InnerDepth(fields: seq<Field>, start: Text, rest: Text)
    requires Stringify(Obj(fields)) == start + rest && start != [] && rest != []
    ensures Under(Scan(Between(0), start), [], 1)
  {
    var body := StringifyFields(fields);
    FieldsAreBalanced(fields, 1);
    hide StringifyFields, Under;
    var n := |start| - 1;
    assert start[0] == (start + rest)[0] == LBRACE;
    assert start[1..] == (start + rest)[1..|start|] == body[..n];
    assert body == body[..n] + body[n..];
    UnderConcat(Between(1), body[..n], body[n..], 1);
    assert body[..n] + [] == body[..n];
    UnderConcat(Between(1), body[..n], [], 1);
  }

  /** A printed object does not end, after a colon, with a printed value. */
  lemma NoPrintedEnding(fields: seq<Field>, start: Text, j: Json)
    ensures Stringify(Obj(fields)) != start + [COLON] + Stringify(j)
  {
    var whole, ending := Stringify(Obj(fields)), Stringify(j);
    if whole == start + [COLON] + ending {
      StringifyIsBalanced(Obj(fields), 0);
      StringifyIsBalanced(j, 0);
      PrintedIsNotEmpty(j);
      InnerDepth(fields, start + [COLON], ending);
      hide Stringify, Under;
      var m := Scan(Between(0), start + [COLON]);
      ScanConcat(Between(0), start + [COLON], ending);
      ScanConcat(Between(0), start, [COLON]);
      assert [COLON][1..] == [];
      if m.Between? {
        ScanSunk(Between(0), m.depth, ending);
        DepthIsAbove(m, 1);
      } else {
        StayOutOfStep(m, Between(0), ending);
      }
    }
  }

  lemma DepthIsAbove(m: Mode, d: int)
    requires Under(m, [], d)
    ensures !m.Lost? && m.depth >= d
  {
  }

  lemma PrintedIsNotEmpty(j: Json)
    ensures Stringify(j) != []
  {
  }
}
