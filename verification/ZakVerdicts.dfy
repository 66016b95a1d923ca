/** What manifests, runs and moves come to, for given sigils, texts and deltas. */
module ZakVerdicts {
  import opened Texts
  import opened ZakManifest
  import opened ZakRunner

  // ------------------------------------------------------------------------- manifests

  /** The least number of tokens that is at least 1.3 times the number of words. */
  lemma TokensAreLeast(words: int)
    ensures 10 * TokensFor(words) >= 13 * words > 10 * (TokensFor(words) - 1)
  {
  }

  /** The greatest number of words that 1.3 times does not exceed the number of tokens. */
  lemma WordsAreMost(tokens: int)
    ensures 13 * WordsFor(tokens) <= 10 * tokens < 13 * (WordsFor(tokens) + 1)
  {
  }

  /**
   The gates are open exactly when no sigil is closed or directed, and the token maximum is that of the least limit.
   */
  lemma ManifestTells(sigils: seq<Sigil>, m: Summary)
    requires Summarises(sigils, m)
    ensures var manifest := ManifestOf(m);
            && (manifest.tools <==> forall s | s in sigils :: s.topology.Open? || s.topology.Porous?)
            && (manifest.rag <==> forall s | s in sigils :: s.topology.Open? || s.topology.Porous?)
            && (manifest.json <==> exists s :: s in sigils && s.topology.Directed?)
            && (manifest.bias <==> exists s :: s in sigils && RefuseOpinion in s.invariants)
            && (manifest.maxTokens.NoMaximum? <==> forall s | s in sigils :: !HasSomeLimit(s))
            && (manifest.maxTokens.NaNTokens? <==> LimitsTo(sigils, None))
            && (forall words | IsLeastLimit(sigils, words) ::
                  && manifest.maxTokens.Tokens?
                  && 10 * manifest.maxTokens.n >= 13 * words > 10 * (manifest.maxTokens.n - 1))
  {
    forall words | IsLeastLimit(sigils, words)
      ensures m.limit == Limit(words)
    {
      LimitIsUnique(sigils, m.limit, Limit(words));
    }
    if LimitsTo(sigils, None) {
      LimitIsUnique(sigils, m.limit, NotANumber);
    }
    if m.limit.Limit? {
      LimitIsANumber(sigils, m.limit, m.limit.words);
      var s :| s in sigils && HasLimit(s, Some(m.limit.words));
      assert HasSomeLimit(s);
    }
    if m.limit.NotANumber? {
      var s :| s in sigils && HasLimit(s, None);
      assert HasSomeLimit(s);
    }
  }

  /** All limits are numbers, and this is the least of them. */
  ghost predicate IsLeastLimit(sigils: seq<Sigil>, words: int) {
    !LimitsTo(sigils, None) && LimitsTo(sigils, Some(words)) && forall x | LimitsTo(sigils, Some(x)) :: words <= x
  }

  /** A multiple of a hundredth, nearest to `x`, and away from zero where two are. */
  predicate IsNearest(h: real, x: real) {
    && (h * 100.0).Floor as real == h * 100.0
    && (if x >= 0.0 then -0.005 < h - x <= 0.005 else -0.005 <= h - x < 0.005)
  }

  lemma HundredthsAreNearest(x: real)
    ensures IsNearest(Hundredths(x), x)
  {
    var n := if x >= 0.0 then (x * 100.0 + 0.5).Floor else -((-x * 100.0 + 0.5).Floor);
    assert Hundredths(x) == n as real / 100.0;
    assert Hundredths(x) * 100.0 == n as real;
  }

  /**
   The engine's numbers: a temperature of 1 - 0.9 r but at least 0.1, a top_p of 1 - 0.5 r but at least 0.5, a
   repeat penalty of 1 + 0.2 r, each to the nearest hundredth, and a top_k of 100 - 80 r, rounded down.
   */
  lemma EngineTells(r: real)
    ensures var e := MaterialPhysics(r);
            && (if 1.0 - 0.9 * r >= 0.1 then IsNearest(e.temperature, 1.0 - 0.9 * r) else e.temperature == 0.1)
            && (if 1.0 - 0.5 * r >= 0.5 then IsNearest(e.topP, 1.0 - 0.5 * r) else e.topP == 0.5)
            && IsNearest(e.repeatPenalty, 1.0 + 0.2 * r)
            && e.topK as real <= 100.0 - 80.0 * r < e.topK as real + 1.0
  {
    HundredthsAreNearest(1.0 - r * 0.9);
    HundredthsAreNearest(1.0 - r * 0.5);
    HundredthsAreNearest(1.0 + r * 0.2);
    HundredthsOf(0.1, 10);
    HundredthsOf(0.5, 50);
    if 1.0 - 0.9 * r >= 0.1 {
      HundredthsAreMonotone(0.1, 1.0 - r * 0.9);
    } else {
      HundredthsAreMonotone(1.0 - r * 0.9, 0.1);
    }
    if 1.0 - 0.5 * r >= 0.5 {
      HundredthsAreMonotone(0.5, 1.0 - r * 0.5);
    } else {
      HundredthsAreMonotone(1.0 - r * 0.5, 0.5);
    }
    assert r * 0.9 == 0.9 * r && r * 0.5 == 0.5 * r && r * 0.2 == 0.2 * r && r * 80.0 == 80.0 * r;
    hide Hundredths, IsNearest;
  }

  lemma HundredthsOf(x: real, n: nat)
    requires x == n as real / 100.0
    ensures Hundredths(x) == x
  {
    assert (x * 100.0 + 0.5).Floor == n;
  }

  /** The first frequency is at most this one, the second is above it. */
  predicate Separates(at: real, a: real, b: real) {
    a <= at < b
  }

  /** Sigils are ordered by band, with bounds at 100 and 500, then by falling amplitude, then by id. */
  lemma BeforeIff(a: Sigil, b: Sigil)
    ensures Before(a, b) <==>
            || Separates(100.0, a.frequency, b.frequency) || Separates(500.0, a.frequency, b.frequency)
            || (&& !Separates(100.0, b.frequency, a.frequency) && !Separates(500.0, b.frequency, a.frequency)
                && (a.amplitude > b.amplitude || (a.amplitude == b.amplitude && ComesBefore(a.id, b.id))))
  {
    LessIff(a.id, b.id);
    hide ComesBefore, Less;
  }

  // ----------------------------------------------------------------------------- runs

  /** The text from its first opening to its last closing brace, and what is before and after. */
  predicate IsBraced(t: Text, before: Text, inner: Text, after: Text) {
    && t == before + inner + after && LBRACE !in before && RBRACE !in after
    && |inner| >= 2 && inner[0] == LBRACE && inner[|inner| - 1] == RBRACE
  }

  /** The repair keeps what is between the first opening and the last closing brace, with both braces. */
  lemma BracedIs(t: Text, inner: Text)
    ensures Braced(t) == Some(inner) <==> exists before: Text, after: Text :: IsBraced(t, before, inner, after)
  {
    if Braced(t) == Some(inner) {
      var start, end := IndexOf(LBRACE, t).value, LastIndexOf(RBRACE, t).value;
      assert IsBraced(t, t[..start], inner, t[end + 1..]);
    }
    forall before: Text, after: Text | IsBraced(t, before, inner, after)
      ensures Braced(t) == Some(inner)
    {
      BracedCuts(before, inner, after);
    }
    hide Braced, IsBraced;
  }

  lemma BracedCuts(before: Text, inner: Text, after: Text)
    requires IsBraced(before + inner + after, before, inner, after)
    ensures Braced(before + inner + after) == Some(inner)
  {
    var t := before + inner + after;
    var last := |before| + |inner| - 1;
    assert t[|before|] == LBRACE && t[last] == RBRACE && t[..|before|] == before && t[last + 1..] == after;
    FirstAt(LBRACE, t, |before|);
    LastAt(RBRACE, t, last);
    assert t[|before|..last + 1] == inner;
  }

  lemma {:induction false} FirstAt(u: Unit, t: Text, i: nat)
    requires i < |t| && t[i] == u && u !in t[..i]
    ensures IndexOf(u, t) == Some(i)
  {
    if i > 0 {
      assert t[..i][0] == t[0] && t[1..][..i - 1] == t[..i][1..];
      FirstAt(u, t[1..], i - 1);
    }
  }

  lemma {:induction false} LastAt(u: Unit, t: Text, i: nat)
    requires i < |t| && t[i] == u && u !in t[i + 1..]
    ensures LastIndexOf(u, t) == Some(i)
  {
    var n := |t| - 1;
    if i < n {
      assert t[i + 1..][n - i - 1] == t[n] && t[..n][i + 1..] == t[i + 1..][..n - i - 1];
      LastAt(u, t[..n], i);
    }
  }

  /** Words are joined by one space each. */
  lemma {:induction false} JoinAppends(ws: seq<Text>, w: Text)
    requires ws != []
    ensures JoinWords(ws + [w]) == JoinWords(ws) + [32] + w
  {
    if |ws| > 1 {
      assert (ws + [w])[1..] == ws[1..] + [w];
      JoinAppends(ws[1..], w);
    } else {
      assert (ws + [w])[1..] == [w];
    }
  }

  /** The first words are kept: as many as the limit says, or, if it is negative, all but as many at the end. */
  lemma SliceTells(ws: seq<Text>, limit: int)
    ensures Slice(ws, limit) <= ws
    ensures limit >= 0 ==> |Slice(ws, limit)| == if limit < |ws| then limit else |ws|
    ensures limit < 0 ==> |Slice(ws, limit)| == if -limit < |ws| then |ws| + limit else 0
  {
  }

  /** The text is cut exactly when there is a token maximum other than 0 and the text has more words than it allows. */
  lemma TruncationTells(max: MaxTokens, t: Text)
    ensures if max.Tokens? && max.n != 0 && 13 * |Words(t)| > 10 * max.n then
              Truncated(max, t) == JoinWords(Slice(Words(t), WordsFor(max.n)))
            else Truncated(max, t) == t
  {
    hide Words, JoinWords, Slice;
  }

  /** The text to be let out: as generated, or, where JSON is asked for and it does not parse, between its braces. */
  ghost predicate IsSource(manifest: Manifest, adapter: Adapter, parses: Text -> bool, source: Text) {
    && (manifest.bias ==> adapter.tokenizes)
    && adapter.response.Some?
    && var t := adapter.response.value;
       if !manifest.json || parses(t) then source == t else Braced(t) == Some(source) && parses(source)
  }

  /** A run lets a text out exactly when there is a source for it, and then it is the source, cut to the limit. */
  lemma ReleasedIff(manifest: Manifest, adapter: Adapter, parses: Text -> bool, text: Text)
    ensures Released(manifest, adapter, parses) == Some(text) <==>
            exists source: Text :: IsSource(manifest, adapter, parses, source)
                   && text == Truncated(manifest.maxTokens, source)
  {
    hide Truncated, Braced;
    if Released(manifest, adapter, parses) == Some(text) {
      var t := adapter.response.value;
      assert IsSource(manifest, adapter, parses, if !manifest.json || parses(t) then t else Braced(t).value);
    }
  }

  lemma JsonLogTells(parses: Text -> bool, t: Text)
    ensures var log, inner := JsonLog(parses, t), Braced(t);
            var repaired := inner.Some? && parses(inner.value);
            && (JsonValidated in log <==> parses(t))
            && (JsonFirstPassFailed in log <==> !parses(t))
            && (JsonRepaired in log <==> !parses(t) && repaired)
            && (Failure(JsonStructureNotFound) in log <==> !parses(t) && inner.None?)
            && (Failure(JsonRepairFailed) in log <==> !parses(t) && inner.Some? && !repaired)
            && forall action | action in log :: IsJsonAction(action)
  {
    hide Braced;
  }

  predicate IsJsonAction(action: Action) {
    action.JsonValidated? || action.JsonFirstPassFailed? || action.JsonRepaired?
    || action == Failure(JsonStructureNotFound)
    || action == Failure(JsonRepairFailed)
  }

  /** Some text with more words than the token maximum allows is to be let out; the limit is how many it allows. */
  ghost predicate Exceeds(manifest: Manifest, adapter: Adapter, parses: Text -> bool, limit: int) {
    && manifest.maxTokens.Tokens? && manifest.maxTokens.n != 0 && limit == WordsFor(manifest.maxTokens.n)
    && exists source: Text :: IsSource(manifest, adapter, parses, source) && |Words(source)| > limit
  }

  /** Which actions a run logs. */
  lemma LogTells(manifest: Manifest, adapter: Adapter, parses: Text -> bool)
    requires manifest.bias ==> adapter.tokenizes
    ensures var log := BiasLog(manifest, adapter) + RunLog(manifest, adapter, parses);
            var answers := adapter.response.Some?;
            && (BiasTranslated in log <==> manifest.bias)
            && (GenerationComplete in log <==> answers)
            && (Failure(RuntimeError) in log <==> !answers)
            && (forall action | IsJsonAction(action) ::
                  action in log <==> answers && manifest.json && action in JsonLog(parses, adapter.response.value))
            && (forall limit :: WordLimitEnforced(limit) in log <==> Exceeds(manifest, adapter, parses, limit))
  {
    if adapter.response.Some? {
      var t := adapter.response.value;
      JsonLogTells(parses, t);
      var jsonLog, limitLog := LogIs(manifest, adapter, parses);
      hide JsonLog, RunLog, IsSource, Exceeds;
      var log := BiasLog(manifest, adapter) + RunLog(manifest, adapter, parses);
      assert forall action :: action in log <==>
        || action in BiasLog(manifest, adapter) || action == GenerationComplete
        || action in jsonLog || action in limitLog;
    }
  }

  /** The parts of the log of a run whose adapter answers. */
  lemma LogIs(manifest: Manifest, adapter: Adapter, parses: Text -> bool)
    returns (json: seq<Action>, limit: seq<Action>)
    requires (manifest.bias ==> adapter.tokenizes) && adapter.response.Some?
    ensures RunLog(manifest, adapter, parses) == [GenerationComplete] + json + limit
    ensures json == if manifest.json then JsonLog(parses, adapter.response.value) else []
    ensures forall action | action in limit :: action.WordLimitEnforced?
    ensures forall n :: WordLimitEnforced(n) in limit <==> Exceeds(manifest, adapter, parses, n)
  {
    var t := adapter.response.value;
    json := if manifest.json then JsonLog(parses, t) else [];
    var source := if manifest.json then Repaired(parses, t) else Some(t);
    limit := if source.Some? then LimitLog(manifest.maxTokens, source.value) else [];
    assert forall x: Text :: IsSource(manifest, adapter, parses, x) <==> source == Some(x);
    hide Braced, Words, WordsFor, JsonLog, Repaired, IsSource;
    assert [GenerationComplete] + json + [] == [GenerationComplete] + json;
    assert [GenerationComplete] + [] + limit == [GenerationComplete] + limit;
  }

  /** A run whose bias cannot be translated logs only that. */
  lemma BiasFailureTells(manifest: Manifest, adapter: Adapter, parses: Text -> bool)
    requires manifest.bias && !adapter.tokenizes
    ensures Released(manifest, adapter, parses).None?
    ensures BiasLog(manifest, adapter) + RunLog(manifest, adapter, parses) == [Failure(RuntimeError)]
  {
  }
}

/** Where a tuned number goes. */
/** Where a tuned number goes. */
module ZakMoves {
  import opened Texts
  import opened ZakTuner

  /** The value of a numeral in base ten. */
  function Value(t: Text): int {
    if t == [] then 0 else 10 * Value(t[..|t| - 1]) + (t[|t| - 1] as int - 48)
  }

  /** A decimal numeral: digits, without leading zeros. */
  predicate IsNumeral(t: Text) {
    t != [] && (forall i | 0 <= i < |t| :: 48 <= t[i] <= 57) && (|t| > 1 ==> t[0] != 48)
  }

  lemma {:induction false} DecimalIsNumeral(n: nat)
    ensures IsNumeral(Decimal(n)) && Value(Decimal(n)) == n
    ensures n > 0 ==> Decimal(n)[0] != 48
  {
    if n >= 10 {
      DecimalIsNumeral(n / 10);
      assert Decimal(n)[..|Decimal(n)| - 1] == Decimal(n / 10);
      assert Decimal(n)[0] == Decimal(n / 10)[0];
    }
  }

  /** Records have children under their keys, lists under the numerals of their positions, and nothing else has any. */
  lemma ChildTells(o: Node, key: Text, c: Node)
    ensures Child(o, key) == Some(c) <==>
            || (o.Obj? && key in o.fields && o.fields[key] == c)
            || (o.Arr? && exists i | 0 <= i < |o.items| :: key == Decimal(i) && o.items[i] == c)
  {
    if o.Arr? {
      forall i: nat | i < |o.items| && key == Decimal(i)
        ensures Child(o, key) == Some(o.items[i])
      {
        PositionOf(key, |o.items|, i);
      }
    }
  }

  lemma {:induction false} PositionOf(key: Text, n: nat, i: nat)
    requires i < n && key == Decimal(i)
    ensures Position(key, n) == Some(i)
  {
    DecimalIsNumeral(i);
    DecimalIsNumeral(n - 1);
    if i < n - 1 {
      PositionOf(key, n - 1, i);
    }
  }

  /** A number moves by the delta itself where delta and sum are in range. */
  lemma MoveIsTheDelta(l: Limits, v: real, amount: real)
    requires Sane(l) && -l.maxStep <= amount <= l.maxStep && Within(l, v + amount)
    ensures Moved(l, v, amount) == v + amount
  {
  }

  /** A number in bounds moves in the direction of the delta, or not at all, and does move if there is room. */
  lemma MoveFollowsTheSign(l: Limits, v: real, amount: real)
    requires Sane(l) && Within(l, v)
    ensures amount >= 0.0 ==> Moved(l, v, amount) >= v
    ensures amount <= 0.0 ==> Moved(l, v, amount) <= v
    ensures amount > 0.0 && l.maxStep > 0.0 && (l.hardMax.Some? ==> v < l.hardMax.value) ==> Moved(l, v, amount) > v
    ensures amount < 0.0 && l.maxStep > 0.0 && (l.hardMin.Some? ==> v > l.hardMin.value) ==> Moved(l, v, amount) < v
  {
  }

  /** A delta beyond the maximal step counts as the maximal step, and a sum beyond a bound as the bound. */
  lemma MoveIsCapped(l: Limits, v: real, amount: real)
    requires Sane(l)
    ensures amount >= l.maxStep ==> Moved(l, v, amount) == Moved(l, v, l.maxStep)
    ensures amount <= -l.maxStep ==> Moved(l, v, amount) == Moved(l, v, -l.maxStep)
    ensures -l.maxStep <= amount <= l.maxStep && l.hardMax.Some? && v + amount >= l.hardMax.value ==>
              Moved(l, v, amount) == l.hardMax.value
    ensures -l.maxStep <= amount <= l.maxStep && l.hardMin.Some? && v + amount <= l.hardMin.value ==>
              Moved(l, v, amount) == l.hardMin.value
  {
  }

  /** One call sets a tunable leaf to what its delta makes of it, whatever the other deltas are. */
  lemma {:induction false} CallSetsLeaf(c: Contract, body: Node, ds: seq<Delta>, k: nat)
    requires SaneContract(c) && DistinctPaths(ds) && k < |ds| && Tunable(c, body, ds[k].path)
    ensures var d := ds[k];
            GetByPath(TunedAll(c, body, ds), d.path)
            == Some(Num(Moved(c.limits[d.path], GetByPath(body, d.path).value.v, d.amount)))
  {
    var front, last := ds[..|ds| - 1], ds[|ds| - 1];
    var before := TunedAll(c, body, front);
    if k == |ds| - 1 {
      CallMovesOnce(c, body, front, last.path);
      SetThenGet(before, last.path, Moved(c.limits[last.path], GetByPath(before, last.path).value.v, last.amount));
    } else {
      CallSetsLeaf(c, body, front, k);
      if Tunable(c, before, last.path) {
        OtherLeavesStay(before, last.path,
                        Moved(c.limits[last.path], GetByPath(before, last.path).value.v, last.amount), ds[k].path);
      }
    }
  }

  /** A leaf is tunable exactly when it is a number, writable and limited. */
  lemma TunableIff(c: Contract, body: Node, path: Path, amount: real)
    requires SaneContract(c)
    ensures !(path in c.writable && path in c.limits
              && GetByPath(body, path).Some? && GetByPath(body, path).value.Num?) ==>
              Tuned(c, body, Delta(path, amount)) == body
  {
  }

  /** A path leads from key to key: the empty one nowhere else, a longer one to the child under its last key. */
  lemma {:induction false} PathLeads(o: Node, path: Path, key: Text)
    ensures GetByPath(o, []) == Some(o)
    ensures var there := GetByPath(o, path);
            GetByPath(o, path + [key]) == if there.Some? then Child(there.value, key) else None
  {
    if path == [] {
      assert [key][1..] == [] && [] + [key] == [key];
    } else if Child(o, path[0]).Some? {
      assert (path + [key])[1..] == path[1..] + [key];
      PathLeads(Child(o, path[0]).value, path[1..], key);
    }
  }
}
