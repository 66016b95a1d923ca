/** `ZAKRunner.execute` of `runner.ts`: JSON repair and the word limit. */
module ZakRunner {
  import opened Texts
  import opened ZakManifest

  const SPACE: Unit := 32

  // ----------------------------------------------------------------- rounding

  /** `Math.floor(max_tokens / 1.3)` */
  function WordsFor(tokens: int): int {
    10 * tokens / 13
  }

  /** In exact arithmetic the runner recovers the limit the compiler started from. */
  lemma LimitRoundTrip(words: int)
    ensures WordsFor(TokensFor(words)) == words
  {
  }

  // -------------------------------------------------------------------- words

  /** The words of a trimmed text: `split(/\s+/)` drops no empty part but that of an empty text. */
  function SplitWords(t: Text): (ws: seq<Text>)
    ensures |ws| >= 1
    decreases |t|
  {
    var n := WordLength(t);
    if n == |t| then [t] else [t[..n]] + SplitWords(TrimStart(t[n..]))
  }

  function WordLength(t: Text): (n: nat)
    ensures n <= |t| && (forall i | 0 <= i < n :: !IsSpace(t[i])) && (n < |t| ==> IsSpace(t[n]))
  {
    if t == [] || IsSpace(t[0]) then 0 else 1 + WordLength(t[1..])
  }

  function Words(t: Text): seq<Text> {
    SplitWords(Trim(t))
  }

  function JoinWords(ws: seq<Text>): Text {
    if ws == [] then [] else if |ws| == 1 then ws[0] else ws[0] + [SPACE] + JoinWords(ws[1..])
  }

  predicate IsWord(w: Text) {
    w != [] && forall i | 0 <= i < |w| :: !IsSpace(w[i])
  }

  /** No white space at either end, and not empty. */
  predicate IsTrimmed(t: Text) {
    t != [] && !IsSpace(t[0]) && !IsSpace(t[|t| - 1])
  }

  lemma {:induction false} TrimStartKeepsEnd(t: Text)
    ensures TrimStart(t) != [] ==> TrimStart(t)[|TrimStart(t)| - 1] == t[|t| - 1]
  {
    if t != [] && IsSpace(t[0]) {
      TrimStartKeepsEnd(t[1..]);
    }
  }

  lemma {:induction false} SplitGivesWords(t: Text)
    requires IsTrimmed(t)
    ensures forall i | 0 <= i < |SplitWords(t)| :: IsWord(SplitWords(t)[i])
    decreases |t|
  {
    var n := WordLength(t);
    if n < |t| {
      TrimStartKeepsEnd(t[n..]);
      TrimmedTail(t[n..]);
      SplitGivesWords(TrimStart(t[n..]));
    }
  }

  lemma {:induction false} TrimmedTail(t: Text)
    requires t != [] && !IsSpace(t[|t| - 1])
    ensures IsTrimmed(TrimStart(t))
  {
    TrimStartKeepsEnd(t);
    if IsSpace(t[0]) {
      TrimmedTail(t[1..]);
    }
  }

  lemma {:induction false} WordLengthStops(w: Text, rest: Text)
    requires IsWord(w) && (rest == [] || IsSpace(rest[0]))
    ensures WordLength(w + rest) == |w|
  {
    assert (w + rest)[0] == w[0];
    assert (w + rest)[1..] == w[1..] + rest;
    if |w| > 1 {
      WordLengthStops(w[1..], rest);
    }
  }

  lemma {:induction false} JoinIsTrimmed(ws: seq<Text>)
    requires ws != [] && forall i | 0 <= i < |ws| :: IsWord(ws[i])
    ensures IsTrimmed(JoinWords(ws))
  {
    if |ws| > 1 {
      JoinIsTrimmed(ws[1..]);
    }
  }

  /** Splitting joined words gives them back. */
  lemma {:induction false} SplitUndoesJoin(ws: seq<Text>)
    requires ws != [] && forall i | 0 <= i < |ws| :: IsWord(ws[i])
    ensures SplitWords(JoinWords(ws)) == ws
  {
    var t := JoinWords(ws);
    if |ws| == 1 {
      assert ws[0] + [] == ws[0];
      WordLengthStops(ws[0], []);
      assert t[..|t|] == t;
    } else {
      var rest := [SPACE] + JoinWords(ws[1..]);
      assert t == ws[0] + rest;
      WordLengthStops(ws[0], rest);
      SplitUndoesJoin(ws[1..]);
      JoinIsTrimmed(ws[1..]);
      assert t[..|ws[0]|] == ws[0] && t[|ws[0]|..] == rest;
      assert rest[1..] == JoinWords(ws[1..]);
      assert TrimStart(rest) == TrimStart(rest[1..]) == JoinWords(ws[1..]);
    }
  }

  lemma TrimOfTrimmed(t: Text)
    requires IsTrimmed(t)
    ensures Trim(t) == t
  {
  }

  /** The trimmed text, if not empty, has no space at its ends. */
  lemma TrimTrims(t: Text)
    ensures Trim(t) == [] || IsTrimmed(Trim(t))
  {
    var s := TrimStart(t);
    var r := TrimEnd(s);
    if r != [] {
      assert r[0] == s[0];
    }
  }

  /** Keeping the first words and joining them: splitting again gives exactly those words. */
  lemma KeptWords(t: Text, n: nat)
    requires 1 <= n < |Words(t)|
    ensures Words(JoinWords(Words(t)[..n])) == Words(t)[..n]
  {
    TrimTrims(t);
    if Trim(t) == [] {
      assert false;
    } else {
      SplitGivesWords(Trim(t));
      var kept := Words(t)[..n];
      SplitUndoesJoin(kept);
      JoinIsTrimmed(kept);
      TrimOfTrimmed(JoinWords(kept));
    }
  }

  // ------------------------------------------------------------------ truncation

  /** `words.slice(0, limit)`, where a negative limit counts from the end. */
  function Slice(ws: seq<Text>, limit: int): seq<Text> {
    if limit < 0 then (if |ws| + limit <= 0 then [] else ws[..|ws| + limit])
    else if limit >= |ws| then ws else ws[..limit]
  }

  /** A token maximum that is 0 or not a number limits nothing. */
  function Truncated(max: MaxTokens, t: Text): Text {
    if !max.Tokens? || max.n == 0 || |Words(t)| <= WordsFor(max.n) then t
    else JoinWords(Slice(Words(t), WordsFor(max.n)))
  }

  /** With a positive limit, exactly the first words are kept, or the text is left alone. */
  lemma TruncationKeepsFirstWords(words: int, t: Text)
    requires words >= 1
    ensures var kept := if |Words(t)| <= words then |Words(t)| else words;
            Words(Truncated(Tokens(TokensFor(words)), t)) == Words(t)[..kept]
  {
    LimitRoundTrip(words);
    assert Words(t)[..|Words(t)|] == Words(t);
    if |Words(t)| > words {
      KeptWords(t, words);
    }
  }

  /** The limit holds for every text if and only if it is positive. */
  lemma LimitHoldsIffPositive(words: int)
    ensures (forall t: Text :: |Words(Truncated(Tokens(TokensFor(words)), t))| <= words) <==> words >= 1
  {
    hide Words, Truncated, TokensFor;
    if words >= 1 {
      forall t: Text
        ensures |Words(Truncated(Tokens(TokensFor(words)), t))| <= words
      {
        TruncationKeepsFirstWords(words, t);
      }
    } else {
      AtLeastOneWord(Truncated(Tokens(TokensFor(words)), []));
    }
  }

  lemma AtLeastOneWord(t: Text)
    ensures |Words(t)| >= 1
  {
  }

  // ------------------------------------------------------------------- execution

  datatype Action =
    | StartExecution | BiasTranslated | GenerationComplete | JsonValidated | JsonFirstPassFailed | JsonRepaired
    | WordLimitEnforced(limit: int) | Failure(reason: FailureReason)

  datatype FailureReason = RuntimeError | JsonRepairFailed | JsonStructureNotFound

  datatype RunnerResult = Done(text: Text, actions: seq<Action>) | Refused(actions: seq<Action>)

  /** From the first opening to the last closing brace. */
  function Braced(t: Text): Option<Text> {
    match (IndexOf(LBRACE, t), LastIndexOf(RBRACE, t))
    case (Some(start), Some(end)) => if end > start then Some(t[start..end + 1]) else None
    case _ => None
  }

  /** The text that goes on to the word limit, where JSON is asked for. `parses` stands for `JSON.parse`. */
  function Repaired(parses: Text -> bool, t: Text): Option<Text> {
    if parses(t) then Some(t)
    else if Braced(t).Some? && parses(Braced(t).value) then Braced(t)
    else None
  }

  /**
   What the adapter does: whether it translates the phrases to be biased, and what it generates, `None` if it throws.
   */
  datatype Adapter = Adapter(tokenizes: bool, response: Option<Text>)

  predicate BiasFails(manifest: Manifest, adapter: Adapter) {
    manifest.bias && !adapter.tokenizes
  }

  /** What a run lets out. */
  function Released(manifest: Manifest, adapter: Adapter, parses: Text -> bool): Option<Text> {
    var response := adapter.response;
    if BiasFails(manifest, adapter) || response.None? then None
    else
      var checked := if manifest.json then Repaired(parses, response.value) else response;
      if checked.None? then None else Some(Truncated(manifest.maxTokens, checked.value))
  }

  function BiasLog(manifest: Manifest, adapter: Adapter): seq<Action> {
    if manifest.bias && adapter.tokenizes then [BiasTranslated] else []
  }

  function LimitLog(max: MaxTokens, t: Text): seq<Action> {
    if max.Tokens? && max.n != 0 && |Words(t)| > WordsFor(max.n) then [WordLimitEnforced(WordsFor(max.n))] else []
  }

  function JsonLog(parses: Text -> bool, t: Text): seq<Action> {
    if parses(t) then [JsonValidated]
    else if Repaired(parses, t).Some? then [JsonFirstPassFailed, JsonRepaired]
    else [JsonFirstPassFailed, Failure(if Braced(t).Some? then JsonRepairFailed else JsonStructureNotFound)]
  }

  /** The actions after the translation of the bias. */
  function RunLog(manifest: Manifest, adapter: Adapter, parses: Text -> bool): seq<Action> {
    var response := adapter.response;
    if BiasFails(manifest, adapter) || response.None? then [Failure(RuntimeError)]
    else if !manifest.json then [GenerationComplete] + LimitLog(manifest.maxTokens, response.value)
    else
      var checked := Repaired(parses, response.value);
      [GenerationComplete] + JsonLog(parses, response.value)
      + if checked.Some? then LimitLog(manifest.maxTokens, checked.value) else []
  }

  /** Step 3: the output must parse, at worst after one repair. */
  method EnforceJson(output: Text, parses: Text -> bool) returns (checked: Option<Text>, log: seq<Action>)
    ensures checked == Repaired(parses, output) && log == JsonLog(parses, output)
  {
    if parses(output) {
      return Some(output), [JsonValidated];
    }
    log := [JsonFirstPassFailed];
    var start, end := IndexOf(LBRACE, output), LastIndexOf(RBRACE, output);
    if start.None? || end.None? || end.value <= start.value {
      return None, log + [Failure(JsonStructureNotFound)];
    }
    var candidate := output[start.value..end.value + 1];
    if !parses(candidate) {
      return None, log + [Failure(JsonRepairFailed)];
    }
    return Some(candidate), log + [JsonRepaired];
  }

  /** Step 4: the word limit. */
  method EnforceLimit(max: MaxTokens, output: Text) returns (cut: Text, log: seq<Action>)
    ensures cut == Truncated(max, output) && log == LimitLog(max, output)
  {
    hide Words, JoinWords, Slice, WordsFor;
    cut, log := output, [];
    if max.Tokens? && max.n != 0 {
      var limit := WordsFor(max.n);
      var words := Words(output);
      if |words| > limit {
        cut := JoinWords(Slice(words, limit));
        log := [WordLimitEnforced(limit)];
      }
    }
  }

  method Execute(manifest: Manifest, adapter: Adapter, parses: Text -> bool) returns (r: RunnerResult)
    ensures r.Done? <==> Released(manifest, adapter, parses).Some?
    ensures r.Done? ==> r.text == Released(manifest, adapter, parses).value
    ensures r.actions == [StartExecution] + BiasLog(manifest, adapter) + RunLog(manifest, adapter, parses)
  {
    hide Repaired, Truncated, JsonLog, LimitLog;
    var actions := [StartExecution];
    if manifest.bias {
      if !adapter.tokenizes {
        assert [StartExecution] + [] == [StartExecution];
        return Refused(actions + [Failure(RuntimeError)]);
      }
      actions := actions + [BiasTranslated];
    }
    assert actions == [StartExecution] + BiasLog(manifest, adapter);
    if adapter.response.None? {
      return Refused(actions + [Failure(RuntimeError)]);
    }
    var output, log := adapter.response.value, [GenerationComplete];
    if manifest.json {
      var checked, jsonLog := EnforceJson(output, parses);
      log := log + jsonLog;
      if checked.None? {
        assert log + [] == log;
        return Refused(actions + log);
      }
      output := checked.value;
    }
    var cut, limitLog := EnforceLimit(manifest.maxTokens, output);
    r := Done(cut, actions + (log + limitLog));
  }

  /**
   A successful run under a compiled manifest returns at most as many words as the smallest limit of all sigils, and
   they are the first words of what was generated or repaired.
   */
  lemma OutputIsWithinEveryLimit(sigils: seq<Sigil>, m: Summary, adapter: Adapter, parses: Text -> bool, words: int)
    requires Summarises(sigils, m) && LimitsAreNumbers(sigils) && LimitsTo(sigils, Some(words))
    requires m.limit.Limit? ==> m.limit.words >= 1
    requires Released(ManifestOf(m), adapter, parses).Some?
    ensures var text := Released(ManifestOf(m), adapter, parses).value;
            && |Words(text)| <= words
            && exists source: Text :: Words(text) <= Words(source)
                                      && (if m.forceJson then Repaired(parses, adapter.response.value) == Some(source)
                                          else source == adapter.response.value)
  {
    hide Words, Truncated, TokensFor, Repaired;
    var s :| s in sigils && HasLimit(s, Some(words));
    assert HasSomeLimit(s);
    var source := if m.forceJson then Repaired(parses, adapter.response.value).value else adapter.response.value;
    TruncationKeepsFirstWords(m.limit.words, source);
  }

  /** Every run lets out at most as many words as each sigil allows that gives a number. */
  ghost predicate KeepsEveryLimit(sigils: seq<Sigil>, m: Summary) {
    forall adapter: Adapter, parses: Text -> bool, words: int
      | LimitsTo(sigils, Some(words)) && Released(ManifestOf(m), adapter, parses).Some? ::
      |Words(Released(ManifestOf(m), adapter, parses).value)| <= words
  }

  function Copies(word: Text, n: nat): (ws: seq<Text>)
    ensures |ws| == n && forall i | 0 <= i < n :: ws[i] == word
  {
    seq(n, i => word)
  }

  lemma ManyWords(n: nat) returns (t: Text)
    requires n >= 1
    ensures |Words(t)| == n
  {
    var ws := Copies([97], n);
    t := JoinWords(ws);
    SplitUndoesJoin(ws);
    JoinIsTrimmed(ws);
    TrimOfTrimmed(t);
  }

  /** A calm adapter's text is let out as it is where JSON is not asked for, or is parsed. */
  lemma CalmRelease(manifest: Manifest, t: Text, parses: Text -> bool)
    requires parses(t)
    ensures Released(manifest, Adapter(true, Some(t)), parses) == Some(Truncated(manifest.maxTokens, t))
  {
    hide Truncated;
  }

  /**
   Where some sigil gives a number, all runs keep every limit if and only if all limits are numbers and the least of
   them is positive.
   */
  lemma LimitsHoldIff(sigils: seq<Sigil>, m: Summary, words: int)
    requires Summarises(sigils, m) && LimitsTo(sigils, Some(words))
    ensures KeepsEveryLimit(sigils, m) <==> LimitsAreNumbers(sigils) && m.limit.Limit? && m.limit.words >= 1
  {
    hide Words, Truncated, TokensFor, Repaired, Released;
    var all: Text -> bool := t => true;
    if LimitsAreNumbers(sigils) && m.limit.Limit? && m.limit.words >= 1 {
      forall adapter: Adapter, parses: Text -> bool, words: int
        | LimitsTo(sigils, Some(words)) && Released(ManifestOf(m), adapter, parses).Some?
        ensures |Words(Released(ManifestOf(m), adapter, parses).value)| <= words
      {
        OutputIsWithinEveryLimit(sigils, m, adapter, parses, words);
      }
    } else if LimitsAreNumbers(sigils) {
      LimitIsANumber(sigils, m.limit, words);
      CalmRelease(ManifestOf(m), [], all);
      AtLeastOneWord(Truncated(ManifestOf(m).maxTokens, []));
    } else {
      OneBadLimitLiftsAll(sigils, m);
      var t := ManyWords(if words < 0 then 1 else words + 1);
      CalmRelease(ManifestOf(m), t, all);
      NaNTruncatesNothing(t);
    }
  }

  lemma LimitIsANumber(sigils: seq<Sigil>, l: Limit, words: int)
    requires IsMinimum(sigils, l) && LimitsAreNumbers(sigils) && LimitsTo(sigils, Some(words))
    ensures l.Limit? && LimitsTo(sigils, Some(l.words))
  {
    var s :| s in sigils && HasLimit(s, Some(words));
    assert HasSomeLimit(s);
  }

  lemma NaNTruncatesNothing(t: Text)
    ensures Truncated(NaNTokens, t) == t
  {
  }
}
