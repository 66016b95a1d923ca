/** `ZAKCompiler.compileContext` of `compiler.ts`: what a set of sigils allows. */
module ZakManifest {
  import opened Texts

  datatype Topology = Open | Porous | Closed | Directed

  /** An invariant of a sigil by its key. The limit is what `parseInt` makes of the parameter, `None` for no number. */
  datatype Invariant = WordLimit(words: Option<int>) | RefuseOpinion | OtherInvariant

  datatype Sigil = Sigil(id: Text, frequency: real, amplitude: real, roughness: real, topology: Topology,
                         invariants: seq<Invariant>)

  /** The smallest word limit: none given, a number, or not a number. */
  datatype Limit = Unlimited | Limit(words: int) | NotANumber

  datatype Summary = Summary(roughness: real, limit: Limit, gatesOpen: bool, forceJson: bool, bias: bool)

  datatype Engine = Engine(temperature: real, topP: real, topK: int, repeatPenalty: real)

  datatype MaxTokens = NoMaximum | Tokens(n: int) | NaNTokens

  datatype Manifest = Manifest(engine: Engine, maxTokens: MaxTokens, bias: bool, tools: bool, rag: bool, json: bool)

  // ------------------------------------------------------------------ arithmetic

  function MaxReal(a: real, b: real): real {
    if a < b then b else a
  }

  /** `+x.toFixed(2)`: the nearest hundredth, halves away from zero. */
  function Hundredths(x: real): real {
    if x >= 0.0 then (x * 100.0 + 0.5).Floor as real / 100.0 else -((-x * 100.0 + 0.5).Floor as real / 100.0)
  }

  /** `materialPhysics` */
  function MaterialPhysics(roughness: real): Engine {
    Engine(
      MaxReal(0.1, Hundredths(1.0 - roughness * 0.9)),
      MaxReal(0.5, Hundredths(1.0 - roughness * 0.5)),
      (100.0 - roughness * 80.0).Floor,
      Hundredths(1.0 + roughness * 0.2))
  }

  /** `Math.ceil(words * 1.3)` */
  function TokensFor(words: int): int {
    -(-13 * words / 10)
  }

  function ManifestOf(s: Summary): Manifest {
    Manifest(MaterialPhysics(s.roughness),
             match s.limit
             case Unlimited => NoMaximum
             case Limit(w) => Tokens(TokensFor(w))
             case NotANumber => NaNTokens,
             s.bias, s.gatesOpen, s.gatesOpen, s.forceJson)
  }

  // --------------------------------------------------- what a summary says of its sigils

  ghost predicate HasLimit(s: Sigil, words: Option<int>) {
    WordLimit(words) in s.invariants
  }

  ghost predicate LimitsTo(sigils: seq<Sigil>, words: Option<int>) {
    exists s :: s in sigils && HasLimit(s, words)
  }

  ghost predicate IsMinimum(sigils: seq<Sigil>, l: Limit) {
    match l
    case NotANumber => LimitsTo(sigils, None)
    case Unlimited => forall s | s in sigils :: !HasSomeLimit(s)
    case Limit(w) =>
      !LimitsTo(sigils, None) && LimitsTo(sigils, Some(w)) && forall x | LimitsTo(sigils, Some(x)) :: w <= x
  }

  ghost predicate HasSomeLimit(s: Sigil) {
    exists words :: HasLimit(s, words)
  }

  /** No mention of order or number: only of which sigils there are. */
  ghost predicate Summarises(sigils: seq<Sigil>, m: Summary) {
    && m.roughness >= 0.0 && (forall s | s in sigils :: s.roughness <= m.roughness)
    && (m.roughness == 0.0 || exists s :: s in sigils && s.roughness == m.roughness)
    && IsMinimum(sigils, m.limit)
    && (m.gatesOpen <==> forall s | s in sigils :: !s.topology.Closed? && !s.topology.Directed?)
    && (m.forceJson <==> exists s :: s in sigils && s.topology.Directed?)
    && (m.bias <==> exists s :: s in sigils && RefuseOpinion in s.invariants)
  }

  // --------------------------------------------------------------------- sorting

  function Band(frequency: real): nat {
    if frequency <= 100.0 then 0 else if frequency <= 500.0 then 1 else 2
  }

  /** The comparator: lower band first, then higher amplitude, then smaller id. */
  predicate Before(a: Sigil, b: Sigil) {
    if Band(a.frequency) != Band(b.frequency) then Band(a.frequency) < Band(b.frequency)
    else if a.amplitude != b.amplitude then a.amplitude > b.amplitude
    else Less(a.id, b.id)
  }

  function Insert(x: Sigil, xs: seq<Sigil>): (r: seq<Sigil>)
    ensures forall s :: s in r <==> s == x || s in xs
  {
    if xs == [] || !Before(xs[0], x) then [x] + xs
    else
      var rest := Insert(x, xs[1..]);
      assert xs == [xs[0]] + xs[1..];
      [xs[0]] + rest
  }

  function Sort(xs: seq<Sigil>): (r: seq<Sigil>)
    ensures forall s :: s in r <==> s in xs
  {
    if xs == [] then []
    else
      assert xs == [xs[0]] + xs[1..];
      Insert(xs[0], Sort(xs[1..]))
  }

  // ------------------------------------------------------------------- compiling

  function MinLimit(l: Limit, words: Option<int>): Limit {
    if l.NotANumber? || words.None? then NotANumber
    else if l.Unlimited? || words.value < l.words then Limit(words.value)
    else l
  }

  /** One pass of the inner loop over the invariants. */
  method ScanInvariants(invariants: seq<Invariant>, limit: Limit, bias: bool) returns (limit': Limit, bias': bool)
    ensures limit' == FoldLimit(limit, invariants)
    ensures bias' <==> bias || RefuseOpinion in invariants
  {
    limit', bias' := limit, bias;
    for i := 0 to |invariants|
      invariant limit' == FoldLimit(limit, invariants[..i])
      invariant bias' <==> bias || RefuseOpinion in invariants[..i]
    {
      assert invariants[..i + 1] == invariants[..i] + [invariants[i]];
      match invariants[i] {
        case WordLimit(words) => limit' := MinLimit(limit', words);
        case RefuseOpinion => bias' := true;
        case OtherInvariant =>
      }
    }
    assert invariants[..|invariants|] == invariants;
  }

  function FoldLimit(l: Limit, invariants: seq<Invariant>): Limit {
    if invariants == [] then l
    else
      var before := FoldLimit(l, invariants[..|invariants| - 1]);
      match invariants[|invariants| - 1]
      case WordLimit(words) => MinLimit(before, words)
      case _ => before
  }

  method CompileContext(sigils: seq<Sigil>) returns (manifest: Manifest)
    ensures exists m: Summary :: Summarises(sigils, m) && manifest == ManifestOf(m)
  {
    hide Summarises, FoldLimit;
    var sorted := Sort(sigils);
    NothingToSummarise();
    var maxRoughness, minWords, gates, forceJson, bias := 0.0, Unlimited, true, false, false;
    for i := 0 to |sorted|
      invariant Summarises(sorted[..i], Summary(maxRoughness, minWords, gates, forceJson, bias))
    {
      var s := sorted[i];
      ghost var before := Summary(maxRoughness, minWords, gates, forceJson, bias);
      maxRoughness := MaxReal(maxRoughness, s.roughness);
      if s.topology.Closed? || s.topology.Directed? {
        gates := false;
      }
      if s.topology.Directed? {
        forceJson := true;
      }
      minWords, bias := ScanInvariants(s.invariants, minWords, bias);
      SummaryExtends(sorted[..i], s, before, Summary(maxRoughness, minWords, gates, forceJson, bias));
      assert sorted[..i + 1] == sorted[..i] + [s];
    }
    assert sorted[..|sorted|] == sorted;
    var found := Summary(maxRoughness, minWords, gates, forceJson, bias);
    SameSigilsSameSummary(sorted, sigils, found);
    manifest := ManifestOf(found);
  }

  lemma NothingToSummarise()
    ensures Summarises([], Summary(0.0, Unlimited, true, false, false))
  {
  }

  /** The least of `l` and the limits in a list. */
  ghost predicate IsLeast(l: Limit, invariants: seq<Invariant>, r: Limit) {
    match r
    case NotANumber => l.NotANumber? || WordLimit(None) in invariants
    case Unlimited => l.Unlimited? && forall words :: WordLimit(words) !in invariants
    case Limit(w) =>
      && !l.NotANumber? && WordLimit(None) !in invariants
      && (l == Limit(w) || WordLimit(Some(w)) in invariants)
      && (l.Limit? ==> w <= l.words) && forall x | WordLimit(Some(x)) in invariants :: w <= x
  }

  lemma {:induction false} FoldIsLeast(l: Limit, invariants: seq<Invariant>)
    ensures IsLeast(l, invariants, FoldLimit(l, invariants))
  {
    if invariants != [] {
      var front, last := invariants[..|invariants| - 1], invariants[|invariants| - 1];
      FoldIsLeast(l, front);
      assert invariants == front + [last];
    }
  }

  lemma LimitExtends(sigils: seq<Sigil>, s: Sigil, l: Limit, l': Limit)
    requires IsMinimum(sigils, l) && IsLeast(l, s.invariants, l')
    ensures IsMinimum(sigils + [s], l')
  {
    forall words | LimitsTo(sigils + [s], words)
      ensures LimitsTo(sigils, words) || HasLimit(s, words)
    {
    }
    forall words | LimitsTo(sigils, words)
      ensures LimitsTo(sigils + [s], words) && !l.Unlimited?
    {
      var x :| x in sigils && HasLimit(x, words);
      assert x in sigils + [s] && (l.Unlimited? ==> !HasSomeLimit(x));
    }
    assert s in sigils + [s];
    if l'.Unlimited? {
      assert forall words :: !HasLimit(s, words);
    }
  }

  lemma SummaryExtends(sigils: seq<Sigil>, s: Sigil, m: Summary, m': Summary)
    requires Summarises(sigils, m)
    requires m' == Summary(MaxReal(m.roughness, s.roughness), FoldLimit(m.limit, s.invariants),
                           m.gatesOpen && !s.topology.Closed? && !s.topology.Directed?,
                           m.forceJson || s.topology.Directed?, m.bias || RefuseOpinion in s.invariants)
    ensures Summarises(sigils + [s], m')
  {
    FoldIsLeast(m.limit, s.invariants);
    LimitExtends(sigils, s, m.limit, m'.limit);
    assert s in sigils + [s];
    forall x | x in sigils
      ensures x in sigils + [s]
    {
    }
  }

  lemma SameSigilsSameSummary(a: seq<Sigil>, b: seq<Sigil>, m: Summary)
    requires (forall s :: s in a <==> s in b) && Summarises(a, m)
    ensures Summarises(b, m)
  {
    forall words
      ensures LimitsTo(a, words) <==> LimitsTo(b, words)
    {
    }
  }

  // ---------------------------------------------------- order and number do not matter

  lemma SummaryIsUnique(sigils: seq<Sigil>, m: Summary, n: Summary)
    requires Summarises(sigils, m) && Summarises(sigils, n)
    ensures m == n
  {
    LimitIsUnique(sigils, m.limit, n.limit);
  }

  lemma LimitIsUnique(sigils: seq<Sigil>, l: Limit, k: Limit)
    requires IsMinimum(sigils, l) && IsMinimum(sigils, k)
    ensures l == k
  {
  }

  /** The manifest depends only on which sigils are given, not on their order or number. */
  lemma ManifestIsOrderIndependent(a: seq<Sigil>, b: seq<Sigil>, m: Summary, n: Summary)
    requires forall s :: s in a <==> s in b
    requires Summarises(a, m) && Summarises(b, n)
    ensures ManifestOf(m) == ManifestOf(n)
  {
    SameSigilsSameSummary(a, b, m);
    SummaryIsUnique(b, m, n);
  }

  // ---------------------------------------------------------------- monotonicity

  lemma FloorIsMonotone(x: real, y: real)
    requires x <= y
    ensures x.Floor <= y.Floor
  {
  }

  lemma HundredthsAreMonotone(x: real, y: real)
    requires x <= y
    ensures Hundredths(x) <= Hundredths(y)
  {
    if x >= 0.0 {
      FloorIsMonotone(x * 100.0 + 0.5, y * 100.0 + 0.5);
    } else if y < 0.0 {
      FloorIsMonotone(-y * 100.0 + 0.5, -x * 100.0 + 0.5);
    }
  }

  lemma TokensAreMonotone(v: int, w: int)
    requires v <= w
    ensures TokensFor(v) <= TokensFor(w)
  {
  }

  /** Rougher material never makes the engine freer. */
  lemma PhysicsIsMonotone(r: real, r': real)
    requires r <= r'
    ensures MaterialPhysics(r').temperature <= MaterialPhysics(r).temperature
    ensures MaterialPhysics(r').topP <= MaterialPhysics(r).topP
    ensures MaterialPhysics(r').topK <= MaterialPhysics(r).topK
    ensures MaterialPhysics(r').repeatPenalty >= MaterialPhysics(r).repeatPenalty
  {
    HundredthsAreMonotone(1.0 - r' * 0.9, 1.0 - r * 0.9);
    HundredthsAreMonotone(1.0 - r' * 0.5, 1.0 - r * 0.5);
    HundredthsAreMonotone(1.0 + r * 0.2, 1.0 + r' * 0.2);
    FloorIsMonotone(100.0 - r' * 80.0, 100.0 - r * 80.0);
  }

  /** `m'` allows no more than `m`. */
  ghost predicate NoFreer(m: Manifest, m': Manifest) {
    && m'.engine.temperature <= m.engine.temperature && m'.engine.topP <= m.engine.topP
       && m'.engine.topK <= m.engine.topK
    && m'.engine.repeatPenalty >= m.engine.repeatPenalty
    && (m.maxTokens.Tokens? ==> m'.maxTokens.Tokens? && m'.maxTokens.n <= m.maxTokens.n)
    && (m'.tools ==> m.tools) && (m'.rag ==> m.rag) && (m.json ==> m'.json) && (m.bias ==> m'.bias)
  }

  /** The word limits of these sigils are numbers. */
  ghost predicate LimitsAreNumbers(sigils: seq<Sigil>) {
    !LimitsTo(sigils, None)
  }

  /** Adding sigils never makes the manifest freer, as long as their word limits are numbers. */
  lemma MoreSigilsAreNoFreer(a: seq<Sigil>, b: seq<Sigil>, m: Summary, n: Summary)
    requires (forall s | s in a :: s in b) && LimitsAreNumbers(b)
    requires Summarises(a, m) && Summarises(b, n)
    ensures NoFreer(ManifestOf(m), ManifestOf(n))
  {
    RoughnessGrows(a, b, m, n);
    PhysicsIsMonotone(m.roughness, n.roughness);
    hide MaterialPhysics, TokensFor;
    if m.limit.Limit? {
      LimitShrinks(a, b, m.limit, n.limit);
      TokensAreMonotone(n.limit.words, m.limit.words);
    }
  }

  lemma RoughnessGrows(a: seq<Sigil>, b: seq<Sigil>, m: Summary, n: Summary)
    requires (forall s | s in a :: s in b) && Summarises(a, m) && Summarises(b, n)
    ensures m.roughness <= n.roughness
  {
    if m.roughness != 0.0 {
      var s :| s in a && s.roughness == m.roughness;
      assert s in b;
    }
  }

  lemma LimitShrinks(a: seq<Sigil>, b: seq<Sigil>, l: Limit, k: Limit)
    requires (forall s | s in a :: s in b) && LimitsAreNumbers(b)
    requires IsMinimum(a, l) && IsMinimum(b, k) && l.Limit?
    ensures k.Limit? && k.words <= l.words
  {
    var s :| s in a && HasLimit(s, Some(l.words));
    assert s in b && HasSomeLimit(s);
    assert LimitsTo(b, Some(l.words));
  }

  /**
   The condition is exact: one sigil whose limit is no number makes the token maximum no number, so that it stops
   limiting whatever the other sigils say.
   */
  lemma OneBadLimitLiftsAll(sigils: seq<Sigil>, m: Summary)
    requires Summarises(sigils, m)
    ensures ManifestOf(m).maxTokens.NaNTokens? <==> !LimitsAreNumbers(sigils)
  {
  }
}
