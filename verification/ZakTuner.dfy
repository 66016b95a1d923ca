/** `applyTuning` of `tuner.ts`: bounded changes of numbers inside a sigil, over any history of calls. */
module ZakTuner {
  import opened Texts

  /** A JSON value of a sigil body, with numbers as reals. */
  datatype Node =
    | Num(v: real)
    | Str(s: Text)
    | Flag(b: bool)
    | Null
    | Obj(fields: map<Text, Node>)
    | Arr(items: seq<Node>)

  /** The keys of a path, as `split(".")` gives them. */
  type Path = seq<Text>

  /** `hash` seals the body. */
  datatype Sigil = Sigil(body: Node, version: int, createdAt: Text, contentHash: Text)

  datatype Limits = Limits(maxStep: real, hardMin: Option<real>, hardMax: Option<real>)

  datatype Contract = Contract(writable: set<Path>, limits: map<Path, Limits>)

  datatype Delta = Delta(path: Path, amount: real)

  // ----------------------------------------------------------------------- paths

  function Decimal(n: nat): Text {
    (if n < 10 then [] else Decimal(n / 10)) + [(48 + n % 10) as Unit]
  }

  /** The position below `n` whose decimal form is the key. */
  function Position(key: Text, n: nat): (r: Option<nat>)
    ensures r.Some? ==> r.value < n && Decimal(r.value) == key
  {
    if n == 0 then None else if Decimal(n - 1) == key then Some(n - 1) else Position(key, n - 1)
  }

  function Child(o: Node, key: Text): Option<Node> {
    match o
    case Obj(fields) => if key in fields then Some(fields[key]) else None
    case Arr(items) =>
      var i := Position(key, |items|);
      if i.Some? then Some(items[i.value]) else None
    case _ => None
  }

  /** `getByPath` */
  function GetByPath(o: Node, path: Path): Option<Node> {
    if path == [] then Some(o)
    else
      match Child(o, path[0])
      case None => None
      case Some(c) => GetByPath(c, path[1..])
  }

  function WithChild(o: Node, key: Text, c: Node): Node
    requires Child(o, key).Some?
  {
    match o
    case Obj(fields) => Obj(fields[key := c])
    case Arr(items) => Arr(items[Position(key, |items|).value := c])
  }

  /** `setByPath`, on a path that leads somewhere. */
  function SetByPath(o: Node, path: Path, value: real): Node
    requires GetByPath(o, path).Some?
  {
    if path == [] then Num(value)
    else WithChild(o, path[0], SetByPath(Child(o, path[0]).value, path[1..], value))
  }

  predicate IsLeaf(n: Node) {
    !n.Obj? && !n.Arr?
  }

  lemma ChildOfWith(o: Node, key: Text, c: Node, other: Text)
    requires Child(o, key).Some?
    ensures Child(WithChild(o, key, c), other) == if other == key then Some(c) else Child(o, other)
  {
    if o.Arr? && other != key {
      var i, k := Position(key, |o.items|), Position(other, |o.items|);
      assert k.Some? ==> k.value != i.value;
    }
  }

  lemma {:induction false} SetThenGet(o: Node, path: Path, value: real)
    requires GetByPath(o, path).Some?
    ensures GetByPath(SetByPath(o, path, value), path) == Some(Num(value))
  {
    if path != [] {
      var c := Child(o, path[0]).value;
      SetThenGet(c, path[1..], value);
      ChildOfWith(o, path[0], SetByPath(c, path[1..], value), path[0]);
    }
  }

  /** Setting one leaf changes no other leaf, and makes none appear or disappear. */
  lemma {:induction false} OtherLeavesStay(o: Node, path: Path, value: real, other: Path)
    requires GetByPath(o, path).Some? && IsLeaf(GetByPath(o, path).value) && other != path
    ensures var was, now := GetByPath(o, other), GetByPath(SetByPath(o, path, value), other);
            (was.None? || IsLeaf(was.value) || now.None? || IsLeaf(now.value)) ==> now == was
  {
    if path != [] && other != [] {
      var c := Child(o, path[0]).value;
      ChildOfWith(o, path[0], SetByPath(c, path[1..], value), other[0]);
      if other[0] == path[0] {
        assert path == [path[0]] + path[1..] && other == [other[0]] + other[1..];
        OtherLeavesStay(c, path[1..], value, other[1..]);
      }
    } else if path == [] {
      NothingBelowLeaf(o, other);
      NothingBelowLeaf(Num(value), other);
    } else {
      StaysContainer(o, path[0], SetByPath(Child(o, path[0]).value, path[1..], value));
    }
  }

  lemma NothingBelowLeaf(o: Node, path: Path)
    requires IsLeaf(o) && path != []
    ensures GetByPath(o, path).None?
  {
  }

  lemma StaysContainer(o: Node, key: Text, c: Node)
    requires Child(o, key).Some?
    ensures !IsLeaf(o) && !IsLeaf(WithChild(o, key, c))
  {
  }

  // --------------------------------------------------------------------- tuning

  function Min(a: real, b: real): real {
    if a < b then a else b
  }

  function Max(a: real, b: real): real {
    if a < b then b else a
  }

  /** The new value of a number: a clamped step, then the hard bounds. */
  function Moved(l: Limits, current: real, amount: real): real {
    var stepped := current + Max(-l.maxStep, Min(amount, l.maxStep));
    var raised := if l.hardMin.Some? then Max(stepped, l.hardMin.value) else stepped;
    if l.hardMax.Some? then Min(raised, l.hardMax.value) else raised
  }

  predicate Tunable(c: Contract, body: Node, path: Path) {
    path in c.writable && path in c.limits && GetByPath(body, path).Some? && GetByPath(body, path).value.Num?
  }

  function Tuned(c: Contract, body: Node, d: Delta): Node {
    if !Tunable(c, body, d.path) then body
    else SetByPath(body, d.path, Moved(c.limits[d.path], GetByPath(body, d.path).value.v, d.amount))
  }

  function TunedAll(c: Contract, body: Node, ds: seq<Delta>): Node {
    if ds == [] then body else Tuned(c, TunedAll(c, body, ds[..|ds| - 1]), ds[|ds| - 1])
  }

  /** The entries of a record have different keys. */
  ghost predicate DistinctPaths(ds: seq<Delta>) {
    forall i, k | 0 <= i < k < |ds| :: ds[i].path != ds[k].path
  }

  method ApplyTuning(sigil: Sigil, proposed: seq<Delta>, contract: Contract, now: Text, hash: Node -> Text)
    returns (next: Sigil)
    ensures next == AfterCall(sigil, proposed, contract, now, hash)
  {
    var body := sigil.body;
    for i := 0 to |proposed|
      invariant body == TunedAll(contract, sigil.body, proposed[..i])
    {
      var path, amount := proposed[i].path, proposed[i].amount;
      assert proposed[..i + 1][..i] == proposed[..i];
      if path !in contract.writable || path !in contract.limits {
        continue;
      }
      var limits := contract.limits[path];
      var step := Max(-limits.maxStep, Min(amount, limits.maxStep));
      var current := GetByPath(body, path);
      if current.None? || !current.value.Num? {
        continue;
      }
      var value := current.value.v + step;
      if limits.hardMin.Some? {
        value := Max(value, limits.hardMin.value);
      }
      if limits.hardMax.Some? {
        value := Min(value, limits.hardMax.value);
      }
      body := SetByPath(body, path, value);
    }
    assert proposed[..|proposed|] == proposed;
    next := Sigil(body, sigil.version + 1, now, hash(body));
  }

  function AfterCall(sigil: Sigil, proposed: seq<Delta>, contract: Contract, now: Text, hash: Node -> Text): Sigil {
    var body := TunedAll(contract, sigil.body, proposed);
    Sigil(body, sigil.version + 1, now, hash(body))
  }

  /** The integrity check of `ZAKValidator.validate`. */
  predicate IntegrityHolds(sigil: Sigil, hash: Node -> Text) {
    hash(sigil.body) == sigil.contentHash
  }

  // ------------------------------------------------------------------- one call

  ghost predicate Sane(l: Limits) {
    l.maxStep >= 0.0 && (l.hardMin.Some? && l.hardMax.Some? ==> l.hardMin.value <= l.hardMax.value)
  }

  ghost predicate Within(l: Limits, v: real) {
    (l.hardMin.Some? ==> l.hardMin.value <= v) && (l.hardMax.Some? ==> v <= l.hardMax.value)
  }

  function Distance(a: real, b: real): (d: real)
    ensures -d <= a - b <= d
  {
    if a < b then b - a else a - b
  }

  /** A value in bounds moves by at most one step and stays in bounds; any value ends in bounds. */
  lemma MoveIsBounded(l: Limits, v: real, amount: real)
    requires Sane(l)
    ensures Within(l, Moved(l, v, amount))
    ensures Within(l, v) ==> Distance(v, Moved(l, v, amount)) <= l.maxStep
  {
  }

  /** What a call may do to the leaf at a path. */
  ghost predicate LeafMoved(c: Contract, was: Option<Node>, now: Option<Node>, path: Path, steps: nat) {
    if was.Some? && was.value.Num? && path in c.writable && path in c.limits then
      && now.Some? && now.value.Num?
      && (Within(c.limits[path], was.value.v) ==>
            Within(c.limits[path], now.value.v)
                && Distance(was.value.v, now.value.v) <= steps as real * c.limits[path].maxStep)
    else now == was
  }

  ghost predicate SaneContract(c: Contract) {
    forall path | path in c.limits :: Sane(c.limits[path])
  }

  ghost predicate LeafOrNothing(n: Option<Node>) {
    n.None? || IsLeaf(n.value)
  }

  /** The changes of one call leave a leaf alone, or move it once. */
  lemma {:induction false} CallMovesOnce(c: Contract, body: Node, ds: seq<Delta>, path: Path)
    requires SaneContract(c) && DistinctPaths(ds) && LeafOrNothing(GetByPath(body, path))
    ensures LeafMoved(c, GetByPath(body, path), GetByPath(TunedAll(c, body, ds), path), path, 1)
    ensures (forall i | 0 <= i < |ds| :: ds[i].path != path) ==>
              GetByPath(TunedAll(c, body, ds), path) == GetByPath(body, path)
    ensures LeafOrNothing(GetByPath(TunedAll(c, body, ds), path))
  {
    if ds != [] {
      var front, d := ds[..|ds| - 1], ds[|ds| - 1];
      var before := TunedAll(c, body, front);
      CallMovesOnce(c, body, front, path);
      if Tunable(c, before, d.path) {
        var v := Moved(c.limits[d.path], GetByPath(before, d.path).value.v, d.amount);
        MoveIsBounded(c.limits[d.path], GetByPath(before, d.path).value.v, d.amount);
        SetThenGet(before, d.path, v);
        if path != d.path {
          OtherLeavesStay(before, d.path, v, path);
        }
      }
    }
  }

  // ---------------------------------------------------------------------- history

  /** One call, with the time it was made at. */
  datatype Call = Call(proposed: seq<Delta>, now: Text)

  function AfterCalls(sigil: Sigil, calls: seq<Call>, contract: Contract, hash: Node -> Text): Sigil {
    if calls == [] then sigil
    else
      var last := calls[|calls| - 1];
      AfterCall(AfterCalls(sigil, calls[..|calls| - 1], contract, hash), last.proposed, contract, last.now, hash)
  }

  lemma DriftsAdd(c: Contract, was: Option<Node>, mid: Option<Node>, now: Option<Node>, path: Path, n: nat)
    requires SaneContract(c) && LeafMoved(c, was, mid, path, n) && LeafMoved(c, mid, now, path, 1)
    ensures LeafMoved(c, was, now, path, n + 1)
  {
    if was.Some? && was.value.Num? && path in c.writable && path in c.limits && Within(c.limits[path], was.value.v) {
      var m := c.limits[path].maxStep;
      assert n as real * m + 1.0 * m == (n + 1) as real * m;
    }
  }

  /**
   Over any history of calls, a leaf outside the writable, limited, numeric paths never changes; a number in bounds
   stays in bounds and drifts by at most one maximal step per call; the version counts the calls; and the seal is
   the one the validator computes.
   */
  lemma {:induction false} HistoryIsBounded(sigil: Sigil, calls: seq<Call>, contract: Contract, hash: Node -> Text,
                                            path: Path)
    requires SaneContract(contract) && (forall i | 0 <= i < |calls| :: DistinctPaths(calls[i].proposed))
    requires LeafOrNothing(GetByPath(sigil.body, path))
    ensures var after := AfterCalls(sigil, calls, contract, hash);
            && LeafMoved(contract, GetByPath(sigil.body, path), GetByPath(after.body, path), path, |calls|)
            && LeafOrNothing(GetByPath(after.body, path))
            && after.version == sigil.version + |calls|
            && (calls != [] ==> IntegrityHolds(after, hash))
  {
    if calls != [] {
      var front := calls[..|calls| - 1];
      var before := AfterCalls(sigil, front, contract, hash);
      HistoryIsBounded(sigil, front, contract, hash, path);
      CallMovesOnce(contract, before.body, calls[|calls| - 1].proposed, path);
      DriftsAdd(contract, GetByPath(sigil.body, path), GetByPath(before.body, path),
                GetByPath(AfterCalls(sigil, calls, contract, hash).body, path), path, |front|);
    }
  }
}
