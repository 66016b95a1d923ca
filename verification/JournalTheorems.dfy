/** What every run of the durable runtime keeps, across faults, crashes and restarts. */
module JournalRuns {
  import opened Texts
  import opened Receipts
  import opened GovernanceRuntime

  // ------------------------------------------------- what the projections mean

  /** Each chain head is the hash of the last receipt with that key, and there are no other heads. */
  lemma {:induction false} HeadsAreLast(rs: seq<Receipt>, key: Text)
    ensures key in Heads(rs) <==> ChainOf(rs, key) != []
    ensures key in Heads(rs) ==> Heads(rs)[key] == ChainOf(rs, key)[|ChainOf(rs, key)| - 1].hash
  {
    if rs != [] {
      HeadsAreLast(rs[..|rs| - 1], key);
    }
  }

  // ----------------------------------------------------------------- one call

  ghost predicate Coherent(p: Process) {
    p.memory == Load(p.journal)
  }

  lemma StepKeepsCoherence(digest: Text -> Text, o: Options, p: Process, d: Draft, now: Text, fault: Fault)
    requires Coherent(p)
    ensures Coherent(PersistStep(digest, o, p, d, now, fault))
  {
    ProjectionsAppend(p.journal.receipts, NextReceipt(digest, o, p.memory.heads, d, now));
  }

  lemma AppendKeepsReceiptsVerified(digest: Text -> Text, o: Options, rs: seq<Receipt>, d: Draft, now: Text)
    requires ReceiptsVerify(digest, rs)
    ensures ReceiptsVerify(digest, rs + [NextReceipt(digest, o, Heads(rs), d, now)])
  {
    var r := NextReceipt(digest, o, Heads(rs), d, now);
    assert Rebuilt(r.core) == r.core;
    ChainOfAppend(rs, r);
    forall key: Text
      ensures ChainVerifies(digest, ChainOf(rs + [r], key))
    {
      if r.core.chainKey == key {
        HeadsAreLast(rs, key);
        ExtendedChainVerifies(digest, ChainOf(rs, key), r);
      }
    }
  }

  lemma ExtendedChainVerifies(digest: Text -> Text, c: seq<Receipt>, r: Receipt)
    requires ChainVerifies(digest, c)
    requires r.core.prev == PrevHash(c, |c|) && r.hash == ReceiptHash(digest, Rebuilt(r.core))
    ensures ChainVerifies(digest, c + [r])
  {
    forall i | 0 <= i < |c| + 1
      ensures LinkVerifies(digest, c + [r], i)
    {
      if i < |c| {
        assert LinkVerifies(digest, c, i);
      }
    }
  }

  lemma ReceiptsKeepAnchorsVerified(digest: Text -> Text, j: Journal, r: Receipt)
    requires AnchorsVerify(digest, j)
    ensures AnchorsVerify(digest, Journal(j.receipts + [r], j.anchors))
  {
    var j' := Journal(j.receipts + [r], j.anchors);
    forall i | 0 <= i < |j'.anchors|
      ensures AnchorVerifies(digest, j', i)
    {
      assert AnchorVerifies(digest, j, i);
      var k :| 0 <= k < |j.receipts| && j.receipts[k].hash == j.anchors[i].core.receiptHash;
      assert j'.receipts[k] == j.receipts[k];
    }
  }

  lemma AppendKeepsAnchorsVerified(digest: Text -> Text, j: Journal, r: Receipt)
    requires AnchorsVerify(digest, j) && HasHash(j.receipts, r.hash)
    ensures AnchorsVerify(digest, Journal(j.receipts, j.anchors + [NextAnchor(digest, j.anchors, r)]))
  {
    var j' := Journal(j.receipts, j.anchors + [NextAnchor(digest, j.anchors, r)]);
    forall i | 0 <= i < |j'.anchors|
      ensures AnchorVerifies(digest, j', i)
    {
      if i < |j.anchors| {
        assert AnchorVerifies(digest, j, i);
      }
    }
  }

  lemma StepKeepsVerified(digest: Text -> Text, o: Options, p: Process, d: Draft, now: Text, fault: Fault)
    requires Coherent(p) && Verified(digest, p.journal)
    ensures Verified(digest, PersistStep(digest, o, p, d, now, fault).journal)
  {
    var j := p.journal;
    var r := NextReceipt(digest, o, p.memory.heads, d, now);
    AppendKeepsReceiptsVerified(digest, o, j.receipts, d, now);
    ReceiptsKeepAnchorsVerified(digest, j, r);
    assert (j.receipts + [r])[|j.receipts|] == r;
    AppendKeepsAnchorsVerified(digest, Journal(j.receipts + [r], j.anchors), r);
  }

  // ------------------------------------------------------------------ whole runs

  /**
   A call that returns or throws, a process that dies inside a call and is started again (the fault
   says how far the call got), or a plain restart.
   */
  datatype Event =
    | Call(draft: Draft, now: Text, fault: Fault)
    | CrashIn(draft: Draft, now: Text, fault: Fault)
    | Restart

  function Advance(digest: Text -> Text, o: Options, p: Process, e: Event): Process {
    match e
    case Call(d, now, fault) => PersistStep(digest, o, p, d, now, fault)
    case CrashIn(d, now, fault) =>
      var j := PersistStep(digest, o, p, d, now, fault).journal;
      Process(j, Load(j))
    case Restart => Process(p.journal, Load(p.journal))
  }

  function Run(digest: Text -> Text, o: Options, p: Process, es: seq<Event>): Process {
    if es == [] then p
    else Advance(digest, o, Run(digest, o, p, es[..|es| - 1]), es[|es| - 1])
  }

  /** Every run from empty or verified files ends with verified files that memory mirrors exactly. */
  lemma {:induction false} EveryRunIsVerified(digest: Text -> Text, o: Options, p: Process, es: seq<Event>)
    requires Coherent(p) && Verified(digest, p.journal)
    ensures Coherent(Run(digest, o, p, es)) && Verified(digest, Run(digest, o, p, es).journal)
  {
    if es != [] {
      EveryRunIsVerified(digest, o, p, es[..|es| - 1]);
      var q := Run(digest, o, p, es[..|es| - 1]);
      var e := es[|es| - 1];
      if !e.Restart? {
        StepKeepsCoherence(digest, o, q, e.draft, e.now, e.fault);
        StepKeepsVerified(digest, o, q, e.draft, e.now, e.fault);
      }
    }
  }

  /** The same events, had the process never died. */
  function Uninterrupted(es: seq<Event>): seq<Event> {
    if es == [] then []
    else
      var init, e := Uninterrupted(es[..|es| - 1]), es[|es| - 1];
      match e
      case Call(_, _, _) => init + [e]
      case CrashIn(d, now, fault) => init + [Call(d, now, fault)]
      case Restart => init
  }

  /**
   Crashes and restarts are invisible: wherever the process dies and is started again, receipts, anchors,
   chain heads and both indexes are those of a process that never stopped and saw the same appends fail.
   */
  lemma {:induction false} CrashesAreInvisible(digest: Text -> Text, o: Options, p: Process, es: seq<Event>)
    requires Coherent(p) && Verified(digest, p.journal)
    ensures Run(digest, o, p, es) == Run(digest, o, p, Uninterrupted(es))
  {
    if es != [] {
      var init, e := es[..|es| - 1], es[|es| - 1];
      CrashesAreInvisible(digest, o, p, init);
      EveryRunIsVerified(digest, o, p, init);
      var q := Run(digest, o, p, init);
      if !e.Restart? {
        StepKeepsCoherence(digest, o, q, e.draft, e.now, e.fault);
        var u := Uninterrupted(init) + [Call(e.draft, e.now, e.fault)];
        assert Uninterrupted(es) == u && u[..|u| - 1] == Uninterrupted(init);
      }
    }
  }

  /** Empty files are verified, so runs may start from nothing. */
  lemma EmptyIsVerified(digest: Text -> Text)
    ensures Verified(digest, Journal([], []))
  {
    assert forall key: Text :: ChainOf([], key) == [];
  }
}

/** What an injective digest makes of a verified journal. */
module TamperEvidence {
  import opened Texts
  import opened Receipts
  import opened GovernanceRuntime
  import opened ReceiptHashTheorems

  ghost predicate WellFormedReceipts(rs: seq<Receipt>) {
    forall i | 0 <= i < |rs| :: WellFormedCore(rs[i].core)
  }

  /** The first `n` receipts of two chains have the same hashes and the same hashed fields. */
  ghost predicate SamePrefix(c1: seq<Receipt>, c2: seq<Receipt>, n: nat) {
    && n <= |c1| && n <= |c2|
    && forall i | 0 <= i < n :: c1[i].hash == c2[i].hash && SameCore(Rebuilt(c1[i].core), Rebuilt(c2[i].core))
  }

  /** A receipt hash commits to the position of its receipt and to everything before it on its chain. */
  lemma {:induction false} HashCommitsToHistory(digest: Text -> Text, c1: seq<Receipt>, i: nat, c2: seq<Receipt>,
                                                k: nat)
    requires Injective(digest)
    requires ChainVerifies(digest, c1) && ChainVerifies(digest, c2)
    requires WellFormedReceipts(c1) && WellFormedReceipts(c2)
    requires i < |c1| && k < |c2| && c1[i].hash == c2[k].hash
    ensures i == k && SamePrefix(c1, c2, i + 1)
    decreases i
  {
    assert LinkVerifies(digest, c1, i) && LinkVerifies(digest, c2, k);
    ReceiptHashIsExact(digest, Rebuilt(c1[i].core), Rebuilt(c2[k].core));
    if i > 0 && k > 0 {
      HashCommitsToHistory(digest, c1, i - 1, c2, k - 1);
    }
  }

  ghost function LastHash(c: seq<Receipt>): Option<Text> {
    if c == [] then None else Some(c[|c| - 1].hash)
  }

  lemma WellFormedChain(rs: seq<Receipt>, key: Text)
    requires WellFormedReceipts(rs)
    ensures WellFormedReceipts(ChainOf(rs, key))
  {
    var c := ChainOf(rs, key);
    forall i | 0 <= i < |c|
      ensures WellFormedCore(c[i].core)
    {
      assert c[i] in rs;
    }
  }

  /**
   Two receipt journals that both verify and agree on the last hash of every chain agree on every chain:
   same length, same hashes, same hashed fields at every position.
   */
  lemma TamperIsEvident(digest: Text -> Text, rs1: seq<Receipt>, rs2: seq<Receipt>)
    requires Injective(digest)
    requires WellFormedReceipts(rs1) && WellFormedReceipts(rs2)
    requires ReceiptsVerify(digest, rs1) && ReceiptsVerify(digest, rs2)
    requires forall key: Text :: LastHash(ChainOf(rs1, key)) == LastHash(ChainOf(rs2, key))
    ensures forall key: Text ::
              |ChainOf(rs1, key)| == |ChainOf(rs2, key)|
                  && SamePrefix(ChainOf(rs1, key), ChainOf(rs2, key), |ChainOf(rs1, key)|)
  {
    forall key: Text
      ensures |ChainOf(rs1, key)| == |ChainOf(rs2, key)|
              && SamePrefix(ChainOf(rs1, key), ChainOf(rs2, key), |ChainOf(rs1, key)|)
    {
      var c1, c2 := ChainOf(rs1, key), ChainOf(rs2, key);
      assert LastHash(c1) == LastHash(c2);
      if c1 != [] {
        WellFormedChain(rs1, key);
        WellFormedChain(rs2, key);
        HashCommitsToHistory(digest, c1, |c1| - 1, c2, |c2| - 1);
      }
    }
  }

  lemma {:induction false} AnchorCommitsToHistory(digest: Text -> Text, j1: Journal, i: nat, j2: Journal, k: nat)
    requires Injective(digest)
    requires AnchorsVerify(digest, j1) && AnchorsVerify(digest, j2)
    requires i < |j1.anchors| && k < |j2.anchors| && j1.anchors[i].hash == j2.anchors[k].hash
    ensures i == k && j1.anchors[..i + 1] == j2.anchors[..i + 1]
    decreases i
  {
    assert AnchorVerifies(digest, j1, i) && AnchorVerifies(digest, j2, k);
    AnchorHashIsExact(digest, j1.anchors[i].core, j2.anchors[k].core);
    if i > 0 && k > 0 {
      AnchorCommitsToHistory(digest, j1, i - 1, j2, k - 1);
      assert j1.anchors[..i + 1] == j1.anchors[..i] + [j1.anchors[i]];
      assert j2.anchors[..i + 1] == j2.anchors[..i] + [j2.anchors[i]];
    }
  }

  lemma {:induction false} FindOnChain(rs: seq<Receipt>, i: nat) returns (n: nat)
    requires i < |rs|
    ensures var c := ChainOf(rs, rs[i].core.chainKey); n < |c| && c[n] == rs[i]
  {
    var init, last := rs[..|rs| - 1], rs[|rs| - 1];
    if i == |rs| - 1 {
      n := |ChainOf(rs, last.core.chainKey)| - 1;
    } else {
      n := FindOnChain(init, i);
    }
  }

  /**
   One hash, that of the last anchor, commits to the whole list of anchors and, for every anchored receipt,
   to its chain up to and including it: no earlier receipt of that chain can differ, be missing or be added.
   */
  lemma LastAnchorCommits(digest: Text -> Text, j1: Journal, j2: Journal, a: nat)
    requires Injective(digest)
    requires WellFormedReceipts(j1.receipts) && WellFormedReceipts(j2.receipts)
    requires Verified(digest, j1) && Verified(digest, j2)
    requires j1.anchors != [] && j2.anchors != []
    requires j1.anchors[|j1.anchors| - 1].hash == j2.anchors[|j2.anchors| - 1].hash
    requires a < |j1.anchors|
    ensures j1.anchors == j2.anchors
    ensures exists key: Text, n: nat ::
              && SamePrefix(ChainOf(j1.receipts, key), ChainOf(j2.receipts, key), n + 1)
              && ChainOf(j1.receipts, key)[n].hash == j1.anchors[a].core.receiptHash
  {
    AnchorCommitsToHistory(digest, j1, |j1.anchors| - 1, j2, |j2.anchors| - 1);
    assert j1.anchors == j1.anchors[..|j1.anchors|] == j2.anchors;
    assert AnchorVerifies(digest, j1, a) && AnchorVerifies(digest, j2, a);
    var h := j1.anchors[a].core.receiptHash;
    var i1 :| 0 <= i1 < |j1.receipts| && j1.receipts[i1].hash == h;
    var i2 :| 0 <= i2 < |j2.receipts| && j2.receipts[i2].hash == h;
    var k1, k2 := j1.receipts[i1].core.chainKey, j2.receipts[i2].core.chainKey;
    var n1 := FindOnChain(j1.receipts, i1);
    var n2 := FindOnChain(j2.receipts, i2);
    WellFormedChain(j1.receipts, k1);
    WellFormedChain(j2.receipts, k2);
    HashCommitsToHistory(digest, ChainOf(j1.receipts, k1), n1, ChainOf(j2.receipts, k2), n2);
    assert SameCore(Rebuilt(j1.receipts[i1].core), Rebuilt(j2.receipts[i2].core));
    assert k1 == k2;
  }
}
