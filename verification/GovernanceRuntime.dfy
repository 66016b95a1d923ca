/** The durable runtime of `governance-runtime.ts`: files on disk and the process state over them. */
module GovernanceRuntime {
  import opened Texts
  import opened Receipts

  /** `receipts.jsonl` and `anchors.jsonl`, one element a line. */
  class Disk {
    var receipts: seq<Receipt>
    var anchors: seq<Anchor>

    constructor ()
      ensures Journal() == Receipts.Journal([], [])
    {
      receipts, anchors := [], [];
    }

    ghost function Journal(): Journal
      reads this
    {
      Receipts.Journal(receipts, anchors)
    }

    /** `appendFileSync`: one line is written whole, or the call throws and nothing is written. */
    method AppendReceipt(r: Receipt, fails: bool) returns (written: bool)
      modifies this`receipts
      ensures written == !fails
      ensures receipts == if fails then old(receipts) else old(receipts) + [r]
    {
      written := !fails;
      if !fails {
        receipts := receipts + [r];
      }
    }

    method AppendAnchor(a: Anchor, fails: bool) returns (written: bool)
      modifies this`anchors
      ensures written == !fails
      ensures anchors == if fails then old(anchors) else old(anchors) + [a]
    {
      written := !fails;
      if !fails {
        anchors := anchors + [a];
      }
    }
  }

  datatype ChainError = PrevMismatch(chainKey: Text, receiptHash: Text)
      | HashMismatch(chainKey: Text, receiptHash: Text)

  datatype ChainVerification = ChainVerification(ok: bool, checked: nat, chainHeads: nat, errors: seq<ChainError>)

  datatype AnchorError =
    | MissingReceipt(anchorHash: Text)
    | AnchorPrevMismatch(anchorHash: Text)
    | AnchorHashMismatch(anchorHash: Text)

  datatype AnchorVerification = AnchorVerification(ok: bool, checked: nat, errors: seq<AnchorError>)

  datatype LedgerVerification = LedgerVerification(ok: bool, checked: nat, mismatches: nat)

  class FileGovernanceRuntime {
    const options: Options
    const digest: Text -> Text
    const disk: Disk
    var receiptHeads: map<Text, Text>
    var blockedReplay: map<Text, ReplayEntry>
    var idempotencyIndex: map<Text, ReplayEntry>
    var receipts: seq<Receipt>
    var anchors: seq<Anchor>

    ghost function Memory(): Memory
      reads this
    {
      Receipts.Memory(receipts, anchors, receiptHeads, blockedReplay, idempotencyIndex)
    }

    ghost function Process(): Process
      reads this, disk
    {
      Receipts.Process(disk.Journal(), Memory())
    }

    /** Start of a process on files left by an earlier one. */
    constructor (options: Options, digest: Text -> Text, disk: Disk)
      ensures this.options == options && this.digest == digest && this.disk == disk
      ensures Memory() == Load(disk.Journal())
    {
      this.options, this.digest, this.disk := options, digest, disk;
      receiptHeads, blockedReplay, idempotencyIndex := map[], map[], map[];
      receipts, anchors := [], [];
      new;
      LoadState();
    }

    method LoadState()
      requires Memory() == Receipts.Memory([], [], map[], map[], map[])
      modifies this
      ensures Memory() == Load(disk.Journal())
    {
      receipts := receipts + disk.receipts;
      anchors := anchors + disk.anchors;
      var i := 0;
      while i < |receipts|
        invariant 0 <= i <= |receipts|
        invariant receipts == disk.receipts && anchors == disk.anchors
        invariant receiptHeads == Heads(receipts[..i])
        invariant blockedReplay == BlockedReplay(receipts[..i])
        invariant idempotencyIndex == IdempotencyIndex(receipts[..i])
      {
        assert receipts[..i + 1] == receipts[..i] + [receipts[i]];
        ProjectionsAppend(receipts[..i], receipts[i]);
        UpdateProjections(receipts[i]);
        i := i + 1;
      }
      assert receipts[..i] == receipts;
    }

    /** Updates the chain head and both indexes for one receipt. */
    method UpdateProjections(r: Receipt)
      modifies this`receiptHeads, this`blockedReplay, this`idempotencyIndex
      ensures receiptHeads == old(receiptHeads)[r.core.chainKey := r.hash]
      ensures blockedReplay == WithBlocked(old(blockedReplay), ToReplayEntry(r))
      ensures idempotencyIndex == WithIndexed(old(idempotencyIndex), ToReplayEntry(r))
    {
      receiptHeads := receiptHeads[r.core.chainKey := r.hash];
      var replay := ToReplayEntry(r);
      if replay.Some? {
        var e := replay.value;
        blockedReplay := blockedReplay[e.replayKey := e];
        if e.idempotencyKey.Some? {
          idempotencyIndex := idempotencyIndex[IndexKey(e.capability, e.version, e.idempotencyKey.value) := e];
        }
      }
    }

    /** Returns no receipt when an append throws; a receipt already written stays written and remembered. */
    method PersistReceipt(draft: Draft, now: Text, fault: Fault) returns (persisted: Option<Receipt>)
      modifies this, disk
      ensures Process() == PersistStep(digest, options, old(Process()), draft, now, fault)
      ensures persisted == if fault.NoFault?
                           then Some(NextReceipt(digest, options, old(receiptHeads), draft, now))
                           else None
    {
      var chainKey := ChainKeyFor(options, draft.authority);
      var prev := if chainKey in receiptHeads then Some(receiptHeads[chainKey]) else None;
      var core := CoreOf(options, draft, now, prev);
      var receipt := Receipt(core, ReceiptHash(digest, core));
      var written := disk.AppendReceipt(receipt, fault.ReceiptAppendFails?);
      if !written {
        return None;
      }
      receipts := receipts + [receipt];
      UpdateProjections(receipt);
      assert Process() == WithReceipt(old(Process()), receipt);
      written := PersistAnchor(receipt, fault.AnchorAppendFails?);
      persisted := if written then Some(receipt) else None;
    }

    method PersistAnchor(receipt: Receipt, fails: bool) returns (written: bool)
      modifies this`anchors, disk`anchors
      ensures written == !fails
      ensures Process() == if fails then old(Process())
                           else WithAnchor(old(Process()), NextAnchor(digest, old(anchors), receipt))
    {
      var prev := if |anchors| > 0 then Some(anchors[|anchors| - 1].hash) else None;
      var core := AnchorCore(receipt.core.chainKey, receipt.hash, prev, receipt.core.timestamp);
      var anchor := Anchor(core, AnchorHash(digest, core));
      written := disk.AppendAnchor(anchor, fails);
      if written {
        anchors := anchors + [anchor];
      }
    }

    /** `hasBlockedReplay`: some receipt in the file makes a ledger entry for this replay key. */
    method HasBlockedReplay(key: Text) returns (found: bool)
      requires Memory() == Load(disk.Journal())
      ensures found <==> key in Memory().blocked
      ensures found <==> exists i | 0 <= i < |disk.receipts| :: WritesBlocked(disk.receipts[i], key)
    {
      ghost var last := LastBlockedWriter(disk.receipts, key);
      found := key in blockedReplay;
    }

    /** `lookupIdempotencyKey`: the replay key of the last receipt in the file that was filed under this index key. */
    method LookupIdempotencyKey(key: Text) returns (replayKey: Option<Text>)
      requires Memory() == Load(disk.Journal())
      ensures replayKey == if key in Memory().index then Some(Memory().index[key].replayKey) else None
      ensures replayKey.Some? <==> exists i | 0 <= i < |disk.receipts| :: WritesIndex(disk.receipts[i], key)
      ensures replayKey.Some? ==>
                exists i | 0 <= i < |disk.receipts| ::
                  && WritesIndex(disk.receipts[i], key) && disk.receipts[i].core.replayKey == replayKey
                  && forall k | i < k < |disk.receipts| :: !WritesIndex(disk.receipts[k], key)
    {
      ghost var last := LastIndexWriter(disk.receipts, key);
      replayKey := if key in idempotencyIndex then Some(idempotencyIndex[key].replayKey) else None;
      if replayKey.Some? {
        assert disk.receipts[last].core.replayKey == replayKey;
      }
    }

    // -------------------------------------------------------------- verifiers

    /** Receipts by chain key; `order` lists the keys as the source's Map iterates them. */
    method GroupByChain() returns (byChain: map<Text, seq<Receipt>>, order: seq<Text>)
      ensures byChain.Keys == ChainKeys(receipts) == (set k | k in order)
      ensures NoRepeats(order)
      ensures forall k | k in byChain :: byChain[k] == ChainOf(receipts, k)
    {
      byChain, order := map[], [];
      var i := 0;
      while i < |receipts|
        invariant 0 <= i <= |receipts|
        invariant byChain.Keys == ChainKeys(receipts[..i]) == (set k | k in order)
        invariant NoRepeats(order)
        invariant forall k | k in byChain :: byChain[k] == ChainOf(receipts[..i], k)
      {
        var r := receipts[i];
        var key := r.core.chainKey;
        ghost var before := receipts[..i];
        assert receipts[..i + 1] == before + [r];
        ChainOfAppend(before, r);
        if key in byChain {
          byChain := byChain[key := byChain[key] + [r]];
        } else {
          ChainOfEmpty(before, key);
          byChain := byChain[key := [r]];
          order := order + [key];
        }
        i := i + 1;
      }
      assert receipts[..i] == receipts;
    }

    method CheckChain(chainKey: Text, entries: seq<Receipt>) returns (errors: seq<ChainError>)
      ensures errors == [] <==> ChainVerifies(digest, entries)
    {
      errors := [];
      var prev: Option<Text> := None;
      var i := 0;
      while i < |entries|
        invariant 0 <= i <= |entries|
        invariant prev == PrevHash(entries, i)
        invariant |errors| == 0 <==> LinksVerify(digest, entries, i)
      {
        var entry := entries[i];
        var wrongPrev := if entry.core.prev != prev then [PrevMismatch(chainKey, entry.hash)] else [];
        var expected := ReceiptHash(digest, Rebuilt(entry.core));
        var wrongHash := if expected != entry.hash then [HashMismatch(chainKey, entry.hash)] else [];
        assert |wrongPrev| + |wrongHash| == 0 <==> LinkVerifies(digest, entries, i);
        errors := errors + wrongPrev + wrongHash;
        prev := Some(entry.hash);
        i := i + 1;
      }
    }

    method VerifyReceiptChain() returns (v: ChainVerification)
      ensures v.ok <==> v.errors == []
      ensures v.ok <==> ReceiptsVerify(digest, receipts)
      ensures v.checked == |receipts|
      ensures v.chainHeads == |ChainKeys(receipts)|
    {
      var byChain, order := GroupByChain();
      var errors: seq<ChainError> := [];
      var checked := 0;
      var i := 0;
      while i < |order|
        invariant 0 <= i <= |order|
        invariant |errors| == 0 <==> KeysVerify(digest, receipts, order, i)
        invariant checked == TotalLength(receipts, order[..i])
      {
        assert order[i] in byChain.Keys;
        var entries := byChain[order[i]];
        var found := CheckChain(order[i], entries);
        errors := errors + found;
        checked := checked + |entries|;
        assert order[..i + 1][..i] == order[..i];
        i := i + 1;
      }
      assert order[..i] == order;
      ChainsCoverReceipts(receipts, order);
      KnownKeysDecide(digest, receipts, order);
      assert byChain.Keys == ChainKeys(receipts);
      v := ChainVerification(errors == [], checked, |byChain|, errors);
    }

    method VerifyReceiptAnchors() returns (v: AnchorVerification)
      ensures v.ok <==> v.errors == []
      ensures v.ok <==> AnchorsVerify(digest, Journal(receipts, anchors))
      ensures v.checked == |anchors|
    {
      ghost var j := Journal(receipts, anchors);
      var errors: seq<AnchorError> := [];
      var prev: Option<Text> := None;
      var receiptHashes := set r | r in receipts :: r.hash;
      var i := 0;
      while i < |anchors|
        invariant 0 <= i <= |anchors|
        invariant prev == if i == 0 then None else Some(anchors[i - 1].hash)
        invariant |errors| == 0 <==> AnchorsVerifyUpTo(digest, j, i)
      {
        var anchor := anchors[i];
        var missing := if anchor.core.receiptHash !in receiptHashes then [MissingReceipt(anchor.hash)] else [];
        var wrongPrev := if anchor.core.prev != prev then [AnchorPrevMismatch(anchor.hash)] else [];
        var expected := AnchorHash(digest, anchor.core);
        var wrongHash := if expected != anchor.hash then [AnchorHashMismatch(anchor.hash)] else [];
        assert |missing| == 0 <==> HasHash(receipts, anchor.core.receiptHash);
        assert |missing| + |wrongPrev| + |wrongHash| == 0 <==> AnchorVerifies(digest, j, i);
        errors := errors + missing + wrongPrev + wrongHash;
        prev := Some(anchor.hash);
        i := i + 1;
      }
      v := AnchorVerification(errors == [], |anchors|, errors);
    }

    /** The projections are recomputed from the receipts and compared entry by entry. */
    method VerifyReplayLedgerConsistency() returns (v: LedgerVerification)
      ensures v.ok <==> v.mismatches == 0
      ensures v.ok <==>
              Agrees(blockedReplay, BlockedReplay(receipts)) && Agrees(idempotencyIndex, IdempotencyIndex(receipts))
      ensures v.checked == |blockedReplay| + |idempotencyIndex|
    {
      var recomputed: map<Text, ReplayEntry> := map[];
      var recomputedIdem: map<Text, ReplayEntry> := map[];
      var i := 0;
      while i < |receipts|
        invariant 0 <= i <= |receipts|
        invariant recomputed == BlockedReplay(receipts[..i])
        invariant recomputedIdem == IdempotencyIndex(receipts[..i])
      {
        assert receipts[..i + 1] == receipts[..i] + [receipts[i]];
        ProjectionsAppend(receipts[..i], receipts[i]);
        var replay := ToReplayEntry(receipts[i]);
        if replay.Some? {
          var e := replay.value;
          recomputed := recomputed[e.replayKey := e];
          if e.idempotencyKey.Some? {
            recomputedIdem := recomputedIdem[IndexKey(e.capability, e.version, e.idempotencyKey.value) := e];
          }
        }
        i := i + 1;
      }
      assert receipts[..i] == receipts;
      var blockedMismatches := CountMismatches(blockedReplay, recomputed);
      var indexMismatches := CountMismatches(idempotencyIndex, recomputedIdem);
      var mismatches := blockedMismatches + indexMismatches;
      v := LedgerVerification(mismatches == 0, |blockedReplay| + |idempotencyIndex|, mismatches);
    }

    method CountMismatches(held: map<Text, ReplayEntry>, expected: map<Text, ReplayEntry>) returns (n: nat)
      ensures n == 0 <==> Agrees(held, expected)
    {
      n := 0;
      var todo := held.Keys;
      while todo != {}
        invariant todo <= held.Keys
        invariant n == 0 <==> forall k | k in held && k !in todo :: AgreesAt(held, expected, k)
        decreases todo
      {
        var k :| k in todo;
        if k !in expected || expected[k].receiptHash != held[k].receiptHash {
          n := n + 1;
        }
        todo := todo - {k};
      }
    }

    /** `assertStartupInvariants`: the store is there and all three verifiers pass. */
    method AssertStartupInvariants(storeAvailable: bool) returns (ok: bool)
      requires Memory() == Load(disk.Journal())
      ensures ok <==> storeAvailable && Verified(digest, disk.Journal())
    {
      var chain := VerifyReceiptChain();
      var anchorCheck := VerifyReceiptAnchors();
      var ledger := VerifyReplayLedgerConsistency();
      ok := storeAvailable && chain.ok && anchorCheck.ok && ledger.ok;
    }
  }

  // ------------------------------------------------------------- facts about chains

  ghost predicate NoRepeats(order: seq<Text>) {
    forall i, k | 0 <= i < k < |order| :: order[i] != order[k]
  }

  ghost predicate AgreesAt(held: map<Text, ReplayEntry>, expected: map<Text, ReplayEntry>, k: Text)
    requires k in held
  {
    k in expected && expected[k].receiptHash == held[k].receiptHash
  }

  ghost predicate Agrees(held: map<Text, ReplayEntry>, expected: map<Text, ReplayEntry>) {
    forall k | k in held :: AgreesAt(held, expected, k)
  }

  lemma ChainOfAppend(rs: seq<Receipt>, r: Receipt)
    ensures forall k :: ChainOf(rs + [r], k) == ChainOf(rs, k) + (if r.core.chainKey == k then [r] else [])
  {
    assert (rs + [r])[..|rs|] == rs;
  }

  lemma {:induction false} ChainOfEmpty(rs: seq<Receipt>, key: Text)
    ensures ChainOf(rs, key) == [] <==> key !in ChainKeys(rs)
  {
    if rs != [] {
      var init, last := rs[..|rs| - 1], rs[|rs| - 1];
      ChainOfEmpty(init, key);
      assert rs == init + [last];
    }
  }

  ghost function TotalLength(rs: seq<Receipt>, order: seq<Text>): nat {
    if order == [] then 0
    else TotalLength(rs, order[..|order| - 1]) + |ChainOf(rs, order[|order| - 1])|
  }

  lemma {:induction false} TotalLengthAppend(rs: seq<Receipt>, r: Receipt, order: seq<Text>)
    requires NoRepeats(order)
    ensures TotalLength(rs + [r], order) == TotalLength(rs, order) + (if r.core.chainKey in order then 1 else 0)
  {
    hide ChainOf;
    ChainOfAppend(rs, r);
    if order != [] {
      var init, last := order[..|order| - 1], order[|order| - 1];
      TotalLengthAppend(rs, r, init);
      assert order == init + [last];
    }
  }

  lemma {:induction false} TotalLengthOfNothing(order: seq<Text>)
    ensures TotalLength([], order) == 0
  {
    if order != [] {
      TotalLengthOfNothing(order[..|order| - 1]);
    }
  }

  /** Grouping loses no receipt and counts none twice. */
  lemma {:induction false} ChainsCoverReceipts(rs: seq<Receipt>, order: seq<Text>)
    requires NoRepeats(order) && ChainKeys(rs) <= (set k | k in order)
    ensures TotalLength(rs, order) == |rs|
  {
    if rs == [] {
      TotalLengthOfNothing(order);
    } else {
      var init, last := rs[..|rs| - 1], rs[|rs| - 1];
      assert rs == init + [last];
      assert last.core.chainKey in ChainKeys(rs);
      assert ChainKeys(init) <= ChainKeys(rs);
      ChainsCoverReceipts(init, order);
      TotalLengthAppend(init, last, order);
    }
  }

  ghost predicate KeysVerify(digest: Text -> Text, rs: seq<Receipt>, order: seq<Text>, n: nat)
    requires n <= |order|
  {
    forall i | 0 <= i < n :: ChainVerifies(digest, ChainOf(rs, order[i]))
  }

  lemma KnownKeysDecide(digest: Text -> Text, rs: seq<Receipt>, order: seq<Text>)
    requires ChainKeys(rs) == (set k | k in order)
    ensures ReceiptsVerify(digest, rs) <==> KeysVerify(digest, rs, order, |order|)
  {
    if KeysVerify(digest, rs, order, |order|) {
      forall key: Text
        ensures ChainVerifies(digest, ChainOf(rs, key))
      {
        ChainOfEmpty(rs, key);
      }
    }
  }
}
