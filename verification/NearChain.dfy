/**
 The NEAR chain as far as recovery relies on it: access-key nonces, block heights and
 the expiry of delegated actions (the Specification section of NEP-366), read through
 two nodes that may lag but answer from one finished block each.
 */
module NearChain {
  /** The relayer's transaction carrying the payer's delegated transfer; `signer` is account and key. */
  datatype OuterTx = OuterTx(signer: string, nonce: nat, delegate: string, maxHeight: nat)

  /** A block: the transactions it includes and the delegate receipts it applies. */
  datatype Block = Block(height: nat, included: seq<OuterTx>, applied: seq<OuterTx>)

  type Chain = seq<Block>

  function Included(c: Chain): (txs: seq<OuterTx>) {
    if c == [] then [] else Included(c[..|c| - 1]) + c[|c| - 1].included
  }

  /** The access-key nonce after a sequence of transactions. */
  function KeyNonce(txs: seq<OuterTx>, signer: string): (n: nat) {
    if txs == [] then 0
    else
      var before, last := KeyNonce(txs[..|txs| - 1], signer), txs[|txs| - 1];
      if last.signer == signer && last.nonce > before then last.nonce else before
  }

  /** A transaction is included only with a nonce above its key's. */
  predicate NonceRule(txs: seq<OuterTx>) {
    forall i | 0 <= i < |txs| :: txs[i].nonce > KeyNonce(txs[..i], txs[i].signer)
  }

  /** A delegate receipt runs in or after the block that included its transaction. */
  predicate IncludedBy(c: Chain, tx: OuterTx, k: nat) {
    exists j | 0 <= j <= k && j < |c| :: tx in c[j].included
  }

  predicate Valid(c: Chain) {
    && (forall i, j | 0 <= i < j < |c| :: c[i].height < c[j].height)
    && NonceRule(Included(c))
    && (forall k, tx | 0 <= k < |c| && tx in c[k].applied :: IncludedBy(c, tx, k))
  }

  /** The expiry rule lets the delegated transfer run in this block. */
  predicate Transfers(b: Block, tx: OuterTx) {
    tx in b.applied && b.height <= tx.maxHeight
  }

  predicate EverTransfers(c: Chain, tx: OuterTx) {
    exists k | 0 <= k < |c| :: Transfers(c[k], tx)
  }

  /** A node's answer: height and key nonce of the same finished block. */
  datatype Head = Head(height: nat, nonce: nat)

  function View(c: Chain, n: nat, signer: string): (h: Head)
    requires 0 < n <= |c|
  {
    Head(c[n - 1].height, KeyNonce(Included(c[..n]), signer))
  }

  datatype Decision = QuarantineKey | ExpireRow | Rebroadcast

  /** What recovery does with a transaction that both readers do not know. */
  function Decide(primary: Head, backup: Head, nonce: nat, maxHeight: nat): (d: Decision) {
    if primary.nonce >= nonce || backup.nonce >= nonce then QuarantineKey
    else if (if primary.height >= backup.height then primary.height else backup.height) >= maxHeight then ExpireRow
    else Rebroadcast
  }

  lemma {:induction false} IncludedPrefix(c: Chain, d: Chain)
    ensures Included(c + d) == Included(c) + Included(d)
  {
    if d == [] {
      assert c + d == c;
    } else {
      var e := c + d;
      assert e[..|e| - 1] == c + d[..|d| - 1];
      IncludedPrefix(c, d[..|d| - 1]);
    }
  }

  lemma {:induction false} NonceCoversMembers(txs: seq<OuterTx>, tx: OuterTx)
    requires tx in txs
    ensures KeyNonce(txs, tx.signer) >= tx.nonce
  {
    var init := txs[..|txs| - 1];
    if tx in init {
      NonceCoversMembers(init, tx);
    } else {
      assert txs == init + [txs[|txs| - 1]];
    }
  }

  lemma {:induction false} NonceGrows(txs: seq<OuterTx>, more: seq<OuterTx>, signer: string)
    ensures KeyNonce(txs, signer) <= KeyNonce(txs + more, signer)
  {
    if more == [] {
      assert txs + more == txs;
    } else {
      var all := txs + more;
      assert all[..|all| - 1] == txs + more[..|more| - 1];
      NonceGrows(txs, more[..|more| - 1], signer);
    }
  }

  /** The nonce rule alone includes a transaction at most once, however often its bytes are sent. */
  lemma IncludedAtMostOnce(c: Chain, i: nat, j: nat)
    requires Valid(c) && i < j < |Included(c)|
    ensures var txs := Included(c); txs[i].signer != txs[j].signer || txs[i].nonce != txs[j].nonce
  {
    var txs := Included(c);
    assert txs[i] in txs[..j];
    NonceCoversMembers(txs[..j], txs[i]);
  }

  lemma {:induction false} MemberIsIncluded(c: Chain, j: nat, tx: OuterTx)
    requires j < |c| && tx in c[j].included
    ensures tx in Included(c)
  {
    if j < |c| - 1 {
      MemberIsIncluded(c[..|c| - 1], j, tx);
    }
  }

  /** A transaction missing below a height that ends its delegate can never transfer. */
  lemma NeverAfterExpiry(c: Chain, n: nat, later: Chain, tx: OuterTx)
    requires 0 < n <= |c| && Valid(later) && c <= later
    requires View(c, n, tx.signer).nonce < tx.nonce && View(c, n, tx.signer).height >= tx.maxHeight
    ensures !EverTransfers(later, tx)
  {
    forall k | 0 <= k < |later| ensures !Transfers(later[k], tx) {
      assert later[n - 1] == c[n - 1];
      if k < n && tx in later[k].applied {
        assert IncludedBy(later, tx, k);
        var j :| 0 <= j <= k && tx in later[j].included;
        MemberIsIncluded(c[..n], j, tx);
        NonceCoversMembers(Included(c[..n]), tx);
        assert false;
      }
    }
  }

  lemma LaterViewIsHigher(c: Chain, m: nat, n: nat, signer: string)
    requires Valid(c) && 0 < m <= n <= |c|
    ensures View(c, m, signer).height <= View(c, n, signer).height
    ensures View(c, m, signer).nonce <= View(c, n, signer).nonce
  {
    assert c[..n] == c[..m] + c[m..n];
    IncludedPrefix(c[..m], c[m..n]);
    NonceGrows(Included(c[..m]), Included(c[m..n]), signer);
  }

  /**
   Expiry is sound: once recovery has expired a row from two pinned reads, no continuation of the
   chain ever runs that row's transfer.
   */
  lemma ExpiryIsSound(c: Chain, m: nat, n: nat, later: Chain, tx: OuterTx)
    requires Valid(c) && 0 < m <= |c| && 0 < n <= |c| && Valid(later) && c <= later
    requires Decide(View(c, m, tx.signer), View(c, n, tx.signer), tx.nonce, tx.maxHeight) == ExpireRow
    ensures !EverTransfers(later, tx)
  {
    if View(c, m, tx.signer).height >= tx.maxHeight {
      NeverAfterExpiry(c, m, later, tx);
    } else {
      NeverAfterExpiry(c, n, later, tx);
    }
  }

  function NextBlock(c: Chain, tx: OuterTx): (b: Block)
    requires c != []
  {
    Block(c[|c| - 1].height + 1, [tx], [tx])
  }

  lemma NonceRuleExtends(txs: seq<OuterTx>, tx: OuterTx)
    requires NonceRule(txs) && KeyNonce(txs, tx.signer) < tx.nonce
    ensures NonceRule(txs + [tx])
  {
    var all := txs + [tx];
    forall i | 0 <= i < |all| ensures all[i].nonce > KeyNonce(all[..i], all[i].signer) {
      assert all[..i] == txs[..i];
      assert txs[..|txs|] == txs;
    }
  }

  lemma ExtendIsValid(c: Chain, tx: OuterTx)
    requires Valid(c) && c != [] && KeyNonce(Included(c), tx.signer) < tx.nonce
    ensures Valid(c + [NextBlock(c, tx)])
  {
    var d := c + [NextBlock(c, tx)];
    assert d[..|d| - 1] == c;
    assert Included(d) == Included(c) + [tx];
    NonceRuleExtends(Included(c), tx);
    forall k, t | 0 <= k < |d| && t in d[k].applied ensures IncludedBy(d, t, k) {
      if k < |c| {
        assert IncludedBy(c, t, k);
        var j :| 0 <= j <= k && t in c[j].included;
        assert t in d[j].included;
      } else {
        assert t in d[k].included;
      }
    }
  }

  /**
   The decision is exact for what the two readers have seen: a row is rebroadcast only while the
   transfer can still happen on some continuation of the later view.
   */
  lemma RebroadcastOnlyWhileAlive(c: Chain, m: nat, n: nat, tx: OuterTx) returns (later: Chain)
    requires Valid(c) && 0 < m <= |c| && 0 < n <= |c| && (m == |c| || n == |c|)
    requires Decide(View(c, m, tx.signer), View(c, n, tx.signer), tx.nonce, tx.maxHeight) == Rebroadcast
    ensures Valid(later) && c <= later && EverTransfers(later, tx)
  {
    assert c[..|c|] == c;
    LaterViewIsHigher(c, m, |c|, tx.signer);
    LaterViewIsHigher(c, n, |c|, tx.signer);
    ExtendIsValid(c, tx);
    later := c + [NextBlock(c, tx)];
    assert Transfers(later[|c|], tx);
  }

  lemma {:induction false} NonceHasTransaction(txs: seq<OuterTx>, signer: string) returns (tx: OuterTx)
    requires KeyNonce(txs, signer) > 0
    ensures tx in txs && tx.signer == signer && tx.nonce == KeyNonce(txs, signer)
  {
    var init, last := txs[..|txs| - 1], txs[|txs| - 1];
    if last.signer == signer && last.nonce > KeyNonce(init, signer) {
      tx := last;
    } else {
      tx := NonceHasTransaction(init, signer);
    }
  }

  /** A key is quarantined exactly when a reader saw its nonce used, and then some transaction used it or a later. */
  lemma QuarantineMeansUsed(c: Chain, m: nat, n: nat, signer: string, nonce: nat, maxHeight: nat)
    requires Valid(c) && 0 < m <= |c| && 0 < n <= |c| && nonce > 0
    ensures var p, b := View(c, m, signer), View(c, n, signer);
            Decide(p, b, nonce, maxHeight) == QuarantineKey <==> p.nonce >= nonce || b.nonce >= nonce
    ensures Decide(View(c, m, signer), View(c, n, signer), nonce, maxHeight) == QuarantineKey ==>
              exists tx :: tx in Included(c) && tx.signer == signer && tx.nonce >= nonce
  {
    LaterViewIsHigher(c, m, |c|, signer);
    LaterViewIsHigher(c, n, |c|, signer);
    assert c[..|c|] == c;
    if Decide(View(c, m, signer), View(c, n, signer), nonce, maxHeight) == QuarantineKey {
      var tx := NonceHasTransaction(Included(c), signer);
    }
  }

  /** The reading is of some finished block of this chain. */
  ghost predicate TrueView(h: Head, c: Chain, signer: string) {
    exists n: nat :: 0 < n <= |c| && View(c, n, signer) == h
  }

  /** On no chain that either reading alone is true of does the transfer ever run. */
  ghost predicate ExpirySurvivesOneLiar(primary: Head, backup: Head, tx: OuterTx) {
    forall c | Valid(c) && (TrueView(primary, c, tx.signer) || TrueView(backup, c, tx.signer)) :: !EverTransfers(c, tx)
  }

  lemma NonceAfter(txs: seq<OuterTx>, tx: OuterTx)
    requires KeyNonce(txs, tx.signer) < tx.nonce
    ensures KeyNonce(txs + [tx], tx.signer) == tx.nonce
  {
    var all := txs + [tx];
    assert all[..|all| - 1] == txs;
  }

  lemma IncludedInOne(b: Block)
    ensures Included([b]) == b.included
  {
    assert [b][..0] == [];
    assert [] + b.included == b.included;
  }

  /** A one-block chain with this reading. */
  lemma OneBlock(h: Head, signer: string) returns (b: Block)
    ensures Valid([b]) && b.height == h.height && KeyNonce(Included([b]), signer) == h.nonce
  {
    if h.nonce == 0 {
      b := Block(h.height, [], []);
      IncludedInOne(b);
    } else {
      var none: seq<OuterTx>, earlier := [], OuterTx(signer, h.nonce, "", 0);
      b := Block(h.height, none + [earlier], []);
      IncludedInOne(b);
      NonceRuleExtends(none, earlier);
      NonceAfter(none, earlier);
    }
  }

  /** A chain with this reading on which a transaction that is still alive goes on to transfer. */
  lemma StillAlive(h: Head, tx: OuterTx) returns (c: Chain)
    requires h.nonce < tx.nonce && h.height < tx.maxHeight
    ensures Valid(c) && TrueView(h, c, tx.signer) && EverTransfers(c, tx)
    ensures |c| == 2 && View(c, 1, tx.signer) == h && c[1].height == h.height + 1
  {
    var b := OneBlock(h, tx.signer);
    ExtendIsValid([b], tx);
    c := [b] + [NextBlock([b], tx)];
    assert c[..1] == [b];
    assert View(c, 1, tx.signer) == h;
    assert Transfers(c[1], tx);
  }

  /** One node that lies about its height expires a row that the other node truly sees alive, and that is then paid. */
  lemma LoneHeightExpiresLiveRow(tx: OuterTx, nonce: nat) returns (c: Chain)
    requires nonce < tx.nonce && tx.maxHeight > 0
    ensures var liar, honest := Head(tx.maxHeight, nonce), Head(tx.maxHeight - 1, nonce);
            && Decide(liar, honest, tx.nonce, tx.maxHeight) == ExpireRow
            && Decide(honest, liar, tx.nonce, tx.maxHeight) == ExpireRow
            && Valid(c) && TrueView(honest, c, tx.signer) && EverTransfers(c, tx)
  {
    c := StillAlive(Head(tx.maxHeight - 1, nonce), tx);
  }

  /** An expiry is sound with either node lying exactly when both heights, not just the larger, reached the end. */
  lemma ExpirySafeExactlyWhenBothPast(primary: Head, backup: Head, tx: OuterTx)
    requires Decide(primary, backup, tx.nonce, tx.maxHeight) == ExpireRow
    ensures ExpirySurvivesOneLiar(primary, backup, tx) <==>
              primary.height >= tx.maxHeight && backup.height >= tx.maxHeight
  {
    if primary.height >= tx.maxHeight && backup.height >= tx.maxHeight {
      forall c | Valid(c) && (TrueView(primary, c, tx.signer) || TrueView(backup, c, tx.signer))
        ensures !EverTransfers(c, tx)
      {
        var n: nat :| 0 < n <= |c| && (View(c, n, tx.signer) == primary || View(c, n, tx.signer) == backup);
        NeverAfterExpiry(c, n, c, tx);
      }
    } else {
      var c := StillAlive(if primary.height < tx.maxHeight then primary else backup, tx);
    }
  }

  /**
   Pinning matters: for every reading one block short of the end there is a chain on which a nonce from that block,
   judged with the height of the next, would expire a row that is paid in that next block.
   */
  lemma UnpinnedReadsWouldBeUnsound(h: Head, tx: OuterTx) returns (c: Chain)
    requires h.nonce < tx.nonce && h.height + 1 == tx.maxHeight
    ensures Valid(c) && |c| == 2 && View(c, 1, tx.signer) == h
    ensures Decide(Head(View(c, 2, tx.signer).height, h.nonce), h, tx.nonce, tx.maxHeight) == ExpireRow
    ensures EverTransfers(c, tx)
  {
    c := StillAlive(h, tx);
  }
}
