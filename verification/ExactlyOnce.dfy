/** The journal protocol and the chain's nonce rule together: one settlement, at most one transaction on chain. */
module ExactlyOnce {
  import opened Journal
  import opened Settlement
  import opened SettlementPath
  import opened SettlementSafety
  import NearChain

  /** Some process sent, for settlement `id`, bytes that carry this transaction's signer and nonce. */
  predicate Sends(log: seq<Event>, id: Id, tx: NearChain.OuterTx) {
    exists k | 0 <= k < |log| ::
      IsSend(log[k]) && log[k].id == id && log[k].s.signer == tx.signer && log[k].s.nonce == tx.nonce
  }

  /** Whatever was re-sent, by whichever processes, no settlement is included in the chain twice. */
  lemma IncludedAtMostOncePerSettlement(cfg: Config, s: State, steps: seq<Step>, c: NearChain.Chain, i: nat, j: nat,
                                        id: Id)
    requires Initial(cfg, s) && NearChain.Valid(c) && i < j < |NearChain.Included(c)|
    requires Sends(Execute(cfg, s, steps).log, id, NearChain.Included(c)[i])
    ensures !Sends(Execute(cfg, s, steps).log, id, NearChain.Included(c)[j])
  {
    var log, txs := Execute(cfg, s, steps).log, NearChain.Included(c);
    NearChain.IncludedAtMostOnce(c, i, j);
    var k :| 0 <= k < |log| && IsSend(log[k]) && log[k].id == id && log[k].s.signer == txs[i].signer
        && log[k].s.nonce == txs[i].nonce;
    forall m | 0 <= m < |log| && IsSend(log[m]) && log[m].id == id ensures log[m].s == log[k].s {
      OneTransactionPerSettlement(cfg, s, steps, m, k);
    }
  }

  /** And an included transaction pays for one settlement only. */
  lemma IncludedForOneSettlement(cfg: Config, s: State, steps: seq<Step>, tx: NearChain.OuterTx, a: Id, b: Id)
    requires Initial(cfg, s) && Sends(Execute(cfg, s, steps).log, a, tx) && Sends(Execute(cfg, s, steps).log, b, tx)
    ensures a == b
  {
    var log := Execute(cfg, s, steps).log;
    var k :| 0 <= k < |log| && IsSend(log[k]) && log[k].id == a && log[k].s.signer == tx.signer
        && log[k].s.nonce == tx.nonce;
    var m :| 0 <= m < |log| && IsSend(log[m]) && log[m].id == b && log[m].s.signer == tx.signer
        && log[m].s.nonce == tx.nonce;
    if a != b {
      DistinctSettlementsDistinctNonces(cfg, s, steps, k, m);
      assert false;
    }
  }

  /** The transaction that journaled bytes encode, with their signer and nonce. */
  ghost predicate Encodes(tx: Submission -> NearChain.OuterTx) {
    forall s :: tx(s).signer == s.signer && tx(s).nonce == s.nonce
  }

  /** Recovery read an expiry off two views of this chain, for the journaled signer and nonce. */
  ghost predicate ReadFrom(c: NearChain.Chain, s: Submission, maxHeight: nat) {
    exists m: nat, n: nat | 0 < m <= |c| && 0 < n <= |c| ::
      NearChain.Decide(NearChain.View(c, m, s.signer), NearChain.View(c, n, s.signer), s.nonce,
                       maxHeight) == NearChain.ExpireRow
  }

  /** Every expiry in the log was decided as recovery decides it, from the chain as it then was. */
  ghost predicate ExpiriesRead(log: seq<Event>, c: NearChain.Chain, tx: Submission -> NearChain.OuterTx) {
    forall k | 0 <= k < |log| && log[k].HeadsRead? && log[k].heads.Expired? ::
        ReadFrom(c, log[k].s, tx(log[k].s).maxHeight)
  }

  /** A row on which recovery read an expiry never transfers its journaled transaction on any continuation of the
      chain. */
  lemma ExpiredRowNeverTransfers(cfg: Config, s: State, steps: seq<Step>, c: NearChain.Chain, later: NearChain.Chain,
                                 tx: Submission -> NearChain.OuterTx, k: nat)
    requires Initial(cfg, s) && Encodes(tx) && NearChain.Valid(c) && NearChain.Valid(later) && c <= later
    requires ExpiriesRead(Execute(cfg, s, steps).log, c, tx)
    requires k < |Execute(cfg, s, steps).log|
    requires Execute(cfg, s, steps).log[k].HeadsRead? && Execute(cfg, s, steps).log[k].heads.Expired?
    ensures var r := Execute(cfg, s, steps);
            var id := r.log[k].id;
            && id in r.disk.table && r.disk.table[id].submission.Some?
            && !NearChain.EverTransfers(later, tx(r.disk.table[id].submission.value))
  {
    ReachableOk(cfg, s, steps);
    var r := Execute(cfg, s, steps);
    var e := r.log[k];
    assert StillJournaled(r.disk.table, e);
    assert ReadFrom(c, e.s, tx(e.s).maxHeight);
    var m: nat, n: nat :| 0 < m <= |c| && 0 < n <= |c| &&
      NearChain.Decide(NearChain.View(c, m, e.s.signer), NearChain.View(c, n, e.s.signer), e.s.nonce,
                       tx(e.s).maxHeight) == NearChain.ExpireRow;
    NearChain.ExpiryIsSound(c, m, n, later, tx(e.s));
  }

  /** Recovery found the transaction alive on two views of this chain, one of them of its last block. */
  ghost predicate SeenAlive(c: NearChain.Chain, s: Submission, maxHeight: nat) {
    && NearChain.Valid(c)
    && exists m: nat, n: nat | 0 < m <= |c| && 0 < n <= |c| && (m == |c| || n == |c|) ::
         NearChain.Decide(NearChain.View(c, m, s.signer), NearChain.View(c, n, s.signer), s.nonce,
                          maxHeight) == NearChain.Rebroadcast
  }

  /** Each usable answer in the log was decided as recovery decides it, from the chain as it was at that position. */
  ghost predicate UsablesRead(log: seq<Event>, chainAt: nat -> NearChain.Chain, tx: Submission -> NearChain.OuterTx) {
    forall k | 0 <= k < |log| && log[k].HeadsRead? && log[k].heads.Usable? ::
      SeenAlive(chainAt(k), log[k].s, tx(log[k].s).maxHeight)
  }

  /** On NEAR bytes are replayed only after that pass saw a chain that can still go on to run their transfer. */
  lemma ReplayedWhileAlive(cfg: Config, s: State, steps: seq<Step>, chainAt: nat -> NearChain.Chain,
                           tx: Submission -> NearChain.OuterTx, i: nat) returns (k: nat, later: NearChain.Chain)
    requires Initial(cfg, s) && cfg.chain.Near? && Encodes(tx) && UsablesRead(Execute(cfg, s, steps).log, chainAt, tx)
    requires i < |Execute(cfg, s, steps).log| && Execute(cfg, s, steps).log[i].Rebroadcast?
    ensures var log := Execute(cfg, s, steps).log;
            && k < i && log[k] == HeadsRead(log[i].t, log[i].id, log[i].s, Usable, log[i].pass)
            && NearChain.Valid(later) && chainAt(k) <= later && NearChain.EverTransfers(later, tx(log[i].s))
  {
    ReplaysAreCleared(cfg, s, steps, i);
    var log := Execute(cfg, s, steps).log;
    var e := log[i];
    k :| 0 <= k < i && log[k] == HeadsRead(e.t, e.id, e.s, Usable, e.pass);
    var c := chainAt(k);
    assert SeenAlive(c, e.s, tx(e.s).maxHeight);
    var m: nat, n: nat :| 0 < m <= |c| && 0 < n <= |c| && (m == |c| || n == |c|) &&
      NearChain.Decide(NearChain.View(c, m, e.s.signer), NearChain.View(c, n, e.s.signer), e.s.nonce,
                       tx(e.s).maxHeight) == NearChain.Rebroadcast;
    later := NearChain.RebroadcastOnlyWhileAlive(c, m, n, tx(e.s));
  }
}
