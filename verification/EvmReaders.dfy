/**
 Reconciliation of an EVM transaction through two independent readers: receipts are read
 before and after the chain heads, merged, and judged by confirmation depth.
 */
module EvmReaders {
  import opened Base

  const U64_MAX: nat := 0xFFFF_FFFF_FFFF_FFFF

  type Hash = string

  datatype ReceiptFacts = ReceiptFacts(
    blockNumber: nat, blockHash: Hash, success: bool, txHash: Hash, gasUsed: nat, fee: nat, executionFee: nat,
    l1Fee: nat)

  datatype Receipt = NoReceipt | PendingReceipt | Mined(facts: ReceiptFacts)

  datatype Transaction =
    | Missing
    | InMempool(nonce: nat)
    | InBlock(nonce: nat, blockNumber: nat, blockHash: Hash)

  datatype Error = Rpc | Malformed | ReaderDisagreement | InvalidConfirmations | HeadBehindReceipt

  datatype Result<+T> = Ok(value: T) | Err(error: Error)
  {
    predicate IsFailure() { Err? }
    function PropagateFailure<U>(): (r: Result<U>) requires Err? { Err(error) }
    function Extract(): (v: T) requires Ok? { value }
  }

  datatype Status =
    | Unknown
    | Pending
    | Shallow(confirmations: nat, blockNumber: nat)
    | Terminal(facts: ReceiptFacts, confirmations: nat)

  function MergeReceipts(primary: Receipt, backup: Receipt): (r: Result<Receipt>) {
    if primary.NoReceipt? && backup.NoReceipt? then Ok(NoReceipt)
    else if primary.Mined? && backup.Mined? then
      if primary.facts == backup.facts then Ok(primary) else Err(ReaderDisagreement)
    else Ok(PendingReceipt)
  }

  function MergeTransactions(primary: Transaction, backup: Transaction): (r: Result<Transaction>) {
    match (primary, backup)
    case (Missing, known) => Ok(known)
    case (known, Missing) => Ok(known)
    case (InMempool(m), InMempool(n)) => if m == n then Ok(primary) else Err(ReaderDisagreement)
    case (InMempool(m), InBlock(n, _, _)) => if m == n then Ok(InMempool(m)) else Err(ReaderDisagreement)
    case (InBlock(m, _, _), InMempool(n)) => if m == n then Ok(InMempool(m)) else Err(ReaderDisagreement)
    case (InBlock(_, _, _), InBlock(_, _, _)) => if primary == backup then Ok(primary) else Err(ReaderDisagreement)
  }

  function SaturatingAddOne(n: nat): (r: nat) {
    if n >= U64_MAX then U64_MAX else n + 1
  }

  function ClassifyConfirmations(facts: ReceiptFacts, head: nat, required: nat): (r: Result<Status>) {
    if required == 0 then Err(InvalidConfirmations)
    else if head < facts.blockNumber then Err(HeadBehindReceipt)
    else
      var confirmations := SaturatingAddOne(head - facts.blockNumber);
      if confirmations >= required then Ok(Terminal(facts, confirmations))
      else Ok(Shallow(confirmations, facts.blockNumber))
  }

  function Classify(first: Receipt, transaction: Transaction, rechecked: Option<Receipt>, head: nat, required: nat)
    : (r: Result<Status>)
  {
    match first
    case NoReceipt => Ok(if transaction.Missing? then Unknown else Pending)
    case PendingReceipt => Ok(Pending)
    case Mined(facts) =>
      if rechecked == Some(Mined(facts)) then ClassifyConfirmations(facts, head, required) else Ok(Pending)
  }

  /** What one reader answers, in the order it is asked. */
  datatype Reads = Reads(
    receipt: Result<Receipt>,
    transaction: Result<Transaction>,
    head: Result<(nat, nat)>,
    recheck: Result<Receipt>)

  /** The lower of the two heads, both on the configured chain. */
  function SafeBlockNumber(chainId: nat, primary: Result<(nat, nat)>, backup: Result<(nat, nat)>): (r: Result<nat>) {
    var p :- primary;
    var b :- backup;
    if p.0 != chainId || b.0 != chainId then Err(ReaderDisagreement)
    else Ok(if p.1 <= b.1 then p.1 else b.1)
  }

  function Reconcile(chainId: nat, primary: Reads, backup: Reads, required: nat): (r: Result<Status>) {
    if required == 0 then Err(InvalidConfirmations)
    else
      var r1 :- primary.receipt;
      var r2 :- backup.receipt;
      var first :- MergeReceipts(r1, r2);
      var t1 :- primary.transaction;
      var t2 :- backup.transaction;
      var transaction :- MergeTransactions(t1, t2);
      var head :- SafeBlockNumber(chainId, primary.head, backup.head);
      if first.Mined? then
        var s1 :- primary.recheck;
        var s2 :- backup.recheck;
        var rechecked :- MergeReceipts(s1, s2);
        Classify(first, transaction, Some(rechecked), head, required)
      else Classify(first, transaction, None, head, required)
  }

  /** One reader alone attests the facts, before and after its own head, at the required depth. */
  predicate Attests(chainId: nat, seen: Reads, facts: ReceiptFacts, required: nat) {
    && seen.receipt == Ok(Mined(facts))
    && seen.recheck == Ok(Mined(facts))
    && seen.head.Ok? && seen.head.value.0 == chainId
    && seen.head.value.1 + 1 >= facts.blockNumber + required
    && seen.head.value.1 >= facts.blockNumber
  }

  /** One reader lacks the transaction, or both agree on its nonce and, if both have it mined, on its block. */
  predicate SameTransaction(a: Transaction, b: Transaction) {
    || a.Missing? || b.Missing?
    || (&& a.nonce == b.nonce
        && (a.InBlock? && b.InBlock? ==> a.blockNumber == b.blockNumber && a.blockHash == b.blockHash))
  }

  predicate TransactionsAgree(primary: Reads, backup: Reads) {
    && primary.transaction.Ok? && backup.transaction.Ok?
    && SameTransaction(primary.transaction.value, backup.transaction.value)
  }

  /** Observations merge exactly when they agree, into what both support. */
  lemma MergesExactly(a: Transaction, b: Transaction)
    ensures MergeTransactions(a, b).Ok? <==> SameTransaction(a, b)
    ensures MergeTransactions(a, b).Err? ==> MergeTransactions(a, b).error == ReaderDisagreement
    ensures MergeTransactions(a, b).Ok? ==>
              var x := MergeTransactions(a, b).value;
              && (x.Missing? <==> a.Missing? && b.Missing?)
              && (x.InMempool? <==> a.InMempool? || b.InMempool?)
              && (!a.Missing? && !x.Missing? ==> x.nonce == a.nonce)
              && (!b.Missing? && !x.Missing? ==> x.nonce == b.nonce)
              && (x.InBlock? ==> x == a || x == b)
  {
  }

  /** Receipts merge into a mined one exactly when both are that one, and into none exactly when both lack it. */
  lemma ReceiptsMergeExactly(a: Receipt, b: Receipt)
    ensures MergeReceipts(a, b).Err? <==> a.Mined? && b.Mined? && a.facts != b.facts
    ensures forall f :: MergeReceipts(a, b) == Ok(Mined(f)) <==> a == Mined(f) && b == Mined(f)
    ensures MergeReceipts(a, b) == Ok(NoReceipt) <==> a.NoReceipt? && b.NoReceipt?
  {
  }

  /** A verdict is terminal exactly when each reader separately attests the same facts. */
  lemma TerminalExactlyWhenBothAttest(chainId: nat, primary: Reads, backup: Reads, required: nat, facts: ReceiptFacts)
    requires required <= U64_MAX
    ensures (exists n :: Reconcile(chainId, primary, backup, required) == Ok(Terminal(facts, n))) <==>
              && required > 0
              && Attests(chainId, primary, facts, required) && Attests(chainId, backup, facts, required)
              && TransactionsAgree(primary, backup)
  {
    if required > 0 && Attests(chainId, primary, facts, required) && Attests(chainId, backup, facts, required)
       && TransactionsAgree(primary, backup)
    {
      var head := SafeBlockNumber(chainId, primary.head, backup.head).value;
      assert Reconcile(chainId, primary, backup, required) ==
             Ok(Terminal(facts, SaturatingAddOne(head - facts.blockNumber)));
    }
  }

  /** Both readers show the same facts before and after their heads, which are on this chain and not behind them. */
  predicate BothShow(chainId: nat, primary: Reads, backup: Reads, facts: ReceiptFacts) {
    && primary.receipt == Ok(Mined(facts)) && backup.receipt == Ok(Mined(facts))
    && primary.recheck == Ok(Mined(facts)) && backup.recheck == Ok(Mined(facts))
    && primary.head.Ok? && backup.head.Ok? && primary.head.value.0 == chainId && backup.head.value.0 == chainId
    && primary.head.value.1 >= facts.blockNumber && backup.head.value.1 >= facts.blockNumber
  }

  function Lower(primary: Reads, backup: Reads): (n: nat)
    requires primary.head.Ok? && backup.head.Ok?
  {
    if primary.head.value.1 <= backup.head.value.1 then primary.head.value.1 else backup.head.value.1
  }

  /** A mined transaction is called shallow exactly when both show it and the lower head is not deep enough. */
  lemma ShallowExactly(chainId: nat, primary: Reads, backup: Reads, required: nat, n: nat, block: nat)
    requires required <= U64_MAX
    ensures Reconcile(chainId, primary, backup, required) == Ok(Shallow(n, block)) <==>
              exists facts :: && BothShow(chainId, primary, backup, facts) && TransactionsAgree(primary, backup)
                              && block == facts.blockNumber && n == Lower(primary, backup) - block + 1 < required
  {
    if Reconcile(chainId, primary, backup, required) == Ok(Shallow(n, block)) {
      var facts := primary.receipt.value.facts;
      assert BothShow(chainId, primary, backup, facts);
    }
  }

  /** Nothing is concluded exactly when a read failed, readers contradict each other, or a head is behind a receipt. */
  lemma ErrsExactly(chainId: nat, primary: Reads, backup: Reads, required: nat)
    ensures Reconcile(chainId, primary, backup, required).Err? <==>
              || required == 0
              || primary.receipt.Err? || backup.receipt.Err?
              || (primary.receipt.value.Mined? && backup.receipt.value.Mined? && primary.receipt != backup.receipt)
              || !TransactionsAgree(primary, backup)
              || primary.head.Err? || backup.head.Err?
              || primary.head.value.0 != chainId || backup.head.value.0 != chainId
              || (&& primary.receipt.value.Mined? && primary.receipt == backup.receipt
                  && (|| primary.recheck.Err? || backup.recheck.Err?
                      || (primary.recheck.value.Mined? && backup.recheck.value.Mined?
                          && primary.recheck != backup.recheck)
                      || (&& primary.recheck == primary.receipt && backup.recheck == primary.receipt
                          && Lower(primary, backup) < primary.receipt.value.facts.blockNumber)))
  {
  }

  /** Asking for more depth, or seeing lower heads, never turns another verdict into a terminal one. */
  lemma StricterNeverFinishes(chainId: nat, primary: Reads, backup: Reads, required: nat, p: nat, b: nat, more: nat)
    requires 0 < required <= more <= U64_MAX
    requires primary.head.Ok? && backup.head.Ok? && p <= primary.head.value.1 && b <= backup.head.value.1
    requires var lower := Reconcile(chainId, primary.(head := Ok((primary.head.value.0, p))),
                                    backup.(head := Ok((backup.head.value.0, b))), more);
             lower.Ok? && lower.value.Terminal?
    ensures var r := Reconcile(chainId, primary, backup, required); r.Ok? && r.value.Terminal?
  {
    var q, c := primary.(head := Ok((primary.head.value.0, p))), backup.(head := Ok((backup.head.value.0, b)));
    var facts := Reconcile(chainId, q, c, more).value.facts;
    TerminalExactlyWhenBothAttest(chainId, q, c, more, facts);
    assert Attests(chainId, q, facts, more) && Attests(chainId, c, facts, more);
    TerminalExactlyWhenBothAttest(chainId, primary, backup, required, facts);
  }

  /** Which reader is called primary matters to no verdict. */
  lemma ReadersAreInterchangeable(chainId: nat, primary: Reads, backup: Reads, required: nat)
    ensures var r, s := Reconcile(chainId, primary, backup, required), Reconcile(chainId, backup, primary, required);
            (r.Ok? <==> s.Ok?) && (r.Ok? ==> r == s)
  {
  }

  /** A transaction is called unknown exactly when neither reader has a receipt or the transaction. */
  lemma UnknownExactlyWhenBothLackIt(chainId: nat, primary: Reads, backup: Reads, required: nat)
    ensures Reconcile(chainId, primary, backup, required) == Ok(Unknown) <==>
              && required > 0
              && primary.receipt == Ok(NoReceipt) && backup.receipt == Ok(NoReceipt)
              && primary.transaction == Ok(Missing) && backup.transaction == Ok(Missing)
              && SafeBlockNumber(chainId, primary.head, backup.head).Ok?
  {
  }

  datatype EvmBlock = EvmBlock(hash: Hash, receipts: map<Hash, ReceiptFacts>)

  /** The canonical chain by block number. */
  type Chain = seq<EvmBlock>

  /** The canonical chain at successive instants; a reorganisation replaces a suffix. */
  type History = seq<Chain>

  /** Reorganisations never replace a block that once had `depth` confirmations. */
  predicate Settles(h: History, depth: nat) {
    forall s, t, n: nat | 0 <= s <= t < |h| && n < |h[s]| && n + depth <= |h[s]| :: n < |h[t]| && h[t][n] == h[s][n]
  }

  predicate Holds(c: Chain, facts: ReceiptFacts) {
    && facts.blockNumber < |c|
    && c[facts.blockNumber].hash == facts.blockHash
    && facts.txHash in c[facts.blockNumber].receipts
    && c[facts.blockNumber].receipts[facts.txHash] == facts
  }

  /** A reader whose answers were true of the chain at three successive instants; its head may lag. */
  predicate Honest(h: History, t1: nat, t2: nat, t3: nat, seen: Reads) {
    && t1 <= t2 <= t3 < |h|
    && (seen.receipt.Ok? && seen.receipt.value.Mined? ==> Holds(h[t1], seen.receipt.value.facts))
    && (seen.head.Ok? ==> seen.head.value.1 < |h[t2]|)
    && (seen.recheck.Ok? && seen.recheck.value.Mined? ==> Holds(h[t3], seen.recheck.value.facts))
  }

  lemma AttestationIsPermanent(chainId: nat, h: History, t1: nat, t2: nat, t3: nat, seen: Reads, facts: ReceiptFacts,
                               required: nat, t: nat)
    requires required > 0 && Attests(chainId, seen, facts, required)
    requires Honest(h, t1, t2, t3, seen) && Settles(h, required) && t2 <= t < |h|
    ensures Holds(h[t], facts)
  {
    var n := facts.blockNumber;
    assert n < |h[t2]| && n + required <= |h[t2]|;
    assert h[t3][n] == h[t2][n];
    assert n < |h[t]| && h[t][n] == h[t2][n];
  }

  /**
   One honest reader suffices: if either reader told the truth, an accepted outcome stays on the
   canonical chain for good, whatever the other reader said.
   */
  lemma TerminalIsPermanent(chainId: nat, h: History, t1: nat, t2: nat, t3: nat, primary: Reads, backup: Reads,
                            required: nat, t: nat)
    requires required <= U64_MAX && Settles(h, required) && t2 <= t < |h|
    requires Honest(h, t1, t2, t3, primary) || Honest(h, t1, t2, t3, backup)
    requires var r := Reconcile(chainId, primary, backup, required); r.Ok? && r.value.Terminal?
    ensures Holds(h[t], Reconcile(chainId, primary, backup, required).value.facts)
  {
    var facts := Reconcile(chainId, primary, backup, required).value.facts;
    TerminalExactlyWhenBothAttest(chainId, primary, backup, required, facts);
    if Honest(h, t1, t2, t3, primary) {
      AttestationIsPermanent(chainId, h, t1, t2, t3, primary, facts, required, t);
    } else {
      AttestationIsPermanent(chainId, h, t1, t2, t3, backup, facts, required, t);
    }
  }

  const FACTS := ReceiptFacts(1, "x", true, "tx", 1, 1, 1, 0)
  const GENESIS := EvmBlock("g", map[])
  const REORG: History := [[GENESIS, EvmBlock("x", map["tx" := FACTS])],
                           [GENESIS, EvmBlock("y", map[]), EvmBlock("z", map[])]]

  /** The recheck is needed: one receipt and a deep later head do not keep a transaction on the chain. */
  lemma ReceiptThenHeadIsNotEnough()
    ensures Settles(REORG, 2) && Holds(REORG[0], FACTS)
    ensures var status := ClassifyConfirmations(FACTS, |REORG[1]| - 1, 2); status.Ok? && status.value.Terminal?
    ensures !Holds(REORG[1], FACTS)
  {
    assert REORG[0][0] == REORG[1][0];
  }
}
