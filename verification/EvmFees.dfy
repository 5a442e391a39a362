/**
 Sponsored fees on the EVM side, from the configured cap to the receipt: every step is
 checked 128-bit arithmetic, and a failed check is an error rather than a wrapped value.
 */
module EvmFees {
  import opened Base

  const U128: nat := 0x1_0000_0000_0000_0000_0000_0000_0000_0000

  function CheckedMul(a: nat, b: nat): (r: Option<nat>) {
    if a * b < U128 then Some(a * b) else None
  }

  function CheckedAdd(a: nat, b: nat): (r: Option<nat>) {
    if a + b < U128 then Some(a + b) else None
  }

  function Max(a: nat, b: nat): (r: nat) {
    if a >= b then a else b
  }

  /** The deployment's fee policy; amounts are unsigned 128-bit wei. */
  datatype Policy = Policy(gasLimit: nat, cap: nat, reservation: nat, hardStop: nat)

  /** The start-up check that the reservation leaves room for the L1 data fee. */
  predicate PolicyAccepted(p: Policy) {
    && 21_000 <= p.gasLimit <= 1_000_000
    && 0 < p.cap
    && CheckedMul(p.gasLimit, p.cap).Some?
    && p.reservation > p.gasLimit * p.cap
  }

  datatype Estimate = Estimate(maxFee: nat, priorityFee: nat)

  datatype Envelope = Envelope(gasLimit: nat, maxFee: nat, priorityFee: nat)

  datatype EnvelopeResult = Priced(envelope: Envelope) | InvalidFeeEstimate | FeeCapExceeded

  /** The fee signed into a transaction: the larger of two readers' estimates, within the cap. */
  function BoundedEnvelope(p: Policy, primary: Estimate, backup: Estimate): (r: EnvelopeResult) {
    if primary.maxFee == 0 || backup.maxFee == 0 || primary.priorityFee > primary.maxFee
        || backup.priorityFee > backup.maxFee then
      InvalidFeeEstimate
    else
      var maxFee := Max(primary.maxFee, backup.maxFee);
      if maxFee > p.cap then FeeCapExceeded
      else Priced(Envelope(p.gasLimit, maxFee, Max(primary.priorityFee, backup.priorityFee)))
  }

  /** Checked before a transaction is journaled, with the L1 fee estimated over its exact bytes. */
  predicate CoversLiability(p: Policy, l1Estimate: nat) {
    var l2 := CheckedMul(p.gasLimit, p.cap);
    l2.Some? &&
    var liability := CheckedAdd(l2.value, l1Estimate);
    liability.Some? && p.reservation >= liability.value
  }

  /** The fee a receipt reports: gas times price plus the L1 fee, or an overflow error. */
  function ReceiptFee(gasUsed: nat, price: nat, l1Fee: nat): (r: Option<nat>) {
    var execution := CheckedMul(gasUsed, price);
    if execution.None? then None else CheckedAdd(execution.value, l1Fee)
  }

  predicate Overrun(fee: nat, reservation: nat) {
    fee > reservation
  }

  predicate Funded(p: Policy, balance: nat) {
    var required := CheckedAdd(p.hardStop, p.reservation);
    required.Some? && balance >= required.value
  }

  lemma ProductBound(a: nat, b: nat, c: nat, d: nat)
    requires a <= c && b <= d
    ensures a * b <= c * d
  {
    assert a * b <= c * b;
    assert c * b <= c * d;
  }

  /** What the chain itself enforces on a signed transaction. */
  predicate ChainRespects(e: Envelope, gasUsed: nat, price: nat) {
    gasUsed <= e.gasLimit && price <= e.maxFee
  }

  /**
   A settled transaction costs at most its reservation and its fee is always representable, unless its L1
   fee passed the estimate; so every overrun, and every overflow, is an underestimated L1 fee.
   */
  lemma FeeStaysReserved(p: Policy, primary: Estimate, backup: Estimate, l1Estimate: nat, gasUsed: nat, price: nat,
                         l1Fee: nat)
    requires p.reservation < U128 && CoversLiability(p, l1Estimate) && BoundedEnvelope(p, primary, backup).Priced?
    requires ChainRespects(BoundedEnvelope(p, primary, backup).envelope, gasUsed, price)
    ensures var fee := ReceiptFee(gasUsed, price, l1Fee);
            fee.None? || Overrun(fee.value, p.reservation) ==> l1Fee > l1Estimate
  {
    var e := BoundedEnvelope(p, primary, backup).envelope;
    ProductBound(gasUsed, price, p.gasLimit, p.cap);
  }

  /** A funded signer that settles within its reservation keeps its hard-stop balance. */
  lemma HardStopSurvives(p: Policy, primary: nat, backup: nat, fee: nat)
    requires Funded(p, if primary <= backup then primary else backup) && !Overrun(fee, p.reservation)
    ensures primary - fee >= p.hardStop && backup - fee >= p.hardStop
  {
  }

  /** An accepted policy admits exactly the L1 estimates up to a positive headroom. */
  lemma HeadroomIsExact(p: Policy, l1Estimate: nat)
    requires PolicyAccepted(p) && p.reservation < U128
    ensures CoversLiability(p, l1Estimate) <==> l1Estimate <= p.reservation - p.gasLimit * p.cap
    ensures CoversLiability(p, 1)
  {
  }

  predicate ValidEstimate(e: Estimate) {
    e.maxFee > 0 && e.priorityFee <= e.maxFee
  }

  /** An envelope is priced at exactly the larger estimates, and refused exactly for an invalid or too large one. */
  lemma PricesExactly(p: Policy, primary: Estimate, backup: Estimate)
    ensures BoundedEnvelope(p, primary, backup).InvalidFeeEstimate? <==>
              !ValidEstimate(primary) || !ValidEstimate(backup)
    ensures BoundedEnvelope(p, primary, backup).FeeCapExceeded? <==>
              ValidEstimate(primary) && ValidEstimate(backup) && (primary.maxFee > p.cap || backup.maxFee > p.cap)
    ensures BoundedEnvelope(p, primary, backup).Priced? ==>
              var e := BoundedEnvelope(p, primary, backup).envelope;
              && (e.maxFee == primary.maxFee || e.maxFee == backup.maxFee)
              && e.maxFee >= primary.maxFee && e.maxFee >= backup.maxFee
              && (e.priorityFee == primary.priorityFee || e.priorityFee == backup.priorityFee)
              && e.priorityFee >= primary.priorityFee && e.priorityFee >= backup.priorityFee
              && e.gasLimit == p.gasLimit
  {
  }

  /** The receipt's fee is the exact cost, unless that does not fit 128 bits. */
  lemma ReceiptFeeIsCost(gasUsed: nat, price: nat, l1Fee: nat)
    ensures var cost := gasUsed * price + l1Fee;
            ReceiptFee(gasUsed, price, l1Fee) == if cost < U128 then Some(cost) else None
  {
  }

  /** The signer counts as funded exactly when any fee within the reservation would leave the hard stop. */
  lemma FundedExactly(p: Policy, balance: nat)
    requires balance < U128
    ensures Funded(p, balance) <==> forall fee: nat | !Overrun(fee, p.reservation) :: balance - fee >= p.hardStop
  {
    assert !Overrun(p.reservation, p.reservation);
  }

  /** The signed envelope is one the stored-transaction check accepts, and no reader's estimate is undercut. */
  lemma EnvelopeIsUsable(p: Policy, primary: Estimate, backup: Estimate)
    requires BoundedEnvelope(p, primary, backup).Priced?
    ensures var e := BoundedEnvelope(p, primary, backup).envelope;
            && 0 < e.maxFee <= p.cap && e.priorityFee <= e.maxFee && e.gasLimit == p.gasLimit
            && primary.maxFee <= e.maxFee && backup.maxFee <= e.maxFee
            && primary.priorityFee <= e.priorityFee && backup.priorityFee <= e.priorityFee
    ensures BoundedEnvelope(p, backup, primary) == BoundedEnvelope(p, primary, backup)
  {
  }
}
