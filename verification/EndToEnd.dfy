/** The engine composed with its readers: what a recorded outcome says about the chain. */
module EndToEnd {
  import opened Base
  import opened Journal
  import opened Settlement
  import opened SettlementOutcome
  import opened SettlementSafety
  import EvmReaders
  import NearReaders
  import ReceiptTheorems

  /** What the nodes' answers are judged against for journaled bytes. */
  type Wanted = (Id, Submission) -> NearReaders.Expected

  /** The two lookups behind each position of the log. */
  type Answers = nat -> (NearReaders.Lookup, NearReaders.Lookup)

  /** What the chain holds for each transaction. */
  type Holds = Submission -> NearReaders.Truth

  /** Both nodes are honest, or both gave a final outcome and one is honest. */
  predicate Trustworthy(primary: NearReaders.Lookup, backup: NearReaders.Lookup, truth: NearReaders.Truth) {
    || (NearReaders.HonestNode(primary, truth) && NearReaders.HonestNode(backup, truth))
    || (&& primary.Final? && backup.Final?
        && (NearReaders.HonestNode(primary, truth) || NearReaders.HonestNode(backup, truth)))
  }

  /** Event `e` was read off these two answers as the provider reads them; a send is answered by one node. */
  ghost predicate NearRead(e: Event, ok: bool, primary: NearReaders.Lookup, backup: NearReaders.Lookup,
                           x: NearReaders.Expected, truth: NearReaders.Truth)
  {
    && NearReaders.Status(primary, backup, x).verdict == NearReaders.TerminalVerdict(ok)
    && (e.Judged? || backup.NotFound?)
    && Trustworthy(primary, backup, truth)
  }

  ghost predicate NearReportsRead(log: seq<Event>, wanted: Wanted, seen: Answers, holds: Holds) {
    forall k, ok | 0 <= k < |log| && Reports(log[k], ok) ::
      NearRead(log[k], ok, seen(k).0, seen(k).1, wanted(log[k].id, log[k].s), holds(log[k].s))
  }

  /** The chain holds an outcome of exactly this transaction, and it shows the transfer, */
  ghost predicate Paid(truth: NearReaders.Truth, x: NearReaders.Expected) {
    && truth.TheOutcome? && NearReaders.IdentityMatches(truth.outcome, x)
    && exists r :: ReceiptTheorems.Accepted(truth.outcome, x.payer, x.asset, r)
  }

  /** or a failure. */
  ghost predicate FailedOnChain(truth: NearReaders.Truth, x: NearReaders.Expected) {
    && truth.TheOutcome? && NearReaders.IdentityMatches(truth.outcome, x)
    && exists error :: ReceiptTheorems.ShowsFailure(truth.outcome, error)
  }

  /** A terminal verdict from trustworthy answers is true of the chain. */
  lemma VerdictIsTrue(primary: NearReaders.Lookup, backup: NearReaders.Lookup, x: NearReaders.Expected,
                      truth: NearReaders.Truth, ok: bool)
    requires NearReaders.Status(primary, backup, x).verdict == NearReaders.TerminalVerdict(ok)
    requires Trustworthy(primary, backup, truth)
    ensures if ok then Paid(truth, x) else FailedOnChain(truth, x)
  {
    if ok {
      NearReaders.SucceedsExactlyOnTransfer(primary, backup, x);
      var o, r :| && NearReaders.OnlyFinal(primary, backup, o) && NearReaders.IdentityMatches(o, x)
                  && ReceiptTheorems.Accepted(o, x.payer, x.asset, r);
      assert truth == NearReaders.TheOutcome(o);
    } else {
      NearReaders.FailsOnlyOnRecordedFailure(primary, backup, x);
      var o, error :| && NearReaders.OnlyFinal(primary, backup, o) && NearReaders.IdentityMatches(o, x)
                      && ReceiptTheorems.ShowsFailure(o, error);
      assert truth == NearReaders.TheOutcome(o);
    }
  }

  /** A row finished by this run. */
  predicate FinishedHere(s: State, r: State, id: Id) {
    && id in r.disk.table && Terminal(r.disk.table[id].state)
    && !(id in s.disk.table && Terminal(s.disk.table[id].state))
  }

  /** A NEAR settlement recorded as succeeded was paid, on chain, by the very transaction its row journals. */
  lemma SucceededNearRowWasPaid(cfg: Config, s: State, steps: seq<Step>, id: Id, wanted: Wanted, seen: Answers,
                                holds: Holds)
    requires Initial(cfg, s) && s.disk.late == multiset{} && FinishedHere(s, Execute(cfg, s, steps), id)
    requires NearReportsRead(Execute(cfg, s, steps).log, wanted, seen, holds)
    requires Execute(cfg, s, steps).disk.table[id].state.Succeeded?
    ensures var row := Execute(cfg, s, steps).disk.table[id];
            && row.submission.Some?
            && Paid(holds(row.submission.value), wanted(id, row.submission.value))
  {
    var k := SuccessIsOfJournaledTransaction(cfg, s, steps, id);
    var e := Execute(cfg, s, steps).log[k];
    VerdictIsTrue(seen(k).0, seen(k).1, wanted(e.id, e.s), holds(e.s), true);
  }

  /** The evidence on which a row failed, and that what a node reported is about the journaled transaction. */
  lemma FailureEvidence(cfg: Config, s: State, steps: seq<Step>, id: Id) returns (k: nat)
    requires Initial(cfg, s) && s.disk.late == multiset{} && FinishedHere(s, Execute(cfg, s, steps), id)
    requires Execute(cfg, s, steps).disk.table[id].state.Failed?
    ensures var r := Execute(cfg, s, steps);
            var row := r.disk.table[id];
            && k < |r.log| && row.response.Some?
            && Justifies(cfg.chain, r.log[k], id, Failed, row.response.value, row.refused)
            && (Reports(r.log[k], false) ==> row.submission == Some(r.log[k].s))
  {
    FinishedOnEvidence(cfg, s, steps, id);
    ReachableOk(cfg, s, steps);
    var r := Execute(cfg, s, steps);
    var row := r.disk.table[id];
    k :| 0 <= k < |r.log| && Justifies(cfg.chain, r.log[k], id, Failed, row.response.value, row.refused);
    assert StillJournaled(r.disk.table, r.log[k]);
  }

  /** A NEAR settlement that failed on a final report failed on chain, as the very transaction its row journals. */
  lemma FailedNearRowFailedOnChain(cfg: Config, s: State, steps: seq<Step>, id: Id, wanted: Wanted, seen: Answers,
                                   holds: Holds)
    returns (k: nat)
    requires Initial(cfg, s) && s.disk.late == multiset{} && FinishedHere(s, Execute(cfg, s, steps), id)
    requires NearReportsRead(Execute(cfg, s, steps).log, wanted, seen, holds)
    requires Execute(cfg, s, steps).disk.table[id].state.Failed?
    ensures var r := Execute(cfg, s, steps);
            var row := r.disk.table[id];
            && k < |r.log| && row.response.Some?
            && Justifies(cfg.chain, r.log[k], id, Failed, row.response.value, row.refused)
            && (Reports(r.log[k], false) ==>
                  && row.submission.Some?
                  && FailedOnChain(holds(row.submission.value), wanted(id, row.submission.value)))
  {
    k := FailureEvidence(cfg, s, steps, id);
    var e := Execute(cfg, s, steps).log[k];
    if Reports(e, false) {
      VerdictIsTrue(seen(k).0, seen(k).1, wanted(e.id, e.s), holds(e.s), false);
    }
  }

  /** One reconciliation of an EVM transaction: both readers' answers and the instants they were asked at. */
  datatype Reading = Reading(chainId: nat, primary: EvmReaders.Reads, backup: EvmReaders.Reads, t1: nat, t2: nat,
                             t3: nat)

  /** The reading ends in this status, and one of its readers told the truth. */
  predicate Confirms(h: EvmReaders.History, x: Reading, required: nat, status: EvmReaders.Status) {
    && EvmReaders.Reconcile(x.chainId, x.primary, x.backup, required) == EvmReaders.Ok(status)
    && x.t2 < |h|
    && (EvmReaders.Honest(h, x.t1, x.t2, x.t3, x.primary) || EvmReaders.Honest(h, x.t1, x.t2, x.t3, x.backup))
  }

  predicate Says(status: EvmReaders.Status, hash: string, ok: bool) {
    status.Terminal? && status.facts.success == ok && status.facts.txHash == hash
  }

  ghost predicate Confirmed(h: EvmReaders.History, required: nat, hash: string, ok: bool) {
    exists x, status :: Confirms(h, x, required, status) && Says(status, hash, ok)
  }

  /** A final outcome on EVM is only ever reported by recovery; the answer to a send never confirms. */
  ghost predicate EvmReportsRead(log: seq<Event>, h: EvmReaders.History, required: nat) {
    forall k, ok | 0 <= k < |log| && Reports(log[k], ok) && !log[k].Broadcast? ::
      log[k].Judged? && Confirmed(h, required, log[k].s.hash, ok)
  }

  /** What a reading with one truthful reader confirms is on the canonical chain now. */
  lemma ConfirmedIsHeld(h: EvmReaders.History, required: nat, hash: string, ok: bool)
    returns (facts: EvmReaders.ReceiptFacts)
    requires required <= EvmReaders.U64_MAX && EvmReaders.Settles(h, required) && Confirmed(h, required, hash, ok)
    ensures facts.success == ok && facts.txHash == hash && |h| > 0 && EvmReaders.Holds(h[|h| - 1], facts)
  {
    var x, status :| Confirms(h, x, required, status) && Says(status, hash, ok);
    facts := status.facts;
    EvmReaders.TerminalIsPermanent(x.chainId, h, x.t1, x.t2, x.t3, x.primary, x.backup, required, |h| - 1);
  }

  /** An EVM settlement recorded as succeeded is on the canonical chain, as a success of the journaled transaction. */
  lemma SucceededEvmRowIsHeld(cfg: Config, s: State, steps: seq<Step>, id: Id, h: EvmReaders.History, required: nat)
    returns (facts: EvmReaders.ReceiptFacts)
    requires Initial(cfg, s) && s.disk.late == multiset{} && cfg.chain.Eip155?
    requires FinishedHere(s, Execute(cfg, s, steps), id) && Execute(cfg, s, steps).disk.table[id].state.Succeeded?
    requires required <= EvmReaders.U64_MAX && EvmReaders.Settles(h, required)
    requires EvmReportsRead(Execute(cfg, s, steps).log, h, required)
    ensures var row := Execute(cfg, s, steps).disk.table[id];
            && row.submission.Some? && facts.success && facts.txHash == row.submission.value.hash
            && |h| > 0 && EvmReaders.Holds(h[|h| - 1], facts)
  {
    var k := SuccessIsOfJournaledTransaction(cfg, s, steps, id);
    facts := ConfirmedIsHeld(h, required, Execute(cfg, s, steps).log[k].s.hash, true);
  }

  /** An EVM settlement that failed on a final report is on the canonical chain, as a failure of that transaction. */
  lemma FailedEvmRowIsHeld(cfg: Config, s: State, steps: seq<Step>, id: Id, h: EvmReaders.History, required: nat)
    returns (k: nat, facts: EvmReaders.ReceiptFacts)
    requires Initial(cfg, s) && s.disk.late == multiset{} && cfg.chain.Eip155?
    requires FinishedHere(s, Execute(cfg, s, steps), id) && Execute(cfg, s, steps).disk.table[id].state.Failed?
    requires required <= EvmReaders.U64_MAX && EvmReaders.Settles(h, required)
    requires EvmReportsRead(Execute(cfg, s, steps).log, h, required)
    ensures var r := Execute(cfg, s, steps);
            var row := r.disk.table[id];
            && k < |r.log| && row.response.Some?
            && Justifies(cfg.chain, r.log[k], id, Failed, row.response.value, row.refused)
            && (Reports(r.log[k], false) ==>
                  && row.submission.Some? && !facts.success && facts.txHash == row.submission.value.hash
                  && |h| > 0 && EvmReaders.Holds(h[|h| - 1], facts))
  {
    k := FailureEvidence(cfg, s, steps, id);
    var e := Execute(cfg, s, steps).log[k];
    if Reports(e, false) {
      facts := ConfirmedIsHeld(h, required, e.s.hash, false);
    } else {
      facts := EvmReaders.FACTS;
    }
  }
}
