/** The NEAR verdict on a submitted transaction from two independent lookups. */
module NearReaders {
  import opened Graphs
  import opened Receipts
  import opened ReceiptTheorems

  datatype Lookup =
    | Final(outcome: FinalOutcome)
    | InProgress
    | NotFound          // the node answers that it has no such transaction
    | NotFoundError     // the same answer, reported as an error
    | LookupFailed

  datatype ReconcileVerdict =
    | TerminalVerdict(success: bool)
    | IndeterminateVerdict
    | PendingVerdict
    | UnknownVerdict
    | ConflictVerdict
    | AmbiguousVerdict

  datatype ReconcileStatus = ReconcileStatus(verdict: ReconcileVerdict, failover: bool)

  /** The submission a lookup is judged against. */
  datatype Expected = Expected(hash: Hash, relayer: Account, payer: Account, asset: Account)

  /** The outcome names exactly the transaction that was prepared. */
  predicate IdentityMatches(o: FinalOutcome, e: Expected) {
    && o.hash == e.hash
    && o.transaction.id == e.hash
    && o.signer == e.relayer
    && o.receiver == e.payer
    && o.transaction.executor == e.relayer
  }

  ghost function Interpret(o: FinalOutcome, e: Expected): (v: ReconcileVerdict) {
    if !IdentityMatches(o, e) then IndeterminateVerdict
    else
      match Verdict(o, e.payer, e.asset)
      case Ok(_) => TerminalVerdict(true)
      case Err(error) => if IsDefinitiveFailure(error) then TerminalVerdict(false) else IndeterminateVerdict
  }

  predicate LacksIt(l: Lookup) {
    l.NotFound? || l.NotFoundError?
  }

  ghost function Status(primary: Lookup, backup: Lookup, e: Expected): (s: ReconcileStatus) {
    if primary.Final? && backup.Final? && primary.outcome != backup.outcome then ReconcileStatus(ConflictVerdict, false)
    else if primary.Final? then ReconcileStatus(Interpret(primary.outcome, e), false)
    else if backup.Final? then ReconcileStatus(Interpret(backup.outcome, e), true)
    else if primary.InProgress? || backup.InProgress? then ReconcileStatus(PendingVerdict, false)
    else if LacksIt(primary) && LacksIt(backup) then ReconcileStatus(UnknownVerdict, false)
    else ReconcileStatus(AmbiguousVerdict, false)
  }

  method InterpretNearFinal(o: FinalOutcome, e: Expected) returns (v: ReconcileVerdict)
    ensures v == Interpret(o, e)
  {
    if !IdentityMatches(o, e) {
      return IndeterminateVerdict;
    }
    var receipt := InterpretFinalOutcome(o, e.payer, e.asset);
    if receipt.Ok? {
      return TerminalVerdict(true);
    }
    return if IsDefinitiveFailure(receipt.error) then TerminalVerdict(false) else IndeterminateVerdict;
  }

  method ReconcileLookups(primary: Lookup, backup: Lookup, e: Expected) returns (s: ReconcileStatus)
    ensures s == Status(primary, backup, e)
  {
    if primary.Final? && backup.Final? && primary.outcome != backup.outcome {
      return ReconcileStatus(ConflictVerdict, false);
    }
    if primary.Final? || backup.Final? {
      var v := InterpretNearFinal(if primary.Final? then primary.outcome else backup.outcome, e);
      return ReconcileStatus(v, !primary.Final?);
    }
    if primary.InProgress? || backup.InProgress? {
      return ReconcileStatus(PendingVerdict, false);
    }
    return ReconcileStatus(if LacksIt(primary) && LacksIt(backup) then UnknownVerdict else AmbiguousVerdict, false);
  }

  /** `o` is the one final outcome on record: a reader gave it, and no reader gave a different one. */
  predicate OnlyFinal(primary: Lookup, backup: Lookup, o: FinalOutcome) {
    && (primary == Final(o) || backup == Final(o))
    && (primary.Final? ==> primary.outcome == o)
    && (backup.Final? ==> backup.outcome == o)
  }

  /** A settlement succeeds exactly when the one final outcome is its own transaction and shows the transfer. */
  lemma SucceedsExactlyOnTransfer(primary: Lookup, backup: Lookup, e: Expected)
    ensures Status(primary, backup, e).verdict == TerminalVerdict(true) <==>
              exists o, r :: OnlyFinal(primary, backup, o) && IdentityMatches(o, e) && Accepted(o, e.payer, e.asset, r)
  {
    if Status(primary, backup, e).verdict == TerminalVerdict(true) {
      var o := if primary.Final? then primary.outcome else backup.outcome;
      var r := Verdict(o, e.payer, e.asset).value;
      AcceptsExactlyTransfers(o, e.payer, e.asset, r);
      assert OnlyFinal(primary, backup, o);
    }
    forall o, r | OnlyFinal(primary, backup, o) && IdentityMatches(o, e) && Accepted(o, e.payer, e.asset, r)
      ensures Status(primary, backup, e).verdict == TerminalVerdict(true)
    {
      AcceptsExactlyTransfers(o, e.payer, e.asset, r);
    }
  }

  /** It fails only on a recorded failure of that transaction. */
  lemma FailsOnlyOnRecordedFailure(primary: Lookup, backup: Lookup, e: Expected)
    requires Status(primary, backup, e).verdict == TerminalVerdict(false)
    ensures exists o, error :: OnlyFinal(primary, backup, o) && IdentityMatches(o, e) && ShowsFailure(o, error)
  {
    var o := if primary.Final? then primary.outcome else backup.outcome;
    DefinitiveFailuresAreReal(o, e.payer, e.asset);
    var error := Verdict(o, e.payer, e.asset).error.error;
    assert OnlyFinal(primary, backup, o) && ShowsFailure(o, error);
  }

  /** And it fails exactly when the one final outcome is its own transaction and a failure is the first thing wrong. */
  lemma FailsExactlyOnFailure(primary: Lookup, backup: Lookup, e: Expected)
    ensures Status(primary, backup, e).verdict == TerminalVerdict(false) <==>
              exists o, error ::
                OnlyFinal(primary, backup, o) && IdentityMatches(o, e) && FailsWith(o, e.payer, e.asset, error)
  {
    if Status(primary, backup, e).verdict == TerminalVerdict(false) {
      var o := if primary.Final? then primary.outcome else backup.outcome;
      var error := Verdict(o, e.payer, e.asset).error.error;
      FailsExactlyOnFailures(o, e.payer, e.asset, error);
      assert OnlyFinal(primary, backup, o);
    }
    forall o, error | OnlyFinal(primary, backup, o) && IdentityMatches(o, e) && FailsWith(o, e.payer, e.asset, error)
      ensures Status(primary, backup, e).verdict == TerminalVerdict(false)
    {
      FailsExactlyOnFailures(o, e.payer, e.asset, error);
    }
  }

  /** Without a final outcome: pending if a node is still at it, unknown if both lack it, otherwise ambiguous. */
  lemma UndecidedExactly(primary: Lookup, backup: Lookup, e: Expected)
    ensures var v := Status(primary, backup, e).verdict;
            && (v.PendingVerdict? <==>
                  !primary.Final? && !backup.Final? && (primary.InProgress? || backup.InProgress?))
            && (v.AmbiguousVerdict? <==>
                  && !primary.Final? && !backup.Final? && !primary.InProgress? && !backup.InProgress?
                  && (primary.LookupFailed? || backup.LookupFailed?))
            && (v.IndeterminateVerdict? ==> primary.Final? || backup.Final?)
  {
  }

  /** Swapping the readers changes only the failover mark; unknown needs both to lack it, conflict two finals. */
  lemma LookupsAreInterchangeable(primary: Lookup, backup: Lookup, e: Expected)
    ensures Status(primary, backup, e).verdict == Status(backup, primary, e).verdict
    ensures Status(primary, backup, e).verdict.UnknownVerdict? <==> LacksIt(primary) && LacksIt(backup)
    ensures Status(primary, backup, e).verdict.ConflictVerdict? <==>
              primary.Final? && backup.Final? && primary.outcome != backup.outcome
    ensures Status(primary, backup, e).failover <==> backup.Final? && !primary.Final?
  {
  }

  /** What the chain really holds for the transaction. */
  datatype Truth = NoOutcome | TheOutcome(outcome: FinalOutcome)

  /** A node that may lag or fail, but reports only the real final outcome. */
  predicate HonestNode(l: Lookup, truth: Truth) {
    l.Final? ==> truth == TheOutcome(l.outcome)
  }

  /** Whatever the chain holds, if one node at least is honest then the verdict is that of what the chain holds. */
  ghost predicate SafeAgainstOneLiar(primary: Lookup, backup: Lookup, e: Expected) {
    forall truth | HonestNode(primary, truth) || HonestNode(backup, truth) ::
      truth.TheOutcome? && Status(primary, backup, e).verdict == Interpret(truth.outcome, e)
  }

  /** A terminal verdict survives one lying node exactly when both nodes gave a final outcome. */
  lemma SafeExactlyWhenBothFinal(primary: Lookup, backup: Lookup, e: Expected)
    requires Status(primary, backup, e).verdict.TerminalVerdict?
    ensures SafeAgainstOneLiar(primary, backup, e) <==> primary.Final? && backup.Final?
  {
    if !primary.Final? || !backup.Final? {
      assert HonestNode(primary, NoOutcome) || HonestNode(backup, NoOutcome);
    }
  }

  const D: Hash := "d"
  const T: Hash := "t"
  const TOKEN := Outcome(T, "asset", SuccessValue([]), [])
  const DELEGATE := Outcome(D, "payer", SuccessReceiptId(T), [T])
  const OUTER := Outcome("tx", "relayer", SuccessReceiptId(D), [D])
  const FORGED := FinalOutcome(FinalSuccess([]), "tx", "relayer", "payer", OUTER, [DELEGATE, TOKEN])
  const WANTED := Expected("tx", "relayer", "payer", "asset")
  const FORGED_INDEX: Index := map[D := DELEGATE, T := TOKEN]

  lemma ForgedIndex()
    ensures D != T && UniqueIds(FORGED.receipts) && IndexOf(FORGED.receipts) == FORGED_INDEX
  {
    assert D[0] != T[0];
    assert FORGED.receipts[..1] == [DELEGATE] && [DELEGATE][..0] == [];
    assert IndexOf([DELEGATE]) == map[D := DELEGATE];
  }

  lemma ForgedIsAcyclic()
    ensures Acyclic(Edges(FORGED_INDEX), {D, T})
  {
    assert D[0] != T[0];
    var g, order := Edges(FORGED_INDEX), [D, T];
    assert Kids(g, D) == [T] && Kids(g, T) == [];
    forall i, u | 0 <= i < |order| && u in {D, T} && order[i] in Kids(g, u) ensures u in order[..i] {
      assert u == D && order[i] == T && order[..i] == [D];
    }
    OrderedMeansAcyclic(g, {D, T}, order);
  }

  lemma ForgedSearch()
    ensures Traverse(FORGED_INDEX, T, [D], {}) == Ok({D, T})
  {
    assert D[0] != T[0];
    var m := FORGED_INDEX;
    assert {} + {D} == {D} && {D} + {T} == {D, T};
    assert [D][1..] + [T] == [T] && [T][1..] + [] == [];
    assert Traverse(m, T, [], {D, T}) == Ok({D, T});
    assert m[T].children == [] && m[D].children == [T];
    assert Traverse(m, T, [T], {D}) == Traverse(m, T, [T][1..] + m[T].children, {D} + {T});
    assert Traverse(m, T, [D], {}) == Traverse(m, T, [D][1..] + m[D].children, {} + {D});
  }

  /** The forged outcome looks like the transfer in every respect. */
  lemma ForgedIsAccepted()
    ensures Verdict(FORGED, "payer", "asset") == Ok(TransferReceipt(T, []))
  {
    ForgedIndex();
    ForgedIsAcyclic();
    ForgedSearch();
    ForgedTokenChild();
  }

  lemma ForgedTokenChild()
    ensures TokenChildren(FORGED_INDEX, [T], "asset") == [T]
  {
    assert [T][..0] == [];
  }

  /** One lying node next to an honest one that knows nothing: nothing is on chain, and the settlement succeeds. */
  lemma LoneFinalIsBelieved()
    ensures Accepted(FORGED, "payer", "asset", TransferReceipt(T, [])) && IdentityMatches(FORGED, WANTED)
    ensures HonestNode(NotFound, NoOutcome) && !HonestNode(Final(FORGED), NoOutcome)
    ensures Status(Final(FORGED), NotFound, WANTED).verdict == TerminalVerdict(true)
    ensures Status(NotFound, Final(FORGED), WANTED).verdict == TerminalVerdict(true)
  {
    ForgedIsAccepted();
    AcceptsExactlyTransfers(FORGED, "payer", "asset", TransferReceipt(T, []));
  }
}
