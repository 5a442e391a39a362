/**
 The readiness gates: independent atomic cells written by several tasks, and the
 four-load check that settlement relies on. Loss of leadership is two writes, and the
 check is four reads, so other writes may fall in between.
 */
module Readiness {
  datatype Gate = Database | Leadership | Reconciliation | Rpc | Relayer

  /** A cell that was never written is neither ready nor not ready, and counts as not ready. */
  datatype Cell = Unobserved | NotReady | Ready

  function CellOf(ready: bool): (c: Cell) {
    if ready then Ready else NotReady
  }

  datatype Write = Write(gate: Gate, ready: bool)

  /** A cell after the first `n` writes of a history. */
  function At(w: seq<Write>, g: Gate, n: nat): (c: Cell)
    requires n <= |w|
  {
    if n == 0 then Unobserved
    else if w[n - 1].gate == g then CellOf(w[n - 1].ready)
    else At(w, g, n - 1)
  }

  class Gates {
    var database: Cell
    var leadership: Cell
    var reconciliation: Cell
    var rpc: Cell
    var relayer: Cell
    ghost var history: seq<Write>

    ghost predicate Valid()
      reads this
    {
      && database == At(history, Database, |history|)
      && leadership == At(history, Leadership, |history|)
      && reconciliation == At(history, Reconciliation, |history|)
      && rpc == At(history, Rpc, |history|)
      && relayer == At(history, Relayer, |history|)
    }

    constructor ()
      ensures Valid() && history == []
    {
      database, leadership, reconciliation, rpc, relayer := Unobserved, Unobserved, Unobserved, Unobserved, Unobserved;
      history := [];
    }

    /** One atomic swap; it reports whether the gate's observed state changed. */
    method SetGate(g: Gate, ready: bool) returns (changed: bool)
      requires Valid()
      modifies this
      ensures Valid() && history == old(history) + [Write(g, ready)]
      ensures changed <==> At(old(history), g, |old(history)|) != CellOf(ready)
    {
      var previous;
      match g {
        case Database => previous := database; database := CellOf(ready);
        case Leadership => previous := leadership; leadership := CellOf(ready);
        case Reconciliation => previous := reconciliation; reconciliation := CellOf(ready);
        case Rpc => previous := rpc; rpc := CellOf(ready);
        case Relayer => previous := relayer; relayer := CellOf(ready);
      }
      changed := previous != CellOf(ready);
      PrefixKeepsCells(history, Write(g, ready));
      history := history + [Write(g, ready)];
    }

    /** Losing leadership also closes the reconciliation gate, in a second write. */
    method SetLeadership(ready: bool)
      requires Valid()
      modifies this
      ensures Valid()
      ensures history == old(history) + [Write(Leadership, ready)] +
                         if ready then [] else [Write(Reconciliation, false)]
    {
      var _ := SetGate(Leadership, ready);
      if !ready {
        var _ := SetGate(Reconciliation, false);
      }
    }

    /** The check without interference between its loads. */
    method CanSettle() returns (ok: bool)
      requires Valid()
      ensures ok <==> Passes(history, |history|, |history|, |history|, |history|)
    {
      ok := leadership == Ready && reconciliation == Ready && rpc == Ready && relayer == Ready;
    }
  }

  lemma {:induction false} PrefixKeepsCell(w: seq<Write>, more: seq<Write>, g: Gate, n: nat)
    requires n <= |w|
    ensures At(w + more, g, n) == At(w, g, n)
  {
    if n > 0 {
      PrefixKeepsCell(w, more, g, n - 1);
    }
  }

  lemma PrefixKeepsCells(w: seq<Write>, x: Write)
    ensures forall g :: At(w + [x], g, |w|) == At(w, g, |w|)
  {
    forall g ensures At(w + [x], g, |w|) == At(w, g, |w|) {
      PrefixKeepsCell(w, [x], g, |w|);
    }
  }

  /** `can_settle` whose loads of leadership, reconciliation, rpc and relayer follow so many writes each. */
  predicate Passes(w: seq<Write>, p1: nat, p2: nat, p3: nat, p4: nat)
    requires p1 <= p2 <= p3 <= p4 <= |w|
  {
    At(w, Leadership, p1) == Ready && At(w, Reconciliation, p2) == Ready && At(w, Rpc, p3) == Ready
        && At(w, Relayer, p4) == Ready
  }

  /** A ready cell was made ready after any write that made it not ready. */
  lemma {:induction false} ReadyHasWriter(w: seq<Write>, g: Gate, n: nat, from: nat) returns (i: nat)
    requires from < n <= |w| && w[from] == Write(g, false) && At(w, g, n) == Ready
    ensures from < i < n && w[i] == Write(g, true)
  {
    if w[n - 1].gate == g {
      i := n - 1;
    } else {
      i := ReadyHasWriter(w, g, n - 1, from);
    }
  }

  /**
   Whatever writes are interleaved, a check that begins after a completed loss passes only if leadership was
   regained and reconciliation declared ready after that loss.
   */
  lemma LossNeedsFreshWrites(w: seq<Write>, i: nat, j: nat, p1: nat, p2: nat, p3: nat, p4: nat) returns (a: nat, b: nat)
    requires i < j < p1 <= p2 <= p3 <= p4 <= |w| && w[i] == Write(Leadership, false)
             && w[j] == Write(Reconciliation, false)
    requires Passes(w, p1, p2, p3, p4)
    ensures i < a < p1 && w[a] == Write(Leadership, true)
    ensures j < b < p2 && w[b] == Write(Reconciliation, true)
  {
    a := ReadyHasWriter(w, Leadership, p1, i);
    b := ReadyHasWriter(w, Reconciliation, p2, j);
  }

  /** Every close of the gate in the interval is followed there by a reopening. */
  predicate Reopens(w: seq<Write>, g: Gate, m: nat, n: nat)
    requires n <= |w|
  {
    forall i | m <= i < n && w[i] == Write(g, false) :: ReopensAfter(w, g, i, n)
  }

  predicate ReopensAfter(w: seq<Write>, g: Gate, i: nat, n: nat)
    requires n <= |w|
  {
    exists j | i < j < n :: w[j] == Write(g, true)
  }

  /** A gate that was ready is ready later exactly when each close in between was undone. */
  lemma {:induction false} StaysReady(w: seq<Write>, g: Gate, m: nat, n: nat)
    requires m <= n <= |w| && At(w, g, m) == Ready
    ensures At(w, g, n) == Ready <==> Reopens(w, g, m, n)
  {
    if At(w, g, n) == Ready {
      forall i | m <= i < n && w[i] == Write(g, false) ensures ReopensAfter(w, g, i, n) {
        var j := ReadyHasWriter(w, g, n, i);
      }
    } else if m < n && w[n - 1].gate != g {
      StaysReady(w, g, m, n - 1);
      var i :| m <= i < n - 1 && w[i] == Write(g, false) && !ReopensAfter(w, g, i, n - 1);
      assert !ReopensAfter(w, g, i, n);
    } else if m < n {
      assert w[n - 1] == Write(g, false) && !ReopensAfter(w, g, n - 1, n);
    }
  }

  /**
   A passing check means all four gates are ready at its end exactly when each gate that closed after its own load
   reopened before that end. Nothing is asked of other gates, or of closes before a load.
   */
  lemma PassIsInstantExactly(w: seq<Write>, p1: nat, p2: nat, p3: nat, p4: nat)
    requires p1 <= p2 <= p3 <= p4 <= |w| && Passes(w, p1, p2, p3, p4)
    ensures Passes(w, p4, p4, p4, p4) <==>
              Reopens(w, Leadership, p1, p4) && Reopens(w, Reconciliation, p2, p4) && Reopens(w, Rpc, p3, p4)
  {
    StaysReady(w, Leadership, p1, p4);
    StaysReady(w, Reconciliation, p2, p4);
    StaysReady(w, Rpc, p3, p4);
  }

  const TORN: seq<Write> :=
    [Write(Leadership, true), Write(Rpc, true), Write(Relayer, true),
     Write(Leadership, false), Write(Reconciliation, false), Write(Reconciliation, true)]

  /**
   Otherwise it need not: a check that overlaps a loss, followed by a recovery pass that began earlier and now
   declares itself done, passes although the four gates were ready together at no instant.
   */
  lemma TornCheckPasses()
    ensures Passes(TORN, 3, 6, 6, 6)
    ensures forall n: nat | n <= |TORN| :: !Passes(TORN, n, n, n, n)
  {
    forall n: nat | n <= |TORN| ensures !Passes(TORN, n, n, n, n) {
      assert At(TORN, Leadership, 0) == Unobserved;
      assert At(TORN, Reconciliation, 3) == At(TORN, Reconciliation, 2) == At(TORN, Reconciliation, 1);
      assert At(TORN, Reconciliation, 4) == At(TORN, Reconciliation, 3);
      assert At(TORN, Leadership, 6) == At(TORN, Leadership, 5) == At(TORN, Leadership, 4);
      assert n == 0 || n == 1 || n == 2 || n == 3 || n == 4 || n == 5 || n == 6;
    }
    assert At(TORN, Leadership, 3) == At(TORN, Leadership, 2) == At(TORN, Leadership, 1);
    assert At(TORN, Rpc, 6) == At(TORN, Rpc, 5) == At(TORN, Rpc, 4) == At(TORN, Rpc, 3) == At(TORN, Rpc, 2);
    assert At(TORN, Relayer, 6) == At(TORN, Relayer, 5) == At(TORN, Relayer, 4) == At(TORN, Relayer, 3);
  }
}
