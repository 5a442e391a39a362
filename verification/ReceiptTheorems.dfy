/** What a receipt verdict means, stated without reference to the search that computes it. */
module ReceiptTheorems {
  import opened Graphs
  import opened Receipts

  /** Everything the delegate receipt started is present, did not fail and is not undecided. */
  ghost predicate Complete(m: Index, delegate: Hash) {
    forall v | Reaches(Edges(m), delegate, v) :: v in m && !m[v].status.Failure? && !m[v].status.StatusUnknown?
  }

  ghost predicate NoReachableCycle(m: Index, delegate: Hash) {
    forall p: seq<Hash> | |p| > 0 && Reaches(Edges(m), delegate, p[0]) :: !IsCycle(Edges(m), p)
  }

  /** The delegated transfer `r` took place, as the receipt outcomes `m` show it. */
  ghost predicate Transferred(m: Index, delegate: Hash, payer: Account, asset: Account, r: TransferReceipt) {
    && Complete(m, delegate) && NoReachableCycle(m, delegate)
    && delegate in m && m[delegate].executor == payer
    && exists i: nat ::
         && OnlyTokenAt(m, m[delegate].children, asset, i)
         && m[delegate].children[i] == r.id && m[r.id].status == SuccessValue(r.value)
  }

  ghost predicate Accepted(o: FinalOutcome, payer: Account, asset: Account, r: TransferReceipt) {
    && o.status.FinalSuccess?
    && !o.transaction.status.Failure? && !o.transaction.status.StatusUnknown?
    && |o.transaction.children| == 1
    && UniqueIds(o.receipts)
    && Transferred(IndexOf(o.receipts), o.transaction.children[0], payer, asset, r)
  }

  /** A successful search finds exactly what is reachable. */
  lemma SearchIsReachability(m: Index, token: Hash, delegate: Hash)
    ensures var r := Traverse(m, token, [delegate], {});
            match r
            case Ok(all) =>
              && (forall v :: v in all <==> Reaches(Edges(m), delegate, v))
              && (forall v | Reaches(Edges(m), delegate, v) :: Clean(m, token, v))
              && ClosedUnder(Edges(m), all)
            case Err(e) =>
              exists v :: Reaches(Edges(m), delegate, v) && !Clean(m, token, v) &&
                if e.ReachableReceiptFailure? then v in m && m[v].status == Failure(e.error)
                else e == IncompleteReceiptGraph
  {
    ReachesSelf(Edges(m), delegate);
    TraverseMeaning(m, token, delegate, [delegate], {});
    var r := Traverse(m, token, [delegate], {});
    if r.Ok? {
      assert delegate in [delegate];
      forall v | Reaches(Edges(m), delegate, v) ensures v in r.value {
        var p :| IsPath(Edges(m), p) && p[0] == delegate && p[|p| - 1] == v;
        PathStaysInside(Edges(m), r.value, p, |p| - 1);
      }
    }
  }

  lemma AcyclicIsNoReachableCycle(m: Index, delegate: Hash, all: set<Hash>)
    requires forall v :: v in all <==> Reaches(Edges(m), delegate, v)
    ensures Acyclic(Edges(m), all) <==> NoReachableCycle(m, delegate)
  {
  }

  lemma TokenVerdictMeaning(m: Index, delegate: Hash, token: Hash, r: TransferReceipt)
    requires Reaches(Edges(m), delegate, token)
    ensures TokenVerdict(m, delegate, token) == Ok(r) <==>
              && Complete(m, delegate) && NoReachableCycle(m, delegate)
              && token == r.id && token in m && m[token].status == SuccessValue(r.value)
  {
    SearchIsReachability(m, token, delegate);
    var search := Traverse(m, token, [delegate], {});
    if search.Ok? {
      AcyclicIsNoReachableCycle(m, delegate, search.value);
      assert Clean(m, token, token);
    }
  }

  lemma DelegateVerdictMeaning(m: Index, delegate: Hash, payer: Account, asset: Account, r: TransferReceipt)
    ensures DelegateVerdict(m, delegate, payer, asset) == Ok(r) <==> Transferred(m, delegate, payer, asset, r)
  {
    ReachesSelf(Edges(m), delegate);
    if delegate in m {
      var kids := m[delegate].children;
      forall k | k in kids ensures Reaches(Edges(m), delegate, k) {
        ReachesStep(Edges(m), delegate, delegate, k);
      }
      OneTokenChild(m, kids, asset);
      var tokens := TokenChildren(m, kids, asset);
      if |tokens| == 1 {
        var i: nat :| OnlyTokenAt(m, kids, asset, i);
        assert tokens == [kids[i]];
        TokenVerdictMeaning(m, delegate, kids[i], r);
      }
    }
  }

  /** The validator accepts exactly the outcomes that show the transfer, and returns that transfer. */
  lemma AcceptsExactlyTransfers(o: FinalOutcome, payer: Account, asset: Account, r: TransferReceipt)
    ensures Verdict(o, payer, asset) == Ok(r) <==> Accepted(o, payer, asset, r)
  {
    if o.status.FinalSuccess? && |o.transaction.children| == 1 && UniqueIds(o.receipts) {
      DelegateVerdictMeaning(IndexOf(o.receipts), o.transaction.children[0], payer, asset, r);
    }
  }

  ghost predicate FailureReachable(m: Index, delegate: Hash, error: string) {
    exists v :: Reaches(Edges(m), delegate, v) && v in m && m[v].status == Failure(error)
  }

  /** The failure a definitive error reports is really there, with the same text. */
  ghost predicate ShowsFailure(o: FinalOutcome, error: string) {
    || o.status == FinalFailed(error)
    || o.transaction.status == Failure(error)
    || (&& |o.transaction.children| == 1 && UniqueIds(o.receipts)
        && FailureReachable(IndexOf(o.receipts), o.transaction.children[0], error))
  }

  /** A failing token receipt is always reported by the traversal, before its own status is looked at. */
  lemma TokenFailureIsFoundEarlier(m: Index, delegate: Hash, token: Hash)
    requires Reaches(Edges(m), delegate, token)
    ensures var r := TokenVerdict(m, delegate, token);
            r.Err? ==>
              && !r.error.TokenReceiptFailure?
              && (r.error.CyclicReceiptGraph? ==> !NoReachableCycle(m, delegate))
              && (IsDefinitiveFailure(r.error) ==>
                    && r.error.ReachableReceiptFailure?
                    && FailureReachable(m, delegate, r.error.error))
  {
    SearchIsReachability(m, token, delegate);
    var search := Traverse(m, token, [delegate], {});
    if search.Ok? {
      AcyclicIsNoReachableCycle(m, delegate, search.value);
      assert Clean(m, token, token);
    }
  }

  lemma DelegateFailures(m: Index, delegate: Hash, payer: Account, asset: Account)
    ensures var r := DelegateVerdict(m, delegate, payer, asset);
            r.Err? ==>
              && !r.error.TokenReceiptFailure?
              && (r.error.CyclicReceiptGraph? ==> !NoReachableCycle(m, delegate))
              && (IsDefinitiveFailure(r.error) ==>
                    && (r.error.ReachableReceiptFailure? || r.error.DelegateFailure?)
                    && FailureReachable(m, delegate, r.error.error))
  {
    ReachesSelf(Edges(m), delegate);
    if delegate in m {
      var kids := m[delegate].children;
      var tokens := TokenChildren(m, kids, asset);
      TokenChildrenAre(m, kids, asset);
      if |tokens| == 1 {
        assert tokens[0] in tokens;
        ReachesStep(Edges(m), delegate, delegate, tokens[0]);
        TokenFailureIsFoundEarlier(m, delegate, tokens[0]);
      }
    }
  }

  /**
   A payment is called failed only where a failure is on record, a cycle is reported only where one is reachable,
   and the dedicated token-failure error never arises.
   */
  lemma DefinitiveFailuresAreReal(o: FinalOutcome, payer: Account, asset: Account)
    ensures var r := Verdict(o, payer, asset);
            r.Err? ==>
              && !r.error.TokenReceiptFailure?
              && (IsDefinitiveFailure(r.error) ==> ShowsFailure(o, r.error.error))
              && (r.error.CyclicReceiptGraph? ==>
                    |o.transaction.children| == 1 && !NoReachableCycle(IndexOf(o.receipts), o.transaction.children[0]))
  {
    if o.status.FinalSuccess? && |o.transaction.children| == 1 && UniqueIds(o.receipts) {
      DelegateFailures(IndexOf(o.receipts), o.transaction.children[0], payer, asset);
    }
  }

  /** A breadth-first walk that checks nothing. */
  datatype Front = Front(queue: seq<Hash>, visited: set<Hash>)

  function Ahead(m: Index, f: Front): (r: Front) {
    if f.queue == [] then f
    else if f.queue[0] in f.visited then Front(f.queue[1..], f.visited)
    else Front(f.queue[1..] + Kids(Edges(m), f.queue[0]), f.visited + {f.queue[0]})
  }

  function AheadBy(m: Index, f: Front, n: nat): (r: Front)
    decreases n
  {
    if n == 0 then f else AheadBy(m, Ahead(m, f), n - 1)
  }

  /** After `n` moves of the walk a receipt is met for the first time that is missing, failed or undecided. */
  predicate Meets(m: Index, token: Hash, f: Front, n: nat, id: Hash) {
    var g := AheadBy(m, f, n);
    g.queue != [] && g.queue[0] == id && id !in g.visited && !Clean(m, token, id)
  }

  /** It is the first such receipt of the walk. */
  ghost predicate MeetsFirst(m: Index, token: Hash, f: Front, n: nat, id: Hash) {
    Meets(m, token, f, n, id) && forall k: nat, other | k < n :: !Meets(m, token, f, k, other)
  }

  /** What the first such receipt has to say. */
  function Complaint(m: Index, id: Hash): (e: Error) {
    if id in m && m[id].status.Failure? then ReachableReceiptFailure(m[id].status.error) else IncompleteReceiptGraph
  }

  ghost predicate MeetsSome(m: Index, token: Hash, f: Front, e: Error) {
    exists n: nat, id :: MeetsFirst(m, token, f, n, id) && Complaint(m, id) == e
  }

  lemma MeetsNext(m: Index, token: Hash, f: Front, n: nat, id: Hash)
    requires f.queue != []
    ensures Meets(m, token, f, n + 1, id) <==> Meets(m, token, Ahead(m, f), n, id)
  {
  }

  lemma MeetsSomeNext(m: Index, token: Hash, f: Front, e: Error)
    requires f.queue != [] && forall id :: !Meets(m, token, f, 0, id)
    ensures MeetsSome(m, token, f, e) <==> MeetsSome(m, token, Ahead(m, f), e)
  {
    var g := Ahead(m, f);
    forall n: nat, id ensures MeetsFirst(m, token, f, n + 1, id) <==> MeetsFirst(m, token, g, n, id) {
      MeetsNext(m, token, f, n, id);
      forall k: nat, other ensures Meets(m, token, f, k + 1, other) <==> Meets(m, token, g, k, other) {
        MeetsNext(m, token, f, k, other);
      }
      if MeetsFirst(m, token, g, n, id) {
        forall k: nat, other | k < n + 1 ensures !Meets(m, token, f, k, other) {
          if k > 0 {
            assert !Meets(m, token, g, k - 1, other);
          }
        }
      }
      if MeetsFirst(m, token, f, n + 1, id) {
        forall k: nat, other | k < n ensures !Meets(m, token, g, k, other) {
          assert !Meets(m, token, f, k + 1, other);
        }
      }
    }
    if MeetsSome(m, token, f, e) {
      var n: nat, id :| MeetsFirst(m, token, f, n, id) && Complaint(m, id) == e;
      assert n > 0;
      assert MeetsFirst(m, token, g, n - 1, id);
    }
  }

  lemma EmptyWalkMeetsNothing(m: Index, token: Hash, f: Front, n: nat, id: Hash)
    requires f.queue == []
    ensures !Meets(m, token, f, n, id)
  {
    if n > 0 {
      EmptyWalkMeetsNothing(m, token, f, n - 1, id);
    }
  }

  /** The search stops exactly at the first receipt of the walk that is not clean, with what that receipt says. */
  lemma {:induction false} SearchStopsAtFirst(m: Index, token: Hash, queue: seq<Hash>, visited: set<Hash>, e: Error)
    ensures Traverse(m, token, queue, visited) == Err(e) <==> MeetsSome(m, token, Front(queue, visited), e)
    decreases m.Keys - visited, |queue|
  {
    var f := Front(queue, visited);
    if queue == [] {
      forall n: nat, id ensures !Meets(m, token, f, n, id) {
        EmptyWalkMeetsNothing(m, token, f, n, id);
      }
    } else if queue[0] in visited {
      SearchStopsAtFirst(m, token, queue[1..], visited, e);
      MeetsSomeNext(m, token, f, e);
    } else if Clean(m, token, queue[0]) {
      SearchStopsAtFirst(m, token, queue[1..] + m[queue[0]].children, visited + {queue[0]}, e);
      MeetsSomeNext(m, token, f, e);
    } else {
      assert MeetsFirst(m, token, f, 0, queue[0]);
      assert Traverse(m, token, queue, visited) == Err(Complaint(m, queue[0]));
      assert Meets(m, token, f, 0, queue[0]);
      assert forall n: nat, id :: MeetsFirst(m, token, f, n, id) ==> n == 0 && id == queue[0];
    }
  }

  /** The transaction itself is fine, started one receipt, and the receipts are listed once each. */
  predicate WellStarted(o: FinalOutcome) {
    && o.status.FinalSuccess?
    && !o.transaction.status.Failure? && !o.transaction.status.StatusUnknown?
    && |o.transaction.children| == 1 && UniqueIds(o.receipts)
  }

  /** The delegate ran on the payer, is decided, and has all its children on record, one of them on the asset. */
  ghost predicate WellDelegated(m: Index, delegate: Hash, payer: Account, asset: Account, token: Hash) {
    && delegate in m && m[delegate].executor == payer
    && !m[delegate].status.Failure? && !m[delegate].status.StatusUnknown?
    && (forall k | k in m[delegate].children :: k in m)
    && exists i: nat :: OnlyTokenAt(m, m[delegate].children, asset, i) && m[delegate].children[i] == token
  }

  /** A failure of the payment itself, with this text, is the first thing wrong with the outcome. */
  ghost predicate FailsWith(o: FinalOutcome, payer: Account, asset: Account, error: string) {
    || o.status == FinalFailed(error)
    || (o.status.FinalSuccess? && o.transaction.status == Failure(error))
    || (&& WellStarted(o)
        && var m, delegate := IndexOf(o.receipts), o.transaction.children[0];
           && delegate in m && m[delegate].executor == payer
           && (|| m[delegate].status == Failure(error)
               || exists token ::
                    && WellDelegated(m, delegate, payer, asset, token)
                    && MeetsSome(m, token, Front([delegate], {}), ReachableReceiptFailure(error))))
  }

  predicate Definitive(r: Result<TransferReceipt>, error: string) {
    r.Err? && IsDefinitiveFailure(r.error) && r.error.error == error
  }

  lemma TokenVerdictFails(m: Index, delegate: Hash, token: Hash, error: string)
    requires Reaches(Edges(m), delegate, token)
    ensures Definitive(TokenVerdict(m, delegate, token), error) <==>
              MeetsSome(m, token, Front([delegate], {}), ReachableReceiptFailure(error))
  {
    TokenFailureIsFoundEarlier(m, delegate, token);
    SearchStopsAtFirst(m, token, [delegate], {}, ReachableReceiptFailure(error));
  }

  lemma DelegateVerdictFails(m: Index, delegate: Hash, payer: Account, asset: Account, error: string)
    ensures Definitive(DelegateVerdict(m, delegate, payer, asset), error) <==>
              && delegate in m && m[delegate].executor == payer
              && (|| m[delegate].status == Failure(error)
                  || exists token ::
                       && WellDelegated(m, delegate, payer, asset, token)
                       && MeetsSome(m, token, Front([delegate], {}), ReachableReceiptFailure(error)))
  {
    ReachesSelf(Edges(m), delegate);
    if delegate in m {
      var kids := m[delegate].children;
      forall k | k in kids ensures Reaches(Edges(m), delegate, k) {
        ReachesStep(Edges(m), delegate, delegate, k);
      }
      OneTokenChild(m, kids, asset);
      var tokens := TokenChildren(m, kids, asset);
      if |tokens| == 1 {
        var i: nat :| OnlyTokenAt(m, kids, asset, i);
        assert tokens == [kids[i]];
        TokenVerdictFails(m, delegate, kids[i], error);
      }
    }
  }

  /** The validator calls a payment failed, with this text, exactly when that failure is the first thing wrong. */
  lemma FailsExactlyOnFailures(o: FinalOutcome, payer: Account, asset: Account, error: string)
    ensures Definitive(Verdict(o, payer, asset), error) <==> FailsWith(o, payer, asset, error)
  {
    if WellStarted(o) {
      DelegateVerdictFails(IndexOf(o.receipts), o.transaction.children[0], payer, asset, error);
    }
  }

  lemma {:induction false} CountAtLeastTwo(s: seq<Outcome>, x: Outcome)
    ensures multiset(s)[x] >= 2 <==> exists i, j :: 0 <= i < j < |s| && s[i] == x && s[j] == x
  {
    if s != [] {
      var init, last := s[..|s| - 1], s[|s| - 1];
      assert s == init + [last];
      CountAtLeastTwo(init, x);
      if last == x {
        if x in init {
          var i :| 0 <= i < |init| && init[i] == x;
          assert s[i] == x && s[|s| - 1] == x;
        } else {
          assert forall i | 0 <= i < |init| :: s[i] == init[i] && init[i] in init;
        }
      } else {
        if i, j :| 0 <= i < j < |init| && init[i] == x && init[j] == x {
          assert s[i] == x && s[j] == x;
        }
        if i, j :| 0 <= i < j < |s| && s[i] == x && s[j] == x {
          assert init[i] == x && init[j] == x;
        }
      }
    }
  }

  lemma UniqueIdsPermute(rs: seq<Outcome>, qs: seq<Outcome>)
    requires multiset(rs) == multiset(qs) && UniqueIds(rs)
    ensures UniqueIds(qs)
  {
    forall i, j | 0 <= i < j < |qs| ensures qs[i].id != qs[j].id {
      if qs[i] == qs[j] {
        CountAtLeastTwo(qs, qs[i]);
        CountAtLeastTwo(rs, qs[i]);
      } else {
        assert qs[i] in multiset(rs) && qs[j] in multiset(rs);
        assert qs[i] in rs && qs[j] in rs;
      }
    }
  }

  /** The verdict does not depend on the order in which a node lists the outcomes. */
  lemma OrderOfOutcomesIsIrrelevant(o: FinalOutcome, rs: seq<Outcome>, payer: Account, asset: Account)
    requires multiset(rs) == multiset(o.receipts)
    ensures Verdict(o.(receipts := rs), payer, asset) == Verdict(o, payer, asset)
  {
    if UniqueIds(o.receipts) {
      UniqueIdsPermute(o.receipts, rs);
      IndexOfIndexes(o.receipts);
      IndexOfIndexes(rs);
      forall i | 0 <= i < |rs| ensures rs[i] in o.receipts { assert rs[i] in multiset(o.receipts); }
      forall x | x in o.receipts ensures x in rs { assert x in multiset(rs); }
      assert Indexes(IndexOf(o.receipts), rs);
      OneIndex(IndexOf(rs), IndexOf(o.receipts), rs);
    } else if UniqueIds(rs) {
      UniqueIdsPermute(rs, o.receipts);
    }
  }
}
