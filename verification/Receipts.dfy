/**
 Validation of the NEAR receipt graph of a delegated transfer: transaction, delegate
 receipt on the payer, one direct token receipt, and everything the delegate started.
 */
module Receipts {
  import opened Base
  import opened Graphs

  type Hash = Node
  type Account = string

  datatype ExecutionStatus =
    | StatusUnknown
    | Failure(error: string)
    | SuccessValue(value: Bytes)
    | SuccessReceiptId(receipt: Hash)

  datatype Outcome = Outcome(id: Hash, executor: Account, status: ExecutionStatus, children: seq<Hash>)

  datatype FinalStatus = NotStarted | Started | FinalFailed(error: string) | FinalSuccess(value: Bytes)

  datatype FinalOutcome = FinalOutcome(
    status: FinalStatus,
    hash: Hash,
    signer: Account,
    receiver: Account,
    transaction: Outcome,
    receipts: seq<Outcome>)

  datatype Error =
    | NotStartedError
    | Pending
    | FinalFailure(error: string)
    | TransactionFailure(error: string)
    | InvalidDelegateReceiptCount
    | MissingDelegateReceipt
    | InvalidDelegateExecutor
    | DelegateFailure(error: string)
    | IncompleteReceiptGraph
    | DuplicateReceiptOutcome
    | CyclicReceiptGraph
    | ReachableReceiptFailure(error: string)
    | InvalidTokenReceiptCount
    | TokenReceiptNotSuccessful
    | TokenReceiptFailure(error: string)

  /** Evidence that the payment itself failed on chain, as opposed to evidence that is incomplete. */
  predicate IsDefinitiveFailure(e: Error) {
    || e.FinalFailure? || e.TransactionFailure? || e.DelegateFailure? || e.ReachableReceiptFailure?
    || e.TokenReceiptFailure?
  }

  datatype Result<+T> = Ok(value: T) | Err(error: Error)

  datatype TransferReceipt = TransferReceipt(id: Hash, value: Bytes)

  type Index = map<Hash, Outcome>

  predicate Indexes(m: Index, rs: seq<Outcome>) {
    && (forall i | 0 <= i < |rs| :: rs[i].id in m && m[rs[i].id] == rs[i])
    && (forall k | k in m :: m[k].id == k && m[k] in rs)
  }

  predicate UniqueIds(rs: seq<Outcome>) {
    forall i, j | 0 <= i < j < |rs| :: rs[i].id != rs[j].id
  }

  method ById(rs: seq<Outcome>) returns (r: Result<Index>)
    ensures r.Ok? <==> UniqueIds(rs)
    ensures r.Ok? ==> Indexes(r.value, rs)
    ensures r.Err? ==> r.error == DuplicateReceiptOutcome
  {
    var m: Index := map[];
    for n := 0 to |rs|
      invariant UniqueIds(rs[..n]) && Indexes(m, rs[..n])
    {
      assert rs[..n + 1] == rs[..n] + [rs[n]];
      if rs[n].id in m {
        assert m[rs[n].id] in rs[..n];
        return Err(DuplicateReceiptOutcome);
      }
      m := m[rs[n].id := rs[n]];
    }
    assert rs[..|rs|] == rs;
    return Ok(m);
  }

  function Edges(m: Index): (g: Graph) {
    map k | k in m :: m[k].children
  }

  /** Breadth-first search with the source's early exits. The token's own status is judged last. */
  function Traverse(m: Index, token: Hash, queue: seq<Hash>, visited: set<Hash>): (r: Result<set<Hash>>)
    decreases m.Keys - visited, |queue|
  {
    if queue == [] then Ok(visited)
    else
      var id := queue[0];
      if id in visited then Traverse(m, token, queue[1..], visited)
      else if id !in m then Err(IncompleteReceiptGraph)
      else if m[id].status.Failure? then Err(ReachableReceiptFailure(m[id].status.error))
      else if id != token && m[id].status.StatusUnknown? then Err(IncompleteReceiptGraph)
      else Traverse(m, token, queue[1..] + m[id].children, visited + {id})
  }

  predicate Clean(m: Index, token: Hash, id: Hash) {
    id in m && !m[id].status.Failure? && (id != token ==> !m[id].status.StatusUnknown?)
  }

  /** Everything visited is clean, and its children are visited or still queued. */
  predicate Frontier(m: Index, token: Hash, queue: seq<Hash>, visited: set<Hash>) {
    && (forall v | v in visited :: Clean(m, token, v))
    && (forall v, w | v in visited && w in m[v].children :: w in visited || w in queue)
  }

  /** The search succeeds exactly on a clean closed set, and otherwise exhibits what is wrong. */
  lemma {:induction false} TraverseMeaning(m: Index, token: Hash, root: Hash, queue: seq<Hash>, visited: set<Hash>)
    requires Frontier(m, token, queue, visited)
    requires forall v | v in visited || v in queue :: Reaches(Edges(m), root, v)
    ensures var r := Traverse(m, token, queue, visited);
            match r
            case Ok(all) =>
              && visited <= all && (forall v | v in queue :: v in all)
              && (forall v | v in all :: Clean(m, token, v) && Reaches(Edges(m), root, v))
              && ClosedUnder(Edges(m), all)
            case Err(e) =>
              exists v :: Reaches(Edges(m), root, v) && !Clean(m, token, v) &&
                if e.ReachableReceiptFailure? then v in m && m[v].status == Failure(e.error)
                else e == IncompleteReceiptGraph
    decreases m.Keys - visited, |queue|
  {
    if queue != [] {
      var id := queue[0];
      assert id in queue;
      if id in visited {
        TraverseMeaning(m, token, root, queue[1..], visited);
      } else if Clean(m, token, id) {
        forall w | w in m[id].children ensures Reaches(Edges(m), root, w) {
          ReachesStep(Edges(m), root, id, w);
        }
        TraverseMeaning(m, token, root, queue[1..] + m[id].children, visited + {id});
      }
    }
  }

  /** How many edges from unprocessed nodes still point at each visited node. */
  ghost predicate Counts(g: Graph, indegrees: map<Hash, nat>, visited: set<Hash>, sources: set<Hash>) {
    indegrees.Keys == visited && forall v | v in visited :: indegrees[v] == Emitted(g, sources)[v]
  }

  /** Count one receipt's child list into the in-degrees. */
  method Tally(indegrees0: map<Hash, nat>, kids: seq<Hash>) returns (indegrees: map<Hash, nat>)
    ensures indegrees.Keys == indegrees0.Keys
    ensures forall v | v in indegrees :: indegrees[v] == indegrees0[v] + multiset(kids)[v]
  {
    indegrees := indegrees0;
    for n := 0 to |kids|
      invariant indegrees.Keys == indegrees0.Keys
      invariant forall v | v in indegrees :: indegrees[v] == indegrees0[v] + multiset(kids[..n])[v]
    {
      assert kids[..n + 1] == kids[..n] + [kids[n]];
      if kids[n] in indegrees {
        indegrees := indegrees[kids[n] := indegrees[kids[n]] + 1];
      }
    }
    assert kids[..|kids|] == kids;
  }

  method CountIndegrees(m: Index, visited: set<Hash>) returns (indegrees: map<Hash, nat>)
    requires visited <= m.Keys
    ensures Counts(Edges(m), indegrees, visited, visited)
  {
    indegrees := map v | v in visited :: 0;
    var rest := visited;
    ghost var done: set<Hash> := {};
    while rest != {}
      invariant rest <= visited && done == visited - rest
      invariant Counts(Edges(m), indegrees, visited, done)
      decreases rest
    {
      var id :| id in rest;
      indegrees := Tally(indegrees, m[id].children);
      rest := rest - {id};
      assert done + {id} - {id} == done;
      EmittedSplit(Edges(m), done + {id}, id);
      done := done + {id};
    }
    assert done == visited;
  }

  predicate NoRepeats(s: seq<Hash>) {
    forall i, j | 0 <= i < j < |s| :: s[i] != s[j]
  }

  /** The queued and the finished nodes are exactly those with no remaining incoming edge. */
  predicate ZeroesListed(indegrees: map<Hash, nat>, roots: seq<Hash>, done: set<Hash>) {
    && NoRepeats(roots)
    && done <= indegrees.Keys
    && (forall v | v in roots :: v in indegrees && v !in done)
    && (forall v | v in indegrees :: indegrees[v] == 0 <==> v in roots || v in done)
  }

  method InitialRoots(indegrees: map<Hash, nat>) returns (roots: seq<Hash>)
    ensures ZeroesListed(indegrees, roots, {})
  {
    roots := [];
    var rest := indegrees.Keys;
    while rest != {}
      invariant rest <= indegrees.Keys && NoRepeats(roots)
      invariant forall v | v in roots :: v in indegrees && v !in rest
      invariant forall v | v in indegrees && v !in rest :: indegrees[v] == 0 <==> v in roots
      decreases rest
    {
      var id :| id in rest;
      rest := rest - {id};
      if indegrees[id] == 0 {
        roots := roots + [id];
      }
    }
  }

  /** Drop the outgoing edges of a finished node, queueing each child that loses its last one. */
  method Relax(m: Index, indegrees0: map<Hash, nat>, roots0: seq<Hash>, ghost done: set<Hash>, id: Hash,
               ghost others: set<Hash>)
    returns (indegrees: map<Hash, nat>, roots: seq<Hash>)
    requires id in m && ZeroesListed(indegrees0, roots0, done)
    requires forall v | v in indegrees0 :: indegrees0[v] == Emitted(Edges(m), others)[v] + multiset(m[id].children)[v]
    ensures indegrees.Keys == indegrees0.Keys && ZeroesListed(indegrees, roots, done)
    ensures forall v | v in indegrees :: indegrees[v] == Emitted(Edges(m), others)[v]
  {
    indegrees, roots := indegrees0, roots0;
    var kids := m[id].children;
    for n := 0 to |kids|
      invariant indegrees.Keys == indegrees0.Keys && ZeroesListed(indegrees, roots, done)
      invariant forall v | v in indegrees :: indegrees[v] == Emitted(Edges(m), others)[v] + multiset(kids[n..])[v]
    {
      assert kids[n..] == [kids[n]] + kids[n + 1..];
      if kids[n] in indegrees {
        var left := indegrees[kids[n]];
        indegrees := indegrees[kids[n] := if left == 0 then 0 else left - 1];
        if indegrees[kids[n]] == 0 {
          roots := roots + [kids[n]];
        }
      }
    }
  }

  /** Kahn's count over the visited receipts; repeated edges are counted and removed one by one. */
  method CountSorted(m: Index, visited: set<Hash>) returns (sorted: nat)
    requires visited <= m.Keys && ClosedUnder(Edges(m), visited)
    ensures sorted == |visited| <==> Acyclic(Edges(m), visited)
  {
    ghost var g := Edges(m);
    var indegrees := CountIndegrees(m, visited);
    var roots := InitialRoots(indegrees);
    sorted := 0;
    ghost var order: seq<Hash> := [];
    ghost var done: set<Hash> := {};
    assert visited - done == visited;
    while roots != []
      invariant done <= visited && (forall v :: v in done <==> v in order)
      invariant sorted == |done|
      invariant Counts(g, indegrees, visited, visited - done)
      invariant ZeroesListed(indegrees, roots, done)
      invariant ParentsFirst(g, visited, order)
      decreases visited - done
    {
      var id := roots[0];
      assert id in roots && indegrees[id] == 0;
      sorted := sorted + 1;
      AppendSource(g, visited, done, order, id);
      EmittedSplit(g, visited - done, id);
      assert visited - done - {id} == visited - (done + {id});
      order := order + [id];
      done := done + {id};
      indegrees, roots := Relax(m, indegrees, roots[1..], done, id, visited - done);
    }
    SortedAllOrCycle(g, visited, done, order, indegrees);
  }

  /** When no source is left, either every node was listed or the others hold a cycle. */
  lemma SortedAllOrCycle(g: Graph, visited: set<Hash>, done: set<Hash>, order: seq<Hash>, indegrees: map<Hash, nat>)
    requires ClosedUnder(g, visited) && ParentsFirst(g, visited, order) && (forall v :: v in done <==> v in order)
    requires done <= visited && Counts(g, indegrees, visited, visited - done) && ZeroesListed(indegrees, [], done)
    ensures |done| == |visited| <==> Acyclic(g, visited)
  {
    SubsetSize(done, visited);
    if done == visited {
      OrderedMeansAcyclic(g, visited, order);
    } else {
      var rest := visited - done;
      forall v | v in rest ensures HasParent(g, rest, v) {
        assert indegrees[v] != 0;
        EmittedHasSource(g, rest, v);
      }
      NoSourceMeansCycle(g, rest);
      var p :| |p| > 0 && p[0] in rest && IsCycle(g, p);
      assert p[0] in visited;
    }
  }

  /** A node that no unfinished node points at may be listed next. */
  lemma AppendSource(g: Graph, visited: set<Hash>, done: set<Hash>, order: seq<Hash>, id: Hash)
    requires ParentsFirst(g, visited, order) && (forall v :: v in done <==> v in order)
    requires Emitted(g, visited - done)[id] == 0
    ensures ParentsFirst(g, visited, order + [id])
  {
    EmittedHasSource(g, visited - done, id);
    var longer := order + [id];
    forall i, u | 0 <= i < |longer| && u in visited && longer[i] in Kids(g, u) ensures u in longer[..i] {
      assert longer[..i] == order[..i];
      if i < |order| {
        assert order[i] in Kids(g, u);
      } else {
        assert order[..i] == order;
        assert u in done || (u in visited - done && id in Kids(g, u));
      }
    }
  }

  method Search(m: Index, token: Hash, start: seq<Hash>) returns (r: Result<set<Hash>>)
    ensures r == Traverse(m, token, start, {})
  {
    var queue, visited := start, {};
    while queue != []
      invariant Traverse(m, token, queue, visited) == Traverse(m, token, start, {})
      decreases m.Keys - visited, |queue|
    {
      var id := queue[0];
      queue := queue[1..];
      if id in visited {
        continue;
      }
      if id !in m {
        return Err(IncompleteReceiptGraph);
      }
      if m[id].status.Failure? {
        return Err(ReachableReceiptFailure(m[id].status.error));
      }
      if id != token && m[id].status.StatusUnknown? {
        return Err(IncompleteReceiptGraph);
      }
      visited := visited + {id};
      queue := queue + m[id].children;
    }
    return Ok(visited);
  }

  function IndexOf(rs: seq<Outcome>): (m: Index) {
    if rs == [] then map[] else IndexOf(rs[..|rs| - 1])[rs[|rs| - 1].id := rs[|rs| - 1]]
  }

  lemma {:induction false} IndexOfIndexes(rs: seq<Outcome>)
    requires UniqueIds(rs)
    ensures Indexes(IndexOf(rs), rs)
  {
    if rs != [] {
      var init := rs[..|rs| - 1];
      IndexOfIndexes(init);
      forall i | 0 <= i < |rs| ensures rs[i].id in IndexOf(rs) && IndexOf(rs)[rs[i].id] == rs[i] {
        if i < |init| { assert init[i] == rs[i]; }
      }
    }
  }

  lemma OneIndex(m: Index, n: Index, rs: seq<Outcome>)
    requires Indexes(m, rs) && Indexes(n, rs)
    ensures m == n
  {
    forall k | k in m ensures k in n && n[k] == m[k] { assert m[k] in rs; }
    forall k | k in n ensures k in m { assert n[k] in rs; }
    assert m.Keys == n.Keys;
  }

  /** The direct children that ran on the asset contract, repetitions kept. */
  function TokenChildren(m: Index, kids: seq<Hash>, asset: Account): (r: seq<Hash>) {
    if kids == [] then []
    else
      var rest := TokenChildren(m, kids[..|kids| - 1], asset);
      var k := kids[|kids| - 1];
      if k in m && m[k].executor == asset then rest + [k] else rest
  }

  method CollectTokenChildren(m: Index, kids: seq<Hash>, asset: Account) returns (r: seq<Hash>)
    ensures r == TokenChildren(m, kids, asset)
  {
    r := [];
    for n := 0 to |kids|
      invariant r == TokenChildren(m, kids[..n], asset)
    {
      assert kids[..n + 1][..n] == kids[..n];
      if kids[n] in m && m[kids[n]].executor == asset {
        r := r + [kids[n]];
      }
    }
    assert kids[..|kids|] == kids;
  }

  ghost function TokenVerdict(m: Index, delegate: Hash, token: Hash): (r: Result<TransferReceipt>) {
    match Traverse(m, token, [delegate], {})
    case Err(e) => Err(e)
    case Ok(all) =>
      if !Acyclic(Edges(m), all) then Err(CyclicReceiptGraph)
      else if token !in m then Err(IncompleteReceiptGraph)
      else
        match m[token].status
        case SuccessValue(value) => Ok(TransferReceipt(token, value))
        case Failure(error) => Err(TokenReceiptFailure(error))
        case _ => Err(TokenReceiptNotSuccessful)
  }

  ghost function DelegateVerdict(m: Index, delegate: Hash, payer: Account, asset: Account)
    : (r: Result<TransferReceipt>)
  {
    if delegate !in m then Err(MissingDelegateReceipt)
    else
      var d := m[delegate];
      if d.executor != payer then Err(InvalidDelegateExecutor)
      else if d.status.Failure? then Err(DelegateFailure(d.status.error))
      else if d.status.StatusUnknown? then Err(IncompleteReceiptGraph)
      else if exists k | k in d.children :: k !in m then Err(IncompleteReceiptGraph)
      else
        var tokens := TokenChildren(m, d.children, asset);
        if |tokens| != 1 then Err(InvalidTokenReceiptCount) else TokenVerdict(m, delegate, tokens[0])
  }

  ghost function Verdict(o: FinalOutcome, payer: Account, asset: Account): (r: Result<TransferReceipt>) {
    match o.status
    case NotStarted => Err(NotStartedError)
    case Started => Err(Pending)
    case FinalFailed(error) => Err(FinalFailure(error))
    case FinalSuccess(_) =>
      if o.transaction.status.Failure? then Err(TransactionFailure(o.transaction.status.error))
      else if o.transaction.status.StatusUnknown? then Err(IncompleteReceiptGraph)
      else if |o.transaction.children| != 1 then Err(InvalidDelegateReceiptCount)
      else if !UniqueIds(o.receipts) then Err(DuplicateReceiptOutcome)
      else DelegateVerdict(IndexOf(o.receipts), o.transaction.children[0], payer, asset)
  }

  method InterpretFinalOutcome(o: FinalOutcome, payer: Account, asset: Account) returns (r: Result<TransferReceipt>)
    ensures r == Verdict(o, payer, asset)
  {
    match o.status {
      case NotStarted => return Err(NotStartedError);
      case Started => return Err(Pending);
      case FinalFailed(error) => return Err(FinalFailure(error));
      case FinalSuccess(_) =>
    }
    if o.transaction.status.Failure? {
      return Err(TransactionFailure(o.transaction.status.error));
    }
    if o.transaction.status.StatusUnknown? {
      return Err(IncompleteReceiptGraph);
    }
    if |o.transaction.children| != 1 {
      return Err(InvalidDelegateReceiptCount);
    }
    var indexed := ById(o.receipts);
    if indexed.Err? {
      return Err(indexed.error);
    }
    IndexOfIndexes(o.receipts);
    OneIndex(indexed.value, IndexOf(o.receipts), o.receipts);
    r := InterpretDelegate(indexed.value, o.transaction.children[0], payer, asset);
  }

  method InterpretDelegate(m: Index, delegate: Hash, payer: Account, asset: Account)
    returns (r: Result<TransferReceipt>)
    requires forall k | k in m :: m[k].id == k
    ensures r == DelegateVerdict(m, delegate, payer, asset)
  {
    if delegate !in m {
      return Err(MissingDelegateReceipt);
    }
    var d := m[delegate];
    if d.executor != payer {
      return Err(InvalidDelegateExecutor);
    }
    if d.status.Failure? {
      return Err(DelegateFailure(d.status.error));
    }
    if d.status.StatusUnknown? || exists k | k in d.children :: k !in m {
      return Err(IncompleteReceiptGraph);
    }
    var tokens := CollectTokenChildren(m, d.children, asset);
    if |tokens| != 1 {
      return Err(InvalidTokenReceiptCount);
    }
    TokenChildrenAre(m, d.children, asset);
    var token := tokens[0];
    assert token in tokens;
    var search := Search(m, token, [delegate]);
    if search.Err? {
      return Err(search.error);
    }
    ReachesSelf(Edges(m), delegate);
    TraverseMeaning(m, token, delegate, [delegate], {});
    var sorted := CountSorted(m, search.value);
    if sorted != |search.value| {
      return Err(CyclicReceiptGraph);
    }
    match m[token].status {
      case SuccessValue(value) => return Ok(TransferReceipt(token, value));
      case Failure(error) => return Err(TokenReceiptFailure(error));
      case _ => return Err(TokenReceiptNotSuccessful);
    }
  }

  lemma {:induction false} TokenChildrenAre(m: Index, kids: seq<Hash>, asset: Account)
    ensures forall v :: v in TokenChildren(m, kids, asset) <==> v in kids && v in m && m[v].executor == asset
  {
    if kids != [] {
      TokenChildrenAre(m, kids[..|kids| - 1], asset);
      assert kids == kids[..|kids| - 1] + [kids[|kids| - 1]];
    }
  }

  /** Position `i` is the only one whose child ran on the asset contract. */
  predicate OnlyTokenAt(m: Index, kids: seq<Hash>, asset: Account, i: nat) {
    && i < |kids| && kids[i] in m && m[kids[i]].executor == asset
    && forall j | 0 <= j < |kids| && j != i :: !(kids[j] in m && m[kids[j]].executor == asset)
  }

  lemma {:induction false} OneTokenChild(m: Index, kids: seq<Hash>, asset: Account)
    ensures |TokenChildren(m, kids, asset)| == 1 <==> exists i: nat :: OnlyTokenAt(m, kids, asset, i)
    ensures forall i: nat :: OnlyTokenAt(m, kids, asset, i) ==> TokenChildren(m, kids, asset) == [kids[i]]
  {
    if kids != [] {
      var init, k := kids[..|kids| - 1], kids[|kids| - 1];
      OneTokenChild(m, init, asset);
      TokenChildrenAre(m, init, asset);
      if k in m && m[k].executor == asset {
        if TokenChildren(m, init, asset) == [] {
          assert forall j | 0 <= j < |init| :: init[j] in init;
          assert OnlyTokenAt(m, kids, asset, |kids| - 1);
        } else {
          var v := TokenChildren(m, init, asset)[0];
          assert v in TokenChildren(m, init, asset);
          var j :| 0 <= j < |init| && init[j] == v;
          assert kids[j] == v;
        }
      } else {
        forall i: nat ensures OnlyTokenAt(m, init, asset, i) <==> OnlyTokenAt(m, kids, asset, i) {
          if OnlyTokenAt(m, init, asset, i) { assert kids[i] == init[i]; }
          if OnlyTokenAt(m, kids, asset, i) { assert i < |init|; }
        }
      }
    }
  }
}
