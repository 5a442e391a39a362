/** Finite multigraphs given by ordered child lists, with paths, cycles and edge counting. */
module Graphs {

  type Node = string

  /** Child lists may name absent nodes and may repeat a child. */
  type Graph = map<Node, seq<Node>>

  function Kids(g: Graph, v: Node): (r: seq<Node>) {
    if v in g then g[v] else []
  }

  predicate IsPath(g: Graph, p: seq<Node>) {
    |p| > 0 && forall i | 0 <= i < |p| - 1 :: p[i + 1] in Kids(g, p[i])
  }

  ghost predicate Reaches(g: Graph, a: Node, b: Node) {
    exists p :: IsPath(g, p) && p[0] == a && p[|p| - 1] == b
  }

  /** A path of at least one edge back to its start. */
  predicate IsCycle(g: Graph, p: seq<Node>) {
    IsPath(g, p) && |p| >= 2 && p[0] == p[|p| - 1]
  }

  /** No cycle passes through `s`. */
  ghost predicate Acyclic(g: Graph, s: set<Node>) {
    forall p: seq<Node> | |p| > 0 && p[0] in s :: !IsCycle(g, p)
  }

  predicate ClosedUnder(g: Graph, s: set<Node>) {
    forall v, w | v in s && w in Kids(g, v) :: w in s
  }

  lemma ReachesSelf(g: Graph, a: Node)
    ensures Reaches(g, a, a)
  {
    assert IsPath(g, [a]);
  }

  lemma ReachesStep(g: Graph, a: Node, b: Node, c: Node)
    requires Reaches(g, a, b) && c in Kids(g, b)
    ensures Reaches(g, a, c)
  {
    var p :| IsPath(g, p) && p[0] == a && p[|p| - 1] == b;
    var q := p + [c];
    assert IsPath(g, q) && q[0] == a && q[|q| - 1] == c;
  }

  /** A closed set contains everything its members reach. */
  lemma {:induction false} PathStaysInside(g: Graph, s: set<Node>, p: seq<Node>, i: nat)
    requires ClosedUnder(g, s) && IsPath(g, p) && p[0] in s && i < |p|
    ensures p[i] in s
  {
    if i > 0 {
      PathStaysInside(g, s, p, i - 1);
      assert p[i - 1 + 1] in Kids(g, p[i - 1]);
    }
  }

  /** All edges leaving a set, with multiplicity, by target. */
  ghost function Emitted(g: Graph, s: set<Node>): (r: multiset<Node>) {
    if s == {} then multiset{}
    else
      var v :| v in s;
      multiset(Kids(g, v)) + Emitted(g, s - {v})
  }

  lemma {:induction false} EmittedSplit(g: Graph, s: set<Node>, v: Node)
    requires v in s
    ensures Emitted(g, s) == multiset(Kids(g, v)) + Emitted(g, s - {v})
  {
    var w :| w in s && Emitted(g, s) == multiset(Kids(g, w)) + Emitted(g, s - {w});
    if w != v {
      EmittedSplit(g, s - {w}, v);
      EmittedSplit(g, s - {v}, w);
      assert s - {w} - {v} == s - {v} - {w};
    }
  }

  lemma {:induction false} EmittedHasSource(g: Graph, s: set<Node>, w: Node)
    ensures w in Emitted(g, s) <==> HasParent(g, s, w)
  {
    if s != {} {
      var v :| v in s && Emitted(g, s) == multiset(Kids(g, v)) + Emitted(g, s - {v});
      EmittedHasSource(g, s - {v}, w);
    }
  }

  lemma {:induction false} Pigeonhole(p: seq<Node>, s: set<Node>)
    requires forall i | 0 <= i < |p| :: p[i] in s
    requires |p| > |s|
    ensures exists i, j :: 0 <= i < j < |p| && p[i] == p[j]
  {
    var last := |p| - 1;
    if v :| 0 <= v < last && p[v] == p[last] {
    } else {
      var rest := p[..last];
      Pigeonhole(rest, s - {p[last]});
      var i, j :| 0 <= i < j < |rest| && rest[i] == rest[j];
      assert p[i] == p[j];
    }
  }

  ghost predicate HasParent(g: Graph, s: set<Node>, v: Node) {
    exists u :: u in s && v in Kids(g, u)
  }

  ghost predicate NoSource(g: Graph, s: set<Node>) {
    forall v {:trigger HasParent(g, s, v)} | v in s :: HasParent(g, s, v)
  }

  /** Where every node has a predecessor, one can walk backwards as long as one likes. */
  lemma {:induction false} BackwardPath(g: Graph, s: set<Node>, n: nat) returns (p: seq<Node>)
    requires s != {} && NoSource(g, s)
    ensures IsPath(g, p) && |p| == n + 1 && forall i | 0 <= i < |p| :: p[i] in s
  {
    if n == 0 {
      var v :| v in s;
      p := [v];
    } else {
      var q := BackwardPath(g, s, n - 1);
      assert HasParent(g, s, q[0]);
      var u :| u in s && q[0] in Kids(g, u);
      p := [u] + q;
      forall i | 0 <= i < |p| - 1 ensures p[i + 1] in Kids(g, p[i]) {
        if i > 0 { assert q[i - 1 + 1] in Kids(g, q[i - 1]); }
      }
    }
  }

  /** A nonempty finite set without a source contains a cycle. */
  lemma NoSourceMeansCycle(g: Graph, s: set<Node>)
    requires s != {} && NoSource(g, s)
    ensures exists p :: |p| > 0 && p[0] in s && IsCycle(g, p)
  {
    var p := BackwardPath(g, s, |s|);
    Pigeonhole(p, s);
    var i, j :| 0 <= i < j < |p| && p[i] == p[j];
    var c := p[i..j + 1];
    forall k | 0 <= k < |c| - 1 ensures c[k + 1] in Kids(g, c[k]) {
      assert p[i + k + 1] in Kids(g, p[i + k]);
    }
    assert IsCycle(g, c);
  }

  /** `order` lists nodes so that every node comes after all its parents in `s`. */
  predicate ParentsFirst(g: Graph, s: set<Node>, order: seq<Node>) {
    forall i, u | 0 <= i < |order| && u in s && order[i] in Kids(g, u) :: u in order[..i]
  }

  /** Along any path the earliest position in a parents-first order never goes back. */
  lemma {:induction false} OrderDecreasesBackwards(g: Graph, s: set<Node>, order: seq<Node>, p: seq<Node>, k: nat)
    requires ParentsFirst(g, s, order) && IsPath(g, p) && forall i | 0 <= i < |p| :: p[i] in s
    requires forall v | v in s :: v in order
    requires k < |order| && order[k] == p[|p| - 1]
    ensures exists j :: 0 <= j <= k - (|p| - 1) && order[j] == p[0]
    decreases |p|
  {
    if |p| > 1 {
      var q := p[..|p| - 1];
      var u := q[|q| - 1];
      assert p[|p| - 2 + 1] in Kids(g, p[|p| - 2]);
      assert u in order[..k];
      var m :| 0 <= m < k && order[m] == u;
      OrderDecreasesBackwards(g, s, order, q, m);
    }
  }

  /** A parents-first listing of a closed set rules out cycles. */
  lemma OrderedMeansAcyclic(g: Graph, s: set<Node>, order: seq<Node>)
    requires ClosedUnder(g, s) && ParentsFirst(g, s, order)
    requires forall v | v in s :: v in order
    ensures Acyclic(g, s)
  {
    forall p: seq<Node> | |p| > 0 && p[0] in s ensures !IsCycle(g, p) {
      if IsCycle(g, p) {
        forall i | 0 <= i < |p| ensures p[i] in s { PathStaysInside(g, s, p, i); }
        FirstPosition(g, s, order, p);
      }
    }
  }

  lemma FirstPosition(g: Graph, s: set<Node>, order: seq<Node>, p: seq<Node>)
    requires ParentsFirst(g, s, order) && IsCycle(g, p) && forall i | 0 <= i < |p| :: p[i] in s
    requires forall v | v in s :: v in order
    ensures false
  {
    var k :| 0 <= k < |order| && order[k] == p[0];
    Descend(g, s, order, p, k);
  }

  /** Going round a cycle would yield ever earlier positions of the same node. */
  lemma {:induction false} Descend(g: Graph, s: set<Node>, order: seq<Node>, p: seq<Node>, k: nat)
    requires ParentsFirst(g, s, order) && IsCycle(g, p) && forall i | 0 <= i < |p| :: p[i] in s
    requires forall v | v in s :: v in order
    requires k < |order| && order[k] == p[0]
    ensures false
    decreases k
  {
    OrderDecreasesBackwards(g, s, order, p, k);
    var j :| 0 <= j <= k - (|p| - 1) && order[j] == p[0];
    Descend(g, s, order, p, j);
  }

  lemma SubsetSize(a: set<Node>, b: set<Node>)
    requires a <= b
    ensures |a| <= |b| && (|a| == |b| <==> a == b)
  {
    assert b == a + (b - a);
  }
}
