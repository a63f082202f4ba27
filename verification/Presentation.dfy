// Post-order numbering of a statement's presentation arcs, over an arbitrary arc
// graph: shared children and cycles included.

module Presentation {
  import opened Basics

  type Node = string

  datatype Association = Association(kind: string, source: Option<Node>, target: Option<Node>, order: Option<real>)

  datatype Child = Child(order: real, node: Node)

  type Tree = map<Node, seq<Child>>

  // ---------------------------------------------------------------------
  // The children map
  // ---------------------------------------------------------------------

  predicate IsArc(a: Association) { a.kind == "presentation" && a.source.Some? && a.target.Some? }

  function ChildOf(a: Association): Child
    requires IsArc(a)
  {
    Child(if a.order.Some? then a.order.value else 0.0, a.target.value)
  }

  /** The arcs out of a node, in document order. */
  function ArcsFrom(arcs: seq<Association>, n: Node): seq<Child> {
    if arcs == [] then []
    else
      var a := arcs[|arcs| - 1];
      ArcsFrom(arcs[..|arcs| - 1], n) + if IsArc(a) && a.source.value == n then [ChildOf(a)] else []
  }

  function Sources(arcs: seq<Association>): set<Node> {
    set a | a in arcs && IsArc(a) :: a.source.value
  }

  function Targets(arcs: seq<Association>): set<Node> {
    set a | a in arcs && IsArc(a) :: a.target.value
  }

  function InsertChild(c: Child, s: seq<Child>): seq<Child> {
    if s == [] || c.order <= s[0].order then [c] + s else [s[0]] + InsertChild(c, s[1..])
  }

  /** `kids.sort(key=lambda t: t[0])`. */
  function SortChildren(s: seq<Child>): seq<Child> {
    if s == [] then [] else InsertChild(s[0], SortChildren(s[1..]))
  }

  predicate InArcOrder(s: seq<Child>) {
    forall i, j :: 0 <= i < j < |s| ==> s[i].order <= s[j].order
  }

  lemma {:induction false} InsertChildSorted(c: Child, s: seq<Child>)
    requires InArcOrder(s)
    ensures InArcOrder(InsertChild(c, s))
    ensures forall x :: x in InsertChild(c, s) <==> x == c || x in s
  {
    if s != [] && c.order > s[0].order {
      InsertChildSorted(c, s[1..]);
      var r := InsertChild(c, s[1..]);
      assert forall j :: 0 <= j < |r| ==> r[j] in r;
      assert s == [s[0]] + s[1..];
    }
  }

  lemma {:induction false} SortChildrenSorted(s: seq<Child>)
    ensures InArcOrder(SortChildren(s))
    ensures forall x :: x in SortChildren(s) <==> x in s
  {
    if s != [] {
      SortChildrenSorted(s[1..]);
      InsertChildSorted(s[0], SortChildren(s[1..]));
      assert s == [s[0]] + s[1..];
    }
  }

  /** The children at one order, in list order. */
  function AtOrder(o: real, s: seq<Child>): seq<Child> {
    if s == [] then []
    else (if s[0].order == o then [s[0]] else []) + AtOrder(o, s[1..])
  }

  lemma {:induction false} InsertChildStable(c: Child, s: seq<Child>, o: real)
    requires InArcOrder(s)
    ensures AtOrder(o, InsertChild(c, s)) == AtOrder(o, [c]) + AtOrder(o, s)
  {
    if s != [] && c.order > s[0].order {
      InsertChildStable(c, s[1..], o);
      assert ([s[0]] + InsertChild(c, s[1..]))[1..] == InsertChild(c, s[1..]);
      assert [c][1..] == [];
    } else {
      assert ([c] + s)[1..] == s;
      assert [c][1..] == [];
    }
  }

  /** Children of equal order stay in document order, each as often as it occurs. */
  lemma {:induction false} SortChildrenStable(s: seq<Child>, o: real)
    ensures AtOrder(o, SortChildren(s)) == AtOrder(o, s)
  {
    if s != [] {
      SortChildrenStable(s[1..], o);
      var rest := SortChildren(s[1..]);
      assert SortChildren(s) == InsertChild(s[0], rest);
      SortChildrenSorted(s[1..]);
      hide SortChildren, InsertChild, InArcOrder;
      InsertChildStable(s[0], rest, o);
      assert [s[0]][1..] == [];
      assert AtOrder(o, [s[0]]) == (if s[0].order == o then [s[0]] else []) + AtOrder(o, []);
    }
  }

  /** Each source node with its children in arc order. */
  function TreeOf(arcs: seq<Association>): Tree {
    map n | n in Sources(arcs) :: SortChildren(ArcsFrom(arcs, n))
  }

  lemma SourcesSnoc(arcs: seq<Association>, i: nat)
    requires i < |arcs|
    ensures var a := arcs[i];
            && Sources(arcs[..i + 1]) == Sources(arcs[..i]) + (if IsArc(a) then {a.source.value} else {})
            && Targets(arcs[..i + 1]) == Targets(arcs[..i]) + (if IsArc(a) then {a.target.value} else {})
    ensures forall n :: ArcsFrom(arcs[..i + 1], n) ==
                        ArcsFrom(arcs[..i], n)
                        + if IsArc(arcs[i]) && arcs[i].source.value == n then [ChildOf(arcs[i])] else []
  {
    assert arcs[..i + 1] == arcs[..i] + [arcs[i]];
    assert arcs[..i + 1][..i] == arcs[..i];
  }

  lemma {:induction false} NoSourceNoArcs(arcs: seq<Association>, n: Node)
    requires n !in Sources(arcs)
    ensures ArcsFrom(arcs, n) == []
  {
    if arcs != [] {
      var k := |arcs| - 1;
      assert arcs[..k + 1] == arcs;
      SourcesSnoc(arcs, k);
      NoSourceNoArcs(arcs[..k], n);
    }
  }

  method CollectArcs(arcs: seq<Association>) returns (children: Tree, froms: set<Node>, tos: set<Node>)
    ensures froms == Sources(arcs) && tos == Targets(arcs) && children.Keys == froms
    ensures forall n :: n in children ==> children[n] == ArcsFrom(arcs, n)
  {
    children, froms, tos := map[], {}, {};
    for i := 0 to |arcs|
      invariant froms == Sources(arcs[..i]) && tos == Targets(arcs[..i])
      invariant children.Keys == froms
      invariant forall n :: n in children ==> children[n] == ArcsFrom(arcs[..i], n)
    {
      SourcesSnoc(arcs, i);
      var a := arcs[i];
      if a.kind == "presentation" && a.source.Some? && a.target.Some? {
        var n := a.source.value;
        if n !in froms {
          NoSourceNoArcs(arcs[..i], n);
        }
        children := children[n := (if n in children then children[n] else []) + [ChildOf(a)]];
        froms := froms + {n};
        tos := tos + {a.target.value};
      }
    }
    assert arcs[..|arcs|] == arcs;
  }

  method BuildTree(arcs: seq<Association>) returns (tree: Tree, froms: set<Node>, tos: set<Node>)
    ensures tree == TreeOf(arcs) && froms == Sources(arcs) && tos == Targets(arcs)
  {
    var children;
    children, froms, tos := CollectArcs(arcs);
    tree := children;
    var rest := children.Keys;
    while rest != {}
      invariant rest <= children.Keys && tree.Keys == children.Keys
      invariant forall n :: n in rest ==> tree[n] == children[n]
      invariant forall n :: n in children && n !in rest ==> tree[n] == SortChildren(children[n])
      decreases rest
    {
      var n :| n in rest;
      tree := tree[n := SortChildren(tree[n])];
      rest := rest - {n};
    }
  }

  // ---------------------------------------------------------------------
  // Edges and paths
  // ---------------------------------------------------------------------

  function Kids(tree: Tree, n: Node): seq<Child> { if n in tree then tree[n] else [] }

  ghost predicate Edge(tree: Tree, u: Node, c: Node) {
    exists i :: 0 <= i < |Kids(tree, u)| && Kids(tree, u)[i].node == c
  }

  ghost predicate IsPath(tree: Tree, p: seq<Node>) {
    p != [] && forall i :: 0 <= i < |p| - 1 ==> Edge(tree, p[i], p[i + 1])
  }

  ghost predicate PathBetween(tree: Tree, p: seq<Node>, a: Node, b: Node) {
    IsPath(tree, p) && p[0] == a && p[|p| - 1] == b
  }

  ghost predicate Reaches(tree: Tree, a: Node, b: Node) {
    exists p :: PathBetween(tree, p, a, b)
  }

  ghost predicate Acyclic(tree: Tree) {
    forall a, b :: Edge(tree, a, b) ==> !Reaches(tree, b, a)
  }

  /** No node is the child of two arcs, and none is below itself. */
  ghost predicate IsForest(tree: Tree) {
    && Acyclic(tree)
    && forall u, i, v, j ::
         (0 <= i < |Kids(tree, u)| && 0 <= j < |Kids(tree, v)| && Kids(tree, u)[i].node == Kids(tree, v)[j].node) ==>
         u == v && i == j
  }

  lemma ReachesSelf(tree: Tree, a: Node)
    ensures Reaches(tree, a, a)
  {
    assert PathBetween(tree, [a], a, a);
  }

  lemma ReachesStep(tree: Tree, a: Node, b: Node, c: Node)
    requires Reaches(tree, a, b) && Edge(tree, b, c)
    ensures Reaches(tree, a, c)
  {
    var p :| PathBetween(tree, p, a, b);
    assert PathBetween(tree, p + [c], a, c);
  }

  lemma ReachesFrom(tree: Tree, a: Node, b: Node, c: Node)
    requires Edge(tree, a, b) && Reaches(tree, b, c)
    ensures Reaches(tree, a, c)
  {
    var p :| PathBetween(tree, p, b, c);
    var q := [a] + p;
    forall i | 0 <= i < |q| - 1
      ensures Edge(tree, q[i], q[i + 1])
    {
      if i > 0 {
        assert Edge(tree, p[i - 1], p[i]);
      }
    }
    assert PathBetween(tree, q, a, c);
  }

  /** A path that moves at all arrives over some edge. */
  lemma ReachesLast(tree: Tree, a: Node, b: Node) returns (u: Node)
    requires Reaches(tree, a, b) && a != b
    ensures Reaches(tree, a, u) && Edge(tree, u, b)
  {
    var p :| PathBetween(tree, p, a, b);
    var q := p[..|p| - 1];
    u := q[|q| - 1];
    assert PathBetween(tree, q, a, u);
  }

  /** The edges of the tree are the presentation arcs. */
  lemma {:induction false} EdgesAreArcs(arcs: seq<Association>, u: Node, c: Node)
    ensures Edge(TreeOf(arcs), u, c) <==>
            exists a :: a in arcs && IsArc(a) && a.source.value == u && a.target.value == c
  {
    var tree := TreeOf(arcs);
    SortChildrenSorted(ArcsFrom(arcs, u));
    if Edge(tree, u, c) {
      var i :| 0 <= i < |Kids(tree, u)| && Kids(tree, u)[i].node == c;
      assert Kids(tree, u)[i] in ArcsFrom(arcs, u);
      var a := ArcOfChild(arcs, u, Kids(tree, u)[i]);
    }
    if a :| a in arcs && IsArc(a) && a.source.value == u && a.target.value == c {
      ChildOfArc(arcs, a);
      assert u in tree && ChildOf(a) in tree[u];
      var i :| 0 <= i < |tree[u]| && tree[u][i] == ChildOf(a);
      assert Kids(tree, u)[i].node == c;
    }
  }

  lemma {:induction false} ArcOfChild(arcs: seq<Association>, u: Node, k: Child) returns (a: Association)
    requires k in ArcsFrom(arcs, u)
    ensures a in arcs && IsArc(a) && a.source.value == u && ChildOf(a) == k
  {
    a := arcs[|arcs| - 1];
    if !(IsArc(a) && a.source.value == u && ChildOf(a) == k) {
      a := ArcOfChild(arcs[..|arcs| - 1], u, k);
    }
  }

  lemma {:induction false} ChildOfArc(arcs: seq<Association>, a: Association)
    requires a in arcs && IsArc(a)
    ensures ChildOf(a) in ArcsFrom(arcs, a.source.value)
  {
    var last := |arcs| - 1;
    if arcs[last] != a {
      assert arcs == arcs[..last] + [arcs[last]];
      ChildOfArc(arcs[..last], a);
    }
  }

  // ---------------------------------------------------------------------
  // The walk
  // ---------------------------------------------------------------------

  type Numbering = map<Node, (nat, nat)>

  /** `order` lists the numbered nodes by number. */
  ghost predicate Numbers(out: Numbering, order: seq<Node>) {
    && (forall k :: 0 <= k < |order| ==> order[k] in out && out[order[k]].0 == k)
    && (forall n :: n in out ==> out[n].0 < |order| && order[out[n].0] == n)
  }

  /** A child comes before its parent unless it lies above it as well, on a cycle. */
  ghost predicate ComesAfterChild(tree: Tree, out: Numbering, u: Node, c: Node)
    requires u in out
  {
    (c in out && out[c].0 < out[u].0) || Reaches(tree, c, u)
  }

  predicate Precedes(out: Numbering, a: Node, b: Node) {
    a in out && b in out && out[a].0 < out[b].0
  }

  ghost predicate SiblingsInOrder(tree: Tree, out: Numbering, u: Node) {
    forall i, j {:trigger Kids(tree, u)[i], Kids(tree, u)[j]} :: 0 <= i < j < |Kids(tree, u)| ==>
      Precedes(out, Kids(tree, u)[i].node, Kids(tree, u)[j].node)
  }

  ghost predicate AtDepth(tree: Tree, roots: set<Node>, n: Node, depth: nat) {
    exists p :: IsPath(tree, p) && p[0] in roots && p[|p| - 1] == n && |p| == depth + 1
  }

  /** The state between two steps of the walk: `stack` is the path from a root to the
      node being visited, and what is seen but not on it has been numbered. */
  ghost predicate WalkInvariant(tree: Tree, roots: set<Node>, seen: set<Node>, out: Numbering,
                                order: seq<Node>, stack: seq<Node>)
  {
    && out.Keys + (set n | n in stack) == seen && out.Keys !! (set n | n in stack)
    && Numbers(out, order)
    && (stack != [] ==> IsPath(tree, stack) && stack[0] in roots)
    && (forall u, c :: u in out && Edge(tree, u, c) ==> c in seen && ComesAfterChild(tree, out, u, c))
    && (forall n :: n in out ==> AtDepth(tree, roots, n, out[n].1))
    && (forall n :: n in seen && n !in roots ==> exists u :: u in seen && Edge(tree, u, n))
    && (IsForest(tree) ==> forall u :: u in out ==> SiblingsInOrder(tree, out, u))
  }

  lemma StackReachesTop(tree: Tree, stack: seq<Node>, c: Node)
    requires stack != [] && IsPath(tree, stack) && c in stack
    ensures Reaches(tree, c, stack[|stack| - 1])
  {
    var i :| 0 <= i < |stack| && stack[i] == c;
    assert PathBetween(tree, stack[i..], c, stack[|stack| - 1]);
  }

  lemma NumberTopEdge(tree: Tree, seen: set<Node>, out: Numbering, order: seq<Node>, stack: seq<Node>, node: Node,
                      u: Node, c: Node)
    requires out.Keys + (set n | n in stack + [node]) == seen && IsPath(tree, stack + [node])
    requires Numbers(out, order) && node !in out
    requires forall i :: 0 <= i < |Kids(tree, node)| ==> Kids(tree, node)[i].node in seen
    requires u in out && Edge(tree, u, c) ==> c in seen && ComesAfterChild(tree, out, u, c)
    requires (u in out || u == node) && Edge(tree, u, c)
    ensures c in seen && ComesAfterChild(tree, out[node := (|order|, |stack|)], u, c)
  {
    if u == node && c !in out {
      assert c in stack + [node];
      StackReachesTop(tree, stack + [node], c);
    }
  }

  lemma SiblingsKept(tree: Tree, out: Numbering, node: Node, number: (nat, nat), u: Node)
    requires node !in out && SiblingsInOrder(tree, out, u)
    ensures SiblingsInOrder(tree, out[node := number], u)
  {
    hide Kids;
    var out' := out[node := number];
    forall i, j | 0 <= i < j < |Kids(tree, u)|
      ensures Precedes(out', Kids(tree, u)[i].node, Kids(tree, u)[j].node)
    {
      assert Precedes(out, Kids(tree, u)[i].node, Kids(tree, u)[j].node);
    }
  }

  lemma TopSet(stack: seq<Node>, node: Node)
    ensures (set n | n in stack + [node]) == (set n | n in stack) + {node}
  {
  }

  lemma PopPath(tree: Tree, stack: seq<Node>, node: Node)
    requires IsPath(tree, stack + [node]) && stack != []
    ensures IsPath(tree, stack) && stack[0] == (stack + [node])[0]
  {
    var full := stack + [node];
    forall i | 0 <= i < |stack| - 1
      ensures Edge(tree, stack[i], stack[i + 1])
    {
      assert Edge(tree, full[i], full[i + 1]);
    }
  }

  /** Numbering the top of the stack once all its children have been walked. */
  lemma NumberTop(tree: Tree, roots: set<Node>, seen: set<Node>, out: Numbering, order: seq<Node>,
                  stack: seq<Node>, node: Node)
    requires WalkInvariant(tree, roots, seen, out, order, stack + [node]) && node !in stack
    requires forall i :: 0 <= i < |Kids(tree, node)| ==> Kids(tree, node)[i].node in seen
    requires IsForest(tree) ==> SiblingsInOrder(tree, out, node)
    ensures WalkInvariant(tree, roots, seen, out[node := (|order|, |stack|)], order + [node], stack)
  {
    hide IsForest, IsPath, Edge, Reaches;
    var out' := out[node := (|order|, |stack|)];
    TopSet(stack, node);
    assert node !in out && node in (set n | n in stack + [node]);
    forall u, c | u in out' && Edge(tree, u, c)
      ensures c in seen && ComesAfterChild(tree, out', u, c)
    {
      NumberTopEdge(tree, seen, out, order, stack, node, u, c);
    }
    assert AtDepth(tree, roots, node, |stack|) by {
      var p := stack + [node];
      assert IsPath(tree, p) && p[0] in roots && p[|p| - 1] == node && |p| == |stack| + 1;
    }
    if IsForest(tree) {
      forall u | u in out'
        ensures SiblingsInOrder(tree, out', u)
      {
        SiblingsKept(tree, out, node, (|order|, |stack|), u);
      }
    }
    if stack != [] {
      PopPath(tree, stack, node);
    }
  }

  lemma UniqueParent(tree: Tree, u: Node, v: Node, c: Node)
    requires IsForest(tree) && Edge(tree, u, c) && Edge(tree, v, c)
    ensures u == v
  {
  }

  /** In a forest a child is unseen until the walk comes to its own arc. */
  lemma ForestChildUnseen(tree: Tree, roots: set<Node>, seen: set<Node>, node: Node, i: nat)
    requires IsForest(tree) && i < |Kids(tree, node)| && node !in seen
    requires forall n :: n in seen && n !in roots ==> exists u :: u in seen && Edge(tree, u, n)
    requires forall r :: r in roots ==> forall u :: !Edge(tree, u, r)
    ensures Kids(tree, node)[i].node !in seen + {node}
  {
    var c := Kids(tree, node)[i].node;
    assert Edge(tree, node, c);
    forall u | Edge(tree, u, c)
      ensures u == node
    {
      UniqueParent(tree, u, node, c);
    }
    ReachesSelf(tree, node);
  }

  lemma ReachesParent(tree: Tree, a: Node, node: Node, b: Node)
    requires IsForest(tree) && a != b && Reaches(tree, a, b) && Edge(tree, node, b)
    ensures Reaches(tree, a, node)
  {
    var u := ReachesLast(tree, a, b);
    UniqueParent(tree, u, node, b);
  }

  lemma ForestSiblingApart(tree: Tree, node: Node, i: nat, j: nat)
    requires IsForest(tree) && i < |Kids(tree, node)| && j < |Kids(tree, node)| && i != j
    ensures !Reaches(tree, Kids(tree, node)[i].node, Kids(tree, node)[j].node)
  {
    var a := Kids(tree, node)[i].node;
    var b := Kids(tree, node)[j].node;
    assert Edge(tree, node, a) && Edge(tree, node, b);
    if Reaches(tree, a, b) {
      ReachesParent(tree, a, node, b);
    }
  }

  /** What a walk of `node` adds to the state: only nodes below it, numbered after
      those numbered before. */
  ghost predicate Grown(tree: Tree, node: Node, seen: set<Node>, out: Numbering, order: seq<Node>,
                        seen': set<Node>, out': Numbering, order': seq<Node>)
  {
    && seen + {node} <= seen'
    && (forall n :: n in seen' && n !in seen ==> Reaches(tree, node, n))
    && (forall n :: n in out ==> n in out' && out'[n] == out[n])
    && order <= order'
  }

  /** The first i children of `node` have been walked. */
  ghost predicate KidsWalked(tree: Tree, node: Node, i: nat, seen: set<Node>, out: Numbering)
    requires i <= |Kids(tree, node)|
  {
    var kids := Kids(tree, node);
    && (forall j :: 0 <= j < i ==> kids[j].node in seen)
    && (IsForest(tree) ==>
          && (forall j :: i <= j < |kids| ==> kids[j].node !in seen)
          && (forall j :: 0 <= j < i ==> kids[j].node in out)
          && (forall j, k :: 0 <= j < k < i ==> out[kids[j].node].0 < out[kids[k].node].0))
  }

  lemma NoKidsWalked(tree: Tree, roots: set<Node>, seen: set<Node>, out: Numbering, node: Node)
    requires node !in seen
    requires forall n :: n in seen && n !in roots ==> exists u :: u in seen && Edge(tree, u, n)
    requires forall r :: r in roots ==> forall u :: !Edge(tree, u, r)
    ensures KidsWalked(tree, node, 0, seen + {node}, out)
  {
    if IsForest(tree) {
      forall j | 0 <= j < |Kids(tree, node)|
        ensures Kids(tree, node)[j].node !in seen + {node}
      {
        ForestChildUnseen(tree, roots, seen, node, j);
      }
    }
  }

  lemma KidWalked(tree: Tree, node: Node, i: nat, seen: set<Node>, out: Numbering, order: seq<Node>,
                  seen': set<Node>, out': Numbering, order': seq<Node>)
    requires i < |Kids(tree, node)| && KidsWalked(tree, node, i, seen, out)
    requires Numbers(out, order)
    requires var c := Kids(tree, node)[i].node;
             && Grown(tree, c, seen, out, order, seen', out', order')
             && (c !in seen ==> c in out' && out'[c].0 == |order'| - 1 && |order'| > |order|)
    ensures KidsWalked(tree, node, i + 1, seen', out')
  {
    var kids := Kids(tree, node);
    if IsForest(tree) {
      forall j | i < j < |kids|
        ensures kids[j].node !in seen'
      {
        ForestSiblingApart(tree, node, i, j);
      }
      forall j | 0 <= j < i
        ensures out'[kids[j].node] == out[kids[j].node] && out[kids[j].node].0 < |order|
      {
      }
    }
  }

  lemma NothingGrows(tree: Tree, node: Node, seen: set<Node>, out: Numbering, order: seq<Node>)
    requires node in seen
    ensures Grown(tree, node, seen, out, order, seen, out, order)
  {
  }

  lemma KidGrows(tree: Tree, node: Node, c: Node, seen0: set<Node>, out0: Numbering, order0: seq<Node>,
                 seen: set<Node>, out: Numbering, order: seq<Node>,
                 seen': set<Node>, out': Numbering, order': seq<Node>)
    requires Edge(tree, node, c)
    requires Grown(tree, node, seen0, out0, order0, seen, out, order)
    requires Grown(tree, c, seen, out, order, seen', out', order')
    ensures Grown(tree, node, seen0, out0, order0, seen', out', order')
  {
    forall n | n in seen' && n !in seen0
      ensures Reaches(tree, node, n)
    {
      if n !in seen {
        ReachesFrom(tree, node, c, n);
      }
    }
  }

  class Walker {
    const tree: Tree
    ghost const roots: set<Node>
    ghost const universe: set<Node>
    var seen: set<Node>
    var out: Numbering
    var counter: nat
    ghost var order: seq<Node>

    constructor (tree: Tree, ghost roots: set<Node>, ghost universe: set<Node>)
      ensures this.tree == tree && this.roots == roots && this.universe == universe
      ensures seen == {} && out == map[] && counter == 0 && order == []
    {
      this.tree, this.roots, this.universe := tree, roots, universe;
      seen, out, counter, order := {}, map[], 0, [];
    }

    /** The universe is closed under children, and no root is a child. */
    ghost predicate Rooted() {
      && (forall u, c :: u in universe && Edge(tree, u, c) ==> c in universe)
      && (forall r :: r in roots ==> forall u :: !Edge(tree, u, r))
    }

    ghost predicate Valid(stack: seq<Node>)
      reads this
    {
      && WalkInvariant(tree, roots, seen, out, order, stack) && counter == |order|
      && seen <= universe
    }

    method Walk(node: Node, depth: nat, ghost stack: seq<Node>)
      requires Rooted() && Valid(stack) && depth == |stack| && node in universe
      requires if stack == [] then node in roots else Edge(tree, stack[|stack| - 1], node)
      modifies this
      ensures Valid(stack)
      ensures Grown(tree, node, old(seen), old(out), old(order), seen, out, order)
      ensures node in old(seen) ==> seen == old(seen) && out == old(out) && order == old(order)
      ensures node !in old(seen) ==> node in out && out[node] == (|order| - 1, depth) && |order| > |old(order)|
      decreases universe - seen, 0
    {
      hide WalkInvariant, Grown, KidsWalked;
      if node !in seen {
        EnterNode(tree, roots, seen, out, order, stack, node);
        seen := seen + {node};
        WalkKids(node, depth, stack);
        var numbered := out[node := (counter, depth)];
        LeaveNode(tree, roots, old(seen), old(out), old(order), seen, out, order, stack, node, numbered);
        out, order, counter := numbered, order + [node], counter + 1;
      } else {
        NothingGrows(tree, node, seen, out, order);
      }
    }

    // The loop of `walk` over a node's children.
    method WalkKids(node: Node, depth: nat, ghost stack: seq<Node>)
      requires Rooted() && Valid(stack + [node]) && depth == |stack| && node in universe
      requires node in seen && KidsWalked(tree, node, 0, seen, out)
      modifies this
      ensures Valid(stack + [node]) && KidsWalked(tree, node, |Kids(tree, node)|, seen, out)
      ensures Grown(tree, node, old(seen), old(out), old(order), seen, out, order)
      decreases universe - seen, 1
    {
      ghost var full := stack + [node];
      var kids := Kids(tree, node);
      ReachesSelf(tree, node);
      for i := 0 to |kids|
        invariant Valid(full) && KidsWalked(tree, node, i, seen, out)
        invariant Grown(tree, node, old(seen), old(out), old(order), seen, out, order)
      {
        var c := kids[i].node;
        assert Edge(tree, node, c);
        ghost var seen1, out1, order1 := seen, out, order;
        Walk(c, depth + 1, full);
        KidWalked(tree, node, i, seen1, out1, order1, seen, out, order);
        KidGrows(tree, node, c, old(seen), old(out), old(order), seen1, out1, order1, seen, out, order);
      }
    }
  }

  lemma EnterNode(tree: Tree, roots: set<Node>, seen: set<Node>, out: Numbering, order: seq<Node>,
                  stack: seq<Node>, node: Node)
    requires WalkInvariant(tree, roots, seen, out, order, stack) && node !in seen
    requires if stack == [] then node in roots else Edge(tree, stack[|stack| - 1], node)
    requires forall r :: r in roots ==> forall u :: !Edge(tree, u, r)
    ensures WalkInvariant(tree, roots, seen + {node}, out, order, stack + [node])
    ensures KidsWalked(tree, node, 0, seen + {node}, out)
    ensures node !in stack
  {
    PushKeepsInvariant(tree, roots, seen, out, order, stack, node);
    NoKidsWalked(tree, roots, seen, out, node);
    assert node in stack ==> node in (set n | n in stack);
  }

  lemma LeaveNode(tree: Tree, roots: set<Node>, seen0: set<Node>, out0: Numbering, order0: seq<Node>,
                  seen: set<Node>, out: Numbering, order: seq<Node>, stack: seq<Node>, node: Node,
                  out': Numbering)
    requires WalkInvariant(tree, roots, seen, out, order, stack + [node]) && node !in stack
    requires out' == out[node := (|order|, |stack|)]
    requires KidsWalked(tree, node, |Kids(tree, node)|, seen, out)
    requires Grown(tree, node, seen0 + {node}, out0, order0, seen, out, order)
    ensures WalkInvariant(tree, roots, seen, out', order + [node], stack)
    ensures Grown(tree, node, seen0, out0, order0, seen, out', order + [node])
    ensures |order0| <= |order|
  {
    ReachesSelf(tree, node);
    assert node in stack + [node];
    NumberTop(tree, roots, seen, out, order, stack, node);
  }

  lemma PushKeepsInvariant(tree: Tree, roots: set<Node>, seen: set<Node>, out: Numbering, order: seq<Node>,
                           stack: seq<Node>, node: Node)
    requires WalkInvariant(tree, roots, seen, out, order, stack) && node !in seen
    requires if stack == [] then node in roots else Edge(tree, stack[|stack| - 1], node)
    ensures WalkInvariant(tree, roots, seen + {node}, out, order, stack + [node])
  {
  }

  // ---------------------------------------------------------------------
  // The whole numbering
  // ---------------------------------------------------------------------

  function Roots(arcs: seq<Association>): set<Node> { Sources(arcs) - Targets(arcs) }

  function RootKey(tree: Tree, root: Node): real {
    var kids := Kids(tree, root);
    if kids != [] then kids[0].order else 0.0
  }

  lemma {:induction false} LeastRoot(tree: Tree, rest: set<Node>) returns (r: Node)
    requires rest != {}
    ensures r in rest && forall x :: x in rest ==> RootKey(tree, r) <= RootKey(tree, x)
    decreases rest
  {
    var r0 :| r0 in rest;
    r := r0;
    if rest == {r0} {
      return;
    }
    assert rest - {r0} != {} by {
      assert rest - {r0} == {} ==> rest == {r0};
    }
    var s := LeastRoot(tree, rest - {r0});
    if RootKey(tree, s) < RootKey(tree, r0) {
      r := s;
    }
    assert forall x :: x in rest ==> x == r0 || x in rest - {r0};
  }

  lemma RootsHaveNoParent(arcs: seq<Association>, r: Node, u: Node)
    requires r in Roots(arcs)
    ensures !Edge(TreeOf(arcs), u, r)
  {
    EdgesAreArcs(arcs, u, r);
  }

  lemma NodesClosed(arcs: seq<Association>, u: Node, c: Node)
    requires Edge(TreeOf(arcs), u, c)
    ensures u in Sources(arcs) && c in Targets(arcs)
  {
    EdgesAreArcs(arcs, u, c);
  }

  ghost predicate ReachedFromRoot(arcs: seq<Association>, n: Node) {
    exists r :: r in Roots(arcs) && Reaches(TreeOf(arcs), r, n)
  }

  /** Roots are numbered in the order of their leading arc. */
  ghost predicate RootsInOrder(tree: Tree, roots: set<Node>, out: Numbering) {
    && (forall r :: r in roots ==> r in out)
    && (forall r, s :: r in roots && s in roots && RootKey(tree, r) < RootKey(tree, s) ==> out[r].0 < out[s].0)
  }

  /** The next root has been walked: it is numbered after the roots before it, and
      the roots still to come are untouched. */
  lemma RootWalked(arcs: seq<Association>, root: Node, rest: set<Node>, done: set<Node>,
                   seen: set<Node>, out: Numbering, order: seq<Node>,
                   seen': set<Node>, out': Numbering, order': seq<Node>)
    requires root in rest && rest <= Roots(arcs) && done == Roots(arcs) - rest && rest !! seen
    requires RootsInOrder(TreeOf(arcs), done, out) && Numbers(out, order)
    requires forall r, s :: r in done && s in rest ==> RootKey(TreeOf(arcs), r) <= RootKey(TreeOf(arcs), s)
    requires forall x :: x in rest ==> RootKey(TreeOf(arcs), root) <= RootKey(TreeOf(arcs), x)
    requires forall n :: n in seen ==> ReachedFromRoot(arcs, n)
    requires Grown(TreeOf(arcs), root, seen, out, order, seen', out', order')
    requires root in out' && out'[root].0 == |order'| - 1 && |order'| > |order|
    ensures (rest - {root}) !! seen' && done + {root} == Roots(arcs) - (rest - {root})
    ensures RootsInOrder(TreeOf(arcs), done + {root}, out')
    ensures forall n :: n in seen' ==> ReachedFromRoot(arcs, n)
  {
    hide TreeOf, Reaches, RootKey;
    var tree := TreeOf(arcs);
    forall n | n in seen'
      ensures ReachedFromRoot(arcs, n)
    {
      if n !in seen {
        assert Reaches(tree, root, n);
      }
    }
    forall s | s in rest - {root}
      ensures s !in seen'
    {
      NoWayToRoot(arcs, root, s);
    }
  }

  lemma NoWayToRoot(arcs: seq<Association>, a: Node, r: Node)
    requires r in Roots(arcs) && a != r
    ensures !Reaches(TreeOf(arcs), a, r)
  {
    if Reaches(TreeOf(arcs), a, r) {
      var u := ReachesLast(TreeOf(arcs), a, r);
      RootsHaveNoParent(arcs, r, u);
    }
  }

  lemma ReachedAreNumbered(arcs: seq<Association>, out: Numbering, n: Node)
    requires Roots(arcs) <= out.Keys && ReachedFromRoot(arcs, n)
    requires forall u, c :: u in out && Edge(TreeOf(arcs), u, c) ==> c in out
    ensures n in out
  {
    var r :| r in Roots(arcs) && Reaches(TreeOf(arcs), r, n);
    var p :| PathBetween(TreeOf(arcs), p, r, n);
    ClosedUnderPath(TreeOf(arcs), out, p);
  }

  lemma WalkFinished(arcs: seq<Association>, seen: set<Node>, out: Numbering, order: seq<Node>)
    requires WalkInvariant(TreeOf(arcs), Roots(arcs), seen, out, order, [])
    requires Roots(arcs) <= out.Keys
    requires forall n :: n in seen ==> ReachedFromRoot(arcs, n)
    ensures Numbers(out, order)
    ensures forall n :: n in out <==> ReachedFromRoot(arcs, n)
    ensures forall u, c :: u in out && Edge(TreeOf(arcs), u, c) ==>
              c in out && ComesAfterChild(TreeOf(arcs), out, u, c)
    ensures forall n :: n in out ==> AtDepth(TreeOf(arcs), Roots(arcs), n, out[n].1)
    ensures IsForest(TreeOf(arcs)) ==> forall u :: u in out ==> SiblingsInOrder(TreeOf(arcs), out, u)
  {
    hide TreeOf, IsForest, SiblingsInOrder, AtDepth, ReachedFromRoot, Reaches, Edge, Numbers, ComesAfterChild;
    assert out.Keys == seen;
    forall n | ReachedFromRoot(arcs, n)
      ensures n in out
    {
      ReachedAreNumbered(arcs, out, n);
    }
  }

  lemma StartsSound(arcs: seq<Association>, w: Walker)
    requires w.tree == TreeOf(arcs) && w.roots == Roots(arcs) && w.universe == Sources(arcs) + Targets(arcs)
    ensures w.Rooted()
    ensures WalkInvariant(w.tree, w.roots, {}, map[], [], [])
  {
    forall u, c | Edge(w.tree, u, c)
      ensures c in w.universe
    {
      NodesClosed(arcs, u, c);
    }
    forall r, u | r in w.roots
      ensures !Edge(w.tree, u, r)
    {
      RootsHaveNoParent(arcs, r, u);
    }
  }

  lemma InvariantNumbers(tree: Tree, roots: set<Node>, seen: set<Node>, out: Numbering, order: seq<Node>)
    requires WalkInvariant(tree, roots, seen, out, order, [])
    ensures Numbers(out, order)
  {
  }

  // ---------------------------------------------------------------------
  // The order of the arcs themselves
  // ---------------------------------------------------------------------

  /** The association presents a node under another. */
  predicate Presents(a: Association, from: Node, to: Node) {
    a.kind == "presentation" && a.source == Some(from) && a.target == Some(to)
  }

  /** An arc without an order has order 0. */
  function OrderOf(a: Association): real {
    match a.order
    case Some(order) => order
    case None => 0.0
  }

  /** Children presented under one node are numbered by the order of their arcs, those of
      equal order as they are listed. */
  ghost predicate ArcsInOrder(arcs: seq<Association>, out: Numbering) {
    forall i, j, u, c, d :: 0 <= i < |arcs| && 0 <= j < |arcs| && u in out
                            && Presents(arcs[i], u, c) && Presents(arcs[j], u, d)
                            && (OrderOf(arcs[i]) < OrderOf(arcs[j])
                                || (OrderOf(arcs[i]) == OrderOf(arcs[j]) && i < j)) ==>
      Precedes(out, c, d)
  }

  /** A node that has children and is under none. */
  ghost predicate IsRoot(arcs: seq<Association>, r: Node) {
    (exists a, c :: a in arcs && Presents(a, r, c)) && !exists a, u :: a in arcs && Presents(a, u, r)
  }

  /** Some arc of the one comes before all of the other. */
  ghost predicate Leads(arcs: seq<Association>, r: Node, s: Node) {
    exists a, c :: a in arcs && Presents(a, r, c)
                   && forall b, d :: b in arcs && Presents(b, s, d) ==> OrderOf(a) < OrderOf(b)
  }

  /** Roots are numbered by the least order among their own arcs. */
  ghost predicate RootsByArcs(arcs: seq<Association>, out: Numbering) {
    forall r, s :: IsRoot(arcs, r) && IsRoot(arcs, s) && Leads(arcs, r, s) ==> Precedes(out, r, s)
  }

  ghost predicate Before(s: seq<Child>, x: Child, y: Child) {
    exists p, q :: 0 <= p < q < |s| && s[p] == x && s[q] == y
  }

  lemma PresentsIs(a: Association, u: Node, c: Node)
    ensures Presents(a, u, c) <==> IsArc(a) && a.source.value == u && a.target.value == c
    ensures Presents(a, u, c) ==> ChildOf(a) == Child(OrderOf(a), c)
  {
  }

  lemma {:induction false} ListedBefore(arcs: seq<Association>, i: nat, j: nat, u: Node)
    requires i < j < |arcs| && IsArc(arcs[i]) && IsArc(arcs[j])
    requires arcs[i].source.value == u && arcs[j].source.value == u
    ensures Before(ArcsFrom(arcs, u), ChildOf(arcs[i]), ChildOf(arcs[j]))
  {
    var last := |arcs| - 1;
    var all, rest := ArcsFrom(arcs, u), ArcsFrom(arcs[..last], u);
    if j == last {
      ChildOfArc(arcs[..last], arcs[..last][i]);
      var p :| 0 <= p < |rest| && rest[p] == ChildOf(arcs[i]);
      assert all[p] == rest[p] && all[|all| - 1] == ChildOf(arcs[j]);
    } else {
      ListedBefore(arcs[..last], i, j, u);
      var p, q :| 0 <= p < q < |rest| && rest[p] == ChildOf(arcs[i]) && rest[q] == ChildOf(arcs[j]);
      assert all[p] == rest[p] && all[q] == rest[q];
    }
  }

  lemma {:induction false} AtOrderMember(o: real, s: seq<Child>, p: nat)
    requires p < |s| && s[p].order == o
    ensures s[p] in AtOrder(o, s)
  {
    if p > 0 {
      AtOrderMember(o, s[1..], p - 1);
    }
  }

  lemma {:induction false} AtOrderBefore(o: real, s: seq<Child>, x: Child, y: Child)
    requires Before(s, x, y) && x.order == o && y.order == o
    ensures Before(AtOrder(o, s), x, y)
  {
    var p, q :| 0 <= p < q < |s| && s[p] == x && s[q] == y;
    var all, rest := AtOrder(o, s), AtOrder(o, s[1..]);
    if p == 0 {
      AtOrderMember(o, s[1..], q - 1);
      var r :| 0 <= r < |rest| && rest[r] == y;
      assert all == [x] + rest && all[0] == x && all[r + 1] == y;
    } else {
      assert s[1..][p - 1] == x && s[1..][q - 1] == y;
      AtOrderBefore(o, s[1..], x, y);
      var p', q' :| 0 <= p' < q' < |rest| && rest[p'] == x && rest[q'] == y;
      var k := |all| - |rest|;
      assert all[p' + k] == x && all[q' + k] == y;
    }
  }

  lemma {:induction false} AtOrderIn(o: real, s: seq<Child>, y: Child)
    requires y in AtOrder(o, s)
    ensures y in s
  {
    if !(s[0].order == o && y == s[0]) {
      AtOrderIn(o, s[1..], y);
    }
  }

  lemma {:induction false} BeforeInAll(o: real, s: seq<Child>, x: Child, y: Child)
    requires Before(AtOrder(o, s), x, y)
    ensures Before(s, x, y)
  {
    var all, rest := AtOrder(o, s), AtOrder(o, s[1..]);
    var p, q :| 0 <= p < q < |all| && all[p] == x && all[q] == y;
    var k := |all| - |rest|;
    assert all[q] == rest[q - k];
    if p < k {
      AtOrderIn(o, s[1..], y);
      var r :| 0 <= r < |s[1..]| && s[1..][r] == y;
      assert s[0] == x && s[r + 1] == y;
    } else {
      assert all[p] == rest[p - k];
      BeforeInAll(o, s[1..], x, y);
      var p', q' :| 0 <= p' < q' < |s[1..]| && s[1..][p'] == x && s[1..][q'] == y;
      assert s[p' + 1] == x && s[q' + 1] == y;
    }
  }

  /** Among the sorted children of a node the arc of smaller order comes first, and of two of
      equal order the one listed first. */
  lemma SortedBefore(arcs: seq<Association>, i: nat, j: nat, u: Node, c: Node, d: Node)
    requires i < |arcs| && j < |arcs| && Presents(arcs[i], u, c) && Presents(arcs[j], u, d)
    requires OrderOf(arcs[i]) < OrderOf(arcs[j]) || (OrderOf(arcs[i]) == OrderOf(arcs[j]) && i < j)
    ensures Before(SortChildren(ArcsFrom(arcs, u)), Child(OrderOf(arcs[i]), c), Child(OrderOf(arcs[j]), d))
  {
    PresentsIs(arcs[i], u, c);
    PresentsIs(arcs[j], u, d);
    var kids, sorted := ArcsFrom(arcs, u), SortChildren(ArcsFrom(arcs, u));
    var x, y := Child(OrderOf(arcs[i]), c), Child(OrderOf(arcs[j]), d);
    SortChildrenSorted(kids);
    if x.order < y.order {
      ChildOfArc(arcs, arcs[i]);
      ChildOfArc(arcs, arcs[j]);
      var p :| 0 <= p < |sorted| && sorted[p] == x;
      var q :| 0 <= q < |sorted| && sorted[q] == y;
    } else {
      ListedBefore(arcs, i, j, u);
      AtOrderBefore(x.order, kids, x, y);
      SortChildrenStable(kids, x.order);
      BeforeInAll(x.order, sorted, x, y);
    }
  }

  lemma SiblingsByArcs(arcs: seq<Association>, out: Numbering)
    requires forall u :: u in out ==> SiblingsInOrder(TreeOf(arcs), out, u)
    ensures ArcsInOrder(arcs, out)
  {
    forall i, j, u, c, d | 0 <= i < |arcs| && 0 <= j < |arcs| && u in out
                           && Presents(arcs[i], u, c) && Presents(arcs[j], u, d)
                           && (OrderOf(arcs[i]) < OrderOf(arcs[j])
                               || (OrderOf(arcs[i]) == OrderOf(arcs[j]) && i < j))
      ensures Precedes(out, c, d)
    {
      SortedBefore(arcs, i, j, u, c, d);
      var kids := Kids(TreeOf(arcs), u);
      assert u in Sources(arcs) && kids == SortChildren(ArcsFrom(arcs, u));
      var p, q :| 0 <= p < q < |kids| && kids[p].node == c && kids[q].node == d;
      assert Precedes(out, Kids(TreeOf(arcs), u)[p].node, Kids(TreeOf(arcs), u)[q].node);
    }
  }

  /** A node's first child is its least arc. */
  lemma RootKeyIsLeast(arcs: seq<Association>, r: Node)
    requires r in Sources(arcs)
    ensures exists a, c :: a in arcs && Presents(a, r, c) && OrderOf(a) == RootKey(TreeOf(arcs), r)
    ensures forall a, c :: a in arcs && Presents(a, r, c) ==> RootKey(TreeOf(arcs), r) <= OrderOf(a)
  {
    var kids := Kids(TreeOf(arcs), r);
    SortChildrenSorted(ArcsFrom(arcs, r));
    var first :| first in arcs && IsArc(first) && first.source.value == r;
    ChildOfArc(arcs, first);
    var a := ArcOfChild(arcs, r, kids[0]);
    PresentsIs(a, r, a.target.value);
    forall b, c | b in arcs && Presents(b, r, c)
      ensures RootKey(TreeOf(arcs), r) <= OrderOf(b)
    {
      PresentsIs(b, r, c);
      ChildOfArc(arcs, b);
    }
  }

  lemma RootsAreRoots(arcs: seq<Association>, r: Node)
    ensures IsRoot(arcs, r) <==> r in Roots(arcs)
  {
    forall a, u, c | a in arcs
      ensures Presents(a, u, c) <==> IsArc(a) && a.source.value == u && a.target.value == c
    {
      PresentsIs(a, u, c);
    }
    if r in Roots(arcs) {
      var a :| a in arcs && IsArc(a) && a.source.value == r;
      assert Presents(a, r, a.target.value);
    }
    if IsRoot(arcs, r) && r in Targets(arcs) {
      var a :| a in arcs && IsArc(a) && a.target.value == r;
      assert Presents(a, a.source.value, r);
    }
  }

  lemma RootsAreByArcs(arcs: seq<Association>, out: Numbering)
    requires RootsInOrder(TreeOf(arcs), Roots(arcs), out)
    ensures RootsByArcs(arcs, out)
  {
    hide TreeOf, RootKey;
    forall r, s | IsRoot(arcs, r) && IsRoot(arcs, s) && Leads(arcs, r, s)
      ensures Precedes(out, r, s)
    {
      RootsAreRoots(arcs, r);
      RootsAreRoots(arcs, s);
      RootKeyIsLeast(arcs, r);
      RootKeyIsLeast(arcs, s);
    }
  }

  /** `_presentation_order`. It numbers exactly the nodes reachable from the roots,
      0..n-1 without gap or repeat; a child comes before its parent except where the
      two are on a cycle; siblings of a forest and roots come in arc order. */
  method PresentationOrder(arcs: seq<Association>) returns (out: Numbering, ghost order: seq<Node>)
    ensures Numbers(out, order)
    ensures forall n :: n in out <==> ReachedFromRoot(arcs, n)
    ensures forall u, c :: u in out && Edge(TreeOf(arcs), u, c) ==>
              c in out && ComesAfterChild(TreeOf(arcs), out, u, c)
    ensures forall n :: n in out ==> AtDepth(TreeOf(arcs), Roots(arcs), n, out[n].1)
    ensures IsForest(TreeOf(arcs)) ==> ArcsInOrder(arcs, out)
    ensures RootsByArcs(arcs, out) && forall r :: r in Roots(arcs) ==> r in out
  {
    hide ArcsInOrder, RootsByArcs;
    hide WalkInvariant, Grown, Walker.Rooted, Numbers, ReachedFromRoot, AtDepth, ComesAfterChild,
      SiblingsInOrder, IsForest, TreeOf;
    var tree, froms, tos := BuildTree(arcs);
    var w := new Walker(tree, Roots(arcs), Sources(arcs) + Targets(arcs));
    StartsSound(arcs, w);
    var rest := froms - tos;
    ghost var done: set<Node> := {};
    while rest != {}
      invariant w.tree == tree && w.roots == Roots(arcs) && w.universe == Sources(arcs) + Targets(arcs) && fresh(w)
      invariant w.Rooted() && w.Valid([])
      invariant rest <= Roots(arcs) && done == Roots(arcs) - rest && rest !! w.seen
      invariant RootsInOrder(tree, done, w.out)
      invariant forall n :: n in w.seen ==> ReachedFromRoot(arcs, n)
      invariant forall r, s :: r in done && s in rest ==> RootKey(tree, r) <= RootKey(tree, s)
      decreases rest
    {
      ghost var least := LeastRoot(tree, rest);
      var root :| root in rest && forall x :: x in rest ==> RootKey(tree, root) <= RootKey(tree, x);
      ghost var seen, numbered, order0 := w.seen, w.out, w.order;
      InvariantNumbers(tree, Roots(arcs), seen, numbered, order0);
      w.Walk(root, 0, []);
      RootWalked(arcs, root, rest, done, seen, numbered, order0, w.seen, w.out, w.order);
      rest := rest - {root};
      done := done + {root};
    }
    out, order := w.out, w.order;
    WalkFinished(arcs, w.seen, out, order);
    RootsAreByArcs(arcs, out);
    if IsForest(TreeOf(arcs)) {
      SiblingsByArcs(arcs, out);
    }
  }

  lemma {:induction false} ClosedUnderPath(tree: Tree, out: Numbering, p: seq<Node>)
    requires IsPath(tree, p) && p[0] in out
    requires forall u, c :: u in out && Edge(tree, u, c) ==> c in out
    ensures p[|p| - 1] in out
  {
    if |p| > 1 {
      assert Edge(tree, p[0], p[1]);
      forall i | 0 <= i < |p[1..]| - 1
        ensures Edge(tree, p[1..][i], p[1..][i + 1])
      {
        assert Edge(tree, p[i + 1], p[i + 2]);
      }
      ClosedUnderPath(tree, out, p[1..]);
    }
  }

  // ---------------------------------------------------------------------
  // Acyclic graphs: totals after their components, and no node left out
  // ---------------------------------------------------------------------

  /** Every node of an acyclic graph lies below some root. */
  lemma {:induction false} RootAbove(arcs: seq<Association>, n: Node, below: set<Node>)
    requires Acyclic(TreeOf(arcs)) && n in Sources(arcs) + Targets(arcs) && n !in below
    requires forall b :: b in below ==> Reaches(TreeOf(arcs), n, b)
    requires below <= Sources(arcs) + Targets(arcs)
    ensures ReachedFromRoot(arcs, n)
    decreases (Sources(arcs) + Targets(arcs)) - below
  {
    var tree := TreeOf(arcs);
    ReachesSelf(tree, n);
    if n in Targets(arcs) {
      var a :| a in arcs && IsArc(a) && a.target.value == n;
      var u := a.source.value;
      EdgesAreArcs(arcs, u, n);
      forall b | b in below + {n}
        ensures Reaches(tree, u, b)
      {
        ReachesFrom(tree, u, n, b);
      }
      RootAbove(arcs, u, below + {n});
      var r :| r in Roots(arcs) && Reaches(tree, r, u);
      ReachesStep(tree, r, u, n);
    }
  }

  lemma AcyclicLeavesNoneOut(arcs: seq<Association>, n: Node)
    requires Acyclic(TreeOf(arcs))
    ensures ReachedFromRoot(arcs, n) <==> n in Sources(arcs) + Targets(arcs)
  {
    if n in Sources(arcs) + Targets(arcs) {
      RootAbove(arcs, n, {});
    }
    if ReachedFromRoot(arcs, n) {
      var r :| r in Roots(arcs) && Reaches(TreeOf(arcs), r, n);
      if n != r {
        var u := ReachesLast(TreeOf(arcs), r, n);
        NodesClosed(arcs, u, n);
      }
    }
  }

  lemma ChildFirst(arcs: seq<Association>, out: Numbering, a: Association)
    requires Acyclic(TreeOf(arcs)) && a in arcs && IsArc(a)
    requires out.Keys == Sources(arcs) + Targets(arcs)
    requires forall u, c :: u in out && Edge(TreeOf(arcs), u, c) ==>
               c in out && ComesAfterChild(TreeOf(arcs), out, u, c)
    ensures a.source.value in out && a.target.value in out
    ensures out[a.target.value].0 < out[a.source.value].0
  {
    EdgesAreArcs(arcs, a.source.value, a.target.value);
    assert ComesAfterChild(TreeOf(arcs), out, a.source.value, a.target.value);
  }

  /** On any acyclic graph, shared children allowed, the numbering puts every child
      strictly before each of its parents and leaves no node out. */
  method AcyclicPresentationOrder(arcs: seq<Association>) returns (out: Numbering)
    requires Acyclic(TreeOf(arcs))
    ensures out.Keys == Sources(arcs) + Targets(arcs)
    ensures forall a :: a in arcs && IsArc(a) ==> out[a.target.value].0 < out[a.source.value].0
  {
    hide Acyclic, TreeOf, Edge, Numbers, ReachedFromRoot, AtDepth, ComesAfterChild, SiblingsInOrder, IsForest,
      RootsInOrder;
    ghost var order;
    out, order := PresentationOrder(arcs);
    forall n
      ensures n in out <==> n in Sources(arcs) + Targets(arcs)
    {
      AcyclicLeavesNoneOut(arcs, n);
    }
    forall a | a in arcs && IsArc(a)
      ensures a.source.value in out && a.target.value in out && out[a.target.value].0 < out[a.source.value].0
    {
      ChildFirst(arcs, out, a);
    }
  }
}
