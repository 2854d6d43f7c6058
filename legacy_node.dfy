/** The older scene graph of src/graphics/node.ts: the same parent/children
 *  discipline as the newer one, without names or callbacks; `render` only
 *  passes its matrices down to the children. */
module LegacySceneGraph {
  import opened Maths
  import opened Seqs

  /** `Node`, `Node2D` or `Node3D`. */
  datatype Kind = Plain | TwoD | ThreeD

  /** One `render(view, projection3d, projection2d)` call on a node. */
  datatype RenderCall = RenderCall(node: Node, view: Mat, projection3d: Mat, projection2d: Mat)

  class Calls {
    var log: seq<RenderCall>

    constructor ()
      ensures log == []
    {
      log := [];
    }
  }

  class Node {
    const kind: Kind
    var parent: Node?
    var children: seq<Node>
    var local: Mat

    constructor (kind: Kind, local: Mat)
      ensures this.kind == kind && this.local == local && parent == null && children == []
    {
      this.kind := kind;
      this.local := local;
      parent := null;
      children := [];
    }

    /** `has_child`: list membership. */
    predicate HasChild(n: Node)
      reads this
    {
      n in children
    }

    /** `remove_child`: the first occurrence leaves the list and the parent link
     *  is cleared whether or not the node was a child. */
    method RemoveChild(child: Node)
      modifies this`children, child`parent
      ensures children == RemoveFirst(old(children), child)
      ensures child.parent == null
      ensures child != this ==> !HasChild(child) || (child in old(children) && multiset(children)[child] == multiset(old(children))[child] - 1)
    {
      var index := IndexOf(children, child);
      if index > -1 {
        children := children[..index] + children[index + 1..];
      }
      child.parent := null;
    }

    /** `push_child`: detach from the previous parent, then append and adopt. */
    method PushChild(child: Node)
      modifies this`children, child`parent
      modifies if child.parent == null then {} else {child.parent}
      ensures child.parent == this && HasChild(child) && children[|children| - 1] == child
      ensures children == (if old(child.parent) == this then RemoveFirst(old(children), child) else old(children)) + [child]
      ensures old(child.parent) != null && old(child.parent) != this ==>
        old(child.parent).children == RemoveFirst(old(child.parent.children), child)
      ensures old(child.parent) != null ==> old(child.parent).local == old(child.parent.local)
    {
      var previous := child.parent;
      if previous != null {
        previous.RemoveChild(child);
      }
      children := children + [child];
      child.parent := this;
    }

    /** `get_world_matrix()`: one level only, and only under a parent of the same
     *  kind. This is the copy in `src/graphics/node.ts`; `SceneGraph.Node.WorldMatrix`
     *  models the one in `src/node.ts`. */
    function WorldMatrix(): (m: Mat)
      reads this, parent
      ensures parent != null && parent.kind == kind && kind != Plain ==> m == Mul(parent.local, local)
      ensures parent == null || parent.kind != kind || kind == Plain ==> m == local
    {
      if kind != Plain && parent != null && parent.kind == kind then Mul(parent.local, local) else local
    }
  }

  /** Children are ranked below their parents, so a walk ends. */
  ghost predicate Ranked(nodes: set<Node>, rank: map<Node, nat>)
    reads nodes
  {
    forall x :: x in nodes ==> x in rank && forall c :: c in x.children ==> c in nodes && c in rank && rank[c] < rank[x]
  }

  /** The render calls a walk from `n` makes: `n` first, then each child's walk in order. */
  ghost function Walk(n: Node, view: Mat, p3: Mat, p2: Mat, nodes: set<Node>, rank: map<Node, nat>): (w: seq<RenderCall>)
    requires n in nodes && Ranked(nodes, rank)
    reads nodes
    ensures |w| >= 1 && w[0] == RenderCall(n, view, p3, p2)
    decreases rank[n], 1
  {
    [RenderCall(n, view, p3, p2)] + WalkAll(n.children, view, p3, p2, nodes, rank, rank[n])
  }

  ghost function WalkAll(cs: seq<Node>, view: Mat, p3: Mat, p2: Mat, nodes: set<Node>, rank: map<Node, nat>, bound: nat): (w: seq<RenderCall>)
    requires Ranked(nodes, rank)
    requires forall c :: c in cs ==> c in nodes && c in rank && rank[c] < bound
    reads nodes
    decreases bound, 0, |cs|
  {
    if cs == [] then [] else Walk(cs[0], view, p3, p2, nodes, rank) + WalkAll(cs[1..], view, p3, p2, nodes, rank, bound)
  }

  lemma {:induction false} WalkAllSnoc(cs: seq<Node>, i: nat, view: Mat, p3: Mat, p2: Mat, nodes: set<Node>, rank: map<Node, nat>, bound: nat)
    requires Ranked(nodes, rank) && i < |cs|
    requires forall c :: c in cs ==> c in nodes && c in rank && rank[c] < bound
    ensures WalkAll(cs[..i + 1], view, p3, p2, nodes, rank, bound) ==
      WalkAll(cs[..i], view, p3, p2, nodes, rank, bound) + Walk(cs[i], view, p3, p2, nodes, rank)
    decreases i
  {
    if i == 0 {
      assert cs[..1][1..] == [];
      assert cs[..1][0] == cs[0];
    } else {
      var t := cs[1..];
      assert forall c :: c in t ==> c in cs;
      assert cs[..i + 1][1..] == t[..i] && cs[..i][1..] == t[..i - 1];
      assert cs[..i + 1][0] == cs[0] && cs[..i][0] == cs[0] && t[i - 1] == cs[i];
      WalkAllSnoc(t, i - 1, view, p3, p2, nodes, rank, bound);
      var head, mid, last := Walk(cs[0], view, p3, p2, nodes, rank), WalkAll(t[..i - 1], view, p3, p2, nodes, rank, bound), Walk(cs[i], view, p3, p2, nodes, rank);
      assert WalkAll(cs[..i + 1], view, p3, p2, nodes, rank, bound) == head + (mid + last);
      assert WalkAll(cs[..i], view, p3, p2, nodes, rank, bound) == head + mid;
      AppendAssoc(head, mid, last);
    }
  }

  /** Every call of a walk carries the caller's matrices. */
  lemma {:induction false} WalkSameMatrices(n: Node, view: Mat, p3: Mat, p2: Mat, nodes: set<Node>, rank: map<Node, nat>)
    requires n in nodes && Ranked(nodes, rank)
    ensures forall c :: c in Walk(n, view, p3, p2, nodes, rank) ==> c.view == view && c.projection3d == p3 && c.projection2d == p2
    decreases rank[n], 1
  {
    WalkAllSameMatrices(n.children, view, p3, p2, nodes, rank, rank[n]);
  }

  lemma {:induction false} WalkAllSameMatrices(cs: seq<Node>, view: Mat, p3: Mat, p2: Mat, nodes: set<Node>, rank: map<Node, nat>, bound: nat)
    requires Ranked(nodes, rank)
    requires forall c :: c in cs ==> c in nodes && c in rank && rank[c] < bound
    ensures forall c :: c in WalkAll(cs, view, p3, p2, nodes, rank, bound) ==> c.view == view && c.projection3d == p3 && c.projection2d == p2
    decreases bound, 0, |cs|
  {
    if cs != [] {
      WalkSameMatrices(cs[0], view, p3, p2, nodes, rank);
      WalkAllSameMatrices(cs[1..], view, p3, p2, nodes, rank, bound);
    }
  }

  /** `render`: every node of the subtree is rendered, in pre-order, with the
   *  caller's matrices. */
  method Render(node: Node, view: Mat, p3: Mat, p2: Mat, calls: Calls, ghost nodes: set<Node>, ghost rank: map<Node, nat>)
    requires node in nodes && Ranked(nodes, rank)
    modifies calls`log
    ensures calls.log == old(calls.log) + Walk(node, view, p3, p2, nodes, rank)
    decreases rank[node]
  {
    var head := [RenderCall(node, view, p3, p2)];
    calls.log := calls.log + head;
    ghost var prefix := calls.log;
    var children := node.children;
    ghost var bound := rank[node];
    var i := 0;
    assert forall c :: c in children ==> c in nodes && c in rank && rank[c] < bound;
    while i < |children|
      invariant 0 <= i <= |children|
      invariant Ranked(nodes, rank) && forall c :: c in children ==> c in nodes && c in rank && rank[c] < bound
      invariant calls.log == prefix + WalkAll(children[..i], view, p3, p2, nodes, rank, bound)
    {
      ghost var done := WalkAll(children[..i], view, p3, p2, nodes, rank, bound);
      assert children[i] in children;
      Render(children[i], view, p3, p2, calls, nodes, rank);
      WalkAllSnoc(children, i, view, p3, p2, nodes, rank, bound);
      AppendAssoc(prefix, done, Walk(children[i], view, p3, p2, nodes, rank));
      i := i + 1;
    }
    assert children[..i] == children;
    AppendAssoc(old(calls.log), head, WalkAll(children, view, p3, p2, nodes, rank, bound));
  }
}
