/** The scene graph of src/node.ts: parent/children links maintained by
 *  `push_child`/`remove_child`, membership tests, the pre-order `render`
 *  traversal, the first-match pre-order name search used by the engine and
 *  scenes, and the one-level world matrix of `Node2D`/`Node3D`.  User
 *  callbacks are recorded in a `Trace`, in the order they fire. */
module SceneGraph {
  import opened Maths
  import opened Seqs

  /** `Node`, `Node2D` or `Node3D`: the subclass decides `get_world_matrix`. */
  datatype Kind = Plain | TwoD | ThreeD

  /** A callback invocation. `on_ready_callback` and `on_removed_callback`
   *  receive the parent as their node argument. */
  datatype Callback =
    | Ready(of: Node, parent: Node)
    | Removed(of: Node, parent: Node)
    | Update(of: Node, time: real, deltaTime: real)
    | RenderClass(of: Node, view: Mat, projection3d: Mat, projection2d: Mat)

  class Trace {
    var events: seq<Callback>

    constructor ()
      ensures events == []
    {
      events := [];
    }
  }

  class Node {
    const name: string
    const kind: Kind
    var parent: Node?
    var children: seq<Node>
    /** `get_model_matrix()`: position, rotation and scale as one abstract matrix. */
    var local: Mat

    constructor (name: string, kind: Kind, local: Mat)
      ensures this.name == name && this.kind == kind && this.local == local
      ensures parent == null && children == []
    {
      this.name := name;
      this.kind := kind;
      this.local := local;
      parent := null;
      children := [];
    }

    /** `has_child(node)`: list membership. */
    predicate HasChild(n: Node)
      reads this
    {
      n in children
    }

    /** `has_child(name)`: some direct child carries exactly the name. */
    predicate HasChildNamed(n: string)
      reads this
    {
      NamedIndex(children, n) < |children|
    }

    /** `remove_child(node)`: the first occurrence leaves the list, the node's
     *  parent is cleared even when it was not a child, and its removed callback
     *  fires. The links stay consistent when the node was this node's child or
     *  had no parent; a node whose parent is another node keeps its place in
     *  that parent's list while losing its parent link. */
    method RemoveChild(child: Node, trace: Trace, ghost nodes: set<Node>)
      modifies this`children, child`parent, trace`events
      ensures children == RemoveFirst(old(children), child)
      ensures child.parent == null
      ensures trace.events == old(trace.events) + [Removed(child, this)]
      ensures (old(Consistent(nodes)) && this in nodes && child in nodes &&
               (old(child.parent) == this || old(child.parent) == null)) ==> Consistent(nodes)
    {
      ghost var wasConsistent := Consistent(nodes);
      var index := IndexOf(children, child);
      if index > -1 {
        children := children[..index] + children[index + 1..];
      }
      child.parent := null;
      trace.events := trace.events + [Removed(child, this)];
      if wasConsistent && this in nodes && child in nodes && (old(child.parent) == this || old(child.parent) == null) {
        RemoveFirstNoDup(old(children), child);
        forall x | x in nodes
          ensures NoDup(x.children)
          ensures forall c :: c in x.children ==> c in nodes && c.parent == x
          ensures x.parent != null ==> x.parent in nodes && x in x.parent.children
        {
          assert old(x.parent) != null ==> x in old(x.parent.children);
        }
      }
    }

    /** `push_child(node)`: detach from the previous parent, append, adopt, and
     *  fire the ready callback once. Consistent links stay consistent, so the
     *  node then sits in this list only. */
    method PushChild(child: Node, trace: Trace, ghost nodes: set<Node>)
      modifies this`children, child`parent, trace`events
      modifies if child.parent == null then {} else {child.parent}
      ensures child.parent == this
      ensures children == (if old(child.parent) == this then RemoveFirst(old(children), child) else old(children)) + [child]
      ensures old(child.parent) != null && old(child.parent) != this ==>
        old(child.parent).children == RemoveFirst(old(child.parent.children), child)
      ensures old(child.parent) != null ==> old(child.parent).parent == old(child.parent.parent) || old(child.parent) == child
      ensures old(child.parent) != null ==> old(child.parent).local == old(child.parent.local)
      ensures trace.events == old(trace.events) + (if old(child.parent) != null then [Removed(child, old(child.parent))] else []) + [Ready(child, this)]
      ensures old(Consistent(nodes)) && this in nodes && child in nodes ==> Consistent(nodes)
    {
      var previous := child.parent;
      if previous != null {
        ghost var wasConsistent := Consistent(nodes);
        if wasConsistent && this in nodes && child in nodes {
          assert previous in nodes;
        }
        previous.RemoveChild(child, trace, nodes);
      }
      Attach(child, trace, nodes);
    }

    /** The second half of `push_child`, for a node that has no parent. */
    method Attach(child: Node, trace: Trace, ghost nodes: set<Node>)
      requires child.parent == null
      modifies this`children, child`parent, trace`events
      ensures children == old(children) + [child] && child.parent == this
      ensures trace.events == old(trace.events) + [Ready(child, this)]
      ensures old(Consistent(nodes)) && this in nodes && child in nodes ==> Consistent(nodes)
    {
      ghost var detached := Consistent(nodes);
      children := children + [child];
      child.parent := this;
      trace.events := trace.events + [Ready(child, this)];
      if detached && this in nodes && child in nodes {
        assert child !in old(children);
        AppendFreshNoDup(old(children), child);
        forall x | x in nodes
          ensures NoDup(x.children)
          ensures forall c :: c in x.children ==> c in nodes && c.parent == x
          ensures x.parent != null ==> x.parent in nodes && x in x.parent.children
        {
        }
      }
    }

    /** `remove_child(name)`: the engine-wide first match loses its parent, the
     *  first direct child with the name is spliced out, and only a matching
     *  child fires the removed callback. */
    method RemoveChildNamed(n: string, root: Node, trace: Trace, ghost nodes: set<Node>, ghost rank: map<Node, nat>)
      requires root in nodes && Ranked(nodes, rank)
      modifies this`children, nodes`parent, trace`events
      ensures var found := old(FirstNamed(PreOrder(root, nodes, rank), n));
        forall x :: x in nodes ==> x.parent == if x == found then null else old(x.parent)
      ensures var i := NamedIndex(old(children), n);
        if i < |old(children)| then
          children == old(children[..i] + children[i + 1..]) &&
          trace.events == old(trace.events) + [Removed(old(children[i]), this)]
        else
          children == old(children) && trace.events == old(trace.events)
    {
      var found := GetNodeSearch(n, root, nodes, rank);
      if found != null {
        found.parent := null;
      }
      var index := 0;
      var matched: Node? := null;
      while index < |children|
        invariant 0 <= index <= |children|
        invariant forall j :: 0 <= j < index ==> children[j].name != n
      {
        if children[index].name == n {
          matched := children[index];
          break;
        }
        index := index + 1;
      }
      NamedIndexFirst(children, n, index);
      if index < |children| {
        children := children[..index] + children[index + 1..];
      }
      if matched != null {
        trace.events := trace.events + [Removed(matched, this)];
      }
    }

    /** `get_world_matrix()`: the parent's local matrix composed with this one
     *  when the parent is of the same kind; the grandparent is never consulted.
     *  (`src/node.ts`; the older `src/graphics/node.ts` has its own copy,
     *  `LegacySceneGraph.Node.WorldMatrix`.) */
    function WorldMatrix(): (m: Mat)
      reads this, parent
      ensures parent != null && parent.kind == kind && kind != Plain ==> m == Mul(parent.local, local)
      ensures parent == null || parent.kind != kind || kind == Plain ==> m == local
    {
      if kind != Plain && parent != null && parent.kind == kind then Mul(parent.local, local) else local
    }
  }

  /** The position of the first node named `n`, or `|s|`. */
  function NamedIndex(s: seq<Node>, n: string): (i: nat)
    ensures i <= |s|
    ensures i < |s| ==> s[i].name == n
    ensures forall j :: 0 <= j < i ==> s[j].name != n
  {
    if s == [] then 0
    else if s[0].name == n then 0
    else NamedIndex(s[1..], n) + 1
  }

  lemma NamedIndexFirst(s: seq<Node>, n: string, i: nat)
    requires i <= |s| && (i < |s| ==> s[i].name == n)
    requires forall j :: 0 <= j < i ==> s[j].name != n
    ensures NamedIndex(s, n) == i
  {
  }

  /** `has_child(name)` holds exactly when some child has that name. */
  lemma HasChildNamedIff(p: Node, n: string)
    ensures p.HasChildNamed(n) <==> exists c :: c in p.children && c.name == n
  {
    if exists c :: c in p.children && c.name == n {
      var c :| c in p.children && c.name == n;
      var j :| 0 <= j < |p.children| && p.children[j] == c;
      assert NamedIndex(p.children, n) <= j;
    }
  }

  /** Every child of a node in `nodes` is in `nodes` and ranked below it:
   *  the acyclicity a traversal needs to end. */
  ghost predicate Ranked(nodes: set<Node>, rank: map<Node, nat>)
    reads nodes
  {
    forall x :: x in nodes ==> x in rank && forall c :: c in x.children ==> c in nodes && c in rank && rank[c] < rank[x]
  }

  /** The subtree of `n` in pre-order, children in list order. */
  ghost function PreOrder(n: Node, nodes: set<Node>, rank: map<Node, nat>): (s: seq<Node>)
    requires n in nodes && Ranked(nodes, rank)
    reads nodes
    ensures |s| >= 1 && s[0] == n
    ensures forall x :: x in s ==> x in nodes
    decreases rank[n], 1
  {
    [n] + PreOrderAll(n.children, nodes, rank, rank[n])
  }

  ghost function PreOrderAll(cs: seq<Node>, nodes: set<Node>, rank: map<Node, nat>, bound: nat): (s: seq<Node>)
    requires Ranked(nodes, rank)
    requires forall c :: c in cs ==> c in nodes && c in rank && rank[c] < bound
    reads nodes
    ensures forall x :: x in s ==> x in nodes
    decreases bound, 0, |cs|
  {
    if cs == [] then [] else PreOrder(cs[0], nodes, rank) + PreOrderAll(cs[1..], nodes, rank, bound)
  }

  /** The first node of `s` named `n`, or null. */
  function FirstNamed(s: seq<Node>, n: string): (r: Node?)
    ensures r == null <==> forall x :: x in s ==> x.name != n
    ensures r != null ==> r in s && r.name == n
    ensures r != null ==> exists i :: 0 <= i < |s| && s[i] == r && forall j :: 0 <= j < i ==> s[j].name != n
  {
    var i := NamedIndex(s, n);
    if i < |s| then s[i] else null
  }

  lemma {:induction false} FirstNamedAppend(a: seq<Node>, b: seq<Node>, n: string)
    ensures FirstNamed(a + b, n) == if FirstNamed(a, n) != null then FirstNamed(a, n) else FirstNamed(b, n)
  {
    var i := NamedIndex(a, n);
    if i < |a| {
      NamedIndexFirst(a + b, n, i);
    } else {
      var k := NamedIndex(b, n);
      NamedIndexFirst(a + b, n, |a| + k);
    }
  }

  lemma {:induction false} PreOrderAllSnoc(cs: seq<Node>, i: nat, nodes: set<Node>, rank: map<Node, nat>, bound: nat)
    requires Ranked(nodes, rank) && i < |cs|
    requires forall c :: c in cs ==> c in nodes && c in rank && rank[c] < bound
    ensures PreOrderAll(cs[..i + 1], nodes, rank, bound) == PreOrderAll(cs[..i], nodes, rank, bound) + PreOrder(cs[i], nodes, rank)
    decreases i
  {
    if i == 0 {
      assert cs[..1][1..] == [];
    } else {
      var t := cs[1..];
      assert cs[..i + 1][1..] == t[..i] && cs[..i][1..] == t[..i - 1];
      PreOrderAllSnoc(t, i - 1, nodes, rank, bound);
    }
  }

  /** `get_node_search(name, node)` (src/engine.ts, and the identical
   *  src/scene.ts copy): the node itself if it matches, else the first match
   *  among its children's subtrees, in list order. */
  method GetNodeSearch(n: string, node: Node, ghost nodes: set<Node>, ghost rank: map<Node, nat>) returns (r: Node?)
    requires node in nodes && Ranked(nodes, rank)
    ensures r == FirstNamed(PreOrder(node, nodes, rank), n)
    decreases rank[node]
  {
    if node.name == n {
      NamedIndexFirst(PreOrder(node, nodes, rank), n, 0);
      return node;
    }
    var i := 0;
    while i < |node.children|
      invariant 0 <= i <= |node.children|
      invariant FirstNamed(PreOrderAll(node.children[..i], nodes, rank, rank[node]), n) == null
    {
      var found := GetNodeSearch(n, node.children[i], nodes, rank);
      SearchStep(node, i, nodes, rank, n);
      if found != null {
        SearchSkipsRest(node, i + 1, nodes, rank, n);
        return found;
      }
      i := i + 1;
    }
    SearchMisses(node, nodes, rank, n);
    r := null;
  }

  /** A search that missed the first `i` children's subtrees finds what child
   *  `i`'s subtree holds. */
  lemma SearchStep(node: Node, i: nat, nodes: set<Node>, rank: map<Node, nat>, n: string)
    requires node in nodes && Ranked(nodes, rank) && i < |node.children|
    requires FirstNamed(PreOrderAll(node.children[..i], nodes, rank, rank[node]), n) == null
    ensures FirstNamed(PreOrderAll(node.children[..i + 1], nodes, rank, rank[node]), n) ==
      FirstNamed(PreOrder(node.children[i], nodes, rank), n)
  {
    var cs := node.children;
    PreOrderAllSnoc(cs, i, nodes, rank, rank[node]);
    FirstNamedAppend(PreOrderAll(cs[..i], nodes, rank, rank[node]), PreOrder(cs[i], nodes, rank), n);
  }

  /** A node not named `n` whose children's subtrees all miss holds no match. */
  lemma SearchMisses(node: Node, nodes: set<Node>, rank: map<Node, nat>, n: string)
    requires node in nodes && Ranked(nodes, rank) && node.name != n
    requires FirstNamed(PreOrderAll(node.children[..|node.children|], nodes, rank, rank[node]), n) == null
    ensures FirstNamed(PreOrder(node, nodes, rank), n) == null
  {
    var cs := node.children;
    assert cs[..|cs|] == cs;
    FirstNamedAppend([node], PreOrderAll(cs, nodes, rank, rank[node]), n);
  }

  lemma SearchSkipsRest(node: Node, i: nat, nodes: set<Node>, rank: map<Node, nat>, n: string)
    requires node in nodes && Ranked(nodes, rank) && i <= |node.children| && node.name != n
    requires FirstNamed(PreOrderAll(node.children[..i], nodes, rank, rank[node]), n) != null
    ensures FirstNamed(PreOrder(node, nodes, rank), n) == FirstNamed(PreOrderAll(node.children[..i], nodes, rank, rank[node]), n)
  {
    var cs := node.children;
    PreOrderAllSplit(cs, i, nodes, rank, rank[node]);
    FirstNamedAppend(PreOrderAll(cs[..i], nodes, rank, rank[node]), PreOrderAll(cs[i..], nodes, rank, rank[node]), n);
    FirstNamedAppend([node], PreOrderAll(cs, nodes, rank, rank[node]), n);
  }

  lemma {:induction false} PreOrderAllSplit(cs: seq<Node>, i: nat, nodes: set<Node>, rank: map<Node, nat>, bound: nat)
    requires Ranked(nodes, rank) && i <= |cs|
    requires forall c :: c in cs ==> c in nodes && c in rank && rank[c] < bound
    ensures PreOrderAll(cs, nodes, rank, bound) == PreOrderAll(cs[..i], nodes, rank, bound) + PreOrderAll(cs[i..], nodes, rank, bound)
    decreases i
  {
    if i == 0 {
      assert cs[..0] == [] && cs[0..] == cs;
    } else {
      var t := cs[1..];
      assert cs[..i][1..] == t[..i - 1] && cs[i..] == t[i - 1..];
      PreOrderAllSplit(t, i - 1, nodes, rank, bound);
    }
  }

  /** A match found by the search has the requested name; a start node that
   *  matches is returned itself; no match means no node of the subtree has the name. */
  lemma GetNodeSearchMeaning(n: string, node: Node, nodes: set<Node>, rank: map<Node, nat>)
    requires node in nodes && Ranked(nodes, rank)
    ensures var r := FirstNamed(PreOrder(node, nodes, rank), n);
      (r != null ==> r.name == n) &&
      (node.name == n ==> r == node) &&
      (r == null <==> forall x :: x in PreOrder(node, nodes, rank) ==> x.name != n)
  {
    if node.name == n {
      assert PreOrder(node, nodes, rank)[0] == node;
      NamedIndexFirst(PreOrder(node, nodes, rank), n, 0);
    }
  }

  /** The callbacks `render` fires over a pre-order walk: each node's update,
   *  then its `render_class`. */
  function RenderEvents(s: seq<Node>, view: Mat, p3: Mat, p2: Mat, time: real, dt: real): (es: seq<Callback>)
    ensures |es| == 2 * |s|
  {
    if s == [] then []
    else [Update(s[0], time, dt), RenderClass(s[0], view, p3, p2)] + RenderEvents(s[1..], view, p3, p2, time, dt)
  }

  lemma {:induction false} RenderEventsAppend(a: seq<Node>, b: seq<Node>, view: Mat, p3: Mat, p2: Mat, time: real, dt: real)
    ensures RenderEvents(a + b, view, p3, p2, time, dt) == RenderEvents(a, view, p3, p2, time, dt) + RenderEvents(b, view, p3, p2, time, dt)
    decreases |a|
  {
    if a != [] {
      var x := a[0];
      assert (a + b)[0] == x && (a + b)[1..] == a[1..] + b;
      RenderEventsAppend(a[1..], b, view, p3, p2, time, dt);
      assert RenderEvents(a + b, view, p3, p2, time, dt) ==
        [Update(x, time, dt), RenderClass(x, view, p3, p2)] + RenderEvents(a[1..] + b, view, p3, p2, time, dt);
    } else {
      assert a + b == b;
    }
  }

  /** Node i of the walk contributes events 2i (its update) and 2i+1 (its `render_class`). */
  lemma {:induction false} RenderEventsAt(s: seq<Node>, i: nat, view: Mat, p3: Mat, p2: Mat, time: real, dt: real)
    requires i < |s|
    ensures RenderEvents(s, view, p3, p2, time, dt)[2 * i] == Update(s[i], time, dt)
    ensures RenderEvents(s, view, p3, p2, time, dt)[2 * i + 1] == RenderClass(s[i], view, p3, p2)
    decreases i
  {
    if i > 0 {
      RenderEventsAt(s[1..], i - 1, view, p3, p2, time, dt);
    }
  }

  /** `render`: the update callback, `render_class`, then every child's `render`
   *  in list order, all with the same matrices and times. */
  method Render(node: Node, view: Mat, p3: Mat, p2: Mat, time: real, dt: real, trace: Trace,
                ghost nodes: set<Node>, ghost rank: map<Node, nat>)
    requires node in nodes && Ranked(nodes, rank)
    modifies trace`events
    ensures trace.events == old(trace.events) + RenderEvents(PreOrder(node, nodes, rank), view, p3, p2, time, dt)
    decreases rank[node], 1
  {
    var head := [Update(node, time, dt), RenderClass(node, view, p3, p2)];
    assert head == RenderEvents([node], view, p3, p2, time, dt);
    trace.events := trace.events + head;
    ghost var prefix := trace.events;
    var children := node.children;
    ghost var bound := rank[node];
    var i := 0;
    assert forall c :: c in children ==> c in nodes && c in rank && rank[c] < bound;
    while i < |children|
      invariant 0 <= i <= |children|
      invariant Ranked(nodes, rank) && forall c :: c in children ==> c in nodes && c in rank && rank[c] < bound
      invariant trace.events == prefix + RenderEvents(PreOrderAll(children[..i], nodes, rank, bound), view, p3, p2, time, dt)
    {
      RenderChild(children, i, view, p3, p2, time, dt, trace, nodes, rank, bound, prefix);
      i := i + 1;
    }
    assert children[..i] == children;
    RenderEventsAppend([node], PreOrderAll(children, nodes, rank, bound), view, p3, p2, time, dt);
    AppendAssoc(old(trace.events), head, RenderEvents(PreOrderAll(children, nodes, rank, bound), view, p3, p2, time, dt));
  }

  /** One turn of `render`'s loop: child `i`'s subtree is rendered after
   *  those of the children before it. */
  method RenderChild(children: seq<Node>, i: nat, view: Mat, p3: Mat, p2: Mat, time: real, dt: real, trace: Trace,
                     ghost nodes: set<Node>, ghost rank: map<Node, nat>, ghost bound: nat, ghost prefix: seq<Callback>)
    requires Ranked(nodes, rank) && i < |children|
    requires forall c :: c in children ==> c in nodes && c in rank && rank[c] < bound
    requires trace.events == prefix + RenderEvents(PreOrderAll(children[..i], nodes, rank, bound), view, p3, p2, time, dt)
    modifies trace`events
    ensures trace.events == prefix + RenderEvents(PreOrderAll(children[..i + 1], nodes, rank, bound), view, p3, p2, time, dt)
    decreases bound, 0
  {
    ghost var done := RenderEvents(PreOrderAll(children[..i], nodes, rank, bound), view, p3, p2, time, dt);
    assert children[i] in children;
    Render(children[i], view, p3, p2, time, dt, trace, nodes, rank);
    ghost var visited := RenderEvents(PreOrder(children[i], nodes, rank), view, p3, p2, time, dt);
    RenderStep(children, i, nodes, rank, bound, view, p3, p2, time, dt);
    AppendAssoc(prefix, done, visited);
  }

  lemma RenderStep(cs: seq<Node>, i: nat, nodes: set<Node>, rank: map<Node, nat>, bound: nat,
                   view: Mat, p3: Mat, p2: Mat, time: real, dt: real)
    requires Ranked(nodes, rank) && i < |cs|
    requires forall c :: c in cs ==> c in nodes && c in rank && rank[c] < bound
    ensures RenderEvents(PreOrderAll(cs[..i + 1], nodes, rank, bound), view, p3, p2, time, dt) ==
      RenderEvents(PreOrderAll(cs[..i], nodes, rank, bound), view, p3, p2, time, dt) + RenderEvents(PreOrder(cs[i], nodes, rank), view, p3, p2, time, dt)
  {
    PreOrderAllSnoc(cs, i, nodes, rank, bound);
    RenderEventsAppend(PreOrderAll(cs[..i], nodes, rank, bound), PreOrder(cs[i], nodes, rank), view, p3, p2, time, dt);
  }

  /** The parent/children links agree: each child points back at its parent and
   *  appears once, and each node with a parent is listed by it. */
  ghost predicate Consistent(nodes: set<Node>)
    reads nodes
  {
    forall x :: x in nodes ==>
      NoDup(x.children) &&
      (forall c :: c in x.children ==> c in nodes && c.parent == x) &&
      (x.parent != null ==> x.parent in nodes && x in x.parent.children)
  }
}
