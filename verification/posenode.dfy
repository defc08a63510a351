/**
 * The pose tree: named nodes, each with an optional parent and a map from names to its
 * children. add_node re-parents a node, remove_node drops a child entry by name, a
 * dotted path walks down the children maps, and root_node follows parent links up.
 */
module PoseTree {
  import opened Wrappers
  import opened DottedPath

  /**
   * What the tree operations raise: AssertionError on a duplicate child name, KeyError on a
   * missing one. Ancestor is the refusal of the corrected add_node, which add_node as written
   * does not have.
   */
  datatype TreeError = DuplicateName(name: string) | MissingChild(name: string) | Ancestor(name: string)

  class PoseNode {
    const name: string
    var parent: PoseNode?
    var children: map<string, PoseNode>

    /** PoseNode(name=...) without a parent: no parent, no children. */
    constructor (name: string)
      ensures this.name == name && parent == null && children == map[]
    {
      this.name := name;
      parent := null;
      children := map[];
    }

    /**
     * remove_node: deletes the entry keyed by node.name, or raises KeyError when there is
     * none. The removed node keeps its parent link.
     */
    method RemoveNode(node: PoseNode) returns (r: Result<(), TreeError>)
      modifies this
      ensures r.Ok? <==> node.name in old(children)
      ensures r.Ok? ==> children == old(children) - {node.name}
      ensures r.Err? ==> r.error == MissingChild(node.name) && children == old(children)
      ensures parent == old(parent) && node.parent == old(node.parent)
    {
      if node.name !in children {
        return Err(MissingChild(node.name));
      }
      children := children - {node.name};
      return Ok(());
    }

    /**
     * add_node: refuses a name that is already a child; otherwise registers node under
     * its name, removes it from its previous parent (which raises KeyError, after the
     * registration, when that parent no longer lists it) and makes this its parent.
     * In a linked tree it succeeds exactly when the name is free and keeps the tree linked.
     */
    method AddNode(node: PoseNode, ghost tree: set<PoseNode>) returns (r: Result<(), TreeError>)
      modifies this, node, node.parent
      ensures node.name in old(children) ==>
        r == Err(DuplicateName(node.name)) && unchanged(this, node) && (old(node.parent) != null ==> unchanged(old(node.parent)))
      ensures node.name !in old(children) && old(node.parent) == null ==>
        r == Ok(()) && children == old(children)[node.name := node] && node.parent == this
      ensures node.name !in old(children) && old(node.parent) == this ==>
        r == Ok(()) && children == old(children) && node.parent == this
      ensures var p := old(node.parent);
        node.name !in old(children) && p != null && p != this && node.name !in old(p.children) ==>
          && r == Err(MissingChild(node.name)) && children == old(children)[node.name := node]
          && node.parent == p && p.children == old(p.children)
      ensures var p := old(node.parent);
        node.name !in old(children) && p != null && p != this && node.name in old(p.children) ==>
          && r == Ok(()) && children == old(children)[node.name := node]
          && p.children == old(p.children) - {node.name} && node.parent == this
      ensures node != this ==> parent == old(parent)
      ensures node != this && node != old(node.parent) ==> node.children == old(node.children)
      ensures var p := old(node.parent); p != null && p != node ==> p.parent == old(p.parent)
      ensures old(Linked(tree)) && this in tree && node in tree ==> (r.Ok? <==> node.name !in old(children))
      ensures old(Linked(tree)) && this in tree && node in tree ==> Linked(tree)
    {
      if node.name in children {
        return Err(DuplicateName(node.name));
      }
      ghost var q, linked := node.parent, Linked(tree);
      children := children[node.name := node];
      if node.parent != null {
        var removed := node.parent.RemoveNode(node);
        if removed.Err? {
          return removed;
        }
      }
      node.parent := this;
      if linked && this in tree && node in tree {
        AddKeepsLinked(tree, this, node, q);
      }
      return Ok(());
    }

    /**
     * The add_node a tree needs to stay free of cycles: walks up from this to its root, as
     * root_node does, and refuses node when it meets it on the way (node is this or one of
     * its ancestors); otherwise it is add_node. chain is the path from this to its root, and
     * a node that is added gets the path through this.
     */
    method AddNodeAcyclic(node: PoseNode, ghost tree: set<PoseNode>, ghost chain: seq<PoseNode>) returns (r: Result<(), TreeError>)
      requires Chain(this, chain)
      modifies this, node, node.parent
      ensures (r.Err? && r.error.Ancestor?) <==> node in chain
      ensures node in chain ==>
        r == Err(Ancestor(node.name)) && unchanged(this, node) && (old(node.parent) != null ==> unchanged(old(node.parent)))
      ensures node !in chain && node.name in old(children) ==>
        r == Err(DuplicateName(node.name)) && unchanged(this, node) && (old(node.parent) != null ==> unchanged(old(node.parent)))
      ensures node !in chain && node.name !in old(children) && old(node.parent) == null ==>
        r == Ok(()) && children == old(children)[node.name := node] && node.parent == this
      ensures node !in chain && node.name !in old(children) && old(node.parent) == this ==>
        r == Ok(()) && children == old(children) && node.parent == this
      ensures var p := old(node.parent);
        node !in chain && node.name !in old(children) && p != null && p != this && node.name !in old(p.children) ==>
          && r == Err(MissingChild(node.name)) && children == old(children)[node.name := node]
          && node.parent == p && p.children == old(p.children)
      ensures var p := old(node.parent);
        node !in chain && node.name !in old(children) && p != null && p != this && node.name in old(p.children) ==>
          && r == Ok(()) && children == old(children)[node.name := node]
          && p.children == old(p.children) - {node.name} && node.parent == this
      ensures node != this ==> parent == old(parent)
      ensures node != this && node != old(node.parent) ==> node.children == old(node.children)
      ensures var p := old(node.parent); p != null && p != node ==> p.parent == old(p.parent)
      ensures r.Ok? ==> node.parent == this && Chain(this, chain) && Chain(node, [node] + chain)
      ensures old(Linked(tree)) && this in tree && node in tree ==> (r.Ok? <==> node !in chain && node.name !in old(children))
      ensures old(Linked(tree)) && this in tree && node in tree ==> Linked(tree)
    {
      var n := this;
      ghost var i := 0;
      while n != node && n.parent != null
        modifies {}
        invariant 0 <= i < |chain| && n == chain[i]
        invariant node !in chain[..i]
        decreases |chain| - i
      {
        ChainSuffix(this, chain, i);
        ChainOfParent(n, chain[i..]);
        n := n.parent;
        i := i + 1;
      }
      if n == node {
        return Err(Ancestor(node.name));
      }
      ChainSuffix(this, chain, i);
      ChainOfRoot(n, chain[i..]);
      assert chain == chain[..i] + [n];
      ghost var p := node.parent;
      r := AddNode(node, tree);
      if r.Ok? {
        forall k | 0 <= k < |chain|
          ensures chain[k].parent == old(chain[k].parent)
        {
          assert chain[k] != node;
        }
        var added := [node] + chain;
        forall k | 0 <= k < |added| - 1
          ensures added[k].parent == added[k + 1]
        {
          if k > 0 {
            assert added[k] == chain[k - 1] && added[k + 1] == chain[k];
          }
        }
      }
    }

    /**
     * The removal a linked tree needs: deletes the entry only when it is node's own, and
     * clears node's parent link with it, so the tree stays linked.
     */
    method Detach(node: PoseNode, ghost tree: set<PoseNode>) returns (r: Result<(), TreeError>)
      modifies this, node
      ensures r.Ok? <==> node.name in old(children) && old(children)[node.name] == node
      ensures r.Ok? ==> children == old(children) - {node.name} && node.parent == null
      ensures r.Err? ==> r == Err(MissingChild(node.name)) && unchanged(this, node)
      ensures node != this ==> parent == old(parent) && node.children == old(node.children)
      ensures old(Linked(tree)) && this in tree && node in tree ==> Linked(tree)
    {
      if node.name !in children || children[node.name] != node {
        return Err(MissingChild(node.name));
      }
      children := children - {node.name};
      node.parent := null;
      if old(Linked(tree)) && this in tree && node in tree {
        DetachKeepsLinked(tree, this, node);
      }
      return Ok(());
    }

    /**
     * node[name]: splits name at the dots and looks each piece up in the children of the
     * node reached so far, raising KeyError at the first piece that is missing.
     */
    method Get(name: string) returns (r: Result<PoseNode, TreeError>)
      ensures r == Walk(this, Split(name))
    {
      var path := Split(name);
      var n := this;
      for i := 0 to |path|
        invariant Walk(this, path) == Walk(n, path[i..])
      {
        assert path[i..][1..] == path[i + 1..];
        if path[i] !in n.children {
          return Err(MissingChild(path[i]));
        }
        n := n.children[path[i]];
      }
      assert path[|path|..] == [];
      return Ok(n);
    }

    /**
     * root_node: follows parent links until a node without a parent. chain is the path to
     * the root, which exists exactly when no cycle lies above this node.
     */
    method RootNode(ghost chain: seq<PoseNode>) returns (r: PoseNode)
      requires Chain(this, chain)
      ensures r == chain[|chain| - 1] && r.parent == null
      ensures parent == null ==> r == this
    {
      var n := this;
      ghost var i := 0;
      while n.parent != null
        invariant 0 <= i < |chain| && n == chain[i]
        decreases |chain| - i
      {
        ChainSuffix(this, chain, i);
        ChainOfParent(n, chain[i..]);
        n := n.parent;
        i := i + 1;
      }
      ChainSuffix(this, chain, i);
      ChainOfRoot(n, chain[i..]);
      ChainOfRoot(this, chain);
      return n;
    }

    /**
     * PoseNode(name=name, parent=parent): a new node without children, registered at
     * parent through add_node when a parent is given; add_node's duplicate-name
     * assertion then makes the construction fail.
     */
    static method Create(name: string, parent: PoseNode?, ghost tree: set<PoseNode>) returns (r: Result<PoseNode, TreeError>)
      modifies parent
      ensures r.Ok? ==> fresh(r.value) && r.value.name == name && r.value.parent == parent && r.value.children == map[]
      ensures parent == null ==> r.Ok?
      ensures parent != null ==> (r.Ok? <==> name !in old(parent.children))
      ensures parent != null && r.Ok? ==>
        parent.children == old(parent.children)[name := r.value] && parent.parent == old(parent.parent)
      ensures parent != null && r.Err? ==> r == Err(DuplicateName(name)) && unchanged(parent)
      ensures r.Ok? && old(Linked(tree)) && (parent != null ==> parent in tree) ==> Linked(tree + {r.value})
    {
      var n := new PoseNode(name);
      if Linked(tree) {
        FreshNodeLinked(tree, n);
      }
      if parent != null {
        var added := parent.AddNode(n, tree + {n});
        if added.Err? {
          return Err(added.error);
        }
      }
      return Ok(n);
    }
  }

  /**
   * Re-parenting c under p keeps a tree linked when the name is free at p: p gains the
   * entry, the old parent q loses it, c points at p and nothing else in the tree changes.
   */
  twostate lemma AddKeepsLinked(tree: set<PoseNode>, new p: PoseNode, new c: PoseNode, new q: PoseNode?)
    requires old(Linked(tree)) && p in tree && c in tree && q == old(c.parent)
    requires c.name !in old(p.children)
    requires c.parent == p && p.children == old(p.children)[c.name := c]
    requires q != null ==> q.children == old(q.children) - {c.name}
    requires q != null && q != c ==> q.parent == old(q.parent)
    requires p != c ==> p.parent == old(p.parent)
    requires c != p && c != q ==> c.children == old(c.children)
    requires forall n :: n in tree && n != p && n != c && n != q ==> unchanged(n)
    ensures Linked(tree)
  {
    forall n | n in tree && n.parent != null
      ensures n.parent in tree && n.name in n.parent.children && n.parent.children[n.name] == n
    {
      if n != c {
        assert n.parent == old(n.parent);
      }
    }
    forall n, k | n in tree && k in n.children
      ensures n.children[k] in tree && n.children[k].name == k && n.children[k].parent == n
    {
      if n != p && n != q {
        assert n.children == old(n.children);
      }
    }
  }

  /**
   * Every parent link is matched by the parent's child entry under the node's name, and
   * every child entry by the child's parent link: the tree add_node and a detaching
   * removal keep.
   */
  ghost predicate Linked(tree: set<PoseNode>)
    reads tree
  {
    && (forall n :: n in tree && n.parent != null ==>
          n.parent in tree && n.name in n.parent.children && n.parent.children[n.name] == n)
    && (forall n, k :: n in tree && k in n.children ==>
          n.children[k] in tree && n.children[k].name == k && n.children[k].parent == n)
  }

  /** Adding a node with no parent and no children, that no entry of tree names, keeps tree linked. */
  lemma FreshNodeLinked(tree: set<PoseNode>, n: PoseNode)
    requires Linked(tree) && n.parent == null && n.children == map[]
    requires forall m, k :: m in tree && k in m.children ==> m.children[k] != n
    ensures Linked(tree + {n})
  {
  }

  /**
   * Deleting c's own entry at p and clearing c's parent link keeps a tree linked when
   * nothing else in the tree changes.
   */
  twostate lemma DetachKeepsLinked(tree: set<PoseNode>, new p: PoseNode, new c: PoseNode)
    requires old(Linked(tree)) && p in tree && c in tree
    requires c.name in old(p.children) && old(p.children)[c.name] == c
    requires c.parent == null && p.children == old(p.children) - {c.name}
    requires p != c ==> p.parent == old(p.parent) && c.children == old(c.children)
    requires forall n :: n in tree && n != p && n != c ==> unchanged(n)
    ensures Linked(tree)
  {
    forall n | n in tree && n.parent != null
      ensures n.parent in tree && n.name in n.parent.children && n.parent.children[n.name] == n
    {
      assert n != c && n.parent == old(n.parent);
    }
    forall n, k | n in tree && k in n.children
      ensures n.children[k] in tree && n.children[k].name == k && n.children[k].parent == n
    {
      assert n.children[k] == old(n.children)[k];
    }
  }

  /**
   * The result of walking down from n along path: each piece must be a child of the node
   * reached so far.
   */
  ghost function Walk(n: PoseNode, path: seq<string>): (r: Result<PoseNode, TreeError>)
    reads *
    decreases |path|
  {
    if |path| == 0 then Ok(n)
    else if path[0] !in n.children then Err(MissingChild(path[0]))
    else Walk(n.children[path[0]], path[1..])
  }

  /** Walking along a + b walks along a, then along b from where a ended; an error stops the walk. */
  lemma {:induction false} WalkAppend(n: PoseNode, a: seq<string>, b: seq<string>)
    ensures Walk(n, a + b) == match Walk(n, a) case Ok(m) => Walk(m, b) case Err(e) => Err(e)
    decreases |a|
  {
    if |a| == 0 {
      assert a + b == b;
    } else {
      assert (a + b)[0] == a[0] && (a + b)[1..] == a[1..] + b;
      if a[0] in n.children {
        WalkAppend(n.children[a[0]], a[1..], b);
      }
    }
  }

  /** A name without dots is looked up directly among the children. */
  lemma LookupPlain(n: PoseNode, name: string)
    requires '.' !in name
    ensures Walk(n, Split(name)) == if name in n.children then Ok(n.children[name]) else Err(MissingChild(name))
  {
    SplitPlain(name);
  }

  /** node['x.y'] is node['x']['y'], and fails when node['x'] does. */
  lemma LookupDotted(n: PoseNode, x: string, y: string)
    ensures Walk(n, Split(x + "." + y)) == match Walk(n, Split(x)) case Ok(m) => Walk(m, Split(y)) case Err(e) => Err(e)
  {
    SplitDotted(x, y);
    WalkAppend(n, Split(x), Split(y));
  }

  /**
   * chain is the path from n to its root: it starts at n, each next element is the parent
   * of the one before, and the last has no parent.
   */
  ghost predicate Chain(n: PoseNode, chain: seq<PoseNode>)
    reads chain
  {
    |chain| >= 1 && chain[0] == n && chain[|chain| - 1].parent == null && ParentSteps(chain)
  }

  /** Each element of chain after the first is the parent of the one before it. */
  ghost predicate ParentSteps(chain: seq<PoseNode>)
    reads chain
  {
    forall k :: 0 <= k < |chain| - 1 ==> chain[k].parent == chain[k + 1]
  }

  /** The path from a node's parent to the root is the rest of the node's path. */
  lemma ChainOfParent(n: PoseNode, chain: seq<PoseNode>)
    requires Chain(n, chain) && n.parent != null
    ensures |chain| >= 2 && chain[1] == n.parent && Chain(n.parent, chain[1..])
  {
    ChainOfRoot(n, chain);
    assert chain[0].parent == chain[1];
  }

  /** The path of a node without parent is the node alone, and only then. */
  lemma ChainOfRoot(n: PoseNode, chain: seq<PoseNode>)
    requires Chain(n, chain)
    ensures n.parent == null <==> |chain| == 1
  {
    if |chain| > 1 {
      assert chain[0].parent == chain[1];
    }
  }

  /** Every suffix of the path is the path of the node where the suffix starts. */
  lemma ChainSuffix(n: PoseNode, chain: seq<PoseNode>, i: int)
    requires Chain(n, chain) && 0 <= i < |chain|
    ensures Chain(chain[i], chain[i..])
  {
    var rest := chain[i..];
    forall k | 0 <= k < |rest| - 1
      ensures rest[k].parent == rest[k + 1]
    {
      assert rest[k] == chain[i + k] && rest[k + 1] == chain[i + k + 1];
    }
  }

  /** The path to the root visits no node twice: there is no cycle above a node that has one. */
  lemma {:induction false} ChainDistinct(n: PoseNode, chain: seq<PoseNode>)
    requires Chain(n, chain)
    ensures forall i, j :: 0 <= i < j < |chain| ==> chain[i] != chain[j]
    decreases |chain|
  {
    ChainOfRoot(n, chain);
    if |chain| > 1 {
      ChainOfParent(n, chain);
      var rest := chain[1..];
      ChainDistinct(n.parent, rest);
      forall j | 0 < j < |chain|
        ensures chain[0] != chain[j]
      {
        if j == |chain| - 1 {
          assert chain[j].parent == null;
        } else {
          assert chain[j].parent == chain[j + 1] == rest[j];
          assert rest[0] != rest[j];
        }
      }
      forall i, j | 0 < i < j < |chain|
        ensures chain[i] != chain[j]
      {
        assert chain[i] == rest[i - 1] && chain[j] == rest[j - 1];
      }
    }
  }

  /** The path to the root is determined by the node, so root_node has one answer. */
  lemma {:induction false} ChainUnique(n: PoseNode, c1: seq<PoseNode>, c2: seq<PoseNode>)
    requires Chain(n, c1) && Chain(n, c2)
    ensures c1 == c2
    decreases |c1|
  {
    ChainOfRoot(n, c1);
    ChainOfRoot(n, c2);
    if n.parent != null {
      ChainOfParent(n, c1);
      ChainOfParent(n, c2);
      ChainUnique(n.parent, c1[1..], c2[1..]);
      assert c1 == [n] + c1[1..] && c2 == [n] + c2[1..];
    }
  }

  /** Following parent links from a node of a two-node cycle never leaves the cycle. */
  lemma {:induction false} StaysOnCycle(a: PoseNode, b: PoseNode, chain: seq<PoseNode>, k: int)
    requires a.parent == b && b.parent == a
    requires |chain| >= 1 && chain[0] == a
    requires ParentSteps(chain)
    requires 0 <= k < |chain|
    ensures chain[k] == a || chain[k] == b
    decreases k
  {
    if k > 0 {
      StaysOnCycle(a, b, chain, k - 1);
      assert chain[k - 1].parent == chain[k];
    }
  }

  /** Two nodes that are each other's parent have no path to a root. */
  lemma MutualParentsHaveNoRoot(a: PoseNode, b: PoseNode, chain: seq<PoseNode>)
    requires a.parent == b && b.parent == a
    ensures !Chain(a, chain)
  {
    if |chain| >= 1 && chain[0] == a && ParentSteps(chain) {
      StaysOnCycle(a, b, chain, |chain| - 1);
    }
  }

  /**
   * add_node accepts an ancestor under its own descendant: after a.add_node(b) and
   * b.add_node(a) the two nodes are each other's parent and root_node has no answer.
   */
  method AncestorUnderDescendant() returns (a: PoseNode, b: PoseNode, r: Result<(), TreeError>)
    ensures r == Ok(()) && a.parent == b && b.parent == a
    ensures forall chain :: !Chain(a, chain)
  {
    a := new PoseNode("a");
    b := new PoseNode("b");
    var first := a.AddNode(b, {});
    r := b.AddNode(a, {});
    forall chain | true
      ensures !Chain(a, chain)
    {
      MutualParentsHaveNoRoot(a, b, chain);
    }
  }

  /**
   * The corrected add_node on the same two nodes: a.add_node(b) succeeds, b.add_node(a) is
   * refused because a is b's parent, and b keeps its path to the root a.
   */
  method AncestorRefused() returns (a: PoseNode, b: PoseNode, first: Result<(), TreeError>, r: Result<(), TreeError>)
    ensures first == Ok(()) && r == Err(Ancestor("a"))
    ensures a.parent == null && b.parent == a && a.children == map["b" := b]
    ensures Chain(b, [b, a])
  {
    a := new PoseNode("a");
    b := new PoseNode("b");
    first := a.AddNodeAcyclic(b, {}, [a]);
    r := b.AddNodeAcyclic(a, {}, [b, a]);
  }

  /**
   * remove_node followed by add_node elsewhere: the stale parent link makes add_node raise
   * KeyError after it has registered c under q, and c still names p as its parent.
   */
  method ReattachAfterRemove() returns (p: PoseNode, q: PoseNode, c: PoseNode, r: Result<(), TreeError>)
    ensures r == Err(MissingChild("c"))
    ensures q.children == map["c" := c] && p.children == map[] && c.parent == p
    ensures !Linked({p, q, c})
  {
    p := new PoseNode("p");
    q := new PoseNode("q");
    c := new PoseNode("c");
    var added := p.AddNode(c, {});
    var removed := p.RemoveNode(c);
    r := q.AddNode(c, {});
  }

  /** The same sequence with the detaching removal: c moves to q and the tree stays linked. */
  method ReattachAfterDetach() returns (p: PoseNode, q: PoseNode, c: PoseNode, r: Result<(), TreeError>)
    ensures r == Ok(())
    ensures q.children == map["c" := c] && p.children == map[] && c.parent == q
    ensures Linked({p, q, c})
  {
    p := new PoseNode("p");
    q := new PoseNode("q");
    c := new PoseNode("c");
    ghost var tree := {p, q, c};
    var added := p.AddNode(c, tree);
    var detached := p.Detach(c, tree);
    r := q.AddNode(c, tree);
  }
}
