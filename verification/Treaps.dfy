/** The treap: nodes with parent links, kept in key order and, by rotations, in order of
    priority. */
module Treaps {
  import opened Trees

  class Node {
    var priority: nat
    var key: int
    var value: nat
    var parent: Node?
    var left: Node?
    var right: Node?
    const address: nat   // the block of memory that the node lies in
    const size: nat      // and its size

    constructor (address: nat, size: nat)
      ensures this.address == address && this.size == size
    {
      this.address, this.size := address, size;
    }
  }

  ghost function Nodes(t: Tree<Node>): set<Node> {
    match t
    case Leaf => {}
    case Branch(l, x, e, r) => Nodes(l) + {x} + Nodes(r)
  }

  ghost function NodesAround(c: Ctx<Node>): set<Node> {
    match c
    case Hole => {}
    case InLeft(up, x, e, r) => NodesAround(up) + {x} + Nodes(r)
    case InRight(up, l, x, e) => NodesAround(up) + {x} + Nodes(l)
  }

  lemma {:induction false} TreeAllocated(t: Tree<Node>)
    ensures forall o: Node | o in Nodes(t) :: allocated(o)
  {
    match t
    case Leaf =>
    case Branch(l, x, e, r) => TreeAllocated(l); TreeAllocated(r);
  }

  lemma {:induction false} CtxAllocated(c: Ctx<Node>)
    ensures forall o: Node | o in NodesAround(c) :: allocated(o)
    decreases c
  {
    match c
    case Hole =>
    case InLeft(up, x, e, r) => CtxAllocated(up); TreeAllocated(r);
    case InRight(up, l, x, e) => CtxAllocated(up); TreeAllocated(l);
  }

  function RootOf(t: Tree<Node>): Node? {
    if t == Leaf then null else t.node
  }

  function Above(c: Ctx<Node>): Node? {
    if c == Hole then null else c.node
  }

  ghost predicate Holds(x: Node, e: Entry)
    reads x`key, x`value, x`priority
  {
    x.key == e.key && x.value == e.value && x.priority == e.priority
  }

  /** The pointers from n on are the tree t, with no node met twice. */
  ghost predicate Shape(t: Tree<Node>, n: Node?, parent: Node?)
    reads Nodes(t)
  {
    match t
    case Leaf => n == null
    case Branch(l, x, e, r) =>
      && n == x && x.parent == parent && Holds(x, e)
      && x !in Nodes(l) && x !in Nodes(r) && Nodes(l) !! Nodes(r)
      && Shape(l, x.left, x) && Shape(r, x.right, x)
  }

  /** The pointers around a place are the context c, and what is at the place is sub. */
  ghost predicate Around(c: Ctx<Node>, root: Node?, sub: Node?)
    reads NodesAround(c)
    decreases c
  {
    match c
    case Hole => root == sub
    case InLeft(up, x, e, r) =>
      && x.left == sub && x.parent == Above(up) && Holds(x, e)
      && x !in NodesAround(up) && x !in Nodes(r) && NodesAround(up) !! Nodes(r)
      && Shape(r, x.right, x) && Around(up, root, x)
    case InRight(up, l, x, e) =>
      && x.right == sub && x.parent == Above(up) && Holds(x, e)
      && x !in NodesAround(up) && x !in Nodes(l) && NodesAround(up) !! Nodes(l)
      && Shape(l, x.left, x) && Around(up, root, x)
  }

  class Treap {
    var root: Node?
    ghost var tree: Tree<Node>

    ghost predicate Focus(c: Ctx<Node>, t: Tree<Node>)
      reads this, NodesAround(c), Nodes(t)
    {
      Around(c, root, RootOf(t)) && Shape(t, RootOf(t), Above(c)) && NodesAround(c) !! Nodes(t)
    }

    ghost predicate Linked()
      reads this, Nodes(tree)
    {
      Shape(tree, root, null)
    }

    /** Pointers, key order and priority order are right. */
    ghost predicate Valid()
      reads this, Nodes(tree)
    {
      Linked() && Sorted(Flat(tree)) && HeapProperty(tree, -1)
    }

    constructor ()
      ensures Valid() && tree == Leaf
    {
      root, tree := null, Leaf;
    }

    /** The link that led to node now leads to sub. */
    method LinkParent(node: Node, parent: Node?, sub: Node?, ghost c: Ctx<Node>)
      requires Around(c, root, node) && parent == Above(c) && node !in NodesAround(c)
      modifies this`root, NodesAround(c)`left, NodesAround(c)`right
      ensures Around(c, root, sub)
    {
      ParentIs(c, root, node);
      if parent == null {
        root := sub;
      } else {
        assert c.InLeft? ==> Around(c.up, root, c.node);
        assert c.InRight? ==> Around(c.up, root, c.node);
        if parent.left == node {
          parent.left := sub;
        } else {
          parent.right := sub;
        }
      }
    }

    /** A subtree gets another parent. */
    static method SetParent(sub: Node?, parent: Node, ghost was: Node?, ghost t: Tree<Node>)
      requires Shape(t, sub, was)
      modifies Nodes(t)`parent
      ensures Shape(t, sub, parent)
    {
      if sub != null {
        assert Shape(t.left, sub.left, sub) && Shape(t.right, sub.right, sub);
        sub.parent := parent;
        assert Shape(t.left, sub.left, sub) && Shape(t.right, sub.right, sub);
      }
    }

    /** Turns the edge between node and its right child. */
    method RotateLeft(node: Node, ghost c: Ctx<Node>, ghost l: Tree<Node>, ghost e: Entry, ghost t: Tree<Node>)
      requires t.Branch? && Focus(c, Branch(l, node, e, t))
      modifies this`root, node`right, node`parent, {t.node}`left, {t.node}`parent
      modifies NodesAround(c)`left, NodesAround(c)`right, Nodes(t.left)`parent
      ensures Focus(c, Branch(Branch(l, node, e, t.left), t.node, t.entry, t.right))
    {
      hide *;
      FocusParts(c, l, node, e, t);
      assert t == Branch(t.left, t.node, t.entry, t.right);
      ghost var m, r := t.left, t.right;
      BranchParts(t.left, t.node, t.entry, t.right, node.right, node);
      var right := node.right;
      TreeAllocated(l);
      TreeAllocated(m);
      TreeAllocated(r);
      CtxAllocated(c);
      node.right := right.left;
      SetParent(right.left, node, right, t.left);
      right.parent := node.parent;
      LinkParent(node, node.parent, right, c);
      right.left := node;
      node.parent := right;
      BranchIntro(l, node, e, t.left, right);
      BranchIntro(Branch(l, node, e, t.left), right, t.entry, t.right, Above(c));
      FocusIntro(c, Branch(Branch(l, node, e, t.left), right, t.entry, t.right));
    }

    /** Turns the edge between node and its left child. */
    method RotateRight(node: Node, ghost c: Ctx<Node>, ghost t: Tree<Node>, ghost e: Entry, ghost r: Tree<Node>)
      requires t.Branch? && Focus(c, Branch(t, node, e, r))
      modifies this`root, node`left, node`parent, {t.node}`right, {t.node}`parent
      modifies NodesAround(c)`left, NodesAround(c)`right, Nodes(t.right)`parent
      ensures Focus(c, Branch(t.left, t.node, t.entry, Branch(t.right, node, e, r)))
    {
      hide *;
      FocusParts(c, t, node, e, r);
      assert t == Branch(t.left, t.node, t.entry, t.right);
      ghost var l, m := t.left, t.right;
      BranchParts(t.left, t.node, t.entry, t.right, node.left, node);
      TreeAllocated(l);
      TreeAllocated(m);
      TreeAllocated(r);
      CtxAllocated(c);
      var left := node.left;
      node.left := left.right;
      SetParent(left.right, node, left, m);
      left.parent := node.parent;
      LinkParent(node, node.parent, left, c);
      left.right := node;
      node.parent := left;
      BranchIntro(m, node, e, r, left);
      BranchIntro(l, left, t.entry, Branch(m, node, e, r), Above(c));
      FocusIntro(c, Branch(l, left, t.entry, Branch(m, node, e, r)));
    }

    lemma FocusParts(c: Ctx<Node>, l: Tree<Node>, x: Node, e: Entry, r: Tree<Node>)
      requires Focus(c, Branch(l, x, e, r))
      ensures Around(c, root, x) && x.parent == Above(c) && Holds(x, e) && x !in NodesAround(c)
      ensures Shape(l, x.left, x) && Shape(r, x.right, x) && x !in Nodes(l) && x !in Nodes(r) && Nodes(l) !! Nodes(r)
      ensures NodesAround(c) !! Nodes(l) && NodesAround(c) !! Nodes(r)
      ensures Nodes(Branch(l, x, e, r)) == Nodes(l) + {x} + Nodes(r)
    {
    }

    lemma FocusIntro(c: Ctx<Node>, t: Tree<Node>)
      requires Around(c, root, RootOf(t)) && Shape(t, RootOf(t), Above(c)) && NodesAround(c) !! Nodes(t)
      ensures Focus(c, t)
    {
    }

    lemma FocusTop()
      requires Linked()
      ensures Focus(Hole, tree) && RootOf(tree) == root
    {
    }

    lemma FocusLeft(c: Ctx<Node>, l: Tree<Node>, x: Node, e: Entry, r: Tree<Node>)
      requires Focus(c, Branch(l, x, e, r))
      ensures Focus(InLeft(c, x, e, r), l) && RootOf(l) == x.left && Above(InLeft(c, x, e, r)) == x && Holds(x, e)
      ensures NodesAround(InLeft(c, x, e, r)) + Nodes(l) == NodesAround(c) + Nodes(Branch(l, x, e, r))
    {
      RootIn(l, x.left, x);
    }

    lemma FocusRight(c: Ctx<Node>, l: Tree<Node>, x: Node, e: Entry, r: Tree<Node>)
      requires Focus(c, Branch(l, x, e, r))
      ensures Focus(InRight(c, l, x, e), r) && RootOf(r) == x.right && Above(InRight(c, l, x, e)) == x && Holds(x, e)
      ensures NodesAround(InRight(c, l, x, e)) + Nodes(r) == NodesAround(c) + Nodes(Branch(l, x, e, r))
    {
      RootIn(r, x.right, x);
    }

    /** The tree one level up. */
    lemma FocusUp(c: Ctx<Node>, t: Tree<Node>)
      requires Focus(c, t) && c != Hole
      ensures c.InLeft? ==> Focus(c.up, Branch(t, c.node, c.entry, c.right))
      ensures c.InRight? ==> Focus(c.up, Branch(c.left, c.node, c.entry, t))
      ensures Holds(c.node, c.entry) && c.node in NodesAround(c)
    {
    }

    lemma {:induction false} FocusAll(c: Ctx<Node>, t: Tree<Node>)
      requires Focus(c, t)
      ensures Shape(Plug(c, t), root, null) && Nodes(Plug(c, t)) == NodesAround(c) + Nodes(t)
      decreases c
    {
      if c != Hole {
        FocusUp(c, t);
        match c
        case InLeft(up, x, e, r) => FocusAll(up, Branch(t, x, e, r));
        case InRight(up, l, x, e) => FocusAll(up, Branch(l, x, e, t));
      }
    }

    // ----- insertion -----

    /** The new node becomes a child of the last node met, or the root. */
    method Attach(n: Node, parent: Node?, key: int, ghost c: Ctx<Node>)
      requires Around(c, root, null) && parent == Above(c) && n !in NodesAround(c)
      requires (c.InLeft? ==> key < c.entry.key) && (c.InRight? ==> key >= c.entry.key)
      modifies this`root, NodesAround(c)`left, NodesAround(c)`right
      ensures Around(c, root, n)
    {
      if parent == null {
        root := n;
      } else {
        assert c.InLeft? ==> Around(c.up, root, c.node);
        assert c.InRight? ==> Around(c.up, root, c.node);
        if key < parent.key {
          parent.left := n;
        } else {
          parent.right := n;
        }
      }
    }

    /** Rotations move the new node up while the node above it has a greater priority. */
    method SiftUp(node: Node, ghost c0: Ctx<Node>, ghost e: Entry) returns (ghost c: Ctx<Node>, ghost t: Tree<Node>)
      requires Focus(c0, Branch(Leaf, node, e, Leaf)) && HeapAround(c0)
      modifies this`root, NodesAround(c0)`left, NodesAround(c0)`right, NodesAround(c0)`parent, node`left, node`right, node`parent
      ensures Focus(c, t) && HeapAround(c) && HeapProperty(t, Bound(c))
      ensures NodesAround(c) + Nodes(t) == NodesAround(c0) + {node}
      ensures Flat(Plug(c, t)) == Flat(Plug(c0, Branch(Leaf, node, e, Leaf)))
    {
      hide *;
      ghost var l: Tree<Node>, r: Tree<Node> := Leaf, Leaf;
      c := c0;
      LeafParts(c, e);
      FocusParts(c, l, node, e, r);
      ghost var all := NodesAround(c0) + {node};
      var parent := node.parent;
      while parent != null && parent.priority > node.priority
        invariant Focus(c, Branch(l, node, e, r)) && HeapBut(c, l, r) && HeapProperty(l, e.priority) && HeapProperty(r, e.priority)
        invariant NodesAround(c) + Nodes(l) + {node} + Nodes(r) == all && parent == Above(c) && Holds(node, e)
        invariant Flat(Plug(c, Branch(l, node, e, r))) == Flat(Plug(c0, Branch(Leaf, node, e, Leaf)))
        decreases c
      {
        FocusParts(c, l, node, e, r);
        NotHole(c);
        FocusUp(c, Branch(l, node, e, r));
        ParentIs(c, root, node);
        if parent.left == node {
          ghost var up, f, rr := c.up, c.entry, c.right;
          UpNodes(c);
          HoldsPriority(parent, f);
          HoldsPriority(node, e);
          RotateRight(parent, up, Branch(l, node, e, r), f, rr);
          RiseLeft(up, parent, f, rr, l, e, r);
          Rotated(up, l, node, e, r, parent, f, rr);
          PlugLeft(up, parent, f, rr, Branch(l, node, e, r));
          BranchNodes(r, parent, f, rr);
          c, r := up, Branch(r, parent, f, rr);
        } else {
          ghost var up, f, ll := c.up, c.entry, c.left;
          UpNodes(c);
          HoldsPriority(parent, f);
          HoldsPriority(node, e);
          RotateLeft(parent, up, ll, f, Branch(l, node, e, r));
          RiseRight(up, ll, parent, f, l, e, r);
          Rotated(up, ll, parent, f, l, node, e, r);
          PlugRight(up, ll, parent, f, Branch(l, node, e, r));
          BranchNodes(ll, parent, f, l);
          c, l := up, Branch(ll, parent, f, l);
        }
        FocusParts(c, l, node, e, r);
        parent := node.parent;
      }
      FocusParts(c, l, node, e, r);
      t := Branch(l, node, e, r);
      if parent != null {
        NotHole(c);
        FocusUp(c, t);
        HoldsPriority(parent, c.entry);
        HoldsPriority(node, e);
      } else {
        NullAbove(c);
      }
      SiftEnd(c, l, node, e, r);
    }

    /** The way down to the empty place where a key belongs: behind all equal keys. */
    method Descend(key: int) returns (parent: Node?, ghost c: Ctx<Node>)
      requires Valid()
      ensures Focus(c, Leaf) && parent == Above(c) && Plug(c, Leaf) == tree && Parted(c, key, key) && HeapAround(c)
      ensures (c.InLeft? ==> key < c.entry.key) && (c.InRight? ==> key >= c.entry.key)
      ensures NodesAround(c) == Nodes(tree)
    {
      hide Shape, Around, Parted, HeapProperty, HeapAround, Flat, Before, After, Nodes, NodesAround, Focus;
      parent := null;
      var node := root;
      ghost var t := tree;
      c := Hole;
      FocusTop();
      DescentStart(tree, key);
      while node != null
        invariant Focus(c, t) && node == RootOf(t) && parent == Above(c) && Plug(c, t) == tree
        invariant Parted(c, key, key) && HeapAround(c) && HeapProperty(t, Bound(c)) && NodesAround(c) + Nodes(t) == Nodes(tree)
        invariant (c.InLeft? ==> key < c.entry.key) && (c.InRight? ==> key >= c.entry.key)
        decreases t
      {
        ghost var l, x, e, r := t.left, t.node, t.entry, t.right;
        assert t == Branch(l, x, e, r);
        FocusLeft(c, l, x, e, r);
        FocusRight(c, l, x, e, r);
        HeapDown(c, l, x, e, r);
        parent := node;
        if key < node.key {
          PartedLeft(c, l, x, e, r, key, key);
          c, t := InLeft(c, x, e, r), l;
          node := node.left;
        } else {
          PartedRight(c, l, x, e, r, key, key);
          c, t := InRight(c, l, x, e), r;
          node := node.right;
        }
      }
      assert t == Leaf;
      NoNodes();
    }

    /** insert: the node set grows by exactly one node, which goes behind all equal keys.
        @return its place in key order. */
    method Insert(n: Node, key: int, value: nat, priority: nat) returns (ghost k: nat)
      requires Valid() && n !in Nodes(tree) && value != 0
      modifies this, n, Nodes(tree)
      ensures Valid() && Nodes(tree) == old(Nodes(tree)) + {n}
      ensures k <= |old(Flat(tree))|
      ensures Flat(tree) == old(Flat(tree))[..k] + [(n, Entry(key, value, priority))] + old(Flat(tree))[k..]
    {
      hide *;
      ValidParts();
      var parent, c := Descend(key);
      ghost var e := Entry(key, value, priority);
      FocusHole(c);
      CtxAllocated(c);
      n.priority, n.key, n.value, n.parent, n.left, n.right := priority, key, value, parent, null, null;
      Attach(n, parent, key, c);
      LeafIntro(n, e, parent);
      NoNodes();
      FocusIntro(c, Branch(Leaf, n, e, Leaf));
      Inserted(c, n, e);
      k := |Before(c)|;
      ghost var c1, t := SiftUp(n, c, e);
      FocusAll(c1, t);
      HeapPlug(c1, t);
      tree := Plug(c1, t);
      ValidIntro();
    }

    lemma ValidParts()
      requires Valid()
      ensures Linked() && Sorted(Flat(tree)) && HeapProperty(tree, -1)
    {
    }

    lemma ValidIntro()
      requires Shape(tree, root, null) && Sorted(Flat(tree)) && HeapProperty(tree, -1)
      ensures Valid()
    {
    }

    lemma FocusHole(c: Ctx<Node>)
      requires Focus(c, Leaf)
      ensures Around(c, root, null)
    {
    }

    // ----- removal -----

    /** The place of a node. */
    lemma {:induction false} FindFocus(c: Ctx<Node>, t: Tree<Node>, node: Node) returns (c': Ctx<Node>, t': Tree<Node>)
      requires Focus(c, t) && node in Nodes(t) && HeapAround(c) && HeapProperty(t, Bound(c))
      ensures Focus(c', t') && t'.Branch? && t'.node == node && Plug(c', t') == Plug(c, t)
      ensures HeapBut(c', t'.left, t'.right) && NodesAround(c') + Nodes(t') == NodesAround(c) + Nodes(t)
      decreases t
    {
      var l, x, e, r := t.left, t.node, t.entry, t.right;
      assert t == Branch(l, x, e, r);
      if node == x {
        c', t' := c, t;
        HeapLower(l, Bound(c), e.priority);
        HeapLower(r, Bound(c), e.priority);
      } else if node in Nodes(l) {
        FocusLeft(c, l, x, e, r);
        HeapDown(c, l, x, e, r);
        c', t' := FindFocus(InLeft(c, x, e, r), l, node);
      } else {
        FocusRight(c, l, x, e, r);
        HeapDown(c, l, x, e, r);
        c', t' := FindFocus(InRight(c, l, x, e), r, node);
      }
    }

    /** Rotations move the node down until it is a leaf, the child of lower priority coming up. */
    method SinkDown(node: Node, ghost c0: Ctx<Node>, ghost t0: Tree<Node>) returns (ghost c: Ctx<Node>, ghost e: Entry)
      requires Focus(c0, t0) && t0.Branch? && t0.node == node && HeapBut(c0, t0.left, t0.right)
      modifies this`root, NodesAround(c0)`left, NodesAround(c0)`right, NodesAround(c0)`parent
      modifies Nodes(t0)`left, Nodes(t0)`right, Nodes(t0)`parent
      ensures Focus(c, Branch(Leaf, node, e, Leaf)) && HeapAround(c) && node.left == null && node.right == null
      ensures NodesAround(c) + {node} == NodesAround(c0) + Nodes(t0)
      ensures Flat(Plug(c, Branch(Leaf, node, e, Leaf))) == Flat(Plug(c0, t0))
    {
      hide *;
      ghost var l, r := t0.left, t0.right;
      ghost var all := NodesAround(c0) + Nodes(t0);
      e := t0.entry;
      c := c0;
      assert t0 == Branch(l, node, e, r);
      BranchNodes(l, node, e, r);
      FocusParts(c, l, node, e, r);
      while node.left != null || node.right != null
        invariant Focus(c, Branch(l, node, e, r)) && HeapBut(c, l, r)
        invariant NodesAround(c) + Nodes(l) + {node} + Nodes(r) == all
        invariant Flat(Plug(c, Branch(l, node, e, r))) == Flat(Plug(c0, t0))
        decreases Size(l) + Size(r)
      {
        FocusParts(c, l, node, e, r);
        Children(c, l, node, e, r);
        if node.right == null {
          c, l := SinkUnderLeft(node, c, l, e, r);
        } else if node.left == null {
          c, r := SinkUnderRight(node, c, l, e, r);
        } else if node.left.priority < node.right.priority {
          c, l := SinkUnderLeft(node, c, l, e, r);
        } else {
          c, r := SinkUnderRight(node, c, l, e, r);
        }
      }
      FocusParts(c, l, node, e, r);
      Children(c, l, node, e, r);
      BothLeaves(c, l, r);
    }

    /** rotateRight at the node: its left child comes up. */
    method SinkUnderLeft(node: Node, ghost c: Ctx<Node>, ghost l: Tree<Node>, ghost e: Entry, ghost r: Tree<Node>)
        returns (ghost c': Ctx<Node>, ghost l': Tree<Node>)
      requires Focus(c, Branch(l, node, e, r)) && HeapBut(c, l, r) && l.Branch?
      requires r.Branch? ==> l.entry.priority <= r.entry.priority
      modifies this`root, NodesAround(c)`left, NodesAround(c)`right, NodesAround(c)`parent
      modifies {node}`left, {node}`right, {node}`parent, Nodes(l)`left, Nodes(l)`right, Nodes(l)`parent
      ensures Focus(c', Branch(l', node, e, r)) && HeapBut(c', l', r) && Size(l') < Size(l)
      ensures NodesAround(c') + Nodes(l') == NodesAround(c) + Nodes(l)
      ensures Flat(Plug(c', Branch(l', node, e, r))) == Flat(Plug(c, Branch(l, node, e, r)))
    {
      hide *;
      assert l == Branch(l.left, l.node, l.entry, l.right);
      ghost var ll, x, f, lr := l.left, l.node, l.entry, l.right;
      BranchNodes(ll, x, f, lr);
      RotateRight(node, c, l, e, r);
      c', l' := InRight(c, ll, x, f), lr;
      FocusRight(c, ll, x, f, Branch(lr, node, e, r));
      UpNodes(c');
      Rotated(c, ll, x, f, lr, node, e, r);
      PlugRight(c, ll, x, f, Branch(lr, node, e, r));
      SinkRight(c, ll, x, f, lr, r);
      SizeLess(ll, x, f, lr);
    }

    method SinkUnderRight(node: Node, ghost c: Ctx<Node>, ghost l: Tree<Node>, ghost e: Entry, ghost r: Tree<Node>)
        returns (ghost c': Ctx<Node>, ghost r': Tree<Node>)
      requires Focus(c, Branch(l, node, e, r)) && HeapBut(c, l, r) && r.Branch?
      requires l.Branch? ==> r.entry.priority <= l.entry.priority
      modifies this`root, NodesAround(c)`left, NodesAround(c)`right, NodesAround(c)`parent
      modifies {node}`left, {node}`right, {node}`parent, Nodes(r)`left, Nodes(r)`right, Nodes(r)`parent
      ensures Focus(c', Branch(l, node, e, r')) && HeapBut(c', l, r') && Size(r') < Size(r)
      ensures NodesAround(c') + Nodes(r') == NodesAround(c) + Nodes(r)
      ensures Flat(Plug(c', Branch(l, node, e, r'))) == Flat(Plug(c, Branch(l, node, e, r)))
    {
      hide *;
      assert r == Branch(r.left, r.node, r.entry, r.right);
      ghost var rl, x, f, rr := r.left, r.node, r.entry, r.right;
      BranchNodes(rl, x, f, rr);
      RotateLeft(node, c, l, e, r);
      c', r' := InLeft(c, x, f, rr), rl;
      FocusLeft(c, Branch(l, node, e, rl), x, f, rr);
      UpNodes(c');
      Rotated(c, l, node, e, rl, x, f, rr);
      PlugLeft(c, x, f, rr, Branch(l, node, e, rl));
      SinkLeft(c, l, rl, x, f, rr);
      SizeLess(rl, x, f, rr);
    }

    /** The children of a node are the roots of its subtrees. */
    lemma Children(c: Ctx<Node>, l: Tree<Node>, x: Node, e: Entry, r: Tree<Node>)
      requires Focus(c, Branch(l, x, e, r))
      ensures x.left == null <==> l == Leaf
      ensures x.right == null <==> r == Leaf
      ensures l.Branch? ==> x.left == l.node && x.left.priority == l.entry.priority
      ensures r.Branch? ==> x.right == r.node && x.right.priority == r.entry.priority
      ensures (l == Leaf || l.Branch?) && (r == Leaf || r.Branch?)
    {
      FocusParts(c, l, x, e, r);
      RootIn(l, x.left, x);
      RootIn(r, x.right, x);
      RootHolds(l, x.left, x);
      RootHolds(r, x.right, x);
    }

    /** remove: exactly the given node goes. */
    method Remove(node: Node?) returns (r: Node?, ghost k: nat)
      requires Valid() && (node != null ==> node in Nodes(tree))
      modifies this, Nodes(tree)
      ensures r == node && Valid()
      ensures node == null ==> tree == old(tree)
      ensures node != null ==> Nodes(tree) == old(Nodes(tree)) - {node} && k < |old(Flat(tree))|
      ensures node != null ==> old(Flat(tree))[k].0 == node && Flat(tree) == Without(old(Flat(tree)), k)
    {
      hide *;
      k := 0;
      if node == null {
        return null, k;
      }
      ValidParts();
      FocusTop();
      DescentStart(tree, 0);
      ghost var c0, t0 := FindFocus(Hole, tree, node);
      PlugHole(tree);
      ghost var c, e := SinkDown(node, c0, t0);
      FocusParts(c, Leaf, node, e, Leaf);
      CtxAllocated(c);
      var parent := node.parent;
      LinkParent(node, parent, null, c);
      NoNodes();
      LeafShape(Above(c));
      FocusIntro(c, Leaf);
      Clipped(c, node, e);
      k := |Before(c)|;
      FocusAll(c, Leaf);
      HeapPlug(c, Leaf);
      tree := Plug(c, Leaf);
      ValidIntro();
      r := node;
    }

    // ----- lookup -----

    /** lookupGeq: a node of least key at or above the given one, or null if there is none. */
    method LookupGeq(key: int) returns (best: Node?, ghost k: nat)
      requires Valid()
      ensures best == null ==> AllBelow(Flat(tree), key)
      ensures best != null ==> LeastFrom(Flat(tree), k, key) && Flat(tree)[k].0 == best && best in Nodes(tree)
    {
      hide Shape, Around, Sorted, AllBelow, LeastFrom, BestAfter, Parted, HeapProperty, Flat, Before, After, Nodes, NodesAround, Focus;
      ghost var c, t := Hole, tree;
      ghost var f := Flat(tree);
      FocusTop();
      best, k := null, 0;
      var node := root;
      PartedTop(key);
      while node != null
        invariant Focus(c, t) && node == RootOf(t) && Plug(c, t) == tree && Parted(c, key - 1, key)
        invariant best == null <==> After(c) == []
        invariant best != null ==> BestAfter(c, f, k, key) && k < |f| && f[k].0 == best && f[k].1.key == best.key
        decreases t
      {
        ghost var l, x, e, r := t.left, t.node, t.entry, t.right;
        assert t == Branch(l, x, e, r);
        FocusLeft(c, l, x, e, r);
        FocusRight(c, l, x, e, r);
        AtNode(c, l, x, e, r);
        if key == node.key {
          k := |Before(c)| + |Flat(l)|;
          ExactIsLeast(f, k, key);
          InNodes(tree, k);
          return node, k;
        }
        if node.key < key {
          PartedRight(c, l, x, e, r, key - 1, key);
          KeepRight(c, l, x, e, f, k, key);
          c, t := InRight(c, l, x, e), r;
          node := node.right;
        } else {
          PartedLeft(c, l, x, e, r, key - 1, key);
          if best == null || best.key > node.key {
            BestNode(c, l, x, e, r, key);
            best, k := node, |Before(c)| + |Flat(l)|;
          } else {
            BestStays(c, l, x, e, r, k, key);
          }
          c, t := InLeft(c, x, e, r), l;
          node := node.left;
        }
      }
      assert t == Leaf;
      BestAtEnd(c, k, key);
      if best != null { InNodes(tree, k); }
    }
  }

  lemma LeafParts(c: Ctx<Node>, e: Entry)
    requires HeapAround(c)
    ensures HeapBut(c, Leaf, Leaf) && HeapProperty<Node>(Leaf, e.priority) && Nodes(Leaf) == {}
  {
  }

  lemma NotHole(c: Ctx<Node>)
    requires Above(c) != null
    ensures c != Hole && Above(c) == c.node && (c.InLeft? || c.InRight?)
  {
  }

  lemma NullAbove(c: Ctx<Node>)
    requires Above(c) == null
    ensures c == Hole
  {
  }

  lemma BranchNodes(l: Tree<Node>, x: Node, e: Entry, r: Tree<Node>)
    ensures Nodes(Branch(l, x, e, r)) == Nodes(l) + {x} + Nodes(r)
  {
  }

  lemma UpNodes(c: Ctx<Node>)
    requires c != Hole
    ensures c.InLeft? ==> NodesAround(c) == NodesAround(c.up) + {c.node} + Nodes(c.right)
    ensures c.InRight? ==> NodesAround(c) == NodesAround(c.up) + {c.node} + Nodes(c.left)
    ensures c.InLeft? ==> c == InLeft(c.up, c.node, c.entry, c.right)
    ensures c.InRight? ==> c == InRight(c.up, c.left, c.node, c.entry)
  {
  }

  lemma HoldsPriority(x: Node, e: Entry)
    requires Holds(x, e)
    ensures x.priority == e.priority && x.key == e.key && x.value == e.value
  {
  }

  lemma PlugLeft(up: Ctx<Node>, x: Node, e: Entry, r: Tree<Node>, t: Tree<Node>)
    ensures Plug(InLeft(up, x, e, r), t) == Plug(up, Branch(t, x, e, r))
  {
  }

  lemma PlugRight(up: Ctx<Node>, l: Tree<Node>, x: Node, e: Entry, t: Tree<Node>)
    ensures Plug(InRight(up, l, x, e), t) == Plug(up, Branch(l, x, e, t))
  {
  }

  /** When the loop ends the priorities are in order everywhere. */
  lemma SiftEnd(c: Ctx<Node>, l: Tree<Node>, x: Node, e: Entry, r: Tree<Node>)
    requires HeapBut(c, l, r) && HeapProperty(l, e.priority) && HeapProperty(r, e.priority)
    requires c != Hole ==> c.entry.priority <= e.priority
    ensures HeapAround(c) && HeapProperty(Branch(l, x, e, r), Bound(c))
    ensures Nodes(Branch(l, x, e, r)) == Nodes(l) + {x} + Nodes(r)
  {
  }

  lemma DescentStart(t: Tree<Node>, key: int)
    ensures Parted<Node>(Hole, key, key) && HeapAround<Node>(Hole) && Bound<Node>(Hole) == -1
    ensures NodesAround(Hole) == {} && Plug(Hole, t) == t
  {
  }

  lemma PlugHole(t: Tree<Node>)
    ensures Plug(Hole, t) == t && NodesAround(Hole) + Nodes(t) == Nodes(t)
  {
  }

  lemma NoNodes()
    ensures Nodes(Leaf) == {} && RootOf(Leaf) == null && HeapProperty<Node>(Leaf, -1)
  {
  }

  lemma LeafShape(parent: Node?)
    ensures Shape(Leaf, null, parent) && forall b: int :: HeapProperty<Node>(Leaf, b)
  {
  }

  lemma LeafIntro(n: Node, e: Entry, parent: Node?)
    requires n.left == null && n.right == null && n.parent == parent
    requires n.key == e.key && n.value == e.value && n.priority == e.priority
    ensures Shape(Branch(Leaf, n, e, Leaf), n, parent) && Nodes(Branch(Leaf, n, e, Leaf)) == {n}
    ensures RootOf(Branch(Leaf, n, e, Leaf)) == n
  {
  }

  lemma SizeLess(l: Tree<Node>, x: Node, e: Entry, r: Tree<Node>)
    ensures Size(l) < Size(Branch(l, x, e, r)) && Size(r) < Size(Branch(l, x, e, r))
  {
  }

  lemma BothLeaves(c: Ctx<Node>, l: Tree<Node>, r: Tree<Node>)
    requires HeapBut(c, l, r) && l == Leaf && r == Leaf
    ensures HeapAround(c) && Nodes(l) == {} && Nodes(r) == {}
  {
  }

  lemma PartedTop(key: int)
    ensures Parted<Node>(Hole, key - 1, key) && After<Node>(Hole) == []
  {
  }

  lemma ExactIsLeast(f: seq<(Node, Entry)>, k: nat, key: int)
    requires k < |f| && f[k].1.key == key
    ensures LeastFrom(f, k, key)
  {
  }

  lemma KeepRight(c: Ctx<Node>, l: Tree<Node>, x: Node, e: Entry, f: seq<(Node, Entry)>, k: nat, key: int)
    ensures BestAfter(c, f, k, key) ==> BestAfter(InRight(c, l, x, e), f, k, key)
  {
  }

  lemma {:induction false} InNodes(t: Tree<Node>, k: nat)
    requires k < |Flat(t)|
    ensures Flat(t)[k].0 in Nodes(t)
  {
    match t
    case Branch(l, x, e, r) =>
      if k < |Flat(l)| { InNodes(l, k); }
      else if k > |Flat(l)| { InNodes(r, k - |Flat(l)| - 1); }
  }

  lemma BranchParts(l: Tree<Node>, x: Node, e: Entry, r: Tree<Node>, n: Node?, parent: Node?)
    requires Shape(Branch(l, x, e, r), n, parent)
    ensures n == x && x.parent == parent && Holds(x, e) && x !in Nodes(l) && x !in Nodes(r) && Nodes(l) !! Nodes(r)
    ensures Shape(l, x.left, x) && Shape(r, x.right, x) && Nodes(Branch(l, x, e, r)) == Nodes(l) + {x} + Nodes(r)
  {
  }

  lemma BranchIntro(l: Tree<Node>, x: Node, e: Entry, r: Tree<Node>, parent: Node?)
    requires x.parent == parent && Holds(x, e) && x !in Nodes(l) && x !in Nodes(r) && Nodes(l) !! Nodes(r)
    requires Shape(l, x.left, x) && Shape(r, x.right, x)
    ensures Shape(Branch(l, x, e, r), x, parent) && Nodes(Branch(l, x, e, r)) == Nodes(l) + {x} + Nodes(r)
    ensures RootOf(Branch(l, x, e, r)) == x
  {
  }

  lemma RootIn(t: Tree<Node>, n: Node?, parent: Node?)
    requires Shape(t, n, parent)
    ensures n == RootOf(t) && (n != null ==> n in Nodes(t) && n.parent == parent)
  {
  }

  lemma RootHolds(t: Tree<Node>, n: Node?, parent: Node?)
    requires Shape(t, n, parent)
    ensures t.Branch? ==> n == t.node && n.priority == t.entry.priority
  {
  }

  /** Which link of the node above leads to a place. */
  lemma ParentIs(c: Ctx<Node>, root: Node?, sub: Node)
    requires Around(c, root, sub) && sub !in NodesAround(c)
    ensures c == Hole ==> root == sub
    ensures c.InLeft? ==> c.node.left == sub
    ensures c.InRight? ==> c.node.right == sub && c.node.left != sub
    ensures c != Hole ==> c.node in NodesAround(c) && Above(c) == c.node
  {
    if c.InRight? { RootIn(c.left, c.node.left, c.node); }
  }
}
