/** A heap that keeps freed blocks in a treap by size and reuses the smallest that fits. */
module CartesianHeaps {
  import opened Trees
  import opened Treaps

  /** sizeof(Node) with 32-bit words: every block is at least this large. */
  const NODE_SIZE: nat := 24

  function Rounded(sz: nat): nat {
    if sz < NODE_SIZE then NODE_SIZE else sz
  }

  /** The freed blocks are filed under their own sizes, addresses and nodes. */
  ghost predicate Filed(s: seq<(Node, Entry)>) {
    forall k | 0 <= k < |s| :: s[k].1 == Entry(s[k].0.size, s[k].0.address, s[k].0.address)
  }

  lemma {:induction false} InFlat(t: Tree<Node>, x: Node) returns (k: nat)
    requires x in Nodes(t)
    ensures k < |Flat(t)| && Flat(t)[k].0 == x
  {
    match t
    case Branch(l, y, e, r) =>
      if x == y {
        k := |Flat(l)|;
      } else if x in Nodes(l) {
        k := InFlat(l, x);
      } else {
        k := InFlat(r, x);
        k := |Flat(l)| + 1 + k;
      }
  }

  /** x is a smallest of the blocks that are large enough. */
  ghost predicate BestBlock(pool: set<Node>, x: Node, sz: nat) {
    x in pool && x.size >= sz && forall y | y in pool && y.size >= sz :: x.size <= y.size
  }

  class CartesianHeap {
    const treap: Treap

    ghost predicate Valid()
      reads this, treap, Nodes(treap.tree)
    {
      treap.Valid() && Filed(Flat(treap.tree)) && forall x | x in Nodes(treap.tree) :: x.size >= NODE_SIZE
    }

    ghost function Pool(): set<Node>
      reads this, treap
    {
      Nodes(treap.tree)
    }

    constructor ()
      ensures Valid() && Pool() == {}
    {
      treap := new Treap();
    }

    /** malloc(): the smallest freed block that fits leaves the pool; only if there is none
        does the heap below give a new one, at the given address, of the size asked for but
        never too small for a node. */
    method Malloc(sz: nat, address: nat) returns (block: Node)
      requires Valid()
      modifies this, treap, Nodes(treap.tree)
      ensures Valid() && block.size >= sz && block !in Pool()
      ensures old(exists x :: x in Pool() && x.size >= sz) ==>
        BestBlock(old(Pool()), block, sz) && Pool() == old(Pool()) - {block}
      ensures !old(exists x :: x in Pool() && x.size >= sz) ==>
        fresh(block) && block.address == address && Pool() == old(Pool())
        && block.size == if sz < 24 then 24 else sz
    {
      TreeAllocated(treap.tree);
      var rounded := Rounded(sz);
      ghost var f := Flat(treap.tree);
      var n, k := treap.LookupGeq(rounded);
      if n != null {
        LeastIsBest(treap.tree, k, n, rounded);
        assert n in Pool() && n.size >= sz;
        var _, j := treap.Remove(n);
        StillFiled(f, j);
        block := n;
      } else {
        NoneFits(treap.tree, rounded);
        block := new Node(address, rounded);
      }
    }

    /** free(): the block joins the pool. */
    method Free(block: Node)
      requires Valid() && block !in Pool() && block.address != 0 && block.size >= NODE_SIZE
      modifies this, treap, block, Nodes(treap.tree)
      ensures Valid() && Pool() == old(Pool()) + {block}
    {
      ghost var f := Flat(treap.tree);
      ghost var k := treap.Insert(block, block.size, block.address, block.address);
      AlsoFiled(f, k, block);
    }

    /** Takes a given block out of the pool. */
    method Remove(block: Node)
      requires Valid() && block in Pool()
      modifies this, treap, Nodes(treap.tree)
      ensures Valid() && Pool() == old(Pool()) - {block}
    {
      ghost var f := Flat(treap.tree);
      var _, k := treap.Remove(block);
      StillFiled(f, k);
    }
  }

  lemma LeastIsBest(t: Tree<Node>, k: nat, n: Node, sz: nat)
    requires Filed(Flat(t)) && LeastFrom(Flat(t), k, sz) && Flat(t)[k].0 == n && n in Nodes(t)
    ensures BestBlock(Nodes(t), n, sz)
  {
    forall y | y in Nodes(t) && y.size >= sz ensures n.size <= y.size {
      var i := InFlat(t, y);
    }
  }

  lemma NoneFits(t: Tree<Node>, sz: nat)
    requires Filed(Flat(t)) && AllBelow(Flat(t), sz)
    ensures forall y | y in Nodes(t) :: y.size < sz
  {
    forall y | y in Nodes(t) ensures y.size < sz {
      var i := InFlat(t, y);
    }
  }

  lemma StillFiled(f: seq<(Node, Entry)>, k: nat)
    requires Filed(f) && k < |f|
    ensures Filed(Without(f, k))
  {
  }

  lemma AlsoFiled(f: seq<(Node, Entry)>, k: nat, x: Node)
    requires Filed(f) && k <= |f|
    ensures Filed(f[..k] + [(x, Entry(x.size, x.address, x.address))] + f[k..])
  {
  }
}
