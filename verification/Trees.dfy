/** Binary trees with keys and priorities, seen whole or from one of their places: the values
    that the pointer structure of a treap stands for. */
module Trees {

  /** What a node holds besides its links. */
  datatype Entry = Entry(key: int, value: nat, priority: nat)

  datatype Tree<N> = Leaf | Branch(left: Tree<N>, node: N, entry: Entry, right: Tree<N>)

  /** The tree around one of its places, from the place upwards. */
  datatype Ctx<N> =
    | Hole
    | InLeft(up: Ctx<N>, node: N, entry: Entry, right: Tree<N>)
    | InRight(up: Ctx<N>, left: Tree<N>, node: N, entry: Entry)

  function Plug<N>(c: Ctx<N>, t: Tree<N>): Tree<N>
    decreases c
  {
    match c
    case Hole => t
    case InLeft(up, x, e, r) => Plug(up, Branch(t, x, e, r))
    case InRight(up, l, x, e) => Plug(up, Branch(l, x, e, t))
  }

  // ----- in order -----

  function Flat<N>(t: Tree<N>): seq<(N, Entry)> {
    match t
    case Leaf => []
    case Branch(l, x, e, r) => Flat(l) + [(x, e)] + Flat(r)
  }

  function Before<N>(c: Ctx<N>): seq<(N, Entry)> {
    match c
    case Hole => []
    case InLeft(up, x, e, r) => Before(up)
    case InRight(up, l, x, e) => Before(up) + Flat(l) + [(x, e)]
  }

  function After<N>(c: Ctx<N>): seq<(N, Entry)> {
    match c
    case Hole => []
    case InLeft(up, x, e, r) => [(x, e)] + Flat(r) + After(up)
    case InRight(up, l, x, e) => After(up)
  }

  lemma Regroup<T>(a: seq<T>, b: seq<T>, c: seq<T>, d: seq<T>, e: seq<T>)
    ensures a + (b + c + d) + e == a + b + (c + d + e) && a + (b + c + d) + e == (a + b + c) + d + e
  {
  }

  lemma {:induction false} FlatPlug<N>(c: Ctx<N>, t: Tree<N>)
    ensures Flat(Plug(c, t)) == Before(c) + Flat(t) + After(c)
    decreases c
  {
    match c
    case Hole =>
    case InLeft(up, x, e, r) =>
      FlatPlug(up, Branch(t, x, e, r));
      Regroup(Before(up), Flat(t), [(x, e)], Flat(r), After(up));
    case InRight(up, l, x, e) =>
      FlatPlug(up, Branch(l, x, e, t));
      Regroup(Before(up), Flat(l), [(x, e)], Flat(t), After(up));
  }

  ghost predicate Sorted<N>(s: seq<(N, Entry)>) {
    forall i, j | 0 <= i < j < |s| :: s[i].1.key <= s[j].1.key
  }

  /** bstProperty: every key of the subtree lies between the bounds, which may be reached from
      both sides. */
  predicate BstProperty<N>(t: Tree<N>, lbound: int, ubound: int) {
    match t
    case Leaf => true
    case Branch(l, x, e, r) =>
      lbound <= e.key <= ubound && BstProperty(l, lbound, e.key) && BstProperty(r, e.key, ubound)
  }

  ghost predicate Between<N>(s: seq<(N, Entry)>, lo: int, hi: int) {
    forall i | 0 <= i < |s| :: lo <= s[i].1.key <= hi
  }

  lemma SortedParts<N>(a: seq<(N, Entry)>, x: (N, Entry), b: seq<(N, Entry)>, lo: int, hi: int)
    ensures Sorted(a + [x] + b) && Between(a + [x] + b, lo, hi) <==>
      Sorted(a) && Sorted(b) && lo <= x.1.key <= hi && Between(a, lo, x.1.key) && Between(b, x.1.key, hi)
  {
    var s := a + [x] + b;
    if Sorted(s) && Between(s, lo, hi) {
      assert s[|a|] == x;
      assert forall i | 0 <= i < |a| :: a[i] == s[i];
      assert forall i | 0 <= i < |b| :: b[i] == s[|a| + 1 + i];
    }
    if Sorted(a) && Sorted(b) && lo <= x.1.key <= hi && Between(a, lo, x.1.key) && Between(b, x.1.key, hi) {
      forall i | 0 <= i < |s| ensures s[i] == if i < |a| then a[i] else if i == |a| then x else b[i - |a| - 1] {
      }
    }
  }

  /** The recursive check holds exactly of trees whose in-order sequence is sorted by key. */
  lemma {:induction false} BstIsSorted<N>(t: Tree<N>, lo: int, hi: int)
    ensures BstProperty(t, lo, hi) <==> Sorted(Flat(t)) && Between(Flat(t), lo, hi)
  {
    match t
    case Leaf =>
    case Branch(l, x, e, r) =>
      BstIsSorted(l, lo, e.key);
      BstIsSorted(r, e.key, hi);
      SortedParts(Flat(l), (x, e), Flat(r), lo, hi);
  }

  // ----- priorities -----

  /** heapProperty: priorities do not fall on the way down. */
  predicate HeapProperty<N>(t: Tree<N>, lbound: int) {
    match t
    case Leaf => true
    case Branch(l, x, e, r) => lbound <= e.priority && HeapProperty(l, e.priority) && HeapProperty(r, e.priority)
  }

  /** The priority above a place. */
  function Bound<N>(c: Ctx<N>): int {
    if c == Hole then -1 else c.entry.priority
  }

  ghost predicate HeapAround<N>(c: Ctx<N>) {
    match c
    case Hole => true
    case InLeft(up, x, e, r) => HeapProperty(r, e.priority) && Bound(up) <= e.priority && HeapAround(up)
    case InRight(up, l, x, e) => HeapProperty(l, e.priority) && Bound(up) <= e.priority && HeapAround(up)
  }

  lemma {:induction false} HeapPlug<N>(c: Ctx<N>, t: Tree<N>)
    requires HeapAround(c) && HeapProperty(t, Bound(c))
    ensures HeapProperty(Plug(c, t), -1)
    decreases c
  {
    match c
    case Hole =>
    case InLeft(up, x, e, r) => HeapPlug(up, Branch(t, x, e, r));
    case InRight(up, l, x, e) => HeapPlug(up, Branch(l, x, e, t));
  }

  lemma HeapLower<N>(t: Tree<N>, lo: int, hi: int)
    requires HeapProperty(t, hi) && lo <= hi
    ensures HeapProperty(t, lo)
  {
  }

  function Size<N>(t: Tree<N>): nat {
    match t
    case Leaf => 0
    case Branch(l, x, e, r) => Size(l) + 1 + Size(r)
  }

  // ----- removal and insertion, as sequences -----

  function Without<N>(s: seq<(N, Entry)>, k: nat): seq<(N, Entry)>
    requires k < |s|
  {
    s[..k] + s[k + 1..]
  }

  lemma SortedWithout<N>(s: seq<(N, Entry)>, k: nat)
    requires Sorted(s) && k < |s|
    ensures Sorted(Without(s, k))
  {
    var r := Without(s, k);
    forall i, j | 0 <= i < j < |r| ensures r[i].1.key <= r[j].1.key {
      assert r[i] == s[if i < k then i else i + 1] && r[j] == s[if j < k then j else j + 1];
    }
  }

  lemma SortedWith<N>(a: seq<(N, Entry)>, x: (N, Entry), b: seq<(N, Entry)>)
    requires Sorted(a + b) && (forall i | 0 <= i < |a| :: a[i].1.key <= x.1.key) && (forall i | 0 <= i < |b| :: x.1.key <= b[i].1.key)
    ensures Sorted(a + [x] + b)
  {
    var s := a + [x] + b;
    var t := a + b;
    forall i, j | 0 <= i < j < |s| ensures s[i].1.key <= s[j].1.key {
      if i != |a| && j != |a| {
        assert s[i] == t[if i < |a| then i else i - 1] && s[j] == t[if j < |a| then j else j - 1];
      }
    }
  }

  /** Where the node at the root of a part stands in the whole, and what its neighbours are. */
  lemma AtNode<N>(c: Ctx<N>, l: Tree<N>, x: N, e: Entry, r: Tree<N>)
    requires Sorted(Flat(Plug(c, Branch(l, x, e, r))))
    ensures var f, k := Flat(Plug(c, Branch(l, x, e, r))), |Before(c)| + |Flat(l)|;
            k < |f| && f[k] == (x, e)
    ensures forall i | 0 <= i < |Before(InRight(c, l, x, e))| :: Before(InRight(c, l, x, e))[i].1.key <= e.key
    ensures forall i | 0 <= i < |After(InLeft(c, x, e, r))| :: e.key <= After(InLeft(c, x, e, r))[i].1.key
  {
    FlatPlug(c, Branch(l, x, e, r));
    var f, k := Flat(Plug(c, Branch(l, x, e, r))), |Before(c)| + |Flat(l)|;
    var b, a := Before(InRight(c, l, x, e)), After(InLeft(c, x, e, r));
    Regroup(Before(c), Flat(l), [(x, e)], Flat(r), After(c));
    assert f == b + Flat(r) + After(c) && f == Before(c) + Flat(l) + a;
    assert f[k] == (x, e);
    forall i | 0 <= i < |b| ensures b[i].1.key <= e.key {
      assert f[i] == b[i] && i <= k;
    }
    forall i | 0 <= i < |a| ensures e.key <= a[i].1.key {
      assert f[k + i] == a[i];
    }
  }

  /** All keys before the place are at most lo, all keys after it at least hi. */
  ghost predicate Parted<N>(c: Ctx<N>, lo: int, hi: int) {
    && (forall i | 0 <= i < |Before(c)| :: Before(c)[i].1.key <= lo)
    && (forall i | 0 <= i < |After(c)| :: hi <= After(c)[i].1.key)
  }

  lemma PartedRight<N>(c: Ctx<N>, l: Tree<N>, x: N, e: Entry, r: Tree<N>, lo: int, hi: int)
    requires Parted(c, lo, hi) && Sorted(Flat(Plug(c, Branch(l, x, e, r)))) && e.key <= lo
    ensures Parted(InRight(c, l, x, e), lo, hi) && Plug(InRight(c, l, x, e), r) == Plug(c, Branch(l, x, e, r))
    ensures After(InRight(c, l, x, e)) == After(c)
  {
    AtNode(c, l, x, e, r);
  }

  lemma PartedLeft<N>(c: Ctx<N>, l: Tree<N>, x: N, e: Entry, r: Tree<N>, lo: int, hi: int)
    requires Parted(c, lo, hi) && Sorted(Flat(Plug(c, Branch(l, x, e, r)))) && hi <= e.key
    ensures Parted(InLeft(c, x, e, r), lo, hi) && Plug(InLeft(c, x, e, r), l) == Plug(c, Branch(l, x, e, r))
    ensures After(InLeft(c, x, e, r)) != []
  {
    AtNode(c, l, x, e, r);
  }

  /** The k-th node in key order has the least key at or above a given one. */
  ghost predicate LeastFrom<N>(s: seq<(N, Entry)>, k: nat, key: int) {
    k < |s| && s[k].1.key >= key && forall i | 0 <= i < |s| && s[i].1.key >= key :: s[k].1.key <= s[i].1.key
  }

  ghost predicate AllBelow<N>(s: seq<(N, Entry)>, key: int) {
    forall i | 0 <= i < |s| :: s[i].1.key < key
  }

  /** The k-th node is as good as everything after the place. */
  ghost predicate BestAfter<N>(c: Ctx<N>, s: seq<(N, Entry)>, k: nat, key: int) {
    k < |s| && s[k].1.key >= key && forall i | 0 <= i < |After(c)| :: s[k].1.key <= After(c)[i].1.key
  }

  lemma BestNode<N>(c: Ctx<N>, l: Tree<N>, x: N, e: Entry, r: Tree<N>, key: int)
    requires Sorted(Flat(Plug(c, Branch(l, x, e, r)))) && e.key >= key
    ensures BestAfter(InLeft(c, x, e, r), Flat(Plug(c, Branch(l, x, e, r))), |Before(c)| + |Flat(l)|, key)
  {
    AtNode(c, l, x, e, r);
  }

  lemma BestStays<N>(c: Ctx<N>, l: Tree<N>, x: N, e: Entry, r: Tree<N>, k: nat, key: int)
    requires Sorted(Flat(Plug(c, Branch(l, x, e, r)))) && BestAfter(c, Flat(Plug(c, Branch(l, x, e, r))), k, key)
    requires Flat(Plug(c, Branch(l, x, e, r)))[k].1.key <= e.key
    ensures BestAfter(InLeft(c, x, e, r), Flat(Plug(c, Branch(l, x, e, r))), k, key)
  {
    AtNode(c, l, x, e, r);
  }

  lemma BestAtEnd<N>(c: Ctx<N>, k: nat, key: int)
    requires Parted(c, key - 1, key)
    ensures BestAfter(c, Flat(Plug(c, Leaf)), k, key) ==> LeastFrom(Flat(Plug(c, Leaf)), k, key)
    ensures After(c) == [] ==> AllBelow(Flat(Plug(c, Leaf)), key)
  {
    FlatPlug(c, Leaf);
    var f := Flat(Plug(c, Leaf));
    assert f == Before(c) + After(c);
    assert forall i | 0 <= i < |Before(c)| :: f[i] == Before(c)[i];
    assert forall i | |Before(c)| <= i < |f| :: f[i] == After(c)[i - |Before(c)|];
  }

  // ----- steps of insertion and removal -----

  lemma HeapDown<N>(c: Ctx<N>, l: Tree<N>, x: N, e: Entry, r: Tree<N>)
    requires HeapAround(c) && HeapProperty(Branch(l, x, e, r), Bound(c))
    ensures HeapAround(InLeft(c, x, e, r)) && HeapProperty(l, Bound(InLeft(c, x, e, r)))
    ensures HeapAround(InRight(c, l, x, e)) && HeapProperty(r, Bound(InRight(c, l, x, e)))
  {
  }

  /** A rotation does not change the order of the keys. */
  lemma Rotated<N>(c: Ctx<N>, l: Tree<N>, x: N, e: Entry, m: Tree<N>, y: N, f: Entry, r: Tree<N>)
    ensures Flat(Plug(c, Branch(Branch(l, x, e, m), y, f, r))) == Flat(Plug(c, Branch(l, x, e, Branch(m, y, f, r))))
  {
    FlatPlug(c, Branch(Branch(l, x, e, m), y, f, r));
    FlatPlug(c, Branch(l, x, e, Branch(m, y, f, r)));
    RotatedFlat(l, x, e, m, y, f, r);
    hide *;
  }

  lemma RotatedFlat<N>(l: Tree<N>, x: N, e: Entry, m: Tree<N>, y: N, f: Entry, r: Tree<N>)
    ensures Flat(Branch(Branch(l, x, e, m), y, f, r)) == Flat(Branch(l, x, e, Branch(m, y, f, r)))
  {
    Regroup(Flat(l), [(x, e)], Flat(m), [(y, f)], Flat(r));
    Joined(Flat(l) + [(x, e)], Flat(m), [(y, f)], Flat(r));
  }

  lemma Joined<T>(a: seq<T>, b: seq<T>, c: seq<T>, d: seq<T>)
    ensures a + b + c + d == a + (b + c + d)
  {
  }

  /** The order of priorities around a part whose root may be too low or too high. */
  ghost predicate HeapBut<N>(c: Ctx<N>, l: Tree<N>, r: Tree<N>) {
    HeapAround(c) && HeapProperty(l, Bound(c)) && HeapProperty(r, Bound(c))
  }

  lemma RiseLeft<N>(up: Ctx<N>, x: N, f: Entry, rr: Tree<N>, l: Tree<N>, e: Entry, r: Tree<N>)
    requires HeapBut(InLeft(up, x, f, rr), l, r) && f.priority > e.priority
    ensures HeapBut(up, l, Branch(r, x, f, rr)) && HeapProperty(Branch(r, x, f, rr), e.priority)
  {
    HeapLower(l, Bound(up), f.priority);
  }

  lemma RiseRight<N>(up: Ctx<N>, ll: Tree<N>, x: N, f: Entry, l: Tree<N>, e: Entry, r: Tree<N>)
    requires HeapBut(InRight(up, ll, x, f), l, r) && f.priority > e.priority
    ensures HeapBut(up, Branch(ll, x, f, l), r) && HeapProperty(Branch(ll, x, f, l), e.priority)
  {
    HeapLower(r, Bound(up), f.priority);
  }

  /** A child of lower or equal priority may come up. */
  lemma SinkRight<N>(c: Ctx<N>, ll: Tree<N>, x: N, f: Entry, lr: Tree<N>, r: Tree<N>)
    requires HeapBut(c, Branch(ll, x, f, lr), r) && (r.Branch? ==> f.priority <= r.entry.priority)
    ensures HeapBut(InRight(c, ll, x, f), lr, r)
  {
  }

  lemma SinkLeft<N>(c: Ctx<N>, l: Tree<N>, rl: Tree<N>, x: N, f: Entry, rr: Tree<N>)
    requires HeapBut(c, l, Branch(rl, x, f, rr)) && (l.Branch? ==> f.priority <= l.entry.priority)
    ensures HeapBut(InLeft(c, x, f, rr), l, rl)
  {
  }

  /** A node put at an empty place whose neighbours allow it. */
  lemma Inserted<N>(c: Ctx<N>, x: N, e: Entry)
    requires Sorted(Flat(Plug(c, Leaf))) && Parted(c, e.key, e.key)
    ensures var f, k := Flat(Plug(c, Leaf)), |Before(c)|;
            k <= |f| && Flat(Plug(c, Branch(Leaf, x, e, Leaf))) == f[..k] + [(x, e)] + f[k..]
            && Sorted(Flat(Plug(c, Branch(Leaf, x, e, Leaf))))
  {
    FlatPlug(c, Leaf);
    FlatPlug(c, Branch(Leaf, x, e, Leaf));
    assert Flat(Branch(Leaf, x, e, Leaf)) == [(x, e)];
    assert Flat(Plug(c, Leaf)) == Before(c) + After(c);
    SortedWith(Before(c), (x, e), After(c));
  }

  /** A leaf clipped off. */
  lemma Clipped<N>(c: Ctx<N>, x: N, e: Entry)
    requires Sorted(Flat(Plug(c, Branch(Leaf, x, e, Leaf))))
    ensures var f, k := Flat(Plug(c, Branch(Leaf, x, e, Leaf))), |Before(c)|;
            k < |f| && f[k] == (x, e) && Flat(Plug(c, Leaf)) == Without(f, k) && Sorted(Flat(Plug(c, Leaf)))
  {
    FlatPlug(c, Leaf);
    FlatPlug(c, Branch(Leaf, x, e, Leaf));
    assert Flat(Branch(Leaf, x, e, Leaf)) == [(x, e)];
    SortedWithout(Flat(Plug(c, Branch(Leaf, x, e, Leaf))), |Before(c)|);
  }
}
