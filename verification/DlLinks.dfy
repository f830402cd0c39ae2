/** The lists of the allocator in memory words: circular doubly linked bins around their
    headers, and singly linked fastbins. */
module DlLinks {
  import opened DlSizes
  import opened DlHeap
  import opened DlTags

  // ----- one circular list -----

  /** The k-th node of a bin's circle: the header, its chunks, and the header again. */
  function Node(i: nat, s: seq<Addr>, k: nat): Addr
    requires k <= |s| + 1
  {
    if k == 0 || k == |s| + 1 then BinAt(i) else s[k - 1]
  }

  ghost predicate LinkedAt(m: Words, i: nat, s: seq<Addr>, k: nat)
    requires k <= |s|
  {
    Fd(m, Node(i, s, k)) == Node(i, s, k + 1) && Bk(m, Node(i, s, k + 1)) == Node(i, s, k)
  }

  ghost predicate Linked(m: Words, i: nat, s: seq<Addr>) {
    forall k | 0 <= k <= |s| :: LinkedAt(m, i, s, k)
  }

  /** Distinct aligned nodes above the headers. */
  ghost predicate Nodes(i: nat, s: seq<Addr>) {
    && i < NBINS && NoDup(s)
    && forall k | 0 <= k < |s| :: s[k] % 8 == 0 && LOW <= s[k]
  }

  lemma NodesApart(i: nat, s: seq<Addr>, j: nat, k: nat)
    requires Nodes(i, s) && j <= |s| && k <= |s| && j != k
    ensures Node(i, s, j) != Node(i, s, k)
  {
  }

  lemma NodeAligned(i: nat, s: seq<Addr>, k: nat)
    requires Nodes(i, s) && k <= |s| + 1
    ensures Node(i, s, k) % 8 == 0
  {
  }

  /** unlink(P, BK, FD). */
  function Unlinked(m: Words, p: Addr): Words {
    var fd, bk := Fd(m, p), Bk(m, p);
    m[fd + 12 := bk][bk + 8 := fd]
  }

  lemma RemovedNode(i: nat, s: seq<Addr>, k: nat, j: nat)
    requires k < |s| && j <= |s|
    ensures Node(i, RemoveAt(s, k), j) == Node(i, s, if j <= k then j else j + 1)
  {
  }

  lemma UnlinkedReads(m: Words, p: Addr, x: Addr)
    requires x % 8 == 0 && Fd(m, p) % 8 == 0 && Bk(m, p) % 8 == 0
    ensures Fd(Unlinked(m, p), x) == if x == Bk(m, p) then Fd(m, p) else Fd(m, x)
    ensures Bk(Unlinked(m, p), x) == if x == Fd(m, p) then Bk(m, p) else Bk(m, x)
  {
  }

  /** Two positions of the circle hold the same node only if both are the header's. */
  lemma SameNode(i: nat, s: seq<Addr>, j: nat, k: nat)
    requires Nodes(i, s) && 1 <= j <= |s| + 1 && 1 <= k <= |s| + 1 && Node(i, s, j) == Node(i, s, k)
    ensures j == k
  {
  }

  lemma UnlinkAt(m: Words, i: nat, s: seq<Addr>, k: nat, j: nat)
    requires Linked(m, i, s) && Nodes(i, s) && k < |s| && j < |s|
    ensures LinkedAt(Unlinked(m, s[k]), i, RemoveAt(s, k), j)
  {
    hide Nodes, NoDup, Unlinked;
    RemovedNode(i, s, k, j);
    RemovedNode(i, s, k, j + 1);
    Neighbours(m, i, s, k);
    var l := if j < k then j else j + 1;
    NodeAligned(i, s, k);
    NodeAligned(i, s, k + 2);
    NodeAligned(i, s, if j <= k then j else j + 1);
    NodeAligned(i, s, if j + 1 <= k then j + 1 else j + 2);
    UnlinkedReads(m, s[k], Node(i, s, if j <= k then j else j + 1));
    UnlinkedReads(m, s[k], Node(i, s, if j + 1 <= k then j + 1 else j + 2));
    if j != k {
      assert LinkedAt(m, i, s, l);
      NodesApart(i, s, l, k);
      if Node(i, s, l + 1) == Node(i, s, k + 2) { SameNode(i, s, l + 1, k + 2); }
    }
  }

  /** Taking any chunk out of the middle of its list by its own links leaves the list of
      the others. */
  lemma UnlinkLinked(m: Words, i: nat, s: seq<Addr>, k: nat)
    requires Linked(m, i, s) && Nodes(i, s) && k < |s|
    ensures Linked(Unlinked(m, s[k]), i, RemoveAt(s, k))
  {
    forall j | 0 <= j <= |s| - 1 ensures LinkedAt(Unlinked(m, s[k]), i, RemoveAt(s, k), j) {
      UnlinkAt(m, i, s, k, j);
    }
  }

  /** victim->bk = bck; victim->fd = fwd; fwd->bk = victim; bck->fd = victim. */
  function LinkedIn(m: Words, p: Addr, bck: Addr, fwd: Addr): Words {
    m[p + 12 := bck][p + 8 := fwd][fwd + 12 := p][bck + 8 := p]
  }

  lemma InsertedNode(i: nat, s: seq<Addr>, k: nat, p: Addr, j: nat)
    requires k <= |s| && j <= |s| + 2
    ensures Node(i, InsertAt(s, k, p), j) == if j <= k then Node(i, s, j) else if j == k + 1 then p else Node(i, s, j - 1)
  {
  }

  lemma LinkedInReads(m: Words, p: Addr, bck: Addr, fwd: Addr, x: Addr)
    requires x % 8 == 0 && p % 8 == 0 && bck % 8 == 0 && fwd % 8 == 0 && p != bck && p != fwd
    ensures Fd(LinkedIn(m, p, bck, fwd), x) == if x == bck then p else if x == p then fwd else Fd(m, x)
    ensures Bk(LinkedIn(m, p, bck, fwd), x) == if x == fwd then p else if x == p then bck else Bk(m, x)
  {
  }

  lemma NewNode(i: nat, s: seq<Addr>, p: Addr, k: nat)
    requires Nodes(i, s) && LOW <= p && p !in s && k <= |s| + 1
    ensures Node(i, s, k) != p
  {
  }

  lemma LinkAt(m: Words, i: nat, s: seq<Addr>, k: nat, p: Addr, j: nat)
    requires Linked(m, i, s) && Nodes(i, s) && k <= |s| && p % 8 == 0 && LOW <= p && p !in s && j <= |s| + 1
    ensures LinkedAt(LinkedIn(m, p, Node(i, s, k), Node(i, s, k + 1)), i, InsertAt(s, k, p), j)
  {
    hide Nodes, NoDup, LinkedIn;
    InsertedNode(i, s, k, p, j);
    InsertedNode(i, s, k, p, j + 1);
    var bck, fwd := Node(i, s, k), Node(i, s, k + 1);
    var x, y := Node(i, InsertAt(s, k, p), j), Node(i, InsertAt(s, k, p), j + 1);
    NodeAligned(i, s, k);
    NodeAligned(i, s, k + 1);
    NewNode(i, s, p, k);
    NewNode(i, s, p, k + 1);
    if j != k && j != k + 1 {
      var l := if j < k then j else j - 1;
      assert x == Node(i, s, l) && y == Node(i, s, l + 1);
      assert LinkedAt(m, i, s, l);
      NodeAligned(i, s, l);
      NodeAligned(i, s, l + 1);
      NewNode(i, s, p, l);
      NewNode(i, s, p, l + 1);
      NodesApart(i, s, l, k);
      if y == fwd { SameNode(i, s, l + 1, k + 1); }
    }
    LinkedInReads(m, p, bck, fwd, x);
    LinkedInReads(m, p, bck, fwd, y);
  }

  lemma LinkLinked(m: Words, i: nat, s: seq<Addr>, k: nat, p: Addr)
    requires Linked(m, i, s) && Nodes(i, s) && k <= |s| && p % 8 == 0 && LOW <= p && p !in s
    ensures Linked(LinkedIn(m, p, Node(i, s, k), Node(i, s, k + 1)), i, InsertAt(s, k, p))
  {
    var n, t := LinkedIn(m, p, Node(i, s, k), Node(i, s, k + 1)), InsertAt(s, k, p);
    forall j | 0 <= j <= |t| ensures LinkedAt(n, i, t, j) {
      LinkAt(m, i, s, k, p, j);
    }
  }

  /** unsorted->bk = unsorted->fd = remainder; remainder->bk = remainder->fd = unsorted. */
  function LinkedAlone(m: Words, i: nat, p: Addr): Words {
    m[BinAt(i) + 12 := p][BinAt(i) + 8 := p][p + 12 := BinAt(i)][p + 8 := BinAt(i)]
  }

  /** Overwriting both links of a header makes a one-chunk list, whatever was there. */
  lemma AloneLinked(m: Words, i: nat, p: Addr)
    requires i < NBINS && p % 8 == 0 && LOW <= p
    ensures Linked(LinkedAlone(m, i, p), i, [p])
  {
  }

  /** first(b) and last(b). */
  lemma Ends(m: Words, i: nat, s: seq<Addr>)
    requires Linked(m, i, s)
    ensures Fd(m, BinAt(i)) == (if s == [] then BinAt(i) else s[0])
    ensures Bk(m, BinAt(i)) == (if s == [] then BinAt(i) else s[|s| - 1])
  {
    assert LinkedAt(m, i, s, 0) && LinkedAt(m, i, s, |s|);
  }

  lemma Neighbours(m: Words, i: nat, s: seq<Addr>, k: nat)
    requires Linked(m, i, s) && k < |s|
    ensures Fd(m, s[k]) == Node(i, s, k + 2) && Bk(m, s[k]) == Node(i, s, k)
  {
    assert LinkedAt(m, i, s, k) && LinkedAt(m, i, s, k + 1);
  }

  lemma LinkedSame(m: Words, n: Words, i: nat, s: seq<Addr>)
    requires Linked(m, i, s)
    requires forall k | 0 <= k <= |s| + 1 ::
      Fd(n, Node(i, s, k)) == Fd(m, Node(i, s, k)) && Bk(n, Node(i, s, k)) == Bk(m, Node(i, s, k))
    ensures Linked(n, i, s)
  {
    forall k | 0 <= k <= |s| ensures LinkedAt(n, i, s, k) {
      assert LinkedAt(m, i, s, k);
    }
  }

  // ----- one fastbin -----

  function Next(s: seq<Addr>, k: nat): Addr {
    if k < |s| then s[k] else 0
  }

  ghost predicate Chained(m: Words, head: Addr, s: seq<Addr>) {
    head == Next(s, 0) && forall k | 0 <= k < |s| :: Fd(m, s[k]) == Next(s, k + 1)
  }

  // ----- all lists -----

  /** Bin 0 does not exist: what would be its last link stays zero, and serves as the size of
      the unsorted header when that stands in for top.  While `open`, the links of the
      unsorted bin's header are stale and about to be overwritten. */
  ghost predicate AllLinked(m: Words, lists: seq<seq<Addr>>, open: bool)
    requires |lists| == LISTS
  {
    Bk(m, BinAt(0)) == 0 && forall i | (if open then 2 else 1) <= i < NBINS :: Linked(m, i, lists[i])
  }

  ghost predicate AllChained(m: Words, fastbins: seq<Addr>, lists: seq<seq<Addr>>)
    requires |lists| == LISTS
  {
    |fastbins| == NFASTBINS && forall i | 0 <= i < NFASTBINS :: Chained(m, fastbins[i], lists[NBINS + i])
  }

  /** Memories that agree on the links of all chunks in lists and on all headers. */
  ghost predicate SameLinks(m: Words, n: Words, chunks: Chunks) {
    && (forall x {:trigger x in chunks} | x in chunks && chunks[x].state.Binned? ::
          n[x + 8] == m[x + 8] && n[x + 12] == m[x + 12])
    && (forall w: int | w < LOW :: n[w] == m[w])
  }

  lemma ListNodes(chunks: Chunks, lists: seq<seq<Addr>>, i: nat)
    requires Shapes(chunks) && Listed(chunks, lists) && 1 <= i < NBINS
    ensures Nodes(i, lists[i])
  {
    assert ListOk(chunks, i, lists[i]);
    forall k | 0 <= k < |lists[i]| ensures lists[i][k] % 8 == 0 && LOW <= lists[i][k] {
      assert Shaped(lists[i][k], chunks[lists[i][k]]);
    }
  }

  lemma AllLinkedSame(m: Words, n: Words, chunks: Chunks, lists: seq<seq<Addr>>, open: bool)
    requires Listed(chunks, lists) && AllLinked(m, lists, open) && SameLinks(m, n, chunks)
    ensures AllLinked(n, lists, open)
  {
    forall i | (if open then 2 else 1) <= i < NBINS ensures Linked(n, i, lists[i]) {
      assert ListOk(chunks, i, lists[i]);
      LinkedSame(m, n, i, lists[i]);
    }
  }

  lemma AllChainedSame(m: Words, n: Words, chunks: Chunks, fastbins: seq<Addr>, lists: seq<seq<Addr>>)
    requires Listed(chunks, lists) && AllChained(m, fastbins, lists) && SameLinks(m, n, chunks)
    ensures AllChained(n, fastbins, lists)
  {
    forall i | 0 <= i < NFASTBINS ensures Chained(n, fastbins[i], lists[NBINS + i]) {
      assert ListOk(chunks, NBINS + i, lists[NBINS + i]);
      assert Chained(m, fastbins[i], lists[NBINS + i]);
    }
  }

  // ----- changing one list -----

  /** Memories that agree on the links of every list but the i-th. */
  ghost predicate SameLinksBut(m: Words, n: Words, chunks: Chunks, i: nat) {
    && (forall x {:trigger x in chunks} | x in chunks && chunks[x].state.Binned? && chunks[x].state.bin != i ::
          n[x + 8] == m[x + 8] && n[x + 12] == m[x + 12])
    && (forall j: nat {:trigger BinAt(j)} | j < NBINS && j != i ::
          n[BinAt(j) + 8] == m[BinAt(j) + 8] && n[BinAt(j) + 12] == m[BinAt(j) + 12])
  }

  /** A node whose links belong to the i-th list, or to none. */
  ghost predicate Ours(chunks: Chunks, i: nat, y: Addr) {
    || y == BinAt(i)
    || (y in chunks && (chunks[y].state == Loose || chunks[y].state == Binned(i)))
  }

  lemma LinkWriteBut(m: Words, chunks: Chunks, i: nat, y: Addr, w: int, v: int)
    requires Shapes(chunks) && Ours(chunks, i, y) && i < NBINS && (w == y + 8 || w == y + 12)
    ensures SameLinksBut(m, m[w := v], chunks, i)
  {
    assert y in chunks ==> Shaped(y, chunks[y]);
    forall x | x in chunks && chunks[x].state.Binned? && chunks[x].state.bin != i
      ensures w != x + 8 && w != x + 12
    {
      assert Shaped(x, chunks[x]);
    }
  }

  lemma LinkWriteTags(m: Words, chunks: Chunks, starts: set<Addr>, i: nat, y: Addr, w: int, v: int)
    requires Tiles(chunks, starts) && Tags(m, chunks, starts) && i < NBINS
    requires Ours(chunks, i, y) && (w == y + 8 || w == y + 12)
    ensures Tags(m[w := v], chunks, starts)
  {
    if y == BinAt(i) {
      BinTags(m, chunks, starts, w, v);
    } else {
      assert Shaped(y, chunks[y]);
      InsideTags(m, chunks, starts, y, w, v);
    }
  }

  lemma OthersLinked(m: Words, n: Words, chunks: Chunks, lists: seq<seq<Addr>>, open: bool, i: nat, s: seq<Addr>)
    requires Listed(chunks, lists) && AllLinked(m, lists, open) && SameLinksBut(m, n, chunks, i)
    requires 1 <= i < NBINS && Linked(n, i, s)
    ensures AllLinked(n, lists[i := s], open && i != 1)
  {
    var ls := lists[i := s];
    assert n[BinAt(0) + 12] == m[BinAt(0) + 12];
    forall j | (if open && i != 1 then 2 else 1) <= j < NBINS ensures Linked(n, j, ls[j]) {
      if j != i {
        assert ListOk(chunks, j, lists[j]);
        LinkedSame(m, n, j, lists[j]);
      }
    }
  }

  lemma OthersChained(m: Words, n: Words, chunks: Chunks, fastbins: seq<Addr>, lists: seq<seq<Addr>>, i: nat, s: seq<Addr>)
    requires Listed(chunks, lists) && AllChained(m, fastbins, lists) && SameLinksBut(m, n, chunks, i)
    requires 1 <= i < NBINS
    ensures AllChained(n, fastbins, lists[i := s])
  {
    forall j | 0 <= j < NFASTBINS ensures Chained(n, fastbins[j], lists[i := s][NBINS + j]) {
      assert ListOk(chunks, NBINS + j, lists[NBINS + j]);
      assert Chained(m, fastbins[j], lists[NBINS + j]);
    }
  }
}
