/** The heap of the boundary-tag allocator as a collection of chunks with bins: what must
    hold of it, and the ways in which the allocator changes it. */
module DlHeap {
  import opened DlSizes

  type Addr = nat

  /** A loose chunk is in the hands of the allocator.  A fence is the end of a region that
      could not be extended: two fenceposts and what is left beside them. */
  datatype State = Used | Binned(bin: nat) | Loose | Top | Fence

  /** Lists 1 to 127 are the regular bins, 1 being the unsorted one; from 128 on come the
      fastbins, whose chunks count as in use. */
  const LISTS: nat := NBINS + NFASTBINS

  predicate IsFree(st: State) {
    st.Binned? && st.bin < NBINS
  }

  predicate IsFast(st: State) {
    st.Binned? && st.bin >= NBINS
  }

  datatype Chunk = Chunk(size: nat, state: State)

  type Chunks = map<Addr, Chunk>

  /** Chunks lie above the allocator's own data. */
  const LOW: Addr := 8192

  predicate HasNext(st: State) {
    !st.Top? && !st.Fence?
  }

  function End(chunks: Chunks, a: Addr): Addr
    requires a in chunks
  {
    a + chunks[a].size
  }

  // ----- tiling -----

  ghost predicate Shaped(a: Addr, c: Chunk) {
    LOW <= a && a % ALIGNMENT == 0 && c.size % ALIGNMENT == 0 && c.size >= MINSIZE
  }

  ghost predicate Precedes(chunks: Chunks, b: Addr, a: Addr) {
    b in chunks && HasNext(chunks[b].state) && End(chunks, b) == a
  }

  ghost predicate Shapes(chunks: Chunks) {
    forall a | a in chunks :: Shaped(a, chunks[a])
  }

  ghost predicate Ordered(chunks: Chunks) {
    forall a, b | a in chunks && b in chunks && a < b :: End(chunks, a) <= b
  }

  ghost predicate Followed(chunks: Chunks, starts: set<Addr>) {
    forall a | a in chunks && HasNext(chunks[a].state) :: End(chunks, a) in chunks && End(chunks, a) !in starts
  }

  ghost predicate Preceded(chunks: Chunks, starts: set<Addr>) {
    forall a | a in chunks && a !in starts :: exists b :: Precedes(chunks, b, a)
  }

  /** The chunks of each region lie side by side: none overlap, every chunk but the last of
      a region is followed by a chunk, and every chunk but the first follows one. */
  ghost predicate Tiles(chunks: Chunks, starts: set<Addr>) {
    && Shapes(chunks) && Ordered(chunks) && Followed(chunks, starts) && Preceded(chunks, starts)
    && starts <= chunks.Keys
  }

  // ----- changes to the tiling -----

  function Set(chunks: Chunks, p: Addr, st: State): Chunks
    requires p in chunks
  {
    chunks[p := Chunk(chunks[p].size, st)]
  }

  function Split(chunks: Chunks, p: Addr, nb: nat, st: State, rest: State): Chunks
    requires p in chunks && nb <= chunks[p].size
  {
    chunks[p := Chunk(nb, st)][p + nb := Chunk(chunks[p].size - nb, rest)]
  }

  function Merge(chunks: Chunks, p: Addr, st: State): Chunks
    requires p in chunks && End(chunks, p) in chunks
  {
    (chunks - {End(chunks, p)})[p := Chunk(chunks[p].size + chunks[End(chunks, p)].size, st)]
  }

  /** The same chunks in the same places. */
  ghost predicate SameLayout(chunks: Chunks, cs: Chunks) {
    && chunks.Keys == cs.Keys
    && forall a | a in chunks :: cs[a].size == chunks[a].size && HasNext(cs[a].state) == HasNext(chunks[a].state)
  }

  lemma LayoutPreceded(chunks: Chunks, cs: Chunks, starts: set<Addr>)
    requires SameLayout(chunks, cs) && Preceded(chunks, starts)
    ensures Preceded(cs, starts)
  {
    forall a | a in cs && a !in starts ensures exists b :: Precedes(cs, b, a) {
      assert a in chunks;
      var b :| Precedes(chunks, b, a);
      assert Precedes(cs, b, a);
    }
  }

  lemma LayoutOrdered(chunks: Chunks, cs: Chunks)
    requires SameLayout(chunks, cs) && Ordered(chunks) && Shapes(chunks)
    ensures Ordered(cs) && Shapes(cs)
  {
    forall a, b | a in cs && b in cs && a < b ensures End(cs, a) <= b {
      assert a in chunks && b in chunks;
    }
  }

  lemma LayoutFollowed(chunks: Chunks, cs: Chunks, starts: set<Addr>)
    requires SameLayout(chunks, cs) && Followed(chunks, starts)
    ensures Followed(cs, starts)
  {
    forall a | a in cs && HasNext(cs[a].state) ensures End(cs, a) in cs && End(cs, a) !in starts {
      assert a in chunks;
    }
  }

  lemma LayoutTiles(chunks: Chunks, cs: Chunks, starts: set<Addr>)
    requires SameLayout(chunks, cs) && Tiles(chunks, starts)
    ensures Tiles(cs, starts)
  {
    hide Shapes, Ordered, Followed, Preceded;
    LayoutPreceded(chunks, cs, starts);
    LayoutOrdered(chunks, cs);
    LayoutFollowed(chunks, cs, starts);
  }

  lemma SetTiles(chunks: Chunks, starts: set<Addr>, p: Addr, st: State)
    requires Tiles(chunks, starts) && p in chunks && HasNext(chunks[p].state) == HasNext(st)
    ensures Tiles(Set(chunks, p, st), starts)
  {
    hide Tiles;
    LayoutTiles(chunks, Set(chunks, p, st), starts);
  }

  /** A chunk can be cut at an aligned place that leaves two chunks of minimal size. */
  ghost predicate CanSplit(chunks: Chunks, p: Addr, nb: nat) {
    p in chunks && nb % ALIGNMENT == 0 && MINSIZE <= nb && nb + MINSIZE <= chunks[p].size
  }

  lemma SplitOrdered(chunks: Chunks, p: Addr, nb: nat, st: State, rest: State)
    requires Shapes(chunks) && Ordered(chunks) && CanSplit(chunks, p, nb)
    ensures Shapes(Split(chunks, p, nb, st, rest)) && Ordered(Split(chunks, p, nb, st, rest)) && p + nb !in chunks
  {
    SplitShapes(chunks, p, nb, st, rest);
    hide Shapes;
    var cs := Split(chunks, p, nb, st, rest);
    forall a, b | a in cs && b in cs && a < b ensures End(cs, a) <= b {
      if a != p + nb && b != p + nb {
        assert End(chunks, a) <= b;
      } else if a == p + nb {
        assert End(chunks, p) <= b;
      }
    }
  }

  lemma SplitShapes(chunks: Chunks, p: Addr, nb: nat, st: State, rest: State)
    requires Shapes(chunks) && Ordered(chunks) && CanSplit(chunks, p, nb)
    ensures Shapes(Split(chunks, p, nb, st, rest)) && p + nb !in chunks
  {
    assert Shaped(p, chunks[p]);
    hide Ordered;
    var cs := Split(chunks, p, nb, st, rest);
    forall a | a in cs ensures Shaped(a, cs[a]) {
      if a != p && a != p + nb { assert Shaped(a, chunks[a]); }
    }
  }

  lemma SplitPreceded(chunks: Chunks, starts: set<Addr>, p: Addr, nb: nat, st: State, rest: State)
    requires Preceded(chunks, starts) && CanSplit(chunks, p, nb) && p + nb !in chunks
    requires HasNext(st) && HasNext(rest) == HasNext(chunks[p].state)
    ensures Preceded(Split(chunks, p, nb, st, rest), starts)
  {
    var cs := Split(chunks, p, nb, st, rest);
    forall a | a in cs && a !in starts ensures exists b :: Precedes(cs, b, a) {
      if a == p + nb {
        assert Precedes(cs, p, a);
      } else {
        var b :| Precedes(chunks, b, a);
        if b == p { assert Precedes(cs, p + nb, a); } else { assert Precedes(cs, b, a); }
      }
    }
  }

  lemma SplitFollowed(chunks: Chunks, starts: set<Addr>, p: Addr, nb: nat, st: State, rest: State)
    requires Followed(chunks, starts) && CanSplit(chunks, p, nb) && p + nb !in chunks && starts <= chunks.Keys
    requires HasNext(st) && HasNext(rest) == HasNext(chunks[p].state)
    ensures Followed(Split(chunks, p, nb, st, rest), starts)
  {
    var cs := Split(chunks, p, nb, st, rest);
    forall a | a in cs && HasNext(cs[a].state) ensures End(cs, a) in cs && End(cs, a) !in starts {
      if a == p + nb {
        assert End(cs, a) == End(chunks, p);
      } else if a == p {
        assert p + nb !in starts;
      }
    }
  }

  lemma SplitTiles(chunks: Chunks, starts: set<Addr>, p: Addr, nb: nat, st: State, rest: State)
    requires Tiles(chunks, starts) && CanSplit(chunks, p, nb)
    requires HasNext(st) && HasNext(rest) == HasNext(chunks[p].state)
    ensures Tiles(Split(chunks, p, nb, st, rest), starts) && p + nb !in chunks
  {
    hide Shapes, Ordered, Followed, Preceded;
    SplitOrdered(chunks, p, nb, st, rest);
    SplitFollowed(chunks, starts, p, nb, st, rest);
    SplitPreceded(chunks, starts, p, nb, st, rest);
  }

  lemma MergeOrdered(chunks: Chunks, p: Addr, st: State)
    requires Shapes(chunks) && Ordered(chunks) && p in chunks && End(chunks, p) in chunks
    ensures Shapes(Merge(chunks, p, st)) && Ordered(Merge(chunks, p, st))
  {
    var cs, n := Merge(chunks, p, st), End(chunks, p);
    assert Shaped(p, chunks[p]) && Shaped(n, chunks[n]);
    forall a, b | a in cs && b in cs && a < b ensures End(cs, a) <= b {
      assert End(chunks, a) <= b;
      if a == p {
        assert n < b;
        assert End(chunks, n) <= b;
      }
    }
  }

  lemma MergePreceded(chunks: Chunks, starts: set<Addr>, p: Addr, st: State)
    requires Preceded(chunks, starts) && Shapes(chunks) && p in chunks && End(chunks, p) in chunks
    requires HasNext(chunks[p].state) && HasNext(st) == HasNext(chunks[End(chunks, p)].state)
    ensures Preceded(Merge(chunks, p, st), starts)
  {
    var cs, n := Merge(chunks, p, st), End(chunks, p);
    assert Shaped(p, chunks[p]);
    forall a | a in cs && a !in starts ensures exists b :: Precedes(cs, b, a) {
      var b :| Precedes(chunks, b, a);
      if b == n { assert Precedes(cs, p, a); } else { assert Precedes(cs, b, a); }
    }
  }

  lemma MergeFollowed(chunks: Chunks, starts: set<Addr>, p: Addr, st: State)
    requires Followed(chunks, starts) && Shapes(chunks) && Ordered(chunks) && p in chunks && End(chunks, p) in chunks
    requires HasNext(chunks[p].state) && HasNext(st) == HasNext(chunks[End(chunks, p)].state)
    ensures Followed(Merge(chunks, p, st), starts)
  {
    var cs, n := Merge(chunks, p, st), End(chunks, p);
    assert Shaped(p, chunks[p]) && Shaped(n, chunks[n]);
    forall a | a in cs && HasNext(cs[a].state) ensures End(cs, a) in cs && End(cs, a) !in starts {
      if a == p {
        assert End(cs, a) == End(chunks, n) && End(chunks, n) != n;
      } else {
        assert Shaped(a, chunks[a]);
        if End(chunks, a) == n { OnePredecessor(chunks, a, p); }
      }
    }
  }

  lemma OnePredecessor(chunks: Chunks, a: Addr, b: Addr)
    requires Ordered(chunks) && Shapes(chunks) && a in chunks && b in chunks && End(chunks, a) == End(chunks, b)
    ensures a == b
  {
    assert Shaped(a, chunks[a]) && Shaped(b, chunks[b]);
  }

  lemma MergeTiles(chunks: Chunks, starts: set<Addr>, p: Addr, st: State)
    requires Tiles(chunks, starts) && p in chunks && HasNext(chunks[p].state)
    requires End(chunks, p) in chunks && HasNext(st) == HasNext(chunks[End(chunks, p)].state)
    ensures Tiles(Merge(chunks, p, st), starts)
  {
    assert End(chunks, p) !in starts;
    hide Shapes, Ordered, Followed, Preceded;
    MergeOrdered(chunks, p, st);
    MergeFollowed(chunks, starts, p, st);
    MergePreceded(chunks, starts, p, st);
  }

  // ----- bins -----

  ghost predicate NoDup(s: seq<Addr>) {
    forall i, j | 0 <= i < j < |s| :: s[i] != s[j]
  }

  function RemoveAt(s: seq<Addr>, k: nat): (r: seq<Addr>)
    requires k < |s|
    ensures |r| == |s| - 1 && forall j | 0 <= j < |r| :: r[j] == if j < k then s[j] else s[j + 1]
  {
    s[..k] + s[k + 1..]
  }

  function InsertAt(s: seq<Addr>, k: nat, p: Addr): (r: seq<Addr>)
    requires k <= |s|
    ensures |r| == |s| + 1 && forall j | 0 <= j < |r| :: r[j] == if j < k then s[j] else if j == k then p else s[j - 1]
  {
    s[..k] + [p] + s[k..]
  }

  /** Which sizes a list may hold. */
  ghost predicate Suits(i: nat, size: nat) {
    if i <= 1 then i == 1
    else if i < NBINS then BinIndex(size) == i
    else size >= MINSIZE && FastIndex(size) == i - NBINS && size <= DEFAULT_MAX_FAST
  }

  ghost predicate Members(chunks: Chunks, i: nat, s: seq<Addr>) {
    forall k | 0 <= k < |s| :: s[k] in chunks && chunks[s[k]].state == Binned(i) && Suits(i, chunks[s[k]].size)
  }

  /** Largest first. */
  ghost predicate Descending(chunks: Chunks, s: seq<Addr>)
    requires forall k | 0 <= k < |s| :: s[k] in chunks
  {
    forall j, k | 0 <= j < k < |s| :: chunks[s[j]].size >= chunks[s[k]].size
  }

  ghost predicate ListOk(chunks: Chunks, i: nat, s: seq<Addr>) {
    Members(chunks, i, s) && NoDup(s) && (i != 1 ==> Descending(chunks, s))
  }

  ghost predicate Found(chunks: Chunks, lists: seq<seq<Addr>>) {
    forall p | p in chunks && chunks[p].state.Binned? ::
      chunks[p].state.bin < |lists| && p in lists[chunks[p].state.bin]
  }

  /** Every binned chunk is in exactly one list, its own; lists hold suitable sizes, and all
      but the unsorted one are in size order. */
  ghost predicate Listed(chunks: Chunks, lists: seq<seq<Addr>>) {
    && |lists| == LISTS
    && (forall i | 0 <= i < LISTS :: ListOk(chunks, i, lists[i]))
    && Found(chunks, lists)
  }

  ghost predicate SameBinned(chunks: Chunks, cs: Chunks) {
    && (forall p | p in chunks && chunks[p].state.Binned? :: p in cs && cs[p] == chunks[p])
    && (forall p | p in cs && cs[p].state.Binned? :: p in chunks && cs[p] == chunks[p])
  }

  lemma ListOkSame(chunks: Chunks, cs: Chunks, i: nat, s: seq<Addr>)
    requires SameBinned(chunks, cs) && ListOk(chunks, i, s)
    ensures ListOk(cs, i, s)
  {
    hide Suits;
  }

  lemma ListedSame(chunks: Chunks, cs: Chunks, lists: seq<seq<Addr>>)
    requires SameBinned(chunks, cs) && Listed(chunks, lists)
    ensures Listed(cs, lists)
  {
    forall i | 0 <= i < LISTS ensures ListOk(cs, i, lists[i]) {
      ListOkSame(chunks, cs, i, lists[i]);
    }
    hide ListOk;
  }

  /** The list of a chunk and its place in it. */
  lemma Place(chunks: Chunks, lists: seq<seq<Addr>>, p: Addr) returns (k: nat)
    requires Listed(chunks, lists) && p in chunks && chunks[p].state.Binned?
    ensures chunks[p].state.bin < LISTS && k < |lists[chunks[p].state.bin]| && lists[chunks[p].state.bin][k] == p
  {
    k :| 0 <= k < |lists[chunks[p].state.bin]| && lists[chunks[p].state.bin][k] == p;
  }

  /** A chunk that is not in a list does not matter to it. */
  lemma ListOkElsewhere(chunks: Chunks, i: nat, s: seq<Addr>, p: Addr, st: State)
    requires ListOk(chunks, i, s) && p in chunks && chunks[p].state != Binned(i)
    ensures ListOk(Set(chunks, p, st), i, s)
  {
    hide Suits;
  }

  lemma ListOkRemove(chunks: Chunks, i: nat, s: seq<Addr>, k: nat, st: State)
    requires ListOk(chunks, i, s) && k < |s|
    ensures s[k] in chunks && ListOk(Set(chunks, s[k], st), i, RemoveAt(s, k))
  {
    hide Suits;
  }

  lemma FoundRemove(chunks: Chunks, lists: seq<seq<Addr>>, i: nat, k: nat, st: State)
    requires Found(chunks, lists) && i < |lists| && k < |lists[i]| && lists[i][k] in chunks && !st.Binned?
    ensures Found(Set(chunks, lists[i][k], st), lists[i := RemoveAt(lists[i], k)])
  {
    var p, cs, ls := lists[i][k], Set(chunks, lists[i][k], st), lists[i := RemoveAt(lists[i], k)];
    forall q | q in cs && cs[q].state.Binned? ensures cs[q].state.bin < |ls| && q in ls[cs[q].state.bin] {
      if cs[q].state.bin == i {
        var j :| 0 <= j < |lists[i]| && lists[i][j] == q;
        assert ls[i][if j < k then j else j - 1] == q;
      }
    }
  }

  lemma ListedRemove(chunks: Chunks, lists: seq<seq<Addr>>, i: nat, k: nat, st: State)
    requires Listed(chunks, lists) && i < LISTS && k < |lists[i]| && !st.Binned?
    ensures lists[i][k] in chunks && chunks[lists[i][k]].state == Binned(i)
    ensures Listed(Set(chunks, lists[i][k], st), lists[i := RemoveAt(lists[i], k)])
  {
    var p := lists[i][k];
    assert ListOk(chunks, i, lists[i]);
    FoundRemove(chunks, lists, i, k, st);
    ListOkRemove(chunks, i, lists[i], k, st);
    assert chunks[p].state == Binned(i);
    var cs, ls := Set(chunks, p, st), lists[i := RemoveAt(lists[i], k)];
    forall j | 0 <= j < LISTS ensures ListOk(cs, j, ls[j]) {
      if j != i { ListOkElsewhere(chunks, j, lists[j], p, st); }
    }
    hide ListOk, Found;
  }

  /** Where a chunk of the given size may stand. */
  ghost predicate FitsAt(chunks: Chunks, s: seq<Addr>, k: nat, size: nat)
    requires forall j | 0 <= j < |s| :: s[j] in chunks
  {
    && k <= |s|
    && (forall j | 0 <= j < k :: chunks[s[j]].size >= size)
    && (forall j | k <= j < |s| :: size >= chunks[s[j]].size)
  }

  ghost predicate CanInsert(chunks: Chunks, i: nat, s: seq<Addr>, k: nat, p: Addr) {
    && p in chunks && !chunks[p].state.Binned? && k <= |s|
    && Suits(i, chunks[p].size)
    && Members(chunks, i, s) && (i != 1 ==> FitsAt(chunks, s, k, chunks[p].size))
  }

  lemma ListOkInsert(chunks: Chunks, i: nat, s: seq<Addr>, k: nat, p: Addr)
    requires ListOk(chunks, i, s) && CanInsert(chunks, i, s, k, p)
    ensures ListOk(Set(chunks, p, Binned(i)), i, InsertAt(s, k, p))
  {
    hide Suits;
  }

  lemma FoundInsert(chunks: Chunks, lists: seq<seq<Addr>>, i: nat, k: nat, p: Addr)
    requires Found(chunks, lists) && i < |lists| && k <= |lists[i]| && p in chunks
    ensures Found(Set(chunks, p, Binned(i)), lists[i := InsertAt(lists[i], k, p)])
  {
    var cs, ls := Set(chunks, p, Binned(i)), lists[i := InsertAt(lists[i], k, p)];
    forall q | q in cs && cs[q].state.Binned? ensures cs[q].state.bin < |ls| && q in ls[cs[q].state.bin] {
      if q == p {
        assert ls[i][k] == p;
      } else if cs[q].state.bin == i {
        var j :| 0 <= j < |lists[i]| && lists[i][j] == q;
        assert ls[i][if j < k then j else j + 1] == q;
      }
    }
  }

  lemma ListedInsert(chunks: Chunks, lists: seq<seq<Addr>>, i: nat, k: nat, p: Addr)
    requires Listed(chunks, lists) && i < LISTS && CanInsert(chunks, i, lists[i], k, p)
    ensures Listed(Set(chunks, p, Binned(i)), lists[i := InsertAt(lists[i], k, p)])
  {
    FoundInsert(chunks, lists, i, k, p);
    ListOkInsert(chunks, i, lists[i], k, p);
    var cs, ls := Set(chunks, p, Binned(i)), lists[i := InsertAt(lists[i], k, p)];
    forall j | 0 <= j < LISTS ensures ListOk(cs, j, ls[j]) {
      if j != i { ListOkElsewhere(chunks, j, lists[j], p, Binned(i)); }
    }
    hide ListOk, Found;
  }

  // ----- no two free chunks side by side -----

  ghost predicate Solid(chunks: Chunks, a: Addr) {
    a in chunks && !IsFree(chunks[a].state) && !chunks[a].state.Top?
  }

  /** Every free chunk is followed by one that is neither free nor top. */
  ghost predicate Apart(chunks: Chunks) {
    forall a | a in chunks && IsFree(chunks[a].state) :: Solid(chunks, End(chunks, a))
  }

  /** No free chunk ends at p. */
  ghost predicate Lonely(chunks: Chunks, p: Addr) {
    forall b | b in chunks && IsFree(chunks[b].state) :: End(chunks, b) != p
  }

  lemma ApartSet(chunks: Chunks, p: Addr, st: State)
    requires Apart(chunks) && p in chunks && !chunks[p].state.Top?
    requires IsFree(st) || st.Top? ==> Lonely(chunks, p)
    requires IsFree(st) ==> Solid(chunks, End(chunks, p)) && End(chunks, p) != p
    ensures Apart(Set(chunks, p, st))
  {
  }

  lemma ApartMerge(chunks: Chunks, starts: set<Addr>, p: Addr, st: State)
    requires Tiles(chunks, starts) && Apart(chunks) && p in chunks && chunks[p].state == Loose
    requires End(chunks, p) in chunks && !IsFree(st) && (st.Top? ==> Lonely(chunks, p))
    ensures Apart(Merge(chunks, p, st))
  {
    var cs, n := Merge(chunks, p, st), End(chunks, p);
    assert Shaped(p, chunks[p]);
    forall a | a in cs && IsFree(cs[a].state) ensures Solid(cs, End(cs, a)) {
      assert Solid(chunks, End(chunks, a));
      assert a != p;
      if End(chunks, a) == n { OnePredecessor(chunks, a, p); }
    }
  }

  /** The chunk before a free chunk is not free. */
  lemma FreeIsLonely(chunks: Chunks, p: Addr)
    requires Apart(chunks) && p in chunks && IsFree(chunks[p].state)
    ensures Lonely(chunks, p)
  {
  }

  // ----- the whole heap -----

  /** `top` is None until the first extension; there are no chunks before that. */
  datatype Heap = Heap(chunks: Chunks, starts: set<Addr>, top: Option<Addr>, lists: seq<seq<Addr>>)

  datatype Option<+T> = None | Some(value: T)

  ghost predicate TopIs(chunks: Chunks, top: Option<Addr>) {
    && (forall a | a in chunks :: chunks[a].state.Top? <==> top == Some(a))
    && (top.Some? ==> top.value in chunks)
    && (top == None ==> chunks == map[])
  }

  ghost predicate WellFormed(h: Heap) {
    && Tiles(h.chunks, h.starts) && Listed(h.chunks, h.lists) && Apart(h.chunks) && TopIs(h.chunks, h.top)
  }

  /** How large top is. */
  ghost function TopWidth(h: Heap): nat {
    if h.top.Some? && h.top.value in h.chunks then h.chunks[h.top.value].size else 0
  }

  function ListAt(h: Heap, i: nat): seq<Addr> {
    if i < |h.lists| then h.lists[i] else []
  }

  ghost predicate FastEmpty(lists: seq<seq<Addr>>) {
    |lists| == LISTS && forall f | NBINS <= f < LISTS :: lists[f] == []
  }
}
