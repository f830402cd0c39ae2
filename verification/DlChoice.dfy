/** Which chunk serves a request, and how much of it. */
module DlChoice {
  import opened DlSizes
  import opened DlHeap
  import opened DlSteps
  import opened DlTake

  /** None of the chunks from the given place on has exactly the given size. */
  ghost predicate NoneExact(chunks: Chunks, l: seq<Addr>, from: nat, nb: nat) {
    forall j | from <= j < |l| :: !OfSize(chunks, l[j], nb)
  }

  /** The last remainder is cut for a small request when it is the only unsorted chunk left,
      which means that it is the first of them, all others having another size, and when more
      than a minimum chunk would be left of it. */
  ghost predicate CutsRemainder(h: Heap, last: Addr, nb: nat, p: Addr) {
    && Small(nb) && ListAt(h, 1) != [] && p == ListAt(h, 1)[0] == last
    && p in h.chunks && h.chunks[p].size > nb + MINSIZE && NoneExact(h.chunks, ListAt(h, 1), 1, nb)
  }

  /** Of the unsorted chunks of exactly the size of the request the last one is taken. */
  ghost predicate ExactAt(h: Heap, nb: nat, p: Addr, k: int) {
    && 0 <= k < |ListAt(h, 1)| && p == ListAt(h, 1)[k] && OfSize(h.chunks, p, nb)
    && NoneExact(h.chunks, ListAt(h, 1), k + 1, nb)
  }

  /** The unsorted chunk at place k is what a search takes. */
  ghost predicate UnsortedAt(h: Heap, last: Addr, nb: nat, p: Addr, k: int) {
    FitsFree(h.chunks, p, nb) && (ExactAt(h, nb, p, k) || (k == 0 && CutsRemainder(h, last, nb, p)))
  }

  ghost predicate FromUnsorted(h: Heap, last: Addr, nb: nat, p: Addr) {
    exists k :: UnsortedAt(h, last, nb, p, k)
  }

  /** There is at most one such chunk. */
  lemma OneFromUnsorted(h: Heap, last: Addr, nb: nat, p: Addr, q: Addr)
    requires FromUnsorted(h, last, nb, p) && FromUnsorted(h, last, nb, q)
    ensures p == q
  {
    var i :| UnsortedAt(h, last, nb, p, i);
    var j :| UnsortedAt(h, last, nb, q, j);
  }

  /** It is taken when the unsorted chunks behind it have been put into their bins. */
  ghost predicate TookUnsorted(h: Heap, last: Addr, nb: nat, p: Addr, after: Heap) {
    exists k :: TookAt(h, last, nb, p, after, k)
  }

  ghost predicate TookAt(h: Heap, last: Addr, nb: nat, p: Addr, after: Heap, k: int) {
    k >= 0 && UnsortedAt(h, last, nb, p, k) && HandedOut(PlacedTo(h, k + 1), after, p, nb)
  }

  lemma TookIntro(h: Heap, last: Addr, nb: nat, p: Addr, after: Heap, g: Heap, k: nat)
    requires UnsortedAt(h, last, nb, p, k) && g == PlacedTo(h, k + 1) && HandedOut(g, after, p, nb)
    ensures TookUnsorted(h, last, nb, p, after) && FromUnsorted(h, last, nb, p)
  {
    assert TookAt(h, last, nb, p, after, k);
    hide HandedOut, UnsortedAt, PlacedTo;
  }

  lemma TookFits(h: Heap, last: Addr, nb: nat, p: Addr, after: Heap)
    requires TookUnsorted(h, last, nb, p, after)
    ensures FitsFree(h.chunks, p, nb) && FromUnsorted(h, last, nb, p)
  {
    var k :| TookAt(h, last, nb, p, after, k);
    assert UnsortedAt(h, last, nb, p, k);
    hide HandedOut, PlacedTo, FitsFree, CutsRemainder, ExactAt;
  }

  /** How a request of nb bytes is served after the fastbin and the small bin of its size have
      been found empty, and the heap afterwards: by the last remainder, or else by an unsorted
      chunk of exactly its size, or else, when all unsorted chunks have been put into their
      bins, by a best fit, the last of those in its bin; or, where nothing fits, by the front
      of top, for which there is no need to ask the system if top is large enough. */
  ghost predicate Searched(pool: Heap, last: Addr, nb: nat, p: Addr, after: Heap) {
    if exists q :: FromUnsorted(pool, last, nb, q) then TookUnsorted(pool, last, nb, p, after)
    else if NoFit(pool.chunks, nb) then
      after.top == Some(p + nb) && OfSize(after.chunks, p, nb)
      && (TopWidth(pool) >= nb + MINSIZE ==> OffTop(AllPlaced(pool), after, p, nb))
    else
      BestFit(pool.chunks, p, nb) && LastFit(AllPlaced(pool), nb, p) && HandedOut(AllPlaced(pool), after, p, nb)
  }

  /** The last remainder afterwards: what a small request has left of a free chunk. */
  ghost predicate Remains(pool: Heap, last: Addr, nb: nat, p: Addr, last': Addr) {
    last' == if Small(nb) && FitsFree(pool.chunks, p, nb) && pool.chunks[p].size >= nb + MINSIZE then p + nb else last
  }

  /** The chunk that serves a request, the heap and the last remainder afterwards. */
  ghost predicate Chosen(pool: Heap, last: Addr, nb: nat, p: Addr, after: Heap, last': Addr) {
    Searched(pool, last, nb, p, after) && Remains(pool, last, nb, p, last')
  }

  lemma ChosenUnsorted(pool: Heap, last: Addr, nb: nat, p: Addr, after: Heap, last': Addr)
    requires TookUnsorted(pool, last, nb, p, after) && Remains(pool, last, nb, p, last')
    ensures Chosen(pool, last, nb, p, after, last')
  {
    TookFits(pool, last, nb, p, after);
    hide FromUnsorted, TookUnsorted, Remains;
  }

  /** A chunk taken from a bin once all unsorted chunks are in theirs. */
  lemma ChosenBinned(pool: Heap, h: Heap, last: Addr, nb: nat, p: Addr, after: Heap, last': Addr)
    requires h == AllPlaced(pool) && SameFree(pool.chunks, h.chunks) && forall q :: !FromUnsorted(pool, last, nb, q)
    requires BestFit(h.chunks, p, nb) && LastFit(h, nb, p) && HandedOut(h, after, p, nb) && Remains(h, last, nb, p, last')
    ensures Chosen(pool, last, nb, p, after, last')
  {
    hide *;
    BestFitSame(pool.chunks, h.chunks, p, nb);
    BestSame(pool, h, last, nb, p, last');
    BinnedIntro(pool, last, nb, p, after, last');
  }

  lemma BestSame(pool: Heap, h: Heap, last: Addr, nb: nat, p: Addr, last': Addr)
    requires SameFree(pool.chunks, h.chunks) && BestFit(h.chunks, p, nb) && Remains(h, last, nb, p, last')
    ensures Remains(pool, last, nb, p, last')
  {
  }

  lemma BinnedIntro(pool: Heap, last: Addr, nb: nat, p: Addr, after: Heap, last': Addr)
    requires forall q :: !FromUnsorted(pool, last, nb, q)
    requires BestFit(pool.chunks, p, nb) && LastFit(AllPlaced(pool), nb, p) && HandedOut(AllPlaced(pool), after, p, nb)
    requires Remains(pool, last, nb, p, last')
    ensures Chosen(pool, last, nb, p, after, last')
  {
    assert FitsFree(pool.chunks, p, nb);
    hide FromUnsorted, LastFit, AllPlaced, FitsFree, HandedOut, Remains;
  }

  /** The front of top, where nothing fits. */
  lemma ChosenTop(pool: Heap, last: Addr, nb: nat, p: Addr, after: Heap)
    requires NoFit(pool.chunks, nb) && OfSize(after.chunks, p, nb) && after.top == Some(p + nb)
    requires TopWidth(pool) >= nb + MINSIZE ==> OffTop(AllPlaced(pool), after, p, nb)
    ensures Chosen(pool, last, nb, p, after, last)
  {
    forall q ensures !FromUnsorted(pool, last, nb, q) { NotFromUnsorted(pool, last, nb, q); }
    assert !FitsFree(pool.chunks, p, nb);
    hide FromUnsorted, OffTop, OfSize, AllPlaced, FitsFree, NoFit;
  }

  lemma NotFromUnsorted(pool: Heap, last: Addr, nb: nat, q: Addr)
    requires NoFit(pool.chunks, nb)
    ensures !FromUnsorted(pool, last, nb, q)
  {
  }

  lemma LastFitIntro(h: Heap, nb: nat, p: Addr, i: nat, k: nat)
    requires 2 <= i < NBINS && i < |h.lists| && k < |h.lists[i]| && h.lists[i][k] == p && FitsFree(h.chunks, p, nb)
    requires forall l | k < l < |h.lists[i]| :: !FitsFree(h.chunks, h.lists[i][l], nb)
    ensures LastFit(h, nb, p)
  {
    assert LastFitAt(h, nb, p, i, k);
  }

  /** What is cut for a small request leaves a last remainder, what is handed out whole does
      not. */
  lemma RemainsFree(pool: Heap, last: Addr, size: nat, nb: nat, p: Addr, last': Addr)
    requires FitsFree(pool.chunks, p, nb) && pool.chunks[p].size == size
    requires last' == if Small(nb) && size >= nb + MINSIZE then p + nb else last
    ensures Remains(pool, last, nb, p, last')
  {
  }

  // ----- into the bins -----

  ghost predicate CanPlace(h: Heap) {
    && |h.lists| == LISTS && h.lists[1] != []
    && var v := h.lists[1][|h.lists[1]| - 1]; v in h.chunks && 2 <= BinIndex(h.chunks[v].size) < NBINS
  }

  /** The last unsorted chunk goes to its place in the bin of its size. */
  ghost function PlacedLast(h: Heap): Heap
    requires CanPlace(h)
  {
    var l := h.lists[1];
    var v := l[|l| - 1];
    var size := h.chunks[v].size;
    var j := BinIndex(size);
    h.(chunks := h.chunks[v := Chunk(size, Binned(j))],
       lists := h.lists[1 := l[..|l| - 1]][j := InsertAt(h.lists[j], PlaceIn(h.chunks, h.lists[j], size), v)])
  }

  lemma PlacedLastIs(h: Heap, k0: nat, j: nat, k: nat, p: Addr, size: nat)
    requires |h.lists| == LISTS && 1 < NBINS < LISTS && k0 < |h.lists[1]| && h.lists[1][k0] == p
    requires RemoveAt(h.lists[1], k0) == h.lists[1][..|h.lists[1]| - 1] && k0 == |h.lists[1]| - 1
    requires p in h.chunks && h.chunks[p].size == size && j == BinIndex(size) && 2 <= j < NBINS
    requires k == PlaceIn(h.chunks, h.lists[j], size)
    ensures CanPlace(h) && p in UnlinkHeap(h, 1, k0).chunks && LinkHeap(UnlinkHeap(h, 1, k0), j, k, p) == PlacedLast(h)
  {
    hide BinIndex, PlaceIn, InsertAt, RemoveAt;
    assert Set(Set(h.chunks, p, Loose), p, Binned(j)) == h.chunks[p := Chunk(size, Binned(j))];
  }

  /** The unsorted chunks from the n-th place on are put into their bins, from the last on. */
  ghost function PlacedTo(h: Heap, n: nat): Heap
    decreases |ListAt(h, 1)|
  {
    if CanPlace(h) && |h.lists[1]| > n then PlacedTo(PlacedLast(h), n) else h
  }

  ghost function AllPlaced(h: Heap): Heap {
    PlacedTo(h, 0)
  }

  lemma AllPlacedIs(h: Heap)
    ensures AllPlaced(h) == PlacedTo(h, 0)
  {
  }

  lemma PlacedNone(h: Heap)
    ensures PlacedTo(h, |ListAt(h, 1)|) == h
  {
  }

  lemma PlacedLists(h: Heap)
    requires CanPlace(h)
    ensures |PlacedLast(h).lists| == LISTS && PlacedLast(h).lists[1] == h.lists[1][..|h.lists[1]| - 1]
    ensures ListAt(PlacedLast(h), 1) == h.lists[1][..|h.lists[1]| - 1] && ListAt(h, 1) == h.lists[1] != []
  {
  }

  /** One more goes to its bin. */
  lemma {:induction false} PlacedNext(h: Heap, n: nat)
    requires n > 0 && CanPlace(PlacedTo(h, n)) && |PlacedTo(h, n).lists[1]| == n
    ensures PlacedTo(h, n - 1) == PlacedLast(PlacedTo(h, n))
    decreases |ListAt(h, 1)|
  {
    hide CanPlace, PlacedLast;
    if CanPlace(h) {
      PlacedLists(h);
      if |h.lists[1]| > n { PlacedNext(PlacedLast(h), n); }
    }
  }

  /** Of the chunks of its bin that fit the last one is taken. */
  ghost predicate LastFit(h: Heap, nb: nat, p: Addr) {
    exists i, k :: LastFitAt(h, nb, p, i, k)
  }

  ghost predicate LastFitAt(h: Heap, nb: nat, p: Addr, i: int, k: int) {
    && 2 <= i < NBINS && 0 <= k < |ListAt(h, i)| && ListAt(h, i)[k] == p && FitsFree(h.chunks, p, nb)
    && forall l | k < l < |ListAt(h, i)| :: !FitsFree(h.chunks, ListAt(h, i)[l], nb)
  }

  // ----- working through the unsorted list -----

  /** The unsorted chunks from the n-th on have been put into their bins. */
  ghost predicate Unworked(h: Heap, last: Addr, nb: nat, l: seq<Addr>, n: nat) {
    && n <= |ListAt(h, 1)| && l == ListAt(h, 1)[..n] && NoneExact(h.chunks, ListAt(h, 1), n, nb)
    && (n == 0 ==> forall q :: !CutsRemainder(h, last, nb, q))
  }

  lemma FreeSize(chunks: Chunks, cs: Chunks, v: Addr)
    requires SameFree(chunks, cs) && v in cs && IsFree(cs[v].state)
    ensures v in chunks && IsFree(chunks[v].state) && chunks[v].size == cs[v].size
    ensures OfSize(chunks, v, cs[v].size)
  {
  }

  lemma UnworkedStart(h: Heap, last: Addr, nb: nat)
    ensures Unworked(h, last, nb, ListAt(h, 1), |ListAt(h, 1)|)
    ensures |h.lists| == LISTS ==> ListAt(h, 1) == h.lists[1]
  {
    assert ListAt(h, 1) == ListAt(h, 1)[..|ListAt(h, 1)|];
  }

  /** The last of those left is neither the remainder to cut nor of the exact size. */
  lemma UnworkedNext(h: Heap, last: Addr, nb: nat, l: seq<Addr>, n: nat, v: Addr)
    requires Unworked(h, last, nb, l, n) && l != [] && v == l[|l| - 1] && v in h.chunks && h.chunks[v].size != nb
    requires |l| == 1 ==> !(Small(nb) && v == last && h.chunks[v].size > nb + MINSIZE)
    ensures n > 0 && |l| == n && Unworked(h, last, nb, l[..|l| - 1], n - 1)
  {
    assert l[..|l| - 1] == ListAt(h, 1)[..n - 1];
  }

  lemma UnworkedExact(h: Heap, last: Addr, nb: nat, l: seq<Addr>, n: nat, v: Addr)
    requires Unworked(h, last, nb, l, n) && l != [] && v == l[|l| - 1] && OfSize(h.chunks, v, nb) && FitsFree(h.chunks, v, nb)
    ensures n > 0 && UnsortedAt(h, last, nb, v, n - 1)
  {
    assert ExactAt(h, nb, v, n - 1);
  }

  lemma UnworkedSole(h: Heap, last: Addr, nb: nat, l: seq<Addr>, n: nat, v: Addr)
    requires Unworked(h, last, nb, l, n) && l == [v] && v in h.chunks && h.chunks[v].size > nb + MINSIZE
    requires Small(nb) && v == last && FitsFree(h.chunks, v, nb)
    ensures n == 1 && UnsortedAt(h, last, nb, v, 0)
  {
    assert l[0] == ListAt(h, 1)[0];
    assert CutsRemainder(h, last, nb, v);
  }

  lemma UnworkedEnd(h: Heap, last: Addr, nb: nat, n: nat)
    requires Unworked(h, last, nb, [], n)
    ensures n == 0 && forall q :: !FromUnsorted(h, last, nb, q)
  {
    assert n == 0;
    forall q ensures !FromUnsorted(h, last, nb, q) {
      forall k ensures !UnsortedAt(h, last, nb, q, k) { }
    }
  }
}
