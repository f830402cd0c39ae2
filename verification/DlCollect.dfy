/** What becomes of the heap when a chunk is joined with its free neighbours. */
module DlCollect {
  import opened DlSizes
  import opened DlHeap
  import opened DlSteps

  /** The list without the given chunks. */
  function Less(l: seq<Addr>, gone: set<Addr>): seq<Addr> {
    if l == [] then [] else (if l[0] in gone then [] else [l[0]]) + Less(l[1..], gone)
  }

  lemma {:induction false} LessNone(l: seq<Addr>, gone: set<Addr>)
    requires forall x | x in gone :: x !in l
    ensures Less(l, gone) == l
  {
    if l != [] {
      assert l[0] in l;
      LessNone(l[1..], gone);
    }
  }

  lemma {:induction false} LessOne(l: seq<Addr>, k: nat)
    requires k < |l| && NoDup(l)
    ensures Less(l, {l[k]}) == RemoveAt(l, k)
  {
    if k == 0 {
      LessNone(l[1..], {l[0]});
    } else {
      LessOne(l[1..], k - 1);
    }
  }

  lemma {:induction false} LessTwice(l: seq<Addr>, a: set<Addr>, b: set<Addr>)
    ensures Less(Less(l, a), b) == Less(l, a + b)
  {
    if l != [] {
      LessTwice(l[1..], a, b);
      var m := Less(l[1..], a);
      if l[0] in a {
        assert Less(l, a) == m;
      } else {
        assert Less(l, a) == [l[0]] + m && ([l[0]] + m)[1..] == m;
      }
    }
  }

  /** What is left of the lists. */
  ghost predicate LessLists(ls: seq<seq<Addr>>, ls': seq<seq<Addr>>, gone: set<Addr>) {
    |ls'| == |ls| && forall i | 0 <= i < |ls| :: ls'[i] == Less(ls[i], gone)
  }

  lemma ListsSame(ls: seq<seq<Addr>>)
    ensures LessLists(ls, ls, {})
  {
    forall i | 0 <= i < |ls| ensures ls[i] == Less(ls[i], {}) { LessNone(ls[i], {}); }
  }

  lemma ListsThen(a: seq<seq<Addr>>, b: seq<seq<Addr>>, c: seq<seq<Addr>>, x: set<Addr>, y: set<Addr>)
    requires LessLists(a, b, x) && LessLists(b, c, y)
    ensures LessLists(a, c, x + y)
  {
    forall i | 0 <= i < |a| ensures c[i] == Less(a[i], x + y) { LessTwice(a[i], x, y); }
  }

  /** A chunk taken out of its list leaves the other lists alone. */
  lemma ListsUnlinked(h: Heap, i: nat, k: nat)
    requires Listed(h.chunks, h.lists) && i < |h.lists| && k < |h.lists[i]|
    ensures LessLists(h.lists, h.lists[i := RemoveAt(h.lists[i], k)], {h.lists[i][k]})
  {
    var p := h.lists[i][k];
    assert ListOk(h.chunks, i, h.lists[i]);
    forall j | 0 <= j < |h.lists| ensures h.lists[i := RemoveAt(h.lists[i], k)][j] == Less(h.lists[j], {p}) {
      if j == i {
        LessOne(h.lists[i], k);
      } else {
        NotElsewhere(h, i, k, j);
        LessNone(h.lists[j], {p});
      }
    }
  }

  lemma NotElsewhere(h: Heap, i: nat, k: nat, j: nat)
    requires Listed(h.chunks, h.lists) && i < |h.lists| && k < |h.lists[i]| && j < |h.lists| && j != i
    ensures h.lists[i][k] !in h.lists[j]
  {
    hide Suits;
    assert ListOk(h.chunks, i, h.lists[i]) && ListOk(h.chunks, j, h.lists[j]);
  }

  /** The chunk that ends at p and is free has been joined with the chunk at p. */
  ghost predicate Slid(h: Heap, g: Heap, p: Addr, lo: Addr) {
    && p in h.chunks && lo in g.chunks && lo <= p && g.chunks[lo] == Chunk(End(h.chunks, p) - lo, Loose)
    && (lo != p ==> lo in h.chunks && IsFree(h.chunks[lo].state) && End(h.chunks, lo) == p)
    && (forall a | a in h.chunks && a != lo && a != p :: a in g.chunks && g.chunks[a] == h.chunks[a])
    && (forall a | a in g.chunks && a != lo :: a in h.chunks && a != p && g.chunks[a] == h.chunks[a])
    && g.top == h.top && LessLists(h.lists, g.lists, if lo == p then {} else {lo})
  }

  lemma SlidSame(h: Heap, p: Addr)
    requires p in h.chunks && h.chunks[p].state == Loose
    ensures Slid(h, h, p, p)
  {
    ListsSame(h.lists);
  }

  lemma SlidBack(h: Heap, i: nat, k: nat, p: Addr, lo: Addr)
    requires Listed(h.chunks, h.lists) && i < NBINS && i < |h.lists| && k < |h.lists[i]| && h.lists[i][k] == lo
    requires lo in h.chunks && h.chunks[lo].state == Binned(i) && p in h.chunks && p == End(h.chunks, lo) && p != lo
    ensures var u := UnlinkHeap(h, i, k);
            lo in u.chunks && End(u.chunks, lo) in u.chunks && Slid(h, MergeChunk(u, lo), p, lo)
  {
    ListsUnlinked(h, i, k);
    hide LessLists, Listed;
  }

  /** The chunk behind p, if it is free, has been joined with it as well. */
  ghost predicate Eaten(h: Heap, g: Heap, p: Addr, hi: Addr) {
    && p in h.chunks && p in g.chunks && p <= hi && g.chunks[p] == Chunk(hi - p, Loose)
    && (hi != End(h.chunks, p) ==>
          var e := End(h.chunks, p); e in h.chunks && IsFree(h.chunks[e].state) && End(h.chunks, e) == hi && e != p)
    && (forall a | a in h.chunks && a != p && !(hi != End(h.chunks, p) && a == End(h.chunks, p)) ::
          a in g.chunks && g.chunks[a] == h.chunks[a])
    && (forall a | a in g.chunks && a != p ::
          a in h.chunks && !(hi != End(h.chunks, p) && a == End(h.chunks, p)) && g.chunks[a] == h.chunks[a])
    && g.top == h.top && LessLists(h.lists, g.lists, if hi == End(h.chunks, p) then {} else {End(h.chunks, p)})
  }

  lemma EatenSame(h: Heap, p: Addr)
    requires p in h.chunks && h.chunks[p].state == Loose
    ensures Eaten(h, h, p, End(h.chunks, p))
  {
    ListsSame(h.lists);
  }

  lemma EatenAhead(h: Heap, i: nat, k: nat, p: Addr, e: Addr)
    requires Listed(h.chunks, h.lists) && i < NBINS && i < |h.lists| && k < |h.lists[i]| && h.lists[i][k] == e
    requires e in h.chunks && h.chunks[e].state == Binned(i) && h.chunks[e].size > 0
    requires p in h.chunks && h.chunks[p].state == Loose && e == End(h.chunks, p) && p != e
    ensures var u := UnlinkHeap(h, i, k);
            p in u.chunks && End(u.chunks, p) in u.chunks && Eaten(h, MergeChunk(u, p), p, End(h.chunks, e))
  {
    ListsUnlinked(h, i, k);
    hide LessLists, Listed;
  }

  /** The chunk p has been given back: together with the free chunk that ends at it, from lo on,
      and with the free chunk or top behind it, up to hi, it is the first unsorted chunk, or
      top.  Nothing else has changed but that the joined chunks have left their lists. */
  ghost predicate Collected(h: Heap, g: Heap, p: Addr, lo: Addr, hi: Addr) {
    && p in h.chunks && lo <= p < End(h.chunks, p) <= hi
    && (lo != p ==> lo in h.chunks && IsFree(h.chunks[lo].state) && End(h.chunks, lo) == p)
    && (hi != End(h.chunks, p) ==>
          var e := End(h.chunks, p);
          e in h.chunks && (IsFree(h.chunks[e].state) || h.top == Some(e)) && End(h.chunks, e) == hi)
    && (forall a | a in h.chunks && !(lo <= a < hi) :: a in g.chunks && g.chunks[a] == h.chunks[a])
    && (forall a | a in g.chunks && a != lo :: a in h.chunks && !(lo <= a < hi) && g.chunks[a] == h.chunks[a])
    && lo in g.chunks && |g.lists| == |h.lists|
    && if h.top == Some(End(h.chunks, p)) then
         hi != End(h.chunks, p) && g.chunks[lo] == Chunk(hi - lo, Top) && g.top == Some(lo)
         && LessLists(h.lists, g.lists, Joins(h, p, lo, hi))
       else
         g.chunks[lo] == Chunk(hi - lo, Binned(1)) && g.top == h.top
         && forall i | 0 <= i < |h.lists| ::
              g.lists[i] == (if i == 1 then [lo] else []) + Less(h.lists[i], Joins(h, p, lo, hi))
  }

  /** The chunks that p was joined with, but for top. */
  ghost function Joins(h: Heap, p: Addr, lo: Addr, hi: Addr): set<Addr>
    requires p in h.chunks
  {
    (if lo == p then {} else {lo})
    + (if hi == End(h.chunks, p) || h.top == Some(End(h.chunks, p)) then {} else {End(h.chunks, p)})
  }

  lemma Between(h: Heap, p: Addr, lo: Addr, e: Addr, hi: Addr, a: Addr)
    requires Shapes(h.chunks) && Ordered(h.chunks) && p in h.chunks && lo in h.chunks && a in h.chunks
    requires lo == p || End(h.chunks, lo) == p
    requires e == End(h.chunks, p) && (hi == e || (e in h.chunks && End(h.chunks, e) == hi))
    ensures lo <= p < e <= hi
    ensures lo <= a < hi <==> a == lo || a == p || (hi != e && a == e)
  {
    assert Shaped(lo, h.chunks[lo]) && Shaped(p, h.chunks[p]) && Shaped(a, h.chunks[a]);
    if hi != e { assert Shaped(e, h.chunks[e]); }
  }

  /** A small chunk that has been given back: it keeps its place and size, becomes the first
      of the fastbin of its size, and nothing else changes. */
  ghost predicate Shelved(h: Heap, g: Heap, p: Addr) {
    && p in h.chunks && h.chunks[p].size >= MINSIZE
    && var f := NBINS + FastIndex(h.chunks[p].size);
       f < |h.lists|
       && g == h.(chunks := h.chunks[p := Chunk(h.chunks[p].size, Binned(f))], lists := h.lists[f := [p] + h.lists[f]])
  }

  lemma ShelvedIs(h: Heap, p: Addr, f: nat)
    requires p in h.chunks && h.chunks[p].size >= MINSIZE && f == NBINS + FastIndex(h.chunks[p].size) && f < |h.lists|
    ensures Shelved(h, LinkHeap(h, f, 0, p), p)
  {
    assert InsertAt(h.lists[f], 0, p) == [p] + h.lists[f];
  }

  /** It does not matter that the chunk came into the allocator's hands first. */
  lemma ShelvedLoose(h: Heap, g: Heap, p: Addr)
    requires p in h.chunks
    ensures Shelved(SetChunk(h, p, Loose), g, p) ==> Shelved(h, g, p)
  {
    if Shelved(SetChunk(h, p, Loose), g, p) {
      var f := NBINS + FastIndex(h.chunks[p].size);
      assert SetChunk(h, p, Loose).chunks[p := Chunk(h.chunks[p].size, Binned(f))]
          == h.chunks[p := Chunk(h.chunks[p].size, Binned(f))];
    }
  }

  lemma CollectedLoose(h: Heap, g: Heap, p: Addr, lo: Addr, hi: Addr)
    requires p in h.chunks && Shapes(h.chunks)
    ensures Collected(SetChunk(h, p, Loose), g, p, lo, hi) ==> Collected(h, g, p, lo, hi)
  {
    if Collected(SetChunk(h, p, Loose), g, p, lo, hi) {
      var k := SetChunk(h, p, Loose);
      assert Shaped(p, h.chunks[p]);
      assert End(k.chunks, p) == End(h.chunks, p);
      assert Joins(k, p, lo, hi) == Joins(h, p, lo, hi);
    }
  }

  /** The chunk at p, joined up to hi, has become the first unsorted chunk. */
  ghost predicate Fronts(h: Heap, g: Heap, p: Addr, hi: Addr) {
    exists v :: Eaten(h, v, p, hi) && p in v.chunks && 1 < |v.lists| && g == LinkHeap(v, 1, 0, p)
  }

  lemma FrontsIntro(h: Heap, v: Heap, p: Addr, hi: Addr)
    requires Eaten(h, v, p, hi) && p in v.chunks && 1 < |v.lists|
    ensures Fronts(h, LinkHeap(v, 1, 0, p), p, hi)
  {
    hide Eaten;
  }

  lemma CollectedFronts(h: Heap, u: Heap, g: Heap, p: Addr, lo: Addr, hi: Addr)
    requires Shapes(h.chunks) && Ordered(h.chunks) && Slid(h, u, p, lo) && Fronts(u, g, lo, hi)
    requires p in h.chunks && h.top != Some(End(h.chunks, p)) && 1 < |h.lists|
    ensures Collected(h, g, p, lo, hi)
  {
    hide Slid, Eaten, Collected;
    var v :| Eaten(u, v, lo, hi) && lo in v.chunks && 1 < |v.lists| && g == LinkHeap(v, 1, 0, lo);
    CollectedFree(h, u, v, p, lo, hi);
  }

  lemma CollectedFree(h: Heap, u: Heap, v: Heap, p: Addr, lo: Addr, hi: Addr)
    requires Shapes(h.chunks) && Ordered(h.chunks) && Slid(h, u, p, lo) && Eaten(u, v, lo, hi)
    requires h.top != Some(End(h.chunks, p)) && 1 < |h.lists|
    ensures lo in v.chunks && 1 < |v.lists| && Collected(h, LinkHeap(v, 1, 0, lo), p, lo, hi)
  {
    var e := End(h.chunks, p);
    var g := LinkHeap(v, 1, 0, lo);
    assert End(u.chunks, lo) == e;
    if hi != e { assert e != lo && e in u.chunks && e in h.chunks && u.chunks[e] == h.chunks[e]; }
    ListsThen(h.lists, u.lists, v.lists, if lo == p then {} else {lo}, if hi == e then {} else {e});
    var gone := Joins(h, p, lo, hi);
    assert forall i | 0 <= i < |h.lists| :: v.lists[i] == Less(h.lists[i], gone);
    forall i | 0 <= i < |h.lists| ensures g.lists[i] == (if i == 1 then [lo] else []) + Less(h.lists[i], gone) {
      if i == 1 { assert InsertAt(v.lists[1], 0, lo) == [lo] + v.lists[1]; }
    }
    forall a | a in h.chunks ensures lo <= a < hi <==> a == lo || a == p || (hi != e && a == e) {
      Between(h, p, lo, e, hi, a);
    }
    Between(h, p, lo, e, hi, p);
  }

  lemma CollectedTop(h: Heap, u: Heap, p: Addr, lo: Addr)
    requires Shapes(h.chunks) && Ordered(h.chunks) && Slid(h, u, p, lo)
    requires h.top == Some(End(h.chunks, p)) && End(h.chunks, p) in h.chunks
    ensures lo in u.chunks && End(u.chunks, lo) in u.chunks
    ensures Collected(h, MergeTop(u, lo), p, lo, End(h.chunks, End(h.chunks, p)))
  {
    var e := End(h.chunks, p);
    var hi := End(h.chunks, e);
    assert Shaped(p, h.chunks[p]) && Shaped(e, h.chunks[e]);
    assert e != lo && e != p && e in u.chunks && u.chunks[e] == h.chunks[e] && End(u.chunks, lo) == e;
    var gone := Joins(h, p, lo, hi);
    assert gone == if lo == p then {} else {lo};
    forall a | a in h.chunks ensures lo <= a < hi <==> a == lo || a == p || (hi != e && a == e) {
      Between(h, p, lo, e, hi, a);
    }
    Between(h, p, lo, e, hi, p);
  }

  // ----- emptying the fastbins -----

  /** The first chunk p of fastbin f has been taken off it. */
  ghost predicate OffFast(h: Heap, u: Heap, f: nat, p: Addr) {
    && |h.lists| == LISTS && f < NFASTBINS && h.lists[NBINS + f] != [] && h.lists[NBINS + f][0] == p && p in h.chunks
    && u == UnlinkHeap(h, NBINS + f, 0)
  }

  /** And has been given back. */
  ghost predicate PouredOne(h: Heap, f: nat, g: Heap) {
    exists u, p, lo, hi :: OffFast(h, u, f, p) && Collected(u, g, p, lo, hi)
  }

  lemma PouredOneIntro(h: Heap, u: Heap, f: nat, p: Addr, lo: Addr, hi: Addr, g: Heap)
    requires OffFast(h, u, f, p) && Collected(u, g, p, lo, hi)
    ensures PouredOne(h, f, g)
  {
    hide OffFast, Collected;
  }

  /** The first n chunks of fastbin f have been given back in turn. */
  ghost predicate PouredSome(h: Heap, f: nat, n: nat, g: Heap) {
    if n == 0 then g == h else exists u :: PouredSome(h, f, n - 1, u) && PouredOne(u, f, g)
  }

  lemma PouredNone(h: Heap, f: nat)
    ensures PouredSome(h, f, 0, h)
  {
  }

  lemma PouredNext(h: Heap, f: nat, n: nat, u: Heap, g: Heap)
    requires PouredSome(h, f, n, u) && PouredOne(u, f, g)
    ensures PouredSome(h, f, n + 1, g)
  {
    hide PouredOne;
  }

  ghost predicate PouredBin(h: Heap, f: nat, g: Heap) {
    PouredSome(h, f, |ListAt(h, NBINS + f)|, g)
  }

  lemma PouredWhole(h: Heap, f: nat, n: nat, g: Heap)
    requires PouredSome(h, f, n, g) && NBINS + f < |h.lists| && n == |h.lists[NBINS + f]|
    ensures PouredBin(h, f, g)
  {
    hide PouredSome;
  }

  /** All chunks of the fastbins below k have been given back, one bin after the other. */
  ghost predicate PouredBins(h: Heap, k: nat, g: Heap) {
    if k == 0 then g == h else var f: nat := k - 1; exists u :: PouredBins(h, f, u) && PouredBin(u, f, g)
  }

  lemma PouredBinsNone(h: Heap)
    ensures PouredBins(h, 0, h)
  {
  }

  lemma PouredBinsNext(h: Heap, k: nat, u: Heap, g: Heap)
    requires PouredBins(h, k, u) && PouredBin(u, k, g)
    ensures PouredBins(h, k + 1, g)
  {
    hide PouredBin;
  }

  /** All chunks of fastbins have been given back, from the smallest size on and in the order
      of their lists. */
  ghost predicate Poured(h: Heap, g: Heap) {
    PouredBins(h, FastIndex(DEFAULT_MAX_FAST) + 1, g)
  }

  lemma PouredAll(h: Heap, g: Heap)
    requires PouredBins(h, 8, g)
    ensures Poured(h, g)
  {
    hide PouredBins;
  }

  lemma PouredEmpty(h: Heap)
    requires FastEmpty(h.lists) && |h.lists| == LISTS
    ensures Poured(h, h)
  {
    PouredBinsEmpty(h, 8);
    PouredAll(h, h);
  }

  lemma {:induction false} PouredBinsEmpty(h: Heap, k: nat)
    requires FastEmpty(h.lists) && |h.lists| == LISTS && k <= NFASTBINS
    ensures PouredBins(h, k, h)
  {
    if k > 0 {
      PouredBinsEmpty(h, k - 1);
      assert ListAt(h, NBINS + (k - 1)) == [];
      PouredBinsNext(h, k - 1, h, h);
    }
  }
}
