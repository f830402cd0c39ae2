/** Rearrangements of one space: chunks that cover the same addresses with the same regions,
    fences and live chunks. */
module DlSpace {
  import opened DlSizes
  import opened DlHeap
  import opened DlSteps

  ghost function Range(lo: int, hi: int): (r: set<int>)
    ensures forall w :: w in r <==> lo <= w < hi
    ensures |r| == if lo <= hi then hi - lo else 0
    decreases hi - lo
  {
    if lo < hi then Range(lo, hi - 1) + {hi - 1} else {}
  }

  /** The addresses that chunks cover. */
  ghost function Cover(chunks: Chunks): (r: set<int>)
    ensures forall w :: w in r <==> InChunk(chunks, w)
    decreases |chunks|
  {
    if chunks == map[] then {}
    else
      var a :| a in chunks;
      Smaller(chunks, a);
      CoverSplits(chunks, a);
      Range(a, End(chunks, a)) + Cover(chunks - {a})
  }

  lemma CoverSplits(chunks: Chunks, a: Addr)
    requires a in chunks
    ensures forall w :: InChunk(chunks, w) <==> InChunk(chunks - {a}, w) || a <= w < End(chunks, a)
  {
    var cs := chunks - {a};
    forall w ensures InChunk(chunks, w) <==> InChunk(cs, w) || a <= w < End(chunks, a) {
      if InChunk(chunks, w) {
        var b :| b in chunks && b <= w < End(chunks, b);
        if b != a { assert b in cs && b <= w < End(cs, b); }
      }
      if InChunk(cs, w) {
        var b :| b in cs && b <= w < End(cs, b);
        assert b in chunks && b <= w < End(chunks, b);
      }
    }
  }

  /** Chunks that do not overlap cover as many addresses as they have bytes. */
  lemma {:induction false} CoverCounts(chunks: Chunks)
    requires Ordered(chunks)
    ensures |Cover(chunks)| == Total(chunks)
    decreases |chunks|
  {
    if chunks != map[] {
      var c :| c in chunks;
      var cs := chunks - {c};
      Smaller(chunks, c);
      TotalWithout(chunks, c);
      assert Ordered(cs);
      CoverCounts(cs);
      CoverSplits(chunks, c);
      CoverApart(chunks, c);
      assert Cover(chunks) == Range(c, End(chunks, c)) + Cover(cs);
    }
  }

  lemma CoverApart(chunks: Chunks, c: Addr)
    requires Ordered(chunks) && c in chunks
    ensures Range(c, End(chunks, c)) !! Cover(chunks - {c})
  {
    var cs := chunks - {c};
    forall w | InChunk(cs, w) ensures !(c <= w < End(chunks, c)) {
      OutsideOthers(chunks, c, w);
    }
    hide InChunk, Ordered, Cover, Range;
  }

  lemma OutsideOthers(chunks: Chunks, c: Addr, w: int)
    requires Ordered(chunks) && c in chunks && InChunk(chunks - {c}, w)
    ensures !(c <= w < End(chunks, c))
  {
    var a :| a in chunks - {c} && a <= w < End(chunks - {c}, a);
    assert a in chunks && a != c;
  }

  /** Chunks that cover no more addresses than others, with the same number of bytes, cover
      the same addresses. */
  lemma SpaceBack(chunks: Chunks, cs: Chunks, w: int)
    requires Ordered(chunks) && Ordered(cs) && SameSpace(chunks, cs) && InChunk(chunks, w)
    ensures InChunk(cs, w)
  {
    CoverCounts(chunks);
    CoverCounts(cs);
    forall v | v in Cover(cs) ensures v in Cover(chunks) {
      assert InChunk(cs, v);
      assert InChunk(chunks, v);
    }
    SubsetEqual(Cover(cs), Cover(chunks));
    assert w in Cover(chunks);
  }

  lemma SubsetEqual(xs: set<int>, ys: set<int>)
    requires xs <= ys && |xs| == |ys|
    ensures xs == ys
  {
    assert ys == xs + (ys - xs);
    assert |ys| == |xs| + |ys - xs|;
  }

  /** The same space and regions, and the same live chunks. */
  ghost predicate SameGround(h: Heap, g: Heap) {
    && SameSpace(h.chunks, g.chunks) && SameLive(h.chunks, g.chunks) && g.starts == h.starts
  }

  lemma SameGroundThen(h: Heap, g: Heap, k: Heap)
    requires SameGround(h, g) && SameGround(g, k)
    ensures SameGround(h, k)
  {
    SameSpaceThen(h.chunks, g.chunks, k.chunks);
    hide SameSpace;
  }

  lemma SameGroundSelf(h: Heap)
    ensures SameGround(h, h)
  {
  }

  /** The chunk of g in which an address of h lies. */
  lemma Landing(h: Heap, g: Heap, w: int) returns (r: Addr)
    requires Tiles(h.chunks, h.starts) && Tiles(g.chunks, g.starts) && SameSpace(h.chunks, g.chunks) && InChunk(h.chunks, w)
    ensures r in g.chunks && r <= w < End(g.chunks, r)
  {
    SpaceBack(h.chunks, g.chunks, w);
    r :| r in g.chunks && r <= w < End(g.chunks, r);
  }

  /** No chunk begins inside another. */
  lemma NoneInside(chunks: Chunks, q: Addr, c: Addr)
    requires Ordered(chunks) && q in chunks && q < c < End(chunks, q)
    ensures c !in chunks
  {
  }

  /** A chunk that covers the end of another begins there. */
  lemma NextTo(chunks: Chunks, r: Addr, c: Addr)
    requires Shapes(chunks) && Ordered(chunks) && r in chunks && c in chunks && c <= End(chunks, r) < End(chunks, c)
    ensures c == End(chunks, r)
  {
    assert Shaped(r, chunks[r]) && Shaped(c, chunks[c]);
  }

  /** What lies behind a chunk without successor begins a region. */
  lemma Behind(h: Heap, q: Addr, c: Addr)
    requires Tiles(h.chunks, h.starts) && q in h.chunks && !HasNext(h.chunks[q].state) && c in h.chunks && c == End(h.chunks, q)
    ensures c in h.starts
  {
    if c !in h.starts {
      var b :| Precedes(h.chunks, b, c);
      OnePredecessor(h.chunks, q, b);
    }
  }

  lemma GroundParts(h: Heap, g: Heap)
    requires SameGround(h, g)
    ensures SameSpace(h.chunks, g.chunks) && SameLive(h.chunks, g.chunks) && g.starts == h.starts
  {
    hide SameSpace, SameLive;
  }

  lemma TilingGives(chunks: Chunks, starts: set<Addr>)
    requires Tiles(chunks, starts)
    ensures Shapes(chunks) && Ordered(chunks)
  {
  }

  lemma Covers(chunks: Chunks, a: Addr, w: int)
    requires a in chunks && a <= w < End(chunks, a)
    ensures InChunk(chunks, w)
  {
  }

  lemma StartsIn(h: Heap, a: Addr)
    requires Tiles(h.chunks, h.starts) && a in h.starts
    ensures a in h.chunks
  {
  }

  /** Where the end of a chunk of g lies inside a chunk of h, g has a chunk beginning there that
      begins no region. */
  lemma EndInside(h: Heap, g: Heap, q: Addr, r: Addr)
    requires Tiles(h.chunks, h.starts) && Tiles(g.chunks, g.starts) && SameGround(h, g)
    requires q in h.chunks && r in g.chunks && q < End(g.chunks, r) < End(h.chunks, q)
    ensures End(g.chunks, r) in g.chunks && End(g.chunks, r) !in g.starts && End(g.chunks, r) !in h.chunks
    ensures HasNext(g.chunks[r].state)
  {
    hide *;
    var e := End(g.chunks, r);
    GroundParts(h, g);
    TilingGives(h.chunks, h.starts);
    TilingGives(g.chunks, g.starts);
    Covers(h.chunks, q, e);
    var c := Landing(h, g, e);
    NextTo(g.chunks, r, c);
    NoneInside(h.chunks, q, e);
    if e in g.starts { StartsIn(h, e); }
    if !HasNext(g.chunks[r].state) { Behind(g, r, e); }
  }

  /** A chunk of g that begins inside a chunk of h without successor ends inside it. */
  lemma EndBeyond(h: Heap, g: Heap, q: Addr, r: Addr)
    requires Tiles(h.chunks, h.starts) && Tiles(g.chunks, g.starts) && SameGround(h, g)
    requires q in h.chunks && !HasNext(h.chunks[q].state) && r in g.chunks && r <= q
    ensures End(g.chunks, r) <= End(h.chunks, q)
  {
    hide *;
    var z := End(h.chunks, q);
    GroundParts(h, g);
    TilingGives(h.chunks, h.starts);
    TilingGives(g.chunks, g.starts);
    EndLater(h.chunks, q);
    if z < End(g.chunks, r) {
      Covers(g.chunks, r, z);
      var c := SpaceForward(h.chunks, g.chunks, z);
      NextTo(h.chunks, q, c);
      Behind(h, q, z);
      StartsIn(g, z);
      NoneInside(g.chunks, r, z);
    }
  }

  lemma EndLater(chunks: Chunks, q: Addr)
    requires Shapes(chunks) && q in chunks
    ensures q < End(chunks, q)
  {
    assert Shaped(q, chunks[q]);
  }

  lemma SpaceForward(chunks: Chunks, cs: Chunks, w: int) returns (c: Addr)
    requires SameSpace(chunks, cs) && InChunk(cs, w)
    ensures c in chunks && c <= w < End(chunks, c)
  {
    assert InChunk(chunks, w);
    c :| c in chunks && c <= w < End(chunks, c);
  }

  lemma TopOf(h: Heap)
    requires WellFormed(h) && h.top.Some?
    ensures h.top.value in h.chunks && h.chunks[h.top.value].state == Top && Tiles(h.chunks, h.starts)
  {
  }

  lemma TopEnds()
    ensures !HasNext(Top)
  {
  }

  /** Top has the same size if it is in the same place. */
  lemma TopStays(h: Heap, g: Heap)
    requires WellFormed(h) && WellFormed(g) && SameGround(h, g) && h.top == g.top && h.top.Some?
    ensures h.top.value in h.chunks && h.top.value in g.chunks && g.chunks[h.top.value].size == h.chunks[h.top.value].size
  {
    hide *;
    var t := h.top.value;
    TopOf(h);
    TopOf(g);
    TopEnds();
    EndBeyond(h, g, t, t);
    TilingGives(g.chunks, g.starts);
    EndLater(g.chunks, t);
    EndSum(h.chunks, t);
    EndSum(g.chunks, t);
    if End(g.chunks, t) < End(h.chunks, t) { EndInside(h, g, t, t); }
  }

  lemma EndSum(chunks: Chunks, a: Addr)
    requires a in chunks
    ensures End(chunks, a) == a + chunks[a].size
  {
  }

  // ----- nothing that fits -----

  /** Nothing waits to be consolidated. */
  ghost predicate Merged(chunks: Chunks) {
    forall a | a in chunks :: chunks[a].state != Loose && !IsFast(chunks[a].state)
  }

  /** A chunk from which nb bytes can be served: a free one, also if it counts as in use in a
      fastbin, or top if enough of it is left. */
  ghost predicate Fits(h: Heap, q: Addr, nb: nat) {
    q in h.chunks && (((IsFree(h.chunks[q].state) || IsFast(h.chunks[q].state)) && h.chunks[q].size >= nb)
                      || (h.chunks[q].state == Top && h.chunks[q].size >= nb + MINSIZE))
  }

  ghost predicate Depleted(h: Heap, nb: nat) {
    forall q :: !Fits(h, q, nb)
  }

  /** What is neither live nor a fence lies, after everything has been merged, in a chunk that
      is free or top and no smaller; top stays in top. */
  lemma Absorbed(h: Heap, g: Heap, q: Addr) returns (r: Addr)
    requires WellFormed(h) && WellFormed(g) && SameGround(h, g) && Merged(g.chunks)
    requires q in h.chunks && h.chunks[q].state != Used && h.chunks[q].state != Fence
    ensures r in g.chunks && r <= q && End(h.chunks, q) <= End(g.chunks, r)
    ensures if h.chunks[q].state == Top then g.chunks[r].state == Top else IsFree(g.chunks[r].state) || g.chunks[r].state == Top
  {
    hide *;
    Shell(h);
    Shell(g);
    GroundParts(h, g);
    TilingGives(h.chunks, h.starts);
    TilingGives(g.chunks, g.starts);
    EndLater(h.chunks, q);
    Covers(h.chunks, q, q);
    r := Landing(h, g, q);
    NotLive(h, g, q, r);
    var e := End(g.chunks, r);
    if e < End(h.chunks, q) {
      EndInside(h, g, q, r);
      TopEnds();
      WallBehind(h, g, r);
    }
    if h.chunks[q].state == Top && g.chunks[r].state != Top {
      TopEnds();
      EndBeyond(h, g, q, r);
      WallBehind(h, g, r);
      if e == End(h.chunks, q) {
        Behind(h, q, e);
        NoStart(g, r);
      }
    }
  }

  lemma Shell(h: Heap)
    requires WellFormed(h)
    ensures Tiles(h.chunks, h.starts) && Apart(h.chunks)
  {
  }

  lemma NoStart(g: Heap, r: Addr)
    requires Tiles(g.chunks, g.starts) && r in g.chunks && IsFree(g.chunks[r].state)
    ensures End(g.chunks, r) !in g.starts
  {
  }

  /** What covers the beginning of a chunk that is neither live nor a fence is neither. */
  lemma NotLive(h: Heap, g: Heap, q: Addr, r: Addr)
    requires Shapes(h.chunks) && Ordered(h.chunks) && SameSpace(h.chunks, g.chunks) && SameLive(h.chunks, g.chunks) && Merged(g.chunks)
    requires q in h.chunks && h.chunks[q].state != Used && h.chunks[q].state != Fence
    requires r in g.chunks && r <= q < End(g.chunks, r)
    ensures IsFree(g.chunks[r].state) || g.chunks[r].state == Top
  {
    var st := g.chunks[r].state;
    if st == Used || st == Fence { assert false; }
  }

  /** What follows a free chunk was there before. */
  lemma WallBehind(h: Heap, g: Heap, r: Addr)
    requires Apart(g.chunks) && Merged(g.chunks) && SameSpace(h.chunks, g.chunks) && SameLive(h.chunks, g.chunks)
    requires r in g.chunks && IsFree(g.chunks[r].state)
    ensures End(g.chunks, r) in h.chunks
  {
    var e := End(g.chunks, r);
    assert Solid(g.chunks, e);
    var st := g.chunks[e].state;
    assert st == Used || st == Fence;
  }

  /** A chunk that has become part of top has done so together with the old top. */
  lemma IntoTheTop(h: Heap, g: Heap, q: Addr, r: Addr)
    requires WellFormed(h) && WellFormed(g) && SameGround(h, g) && Merged(g.chunks)
    requires q in h.chunks && h.chunks[q].state != Top
    requires r in g.chunks && r <= q && End(h.chunks, q) <= End(g.chunks, r) && g.chunks[r].state == Top
    ensures g.chunks[r].size >= h.chunks[q].size + MINSIZE
  {
    hide *;
    var t := SomeTop(h, q);
    Shell(h);
    TilingGives(h.chunks, h.starts);
    TopsDiffer();
    var u := Absorbed(h, g, t);
    SameTop(g, r, u);
    TwoInside(h.chunks, g.chunks, q, t, r);
  }

  lemma TopsDiffer()
    ensures Top != Used && Top != Fence
  {
  }

  lemma SomeTop(h: Heap, q: Addr) returns (t: Addr)
    requires WellFormed(h) && q in h.chunks
    ensures t in h.chunks && h.chunks[t].state == Top
  {
    t := h.top.value;
  }

  lemma SameTop(g: Heap, r: Addr, u: Addr)
    requires WellFormed(g) && r in g.chunks && u in g.chunks && g.chunks[r].state == Top && g.chunks[u].state == Top
    ensures r == u
  {
    assert g.top == Some(r) && g.top == Some(u);
  }

  lemma TwoInside(chunks: Chunks, cs: Chunks, q: Addr, t: Addr, r: Addr)
    requires Shapes(chunks) && Ordered(chunks) && q in chunks && t in chunks && q != t && r in cs
    requires r <= q && End(chunks, q) <= End(cs, r) && r <= t && End(chunks, t) <= End(cs, r)
    ensures cs[r].size >= chunks[q].size + MINSIZE
  {
    assert Shaped(q, chunks[q]) && Shaped(t, chunks[t]);
  }

  /** What does not fit after everything has been merged did not fit before. */
  lemma DepletedBefore(h: Heap, g: Heap, nb: nat)
    requires WellFormed(h) && WellFormed(g) && SameGround(h, g) && Merged(g.chunks) && Depleted(g, nb)
    ensures Depleted(h, nb)
  {
    hide *;
    forall q ensures !Fits(h, q, nb) {
      if Fits(h, q, nb) {
        FitsOf(h, q, nb);
        var r := Absorbed(h, g, q);
        if h.chunks[q].state != Top && g.chunks[r].state == Top { IntoTheTop(h, g, q, r); }
        FitsLarger(h, g, q, r, nb);
        NotDepleted(g, r, nb);
      }
    }
    DepletedIntro(h, nb);
  }

  lemma FitsOf(h: Heap, q: Addr, nb: nat)
    requires Fits(h, q, nb)
    ensures q in h.chunks && h.chunks[q].state != Used && h.chunks[q].state != Fence
  {
  }

  lemma FitsLarger(h: Heap, g: Heap, q: Addr, r: Addr, nb: nat)
    requires Fits(h, q, nb) && r in g.chunks && r <= q && End(h.chunks, q) <= End(g.chunks, r)
    requires if h.chunks[q].state == Top then g.chunks[r].state == Top else IsFree(g.chunks[r].state) || g.chunks[r].state == Top
    requires h.chunks[q].state != Top && g.chunks[r].state == Top ==> g.chunks[r].size >= h.chunks[q].size + MINSIZE
    ensures Fits(g, r, nb)
  {
  }

  lemma NotDepleted(g: Heap, r: Addr, nb: nat)
    requires Depleted(g, nb)
    ensures !Fits(g, r, nb)
  {
  }

  lemma DepletedIntro(h: Heap, nb: nat)
    requires forall q :: !Fits(h, q, nb)
    ensures Depleted(h, nb)
  {
  }
}
