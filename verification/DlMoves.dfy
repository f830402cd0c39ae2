/** What the allocator does with one chunk, as compositions of elementary steps: giving a
    whole chunk, cutting one, coalescing, and putting a chunk into the unsorted bin. */
module DlMoves {
  import opened DlSizes
  import opened DlHeap
  import opened DlTags
  import opened DlLinks
  import opened DlSteps

  /** p is live in cs and not in chunks; every other chunk is live in both or in neither. */
  ghost predicate Grew(chunks: Chunks, cs: Chunks, p: Addr) {
    && p in cs && cs[p].state == Used && !(p in chunks && chunks[p].state == Used)
    && (forall b | b in chunks && chunks[b].state == Used :: b in cs && cs[b] == chunks[b])
    && (forall b | b in cs && cs[b].state == Used && b != p :: b in chunks && cs[b] == chunks[b])
  }

  /** A chunk was handed out, all other live chunks and their contents are untouched. */
  ghost predicate Given(s: Store, t: Store, p: Addr) {
    && Grew(s.h.chunks, t.h.chunks, p) && Preserved(s.h.chunks, s.m, t.m)
    && SameSpace(s.h.chunks, t.h.chunks) && t.h.starts == s.h.starts
  }

  /** A chunk was taken back, all other live chunks and their contents are untouched. */
  ghost predicate Taken(s: Store, t: Store, p: Addr) {
    && Grew(t.h.chunks, s.h.chunks, p) && Preserved(t.h.chunks, s.m, t.m)
    && SameSpace(s.h.chunks, t.h.chunks) && t.h.starts == s.h.starts
  }

  lemma QuietGiven(s: Store, t: Store, u: Store, p: Addr)
    requires Quiet(s, t) && Given(t, u, p)
    ensures Given(s, u, p)
  {
    forall b, w | Payload(s.h.chunks, b, w) ensures u.m[w] == s.m[w] {
      assert Payload(t.h.chunks, b, w);
    }
  }

  lemma TakenQuiet(s: Store, t: Store, u: Store, p: Addr)
    requires Taken(s, t, p) && Quiet(t, u)
    ensures Taken(s, u, p)
  {
    forall b, w | Payload(u.h.chunks, b, w) ensures u.m[w] == s.m[w] {
      assert Payload(t.h.chunks, b, w);
    }
  }

  lemma GivenQuiet(s: Store, t: Store, u: Store, p: Addr)
    requires Given(s, t, p) && Quiet(t, u)
    ensures Given(s, u, p)
  {
    forall b, w | Payload(s.h.chunks, b, w) ensures u.m[w] == s.m[w] {
      assert Payload(t.h.chunks, b, w);
    }
  }

  /** set_inuse_bit. */
  function WithBit(head: int): int {
    if PrevInuse(head) then head else head + 1
  }

  lemma LooseBit(chunks: Chunks, starts: set<Addr>, p: Addr, v: int)
    requires Tiles(chunks, starts) && p in chunks && chunks[p].state == Loose
    ensures BitFits(chunks, starts, End(chunks, p), v)
  {
    forall b | Precedes(chunks, b, End(chunks, p)) ensures b == p {
      OnePredecessor(chunks, b, p);
    }
  }

  lemma FourMod(size: nat)
    requires size % 4 == 0
    ensures (size + 1) % 4 == 1
  {
  }

  lemma EvenOdd(j: nat)
    ensures (2 * j) % 2 == 0 && (2 * j + 1) % 2 == 1
  {
  }

  lemma TwoMod(k: nat)
    ensures (4 * k) % 2 == 0 && (4 * k + 1) % 2 == 1
  {
    EvenOdd(2 * k);
    assert 2 * (2 * k) == 4 * k;
  }

  lemma HeadBits(head: int, size: nat)
    requires HeadIs(head, size) && size % 4 == 0
    ensures SizeOf(head) == size && HeadIs(SizeOf(head), size) && !PrevInuse(SizeOf(head))
    ensures HeadIs(WithBit(head), size) && PrevInuse(WithBit(head)) && HeadIs(size + 1, size) && PrevInuse(size + 1)
  {
    hide *;
    FourMod(size);
    TwoMod(size / 4);
    assert size == 4 * (size / 4);
    HeadBitsFrom(head, size);
  }

  lemma HeadBitsFrom(head: int, size: nat)
    requires HeadIs(head, size) && size % 4 == 0 && (size + 1) % 4 == 1 && size % 2 == 0 && (size + 1) % 2 == 1
    ensures SizeOf(head) == size && HeadIs(SizeOf(head), size) && !PrevInuse(SizeOf(head))
    ensures HeadIs(WithBit(head), size) && PrevInuse(WithBit(head)) && HeadIs(size + 1, size) && PrevInuse(size + 1)
  {
    if head == size {
      assert !PrevInuse(head);
    } else {
      assert head == size + 1;
      assert PrevInuse(head);
    }
  }

  lemma EightFours(x: nat)
    requires x % 8 == 0
    ensures x % 4 == 0 && x % 2 == 0
  {
    var k := x / 8;
    assert x == 4 * (2 * k);
  }

  lemma SizeFitsSame(m: Words, q: Addr, c: Chunk, v: int)
    requires Tagged(m, q, c) && c.state != Loose && c.size % 4 == 0
    requires v == WithBit(Head(m, q)) || v == SizeOf(Head(m, q))
    ensures SizeFits(m, q, c, v)
  {
    if c.state == Fence {
      if HeadIs(Head(m, q), 4) { HeadBits(Head(m, q), 4); } else { HeadBits(Head(m, q), 8); }
    } else {
      HeadBits(Head(m, q), c.size);
    }
    hide PrevInuse, SizeOf, WithBit;
  }

  /** A size word with its bit set or cleared is still a size word of the same size. */
  lemma BitKeepsSize(m: Words, chunks: Chunks, starts: set<Addr>, q: Addr)
    requires Tags(m, chunks, starts) && q in chunks && chunks[q].state != Loose && Shaped(q, chunks[q])
    ensures SizeFits(m, q, chunks[q], WithBit(Head(m, q))) && SizeFits(m, q, chunks[q], SizeOf(Head(m, q)))
  {
    hide *;
    TagOf(m, chunks, starts, q);
    ShapedParts(q, chunks[q]);
    SizeFitsSame(m, q, chunks[q], WithBit(Head(m, q)));
    SizeFitsSame(m, q, chunks[q], SizeOf(Head(m, q)));
  }

  lemma ShapedParts(q: Addr, c: Chunk)
    requires Shaped(q, c)
    ensures c.size % 4 == 0 && c.size % 8 == 0 && q % 8 == 0 && c.size >= MINSIZE && LOW <= q
  {
    EightFours(c.size);
  }

  ghost predicate Whole(s: Store, p: Addr) {
    && p in s.h.chunks && s.h.chunks[p].state == Loose && HeadIs(Head(s.m, p), s.h.chunks[p].size)
    && Solid(s.h.chunks, End(s.h.chunks, p)) && s.h.chunks[End(s.h.chunks, p)].state != Loose
  }

  ghost function Exhausted(s: Store, p: Addr): Store
    requires p in s.h.chunks
  {
    var q := End(s.h.chunks, p);
    s.(m := s.m[q + 4 := WithBit(Head(s.m, q))], h := SetChunk(s.h, p, Used))
  }

  lemma GrewSet(chunks: Chunks, p: Addr)
    requires p in chunks && chunks[p].state != Used
    ensures Grew(chunks, Set(chunks, p, Used), p)
  {
  }

  /** The whole of a loose chunk is handed out. */
  lemma ExhaustStep(s: Store, p: Addr)
    requires Inv(s) && Whole(s, p)
    ensures Inv(Exhausted(s, p)) && Given(s, Exhausted(s, p), p)
  {
    hide *;
    WholeParts(s, p);
    ExhaustBit(s, p);
    InvParts(s);
    var q := p + s.h.chunks[p].size;
    BitReadyIs(s, p, q);
    var t := Wrote(s, q + 4, WithBit(Head(s.m, q)));
    WroteIs(s, q + 4, WithBit(Head(s.m, q)));
    HeadStep(s, q, WithBit(Head(s.m, q)));
    SettleStep(t, p);
    GrewSet(s.h.chunks, p);
    QuietParts(s, t);
    ExhaustedIs(s, p);
    GivenIntro(s, Exhausted(s, p), p);
  }

  lemma WholeParts(s: Store, p: Addr)
    requires Whole(s, p)
    ensures p in s.h.chunks && s.h.chunks[p].state == Loose && s.h.chunks[p].state != Used
    ensures p + s.h.chunks[p].size == End(s.h.chunks, p)
    ensures p + s.h.chunks[p].size in s.h.chunks && s.h.chunks[p + s.h.chunks[p].size].state != Loose
    ensures HeadIs(Head(s.m, p), s.h.chunks[p].size)
  {
  }

  ghost predicate BitReady(s: Store, p: Addr) {
    && p in s.h.chunks
    && var q := p + s.h.chunks[p].size;
       && q in s.h.chunks
       && BitFits(s.h.chunks, s.h.starts, q, WithBit(Head(s.m, q)))
       && SizeFits(s.m, q, s.h.chunks[q], WithBit(Head(s.m, q)))
       && Tagged(s.m[q + 4 := WithBit(Head(s.m, q))], p, Chunk(s.h.chunks[p].size, Used))
  }

  lemma BitReadyIs(s: Store, p: Addr, q: Addr)
    requires p in s.h.chunks && q in s.h.chunks && q == p + s.h.chunks[p].size
    ensures BitReady(s, p) <==>
      && BitFits(s.h.chunks, s.h.starts, q, WithBit(Head(s.m, q)))
      && SizeFits(s.m, q, s.h.chunks[q], WithBit(Head(s.m, q)))
      && Tagged(s.m[q + 4 := WithBit(Head(s.m, q))], p, Chunk(s.h.chunks[p].size, Used))
  {
    hide BitFits, SizeFits, Tagged;
  }

  lemma ExhaustBit(s: Store, p: Addr)
    requires Inv(s) && Whole(s, p)
    ensures BitReady(s, p)
  {
    hide *;
    WholeParts(s, p);
    InvParts(s);
    var q := p + s.h.chunks[p].size;
    BitReadyIs(s, p, q);
    ShapeOf(s.h.chunks, p);
    ShapeOf(s.h.chunks, q);
    LooseBit(s.h.chunks, s.h.starts, p, WithBit(Head(s.m, q)));
    BitKeepsSize(s.m, s.h.chunks, s.h.starts, q);
    UsedTag(s.m, p, s.h.chunks[p].size);
  }

  lemma ShapeOf(chunks: Chunks, p: Addr)
    requires Shapes(chunks) && p in chunks
    ensures Shaped(p, chunks[p]) && chunks[p].size >= 16 && p % 8 == 0 && chunks[p].size % 8 == 0 && p >= 16
  {
  }

  lemma UsedTag(m: Words, p: Addr, size: nat)
    requires HeadIs(Head(m, p), size) && size >= 16
    ensures Tagged(m[p + size + 4 := WithBit(Head(m, p + size))], p, Chunk(size, Used))
  {
  }

  lemma ExhaustedIs(s: Store, p: Addr)
    requires p in s.h.chunks
    ensures var t := Exhausted(s, p); var q := p + s.h.chunks[p].size;
            t.m == s.m[q + 4 := WithBit(Head(s.m, q))] && t.h == SetChunk(s.h, p, Used) && t.fastbins == s.fastbins
            && t.open == s.open && t.h.chunks == Set(s.h.chunks, p, Used) && t.h.starts == s.h.starts
            && t == Wrote(s, q + 4, WithBit(Head(s.m, q))).(h := SetChunk(s.h, p, Used))
  {
  }

  lemma GivenIntro(s: Store, t: Store, p: Addr)
    requires Grew(s.h.chunks, t.h.chunks, p) && Preserved(s.h.chunks, s.m, t.m)
    requires SameSpace(s.h.chunks, t.h.chunks) && t.h.starts == s.h.starts
    ensures Given(s, t, p)
  {
  }

  // ----- cutting a chunk, the rest going to the unsorted bin -----

  /** A loose chunk between chunks in use, its neighbour still told that it is free. */
  ghost predicate Spare(s: Store, p: Addr) {
    && p in s.h.chunks && s.h.chunks[p].state == Loose && Lonely(s.h.chunks, p)
    && Solid(s.h.chunks, End(s.h.chunks, p)) && s.h.chunks[End(s.h.chunks, p)].state != Loose
    && !PrevInuse(Head(s.m, End(s.h.chunks, p)))
  }

  lemma SpareParts(s: Store, p: Addr)
    requires Spare(s, p)
    ensures p in s.h.chunks && s.h.chunks[p].state == Loose && Lonely(s.h.chunks, p)
    ensures End(s.h.chunks, p) == p + s.h.chunks[p].size && Solid(s.h.chunks, p + s.h.chunks[p].size)
    ensures p + s.h.chunks[p].size in s.h.chunks && s.h.chunks[p + s.h.chunks[p].size].state != Loose
    ensures !PrevInuse(Head(s.m, p + s.h.chunks[p].size))
  {
  }

  lemma LonelyBit(chunks: Chunks, starts: set<Addr>, p: Addr, v: int)
    requires Lonely(chunks, p) && PrevInuse(v)
    ensures BitFits(chunks, starts, p, v)
  {
  }

  lemma LooseSize(m: Words, q: Addr, c: Chunk, v: int)
    requires c.state == Loose
    ensures SizeFits(m, q, c, v)
  {
  }

  lemma SplitFacts(h: Heap, p: Addr, nb: nat)
    requires CanSplit(h.chunks, p, nb) && h.chunks[p].state == Loose && p + nb !in h.chunks
    requires Lonely(h.chunks, p) && Solid(h.chunks, p + h.chunks[p].size)
    ensures var g := SplitChunk(h, p, nb);
            && p in g.chunks && g.chunks[p] == Chunk(nb, Loose)
            && p + nb in g.chunks && g.chunks[p + nb] == Chunk(h.chunks[p].size - nb, Loose)
            && Lonely(g.chunks, p) && Solid(g.chunks, p + h.chunks[p].size)
            && g.lists == h.lists && g.starts == h.starts && g.top == h.top
  {
    assert h.chunks[p].size >= 32;
  }

  /** The three tag words of the cut. */
  ghost function CutTags(m: Words, p: Addr, nb: nat, size: nat): Words
    requires nb <= size
  {
    m[p + nb + 4 := size - nb + 1][p + 4 := nb + 1][p + size := size - nb]
  }

  lemma CutRead(m: Words, p: Addr, nb: nat, size: nat)
    requires p % 8 == 0 && nb % 8 == 0 && size % 8 == 0 && 16 <= nb && nb + 16 <= size
    ensures var n := CutTags(m, p, nb, size);
            && Tagged(n, p, Chunk(nb, Used))
            && (!PrevInuse(m[p + size + 4]) ==> Tagged(n, p + nb, Chunk(size - nb, Binned(1))))
  {
    EightFours(size - nb);
    EightFours(nb);
    HeadBits(size - nb, size - nb);
    HeadBits(nb, nb);
    hide PrevInuse;
  }

  ghost function CutHeap(h: Heap, p: Addr, nb: nat): Heap
    requires CanSplit(h.chunks, p, nb)
  {
    var g := SplitChunk(h, p, nb);
    if p in g.chunks then SetChunk(g, p, Used) else g
  }

  ghost function CutOpened(s: Store, p: Addr, nb: nat): Store
    requires CanSplit(s.h.chunks, p, nb)
  {
    Wrote(s, p + nb + 4, s.h.chunks[p].size - nb + 1).(h := SplitChunk(s.h, p, nb))
  }

  lemma CutOpen(s: Store, p: Addr, nb: nat)
    requires Inv(s) && Spare(s, p) && CanSplit(s.h.chunks, p, nb)
    ensures Inv(CutOpened(s, p, nb)) && Quiet(s, CutOpened(s, p, nb))
    ensures p + nb !in s.h.chunks && CutOpened(s, p, nb).h == SplitChunk(s.h, p, nb)
  {
    hide *;
    SpareParts(s, p);
    InvParts(s);
    CutShapes(s.h.chunks, p, nb);
    var v := s.h.chunks[p].size - nb + 1;
    InsideStep(s, p, p + nb + 4, v);
    WroteIs(s, p + nb + 4, v);
    SplitStep(Wrote(s, p + nb + 4, v), p, nb);
    CutOpenedIs(s, p, nb);
    QuietThen(s, Wrote(s, p + nb + 4, v), CutOpened(s, p, nb));
  }

  lemma CutOpenedIs(s: Store, p: Addr, nb: nat)
    requires CanSplit(s.h.chunks, p, nb)
    ensures p in s.h.chunks
    ensures CutOpened(s, p, nb) == Wrote(s, p + nb + 4, s.h.chunks[p].size - nb + 1).(h := SplitChunk(s.h, p, nb))
  {
  }

  ghost function CutClosed(s: Store, p: Addr, nb: nat, rest: nat): Store {
    Wrote(Wrote(s, p + 4, nb + 1), p + nb + rest, rest)
  }

  lemma CutClose(s: Store, p: Addr, nb: nat, rest: nat)
    requires Inv(s) && p in s.h.chunks && s.h.chunks[p].state == Loose && Lonely(s.h.chunks, p) && nb % 8 == 0
    requires p + nb in s.h.chunks && s.h.chunks[p + nb] == Chunk(rest, Loose)
    ensures Inv(CutClosed(s, p, nb, rest)) && Quiet(s, CutClosed(s, p, nb, rest))
  {
    hide *;
    CutHead(s, p, nb);
    var t := Wrote(s, p + 4, nb + 1);
    WroteIs(s, p + 4, nb + 1);
    EndIs(t.h.chunks, p + nb);
    FootStep(t, p + nb, rest);
    CutClosedIs(s, p, nb, rest);
    QuietThen(s, t, CutClosed(s, p, nb, rest));
  }

  lemma CutClosedIs(s: Store, p: Addr, nb: nat, rest: nat)
    ensures CutClosed(s, p, nb, rest) == Wrote(Wrote(s, p + 4, nb + 1), p + nb + rest, rest)
  {
  }

  /** Up to the tags: the front is live, the rest is loose. */
  lemma CutFront(s: Store, p: Addr, nb: nat)
    requires Inv(s) && Spare(s, p) && CanSplit(s.h.chunks, p, nb)
    ensures p in s.h.chunks && nb <= s.h.chunks[p].size
    ensures var t := s.(m := CutTags(s.m, p, nb, s.h.chunks[p].size), h := CutHeap(s.h, p, nb));
            Inv(t) && Given(s, t, p) && CutDone(s, t, p, nb)
  {
    hide *;
    SpareParts(s, p);
    InvParts(s);
    CutShapes(s.h.chunks, p, nb);
    CutOpen(s, p, nb);
    SplitFacts(s.h, p, nb);
    var s2 := CutOpened(s, p, nb);
    var rest: nat := s.h.chunks[p].size - nb;
    CutClose(s2, p, nb, rest);
    QuietThen(s, s2, CutClosed(s2, p, nb, rest));
    CutStores(s, p, nb);
    CutLast(s, CutClosed(s2, p, nb, rest), p, nb);
  }

  lemma CutStores(s: Store, p: Addr, nb: nat)
    requires CanSplit(s.h.chunks, p, nb)
    ensures p in s.h.chunks && nb <= s.h.chunks[p].size
    ensures CutClosed(CutOpened(s, p, nb), p, nb, s.h.chunks[p].size - nb)
         == s.(m := CutTags(s.m, p, nb, s.h.chunks[p].size), h := SplitChunk(s.h, p, nb))
  {
  }

  lemma CutLast(s: Store, s4: Store, p: Addr, nb: nat)
    requires Inv(s) && Spare(s, p) && CanSplit(s.h.chunks, p, nb) && p + nb !in s.h.chunks
    requires Inv(s4) && Quiet(s, s4)
    requires s4 == s.(m := CutTags(s.m, p, nb, s.h.chunks[p].size), h := SplitChunk(s.h, p, nb))
    ensures var t := s.(m := CutTags(s.m, p, nb, s.h.chunks[p].size), h := CutHeap(s.h, p, nb));
            Inv(t) && Given(s, t, p) && CutDone(s, t, p, nb)
  {
    hide *;
    SpareParts(s, p);
    InvParts(s);
    CutShapes(s.h.chunks, p, nb);
    CutRead(s.m, p, nb, s.h.chunks[p].size);
    CutSettle(s, s4, p, nb);
  }

  lemma CutShapes(chunks: Chunks, p: Addr, nb: nat)
    requires Shapes(chunks) && CanSplit(chunks, p, nb) && chunks[p].state == Loose
    ensures p % 8 == 0 && nb % 8 == 0 && chunks[p].size % 8 == 0 && 16 <= nb && nb + 16 <= chunks[p].size
    ensures Inside(chunks, p, p + nb + 4)
  {
    assert Shaped(p, chunks[p]);
  }

  lemma CutHead(s: Store, p: Addr, nb: nat)
    requires Inv(s) && p in s.h.chunks && s.h.chunks[p].state == Loose && Lonely(s.h.chunks, p) && nb % 8 == 0
    ensures Inv(Wrote(s, p + 4, nb + 1)) && Quiet(s, Wrote(s, p + 4, nb + 1))
  {
    hide *;
    EightFours(nb);
    HeadIsSelf(nb);
    HeadBits(nb, nb);
    LonelyBit(s.h.chunks, s.h.starts, p, nb + 1);
    LooseSize(s.m, p, s.h.chunks[p], nb + 1);
    HeadStep(s, p, nb + 1);
  }

  lemma HeadIsSelf(size: nat)
    ensures HeadIs(size, size) && HeadIs(size + 1, size)
  {
  }

  /** The relation of the two heaps around the cut. */
  ghost predicate CutDone(s: Store, t: Store, p: Addr, nb: nat) {
    && p in s.h.chunks && nb <= s.h.chunks[p].size
    && p + nb in t.h.chunks && t.h.chunks[p + nb] == Chunk(s.h.chunks[p].size - nb, Loose)
    && p in t.h.chunks && t.h.chunks[p] == Chunk(nb, Used)
    && Lonely(t.h.chunks, p + nb) && Solid(t.h.chunks, p + s.h.chunks[p].size)
    && t.h.lists == s.h.lists && t.h.starts == s.h.starts && t.h.top == s.h.top
    && (!PrevInuse(s.m[p + s.h.chunks[p].size + 4]) ==>
          Tagged(t.m, p + nb, Chunk(s.h.chunks[p].size - nb, Binned(1))))
  }

  lemma CutSettle(s: Store, s4: Store, p: Addr, nb: nat)
    requires Inv(s4) && Quiet(s, s4) && CanSplit(s.h.chunks, p, nb) && s.h.chunks[p].state == Loose && p + nb !in s.h.chunks
    requires Lonely(s.h.chunks, p) && Solid(s.h.chunks, p + s.h.chunks[p].size)
    requires s4 == s.(m := s4.m, h := SplitChunk(s.h, p, nb)) && Tagged(s4.m, p, Chunk(nb, Used))
    requires !PrevInuse(s.m[p + s.h.chunks[p].size + 4]) ==>
               Tagged(s4.m, p + nb, Chunk(s.h.chunks[p].size - nb, Binned(1)))
    ensures var t := s.(m := s4.m, h := CutHeap(s.h, p, nb)); Inv(t) && Given(s, t, p) && CutDone(s, t, p, nb)
  {
    hide *;
    SplitFacts(s.h, p, nb);
    CutHeapIs(s.h, p, nb);
    SettleStep(s4, p);
    var t := s4.(h := SetChunk(s4.h, p, Used));
    GrewSet(s4.h.chunks, p);
    SetChunkIs(s4.h, p, Used);
    SettledGiven(s4, t, p);
    QuietGiven(s, s4, t, p);
    CutDoneIntro(s, t, p, nb);
  }

  lemma SettledGiven(s: Store, t: Store, p: Addr)
    requires t.m == s.m && Grew(s.h.chunks, t.h.chunks, p) && t.h.starts == s.h.starts
    requires SameSpace(s.h.chunks, t.h.chunks)
    ensures Given(s, t, p)
  {
  }

  lemma SetChunkIs(h: Heap, p: Addr, st: State)
    requires p in h.chunks
    ensures SetChunk(h, p, st).chunks == Set(h.chunks, p, st) && SetChunk(h, p, st).lists == h.lists
    ensures SetChunk(h, p, st).starts == h.starts && SetChunk(h, p, st).top == h.top
    ensures p in Set(h.chunks, p, st) && Set(h.chunks, p, st)[p] == Chunk(h.chunks[p].size, st)
  {
  }

  lemma CutHeapIs(h: Heap, p: Addr, nb: nat)
    requires CanSplit(h.chunks, p, nb) && h.chunks[p].state == Loose
    ensures p in SplitChunk(h, p, nb).chunks && CutHeap(h, p, nb) == SetChunk(SplitChunk(h, p, nb), p, Used)
  {
  }

  lemma CutDoneIntro(s: Store, t: Store, p: Addr, nb: nat)
    requires CanSplit(s.h.chunks, p, nb) && s.h.chunks[p].state == Loose && p + nb !in s.h.chunks
    requires Lonely(s.h.chunks, p) && Solid(s.h.chunks, p + s.h.chunks[p].size) && Inv(t)
    requires t.h == CutHeap(s.h, p, nb)
    requires !PrevInuse(s.m[p + s.h.chunks[p].size + 4]) ==>
               Tagged(t.m, p + nb, Chunk(s.h.chunks[p].size - nb, Binned(1)))
    ensures CutDone(s, t, p, nb)
  {
    hide Tagged, PrevInuse, Listed, Apart, TopIs, Tags, AllLinked, AllChained;
    var g := t.h.chunks;
    assert s.h.chunks[p].size >= nb + 16;
    forall b | b in g && IsFree(g[b].state) ensures End(g, b) != p + nb {
      assert b != p;
      if End(g, b) == p + nb { OnePredecessor(g, b, p); }
    }
  }

  ghost function CutStore(s: Store, p: Addr, nb: nat): Store
    requires CanSplit(s.h.chunks, p, nb)
  {
    s.(m := CutTags(s.m, p, nb, s.h.chunks[p].size), h := CutHeap(s.h, p, nb))
  }

  lemma CutStoreIs(s: Store, p: Addr, nb: nat)
    requires CanSplit(s.h.chunks, p, nb)
    ensures p in s.h.chunks && nb <= s.h.chunks[p].size
    ensures CutStore(s, p, nb) == s.(m := CutTags(s.m, p, nb, s.h.chunks[p].size), h := CutHeap(s.h, p, nb))
  {
  }

  /** A loose chunk becomes the only unsorted one. */
  ghost function Alone(t: Store, p: Addr): Store {
    if p in t.h.chunks && |t.h.lists| > 1
    then t.(m := LinkedAlone(t.m, 1, p), h := LinkHeap(t.h, 1, 0, p), open := false) else t
  }

  lemma AloneIs(t: Store, p: Addr)
    requires p in t.h.chunks && |t.h.lists| > 1
    ensures Alone(t, p) == t.(m := LinkedAlone(t.m, 1, p), h := LinkHeap(t.h, 1, 0, p), open := false)
  {
  }

  lemma CutMayLink(s: Store, t: Store, p: Addr, nb: nat)
    requires CutDone(s, t, p, nb) && |s.h.lists| == LISTS && s.h.lists[1] == []
    ensures MayLink(t.h, 1, 0, p + nb) && t.h.lists[1] == []
  {
    hide Lonely, Solid, Tagged;
  }

  lemma CutDoneParts(s: Store, t: Store, p: Addr, nb: nat)
    requires CutDone(s, t, p, nb)
    ensures p in s.h.chunks && nb <= s.h.chunks[p].size && p + nb in t.h.chunks
    ensures t.h.chunks[p + nb] == Chunk(s.h.chunks[p].size - nb, Loose) && t.h.lists == s.h.lists
    ensures p in t.h.chunks && t.h.chunks[p] == Chunk(nb, Used)
    ensures !PrevInuse(s.m[p + s.h.chunks[p].size + 4]) ==>
              Tagged(t.m, p + nb, Chunk(s.h.chunks[p].size - nb, Binned(1)))
  {
  }

  /** A loose chunk is cut; the front is handed out, the rest becomes the unsorted list,
      which was empty. */
  lemma CutStep(s: Store, p: Addr, nb: nat)
    requires Inv(s) && Spare(s, p) && CanSplit(s.h.chunks, p, nb) && s.h.lists[1] == []
    ensures var u := Alone(CutStore(s, p, nb), p + nb);
            Inv(u) && Given(s, u, p) && !u.open && p in u.h.chunks && u.h.chunks[p] == Chunk(nb, Used)
  {
    hide *;
    SpareParts(s, p);
    InvParts(s);
    ListCount();
    CutFront(s, p, nb);
    CutStoreIs(s, p, nb);
    var t := CutStore(s, p, nb);
    CutDoneParts(s, t, p, nb);
    CutMayLink(s, t, p, nb);
    HeadOf(s.m, p + s.h.chunks[p].size);
    InvParts(t);
    AloneStep(t, p + nb);
    AloneIs(t, p + nb);
    GivenQuiet(s, t, Alone(t, p + nb), p);
    GivenChunk(t, Alone(t, p + nb), p);
  }

  lemma HeadOf(m: Words, p: Addr)
    ensures Head(m, p) == m[p + 4]
  {
  }

  lemma GivenChunk(t: Store, u: Store, p: Addr)
    requires Quiet(t, u) && p in t.h.chunks && t.h.chunks[p].state == Used
    ensures p in u.h.chunks && u.h.chunks[p] == t.h.chunks[p]
  {
  }

  // ----- cutting top -----

  lemma TopFacts(s: Store)
    requires Inv(s) && s.h.top.Some?
    ensures s.h.top.value in s.h.chunks && s.h.chunks[s.h.top.value].state == Top && Lonely(s.h.chunks, s.h.top.value)
    ensures HeadIs(Head(s.m, s.h.top.value), s.h.chunks[s.h.top.value].size)
    ensures s.h.chunks[s.h.top.value].size % 8 == 0 && s.h.chunks[s.h.top.value].size >= MINSIZE
    ensures s.h.top.value % 8 == 0 && s.h.top.value >= LOW
  {
    var p := s.h.top.value;
    assert Tagged(s.m, p, s.h.chunks[p]);
    assert Shaped(p, s.h.chunks[p]);
    forall b | b in s.h.chunks && IsFree(s.h.chunks[b].state) ensures End(s.h.chunks, b) != p {
      assert Solid(s.h.chunks, End(s.h.chunks, b));
    }
  }

  ghost function TopTags(m: Words, p: Addr, nb: nat, size: nat): Words
    requires nb <= size
  {
    m[p + nb + 4 := size - nb + 1][p + 4 := nb + 1]
  }

  ghost function TopHeap(h: Heap, p: Addr, nb: nat): Heap
    requires CanSplit(h.chunks, p, nb)
  {
    var g := SplitChunk(h, p, nb);
    if p in g.chunks then SetChunk(g, p, Used) else g
  }

  ghost function TopCut(s: Store, p: Addr, nb: nat): Store
    requires CanSplit(s.h.chunks, p, nb)
  {
    s.(m := TopTags(s.m, p, nb, s.h.chunks[p].size), h := TopHeap(s.h, p, nb))
  }

  lemma TopSplitFacts(h: Heap, p: Addr, nb: nat)
    requires CanSplit(h.chunks, p, nb) && h.chunks[p].state == Top && p + nb !in h.chunks && Lonely(h.chunks, p)
    ensures var g := SplitChunk(h, p, nb);
            && p in g.chunks && g.chunks[p] == Chunk(nb, Loose) && g.top == Some(p + nb)
            && p + nb in g.chunks && g.chunks[p + nb] == Chunk(h.chunks[p].size - nb, Top)
            && Lonely(g.chunks, p) && g.lists == h.lists && g.starts == h.starts
    ensures TopHeap(h, p, nb) == SetChunk(SplitChunk(h, p, nb), p, Used)
  {
  }

  lemma TopCutStores(s: Store, p: Addr, nb: nat)
    requires CanSplit(s.h.chunks, p, nb) && p in SplitChunk(s.h, p, nb).chunks
    ensures p in s.h.chunks && nb <= s.h.chunks[p].size
    ensures TopCut(s, p, nb) == Wrote(CutOpened(s, p, nb), p + 4, nb + 1).(h := SetChunk(SplitChunk(s.h, p, nb), p, Used))
  {
  }

  lemma TopOpen(s: Store, p: Addr, nb: nat)
    requires Inv(s) && s.h.top == Some(p) && CanSplit(s.h.chunks, p, nb)
    ensures Inv(CutOpened(s, p, nb)) && Quiet(s, CutOpened(s, p, nb))
    ensures p + nb !in s.h.chunks && CutOpened(s, p, nb).h == SplitChunk(s.h, p, nb)
  {
    hide *;
    TopFacts(s);
    InvParts(s);
    CutInside(s.h.chunks, p, nb);
    var v := s.h.chunks[p].size - nb + 1;
    InsideStep(s, p, p + nb + 4, v);
    WroteIs(s, p + nb + 4, v);
    HeadIsSelf(s.h.chunks[p].size - nb);
    HeadOf(Wrote(s, p + nb + 4, v).m, p + nb);
    SplitStep(Wrote(s, p + nb + 4, v), p, nb);
    CutOpenedIs(s, p, nb);
    QuietThen(s, Wrote(s, p + nb + 4, v), CutOpened(s, p, nb));
  }

  lemma CutInside(chunks: Chunks, p: Addr, nb: nat)
    requires CanSplit(chunks, p, nb) && chunks[p].state != Fence
    ensures Inside(chunks, p, p + nb + 4) && p in chunks && nb <= chunks[p].size && nb % 8 == 0 && nb >= 16
  {
  }

  /** The front of top is handed out; the rest is the new top. */
  lemma TopCutStep(s: Store, p: Addr, nb: nat)
    requires Inv(s) && s.h.top == Some(p) && CanSplit(s.h.chunks, p, nb)
    ensures Inv(TopCut(s, p, nb)) && Given(s, TopCut(s, p, nb), p) && TopCut(s, p, nb).h.top == Some(p + nb)
    ensures p in TopCut(s, p, nb).h.chunks && TopCut(s, p, nb).h.chunks[p] == Chunk(nb, Used)
    ensures TopCut(s, p, nb).h.lists == s.h.lists
  {
    hide *;
    TopFacts(s);
    InvParts(s);
    CutInside(s.h.chunks, p, nb);
    TopOpen(s, p, nb);
    TopSplitFacts(s.h, p, nb);
    var s2 := CutOpened(s, p, nb);
    CutHead(s2, p, nb);
    var s3 := Wrote(s2, p + 4, nb + 1);
    WroteIs(s2, p + 4, nb + 1);
    TopCutTag(s, p, nb);
    SettleStep(s3, p);
    TopCutStores(s, p, nb);
    var t := s3.(h := SetChunk(s3.h, p, Used));
    SetChunkIs(s3.h, p, Used);
    GrewSet(s3.h.chunks, p);
    SettledGiven(s3, t, p);
    QuietThen(s, s2, s3);
    QuietGiven(s, s3, t, p);
  }

  lemma TopCutTag(s: Store, p: Addr, nb: nat)
    requires CanSplit(s.h.chunks, p, nb) && p % 8 == 0 && s.h.chunks[p].size % 8 == 0
    ensures Tagged(Wrote(CutOpened(s, p, nb), p + 4, nb + 1).m, p, Chunk(nb, Used))
  {
    EightFours(s.h.chunks[p].size - nb);
    HeadBits(s.h.chunks[p].size - nb, s.h.chunks[p].size - nb);
    EightFours(nb);
    HeadBits(nb, nb);
    hide PrevInuse, SplitChunk;
  }
}
