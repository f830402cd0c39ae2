/** The heap in memory words: boundary tags and the links of the bins, as the chunk macros
    read and write them. */
module DlTags {
  import opened DlSizes
  import opened DlHeap

  /** Memory by word address; payload words and the allocator's words share it. */
  type Words = m: imap<int, int> | forall w: int :: w in m
    ghost witness imap w: int :: 0

  /** A store to one word. */
  function Poke(m: Words, w: int, v: int): Words {
    m[w := v]
  }

  // ----- the fields of a chunk -----

  function PrevSize(m: Words, p: Addr): int { m[p] }
  function Head(m: Words, p: Addr): int { m[p + 4] }
  function Fd(m: Words, p: Addr): int { m[p + 8] }
  function Bk(m: Words, p: Addr): int { m[p + 12] }

  /** chunksize: the size word without its two flag bits. */
  function SizeOf(head: int): int {
    head - head % 4
  }

  predicate PrevInuse(head: int) {
    head % 2 == 1
  }

  /** A size word: the size, with or without the PREV_INUSE bit, never with IS_MMAPPED. */
  ghost predicate HeadIs(head: int, size: nat) {
    head == size || head == size + 1
  }

  /** bin_at(i): the header of a bin, seen as a chunk of which only the links exist. */
  function BinAt(i: nat): Addr {
    1024 + 8 * i
  }

  // ----- boundary tags -----

  ghost predicate FenceTag(m: Words, a: Addr) {
    (HeadIs(m[a + 4], 4) && PrevInuse(m[a + 8])) || (HeadIs(m[a + 4], 8) && PrevInuse(m[a + 12]))
  }

  /** What the words around a chunk say about it. */
  ghost predicate Tagged(m: Words, a: Addr, c: Chunk) {
    match c.state
    case Loose => true
    case Top => HeadIs(m[a + 4], c.size)
    case Fence => FenceTag(m, a)
    case Used => HeadIs(m[a + 4], c.size) && PrevInuse(m[a + c.size + 4])
    case Binned(i) =>
      && HeadIs(m[a + 4], c.size)
      && if i < NBINS then !PrevInuse(m[a + c.size + 4]) && m[a + c.size] == c.size
         else PrevInuse(m[a + c.size + 4])
  }

  /** Every size word is right; PREV_INUSE is clear exactly when the preceding chunk is
      free, and then the word before the size word holds that chunk's size. */
  ghost predicate Tags(m: Words, chunks: Chunks, starts: set<Addr>) {
    && (forall a | a in chunks :: Tagged(m, a, chunks[a]))
    && (forall a {:trigger a in starts} | a in starts :: PrevInuse(m[a + 4]))
  }

  /** Memories that agree on all words the tags are made of. */
  ghost predicate SameTags(m: Words, n: Words, chunks: Chunks) {
    forall a {:trigger a in chunks} | a in chunks ::
      n[a] == m[a] && n[a + 4] == m[a + 4] && (chunks[a].state == Fence ==> n[a + 8] == m[a + 8] && n[a + 12] == m[a + 12])
  }

  lemma TaggedSame(m: Words, n: Words, a: Addr, c: Chunk)
    requires Tagged(m, a, c) && n[a + 4] == m[a + 4]
    requires HasNext(c.state) ==> n[a + c.size] == m[a + c.size] && n[a + c.size + 4] == m[a + c.size + 4]
    requires c.state == Fence ==> n[a + 8] == m[a + 8] && n[a + 12] == m[a + 12]
    ensures Tagged(n, a, c)
  {
  }

  lemma TagsSame(m: Words, n: Words, chunks: Chunks, starts: set<Addr>)
    requires Tags(m, chunks, starts) && SameTags(m, n, chunks) && Followed(chunks, starts) && starts <= chunks.Keys
    ensures Tags(n, chunks, starts)
  {
    hide Tagged;
    forall a | a in chunks ensures Tagged(n, a, chunks[a]) {
      assert HasNext(chunks[a].state) ==> End(chunks, a) in chunks;
      TaggedSame(m, n, a, chunks[a]);
    }
  }

  lemma InsideApart(chunks: Chunks, p: Addr, w: int)
    requires Shapes(chunks) && Ordered(chunks) && Inside(chunks, p, w)
    ensures forall a {:trigger a in chunks} | a in chunks :: a != w && a + 4 != w && (chunks[a].state == Fence ==> a + 8 != w && a + 12 != w)
  {
    assert Shaped(p, chunks[p]);
    forall a | a in chunks ensures a != w && a + 4 != w && (chunks[a].state == Fence ==> a + 8 != w && a + 12 != w) {
      assert Shaped(a, chunks[a]);
      if a < p { assert End(chunks, a) <= p; }
      if p < a { assert End(chunks, p) <= a; }
    }
  }

  /** A word strictly inside a chunk, behind its size word. */
  ghost predicate Inside(chunks: Chunks, p: Addr, w: int) {
    p in chunks && chunks[p].state != Fence && p + 8 <= w < End(chunks, p)
  }

  lemma InsideTags(m: Words, chunks: Chunks, starts: set<Addr>, p: Addr, w: int, v: int)
    requires Tags(m, chunks, starts) && Tiles(chunks, starts) && Inside(chunks, p, w)
    ensures Tags(m[w := v], chunks, starts)
  {
    InsideApart(chunks, p, w);
    hide Tags, Shapes, Ordered, Preceded, Followed, Inside;
    TagsSame(m, m[w := v], chunks, starts);
  }

  lemma BinTags(m: Words, chunks: Chunks, starts: set<Addr>, w: int, v: int)
    requires Tags(m, chunks, starts) && Tiles(chunks, starts) && w < LOW
    ensures Tags(m[w := v], chunks, starts)
  {
    hide Tags, Ordered, Preceded, Followed;
    assert forall a | a in chunks :: Shaped(a, chunks[a]);
    TagsSame(m, m[w := v], chunks, starts);
  }

  /** What the size word of q may become, given the chunk before it. */
  ghost predicate BitFits(chunks: Chunks, starts: set<Addr>, q: Addr, v: int) {
    && (q in starts ==> PrevInuse(v))
    && forall b | Precedes(chunks, b, q) ::
         chunks[b].state == Loose || (IsFree(chunks[b].state) <==> !PrevInuse(v))
  }

  ghost predicate SizeFits(m: Words, q: Addr, c: Chunk, v: int) {
    match c.state
    case Loose => true
    case Fence => (HeadIs(v, 4) && PrevInuse(m[q + 8])) || (HeadIs(v, 8) && PrevInuse(m[q + 12]))
    case _ => HeadIs(v, c.size)
  }

  lemma HeadTags(m: Words, chunks: Chunks, starts: set<Addr>, q: Addr, v: int)
    requires Tags(m, chunks, starts) && Tiles(chunks, starts) && q in chunks
    requires BitFits(chunks, starts, q, v) && SizeFits(m, q, chunks[q], v)
    ensures Tags(m[q + 4 := v], chunks, starts)
  {
    hide *;
    var n: Words := m[q + 4 := v];
    forall a | a in chunks ensures Tagged(n, a, chunks[a]) {
      TagOf(m, chunks, starts, a);
      HeadTagged(m, chunks, starts, q, v, a);
    }
    forall a | a in starts ensures PrevInuse(n[a + 4]) {
      StartBit(m, chunks, starts, q, v, a);
    }
    TagsIntro(n, chunks, starts);
  }

  lemma TagOf(m: Words, chunks: Chunks, starts: set<Addr>, a: Addr)
    requires Tags(m, chunks, starts) && a in chunks
    ensures Tagged(m, a, chunks[a])
  {
    hide Tagged;
  }

  lemma TagsIntro(m: Words, chunks: Chunks, starts: set<Addr>)
    requires forall a | a in chunks :: Tagged(m, a, chunks[a])
    requires forall a {:trigger a in starts} | a in starts :: PrevInuse(m[a + 4])
    ensures Tags(m, chunks, starts)
  {
    hide Tagged;
  }

  lemma StartBit(m: Words, chunks: Chunks, starts: set<Addr>, q: Addr, v: int, a: Addr)
    requires Tags(m, chunks, starts) && BitFits(chunks, starts, q, v) && a in starts
    ensures PrevInuse(m[q + 4 := v][a + 4])
  {
    hide Tagged;
  }

  lemma HeadTagged(m: Words, chunks: Chunks, starts: set<Addr>, q: Addr, v: int, a: Addr)
    requires Tiles(chunks, starts) && q in chunks && a in chunks && Tagged(m, a, chunks[a])
    requires BitFits(chunks, starts, q, v) && SizeFits(m, q, chunks[q], v)
    ensures Tagged(m[q + 4 := v], a, chunks[a])
  {
    assert Shaped(a, chunks[a]) && Shaped(q, chunks[q]);
    if HasNext(chunks[a].state) && End(chunks, a) == q {
      assert Precedes(chunks, a, q);
    } else if a < q {
      assert End(chunks, a) <= q;
    } else if q < a {
      assert End(chunks, q) <= a;
    }
  }

  /** The word before a chunk may change when the chunk before it is loose. */
  lemma FootTags(m: Words, chunks: Chunks, starts: set<Addr>, p: Addr, v: int)
    requires Tags(m, chunks, starts) && Tiles(chunks, starts)
    requires p in chunks && chunks[p].state == Loose
    ensures Tags(m[End(chunks, p) := v], chunks, starts)
  {
    hide *;
    var w := p + chunks[p].size;
    var n: Words := m[w := v];
    EndIs(chunks, p);
    forall a | a in chunks ensures Tagged(n, a, chunks[a]) {
      TagOf(m, chunks, starts, a);
      FootTagged(m, chunks, starts, p, v, a);
    }
    forall a | a in starts ensures PrevInuse(n[a + 4]) {
      StartFoot(m, chunks, starts, p, v, a);
    }
    TagsIntro(n, chunks, starts);
  }

  lemma EndIs(chunks: Chunks, p: Addr)
    requires p in chunks
    ensures End(chunks, p) == p + chunks[p].size
  {
  }

  lemma StartFoot(m: Words, chunks: Chunks, starts: set<Addr>, p: Addr, v: int, a: Addr)
    requires Tags(m, chunks, starts) && Tiles(chunks, starts) && p in chunks && a in starts
    ensures PrevInuse(m[p + chunks[p].size := v][a + 4])
  {
    hide Tagged;
    assert Shaped(a, chunks[a]) && Shaped(p, chunks[p]);
  }

  lemma FootTagged(m: Words, chunks: Chunks, starts: set<Addr>, p: Addr, v: int, a: Addr)
    requires Tiles(chunks, starts) && p in chunks && chunks[p].state == Loose && a in chunks && Tagged(m, a, chunks[a])
    ensures Tagged(m[p + chunks[p].size := v], a, chunks[a])
  {
    var w := End(chunks, p);
    assert Shaped(p, chunks[p]) && Shaped(a, chunks[a]);
    assert w in chunks && Shaped(w, chunks[w]);
    if a < w { assert End(chunks, a) <= w; }
    if a != p && HasNext(chunks[a].state) && End(chunks, a) == w { OnePredecessor(chunks, a, p); }
  }

  lemma SetTags(m: Words, chunks: Chunks, starts: set<Addr>, p: Addr, st: State)
    requires Tags(m, chunks, starts) && p in chunks && Tagged(m, p, Chunk(chunks[p].size, st))
    ensures Tags(m, Set(chunks, p, st), starts)
  {
    hide Tagged;
  }

  lemma SplitTags(m: Words, chunks: Chunks, starts: set<Addr>, p: Addr, nb: nat, st: State, rest: State)
    requires Tags(m, chunks, starts) && CanSplit(chunks, p, nb)
    requires Tagged(m, p, Chunk(nb, st)) && Tagged(m, p + nb, Chunk(chunks[p].size - nb, rest))
    ensures Tags(m, Split(chunks, p, nb, st, rest), starts)
  {
    hide Tagged;
  }

  lemma MergeTags(m: Words, chunks: Chunks, starts: set<Addr>, p: Addr, st: State)
    requires Tags(m, chunks, starts) && p in chunks && End(chunks, p) in chunks
    requires Tagged(m, p, Chunk(chunks[p].size + chunks[End(chunks, p)].size, st))
    ensures Tags(m, Merge(chunks, p, st), starts)
  {
    hide Tagged;
  }

  // ----- what the tags tell -----

  /** The inuse test on the following chunk's size word is right. */
  lemma TagTells(m: Words, chunks: Chunks, starts: set<Addr>, b: Addr, q: Addr)
    requires Tags(m, chunks, starts) && Precedes(chunks, b, q) && chunks[b].state != Loose
    ensures PrevInuse(Head(m, q)) <==> !IsFree(chunks[b].state)
    ensures IsFree(chunks[b].state) ==> PrevSize(m, q) == chunks[b].size && q - PrevSize(m, q) == b
  {
    assert Tagged(m, b, chunks[b]);
  }

  /** A clear PREV_INUSE bit means that a free chunk precedes, and prev_size finds it. */
  lemma PrevTells(m: Words, chunks: Chunks, starts: set<Addr>, q: Addr)
    requires Tags(m, chunks, starts) && Tiles(chunks, starts) && q in chunks
    requires forall b | Precedes(chunks, b, q) :: chunks[b].state != Loose
    ensures PrevInuse(Head(m, q)) <==> Lonely(chunks, q)
    ensures !PrevInuse(Head(m, q)) ==>
      Precedes(chunks, q - PrevSize(m, q), q) && IsFree(chunks[q - PrevSize(m, q)].state)
      && chunks[q - PrevSize(m, q)].size == PrevSize(m, q)
  {
    if q in starts {
      assert forall b | b in chunks && IsFree(chunks[b].state) :: End(chunks, b) !in starts;
    } else {
      var b :| Precedes(chunks, b, q);
      TagTells(m, chunks, starts, b, q);
      forall c | c in chunks && IsFree(chunks[c].state) && End(chunks, c) == q ensures c == b {
        OnePredecessor(chunks, b, c);
      }
    }
  }
}
