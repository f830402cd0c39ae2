/** Memory from the system: extending, replacing and trimming the top chunk. */
module DlSystem {
  import opened DlSizes
  import opened DlHeap
  import opened DlTags
  import opened DlLinks
  import opened DlSteps
  import opened DlMoves
  import opened DlCoalesce

  /** No chunk reaches into the addresses from lo to hi. */
  ghost predicate Clear(chunks: Chunks, lo: Addr, hi: Addr) {
    forall a | a in chunks :: End(chunks, a) <= lo || hi <= a
  }

  /** The heap covers the addresses from lo to hi in addition; nothing live has changed. */
  ghost predicate Extended(s: Store, t: Store, lo: Addr, hi: Addr) {
    && SameLive(s.h.chunks, t.h.chunks) && Preserved(s.h.chunks, s.m, t.m) && lo <= hi
    && Total(t.h.chunks) == Total(s.h.chunks) + (hi - lo)
    && forall w | InChunk(t.h.chunks, w) :: InChunk(s.h.chunks, w) || lo <= w < hi
  }

  // ----- top grows or shrinks -----

  function Resize(chunks: Chunks, t: Addr, size: nat): Chunks
    requires t in chunks
  {
    chunks[t := Chunk(size, Top)]
  }

  lemma ResizeTiles(chunks: Chunks, starts: set<Addr>, t: Addr, size: nat)
    requires Tiles(chunks, starts) && t in chunks && chunks[t].state == Top && size % 8 == 0 && size >= MINSIZE
    requires size > chunks[t].size ==> Clear(chunks, End(chunks, t), t + size)
    ensures Tiles(Resize(chunks, t, size), starts)
  {
    hide Shapes, Ordered, Followed, Preceded;
    ResizeOrdered(chunks, t, size);
    ResizePreceded(chunks, starts, t, size);
    ResizeFollowed(chunks, starts, t, size);
  }

  lemma ResizePreceded(chunks: Chunks, starts: set<Addr>, t: Addr, size: nat)
    requires Preceded(chunks, starts) && t in chunks && chunks[t].state == Top
    ensures Preceded(Resize(chunks, t, size), starts)
  {
    var cs := Resize(chunks, t, size);
    forall a | a in cs && a !in starts ensures exists b :: Precedes(cs, b, a) {
      var b :| Precedes(chunks, b, a);
      assert Precedes(cs, b, a);
    }
  }

  lemma ResizeFollowed(chunks: Chunks, starts: set<Addr>, t: Addr, size: nat)
    requires Followed(chunks, starts) && t in chunks && chunks[t].state == Top
    ensures Followed(Resize(chunks, t, size), starts)
  {
    var cs := Resize(chunks, t, size);
    forall a | a in cs && HasNext(cs[a].state) ensures End(cs, a) in cs && End(cs, a) !in starts {
      assert a in chunks && HasNext(chunks[a].state);
    }
  }

  lemma ResizeOrdered(chunks: Chunks, t: Addr, size: nat)
    requires Shapes(chunks) && Ordered(chunks) && t in chunks && chunks[t].state == Top && size % 8 == 0 && size >= MINSIZE
    requires size > chunks[t].size ==> Clear(chunks, End(chunks, t), t + size)
    ensures Shapes(Resize(chunks, t, size)) && Ordered(Resize(chunks, t, size))
  {
    var cs := Resize(chunks, t, size);
    assert Shaped(t, chunks[t]);
    forall a, b | a in cs && b in cs && a < b ensures End(cs, a) <= b {
      assert End(chunks, a) <= b;
      assert Shaped(b, chunks[b]);
    }
  }

  ghost function Resized(s: Store, size: nat): Store {
    if s.h.top.Some? && s.h.top.value in s.h.chunks
    then s.(m := Poke(s.m, s.h.top.value + 4, size + 1), h := s.h.(chunks := Resize(s.h.chunks, s.h.top.value, size)))
    else s
  }

  lemma ResizedIs(s: Store, size: nat)
    requires s.h.top.Some? && s.h.top.value in s.h.chunks
    ensures var t := Resized(s, size); var p := s.h.top.value;
            t.m == Poke(s.m, p + 4, size + 1) && t.h.chunks == Resize(s.h.chunks, p, size) && t.h.starts == s.h.starts
            && t.h.top == s.h.top && t.h.lists == s.h.lists && t.fastbins == s.fastbins && t.open == s.open
            && t == s.(m := Wrote(s, p + 4, size + 1).m, h := t.h)
  {
  }

  lemma ResizeSame(chunks: Chunks, t: Addr, size: nat)
    requires t in chunks && chunks[t].state == Top
    ensures var cs := Resize(chunks, t, size); SameBinned(chunks, cs) && SameLive(chunks, cs) && (NoLoose(chunks) ==> NoLoose(cs))
  {
  }

  lemma ResizeApart(h: Heap, t: Addr, size: nat)
    requires Apart(h.chunks) && TopIs(h.chunks, h.top) && h.top == Some(t) && t in h.chunks
    ensures Apart(Resize(h.chunks, t, size)) && TopIs(Resize(h.chunks, t, size), h.top)
  {
    var cs := Resize(h.chunks, t, size);
    assert h.chunks[t].state == Top;
    forall a | a in cs && IsFree(cs[a].state) ensures Solid(cs, End(cs, a)) {
      assert Solid(h.chunks, End(h.chunks, a));
    }
  }

  lemma ResizeTotal(chunks: Chunks, t: Addr, size: nat)
    requires t in chunks
    ensures Total(Resize(chunks, t, size)) == Total(chunks) - chunks[t].size + size
  {
    TotalWithout(chunks, t);
    TotalWithout(Resize(chunks, t, size), t);
    assert Resize(chunks, t, size) - {t} == chunks - {t};
  }

  lemma ResizeSpace(chunks: Chunks, t: Addr, size: nat, w: int)
    requires t in chunks && InChunk(Resize(chunks, t, size), w)
    ensures InChunk(chunks, w) || End(chunks, t) <= w < t + size
  {
    var cs := Resize(chunks, t, size);
    var a :| a in cs && a <= w < End(cs, a);
    if a != t || w < End(chunks, t) { assert a in chunks && a <= w < End(chunks, a); }
  }

  lemma ResizeTags(m: Words, chunks: Chunks, starts: set<Addr>, t: Addr, size: nat)
    requires Tags(m, chunks, starts) && Tiles(chunks, starts) && t in chunks && chunks[t].state == Top && Apart(chunks)
    requires size % 2 == 0
    ensures Tags(Poke(m, t + 4, size + 1), Resize(chunks, t, size), starts)
  {
    hide *;
    var n := Poke(m, t + 4, size + 1);
    var cs := Resize(chunks, t, size);
    OddBit(size);
    forall a | a in cs ensures Tagged(n, a, cs[a]) {
      ResizeAt(chunks, t, size, a);
      TagOf(m, chunks, starts, a);
      if a != t { OtherTagged(m, chunks, starts, t, size + 1, a); } else { TopTagged(m, t, size); }
    }
    forall a | a in starts ensures PrevInuse(n[a + 4]) {
      StartPoked(m, chunks, starts, t, size + 1, a);
    }
    TagsIntro(n, cs, starts);
  }

  lemma OddBit(size: nat)
    requires size % 2 == 0
    ensures PrevInuse(size + 1)
  {
  }

  lemma ResizeAt(chunks: Chunks, t: Addr, size: nat, a: Addr)
    requires t in chunks && a in Resize(chunks, t, size)
    ensures a in chunks && Resize(chunks, t, size)[a] == if a == t then Chunk(size, Top) else chunks[a]
  {
  }

  lemma TopTagged(m: Words, t: Addr, size: nat)
    ensures Tagged(Poke(m, t + 4, size + 1), t, Chunk(size, Top))
  {
  }

  lemma StartPoked(m: Words, chunks: Chunks, starts: set<Addr>, t: Addr, v: int, a: Addr)
    requires Tags(m, chunks, starts) && a in starts && PrevInuse(v)
    ensures PrevInuse(Poke(m, t + 4, v)[a + 4])
  {
    hide Tagged;
  }

  lemma OtherTagged(m: Words, chunks: Chunks, starts: set<Addr>, t: Addr, v: int, a: Addr)
    requires Tiles(chunks, starts) && t in chunks && a in chunks && a != t && Tagged(m, a, chunks[a]) && Apart(chunks)
    requires chunks[t].state == Top && PrevInuse(v)
    ensures Tagged(Poke(m, t + 4, v), a, chunks[a])
  {
    assert Shaped(a, chunks[a]) && Shaped(t, chunks[t]);
    if a < t { assert End(chunks, a) <= t; }
    if IsFree(chunks[a].state) { assert Solid(chunks, End(chunks, a)); }
  }

  /** Top gets another size: it grows into clear memory, or gives back its end. */
  lemma ResizeStep(s: Store, size: nat)
    requires Inv(s) && s.h.top.Some? && s.h.top.value in s.h.chunks && size % 8 == 0 && size >= MINSIZE
    requires var t := s.h.top.value; size > s.h.chunks[t].size ==> Clear(s.h.chunks, End(s.h.chunks, t), t + size)
    ensures Inv(Resized(s, size)) && SameLive(s.h.chunks, Resized(s, size).h.chunks)
    ensures Preserved(s.h.chunks, s.m, Resized(s, size).m)
  {
    hide *;
    TopFacts(s);
    InvParts(s);
    Parts(s.h);
    var t := s.h.top.value;
    ResizedIs(s, size);
    ResizeTiles(s.h.chunks, s.h.starts, t, size);
    ResizeSame(s.h.chunks, t, size);
    ListedSame(s.h.chunks, Resize(s.h.chunks, t, size), s.h.lists);
    ResizeApart(s.h, t, size);
    EightFours(size);
    ResizeTags(s.m, s.h.chunks, s.h.starts, t, size);
    HeadLinks(s.m, s.h.chunks, t, size + 1);
    PokeIs(s.m, t + 4, size + 1);
    AllLinkedSame(s.m, Poke(s.m, t + 4, size + 1), s.h.chunks, s.h.lists, s.open);
    AllChainedSame(s.m, Poke(s.m, t + 4, size + 1), s.h.chunks, s.fastbins, s.h.lists);
    WellFormedIntro(Resized(s, size).h);
    InvIntro(Resized(s, size));
    HeadNotPayload(s.h.chunks, t);
    PreservedWrite(s.h.chunks, s.m, t + 4, size + 1);
  }

  lemma PokeIs(m: Words, w: int, v: int)
    ensures Poke(m, w, v) == m[w := v]
  {
  }

  lemma WellFormedIntro(h: Heap)
    requires Tiles(h.chunks, h.starts) && Listed(h.chunks, h.lists) && Apart(h.chunks) && TopIs(h.chunks, h.top)
    ensures WellFormed(h) && |h.lists| == LISTS
  {
  }

  // ----- a new top elsewhere; the old one is closed by fenceposts -----

  /** What is left of the old top in front of the fenceposts. */
  function Shrunk(size: nat): int {
    (size - 12) - (size - 12) % 8
  }

  lemma ShrunkIs(size: nat)
    requires size % 8 == 0 && size >= 16
    ensures Shrunk(size) == size - 16
  {
    var k := size / 8;
    assert size - 12 == 8 * (k - 2) + 4;
  }

  function Fenced(chunks: Chunks, t: Addr): Chunks
    requires t in chunks && chunks[t].size >= 16
  {
    if chunks[t].size >= 32 then Split(chunks, t, chunks[t].size - 16, Loose, Fence) else Set(chunks, t, Fence)
  }

  /** The size of the rest of the old top, and the two fenceposts. */
  function FenceWords(m: Words, t: Addr, size: nat): Words {
    Poke(Poke(Poke(m, t + 4, Shrunk(size) + 1), t + Shrunk(size) + 4, SIZE_SZ + 1), t + Shrunk(size) + 8, SIZE_SZ + 1)
  }

  lemma FencedTiles(chunks: Chunks, starts: set<Addr>, t: Addr)
    requires Tiles(chunks, starts) && t in chunks && chunks[t].state == Top
    ensures chunks[t].size >= 16 && Tiles(Fenced(chunks, t), starts)
    ensures chunks[t].size >= 32 ==> CanSplit(chunks, t, chunks[t].size - 16) && t + (chunks[t].size - 16) !in chunks
  {
    hide *;
    TileParts(chunks, starts);
    ShapeOf(chunks, t);
    EightLess(chunks[t].size);
    FencedIs(chunks, t);
    if chunks[t].size >= 32 {
      FenceCut(chunks, t);
      SplitTiles(chunks, starts, t, chunks[t].size - 16, Loose, Fence);
    } else {
      SetTiles(chunks, starts, t, Fence);
    }
  }

  lemma TileParts(chunks: Chunks, starts: set<Addr>)
    requires Tiles(chunks, starts)
    ensures Shapes(chunks) && Ordered(chunks) && Followed(chunks, starts) && Preceded(chunks, starts)
    ensures starts <= chunks.Keys && !HasNext(Top) && !HasNext(Fence) && HasNext(Loose)
  {
  }

  lemma FenceCut(chunks: Chunks, t: Addr)
    requires t in chunks && chunks[t].size >= 32 && (chunks[t].size - 16) % 8 == 0
    ensures CanSplit(chunks, t, chunks[t].size - 16)
  {
  }

  lemma FencedIs(chunks: Chunks, t: Addr)
    requires t in chunks && chunks[t].size >= 16
    ensures Fenced(chunks, t)
         == if chunks[t].size >= 32 then Split(chunks, t, chunks[t].size - 16, Loose, Fence) else Set(chunks, t, Fence)
  {
  }

  lemma EightLess(size: nat)
    requires size % 8 == 0 && size >= 16
    ensures (size - 16) % 8 == 0
  {
  }

  ghost predicate Room(chunks: Chunks, a: Addr, n: nat) {
    Clear(chunks, a, a + n) && a % 8 == 0 && n % 8 == 0 && n >= MINSIZE && a >= LOW
  }

  lemma FencedRoom(chunks: Chunks, t: Addr, a: Addr, n: nat)
    requires t in chunks && chunks[t].size >= 16 && Room(chunks, a, n)
    ensures Room(Fenced(chunks, t), a, n)
  {
  }

  lemma AddTiles(chunks: Chunks, starts: set<Addr>, a: Addr, n: nat)
    requires Tiles(chunks, starts) && Room(chunks, a, n)
    ensures a !in chunks && Tiles(chunks[a := Chunk(n, Top)], starts + {a})
  {
    hide Shapes, Ordered, Followed, Preceded, Room;
    NotThere(chunks, a, n);
    AddOrdered(chunks, a, n);
    AddPreceded(chunks, starts, a, n);
    AddFollowed(chunks, starts, a, n);
  }

  lemma AddPreceded(chunks: Chunks, starts: set<Addr>, a: Addr, n: nat)
    requires Preceded(chunks, starts) && a !in chunks
    ensures Preceded(chunks[a := Chunk(n, Top)], starts + {a})
  {
    var cs := chunks[a := Chunk(n, Top)];
    forall x | x in cs && x !in starts + {a} ensures exists b :: Precedes(cs, b, x) {
      var b :| Precedes(chunks, b, x);
      assert Precedes(cs, b, x);
    }
  }

  lemma AddFollowed(chunks: Chunks, starts: set<Addr>, a: Addr, n: nat)
    requires Followed(chunks, starts) && a !in chunks
    ensures Followed(chunks[a := Chunk(n, Top)], starts + {a})
  {
    var cs := chunks[a := Chunk(n, Top)];
    forall x | x in cs && HasNext(cs[x].state) ensures End(cs, x) in cs && End(cs, x) !in starts + {a} {
      assert x in chunks && HasNext(chunks[x].state);
    }
  }

  lemma NotThere(chunks: Chunks, a: Addr, n: nat)
    requires Shapes(chunks) && Room(chunks, a, n)
    ensures a !in chunks
  {
    assert a in chunks ==> Shaped(a, chunks[a]);
  }

  lemma AddOrdered(chunks: Chunks, a: Addr, n: nat)
    requires Shapes(chunks) && Ordered(chunks) && Room(chunks, a, n) && a !in chunks
    ensures Shapes(chunks[a := Chunk(n, Top)]) && Ordered(chunks[a := Chunk(n, Top)])
  {
    var cs := chunks[a := Chunk(n, Top)];
    forall x, y | x in cs && y in cs && x < y ensures End(cs, x) <= y {
      if x in chunks { assert Shaped(x, chunks[x]); }
      if y in chunks { assert Shaped(y, chunks[y]); }
    }
  }

  // ----- tags around the fenceposts -----

  /** Memories that differ only inside the old top and in one clear word. */
  ghost predicate OnlyFence(m: Words, n: Words, t: Addr, size: nat, a: Addr) {
    PrevInuse(n[t + 4]) && forall w: int | !(t + 4 <= w < t + size) && w != a + 4 :: n[w] == m[w]
  }

  lemma FencePokes(m: Words, t: Addr, f: nat, a: Addr)
    requires t % 8 == 0 && PrevInuse(f + 1) && (a + 4 < t + 4 || t + f + 16 <= a + 4)
    ensures var n := Poke(Poke(Poke(m, t + 4, f + 1), t + f + 4, 5), t + f + 8, 5);
            OnlyFence(m, n, t, f + 16, a) && n[a + 4] == m[a + 4] && FenceTag(n, t + f)
            && (f == 8 ==> FenceTag(n, t))
  {
    assert PrevInuse(5);
    assert PrevInuse(9);
    hide PrevInuse;
  }

  lemma FenceOnly(m: Words, t: Addr, size: nat, a: Addr, v: int)
    requires size % 8 == 0 && size >= 16 && t % 8 == 0 && (a + 4 < t + 4 || t + size <= a + 4)
    ensures OnlyFence(m, FenceWords(Poke(m, a + 4, v), t, size), t, size, a)
    ensures FenceWords(Poke(m, a + 4, v), t, size)[a + 4] == v
    ensures size >= 32 ==> FenceTag(FenceWords(Poke(m, a + 4, v), t, size), t + (size - 16))
    ensures size < 32 ==> FenceTag(FenceWords(Poke(m, a + 4, v), t, size), t)
  {
    hide *;
    ShrunkIs(size);
    FenceWordsIs(Poke(m, a + 4, v), t, size);
    EightLess(size);
    EightFours(size - 16);
    OddBit(size - 16);
    FencePokes(Poke(m, a + 4, v), t, size - 16, a);
    ShortFence(size);
    PokedHere(m, a + 4, v);
    OnlyAgain(m, FenceWords(Poke(m, a + 4, v), t, size), t, size, a, v);
  }

  lemma ShortFence(size: nat)
    requires size % 8 == 0 && 16 <= size
    ensures size < 32 ==> size == 16 || size == 24
  {
  }

  lemma PokedHere(m: Words, w: int, v: int)
    ensures Poke(m, w, v)[w] == v
  {
  }

  lemma OnlyAgain(m: Words, n: Words, t: Addr, size: nat, a: Addr, v: int)
    requires OnlyFence(Poke(m, a + 4, v), n, t, size, a)
    ensures OnlyFence(m, n, t, size, a)
  {
  }

  lemma FenceWordsIs(m: Words, t: Addr, size: nat)
    requires Shrunk(size) == size - 16
    ensures FenceWords(m, t, size)
         == Poke(Poke(Poke(m, t + 4, size - 16 + 1), t + (size - 16) + 4, 5), t + (size - 16) + 8, 5)
  {
  }

  lemma KeptTag(m: Words, n: Words, chunks: Chunks, starts: set<Addr>, t: Addr, a: Addr, len: nat, x: Addr)
    requires Tiles(chunks, starts) && Apart(chunks) && t in chunks && chunks[t].state == Top && x in chunks && x != t
    requires OnlyFence(m, n, t, chunks[t].size, a) && Room(chunks, a, len) && Tagged(m, x, chunks[x])
    ensures Tagged(n, x, chunks[x])
  {
    hide *;
    Facts3(chunks, starts, t, a, len, x);
    KeptTagOne(m, n, x, chunks[x], t, chunks[t].size, a);
  }

  /** Where the words of chunk x are, relative to the old top and the clear place. */
  ghost predicate Off(x: Addr, c: Chunk, t: Addr, size: nat, a: Addr) {
    && c.size >= 16 && (x + c.size <= t || t + size <= x) && (x + c.size <= a || a + 16 <= x)
    && (HasNext(c.state) ==> x + c.size != a && (x + c.size == t || x + c.size + 8 <= t || t + size <= x + c.size))
    && (IsFree(c.state) ==> x + c.size != t)
    && x % 8 == 0 && c.size % 8 == 0 && a % 8 == 0 && t % 8 == 0 && size >= 16
  }

  lemma Facts3(chunks: Chunks, starts: set<Addr>, t: Addr, a: Addr, len: nat, x: Addr)
    requires Tiles(chunks, starts) && Apart(chunks) && t in chunks && chunks[t].state == Top && x in chunks && x != t
    requires Room(chunks, a, len)
    ensures Off(x, chunks[x], t, chunks[t].size, a)
  {
    assert Shaped(x, chunks[x]) && Shaped(t, chunks[t]);
    if x < t { assert End(chunks, x) <= t; } else { assert End(chunks, t) <= x; }
    if HasNext(chunks[x].state) {
      var e := End(chunks, x);
      assert e in chunks && Shaped(e, chunks[e]);
      if e < t { assert End(chunks, e) <= t; }
      if t < e { assert End(chunks, t) <= e; }
    }
    if IsFree(chunks[x].state) { assert Solid(chunks, End(chunks, x)); }
  }

  lemma KeptTagOne(m: Words, n: Words, x: Addr, c: Chunk, t: Addr, size: nat, a: Addr)
    requires Off(x, c, t, size, a) && OnlyFence(m, n, t, size, a) && Tagged(m, x, c)
    ensures Tagged(n, x, c)
  {
  }

  // ----- the whole replacement -----

  /** The old top, if there is one, is fenced off; the new top starts a region. */
  ghost function Replaced(s: Store, a: Addr, n: nat): Store {
    if s.h.top.Some? && s.h.top.value in s.h.chunks && s.h.chunks[s.h.top.value].size >= 16 then
      s.(m := FenceWords(Poke(s.m, a + 4, n + 1), s.h.top.value, s.h.chunks[s.h.top.value].size),
         h := Heap(Fenced(s.h.chunks, s.h.top.value)[a := Chunk(n, Top)], s.h.starts + {a}, Some(a), s.h.lists))
    else
      s.(m := Poke(s.m, a + 4, n + 1), h := Heap(map[a := Chunk(n, Top)], {a}, Some(a), s.h.lists))
  }

  lemma ReplacedSome(s: Store, a: Addr, n: nat, t: Addr)
    requires s.h.top == Some(t) && t in s.h.chunks && s.h.chunks[t].size >= 16
    ensures var u := Replaced(s, a, n);
            u.m == FenceWords(Poke(s.m, a + 4, n + 1), t, s.h.chunks[t].size) && u.h.top == Some(a)
            && u.h.chunks == Fenced(s.h.chunks, t)[a := Chunk(n, Top)] && u.h.starts == s.h.starts + {a}
            && u.h.lists == s.h.lists && u.fastbins == s.fastbins && u.open == s.open
  {
  }

  lemma ReplacedBinned(chunks: Chunks, t: Addr, a: Addr, n: nat)
    requires t in chunks && chunks[t].state == Top && chunks[t].size >= 16 && a !in chunks
    requires chunks[t].size >= 32 ==> t + (chunks[t].size - 16) !in chunks
    ensures SameBinned(chunks, Fenced(chunks, t)[a := Chunk(n, Top)])
  {
  }

  lemma ReplacedLive(chunks: Chunks, t: Addr, a: Addr, n: nat)
    requires t in chunks && chunks[t].state == Top && chunks[t].size >= 16 && a !in chunks
    requires chunks[t].size >= 32 ==> t + (chunks[t].size - 16) !in chunks
    ensures SameLive(chunks, Fenced(chunks, t)[a := Chunk(n, Top)])
  {
  }

  lemma ReplacedApart(chunks: Chunks, starts: set<Addr>, t: Addr, a: Addr, n: nat)
    requires Apart(chunks) && Tiles(chunks, starts) && t in chunks && chunks[t].state == Top && chunks[t].size >= 16
    requires a !in chunks && (chunks[t].size >= 32 ==> t + (chunks[t].size - 16) !in chunks)
    ensures Apart(Fenced(chunks, t)[a := Chunk(n, Top)])
  {
    var cs := Fenced(chunks, t)[a := Chunk(n, Top)];
    forall x | x in cs && IsFree(cs[x].state) ensures Solid(cs, End(cs, x)) {
      assert x in chunks && cs[x] == chunks[x];
      assert Solid(chunks, End(chunks, x));
    }
  }

  lemma ReplacedTop(h: Heap, t: Addr, a: Addr, n: nat)
    requires TopIs(h.chunks, h.top) && h.top == Some(t) && h.chunks[t].size >= 16 && a !in h.chunks
    requires h.chunks[t].size >= 32 ==> t + (h.chunks[t].size - 16) !in h.chunks
    requires h.chunks[t].size >= 32 ==> t + (h.chunks[t].size - 16) != a
    ensures TopIs(Fenced(h.chunks, t)[a := Chunk(n, Top)], Some(a))
  {
  }

  lemma ReplacedTags(m: Words, n: Words, chunks: Chunks, starts: set<Addr>, t: Addr, a: Addr, len: nat)
    requires Tags(m, chunks, starts) && Tiles(chunks, starts) && Apart(chunks) && Room(chunks, a, len)
    requires t in chunks && chunks[t].state == Top && chunks[t].size >= 16 && a !in chunks
    requires n == FenceWords(Poke(m, a + 4, len + 1), t, chunks[t].size)
    ensures Tags(n, Fenced(chunks, t)[a := Chunk(len, Top)], starts + {a})
  {
    hide *;
    TileParts(chunks, starts);
    ShapeOf(chunks, t);
    RoomParts(chunks, a, len, t);
    FenceOnly(m, t, chunks[t].size, a, len + 1);
    var cs := Fenced(chunks, t)[a := Chunk(len, Top)];
    forall x | x in cs ensures Tagged(n, x, cs[x]) {
      FencedAt(chunks, t, a, len, x);
      FencedChunkParts(chunks, t, a, len, x, cs[x]);
      if x == a {
        TopHead(n, a, len);
      } else if x != t && x != (if chunks[t].size >= 32 then t + (chunks[t].size - 16) else t) {
        TagOf(m, chunks, starts, x);
        KeptTag(m, n, chunks, starts, t, a, len, x);
      } else {
        FenceOrLoose(n, x, cs[x]);
      }
    }
    EightFours(len);
    OddBit(len);
    forall x | x in starts + {a} ensures PrevInuse(n[x + 4]) {
      if x in starts && x != a { StartKept(m, n, chunks, starts, t, a, x); }
    }
    TagsIntro(n, cs, starts + {a});
  }

  lemma RoomParts(chunks: Chunks, a: Addr, len: nat, t: Addr)
    requires Room(chunks, a, len) && t in chunks
    ensures len % 8 == 0 && len >= 16 && a % 8 == 0 && (a + 4 < t + 4 || t + chunks[t].size <= a + 4) && a >= LOW
    ensures t + chunks[t].size <= a || a + len <= t
  {
  }

  lemma FencedAt(chunks: Chunks, t: Addr, a: Addr, len: nat, x: Addr)
    requires t in chunks && chunks[t].size >= 16 && x in Fenced(chunks, t)[a := Chunk(len, Top)]
    ensures FencedChunk(chunks, t, a, len, x, Fenced(chunks, t)[a := Chunk(len, Top)][x])
  {
  }

  ghost predicate FencedChunk(chunks: Chunks, t: Addr, a: Addr, len: nat, x: Addr, c: Chunk)
    requires t in chunks
  {
    var f := if chunks[t].size >= 32 then t + (chunks[t].size - 16) else t;
    if x == a then c == Chunk(len, Top)
    else if x == f then c.state == Fence
    else if x == t then c.state == Loose
    else x in chunks && c == chunks[x]
  }

  lemma FencedChunkParts(chunks: Chunks, t: Addr, a: Addr, len: nat, x: Addr, c: Chunk)
    requires t in chunks && FencedChunk(chunks, t, a, len, x, c)
    ensures x == a ==> c == Chunk(len, Top)
    ensures x != a && x == t && chunks[t].size >= 32 ==> c.state == Loose
    ensures x != a && x == (if chunks[t].size >= 32 then t + (chunks[t].size - 16) else t) ==> c.state == Fence
    ensures x != a && x != t && x != (if chunks[t].size >= 32 then t + (chunks[t].size - 16) else t) ==>
      x in chunks && c == chunks[x]
  {
  }

  lemma TopHead(n: Words, a: Addr, len: nat)
    requires n[a + 4] == len + 1
    ensures Tagged(n, a, Chunk(len, Top))
  {
  }

  lemma FenceOrLoose(n: Words, x: Addr, c: Chunk)
    requires c.state == Loose || (c.state == Fence && FenceTag(n, x))
    ensures Tagged(n, x, c)
  {
  }

  lemma StartKept(m: Words, n: Words, chunks: Chunks, starts: set<Addr>, t: Addr, a: Addr, x: Addr)
    requires Tags(m, chunks, starts) && Tiles(chunks, starts) && t in chunks && x in starts && x != a
    requires OnlyFence(m, n, t, chunks[t].size, a)
    ensures PrevInuse(n[x + 4])
  {
    hide Tagged;
    assert Shaped(x, chunks[x]) && Shaped(t, chunks[t]);
    assert PrevInuse(m[x + 4]);
    if t < x { assert End(chunks, t) <= x; }
  }

  lemma FenceLinks(m: Words, n: Words, chunks: Chunks, t: Addr, a: Addr, len: nat)
    requires Shapes(chunks) && Ordered(chunks) && t in chunks && chunks[t].state == Top && Room(chunks, a, len)
    requires OnlyFence(m, n, t, chunks[t].size, a)
    ensures SameLinks(m, n, chunks) && Preserved(chunks, m, n)
  {
    assert Shaped(t, chunks[t]);
    forall x | x in chunks && chunks[x].state.Binned? ensures n[x + 8] == m[x + 8] && n[x + 12] == m[x + 12] {
      assert Shaped(x, chunks[x]);
      if x < t { assert End(chunks, x) <= t; } else { assert End(chunks, t) <= x; }
    }
    forall b: Addr, w: int | Payload(chunks, b, w) ensures n[w] == m[w] {
      assert Shaped(b, chunks[b]);
      if b < t { assert End(chunks, b) <= t; } else { assert End(chunks, t) <= b; }
    }
  }

  lemma FencedTotal(chunks: Chunks, t: Addr)
    requires t in chunks && chunks[t].size >= 16 && (chunks[t].size >= 32 ==> t + (chunks[t].size - 16) !in chunks)
    ensures Total(Fenced(chunks, t)) == Total(chunks)
  {
    var z := chunks[t].size;
    var cs := Fenced(chunks, t);
    hide Total;
    TotalWithout(chunks, t);
    if z >= 32 {
      TotalWithout(cs, t + (z - 16));
      TotalWithout(cs - {t + (z - 16)}, t);
      assert cs - {t + (z - 16)} - {t} == chunks - {t};
    } else {
      TotalWithout(cs, t);
      assert cs - {t} == chunks - {t};
    }
  }

  lemma FencedSpace(chunks: Chunks, t: Addr)
    requires t in chunks && chunks[t].size >= 16 && (chunks[t].size >= 32 ==> t + (chunks[t].size - 16) !in chunks)
    ensures forall w | InChunk(Fenced(chunks, t), w) :: InChunk(chunks, w)
  {
    var z := chunks[t].size;
    var cs := Fenced(chunks, t);
    if z >= 32 {
      forall w | InChunk(cs, w) ensures InChunk(chunks, w) { SplitSpace(chunks, t, z - 16, Loose, Fence, w); }
    } else {
      forall w | InChunk(cs, w) ensures InChunk(chunks, w) {
        var x :| x in cs && x <= w < End(cs, x);
        assert x in chunks && x <= w < End(chunks, x);
      }
    }
  }

  lemma AddTotal(chunks: Chunks, a: Addr, n: nat)
    requires a !in chunks
    ensures Total(chunks[a := Chunk(n, Top)]) == Total(chunks) + n
    ensures forall w | InChunk(chunks[a := Chunk(n, Top)], w) :: InChunk(chunks, w) || a <= w < a + n
  {
    var cs := chunks[a := Chunk(n, Top)];
    TotalWithout(cs, a);
    assert cs - {a} == chunks;
    forall w | InChunk(cs, w) ensures InChunk(chunks, w) || a <= w < a + n {
      var x :| x in cs && x <= w < End(cs, x);
      if x != a { assert x in chunks && x <= w < End(chunks, x); }
    }
  }

  lemma ReplacedSpace(chunks: Chunks, t: Addr, a: Addr, n: nat)
    requires t in chunks && chunks[t].size >= 16 && (chunks[t].size >= 32 ==> t + (chunks[t].size - 16) !in chunks)
    requires a !in Fenced(chunks, t)
    ensures Total(Fenced(chunks, t)[a := Chunk(n, Top)]) == Total(chunks) + n
    ensures forall w | InChunk(Fenced(chunks, t)[a := Chunk(n, Top)], w) :: InChunk(chunks, w) || a <= w < a + n
  {
    FencedTotal(chunks, t);
    FencedSpace(chunks, t);
    AddTotal(Fenced(chunks, t), a, n);
  }

  lemma ReplacedLoose(chunks: Chunks, t: Addr, a: Addr, n: nat)
    requires NoLoose(chunks) && t in chunks && chunks[t].size >= 16 && a != t
    ensures chunks[t].size >= 32 && a != t + (chunks[t].size - 16) ==>
      LooseOnly(Fenced(chunks, t)[a := Chunk(n, Top)], t) && Fenced(chunks, t)[a := Chunk(n, Top)][t].size == chunks[t].size - 16
    ensures chunks[t].size < 32 ==> NoLoose(Fenced(chunks, t)[a := Chunk(n, Top)])
  {
  }

  /** What a replacement of top gives. */
  ghost predicate NewTop(s: Store, u: Store, a: Addr, n: nat) {
    && Inv(u) && u.h.top == Some(a) && a in u.h.chunks && u.h.chunks[a] == Chunk(n, Top)
    && u.h.lists == s.h.lists && u.fastbins == s.fastbins && u.open == s.open
    && Extended(s, u, a, a + n)
  }

  lemma NewTopIntro(s: Store, u: Store, a: Addr, n: nat)
    requires Inv(u) && u.h.top == Some(a) && a in u.h.chunks && u.h.chunks[a] == Chunk(n, Top)
    requires u.h.lists == s.h.lists && u.fastbins == s.fastbins && u.open == s.open
    requires SameLive(s.h.chunks, u.h.chunks) && Preserved(s.h.chunks, s.m, u.m)
    requires Total(u.h.chunks) == Total(s.h.chunks) + n
    requires forall w | InChunk(u.h.chunks, w) :: InChunk(s.h.chunks, w) || a <= w < a + n
    ensures NewTop(s, u, a, n)
  {
  }

  /** The old top is fenced off and another one takes its place. */
  lemma ReplaceStep(s: Store, t: Addr, a: Addr, n: nat)
    requires Inv(s) && s.h.top == Some(t) && Room(s.h.chunks, a, n)
    ensures NewTop(s, Replaced(s, a, n), a, n)
    ensures t in s.h.chunks && s.h.chunks[t].size >= 16
    ensures Replaced(s, a, n).m == FenceWords(Poke(s.m, a + 4, n + 1), t, s.h.chunks[t].size)
  {
    hide *;
    InvParts(s);
    Parts(s.h);
    TopFacts(s);
    SomeMin();
    FencedTiles(s.h.chunks, s.h.starts, t);
    FencedRoom(s.h.chunks, t, a, n);
    NotThere(s.h.chunks, a, n);
    RoomParts(s.h.chunks, a, n, t);
    AddTiles(Fenced(s.h.chunks, t), s.h.starts, a, n);
    ReplacedSome(s, a, n, t);
    var u := Replaced(s, a, n);
    ReplacedBinned(s.h.chunks, t, a, n);
    ListedSame(s.h.chunks, u.h.chunks, s.h.lists);
    ReplacedApart(s.h.chunks, s.h.starts, t, a, n);
    ReplacedTop(s.h, t, a, n);
    WellFormedIntro(u.h);
    ReplacedTags(s.m, u.m, s.h.chunks, s.h.starts, t, a, n);
    FenceOnly(s.m, t, s.h.chunks[t].size, a, n + 1);
    FenceLinks(s.m, u.m, s.h.chunks, t, a, n);
    AllLinkedSame(s.m, u.m, s.h.chunks, s.h.lists, s.open);
    AllChainedSame(s.m, u.m, s.h.chunks, s.fastbins, s.h.lists);
    InvIntro(u);
    ReplacedLive(s.h.chunks, t, a, n);
    ReplacedSpace(s.h.chunks, t, a, n);
    AtTop(Fenced(s.h.chunks, t), a, n);
    NewTopIntro(s, u, a, n);
  }

  lemma AtTop(chunks: Chunks, a: Addr, n: nat)
    ensures a in chunks[a := Chunk(n, Top)] && chunks[a := Chunk(n, Top)][a] == Chunk(n, Top)
  {
  }

  /** The first region of the heap. */
  lemma FirstStep(s: Store, a: Addr, n: nat)
    requires Inv(s) && s.h.top == None && a % 8 == 0 && n % 8 == 0 && n >= MINSIZE && a >= LOW
    ensures NewTop(s, Replaced(s, a, n), a, n) && Replaced(s, a, n).m == Poke(s.m, a + 4, n + 1)
    ensures NoLoose(Replaced(s, a, n).h.chunks) && Replaced(s, a, n).h.chunks == map[a := Chunk(n, Top)]
  {
    assert s.h.chunks == map[];
    var u := Replaced(s, a, n);
    FirstInv(s, a, n);
    AddTotal(s.h.chunks, a, n);
    assert u.h.chunks == s.h.chunks[a := Chunk(n, Top)];
  }

  lemma FirstInv(s: Store, a: Addr, n: nat)
    requires Inv(s) && s.h.chunks == map[] && a % 8 == 0 && n % 8 == 0 && n >= MINSIZE && a >= LOW
    ensures Inv(s.(m := Poke(s.m, a + 4, n + 1), h := Heap(map[a := Chunk(n, Top)], {a}, Some(a), s.h.lists)))
  {
    hide *;
    var cs: Chunks := map[];
    var ds: Chunks := map[a := Chunk(n, Top)];
    InvParts(s);
    OneTop(a, n);
    var m := Poke(s.m, a + 4, n + 1);
    PokeIs(s.m, a + 4, n + 1);
    NoBinned(cs, ds, a, n);
    ListedSame(s.h.chunks, ds, s.h.lists);
    EmptyLinks(s.m, a, n);
    AllLinkedSame(s.m, m, cs, s.h.lists, s.open);
    AllChainedSame(s.m, m, cs, s.fastbins, s.h.lists);
    OneTags(s.m, a, n);
    var u := s.(m := m, h := Heap(ds, {a}, Some(a), s.h.lists));
    WellFormedIntro(u.h);
    InvIntro(u);
  }

  lemma OneTop(a: Addr, n: nat)
    requires a % 8 == 0 && n % 8 == 0 && n >= MINSIZE && a >= LOW
    ensures Tiles(map[a := Chunk(n, Top)], {a}) && Apart(map[a := Chunk(n, Top)]) && TopIs(map[a := Chunk(n, Top)], Some(a))
  {
  }

  lemma NoBinned(cs: Chunks, ds: Chunks, a: Addr, n: nat)
    requires cs == map[] && ds == map[a := Chunk(n, Top)]
    ensures SameBinned(cs, ds)
  {
  }

  lemma EmptyLinks(m: Words, a: Addr, n: nat)
    requires a >= LOW
    ensures SameLinks(m, Poke(m, a + 4, n + 1), map[])
  {
  }

  lemma OneTags(m: Words, a: Addr, n: nat)
    requires n % 8 == 0
    ensures Tags(Poke(m, a + 4, n + 1), map[a := Chunk(n, Top)], {a})
  {
    EightFours(n);
  }

  // ----- what any operation leaves alone -----

  /** Live chunks and their contents are the same. */
  ghost predicate Calm(s: Store, t: Store) {
    SameLive(s.h.chunks, t.h.chunks) && Preserved(s.h.chunks, s.m, t.m)
  }

  /** One more chunk is live, large enough for the request; the others are as they were. */
  ghost predicate Granted(s: Store, t: Store, p: Addr, nb: nat) {
    Grew(s.h.chunks, t.h.chunks, p) && Preserved(s.h.chunks, s.m, t.m) && p in t.h.chunks && t.h.chunks[p].size >= nb
  }

  lemma CalmThen(s: Store, t: Store, u: Store)
    requires Calm(s, t) && Calm(t, u)
    ensures Calm(s, u)
  {
    forall b, w | Payload(s.h.chunks, b, w) ensures u.m[w] == s.m[w] {
      assert Payload(t.h.chunks, b, w);
    }
  }

  lemma CalmSame(s: Store)
    ensures Calm(s, s)
  {
  }

  lemma CalmGranted(s: Store, t: Store, u: Store, p: Addr, nb: nat)
    requires Calm(s, t) && Granted(t, u, p, nb)
    ensures Granted(s, u, p, nb)
  {
    forall b, w | Payload(s.h.chunks, b, w) ensures u.m[w] == s.m[w] {
      assert Payload(t.h.chunks, b, w);
    }
  }

  lemma QuietCalm(s: Store, t: Store)
    requires Quiet(s, t)
    ensures Calm(s, t)
  {
  }

  lemma ExtendedCalm(s: Store, t: Store, lo: Addr, hi: Addr)
    requires Extended(s, t, lo, hi)
    ensures Calm(s, t) && lo <= hi && Total(t.h.chunks) == Total(s.h.chunks) + (hi - lo)
  {
  }

  // ----- the address space -----

  /** Chunks lie in the part of the address space obtained by sbrk or in mapped regions. */
  ghost predicate Owned(chunks: Chunks, brk: Addr, floor: Addr) {
    forall w | InChunk(chunks, w) :: w < brk || floor <= w
  }

  lemma OwnedClear(chunks: Chunks, brk: Addr, floor: Addr, lo: Addr, hi: Addr)
    requires Owned(chunks, brk, floor) && Shapes(chunks) && brk <= lo < hi <= floor
    ensures Clear(chunks, lo, hi)
  {
    forall a | a in chunks ensures End(chunks, a) <= lo || hi <= a {
      assert Shaped(a, chunks[a]);
      if End(chunks, a) > lo && a < hi {
        var w := if a < lo then lo else a;
        assert a in chunks && a <= w < End(chunks, a);
        assert InChunk(chunks, w);
      }
    }
  }

  lemma OwnedSpace(chunks: Chunks, cs: Chunks, brk: Addr, floor: Addr)
    requires Owned(chunks, brk, floor) && SameSpace(chunks, cs)
    ensures Owned(cs, brk, floor) && Total(cs) == Total(chunks)
  {
  }

  // ----- one stretch of memory -----

  ghost predicate NoFence(chunks: Chunks) {
    forall a | a in chunks :: chunks[a].state != Fence
  }

  /** All chunks lie in the stretch below `edge` that has as many bytes as they have. */
  ghost predicate Compact(chunks: Chunks, edge: Addr) {
    NoFence(chunks) && forall w | InChunk(chunks, w) :: edge - Total(chunks) <= w < edge
  }

  lemma CompactSpace(chunks: Chunks, cs: Chunks, edge: Addr)
    requires Compact(chunks, edge) && SameSpace(chunks, cs)
    ensures Compact(cs, edge)
  {
  }

  lemma {:induction false} LastKey(keys: set<Addr>) returns (m: Addr)
    requires keys != {}
    ensures m in keys && forall k | k in keys :: k <= m
    decreases keys
  {
    var x :| x in keys;
    m := x;
    assert forall k | k in keys :: k == x || k in keys - {x};
    if keys - {x} != {} {
      var n := LastKey(keys - {x});
      if n > x { m := n; }
    }
  }

  /** Chunks that do not overlap have no more bytes than the stretch they lie in. */
  lemma {:induction false} TotalBound(chunks: Chunks, lo: int, hi: int)
    requires Shapes(chunks) && Ordered(chunks) && lo <= hi
    requires forall a | a in chunks :: lo <= a && End(chunks, a) <= hi
    ensures Total(chunks) <= hi - lo
    decreases |chunks|
  {
    if chunks != map[] {
      var c := LastKey(chunks.Keys);
      var cs := chunks - {c};
      Smaller(chunks, c);
      TotalWithout(chunks, c);
      assert Shapes(cs) && Ordered(cs);
      forall a | a in cs ensures End(cs, a) <= c {
        assert a in chunks && a < c;
      }
      TotalBound(cs, lo, c);
    }
  }

  lemma NextKey(chunks: Chunks, starts: set<Addr>, c: Addr)
    requires Tiles(chunks, starts) && c in chunks
    ensures HasNext(chunks[c].state) ==> End(chunks, c) in chunks.Keys && End(chunks, c) > c
  {
    assert Shaped(c, chunks[c]);
  }

  lemma OrderedPair(chunks: Chunks, a: Addr, b: Addr)
    requires Ordered(chunks) && a in chunks && b in chunks
    ensures (a < b ==> End(chunks, a) <= b) && (b < a ==> End(chunks, b) <= a)
  {
  }

  /** The last chunk of all, where there are no fences, is top. */
  lemma LastIsTop(chunks: Chunks, starts: set<Addr>, top: Option<Addr>)
    requires Tiles(chunks, starts) && TopIs(chunks, top) && NoFence(chunks) && top.Some?
    ensures top.value in chunks && forall a | a in chunks :: End(chunks, a) <= End(chunks, top.value)
  {
    var c := LastKey(chunks.Keys);
    assert Shaped(c, chunks[c]);
    NextKey(chunks, starts, c);
    assert chunks[c].state == Top;
    forall a | a in chunks ensures End(chunks, a) <= End(chunks, c) {
      if a != c { assert a in chunks.Keys && a < c; }
    }
  }

  /** In one stretch of memory top ends where the stretch ends. */
  lemma TopAtEdge(chunks: Chunks, starts: set<Addr>, top: Option<Addr>, edge: Addr)
    requires Tiles(chunks, starts) && TopIs(chunks, top) && Compact(chunks, edge) && top.Some?
    ensures top.value in chunks && End(chunks, top.value) == edge
  {
    LastIsTop(chunks, starts, top);
    var t := top.value;
    var e := End(chunks, t);
    hide TopIs, Followed, Preceded, Total;
    assert Shapes(chunks) && Ordered(chunks);
    forall a | a in chunks ensures edge - Total(chunks) <= a && End(chunks, a) <= e {
      assert Shaped(a, chunks[a]);
      assert a in chunks && a <= a < End(chunks, a);
      assert InChunk(chunks, a);
    }
    assert Shaped(t, chunks[t]);
    assert t in chunks && t <= e - 1 < End(chunks, t);
    assert InChunk(chunks, e - 1);
    TotalBound(chunks, edge - Total(chunks), e);
  }

  lemma CompactGrown(chunks: Chunks, t: Addr, oldSize: nat, size: nat)
    requires Compact(chunks, t + oldSize) && t in chunks && chunks[t] == Chunk(oldSize, Top)
    ensures Compact(Resize(chunks, t, size + oldSize), t + oldSize + size)
  {
    ResizeTotal(chunks, t, size + oldSize);
    var cs := Resize(chunks, t, size + oldSize);
    forall w | InChunk(cs, w) ensures t + oldSize + size - Total(cs) <= w < t + oldSize + size {
      ResizeSpace(chunks, t, size + oldSize, w);
      if !InChunk(chunks, w) && oldSize > 0 {
        assert t in chunks && t <= t < End(chunks, t);
        assert InChunk(chunks, t);
      }
    }
  }

  lemma ShrunkSpace(chunks: Chunks, t: Addr, size: nat, less: nat, w: int)
    requires Ordered(chunks) && t in chunks && chunks[t] == Chunk(size, Top) && less <= size
    requires forall v | InChunk(chunks, v) :: v < t + size
    requires InChunk(Resize(chunks, t, less), w)
    ensures InChunk(chunks, w) && w < t + less
  {
    var cs := Resize(chunks, t, less);
    var a :| a in cs && a <= w < End(cs, a);
    assert a in chunks && a <= w < End(chunks, a);
    assert InChunk(chunks, w);
    OrderedPair(chunks, a, t);
  }

  lemma CompactShrunk(chunks: Chunks, t: Addr, size: nat, released: nat)
    requires Compact(chunks, t + size) && Ordered(chunks) && t in chunks && chunks[t] == Chunk(size, Top)
    requires released <= size
    ensures Compact(Resize(chunks, t, size - released), t + size - released)
  {
    hide Ordered;
    ResizeTotal(chunks, t, size - released);
    var cs := Resize(chunks, t, size - released);
    forall w | InChunk(cs, w) ensures t + size - released - Total(cs) <= w < t + size - released {
      ShrunkSpace(chunks, t, size, size - released, w);
    }
    hide InChunk, Total;
  }

  lemma CompactFirst(a: Addr, n: nat)
    ensures Compact(map[a := Chunk(n, Top)], a + n)
  {
    var cs: Chunks := map[a := Chunk(n, Top)];
    TotalWithout(cs, a);
    assert cs - {a} == map[];
  }

  lemma OwnedMore(s: Store, t: Store, lo: Addr, hi: Addr, brk: Addr, floor: Addr, brk': Addr, floor': Addr)
    requires Owned(s.h.chunks, brk, floor) && Extended(s, t, lo, hi) && brk <= brk' && floor' <= floor
    requires hi <= brk' || floor' <= lo
    ensures Owned(t.h.chunks, brk', floor')
  {
  }
}
