/** realloc(): in place, into top, into a free neighbour, or by copying. */
module DlRealloc {
  import opened DlSizes
  import opened DlHeap
  import opened DlTags
  import opened DlLinks
  import opened DlSteps
  import opened DlMoves
  import opened DlCoalesce
  import opened DlRelease
  import opened DlTake
  import opened DlSystem
  import opened DlBreak
  import opened DlMalloc
  import opened DlCarve

  // ----- what clients may do -----

  /** Memories that differ at most in the payload of b. */
  ghost predicate OnlyPayload(m: Words, n: Words, chunks: Chunks, b: Addr) {
    forall w: int | !Payload(chunks, b, w) :: n[w] == m[w]
  }

  /** Stores into a live payload, up to the word borrowed from the next chunk, leave every
      tag and every link alone. */
  lemma UserStep(s: Store, n: Words, b: Addr)
    requires Inv(s) && OnlyPayload(s.m, n, s.h.chunks, b) && b in s.h.chunks && s.h.chunks[b].state == Used
    ensures Inv(s.(m := n))
  {
    hide *;
    InvParts(s);
    UserTags(s.m, n, s.h.chunks, s.h.starts, b);
    UserLinks(s.m, n, s.h.chunks, b);
    AllLinkedSame(s.m, n, s.h.chunks, s.h.lists, s.open);
    AllChainedSame(s.m, n, s.h.chunks, s.fastbins, s.h.lists);
    InvIntro(s.(m := n));
  }

  lemma UserLinks(m: Words, n: Words, chunks: Chunks, b: Addr)
    requires Shapes(chunks) && Ordered(chunks) && b in chunks && chunks[b].state == Used && OnlyPayload(m, n, chunks, b)
    ensures SameLinks(m, n, chunks)
  {
    assert Shaped(b, chunks[b]);
    forall x | x in chunks && chunks[x].state.Binned? ensures n[x + 8] == m[x + 8] && n[x + 12] == m[x + 12] {
      assert Shaped(x, chunks[x]);
      if x < b { assert End(chunks, x) <= b; } else { assert End(chunks, b) <= x; }
      assert !Payload(chunks, b, x + 8) && !Payload(chunks, b, x + 12);
    }
    forall w: int | w < LOW ensures n[w] == m[w] {
      assert !Payload(chunks, b, w);
    }
  }

  lemma UserTags(m: Words, n: Words, chunks: Chunks, starts: set<Addr>, b: Addr)
    requires Tags(m, chunks, starts) && Tiles(chunks, starts) && b in chunks && chunks[b].state == Used
    requires OnlyPayload(m, n, chunks, b)
    ensures Tags(n, chunks, starts)
  {
    hide *;
    forall a | a in chunks ensures Tagged(n, a, chunks[a]) {
      TagOf(m, chunks, starts, a);
      UserTagged(m, n, chunks, starts, b, a);
    }
    forall a | a in starts ensures PrevInuse(n[a + 4]) {
      UserStart(m, n, chunks, starts, b, a);
    }
    TagsIntro(n, chunks, starts);
  }

  /** No size word and no foot of another chunk lies in a payload. */
  lemma UserApart(chunks: Chunks, b: Addr, a: Addr)
    requires Shapes(chunks) && Ordered(chunks) && b in chunks && chunks[b].state == Used && a in chunks
    ensures !Payload(chunks, b, a + 4)
    ensures a != End(chunks, b) ==> !Payload(chunks, b, a)
    ensures chunks[a].state == Fence ==> !Payload(chunks, b, a + 8) && !Payload(chunks, b, a + 12)
  {
    assert Shaped(a, chunks[a]) && Shaped(b, chunks[b]);
    if a < b { assert End(chunks, a) <= b; }
    if b < a { assert End(chunks, b) <= a; }
  }

  lemma UserTagged(m: Words, n: Words, chunks: Chunks, starts: set<Addr>, b: Addr, a: Addr)
    requires Tiles(chunks, starts) && b in chunks && chunks[b].state == Used && OnlyPayload(m, n, chunks, b)
    requires a in chunks && Tagged(m, a, chunks[a])
    ensures Tagged(n, a, chunks[a])
  {
    UserWords(m, n, chunks, starts, b, a);
    hide OnlyPayload, Payload, Tiles, PrevInuse, HeadIs;
    if a != b {
      hide Tagged;
      TaggedSame(m, n, a, chunks[a]);
    }
  }

  lemma UserWords(m: Words, n: Words, chunks: Chunks, starts: set<Addr>, b: Addr, a: Addr)
    requires Tiles(chunks, starts) && b in chunks && chunks[b].state == Used && OnlyPayload(m, n, chunks, b) && a in chunks
    ensures n[a + 4] == m[a + 4]
    ensures HasNext(chunks[a].state) ==> n[a + chunks[a].size + 4] == m[a + chunks[a].size + 4]
    ensures HasNext(chunks[a].state) && a != b ==> n[a + chunks[a].size] == m[a + chunks[a].size]
    ensures chunks[a].state == Fence ==> n[a + 8] == m[a + 8] && n[a + 12] == m[a + 12]
  {
    UserApart(chunks, b, a);
    if HasNext(chunks[a].state) {
      var e := End(chunks, a);
      assert e in chunks;
      UserApart(chunks, b, e);
      if e == End(chunks, b) { OnePredecessor(chunks, a, b); }
    }
    hide Payload;
  }

  lemma UserStart(m: Words, n: Words, chunks: Chunks, starts: set<Addr>, b: Addr, a: Addr)
    requires Tags(m, chunks, starts) && Tiles(chunks, starts) && b in chunks && chunks[b].state == Used
    requires OnlyPayload(m, n, chunks, b) && a in starts
    ensures PrevInuse(n[a + 4])
  {
    hide Tagged;
    UserApart(chunks, b, a);
    assert PrevInuse(m[a + 4]);
  }

  // ----- the copy -----

  function Word(m: Words, a: Addr, i: nat): int {
    m[a + 4 * i]
  }

  /** The first k words of a block, copied to another. */
  ghost predicate CopiedWords(m: Words, n: Words, s: Addr, d: Addr, k: nat) {
    forall i: nat | i < k :: Word(n, d, i) == Word(m, s, i)
  }

  ghost predicate OnlyBlock(m: Words, n: Words, d: Addr, len: nat) {
    forall w: int | !(d <= w < d + len) :: n[w] == m[w]
  }

  /** *(d+i) = *(s+i). */
  function CopyWord(n: Words, s: Addr, d: Addr, i: nat): Words {
    Poke(n, d + 4 * i, Word(n, s, i))
  }

  lemma CopyNone(m: Words, s: Addr, d: Addr)
    ensures CopiedWords(m, m, s, d, 0) && OnlyBlock(m, m, d, 0)
  {
  }

  lemma CopyOne(m: Words, n: Words, s: Addr, d: Addr, i: nat, len: nat)
    requires CopiedWords(m, n, s, d, i) && OnlyBlock(m, n, d, 4 * i) && i < len
    requires s + 4 * len <= d || d + 4 * len <= s
    ensures CopiedWords(m, CopyWord(n, s, d, i), s, d, i + 1) && OnlyBlock(m, CopyWord(n, s, d, i), d, 4 * (i + 1))
  {
    assert Word(n, s, i) == Word(m, s, i);
    forall j: nat | j < i + 1 ensures Word(CopyWord(n, s, d, i), d, j) == Word(m, s, j) {
      if j < i { assert Word(n, d, j) == Word(m, s, j); }
    }
  }

  /** MALLOC_COPY, and its unrolled form for up to nine words: exact because the number of
      words of a payload is odd and at least three. */
  method CopyWords(m: Words, s: Addr, d: Addr, ncopies: nat) returns (n: Words)
    requires ncopies >= 3 && ncopies % 2 == 1 && (s + 4 * ncopies <= d || d + 4 * ncopies <= s)
    ensures CopiedWords(m, n, s, d, ncopies) && OnlyBlock(m, n, d, 4 * ncopies)
  {
    hide *;
    n := m;
    CopyNone(m, s, d);
    if ncopies > 9 {
      var i := 0;
      while i < ncopies
        invariant i <= ncopies && CopiedWords(m, n, s, d, i) && OnlyBlock(m, n, d, 4 * i)
      {
        CopyOne(m, n, s, d, i, ncopies);
        n := CopyWord(n, s, d, i);
        i := i + 1;
      }
    } else {
      n := CopyTwo(m, n, s, d, 0, ncopies);
      CopyOne(m, n, s, d, 2, ncopies);
      n := CopyWord(n, s, d, 2);
      if ncopies > 4 {
        n := CopyTwo(m, n, s, d, 3, ncopies);
        if ncopies > 6 {
          n := CopyTwo(m, n, s, d, 5, ncopies);
          if ncopies > 8 {
            n := CopyTwo(m, n, s, d, 7, ncopies);
          }
        }
      }
    }
  }

  /** Two of the unrolled stores. */
  method CopyTwo(ghost m: Words, n0: Words, s: Addr, d: Addr, i: nat, ghost len: nat) returns (n: Words)
    requires CopiedWords(m, n0, s, d, i) && OnlyBlock(m, n0, d, 4 * i) && i + 1 < len
    requires s + 4 * len <= d || d + 4 * len <= s
    ensures CopiedWords(m, n, s, d, i + 2) && OnlyBlock(m, n, d, 4 * (i + 2))
  {
    hide *;
    CopyOne(m, n0, s, d, i, len);
    n := CopyWord(n0, s, d, i);
    CopyOne(m, n, s, d, i + 1, len);
    n := CopyWord(n, s, d, i + 1);
  }

  // ----- what a caller gets -----

  /** As many words as both payloads hold are the same. */
  ghost predicate SameWords(s: Store, t: Store, p: Addr, q: Addr)
    requires p in s.h.chunks && q in t.h.chunks
  {
    forall i: nat | 8 + 4 * i <= s.h.chunks[p].size && 8 + 4 * i <= t.h.chunks[q].size ::
      Word(t.m, q + 8, i) == Word(s.m, p + 8, i)
  }

  /** p has become q, of at least the given size, with the same contents; every other payload
      is as it was. */
  ghost predicate Regrown(s: Store, t: Store, p: Addr, q: Addr, nb: nat) {
    && p in s.h.chunks && s.h.chunks[p].state == Used
    && q in t.h.chunks && t.h.chunks[q].state == Used && t.h.chunks[q].size >= nb
    && (forall b | b in s.h.chunks && s.h.chunks[b].state == Used && b != p ::
          b != q && b in t.h.chunks && t.h.chunks[b] == s.h.chunks[b])
    && (forall b | b in t.h.chunks && t.h.chunks[b].state == Used && b != q ::
          b != p && b in s.h.chunks && s.h.chunks[b] == t.h.chunks[b])
    && (forall b, w {:trigger Payload(s.h.chunks, b, w)} | Payload(s.h.chunks, b, w) && b != p :: t.m[w] == s.m[w])
    && SameWords(s, t, p, q)
  }

  lemma RegrownIntro(s: Store, t: Store, p: Addr, q: Addr, nb: nat)
    requires p in s.h.chunks && s.h.chunks[p].state == Used
    requires q in t.h.chunks && t.h.chunks[q].state == Used && t.h.chunks[q].size >= nb
    requires forall b | b in s.h.chunks && s.h.chunks[b].state == Used && b != p ::
               b != q && b in t.h.chunks && t.h.chunks[b] == s.h.chunks[b]
    requires forall b | b in t.h.chunks && t.h.chunks[b].state == Used && b != q ::
               b != p && b in s.h.chunks && s.h.chunks[b] == t.h.chunks[b]
    requires forall b, w {:trigger Payload(s.h.chunks, b, w)} | Payload(s.h.chunks, b, w) && b != p :: t.m[w] == s.m[w]
    requires SameWords(s, t, p, q)
    ensures Regrown(s, t, p, q, nb)
  {
    hide SameWords;
  }

  // ----- in place -----

  /** The stages of a rebuilding in place: all is calm up to u; p comes in hand, and is live
      again at the end. */
  ghost predicate Stages(s: Store, u: Store, v: Store, t: Store, p: Addr, nb: nat) {
    && Calm(s, u) && Freed(u, v, p) && v.m == u.m && Regranted(v, t, p, nb)
    && p in s.h.chunks && s.h.chunks[p].state == Used
  }

  lemma StagesLive(s: Store, u: Store, v: Store, t: Store, p: Addr, nb: nat)
    requires Stages(s, u, v, t, p, nb)
    ensures p in t.h.chunks && t.h.chunks[p].state == Used && t.h.chunks[p].size >= nb
    ensures forall b | b in s.h.chunks && s.h.chunks[b].state == Used && b != p ::
              b != p && b in t.h.chunks && t.h.chunks[b] == s.h.chunks[b]
    ensures forall b | b in t.h.chunks && t.h.chunks[b].state == Used && b != p ::
              b != p && b in s.h.chunks && s.h.chunks[b] == t.h.chunks[b]
  {
    hide Preserved;
  }

  lemma StagesKept(s: Store, u: Store, v: Store, t: Store, p: Addr, nb: nat)
    requires Stages(s, u, v, t, p, nb)
    ensures forall b, w {:trigger Payload(s.h.chunks, b, w)} | Payload(s.h.chunks, b, w) && b != p :: t.m[w] == s.m[w]
  {
    forall b, w {:trigger Payload(s.h.chunks, b, w)} | Payload(s.h.chunks, b, w) && b != p ensures t.m[w] == s.m[w] {
      assert Payload(u.h.chunks, b, w);
      assert Payload(v.h.chunks, b, w);
    }
  }

  lemma StagesWords(s: Store, u: Store, v: Store, t: Store, p: Addr, nb: nat)
    requires Stages(s, u, v, t, p, nb) && p in t.h.chunks
    ensures SameWords(s, t, p, p)
  {
    hide SameLive, Grew;
    forall i: nat | 8 + 4 * i <= s.h.chunks[p].size && 8 + 4 * i <= t.h.chunks[p].size
      ensures Word(t.m, p + 8, i) == Word(s.m, p + 8, i)
    {
      var w := p + 8 + 4 * i;
      assert Payload(s.h.chunks, p, w);
      assert t.m[w] == v.m[w];
    }
  }

  /** A rebuilding in place keeps the contents. */
  lemma InPlace(s: Store, u: Store, v: Store, t: Store, p: Addr, nb: nat)
    requires Stages(s, u, v, t, p, nb)
    ensures Regrown(s, t, p, p, nb)
  {
    StagesLive(s, u, v, t, p, nb);
    StagesKept(s, u, v, t, p, nb);
    StagesWords(s, u, v, t, p, nb);
    hide Stages, SameWords;
    RegrownIntro(s, t, p, p, nb);
  }

  lemma StagesIntro(s: Store, u: Store, v: Store, t: Store, p: Addr, nb: nat)
    requires Calm(s, u) && Freed(u, v, p) && v.m == u.m && Regranted(v, t, p, nb)
    requires p in s.h.chunks && s.h.chunks[p].state == Used
    ensures Stages(s, u, v, t, p, nb)
  {
  }

  // ----- by copying -----

  /** The stages of a move: q is granted, gets the words of p, and p is freed. */
  ghost predicate Moves(s: Store, u: Store, n: Words, t: Store, p: Addr, q: Addr, nb: nat) {
    && Granted(s, u, q, nb) && p in s.h.chunks && s.h.chunks[p].state == Used && s.h.chunks[p].size < nb
    && s.h.chunks[p].size % 8 == 0 && s.h.chunks[p].size >= 16
    && OnlyPayload(u.m, n, u.h.chunks, q) && CopiedWords(u.m, n, p + 8, q + 8, s.h.chunks[p].size / 4 - 1)
    && Shapes(u.h.chunks) && Ordered(u.h.chunks)
    && Freed(u.(m := n), t, p)
  }

  lemma MovesLive(s: Store, u: Store, n: Words, t: Store, p: Addr, q: Addr, nb: nat)
    requires Moves(s, u, n, t, p, q, nb)
    ensures p != q && q in t.h.chunks && t.h.chunks[q].state == Used && t.h.chunks[q].size >= nb
    ensures forall b | b in s.h.chunks && s.h.chunks[b].state == Used && b != p ::
              b != q && b in t.h.chunks && t.h.chunks[b] == s.h.chunks[b]
    ensures forall b | b in t.h.chunks && t.h.chunks[b].state == Used && b != q ::
              b != p && b in s.h.chunks && s.h.chunks[b] == t.h.chunks[b]
  {
    hide Preserved, OnlyPayload, CopiedWords, Shapes, Ordered;
  }

  lemma MovesKept(s: Store, u: Store, n: Words, t: Store, p: Addr, q: Addr, nb: nat)
    requires Moves(s, u, n, t, p, q, nb)
    ensures forall b, w {:trigger Payload(s.h.chunks, b, w)} | Payload(s.h.chunks, b, w) && b != p :: t.m[w] == s.m[w]
  {
    hide CopiedWords;
    forall b, w {:trigger Payload(s.h.chunks, b, w)} | Payload(s.h.chunks, b, w) && b != p ensures t.m[w] == s.m[w] {
      PayloadsApart(s.h.chunks, u.h.chunks, q, b, w);
      assert !Payload(u.h.chunks, q, w);
      assert Payload(u.h.chunks, b, w);
      assert Payload(t.h.chunks, b, w);
    }
  }

  lemma MovesWords(s: Store, u: Store, n: Words, t: Store, p: Addr, q: Addr, nb: nat)
    requires Moves(s, u, n, t, p, q, nb) && q in t.h.chunks && t.h.chunks[q].state == Used
    ensures SameWords(s, t, p, q)
  {
    hide SameLive, Grew, Shapes, Ordered, OnlyPayload;
    var k: nat := s.h.chunks[p].size / 4 - 1;
    forall i: nat | 8 + 4 * i <= s.h.chunks[p].size && 8 + 4 * i <= t.h.chunks[q].size
      ensures Word(t.m, q + 8, i) == Word(s.m, p + 8, i)
    {
      assert i < k;
      assert Word(n, q + 8, i) == Word(u.m, p + 8, i);
      assert Payload(s.h.chunks, p, p + 8 + 4 * i);
      assert Payload(t.h.chunks, q, q + 8 + 4 * i);
    }
  }

  /** A move keeps the contents. */
  lemma ByCopy(s: Store, u: Store, n: Words, t: Store, p: Addr, q: Addr, nb: nat)
    requires Moves(s, u, n, t, p, q, nb)
    ensures Regrown(s, t, p, q, nb)
  {
    MovesLive(s, u, n, t, p, q, nb);
    MovesKept(s, u, n, t, p, q, nb);
    MovesWords(s, u, n, t, p, q, nb);
    assert p in s.h.chunks && s.h.chunks[p].state == Used;
    hide Moves, SameWords;
    RegrownIntro(s, t, p, q, nb);
  }

  // ----- absorbing the next chunk -----

  /** The free chunk behind p is taken out of its bin and joined with p. */
  lemma AbsorbFree(s: Store, p: Addr, q: Addr, top: Addr, maxFast: nat, fastChunks: bool, binmap: seq<bv32>)
      returns (u: Store, v: Store)
    requires Sound(s, top, maxFast, fastChunks, binmap) && p in s.h.chunks && s.h.chunks[p].state == Used
    requires q in s.h.chunks && q == p + s.h.chunks[p].size && IsFree(s.h.chunks[q].state)
    ensures Calm(s, u) && Grasped(u, v, p) && v.m == Unlinked(s.m, q) && SameSpace(s.h.chunks, v.h.chunks)
    ensures Held(v, p, s.h.chunks[p].size + s.h.chunks[q].size, top, maxFast, fastChunks, binmap)
    ensures v.fastbins == s.fastbins && Annexed(s.h, v.h, p, q)
  {
    hide *;
    SoundParts(s, top, maxFast, fastChunks, binmap);
    InvParts(s);
    ShapeOf(s.h.chunks, p);
    var i, k := Unhook(s, q);
    u := Unhooked(s, i, k);
    ListedAll(s);
    AtParts(s, q, i, k);
    UnhookedIs(s, i, k);
    FreshParts(s, u, q);
    OnlyParts(u.h.chunks, q);
    QuietCalm(s, u);
    QuietParts(s, u);
    OtherSame(s.h.chunks, q, p);
    v := JoinLive(u, p, q);
    AnnexedFree(s.h, i, k, v.h, p, q);
    GraspedParts(u, v, p);
    RemoveShrinks(s.h.lists, i, k);
    MappedShrinks(binmap, s.h.lists, v.h.lists);
    EmptyAfter(fastChunks, s.h.lists, v.h.lists);
    TopFieldKept(top, s.h, v.h);
    SameSpaceThen(s.h.chunks, u.h.chunks, v.h.chunks);
    HeldIntro(v, p, s.h.chunks[p].size + s.h.chunks[q].size, top, maxFast, fastChunks, binmap);
  }

  lemma OtherSame(chunks: Chunks, q: Addr, p: Addr)
    requires q in chunks && p in chunks && p != q
    ensures p in Set(chunks, q, Loose) && Set(chunks, q, Loose)[p] == chunks[p]
  {
  }

  lemma EmptyAfter(fastChunks: bool, ls: seq<seq<Addr>>, ls': seq<seq<Addr>>)
    requires (!fastChunks ==> FastEmpty(ls)) && Shrinks(ls, ls')
    ensures !fastChunks ==> FastEmpty(ls')
  {
    if !fastChunks { EmptyShrinks(ls, ls'); }
  }

  /** The live chunk behind p, just handed out, is joined with p. */
  lemma AbsorbLive(s: Store, p: Addr, q: Addr, top: Addr, maxFast: nat, fastChunks: bool, binmap: seq<bv32>)
      returns (u: Store, v: Store)
    requires Sound(s, top, maxFast, fastChunks, binmap) && p in s.h.chunks && s.h.chunks[p].state == Used
    requires q in s.h.chunks && q == p + s.h.chunks[p].size && s.h.chunks[q].state == Used
    ensures Freed(s, u, q) && Grasped(u, v, p) && v.m == s.m && SameSpace(s.h.chunks, v.h.chunks)
    ensures Held(v, p, s.h.chunks[p].size + s.h.chunks[q].size, top, maxFast, fastChunks, binmap)
    ensures v.fastbins == s.fastbins && Annexed(s.h, v.h, p, q)
  {
    hide *;
    SoundParts(s, top, maxFast, fastChunks, binmap);
    InvParts(s);
    ShapeOf(s.h.chunks, p);
    u := Grasp(s, q, top, maxFast, fastChunks, binmap);
    GraspedParts(s, u, q);
    HeldParts(u, q, s.h.chunks[q].size, top, maxFast, fastChunks, binmap);
    OtherSame(s.h.chunks, q, p);
    v := JoinLive(u, p, q);
    ListedAll(s);
    AnnexedLive(s.h, v.h, p, q);
    GraspedParts(u, v, p);
    TopFieldKept(top, u.h, v.h);
    SameSpaceThen(s.h.chunks, u.h.chunks, v.h.chunks);
    HeldIntro(v, p, s.h.chunks[p].size + s.h.chunks[q].size, top, maxFast, fastChunks, binmap);
  }

  // ----- growing into top -----

  /** The chunk in hand grows into top, which starts where it ends. */
  ghost function Shifted(h: Heap, p: Addr, nb: nat, rest: nat): Heap
    requires p in h.chunks
  {
    h.(chunks := (h.chunks - {End(h.chunks, p)})[p := Chunk(nb, Used)][p + nb := Chunk(rest, Top)], top := Some(p + nb))
  }

  ghost predicate CanShift(h: Heap, p: Addr, nb: nat, rest: nat) {
    && p in h.chunks && h.chunks[p].state == Loose && End(h.chunks, p) in h.chunks && h.top == Some(End(h.chunks, p))
    && h.chunks[End(h.chunks, p)].state == Top && h.chunks[p].size < nb && nb % 8 == 0 && rest >= MINSIZE
    && h.chunks[p].size + h.chunks[End(h.chunks, p)].size == nb + rest
  }

  lemma ShiftIs(h: Heap, p: Addr, nb: nat, rest: nat)
    requires CanShift(h, p, nb, rest) && Shaped(p, h.chunks[p])
    ensures End(h.chunks, p) in h.chunks && End(h.chunks, p) != p && HasNext(h.chunks[p].state)
    ensures h.chunks[p].state != Fence && h.chunks[End(h.chunks, p)].state == Top
    ensures var cs := Merge(h.chunks, p, Top);
            && CanSplit(cs, p, nb) && p in cs && cs[p] == Chunk(nb + rest, Top) && 0 < nb <= cs[p].size
            && Split(cs, p, nb, Used, Top) == Shifted(h, p, nb, rest).chunks
            && (p + nb !in cs ==> p + nb !in h.chunks)
  {
  }

  lemma ShiftTiles(h: Heap, p: Addr, nb: nat, rest: nat)
    requires Tiles(h.chunks, h.starts) && CanShift(h, p, nb, rest) && p in h.chunks
    ensures Tiles(Shifted(h, p, nb, rest).chunks, h.starts) && p + nb !in h.chunks
    ensures SameSpace(h.chunks, Shifted(h, p, nb, rest).chunks)
  {
    hide *;
    TileParts(h.chunks, h.starts);
    ShapeOf(h.chunks, p);
    ShiftIs(h, p, nb, rest);
    NextTop();
    MergeTiles(h.chunks, h.starts, p, Top);
    TotalMerge(h.chunks, p, Top);
    var cs := Merge(h.chunks, p, Top);
    SplitTiles(cs, h.starts, p, nb, Used, Top);
    TotalSplit(cs, p, nb, Used, Top);
    SameSpaceThen(h.chunks, cs, Split(cs, p, nb, Used, Top));
  }

  lemma NextTop()
    ensures !HasNext(Top) && HasNext(Used)
  {
  }

  lemma ShiftBinned(h: Heap, p: Addr, nb: nat, rest: nat)
    requires CanShift(h, p, nb, rest) && p + nb !in h.chunks
    ensures SameBinned(h.chunks, Shifted(h, p, nb, rest).chunks)
  {
  }

  lemma ShiftTop(h: Heap, p: Addr, nb: nat, rest: nat)
    requires CanShift(h, p, nb, rest) && p + nb !in h.chunks && TopIs(h.chunks, h.top) && nb > 0
    ensures TopIs(Shifted(h, p, nb, rest).chunks, Some(p + nb))
  {
  }

  lemma ShiftApart(h: Heap, p: Addr, nb: nat, rest: nat)
    requires CanShift(h, p, nb, rest) && p + nb !in h.chunks && Apart(h.chunks)
    ensures Apart(Shifted(h, p, nb, rest).chunks)
  {
    var cs := Shifted(h, p, nb, rest).chunks;
    forall a | a in cs && IsFree(cs[a].state) ensures Solid(cs, End(cs, a)) {
      assert Solid(h.chunks, End(h.chunks, a));
    }
  }

  lemma ShiftTags(m: Words, h: Heap, p: Addr, nb: nat, rest: nat)
    requires CanShift(h, p, nb, rest) && p + nb !in h.chunks && Tags(m, h.chunks, h.starts)
    requires Tagged(m, p, Chunk(nb, Used)) && Tagged(m, p + nb, Chunk(rest, Top))
    ensures Tags(m, Shifted(h, p, nb, rest).chunks, h.starts)
  {
    hide Tagged;
  }

  lemma ShiftLive(h: Heap, p: Addr, nb: nat, rest: nat)
    requires CanShift(h, p, nb, rest) && p + nb !in h.chunks && LooseOnly(h.chunks, p) && nb > 0
    ensures var g := Shifted(h, p, nb, rest);
            && Grew(h.chunks, g.chunks, p) && NoLoose(g.chunks) && p in g.chunks && g.chunks[p] == Chunk(nb, Used)
            && g.lists == h.lists && g.starts == h.starts && g.top == Some(p + nb)
  {
  }

  /** set_head_size(p, nb); set_head(p + nb, rest | PREV_INUSE). */
  function ShiftWords(m: Words, p: Addr, nb: nat, rest: nat): Words {
    Poke(Poke(m, p + 4, SizeBit(Head(m, p), nb)), p + nb + 4, rest + 1)
  }

  lemma ShiftWordsTags(m: Words, p: Addr, nb: nat, rest: nat)
    requires nb % 8 == 0 && rest % 8 == 0 && nb > 0
    ensures Tagged(ShiftWords(m, p, nb, rest), p, Chunk(nb, Used)) && Tagged(ShiftWords(m, p, nb, rest), p + nb, Chunk(rest, Top))
    ensures forall w: int | p + 8 <= w <= p + nb :: ShiftWords(m, p, nb, rest)[w] == m[w]
  {
    SizeBitIs(Head(m, p), nb);
    EightFours(rest);
    HeadBits(rest, rest);
    hide PrevInuse, SizeBit;
  }

  lemma ShiftShapes(h: Heap, p: Addr, nb: nat, rest: nat)
    requires Tiles(h.chunks, h.starts) && CanShift(h, p, nb, rest)
    ensures nb % 8 == 0 && rest % 8 == 0 && nb > 0 && p in h.chunks
    ensures var t := End(h.chunks, p); t in h.chunks && h.chunks[t].state == Top && Inside(h.chunks, t, p + nb + 4)
  {
    var t := End(h.chunks, p);
    assert Shaped(p, h.chunks[p]) && Shaped(t, h.chunks[t]);
  }

  lemma ShiftSecond(s: Store, p: Addr, nb: nat, rest: nat)
    requires Inv(s) && CanShift(s.h, p, nb, rest)
    ensures Inv(Wrote(s, p + nb + 4, rest + 1)) && Quiet(s, Wrote(s, p + nb + 4, rest + 1))
  {
    hide *;
    InvParts(s);
    ShiftShapes(s.h, p, nb, rest);
    InsideStep(s, End(s.h.chunks, p), p + nb + 4, rest + 1);
  }

  /** Both stores, while the heap is still as it was. */
  lemma ShiftStores(s: Store, p: Addr, nb: nat, rest: nat) returns (u: Store)
    requires Inv(s) && LooseOnly(s.h.chunks, p) && CanShift(s.h, p, nb, rest)
    ensures Inv(u) && Quiet(s, u) && u == s.(m := ShiftWords(s.m, p, nb, rest))
  {
    hide *;
    InvParts(s);
    ShiftShapes(s.h, p, nb, rest);
    SizeBitNat(Head(s.m, p), nb);
    var v: nat := SizeBit(Head(s.m, p), nb);
    OwnHead(s, p, nb, v);
    var t := Wrote(s, p + 4, v);
    WroteIs(s, p + 4, v);
    ShiftSecond(t, p, nb, rest);
    u := Wrote(t, p + nb + 4, rest + 1);
    WroteIs(t, p + nb + 4, rest + 1);
    QuietThen(s, t, u);
    ShiftWordsRaw(s.m, p, nb, rest);
  }

  lemma ShiftWordsRaw(m: Words, p: Addr, nb: nat, rest: nat)
    ensures ShiftWords(m, p, nb, rest) == m[p + 4 := SizeBit(Head(m, p), nb)][p + nb + 4 := rest + 1]
  {
  }

  lemma ShiftStep(s: Store, p: Addr, size: nat, nb: nat, rest: nat, top: Addr, maxFast: nat, fastChunks: bool, binmap: seq<bv32>)
      returns (t: Store)
    requires Held(s, p, size, top, maxFast, fastChunks, binmap) && CanShift(s.h, p, nb, rest)
    ensures Sound(t, p + nb, maxFast, fastChunks, binmap) && Regranted(s, t, p, nb) && SameSpace(s.h.chunks, t.h.chunks)
    ensures t.m == ShiftWords(s.m, p, nb, rest) && t == Store(t.m, t.h, s.fastbins, false) && Snug(t.h.chunks, p, nb)
    ensures p in s.h.chunks && t.h == Shifted(s.h, p, nb, rest)
  {
    hide *;
    HeldParts(s, p, size, top, maxFast, fastChunks, binmap);
    var u := ShiftStores(s, p, nb, rest);
    InvParts(u);
    Parts(u.h);
    ShiftShapes(s.h, p, nb, rest);
    ShiftTiles(u.h, p, nb, rest);
    t := u.(h := Shifted(u.h, p, nb, rest));
    ShiftLive(u.h, p, nb, rest);
    ShiftWordsTags(s.m, p, nb, rest);
    ShiftInv(u, p, nb, rest);
    QuietParts(s, u);
    TopFieldNew(p + nb, t.h);
    SoundIntro(t, p + nb, maxFast, fastChunks, binmap);
    StoreOf(t, s.fastbins);
    MinPositive();
    SnugIntro(t.h.chunks, p, nb);
    RegrantedIntro(s, t, p, nb);
  }

  lemma ShiftInv(u: Store, p: Addr, nb: nat, rest: nat)
    requires Inv(u) && LooseOnly(u.h.chunks, p) && CanShift(u.h, p, nb, rest) && p in u.h.chunks
    requires Tagged(u.m, p, Chunk(nb, Used)) && Tagged(u.m, p + nb, Chunk(rest, Top))
    ensures Inv(u.(h := Shifted(u.h, p, nb, rest)))
  {
    hide *;
    InvParts(u);
    Parts(u.h);
    ShiftShapes(u.h, p, nb, rest);
    ShiftTiles(u.h, p, nb, rest);
    ShiftBinned(u.h, p, nb, rest);
    ShiftApart(u.h, p, nb, rest);
    ShiftTop(u.h, p, nb, rest);
    ShiftTags(u.m, u.h, p, nb, rest);
    ShiftLive(u.h, p, nb, rest);
    var g := Shifted(u.h, p, nb, rest);
    ListedSame(u.h.chunks, g.chunks, u.h.lists);
    WellFormedIntro(g);
    InvIntro(u.(h := g));
  }

  // ----- the operation -----

  lemma GrownIntoTop(s: Store, p: Addr, size: nat, newsize: nat, nb: nat, top: Addr, maxFast: nat, fastChunks: bool, binmap: seq<bv32>)
      returns (t: Store)
    requires Sound(s, top, maxFast, fastChunks, binmap) && p in s.h.chunks && s.h.chunks[p] == Chunk(size, Used)
    requires size < nb && nb % 8 == 0 && newsize >= nb + MINSIZE && top == p + size && newsize == size + SizeOf(Head(s.m, top))
    ensures Sound(t, p + nb, maxFast, fastChunks, binmap) && Regrown(s, t, p, p, nb) && SameSpace(s.h.chunks, t.h.chunks)
    ensures t.m == ShiftWords(s.m, p, nb, newsize - nb) && t == Store(t.m, t.h, s.fastbins, false) && Snug(t.h.chunks, p, nb)
    ensures s.h.top == Some(top) && TopWidth(s.h) == newsize - size && t.h == Shifted(s.h, p, nb, newsize - nb)
  {
    hide *;
    SoundParts(s, top, maxFast, fastChunks, binmap);
    var v := Grasp(s, p, top, maxFast, fastChunks, binmap);
    GraspedParts(s, v, p);
    TopWord(s, top);
    InvParts(s);
    ShapeOf(s.h.chunks, p);
    NextTopIs(s, p, size, top);
    CanShiftIntro(s, v, p, size, nb, newsize - nb);
    t := ShiftStep(v, p, size, nb, newsize - nb, top, maxFast, fastChunks, binmap);
    ShiftedLoose(s.h, v.h, p, nb, newsize - nb);
    TopMeasure(s, top);
    SameSpaceThen(s.h.chunks, v.h.chunks, t.h.chunks);
    CalmSame(s);
    StagesIntro(s, s, v, t, p, nb);
    InPlace(s, s, v, t, p, nb);
  }

  /** It does not matter that the chunk came into the allocator's hands first. */
  lemma ShiftedLoose(h: Heap, g: Heap, p: Addr, nb: nat, rest: nat)
    requires p in h.chunks && g == SetChunk(h, p, Loose)
    ensures p in g.chunks && Shifted(g, p, nb, rest) == Shifted(h, p, nb, rest)
  {
    var e := End(h.chunks, p);
    assert (g.chunks - {e})[p := Chunk(nb, Used)] == (h.chunks - {e})[p := Chunk(nb, Used)];
  }

  /** The chunk grows into top. */
  method GrowIntoTop(a: Arena, oldp: Addr, oldsize: nat, newsize: nat, nb: nat)
    requires a.Valid() && a.Accounted() && oldp in a.h.chunks && a.h.chunks[oldp] == Chunk(oldsize, Used)
    requires oldsize < nb && nb % 8 == 0 && newsize >= nb + MINSIZE && a.top == oldp + oldsize
    requires newsize == oldsize + SizeOf(Head(a.words, a.top))
    modifies a`words, a`top, a`h
    ensures a.Valid() && a.Accounted()
    ensures Regrown(Store(old(a.words), old(a.h), a.fastbins, false), Store(a.words, a.h, a.fastbins, false), oldp, oldp, nb)
    ensures Snug(a.h.chunks, oldp, nb)
    ensures old(a.h).top == Some(oldp + oldsize) && TopWidth(old(a.h)) == newsize - oldsize
    ensures a.h == Shifted(old(a.h), oldp, nb, newsize - nb)
  {
    hide *;
    ghost var s := Store(a.words, a.h, a.fastbins, false);
    a.ValidIs();
    ghost var t := GrownIntoTop(s, oldp, oldsize, newsize, nb, a.top, a.maxFast, a.fastChunks, a.binmap);
    a.AccountedIs();
    BooksKept(s.h.chunks, t.h.chunks, a.sbrkedMem, a.lost, a.brk, a.mapFloor, a.steady);
    var m := Poke(a.words, oldp + 4, SizeBit(Head(a.words, oldp), nb));
    m := Poke(m, oldp + nb + 4, newsize - nb + 1);
    ShiftWordsAre(s.m, oldp, nb, newsize - nb);
    a.words, a.top, a.h := m, oldp + nb, t.h;
    a.ValidIs();
    a.AccountedIs();
  }

  lemma ShiftWordsAre(m: Words, p: Addr, nb: nat, rest: nat)
    ensures ShiftWords(m, p, nb, rest) == Poke(Poke(m, p + 4, SizeBit(Head(m, p), nb)), p + nb + 4, rest + 1)
  {
  }

  /** A live chunk that ends where the top field points ends at top. */
  lemma NextTopIs(s: Store, p: Addr, size: nat, top: Addr)
    requires Inv(s) && TopField(top, s.h) && p in s.h.chunks && s.h.chunks[p] == Chunk(size, Used) && top == p + size
    ensures s.h.top == Some(top) && top in s.h.chunks && s.h.chunks[top].state == Top
  {
    assert Shaped(p, s.h.chunks[p]);
  }

  lemma CanShiftIntro(s: Store, v: Store, p: Addr, size: nat, nb: nat, rest: nat)
    requires p in s.h.chunks && s.h.chunks[p] == Chunk(size, Used) && v.h.chunks == Set(s.h.chunks, p, Loose) && v.h.top == s.h.top
    requires p + size in s.h.chunks && s.h.chunks[p + size].state == Top && s.h.top == Some(p + size)
    requires size < nb && nb % 8 == 0 && rest >= MINSIZE && nb + rest == size + s.h.chunks[p + size].size
    ensures CanShift(v.h, p, nb, rest)
  {
  }

  /** The chunk stays where it is, and may be cut. */
  method Stay(a: Arena, oldp: Addr, oldsize: nat, nb: nat)
    requires a.Valid() && a.Accounted() && oldp in a.h.chunks && a.h.chunks[oldp] == Chunk(oldsize, Used)
    requires nb <= oldsize && nb % 8 == 0 && nb >= MINSIZE
    modifies a
    ensures a.Valid() && a.Accounted()
    ensures Regrown(Store(old(a.words), old(a.h), old(a.fastbins), false), Store(a.words, a.h, a.fastbins, false), oldp, oldp, nb)
    ensures Snug(a.h.chunks, oldp, nb) && a.lastRemainder == old(a.lastRemainder)
    ensures CutBack(old(a.h), old(a.fastChunks), old(a.System()), oldp, nb, a.h, a.fastChunks, a.System())
  {
    hide *;
    ghost var s, pending, y := Store(a.words, a.h, a.fastbins, false), a.fastChunks, a.System();
    a.ValidIs();
    a.AccountedIs();
    a.SystemIs();
    ghost var v := Grasp(s, oldp, a.top, a.maxFast, a.fastChunks, a.binmap);
    GraspedParts(s, v, oldp);
    BooksKept(s.h.chunks, v.h.chunks, a.sbrkedMem, a.lost, a.brk, a.mapFloor, a.steady);
    StoreOf(v, a.fastbins);
    a.h := v.h;
    a.AccountedIs();
    a.SystemIs();
    Finish(a, oldp, oldsize, nb);
    ghost var t := Store(a.words, a.h, a.fastbins, false);
    CutBackLoose(s.h, pending, y, oldp, nb, a.h, a.fastChunks, a.System());
    CalmSame(s);
    StagesIntro(s, s, v, t, oldp, nb);
    InPlace(s, s, v, t, oldp, nb);
  }

  /** The chunk is joined with the free chunk that follows it. */
  method Absorb(a: Arena, oldp: Addr, oldsize: nat, newsize: nat, nb: nat)
    requires a.Valid() && a.Accounted() && oldp in a.h.chunks && a.h.chunks[oldp] == Chunk(oldsize, Used)
    requires oldp + oldsize in a.h.chunks && IsFree(a.h.chunks[oldp + oldsize].state)
    requires newsize == oldsize + a.h.chunks[oldp + oldsize].size && nb <= newsize && nb % 8 == 0 && nb >= MINSIZE
    modifies a
    ensures a.Valid() && a.Accounted()
    ensures Regrown(Store(old(a.words), old(a.h), old(a.fastbins), false), Store(a.words, a.h, a.fastbins, false), oldp, oldp, nb)
    ensures Snug(a.h.chunks, oldp, nb) && a.lastRemainder == old(a.lastRemainder)
    ensures Widened(old(a.h), old(a.fastChunks), old(a.System()), oldp, oldp + oldsize, nb, a.h, a.fastChunks, a.System())
  {
    hide *;
    ghost var s, pending, y := Store(a.words, a.h, a.fastbins, false), a.fastChunks, a.System();
    a.ValidIs();
    a.AccountedIs();
    a.SystemIs();
    ghost var u, v := AbsorbFree(s, oldp, oldp + oldsize, a.top, a.maxFast, a.fastChunks, a.binmap);
    GraspedParts(u, v, oldp);
    BooksKept(s.h.chunks, v.h.chunks, a.sbrkedMem, a.lost, a.brk, a.mapFloor, a.steady);
    StoreOf(v, a.fastbins);
    a.words := Unlinked(a.words, oldp + oldsize);
    a.h := v.h;
    a.AccountedIs();
    a.SystemIs();
    Finish(a, oldp, newsize, nb);
    WidenedIntro(s.h, v.h, pending, y, oldp, oldp + oldsize, nb, a.h, a.fastChunks, a.System());
    ghost var t := Store(a.words, a.h, a.fastbins, false);
    StagesIntro(s, u, v, t, oldp, nb);
    InPlace(s, u, v, t, oldp, nb);
  }

  // ----- the heap afterwards -----

  /** The chunk q behind p has been joined with p, and what is not needed has been given back. */
  ghost predicate Widened(h: Heap, pending: bool, y: Sys, p: Addr, q: Addr, nb: nat, g: Heap, pending': bool, y': Sys) {
    exists v :: Annexed(h, v, p, q) && CutBack(v, pending, y, p, nb, g, pending', y')
  }

  lemma WidenedIntro(h: Heap, v: Heap, pending: bool, y: Sys, p: Addr, q: Addr, nb: nat, g: Heap, pending': bool, y': Sys)
    requires Annexed(h, v, p, q) && CutBack(v, pending, y, p, nb, g, pending', y')
    ensures Widened(h, pending, y, p, q, nb, g, pending', y')
  {
    hide Annexed, CutBack;
  }

  /** The heap after a chunk has got the size it needs without being moved: it was large enough,
      or it has grown into top or into the free chunk behind it. */
  ghost predicate Kept(h: Heap, pending: bool, y: Sys, p: Addr, nb: nat, g: Heap, pending': bool, y': Sys) {
    && p in h.chunks
    && if h.chunks[p].size >= nb then CutBack(h, pending, y, p, nb, g, pending', y')
       else if h.top == Some(End(h.chunks, p)) then
         h.chunks[p].size + TopWidth(h) >= nb + MINSIZE
         && g == Shifted(h, p, nb, h.chunks[p].size + TopWidth(h) - nb) && pending' == pending && y' == y
       else Widened(h, pending, y, p, End(h.chunks, p), nb, g, pending', y')
  }

  lemma KeptStay(h: Heap, pending: bool, y: Sys, p: Addr, nb: nat, g: Heap, pending': bool, y': Sys)
    requires p in h.chunks && h.chunks[p].size >= nb && CutBack(h, pending, y, p, nb, g, pending', y')
    ensures Kept(h, pending, y, p, nb, g, pending', y')
  {
    hide CutBack;
  }

  lemma KeptTop(h: Heap, pending: bool, y: Sys, p: Addr, newsize: nat, nb: nat, g: Heap)
    requires p in h.chunks && h.chunks[p].size < nb && h.top == Some(End(h.chunks, p)) && newsize >= nb + MINSIZE
    requires newsize == h.chunks[p].size + TopWidth(h) && g == Shifted(h, p, nb, newsize - nb)
    ensures Kept(h, pending, y, p, nb, g, pending, y)
  {
    hide Shifted, TopWidth;
  }

  lemma KeptWidened(h: Heap, pending: bool, y: Sys, p: Addr, q: Addr, nb: nat, g: Heap, pending': bool, y': Sys)
    requires p in h.chunks && h.chunks[p].size < nb && q == p + h.chunks[p].size && h.top != Some(q)
    requires Widened(h, pending, y, p, q, nb, g, pending', y')
    ensures Kept(h, pending, y, p, nb, g, pending', y')
  {
    hide Widened;
  }

  /** The heap after a chunk has been replaced by one that malloc picked: if that is the next
      one, both have been joined and the chunk stays where it is; otherwise it has been given
      back. */
  ghost predicate Swapped(h: Heap, maxFast: nat, last: Addr, pool: Heap, p: Addr, nb: nat, q: Addr,
                           g: Heap, pending': bool, y': Sys, last': Addr) {
    exists mid, place, pending, y :: SwappedBy(h, maxFast, last, pool, p, nb, q, g, pending', y', last', mid, place, pending, y)
  }

  ghost predicate SwappedBy(h: Heap, maxFast: nat, last: Addr, pool: Heap, p: Addr, nb: nat, q: Addr,
                             g: Heap, pending': bool, y': Sys, last': Addr, mid: Heap, place: Addr, pending: bool, y: Sys) {
    && p in h.chunks && Picked(h, maxFast, last, pool, nb, place, mid, last')
    && if place == End(h.chunks, p) then q == p && Widened(mid, pending, y, p, place, nb, g, pending', y')
       else q == place != p && GivenUp(mid, pending, y, p, g, pending', y')
  }

  lemma SwappedIntro(h: Heap, maxFast: nat, last: Addr, pool: Heap, p: Addr, nb: nat, q: Addr,
                      g: Heap, pending': bool, y': Sys, last': Addr, mid: Heap, place: Addr, pending: bool, y: Sys)
    requires p in h.chunks && Picked(h, maxFast, last, pool, nb, place, mid, last')
    requires if place == p + h.chunks[p].size then q == p && Widened(mid, pending, y, p, place, nb, g, pending', y')
             else q == place != p && GivenUp(mid, pending, y, p, g, pending', y')
    ensures Swapped(h, maxFast, last, pool, p, nb, q, g, pending', y', last')
  {
    assert SwappedBy(h, maxFast, last, pool, p, nb, q, g, pending', y', last', mid, place, pending, y) by {
      hide Picked, Widened, GivenUp;
    }
    hide SwappedBy;
  }

  ghost predicate Behind(h: Heap, p: Addr, q: Addr) {
    p in h.chunks && q == End(h.chunks, p)
  }

  /** A chunk never moves to the place right behind it. */
  lemma NeverBehind(h: Heap, maxFast: nat, last: Addr, pool: Heap, p: Addr, nb: nat, q: Addr,
                    g: Heap, pending': bool, y': Sys, last': Addr)
    requires Swapped(h, maxFast, last, pool, p, nb, q, g, pending', y', last') && q != p
    ensures !Behind(h, p, q)
  {
    hide Picked, Widened, GivenUp;
  }

  /** Where the chunk ends up, with the heap that this leaves. */
  ghost predicate Rehoused(h: Heap, maxFast: nat, last: Addr, pending: bool, y: Sys, pool: Heap, p: Addr, nb: nat, q: Addr,
                           g: Heap, pending': bool, y': Sys, last': Addr) {
    if GrowsHere(h, p, nb) then q == p && last' == last && Kept(h, pending, y, p, nb, g, pending', y')
    else Swapped(h, maxFast, last, pool, p, nb, q, g, pending', y', last')
  }

  /** A chunk never moves to the place right behind it, and one that can grow stays. */
  lemma RehousedPlace(h: Heap, maxFast: nat, last: Addr, pending: bool, y: Sys, pool: Heap, p: Addr, nb: nat, q: Addr,
                      g: Heap, pending': bool, y': Sys, last': Addr)
    requires Rehoused(h, maxFast, last, pending, y, pool, p, nb, q, g, pending', y', last')
    ensures GrowsHere(h, p, nb) ==> q == p
    ensures q != p ==> !Behind(h, p, q)
  {
    hide Kept, GrowsHere, Swapped;
    if q != p { NeverBehind(h, maxFast, last, pool, p, nb, q, g, pending', y', last'); }
  }

  lemma RehousedKept(h: Heap, maxFast: nat, last: Addr, pending: bool, y: Sys, pool: Heap, p: Addr, nb: nat,
                     g: Heap, pending': bool, y': Sys)
    requires GrowsHere(h, p, nb) && Kept(h, pending, y, p, nb, g, pending', y')
    ensures Rehoused(h, maxFast, last, pending, y, pool, p, nb, p, g, pending', y', last)
  {
    hide Kept, GrowsHere;
  }

  lemma RehousedSwapped(h: Heap, maxFast: nat, last: Addr, pending: bool, y: Sys, pool: Heap, p: Addr, nb: nat, q: Addr,
                         g: Heap, pending': bool, y': Sys, last': Addr)
    requires !GrowsHere(h, p, nb) && Swapped(h, maxFast, last, pool, p, nb, q, g, pending', y', last')
    ensures Rehoused(h, maxFast, last, pending, y, pool, p, nb, q, g, pending', y', last')
  {
    hide Swapped, GrowsHere;
  }

  // ----- when it must not fail -----

  /** The chunk is large enough, or becomes so together with the free chunk or with the part
      of top behind it. */
  ghost predicate GrowsHere(h: Heap, p: Addr, nb: nat) {
    && p in h.chunks
    && (h.chunks[p].size >= nb
        || (End(h.chunks, p) in h.chunks
            && ((IsFree(h.chunks[End(h.chunks, p)].state) && h.chunks[p].size + h.chunks[End(h.chunks, p)].size >= nb)
                || (h.chunks[End(h.chunks, p)].state == Top
                    && h.chunks[p].size + h.chunks[End(h.chunks, p)].size >= nb + MINSIZE))))
  }

  /** How realloc of the chunk p to nb bytes ends: it succeeds if the chunk can grow where it is;
      otherwise as malloc does, except that the request passed on to malloc may itself be
      out of range. */
  ghost predicate Refitted(h: Heap, y: Sys, contiguous: bool, pool: Heap, p: Addr, nb: nat, got: bool, jammed: bool) {
    if GrowsHere(h, p, nb) then got && !jammed
    else if nb >= REQUEST_LIMIT + 7 then !got && !jammed
    else Outcome(h, y, contiguous, pool, nb, got, jammed)
  }

  lemma RefittedHere(h: Heap, y: Sys, contiguous: bool, pool: Heap, p: Addr, nb: nat)
    requires GrowsHere(h, p, nb)
    ensures Refitted(h, y, contiguous, pool, p, nb, true, false)
  {
  }

  lemma RefittedElse(h: Heap, y: Sys, contiguous: bool, pool: Heap, p: Addr, nb: nat, got: bool, jammed: bool)
    requires !GrowsHere(h, p, nb)
    requires if nb >= REQUEST_LIMIT + 7 then !got && !jammed else Outcome(h, y, contiguous, pool, nb, got, jammed)
    ensures Refitted(h, y, contiguous, pool, p, nb, got, jammed)
  {
    hide Outcome, GrowsHere;
  }

  lemma HereAlready(h: Heap, p: Addr, nb: nat)
    requires p in h.chunks && h.chunks[p].size >= nb
    ensures GrowsHere(h, p, nb)
  {
  }

  lemma HereInto(h: Heap, p: Addr, q: Addr, nb: nat)
    requires p in h.chunks && q in h.chunks && q == p + h.chunks[p].size
    requires if h.chunks[q].state == Top then h.chunks[p].size + h.chunks[q].size >= nb + MINSIZE
             else IsFree(h.chunks[q].state) && h.chunks[p].size + h.chunks[q].size >= nb
    ensures GrowsHere(h, p, nb)
  {
  }

  lemma NotHere(h: Heap, p: Addr, q: Addr, nb: nat)
    requires p in h.chunks && q in h.chunks && q == p + h.chunks[p].size && h.chunks[p].size < nb
    requires h.chunks[q].state == Top ==> h.chunks[p].size + h.chunks[q].size < nb + MINSIZE
    requires IsFree(h.chunks[q].state) ==> h.chunks[p].size + h.chunks[q].size < nb
    ensures !GrowsHere(h, p, nb)
  {
  }

  /** A new chunk is allocated.  If it is the next one, both are joined; otherwise the words
      are copied and the old chunk is freed. */
  method Relocate(a: Arena, oldp: Addr, oldsize: nat, nb: nat) returns (newp: Addr, ghost pool: Heap)
    requires a.Valid() && a.Accounted() && oldp in a.h.chunks && a.h.chunks[oldp] == Chunk(oldsize, Used)
    requires oldsize < nb && nb % 8 == 0 && nb >= MINSIZE
    modifies a
    ensures a.Jammed() || (a.Valid() && a.Accounted())
    ensures a.tidy ==> !a.Jammed()
    ensures if nb >= REQUEST_LIMIT + 7 then newp == 0 && !a.Jammed()
            else Outcome(old(a.h), old(a.System()), old(a.contiguous), pool, nb, newp != 0, a.Jammed())
    ensures newp == 0 ==> Calm(Store(old(a.words), old(a.h), old(a.fastbins), false), Store(a.words, a.h, a.fastbins, false))
    ensures newp != 0 ==>
      Regrown(Store(old(a.words), old(a.h), old(a.fastbins), false), Store(a.words, a.h, a.fastbins, false), oldp, newp, nb)
    ensures newp != 0 ==> Snug(a.h.chunks, newp, nb)
    ensures newp != 0 ==>
      Swapped(old(a.h), old(a.maxFast), old(a.lastRemainder), pool, oldp, nb, newp, a.h, a.fastChunks, a.System(), a.lastRemainder)
    ensures newp == 0 ==> a.lastRemainder == old(a.lastRemainder)
  {
    hide *;
    ghost var s, fast, last := Store(a.words, a.h, a.fastbins, false), a.maxFast, a.lastRemainder;
    a.ValidIs();
    SoundParts(s, a.top, a.maxFast, a.fastChunks, a.binmap);
    InvParts(s);
    ShapeOf(s.h.chunks, oldp);
    AgainSize(nb);
    a.StandsStraight();
    ghost var y, c := a.System(), a.contiguous;
    var newmem: Addr;
    newmem, pool := a.MALLOc(nb - 7);
    if newmem == 0 {
      a.StandsStraight();
      return 0, pool;
    }
    OutcomeGot(s.h, y, c, pool, nb, a.Jammed());
    ghost var t, pending, z := Store(a.words, a.h, a.fastbins, false), a.fastChunks, a.System();
    AllottedParts(s, t, newmem, nb - 7);
    newp := newmem - 8;
    ghost var place := newp;
    StillLive(s, t, newp, oldp, nb);
    a.ValidIs();
    SoundParts(t, a.top, a.maxFast, a.fastChunks, a.binmap);
    InvParts(t);
    if newp == oldp + oldsize {
      TagOf(t.m, t.h.chunks, t.h.starts, newp);
      UsedIs(t.m, newp, t.h.chunks[newp]);
      FastSize(t, newp, 0);
      var newsize: nat := SizeOf(Head(a.words, newp));
      JoinNew(a, s, oldp, oldsize, newsize, nb);
      newp := oldp;
    } else {
      MoveTo(a, s, oldp, oldsize, newp, nb);
    }
    SwappedIntro(s.h, fast, last, pool, oldp, nb, newp, a.h, a.fastChunks, a.System(), a.lastRemainder, t.h, place, pending, z);
    a.StandsStraight();
  }

  lemma AgainSize(nb: nat)
    requires nb % 8 == 0 && nb >= MINSIZE
    ensures nb - 7 >= 0 && RequestToSize(nb - 7) == nb
  {
    RequestAgain(nb);
  }

  lemma StillLive(s: Store, t: Store, q: Addr, p: Addr, nb: nat)
    requires Granted(s, t, q, nb) && p in s.h.chunks && s.h.chunks[p].state == Used
    ensures p in t.h.chunks && t.h.chunks[p] == s.h.chunks[p] && q != p
    ensures q in t.h.chunks && t.h.chunks[q].state == Used && t.h.chunks[q].size >= nb
  {
  }

  method JoinNew(a: Arena, ghost s: Store, oldp: Addr, oldsize: nat, newsize: nat, nb: nat)
    requires a.Valid() && a.Accounted() && Granted(s, Store(a.words, a.h, a.fastbins, false), oldp + oldsize, nb)
    requires oldp in s.h.chunks && s.h.chunks[oldp] == Chunk(oldsize, Used)
    requires oldp + oldsize in a.h.chunks && a.h.chunks[oldp + oldsize].size == newsize && nb % 8 == 0 && nb >= MINSIZE
    modifies a
    ensures a.Valid() && a.Accounted() && Regrown(s, Store(a.words, a.h, a.fastbins, false), oldp, oldp, nb)
    ensures Snug(a.h.chunks, oldp, nb) && a.lastRemainder == old(a.lastRemainder)
    ensures Widened(old(a.h), old(a.fastChunks), old(a.System()), oldp, oldp + oldsize, nb, a.h, a.fastChunks, a.System())
  {
    hide *;
    ghost var t, pending, y := Store(a.words, a.h, a.fastbins, false), a.fastChunks, a.System();
    a.SystemIs();
    StillLive(s, t, oldp + oldsize, oldp, nb);
    a.ValidIs();
    a.AccountedIs();
    ghost var u, v := AbsorbLive(t, oldp, oldp + oldsize, a.top, a.maxFast, a.fastChunks, a.binmap);
    GraspedParts(u, v, oldp);
    GrantFree(s, t, u, oldp + oldsize, nb);
    BooksKept(t.h.chunks, v.h.chunks, a.sbrkedMem, a.lost, a.brk, a.mapFloor, a.steady);
    StoreOf(v, a.fastbins);
    a.h := v.h;
    a.AccountedIs();
    a.SystemIs();
    Finish(a, oldp, oldsize + newsize, nb);
    WidenedIntro(t.h, v.h, pending, y, oldp, oldp + oldsize, nb, a.h, a.fastChunks, a.System());
    ghost var w := Store(a.words, a.h, a.fastbins, false);
    StagesIntro(s, u, v, w, oldp, nb);
    InPlace(s, u, v, w, oldp, nb);
  }

  /** Where the copy goes, and that it stays inside. */
  lemma CopyFits(chunks: Chunks, p: Addr, q: Addr, nb: nat)
    requires Shapes(chunks) && Ordered(chunks) && p in chunks && q in chunks && p != q
    requires chunks[p].size < nb <= chunks[q].size && chunks[q].state == Used
    ensures chunks[p].size % 8 == 0 && chunks[p].size >= 16
    ensures var k := chunks[p].size / 4 - 1;
            && k >= 3 && k % 2 == 1 && (p + 8 + 4 * k <= q + 8 || q + 8 + 4 * k <= p + 8)
            && forall m: Words, n: Words | OnlyBlock(m, n, q + 8, 4 * k) :: OnlyPayload(m, n, chunks, q)
  {
    assert Shaped(p, chunks[p]) && Shaped(q, chunks[q]);
    if p < q { assert End(chunks, p) <= q; } else { assert End(chunks, q) <= p; }
    var z := chunks[p].size / 8;
    assert chunks[p].size == 8 * z;
    var k := chunks[p].size / 4 - 1;
    assert k == 2 * (z - 1) + 1;
    forall m: Words, n: Words | OnlyBlock(m, n, q + 8, 4 * k) ensures OnlyPayload(m, n, chunks, q) {
      forall w: int | !Payload(chunks, q, w) ensures n[w] == m[w] {
        assert !(q + 8 <= w < q + 8 + 4 * k);
      }
    }
  }

  method MoveTo(a: Arena, ghost s: Store, oldp: Addr, oldsize: nat, newp: Addr, nb: nat)
    requires a.Valid() && a.Accounted() && Granted(s, Store(a.words, a.h, a.fastbins, false), newp, nb)
    requires oldp in s.h.chunks && s.h.chunks[oldp] == Chunk(oldsize, Used) && oldsize < nb && Snug(a.h.chunks, newp, nb)
    modifies a
    ensures a.Valid() && a.Accounted() && Regrown(s, Store(a.words, a.h, a.fastbins, false), oldp, newp, nb)
    ensures Snug(a.h.chunks, newp, nb) && a.lastRemainder == old(a.lastRemainder)
    ensures GivenUp(old(a.h), old(a.fastChunks), old(a.System()), oldp, a.h, a.fastChunks, a.System())
  {
    hide *;
    ghost var t := Store(a.words, a.h, a.fastbins, false);
    StillLive(s, t, newp, oldp, nb);
    a.SystemIs();
    a.ValidIs();
    SoundParts(t, a.top, a.maxFast, a.fastChunks, a.binmap);
    InvParts(t);
    CopyFits(t.h.chunks, oldp, newp, nb);
    var copysize := oldsize - SIZE_SZ;
    var ncopies := copysize / 4;
    CopyCount(oldsize);
    var n := CopyWords(a.words, oldp + 8, newp + 8, ncopies);
    UserStep(t, n, newp);
    ghost var u := t.(m := n);
    SameSound(t, u, a.top, a.maxFast, a.fastChunks, a.binmap);
    a.AccountedIs();
    a.words := n;
    a.ValidIs();
    a.AccountedIs();
    a.SystemIs();
    a.FREe(oldp + 8);
    ghost var w := Store(a.words, a.h, a.fastbins, false);
    MovesIntro(s, t, n, w, oldp, newp, nb);
    ByCopy(s, t, n, w, oldp, newp, nb);
    FreedSnug(u, w, oldp, newp, nb);
  }

  lemma FreedSnug(t: Store, u: Store, gone: Addr, p: Addr, nb: nat)
    requires Freed(t, u, gone) && p != gone && p in t.h.chunks && t.h.chunks[p].state == Used && Snug(t.h.chunks, p, nb)
    ensures Snug(u.h.chunks, p, nb)
  {
  }

  lemma CopyCount(oldsize: nat)
    requires oldsize >= 16
    ensures oldsize - SIZE_SZ >= 0 && (oldsize - SIZE_SZ) / 4 == oldsize / 4 - 1
  {
  }

  lemma SameSound(t: Store, u: Store, top: Addr, maxFast: nat, fastChunks: bool, binmap: seq<bv32>)
    requires Sound(t, top, maxFast, fastChunks, binmap) && Inv(u) && u == t.(m := u.m)
    ensures Sound(u, top, maxFast, fastChunks, binmap) && u == Store(u.m, t.h, t.fastbins, false)
  {
    hide Inv;
  }

  lemma MovesIntro(s: Store, u: Store, n: Words, t: Store, p: Addr, q: Addr, nb: nat)
    requires Granted(s, u, q, nb) && p in s.h.chunks && s.h.chunks[p].state == Used && s.h.chunks[p].size < nb
    requires s.h.chunks[p].size % 8 == 0 && s.h.chunks[p].size >= 16
    requires OnlyPayload(u.m, n, u.h.chunks, q) && CopiedWords(u.m, n, p + 8, q + 8, s.h.chunks[p].size / 4 - 1)
    requires Shapes(u.h.chunks) && Ordered(u.h.chunks)
    requires Freed(u.(m := n), t, p)
    ensures Moves(s, u, n, t, p, q, nb)
  {
  }

  /** realloc().  0 means that nothing has changed but the allocator's own order; otherwise
      the result holds as much of the old contents as fits, and no more is kept than the
      padded request and what could not be a chunk of its own. */
  method REALLOc(a: Arena, oldmem: Addr, bytes: nat) returns (mem: Addr, ghost pool: Heap)
    requires (a.Valid() || a.Blank()) && a.Accounted()
    requires oldmem != 0 ==> a.Valid() && oldmem >= 8 && oldmem - 8 in a.h.chunks && a.h.chunks[oldmem - 8].state == Used
    modifies a
    ensures a.Jammed() || ((a.Valid() || (a.Blank() && bytes >= REQUEST_LIMIT)) && a.Accounted())
    ensures old(a.Valid()) || mem != 0 ==> a.Jammed() || a.Valid()
    ensures a.tidy ==> !a.Jammed()
    ensures bytes >= REQUEST_LIMIT ==> mem == 0 && unchanged(a)
    ensures bytes < REQUEST_LIMIT && oldmem == 0 ==>
      Outcome(old(a.h), old(a.System()), old(a.contiguous), pool, RequestToSize(bytes), mem != 0, a.Jammed())
    ensures bytes < REQUEST_LIMIT && oldmem != 0 ==>
      Refitted(old(a.h), old(a.System()), old(a.contiguous), pool, oldmem - 8, RequestToSize(bytes), mem != 0, a.Jammed())
    ensures mem == 0 ==> Calm(Store(old(a.words), old(a.h), old(a.fastbins), false), Store(a.words, a.h, a.fastbins, false))
    ensures mem != 0 && oldmem == 0 ==>
      Allotted(Store(old(a.words), old(a.h), old(a.fastbins), false), Store(a.words, a.h, a.fastbins, false), mem, bytes)
    ensures mem != 0 && oldmem != 0 ==>
      mem > 8 && mem % ALIGNMENT == 0 && RequestToSize(bytes) >= bytes + SIZE_SZ
      && Regrown(Store(old(a.words), old(a.h), old(a.fastbins), false), Store(a.words, a.h, a.fastbins, false),
                 oldmem - 8, mem - 8, RequestToSize(bytes))
      && Rehoused(old(a.h), old(a.maxFast), old(a.lastRemainder), old(a.fastChunks), old(a.System()), pool,
                  oldmem - 8, RequestToSize(bytes), mem - 8, a.h, a.fastChunks, a.System(), a.lastRemainder)
      && (mem != oldmem ==> !Behind(old(a.h), oldmem - 8, mem - 8))
    ensures mem != 0 ==> Snug(a.h.chunks, mem - 8, RequestToSize(bytes))
    ensures bytes < REQUEST_LIMIT && oldmem != 0 && GrowsHere(old(a.h), oldmem - 8, RequestToSize(bytes)) ==> mem == oldmem
    ensures mem == 0 ==> a.lastRemainder == old(a.lastRemainder)
  {
    hide *;
    if oldmem == 0 {
      mem, pool := a.MALLOc(bytes);
      return;
    }
    ghost var s, y, c := Store(a.words, a.h, a.fastbins, false), a.System(), a.contiguous;
    ghost var fast, last, pending := a.maxFast, a.lastRemainder, a.fastChunks;
    pool := a.h;
    CalmSame(s);
    a.StandsStraight();
    if bytes >= REQUEST_LIMIT {
      return 0, pool;
    }
    RequestFits(bytes);
    EightIs();
    var nb := RequestToSize(bytes);
    var oldp := oldmem - 8;
    a.ValidIs();
    SoundParts(s, a.top, a.maxFast, a.fastChunks, a.binmap);
    InvParts(s);
    TagOf(s.m, s.h.chunks, s.h.starts, oldp);
    UsedIs(s.m, oldp, s.h.chunks[oldp]);
    FastSize(s, oldp, 0);
    ShapeOf(s.h.chunks, oldp);
    UsedChunk(s.h.chunks[oldp]);
    var oldsize: nat := SizeOf(Head(a.words, oldp));
    var newp := oldp;
    if oldsize >= nb {
      HereAlready(s.h, oldp, nb);
      Stay(a, oldp, oldsize, nb);
      KeptStay(s.h, pending, y, oldp, nb, a.h, a.fastChunks, a.System());
      KeptFits(s.h, fast, last, pending, y, c, pool, oldp, nb, a.h, a.fastChunks, a.System());
      a.StandsStraight();
    } else {
      newp, pool := Enlarge(a, oldp, oldsize, nb);
      if newp == 0 {
        return 0, pool;
      }
      RefittedGot(s.h, y, c, pool, oldp, nb, a.Jammed());
    }
    RehousedPlace(s.h, fast, last, pending, y, pool, oldp, nb, newp, a.h, a.fastChunks, a.System(), a.lastRemainder);
    a.ValidIs();
    ghost var t := Store(a.words, a.h, a.fastbins, false);
    SoundParts(t, a.top, a.maxFast, a.fastChunks, a.binmap);
    InvParts(t);
    RegrownAt(s, t, oldp, newp, nb);
    ShapeOf(t.h.chunks, newp);
    mem := newp + 8;
  }

  lemma EightIs()
    ensures ALIGNMENT == 8
  {
  }

  lemma RegrownAt(s: Store, t: Store, p: Addr, q: Addr, nb: nat)
    requires Regrown(s, t, p, q, nb)
    ensures q in t.h.chunks
  {
  }

  lemma RefittedGot(h: Heap, y: Sys, contiguous: bool, pool: Heap, p: Addr, nb: nat, jammed: bool)
    requires Refitted(h, y, contiguous, pool, p, nb, true, jammed)
    ensures !jammed
  {
    if !GrowsHere(h, p, nb) { OutcomeGot(h, y, contiguous, pool, nb, jammed); }
    hide Outcome, GrowsHere;
  }

  /** What follows the chunk decides how it grows. */
  method Enlarge(a: Arena, oldp: Addr, oldsize: nat, nb: nat) returns (newp: Addr, ghost pool: Heap)
    requires a.Valid() && a.Accounted() && oldp in a.h.chunks && a.h.chunks[oldp] == Chunk(oldsize, Used)
    requires oldsize < nb && nb % 8 == 0 && nb >= MINSIZE
    modifies a
    ensures a.Jammed() || (a.Valid() && a.Accounted())
    ensures a.tidy ==> !a.Jammed()
    ensures Refitted(old(a.h), old(a.System()), old(a.contiguous), pool, oldp, nb, newp != 0, a.Jammed())
    ensures newp == 0 ==> Calm(Store(old(a.words), old(a.h), old(a.fastbins), false), Store(a.words, a.h, a.fastbins, false))
    ensures newp != 0 ==>
      Regrown(Store(old(a.words), old(a.h), old(a.fastbins), false), Store(a.words, a.h, a.fastbins, false), oldp, newp, nb)
    ensures newp != 0 ==> Snug(a.h.chunks, newp, nb)
    ensures newp != 0 ==>
      Rehoused(old(a.h), old(a.maxFast), old(a.lastRemainder), old(a.fastChunks), old(a.System()), pool, oldp, nb, newp,
               a.h, a.fastChunks, a.System(), a.lastRemainder)
    ensures GrowsHere(old(a.h), oldp, nb) ==> newp == oldp
    ensures newp == 0 ==> a.lastRemainder == old(a.lastRemainder)
  {
    hide *;
    ghost var s, y, c := Store(a.words, a.h, a.fastbins, false), a.System(), a.contiguous;
    ghost var fast, last, pending, pastTop := a.maxFast, a.lastRemainder, a.fastChunks, a.top;
    a.SystemIs();
    pool := a.h;
    a.ValidIs();
    var next := oldp + oldsize;
    NextFacts(s, oldp, next, a.top, a.maxFast, a.fastChunks, a.binmap);
    var nextsize := SizeOf(Head(a.words, next));
    if next == a.top && oldsize + nextsize >= nb + MINSIZE {
      HereInto(s.h, oldp, next, nb);
      GrowIntoTop(a, oldp, oldsize, oldsize + nextsize, nb);
      a.SystemIs();
      newp := oldp;
      EndIs(s.h.chunks, oldp);
      KeptTop(s.h, pending, y, oldp, oldsize + nextsize, nb, a.h);
      KeptFits(s.h, fast, last, pending, y, c, pool, oldp, nb, a.h, a.fastChunks, a.System());
      a.StandsStraight();
    } else if next != a.top && !PrevInuse(a.words[next + nextsize + 4]) && oldsize + nextsize >= nb {
      HereInto(s.h, oldp, next, nb);
      Absorb(a, oldp, oldsize, oldsize + nextsize, nb);
      newp := oldp;
      NotTopThere(s.h, next, pastTop);
      KeptWidened(s.h, pending, y, oldp, next, nb, a.h, a.fastChunks, a.System());
      KeptFits(s.h, fast, last, pending, y, c, pool, oldp, nb, a.h, a.fastChunks, a.System());
      a.StandsStraight();
    } else {
      FreeKind(s.h.chunks[next].state);
      NotHere(s.h, oldp, next, nb);
      newp, pool := Relocate(a, oldp, oldsize, nb);
      if newp != 0 {
        RehousedSwapped(s.h, fast, last, pending, y, pool, oldp, nb, newp, a.h, a.fastChunks, a.System(), a.lastRemainder);
      }
      RefittedElse(s.h, y, c, pool, oldp, nb, newp != 0, a.Jammed());
    }
  }

  lemma KeptFits(h: Heap, maxFast: nat, last: Addr, pending: bool, y: Sys, contiguous: bool, pool: Heap, p: Addr, nb: nat,
                 g: Heap, pending': bool, y': Sys)
    requires GrowsHere(h, p, nb) && Kept(h, pending, y, p, nb, g, pending', y')
    ensures Rehoused(h, maxFast, last, pending, y, pool, p, nb, p, g, pending', y', last)
    ensures Refitted(h, y, contiguous, pool, p, nb, true, false)
  {
    hide *;
    RehousedKept(h, maxFast, last, pending, y, pool, p, nb, g, pending', y');
    RefittedHere(h, y, contiguous, pool, p, nb);
  }

  /** What the code finds behind a live chunk. */
  lemma NextFacts(s: Store, p: Addr, q: Addr, top: Addr, maxFast: nat, fastChunks: bool, binmap: seq<bv32>)
    requires Sound(s, top, maxFast, fastChunks, binmap) && p in s.h.chunks && s.h.chunks[p].state == Used
    requires q == p + s.h.chunks[p].size
    ensures p > 0 && q in s.h.chunks && s.h.chunks[q].state != Loose && (s.h.chunks[q].state == Top <==> q == top)
    ensures q == top ==> SizeOf(Head(s.m, q)) == s.h.chunks[q].size
    ensures TopField(top, s.h)
    ensures IsFree(s.h.chunks[q].state) ==>
      SizeOf(Head(s.m, q)) == s.h.chunks[q].size && !PrevInuse(s.m[q + SizeOf(Head(s.m, q)) + 4])
    ensures q != top && !PrevInuse(s.m[q + SizeOf(Head(s.m, q)) + 4]) ==>
      IsFree(s.h.chunks[q].state) && SizeOf(Head(s.m, q)) == s.h.chunks[q].size
  {
    hide *;
    SoundParts(s, top, maxFast, fastChunks, binmap);
    InvParts(s);
    ShapeOf(s.h.chunks, p);
    NextChunk(s, p, q, top);
    NextSize(s, q, top);
    PositiveShape(s.h.chunks, p);
    if q != top {
      InuseTells(s, q);
      FreeNotFence(s.h.chunks[q].state);
    }
  }

  lemma NotTopThere(h: Heap, q: Addr, top: Addr)
    requires TopField(top, h) && q != top
    ensures h.top != Some(q)
  {
  }

  lemma PositiveShape(chunks: Chunks, p: Addr)
    requires Shapes(chunks) && p in chunks
    ensures p > 0
  {
    assert Shaped(p, chunks[p]);
  }

  /** What the words of the next chunk say about a free chunk and about top. */
  lemma NextSize(s: Store, q: Addr, top: Addr)
    requires Inv(s) && NoLoose(s.h.chunks) && TopField(top, s.h) && q in s.h.chunks
    ensures q == top ==> SizeOf(Head(s.m, q)) == s.h.chunks[q].size && s.h.chunks[q].state == Top
    ensures s.h.chunks[q].state == Top ==> q == top
    ensures IsFree(s.h.chunks[q].state) ==>
      SizeOf(Head(s.m, q)) == s.h.chunks[q].size && !PrevInuse(s.m[q + SizeOf(Head(s.m, q)) + 4])
  {
    hide *;
    TopWord(s, top);
    TopPlace(s, q, top);
    if IsFree(s.h.chunks[q].state) {
      FreeKind(s.h.chunks[q].state);
      InuseTells(s, q);
      FreeNotFence(s.h.chunks[q].state);
    }
  }

  lemma TopPlace(s: Store, q: Addr, top: Addr)
    requires Inv(s) && TopField(top, s.h) && q in s.h.chunks
    ensures s.h.chunks[q].state == Top ==> q == top && s.h.top.Some?
    ensures q == top ==> s.h.top.Some? && s.h.chunks[q].state == Top
  {
    assert Shaped(q, s.h.chunks[q]);
    assert BinAt(1) < LOW;
  }

  lemma FreeKind(st: State)
    ensures IsFree(st) ==> st != Top && st != Loose
  {
  }

  /** What lies behind a live chunk. */
  lemma NextChunk(s: Store, p: Addr, q: Addr, top: Addr)
    requires Inv(s) && NoLoose(s.h.chunks) && TopField(top, s.h) && p in s.h.chunks && s.h.chunks[p].state == Used
    requires q == p + s.h.chunks[p].size
    ensures q in s.h.chunks && s.h.chunks[q].state != Loose && (s.h.chunks[q].state == Top <==> q == top)
  {
    assert Shaped(p, s.h.chunks[p]);
    assert q == End(s.h.chunks, p) && q in s.h.chunks;
  }
}
