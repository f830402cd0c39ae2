/** Coalescing: joining a chunk that is given back with its free neighbours or with top. */
module DlCoalesce {
  import opened DlSizes
  import opened DlHeap
  import opened DlTags
  import opened DlLinks
  import opened DlSteps
  import opened DlMoves

  ghost function Loosened(s: Store, p: Addr): Store {
    if p in s.h.chunks then s.(h := SetChunk(s.h, p, Loose)) else s
  }

  lemma LoosenedIs(s: Store, p: Addr)
    requires p in s.h.chunks
    ensures Loosened(s, p) == s.(h := SetChunk(s.h, p, Loose))
  {
  }

  lemma ShrankSet(chunks: Chunks, p: Addr)
    requires p in chunks && chunks[p].state == Used
    ensures Grew(Set(chunks, p, Loose), chunks, p)
  {
  }

  lemma TakenIntro(s: Store, t: Store, p: Addr)
    requires Grew(t.h.chunks, s.h.chunks, p) && t.m == s.m
    requires SameSpace(s.h.chunks, t.h.chunks) && t.h.starts == s.h.starts
    ensures Taken(s, t, p)
  {
  }

  /** A live chunk comes into the hands of the allocator. */
  lemma TakeStep(s: Store, p: Addr)
    requires Inv(s) && p in s.h.chunks && s.h.chunks[p].state == Used
    ensures Inv(Loosened(s, p)) && Taken(s, Loosened(s, p), p)
    ensures Loosened(s, p).h == SetChunk(s.h, p, Loose)
  {
    hide *;
    LoosenStep(s, p);
    LoosenedIs(s, p);
    SetChunkIs(s.h, p, Loose);
    ShrankSet(s.h.chunks, p);
    TakenIntro(s, Loosened(s, p), p);
  }

  // ----- backward -----

  ghost function Unhooked(s: Store, i: nat, k: nat): Store {
    if i < |s.h.lists| && k < |s.h.lists[i]| && s.h.lists[i][k] in s.h.chunks
    then s.(m := Unlinked(s.m, s.h.lists[i][k]), h := UnlinkHeap(s.h, i, k)) else s
  }

  lemma UnhookedIs(s: Store, i: nat, k: nat)
    requires i < |s.h.lists| && k < |s.h.lists[i]| && s.h.lists[i][k] in s.h.chunks
    ensures Unhooked(s, i, k) == s.(m := Unlinked(s.m, s.h.lists[i][k]), h := UnlinkHeap(s.h, i, k))
  {
  }

  ghost function Joined(s: Store, p: Addr): Store {
    if p in s.h.chunks && End(s.h.chunks, p) in s.h.chunks then s.(h := MergeChunk(s.h, p)) else s
  }

  lemma JoinedIs(s: Store, p: Addr)
    requires p in s.h.chunks && End(s.h.chunks, p) in s.h.chunks
    ensures Joined(s, p) == s.(h := MergeChunk(s.h, p))
  {
  }

  /** A free chunk at a known place of a bin is taken out. */
  lemma UnhookStep(s: Store, b: Addr) returns (i: nat, k: nat)
    requires Inv(s) && !s.open && b in s.h.chunks && IsFree(s.h.chunks[b].state)
    ensures s.h.chunks[b].state == Binned(i) && 1 <= i < NBINS && i < |s.h.lists| && k < |s.h.lists[i]| && s.h.lists[i][k] == b
    ensures Inv(Unhooked(s, i, k)) && Quiet(s, Unhooked(s, i, k)) && SameTags(s.m, Unhooked(s, i, k).m, s.h.chunks)
    ensures Unhooked(s, i, k).m == Unlinked(s.m, b) && Unhooked(s, i, k).h.chunks == Set(s.h.chunks, b, Loose)
    ensures Unhooked(s, i, k).h.lists == s.h.lists[i := RemoveAt(s.h.lists[i], k)]
    ensures Unhooked(s, i, k).h.top == s.h.top
  {
    k := Place(s.h.chunks, s.h.lists, b);
    i := s.h.chunks[b].state.bin;
    assert ListOk(s.h.chunks, i, s.h.lists[i]);
    assert Suits(i, s.h.chunks[b].size);
    hide *;
    InvParts(s);
    UnlinkStep(s, i, k);
    UnhookedIs(s, i, k);
    UnlinkHeapParts(s.h, i, k);
  }

  lemma MergeFacts(chunks: Chunks, starts: set<Addr>, b: Addr, p: Addr)
    requires Tiles(chunks, starts) && Precedes(chunks, b, p) && p in chunks
    requires chunks[b].state == Loose && chunks[p].state == Loose
    ensures End(chunks, b) == p && p != b
    ensures var cs := Merge(chunks, b, Loose);
            b in cs && cs[b] == Chunk(chunks[b].size + chunks[p].size, Loose) && p !in cs
            && (Lonely(chunks, b) ==> Lonely(cs, b))
            && (forall q | q in chunks && q != b && q != p :: q in cs && cs[q] == chunks[q])
  {
    assert Shaped(b, chunks[b]) && Shaped(p, chunks[p]);
  }

  /** The chunk before a loose chunk, if free, is taken out of its bin and joined with it. */
  lemma BackStep(s: Store, p: Addr) returns (b: Addr, i: nat, k: nat)
    requires Inv(s) && !s.open && p in s.h.chunks && s.h.chunks[p].state == Loose
    requires !PrevInuse(Head(s.m, p)) && NoLooseBefore(s.h.chunks, p)
    ensures PrevSize(s.m, p) == p - b && b in s.h.chunks && IsFree(s.h.chunks[b].state) && p == b + s.h.chunks[b].size
    ensures s.h.chunks[b].state == Binned(i) && i < |s.h.lists| && k < |s.h.lists[i]| && s.h.lists[i][k] == b && i < NBINS
    ensures var t := Joined(Unhooked(s, i, k), b);
            Inv(t) && Quiet(s, t) && t.m == Unlinked(s.m, b) && SameTags(s.m, t.m, s.h.chunks)
            && b in t.h.chunks && t.h.chunks[b] == Chunk(s.h.chunks[b].size + s.h.chunks[p].size, Loose)
            && Lonely(t.h.chunks, b) && t.h.top == s.h.top
            && (forall q | q in s.h.chunks && q != b && q != p :: q in t.h.chunks && t.h.chunks[q] == s.h.chunks[q])
  {
    hide *;
    b := PrevIs(s, p);
    i, k := UnhookStep(s, b);
    InvParts(s);
    var u := Unhooked(s, i, k);
    InvParts(u);
    SetParts(s.h.chunks, b, Loose, p);
    UnhookLonely(s, b);
    MergeFacts(u.h.chunks, u.h.starts, b, p);
    MergeStep(u, b);
    JoinedIs(u, b);
    MergeChunkIs(u.h, b);
    QuietThen(s, u, Joined(u, b));
    KeptThrough(s.h.chunks, b, p, Joined(u, b).h.chunks);
  }

  lemma KeptThrough(chunks: Chunks, b: Addr, p: Addr, cs: Chunks)
    requires b in chunks
    requires forall q | q in Set(chunks, b, Loose) && q != b && q != p :: q in cs && cs[q] == Set(chunks, b, Loose)[q]
    ensures forall q | q in chunks && q != b && q != p :: q in cs && cs[q] == chunks[q]
  {
  }

  lemma MergeChunkIs(h: Heap, p: Addr)
    requires p in h.chunks && End(h.chunks, p) in h.chunks
    ensures MergeChunk(h, p).chunks == Merge(h.chunks, p, Loose) && MergeChunk(h, p).top == h.top
    ensures MergeChunk(h, p).lists == h.lists && MergeChunk(h, p).starts == h.starts
  {
  }

  lemma SetParts(chunks: Chunks, b: Addr, st: State, p: Addr)
    requires b in chunks && p in chunks && chunks[p].state == Loose && p == b + chunks[b].size && HasNext(st) && p != b
    ensures var cs := Set(chunks, b, st);
            Precedes(cs, b, p) && p in cs && cs[p] == chunks[p] && b in cs && cs[b] == Chunk(chunks[b].size, st)
  {
  }

  lemma UnhookLonely(s: Store, b: Addr)
    requires Inv(s) && b in s.h.chunks && IsFree(s.h.chunks[b].state)
    ensures Lonely(Set(s.h.chunks, b, Loose), b)
  {
    FreeIsLonely(s.h.chunks, b);
  }

  ghost predicate NoLooseBefore(chunks: Chunks, p: Addr) {
    forall b | Precedes(chunks, b, p) :: chunks[b].state != Loose
  }

  lemma PrevIs(s: Store, p: Addr) returns (b: Addr)
    requires Inv(s) && p in s.h.chunks && !PrevInuse(Head(s.m, p)) && NoLooseBefore(s.h.chunks, p)
    ensures PrevSize(s.m, p) == p - b && b in s.h.chunks && IsFree(s.h.chunks[b].state)
    ensures p == b + s.h.chunks[b].size && b != p
  {
    hide *;
    InvParts(s);
    NoLooseAhead(s.h.chunks, p);
    PrevTells(s.m, s.h.chunks, s.h.starts, p);
    PrecededBy(s.h.chunks, p - PrevSize(s.m, p), p);
    b := p - PrevSize(s.m, p);
  }

  lemma NoLooseAhead(chunks: Chunks, p: Addr)
    requires NoLooseBefore(chunks, p)
    ensures forall b | Precedes(chunks, b, p) :: chunks[b].state != Loose
  {
  }

  lemma PrecededBy(chunks: Chunks, b: Addr, p: Addr)
    requires Shapes(chunks) && Precedes(chunks, b, p)
    ensures b in chunks && p == b + chunks[b].size && b != p
  {
    assert Shaped(b, chunks[b]);
  }

  // ----- forward -----

  /** The size word of the next chunk with its bit cleared. */
  ghost function Marked(s: Store, q: Addr): Store {
    Wrote(s, q + 4, SizeOf(Head(s.m, q)))
  }

  lemma MarkedIs(s: Store, q: Addr)
    ensures Marked(s, q) == Wrote(s, q + 4, SizeOf(Head(s.m, q)))
    ensures Marked(s, q).m == s.m[q + 4 := SizeOf(Head(s.m, q))] && Marked(s, q).h == s.h && Marked(s, q).open == s.open
    ensures Head(Marked(s, q).m, q) == SizeOf(Head(s.m, q))
  {
  }

  lemma EvenSize(head: int)
    ensures !PrevInuse(SizeOf(head))
  {
    assert SizeOf(head) % 4 == 0;
    var k := SizeOf(head) / 4;
    assert SizeOf(head) == 2 * (2 * k);
  }

  /** The next chunk is told that the chunk before it is free. */
  lemma MarkStep(s: Store, p: Addr)
    requires Inv(s) && p in s.h.chunks && s.h.chunks[p].state == Loose
    requires p + s.h.chunks[p].size in s.h.chunks && s.h.chunks[p + s.h.chunks[p].size].state != Loose
    ensures var q := p + s.h.chunks[p].size;
            Inv(Marked(s, q)) && Quiet(s, Marked(s, q)) && !PrevInuse(Head(Marked(s, q).m, q))
            && Marked(s, q).h == s.h && Marked(s, q).open == s.open
  {
    hide *;
    InvParts(s);
    var q := p + s.h.chunks[p].size;
    EndIs(s.h.chunks, p);
    ShapeOf(s.h.chunks, q);
    LooseBit(s.h.chunks, s.h.starts, p, SizeOf(Head(s.m, q)));
    BitKeepsSize(s.m, s.h.chunks, s.h.starts, q);
    HeadStep(s, q, SizeOf(Head(s.m, q)));
    EvenSize(Head(s.m, q));
    MarkedIs(s, q);
  }

  /** inuse_bit_at_offset(nextchunk, nextsize): whether the next chunk is free. */
  lemma InuseTells(s: Store, q: Addr)
    requires Inv(s) && q in s.h.chunks && s.h.chunks[q].state != Loose && s.h.chunks[q].state != Top
    ensures PrevInuse(s.m[q + SizeOf(Head(s.m, q)) + 4]) <==> !IsFree(s.h.chunks[q].state)
    ensures s.h.chunks[q].state != Fence ==> SizeOf(Head(s.m, q)) == s.h.chunks[q].size
  {
    hide *;
    InvParts(s);
    ShapeOf(s.h.chunks, q);
    ShapedParts(q, s.h.chunks[q]);
    TagOf(s.m, s.h.chunks, s.h.starts, q);
    InuseOf(s.m, q, s.h.chunks[q]);
  }

  lemma InuseOf(m: Words, q: Addr, c: Chunk)
    requires Tagged(m, q, c) && c.state != Loose && c.state != Top && c.size % 4 == 0
    ensures PrevInuse(m[q + SizeOf(Head(m, q)) + 4]) <==> !IsFree(c.state)
    ensures c.state != Fence ==> SizeOf(Head(m, q)) == c.size
  {
    if c.state == Fence {
      if HeadIs(Head(m, q), 4) { HeadBits(Head(m, q), 4); } else { HeadBits(Head(m, q), 8); }
    } else {
      HeadBits(Head(m, q), c.size);
    }
    hide PrevInuse, SizeOf;
  }

  /** Past a free chunk lies one that is not free, and is told so. */
  lemma FreeEnd(s: Store, q: Addr)
    requires Inv(s) && q in s.h.chunks && IsFree(s.h.chunks[q].state)
    ensures Solid(s.h.chunks, q + s.h.chunks[q].size) && !PrevInuse(Head(s.m, q + s.h.chunks[q].size))
    ensures q + s.h.chunks[q].size in s.h.chunks
  {
    hide *;
    InvParts(s);
    Parts(s.h);
    TagOf(s.m, s.h.chunks, s.h.starts, q);
    FreeTag(s.m, q, s.h.chunks[q]);
    ApartAt(s.h.chunks, q);
  }

  lemma FreeTag(m: Words, q: Addr, c: Chunk)
    requires Tagged(m, q, c) && IsFree(c.state)
    ensures !PrevInuse(Head(m, q + c.size))
  {
  }

  lemma ApartAt(chunks: Chunks, q: Addr)
    requires Apart(chunks) && q in chunks && IsFree(chunks[q].state)
    ensures Solid(chunks, q + chunks[q].size) && q + chunks[q].size in chunks
  {
    assert Solid(chunks, End(chunks, q));
  }

  lemma NextParts(chunks: Chunks, p: Addr, q: Addr)
    requires q in chunks && p in chunks && chunks[p].state == Loose && q == p + chunks[p].size && p != q
    ensures var cs := Set(chunks, q, Loose);
            Precedes(cs, p, q) && p in cs && cs[p] == chunks[p] && q in cs && cs[q] == Chunk(chunks[q].size, Loose)
  {
  }

  lemma LonelyAfter(chunks: Chunks, q: Addr, p: Addr)
    requires Lonely(chunks, p) && q in chunks
    ensures Lonely(Set(chunks, q, Loose), p)
  {
  }

  lemma SolidAfter(chunks: Chunks, q: Addr, p: Addr, cs: Chunks, e: Addr)
    requires q in chunks && p in chunks && Solid(chunks, e) && e != q && e != p
    requires forall x | x in Set(chunks, q, Loose) && x != p && x != q :: x in cs && cs[x] == Set(chunks, q, Loose)[x]
    ensures Solid(cs, e) && cs[e] == chunks[e]
  {
  }

  /** p is loose, nothing free ends at it, and the chunk after it is free. */
  ghost predicate FreeAhead(s: Store, p: Addr) {
    && p in s.h.chunks && s.h.chunks[p].state == Loose && Lonely(s.h.chunks, p)
    && var q := p + s.h.chunks[p].size;
       q in s.h.chunks && IsFree(s.h.chunks[q].state) && NoLooseAt(s.h.chunks, q + s.h.chunks[q].size)
  }

  lemma FreeAheadParts(s: Store, p: Addr) returns (q: Addr)
    requires FreeAhead(s, p)
    ensures p in s.h.chunks && s.h.chunks[p].state == Loose && Lonely(s.h.chunks, p) && q == p + s.h.chunks[p].size
    ensures q in s.h.chunks && IsFree(s.h.chunks[q].state) && NoLooseAt(s.h.chunks, q + s.h.chunks[q].size)
  {
    q := p + s.h.chunks[p].size;
  }

  ghost predicate At(s: Store, q: Addr, i: nat, k: nat) {
    i < |s.h.lists| && k < |s.h.lists[i]| && s.h.lists[i][k] == q && q in s.h.chunks && s.h.chunks[q].state == Binned(i)
  }

  lemma AtIs(s: Store, q: Addr, i: nat, k: nat)
    requires i < |s.h.lists| && k < |s.h.lists[i]| && s.h.lists[i][k] == q && q in s.h.chunks
    requires s.h.chunks[q].state == Binned(i)
    ensures At(s, q, i, k)
  {
  }

  /** Two chunks have become one. */
  ghost predicate Swallowed(s: Store, t: Store, p: Addr, q: Addr) {
    && t.m == Unlinked(s.m, q) && t.h.top == s.h.top && t.open == s.open
    && p in s.h.chunks && q in s.h.chunks && p in t.h.chunks && q == p + s.h.chunks[p].size
    && t.h.chunks[p].size == s.h.chunks[p].size + s.h.chunks[q].size
  }

  lemma SwallowedIs(s: Store, t: Store, p: Addr, q: Addr)
    requires t.m == Unlinked(s.m, q) && t.h.top == s.h.top && t.open == s.open
    requires p in s.h.chunks && q in s.h.chunks && p in t.h.chunks && q == p + s.h.chunks[p].size
    requires t.h.chunks[p].size == s.h.chunks[p].size + s.h.chunks[q].size
    ensures Swallowed(s, t, p, q)
  {
  }

  /** A free next chunk is taken out of its bin and joined. */
  lemma AheadStep(s: Store, p: Addr) returns (q: Addr, i: nat, k: nat)
    requires Inv(s) && !s.open && FreeAhead(s, p)
    ensures At(s, q, i, k) && i < NBINS && Swallowed(s, Joined(Unhooked(s, i, k), p), p, q)
    ensures Inv(Joined(Unhooked(s, i, k), p)) && Quiet(s, Joined(Unhooked(s, i, k), p)) && Spare(Joined(Unhooked(s, i, k), p), p)
  {
    hide *;
    q := FreeAheadParts(s, p);
    i, k := UnhookStep(s, q);
    AtIs(s, q, i, k);
    FreeEnd(s, q);
    AheadJoin(s, p, q, Unhooked(s, i, k));
    UnhookedOpen(s, i, k, p);
    SwallowedIs(s, Joined(Unhooked(s, i, k), p), p, q);
  }

  lemma AheadJoin(s: Store, p: Addr, q: Addr, u: Store)
    requires Inv(s) && FreeAhead(s, p) && p in s.h.chunks && q == p + s.h.chunks[p].size && q in s.h.chunks
    requires Inv(u) && Quiet(s, u) && SameTags(s.m, u.m, s.h.chunks) && u.h.chunks == Set(s.h.chunks, q, Loose)
    requires Solid(s.h.chunks, q + s.h.chunks[q].size) && !PrevInuse(Head(s.m, q + s.h.chunks[q].size))
    requires q + s.h.chunks[q].size in s.h.chunks
    ensures var t := Joined(u, p);
            Inv(t) && Quiet(s, t) && Spare(t, p) && t.m == u.m && t.h.top == u.h.top
            && p in t.h.chunks && t.h.chunks[p].size == s.h.chunks[p].size + s.h.chunks[q].size
  {
    hide *;
    var q' := FreeAheadParts(s, p);
    InvParts(s);
    InvParts(u);
    ShapeOf(s.h.chunks, p);
    ShapeOf(s.h.chunks, q);
    NextParts(s.h.chunks, p, q);
    LonelyAfter(s.h.chunks, q, p);
    MergeFacts(u.h.chunks, u.h.starts, p, q);
    MergeStep(u, p);
    JoinedIs(u, p);
    MergeChunkIs(u.h, p);
    QuietThen(s, u, Joined(u, p));
    var t := Joined(u, p);
    SolidAfter(s.h.chunks, q, p, t.h.chunks, q + s.h.chunks[q].size);
    SameHead(s.m, t.m, s.h.chunks, q + s.h.chunks[q].size);
    NotLooseEnd(s.h.chunks, q + s.h.chunks[q].size);
    SpareIntro(t, p);
  }

  ghost predicate NoLooseAt(chunks: Chunks, e: Addr) {
    e in chunks ==> chunks[e].state != Loose
  }

  lemma NotLooseEnd(chunks: Chunks, e: Addr)
    requires NoLooseAt(chunks, e) && e in chunks
    ensures chunks[e].state != Loose
  {
  }

  lemma UnhookedOpen(s: Store, i: nat, k: nat, p: Addr)
    ensures Joined(Unhooked(s, i, k), p).open == s.open
  {
  }

  lemma SameHead(m: Words, n: Words, chunks: Chunks, e: Addr)
    requires SameTags(m, n, chunks) && e in chunks
    ensures Head(n, e) == Head(m, e)
  {
  }

  lemma SpareIntro(t: Store, p: Addr)
    requires p in t.h.chunks && t.h.chunks[p].state == Loose && Lonely(t.h.chunks, p)
    requires Solid(t.h.chunks, p + t.h.chunks[p].size)
    requires p + t.h.chunks[p].size in t.h.chunks && t.h.chunks[p + t.h.chunks[p].size].state != Loose
    requires !PrevInuse(Head(t.m, p + t.h.chunks[p].size))
    ensures Spare(t, p)
  {
  }

  // ----- into the unsorted bin, or into top -----

  /** set_head and set_foot of a free chunk. */
  ghost function FreeTags(s: Store, p: Addr, size: nat): Store {
    Wrote(Wrote(s, p + 4, size + 1), p + size, size)
  }

  lemma FreeTagsIs(s: Store, p: Addr, size: nat)
    ensures FreeTags(s, p, size) == Wrote(Wrote(s, p + 4, size + 1), p + size, size)
    ensures FreeTags(s, p, size).m == s.m[p + 4 := size + 1][p + size := size] && FreeTags(s, p, size).h == s.h
    ensures FreeTags(s, p, size).open == s.open && FreeTags(s, p, size).fastbins == s.fastbins
  {
  }

  lemma FreeTagged(m: Words, p: Addr, size: nat)
    requires !PrevInuse(m[p + size + 4]) && size >= 16
    ensures Tagged(m[p + 4 := size + 1][p + size := size], p, Chunk(size, Binned(1)))
  {
    hide PrevInuse;
  }

  lemma SpareMayLink(s: Store, p: Addr)
    requires Spare(s, p) && |s.h.lists| == LISTS && Members(s.h.chunks, 1, s.h.lists[1])
    ensures MayLink(s.h, 1, 0, p)
  {
    hide Lonely, Solid, Members, PrevInuse;
  }

  lemma UnsortedMembers(s: Store)
    requires Inv(s)
    ensures |s.h.lists| == LISTS && 1 < NBINS < LISTS && Members(s.h.chunks, 1, s.h.lists[1])
  {
    assert ListOk(s.h.chunks, 1, s.h.lists[1]);
  }

  ghost function Fronted(s: Store, p: Addr): Store {
    if p in s.h.chunks && |s.h.lists| > 1
    then s.(m := LinkedIn(s.m, p, Node(1, s.h.lists[1], 0), Node(1, s.h.lists[1], 1)), h := LinkHeap(s.h, 1, 0, p)) else s
  }

  lemma FrontedIs(s: Store, p: Addr)
    requires p in s.h.chunks && |s.h.lists| > 1
    ensures Fronted(s, p)
         == s.(m := LinkedIn(s.m, p, Node(1, s.h.lists[1], 0), Node(1, s.h.lists[1], 1)), h := LinkHeap(s.h, 1, 0, p))
  {
  }

  /** The links the code reads: bck is the header, fwd the first unsorted chunk. */
  lemma FrontLinks(s: Store)
    requires Inv(s) && !s.open
    ensures |s.h.lists| > 1 && Node(1, s.h.lists[1], 0) == BinAt(1) && Node(1, s.h.lists[1], 1) == Fd(s.m, BinAt(1))
  {
    assert Linked(s.m, 1, s.h.lists[1]);
    assert LinkedAt(s.m, 1, s.h.lists[1], 0);
  }

  /** A loose chunk between chunks in use becomes the first unsorted chunk. */
  lemma FrontStep(s: Store, p: Addr, size: nat)
    requires Inv(s) && !s.open && Spare(s, p) && p in s.h.chunks && size == s.h.chunks[p].size
    ensures var t := Fronted(FreeTags(s, p, size), p); Inv(t) && Quiet(s, t) && !t.open && t.h.top == s.h.top
  {
    hide *;
    SpareParts(s, p);
    InvParts(s);
    ShapeOf(s.h.chunks, p);
    EightFours(size);
    FreeHead(s, p, size);
    var s1 := Wrote(s, p + 4, size + 1);
    WroteIs(s, p + 4, size + 1);
    EndIs(s1.h.chunks, p);
    FootStep(s1, p, size);
    FreeTagsIs(s, p, size);
    var s2 := FreeTags(s, p, size);
    QuietThen(s, s1, s2);
    SpareAgain(s, p, size);
    UnsortedMembers(s2);
    SpareMayLink(s2, p);
    HeadOf(s.m, p + size);
    FreeTagged(s.m, p, size);
    LinkStep(s2, 1, 0, p);
    FrontedIs(s2, p);
    LinkHeapParts(s2.h, 1, 0, p);
    QuietThen(s, s2, Fronted(s2, p));
  }

  lemma SpareAgain(s: Store, p: Addr, size: nat)
    requires Spare(s, p) && size == s.h.chunks[p].size && size >= 16
    ensures Spare(FreeTags(s, p, size), p)
  {
    hide Lonely, Solid, PrevInuse;
  }

  lemma FreeHead(s: Store, p: Addr, size: nat)
    requires Inv(s) && p in s.h.chunks && s.h.chunks[p].state == Loose && Lonely(s.h.chunks, p) && size % 8 == 0
    ensures Inv(Wrote(s, p + 4, size + 1)) && Quiet(s, Wrote(s, p + 4, size + 1))
  {
    CutHead(s, p, size);
  }

  ghost function Topped(s: Store, p: Addr, size: nat): Store {
    var t := Wrote(s, p + 4, size + 1);
    if p in t.h.chunks && End(t.h.chunks, p) in t.h.chunks then t.(h := MergeTop(t.h, p)) else t
  }

  lemma ToppedIs(s: Store, p: Addr, size: nat)
    requires p in s.h.chunks && End(s.h.chunks, p) in s.h.chunks
    ensures Topped(s, p, size) == Wrote(s, p + 4, size + 1).(h := MergeTop(s.h, p)) && MergeTop(s.h, p).top == Some(p)
    ensures Topped(s, p, size).m == Poke(s.m, p + 4, size + 1) && Topped(s, p, size).h == MergeTop(s.h, p)
    ensures MergeTop(s.h, p).lists == s.h.lists
  {
  }

  /** A loose chunk below top becomes part of top. */
  lemma TopStep(s: Store, p: Addr, size: nat)
    requires Inv(s) && p in s.h.chunks && s.h.chunks[p].state == Loose && Lonely(s.h.chunks, p)
    requires s.h.top == Some(p + s.h.chunks[p].size) && p + s.h.chunks[p].size in s.h.chunks
    requires size == s.h.chunks[p].size + s.h.chunks[p + s.h.chunks[p].size].size
    ensures Inv(Topped(s, p, size)) && Quiet(s, Topped(s, p, size)) && Topped(s, p, size).h.top == Some(p)
    ensures Topped(s, p, size).h.lists == s.h.lists && Topped(s, p, size).open == s.open
  {
    hide *;
    EndIs(s.h.chunks, p);
    var t := TopHead(s, p, size);
    MergeTopStep(t, p);
    ToppedIs(s, p, size);
    QuietThen(s, t, Topped(s, p, size));
  }

  lemma TopHead(s: Store, p: Addr, size: nat) returns (t: Store)
    requires Inv(s) && p in s.h.chunks && s.h.chunks[p].state == Loose && Lonely(s.h.chunks, p)
    requires p + s.h.chunks[p].size in s.h.chunks
    requires size == s.h.chunks[p].size + s.h.chunks[p + s.h.chunks[p].size].size
    ensures Inv(t) && Quiet(s, t) && t == Wrote(s, p + 4, size + 1) && t.h == s.h && t.open == s.open && HeadIs(Head(t.m, p), size)
  {
    hide *;
    InvParts(s);
    EvenSizes(s.h.chunks, p, p + s.h.chunks[p].size);
    FreeHead(s, p, size);
    t := Wrote(s, p + 4, size + 1);
    HeadWrote(s, p, size);
  }

  lemma EvenSizes(chunks: Chunks, p: Addr, q: Addr)
    requires Shapes(chunks) && p in chunks && q in chunks
    ensures (chunks[p].size + chunks[q].size) % 8 == 0
  {
    assert Shaped(p, chunks[p]) && Shaped(q, chunks[q]);
  }

  lemma HeadWrote(s: Store, p: Addr, size: nat)
    ensures var t := Wrote(s, p + 4, size + 1); t.h == s.h && t.open == s.open && HeadIs(Head(t.m, p), size)
  {
  }

  // ----- which chunks are loose, and which bins may hold something -----

  ghost predicate NoLoose(chunks: Chunks) {
    forall a | a in chunks :: chunks[a].state != Loose
  }

  ghost predicate LooseOnly(chunks: Chunks, p: Addr) {
    p in chunks && chunks[p].state == Loose && forall a | a in chunks && chunks[a].state == Loose :: a == p
  }

  /** No bin but the unsorted one has come to hold anything; the fastbins are the same. */
  ghost predicate Shrinks(ls: seq<seq<Addr>>, ls': seq<seq<Addr>>) {
    && |ls'| == |ls|
    && (forall i | 2 <= i < |ls| && ls'[i] != [] :: ls[i] != [])
    && (forall i | NBINS <= i < |ls| :: ls'[i] == ls[i])
  }

  lemma ShrinksThen(a: seq<seq<Addr>>, b: seq<seq<Addr>>, c: seq<seq<Addr>>)
    requires Shrinks(a, b) && Shrinks(b, c)
    ensures Shrinks(a, c)
  {
  }

  lemma ShrinksSame(a: seq<seq<Addr>>)
    ensures Shrinks(a, a)
  {
  }

  lemma LoosenOnly(chunks: Chunks, p: Addr, st: State)
    requires NoLoose(chunks) && p in chunks
    ensures LooseOnly(Set(chunks, p, Loose), p)
  {
  }

  lemma SettleNone(chunks: Chunks, p: Addr, st: State)
    requires LooseOnly(chunks, p) && st != Loose
    ensures NoLoose(Set(chunks, p, st))
  {
  }

  lemma OnlyBefore(chunks: Chunks, starts: set<Addr>, p: Addr)
    requires Tiles(chunks, starts) && LooseOnly(chunks, p)
    ensures NoLooseBefore(chunks, p)
    ensures End(chunks, p) in chunks && chunks[End(chunks, p)].state != Loose
  {
    assert Shaped(p, chunks[p]);
  }

  lemma JoinLoose(chunks: Chunks, p: Addr, q: Addr, b: Addr)
    requires p in chunks && q in chunks && p + chunks[p].size == q && p != q && (b == p || b == q)
    requires LooseOnly(chunks, if b == p then q else p)
    ensures End(Set(chunks, b, Loose), p) in Set(chunks, b, Loose)
    ensures LooseOnly(Merge(Set(chunks, b, Loose), p, Loose), p)
  {
  }

  lemma TopNone(chunks: Chunks, p: Addr)
    requires LooseOnly(chunks, p) && End(chunks, p) in chunks
    ensures NoLoose(Merge(chunks, p, Top))
  {
  }

  lemma UnhookShrinks(s: Store, i: nat, k: nat, p: Addr)
    requires i < NBINS
    ensures Shrinks(s.h.lists, Joined(Unhooked(s, i, k), p).h.lists)
  {
  }

  lemma FrontShrinks(s: Store, p: Addr, size: nat)
    ensures Shrinks(s.h.lists, Fronted(FreeTags(s, p, size), p).h.lists)
  {
  }
}
