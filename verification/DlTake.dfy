/** Taking chunks out of the bins: whole, cut, or moved to another bin. */
module DlTake {
  import opened DlSizes
  import opened DlHeap
  import opened DlTags
  import opened DlLinks
  import opened DlSteps
  import opened DlMoves
  import opened DlCoalesce
  import opened DlCollect
  import opened DlRelease

  /** A free chunk that was just taken out of its bin. */
  ghost predicate Fresh(s: Store, u: Store, b: Addr) {
    && b in s.h.chunks && b in u.h.chunks && Inv(u) && Quiet(s, u) && LooseOnly(u.h.chunks, b)
    && Spare(u, b) && Whole(u, b) && u.h.chunks[b].size == s.h.chunks[b].size
    && u.h.chunks == Set(s.h.chunks, b, Loose) && u.h.top == s.h.top && u.fastbins == s.fastbins
    && SameTags(s.m, u.m, s.h.chunks)
  }

  lemma FreshParts(s: Store, u: Store, b: Addr)
    requires Fresh(s, u, b)
    ensures b in s.h.chunks && b in u.h.chunks && Inv(u) && Quiet(s, u) && LooseOnly(u.h.chunks, b)
    ensures Spare(u, b) && Whole(u, b) && u.h.chunks[b].size == s.h.chunks[b].size && u.h.chunks[b].state == Loose
    ensures u.h.chunks == Set(s.h.chunks, b, Loose) && u.h.top == s.h.top && u.fastbins == s.fastbins
    ensures SameTags(s.m, u.m, s.h.chunks)
  {
  }

  lemma FreshIntro(s: Store, u: Store, b: Addr)
    requires b in s.h.chunks && b in u.h.chunks && Inv(u) && Quiet(s, u) && LooseOnly(u.h.chunks, b)
    requires Spare(u, b) && Whole(u, b) && u.h.chunks == Set(s.h.chunks, b, Loose)
    requires u.h.top == s.h.top && u.fastbins == s.fastbins && SameTags(s.m, u.m, s.h.chunks)
    ensures Fresh(s, u, b)
  {
  }

  /** What the tags and neighbours of a free chunk say. */
  ghost predicate FreeSays(s: Store, b: Addr, e: Addr, cs: Chunks) {
    && b in s.h.chunks && e == b + s.h.chunks[b].size && e in s.h.chunks && cs == Set(s.h.chunks, b, Loose)
    && !PrevInuse(Head(s.m, e)) && HeadIs(Head(s.m, b), s.h.chunks[b].size) && PrevSize(s.m, e) == s.h.chunks[b].size
    && Lonely(cs, b) && Solid(cs, e) && e in cs && cs[e].state != Loose && LooseOnly(cs, b) && b in cs
  }

  lemma FreeSaysParts(s: Store, b: Addr, e: Addr, cs: Chunks)
    requires FreeSays(s, b, e, cs)
    ensures b in s.h.chunks && e == b + s.h.chunks[b].size && e in s.h.chunks && cs == Set(s.h.chunks, b, Loose)
    ensures !PrevInuse(Head(s.m, e)) && HeadIs(Head(s.m, b), s.h.chunks[b].size) && PrevSize(s.m, e) == s.h.chunks[b].size
    ensures Lonely(cs, b) && Solid(cs, e) && e in cs && cs[e].state != Loose && LooseOnly(cs, b) && b in cs
  {
  }

  lemma FreeSaysIntro(s: Store, b: Addr, e: Addr, cs: Chunks)
    requires b in s.h.chunks && e == b + s.h.chunks[b].size && e in s.h.chunks && cs == Set(s.h.chunks, b, Loose)
    requires !PrevInuse(Head(s.m, e)) && HeadIs(Head(s.m, b), s.h.chunks[b].size) && PrevSize(s.m, e) == s.h.chunks[b].size
    requires Lonely(cs, b) && Solid(cs, e) && e in cs && cs[e].state != Loose && LooseOnly(cs, b) && b in cs
    ensures FreeSays(s, b, e, cs)
  {
  }

  lemma FreeFacts(s: Store, b: Addr) returns (e: Addr, cs: Chunks)
    requires Inv(s) && NoLoose(s.h.chunks) && b in s.h.chunks && IsFree(s.h.chunks[b].state)
    ensures FreeSays(s, b, e, cs)
  {
    hide *;
    FreeEnd(s, b);
    InvParts(s);
    Parts(s.h);
    ShapeOf(s.h.chunks, b);
    FreeIsLonely(s.h.chunks, b);
    LonelyAfter(s.h.chunks, b, b);
    TagOf(s.m, s.h.chunks, s.h.starts, b);
    FreeTagParts(s.m, b, s.h.chunks[b]);
    LoosenOnly(s.h.chunks, b, Loose);
    NoLooseHere(s.h.chunks, b + s.h.chunks[b].size);
    SetOther(s.h.chunks, b, b + s.h.chunks[b].size);
    e, cs := b + s.h.chunks[b].size, Set(s.h.chunks, b, Loose);
    FreeSaysIntro(s, b, e, cs);
  }

  lemma FreeTagParts(m: Words, b: Addr, c: Chunk)
    requires Tagged(m, b, c) && IsFree(c.state)
    ensures HeadIs(Head(m, b), c.size) && PrevSize(m, b + c.size) == c.size && !PrevInuse(Head(m, b + c.size))
  {
  }

  lemma NoLooseHere(chunks: Chunks, e: Addr)
    requires NoLoose(chunks) && e in chunks
    ensures chunks[e].state != Loose
  {
  }

  lemma SetOther(chunks: Chunks, b: Addr, e: Addr)
    requires b in chunks && e in chunks && e != b && Solid(chunks, e)
    ensures Solid(Set(chunks, b, Loose), e) && e in Set(chunks, b, Loose) && Set(chunks, b, Loose)[e] == chunks[e]
    ensures b in Set(chunks, b, Loose)
  {
  }

  lemma SpareWhole(s: Store, u: Store, b: Addr)
    requires Inv(s) && NoLoose(s.h.chunks) && b in s.h.chunks && IsFree(s.h.chunks[b].state)
    requires u.h.chunks == Set(s.h.chunks, b, Loose) && SameTags(s.m, u.m, s.h.chunks)
    ensures Spare(u, b) && Whole(u, b) && LooseOnly(u.h.chunks, b) && b in u.h.chunks
  {
    hide *;
    var e, cs := FreeFacts(s, b);
    FreeSaysParts(s, b, e, cs);
    SameHead(s.m, u.m, s.h.chunks, e);
    SameHead(s.m, u.m, s.h.chunks, b);
    SetIs(s.h.chunks, b, Loose);
    SpareIntro(u, b);
    WholeIntro(u, b);
  }

  lemma SetIs(chunks: Chunks, b: Addr, st: State)
    requires b in chunks
    ensures b in Set(chunks, b, st) && Set(chunks, b, st)[b] == Chunk(chunks[b].size, st)
  {
  }

  lemma WholeIntro(u: Store, b: Addr)
    requires b in u.h.chunks && u.h.chunks[b].state == Loose && HeadIs(Head(u.m, b), u.h.chunks[b].size)
    requires Solid(u.h.chunks, b + u.h.chunks[b].size)
    requires b + u.h.chunks[b].size in u.h.chunks && u.h.chunks[b + u.h.chunks[b].size].state != Loose
    ensures Whole(u, b)
  {
  }

  /** unlink of a free chunk. */
  lemma Unhook(s: Store, b: Addr) returns (i: nat, k: nat)
    requires Inv(s) && !s.open && NoLoose(s.h.chunks) && b in s.h.chunks && IsFree(s.h.chunks[b].state)
    ensures At(s, b, i, k) && 1 <= i < NBINS && Fresh(s, Unhooked(s, i, k), b)
    ensures Unhooked(s, i, k).m == Unlinked(s.m, b) && !Unhooked(s, i, k).open
    ensures i < |s.h.lists| && k < |s.h.lists[i]|
    ensures Unhooked(s, i, k).h.lists == s.h.lists[i := RemoveAt(s.h.lists[i], k)]
  {
    hide *;
    i, k := UnhookStep(s, b);
    AtIs(s, b, i, k);
    UnhookedSame(s, i, k);
    SpareWhole(s, Unhooked(s, i, k), b);
    FreshIntro(s, Unhooked(s, i, k), b);
  }

  // ----- handing out a whole free chunk -----

  /** A chunk has been handed out of a heap without loose chunks, into another such heap. */
  ghost predicate Served(s: Store, t: Store, p: Addr, nb: nat) {
    && Inv(t) && !t.open && NoLoose(t.h.chunks) && Given(s, t, p) && p in t.h.chunks
    && nb <= t.h.chunks[p].size < nb + MINSIZE
  }

  ghost predicate OfSize(chunks: Chunks, q: Addr, nb: nat) {
    q in chunks && chunks[q].size == nb
  }

  /** The heap after the chunk p has been handed out: all of it, or only its front, and then
      the rest of it is the first of the unsorted chunks.  Nothing else has changed. */
  ghost predicate HandedOut(h: Heap, g: Heap, p: Addr, nb: nat) {
    && p in h.chunks && nb <= h.chunks[p].size && g.top == h.top && |g.lists| == |h.lists|
    && var size := h.chunks[p].size;
    && g.chunks == (if size < nb + MINSIZE then h.chunks[p := Chunk(size, Used)]
                    else h.chunks[p := Chunk(nb, Used)][p + nb := Chunk(size - nb, Binned(1))])
    && forall i | 0 <= i < |h.lists| ::
         g.lists[i] == (if i == 1 && size >= nb + MINSIZE then [p + nb] else []) + Less(h.lists[i], {p})
  }

  lemma HandedWhole(h: Heap, g: Heap, i: nat, k: nat, p: Addr, nb: nat)
    requires Listed(h.chunks, h.lists) && i < |h.lists| && k < |h.lists[i]| && h.lists[i][k] == p
    requires p in h.chunks && nb <= h.chunks[p].size < nb + MINSIZE
    requires g.chunks == Set(Set(h.chunks, p, Loose), p, Used) && g.lists == h.lists[i := RemoveAt(h.lists[i], k)] && g.top == h.top
    ensures HandedOut(h, g, p, nb)
  {
    ListsUnlinked(h, i, k);
    hide Listed, RemoveAt, Less;
    assert Set(Set(h.chunks, p, Loose), p, Used) == h.chunks[p := Chunk(h.chunks[p].size, Used)];
  }

  lemma HandedFront(h: Heap, g: Heap, i: nat, k: nat, p: Addr, nb: nat)
    requires Listed(h.chunks, h.lists) && i < |h.lists| && k < |h.lists[i]| && h.lists[i][k] == p && 1 < |h.lists|
    requires p in h.chunks && nb + MINSIZE <= h.chunks[p].size && h.lists[i := RemoveAt(h.lists[i], k)][1] == []
    requires g.chunks == Split(Set(h.chunks, p, Loose), p, nb, Used, Binned(1)) && g.top == h.top
    requires g.lists == h.lists[i := RemoveAt(h.lists[i], k)][1 := [p + nb]]
    ensures HandedOut(h, g, p, nb)
  {
    ListsUnlinked(h, i, k);
    hide Listed, RemoveAt, Less;
    assert Split(Set(h.chunks, p, Loose), p, nb, Used, Binned(1))
        == h.chunks[p := Chunk(nb, Used)][p + nb := Chunk(h.chunks[p].size - nb, Binned(1))];
  }

  /** The heap after the front of top has been handed out. */
  ghost predicate OffTop(h: Heap, g: Heap, p: Addr, nb: nat) {
    && h.top == Some(p) && p in h.chunks && nb <= h.chunks[p].size && g.lists == h.lists && g.top == Some(p + nb)
    && g.chunks == h.chunks[p := Chunk(nb, Used)][p + nb := Chunk(h.chunks[p].size - nb, Top)]
  }

  lemma OfSizeIntro(chunks: Chunks, q: Addr, nb: nat)
    requires q in chunks && chunks[q].size == nb
    ensures OfSize(chunks, q, nb)
  {
  }

  lemma ServedIntro(s: Store, t: Store, p: Addr, nb: nat)
    requires Inv(t) && !t.open && NoLoose(t.h.chunks) && Given(s, t, p) && p in t.h.chunks
    requires nb <= t.h.chunks[p].size < nb + MINSIZE
    ensures Served(s, t, p, nb)
  {
  }

  lemma ExhaustedParts(u: Store, p: Addr)
    requires p in u.h.chunks && LooseOnly(u.h.chunks, p)
    ensures Exhausted(u, p).open == u.open && Exhausted(u, p).fastbins == u.fastbins && Exhausted(u, p).h.top == u.h.top
    ensures Exhausted(u, p).h.lists == u.h.lists && NoLoose(Exhausted(u, p).h.chunks)
    ensures Exhausted(u, p).h.chunks == Set(u.h.chunks, p, Used)
    ensures Exhausted(u, p).m == Poke(u.m, p + u.h.chunks[p].size + 4, WithBit(Head(u.m, p + u.h.chunks[p].size)))
    ensures p in Exhausted(u, p).h.chunks && Exhausted(u, p).h.chunks[p] == Chunk(u.h.chunks[p].size, Used)
  {
    SettleNone(u.h.chunks, p, Used);
  }

  /** The whole of a chunk just taken out is handed out. */
  lemma GiveWhole(s: Store, u: Store, p: Addr, nb: nat) returns (t: Store)
    requires Fresh(s, u, p) && !u.open && p in s.h.chunks && nb <= s.h.chunks[p].size < nb + MINSIZE
    ensures Served(s, t, p, nb) && t.fastbins == s.fastbins && t.h.top == s.h.top && t.h.lists == u.h.lists
    ensures t.h.chunks == Set(Set(s.h.chunks, p, Loose), p, Used)
    ensures t.m == Poke(u.m, p + s.h.chunks[p].size + 4, WithBit(Head(u.m, p + s.h.chunks[p].size)))
  {
    hide *;
    FreshParts(s, u, p);
    ExhaustStep(u, p);
    t := Exhausted(u, p);
    ExhaustedParts(u, p);
    QuietGiven(s, u, t, p);
    ServedIntro(s, t, p, nb);
  }

  // ----- cutting a free chunk -----

  lemma CutParts(u: Store, p: Addr, nb: nat)
    requires Inv(u) && Spare(u, p) && CanSplit(u.h.chunks, p, nb) && u.h.lists[1] == [] && LooseOnly(u.h.chunks, p)
    ensures var t := Alone(CutStore(u, p, nb), p + nb);
            NoLoose(t.h.chunks) && t.fastbins == u.fastbins && t.h.top == u.h.top
            && |u.h.lists| == LISTS && t.h.lists == u.h.lists[1 := [p + nb]] && !t.open
            && t.h.chunks == Split(u.h.chunks, p, nb, Used, Binned(1))
            && t.m == LinkedAlone(CutTags(u.m, p, nb, u.h.chunks[p].size), 1, p + nb)
  {
    hide *;
    SpareParts(u, p);
    InvParts(u);
    ListCount();
    CutFront(u, p, nb);
    CutStoreIs(u, p, nb);
    var t := CutStore(u, p, nb);
    CutDoneParts(u, t, p, nb);
    AloneIs(t, p + nb);
    LinkHeapParts(t.h, 1, 0, p + nb);
    InsertFirst(p + nb);
    CutTop(u, p, nb);
    CutLoose(u.h, p, nb);
    CutChunks(u.h, p, nb);
    SettleNone(t.h.chunks, p + nb, Binned(1));
  }

  lemma CutChunks(h: Heap, p: Addr, nb: nat)
    requires CanSplit(h.chunks, p, nb) && h.chunks[p].state == Loose
    ensures p + nb in CutHeap(h, p, nb).chunks
    ensures Set(CutHeap(h, p, nb).chunks, p + nb, Binned(1)) == Split(h.chunks, p, nb, Used, Binned(1))
  {
  }

  lemma InsertFirst(p: Addr)
    ensures InsertAt([], 0, p) == [p]
  {
  }

  lemma CutTop(u: Store, p: Addr, nb: nat)
    requires CanSplit(u.h.chunks, p, nb) && u.h.chunks[p].state == Loose
    ensures CutStore(u, p, nb).h.top == u.h.top && CutStore(u, p, nb).fastbins == u.fastbins
    ensures CutStore(u, p, nb).h == CutHeap(u.h, p, nb)
  {
  }

  lemma CutLoose(h: Heap, p: Addr, nb: nat)
    requires CanSplit(h.chunks, p, nb) && LooseOnly(h.chunks, p) && p + nb in CutHeap(h, p, nb).chunks
    ensures LooseOnly(CutHeap(h, p, nb).chunks, p + nb)
  {
    assert h.chunks[p].size >= 32;
  }

  /** The front of a chunk just taken out is handed out; the rest is the unsorted list. */
  lemma GiveFront(s: Store, u: Store, p: Addr, nb: nat) returns (t: Store)
    requires Fresh(s, u, p) && |u.h.lists| == LISTS && u.h.lists[1] == [] && p in s.h.chunks
    requires nb % 8 == 0 && nb >= MINSIZE && nb + MINSIZE <= s.h.chunks[p].size
    ensures Served(s, t, p, nb) && t.fastbins == s.fastbins && t.h.top == s.h.top && t.h.lists == u.h.lists[1 := [p + nb]]
    ensures p in Set(s.h.chunks, p, Loose) && nb <= Set(s.h.chunks, p, Loose)[p].size
    ensures t.h.chunks == Split(Set(s.h.chunks, p, Loose), p, nb, Used, Binned(1))
    ensures t.m == LinkedAlone(CutTags(u.m, p, nb, s.h.chunks[p].size), 1, p + nb)
  {
    hide *;
    FreshParts(s, u, p);
    CanSplitIntro(u.h.chunks, p, nb);
    CutStep(u, p, nb);
    SetIs(s.h.chunks, p, Loose);
    CutParts(u, p, nb);
    t := Alone(CutStore(u, p, nb), p + nb);
    QuietGiven(s, u, t, p);
    SomeMin();
    OfSizeIntro(t.h.chunks, p, nb);
    ServedIntro(s, t, p, nb);
  }

  lemma CanSplitIntro(chunks: Chunks, p: Addr, nb: nat)
    requires p in chunks && nb % 8 == 0 && nb >= MINSIZE && nb + MINSIZE <= chunks[p].size
    ensures CanSplit(chunks, p, nb)
  {
  }

  /** The only unsorted chunk is taken out while its header still points to it. */
  lemma OpenSole(s: Store, p: Addr) returns (u: Store)
    requires Inv(s) && !s.open && NoLoose(s.h.chunks) && |s.h.lists| == LISTS && s.h.lists[1] == [p]
    ensures Fresh(s, u, p) && u.m == s.m && |u.h.lists| == LISTS && u.h.lists == s.h.lists[1 := []]
  {
    hide *;
    InvParts(s);
    Sole(s, p);
    OpenStep(s, p);
    UnlinkHeapParts(s.h, 1, 0);
    RemoveOnly(p);
    u := s.(h := UnlinkHeap(s.h, 1, 0), open := true);
    UnsortedFree();
    TagsItself(s.m, s.h.chunks);
    SpareWhole(s, u, p);
    FreshIntro(s, u, p);
  }

  lemma UnsortedFree()
    ensures IsFree(Binned(1)) && 1 < LISTS
  {
  }

  lemma TagsItself(m: Words, chunks: Chunks)
    ensures SameTags(m, m, chunks)
  {
  }

  // ----- from the unsorted bin to a regular one -----

  /** The same free chunks with the same sizes; only their bins may differ. */
  ghost predicate SameFree(chunks: Chunks, cs: Chunks) {
    && (forall a | a in chunks && IsFree(chunks[a].state) ::
          a in cs && IsFree(cs[a].state) && cs[a].size == chunks[a].size)
    && (forall a | a in cs && IsFree(cs[a].state) ::
          a in chunks && IsFree(chunks[a].state) && cs[a].size == chunks[a].size)
  }

  lemma SameFreeThen(a: Chunks, b: Chunks, c: Chunks)
    requires SameFree(a, b) && SameFree(b, c)
    ensures SameFree(a, c)
  {
  }

  /** A free chunk follows one that is in use, and its size word says so. */
  lemma FreeHeadWord(s: Store, q: Addr)
    requires Inv(s) && NoLoose(s.h.chunks) && q in s.h.chunks && IsFree(s.h.chunks[q].state)
    ensures Head(s.m, q) == s.h.chunks[q].size + 1
  {
    hide *;
    InvParts(s);
    Parts(s.h);
    FreeIsLonely(s.h.chunks, q);
    NoLooseAny(s.h.chunks, q);
    PrevTells(s.m, s.h.chunks, s.h.starts, q);
    TagOf(s.m, s.h.chunks, s.h.starts, q);
    FreeTagParts(s.m, q, s.h.chunks[q]);
    ShapeOf(s.h.chunks, q);
    EightFours(s.h.chunks[q].size);
    OddHead(Head(s.m, q), s.h.chunks[q].size);
  }

  lemma NoLooseAny(chunks: Chunks, q: Addr)
    requires NoLoose(chunks)
    ensures forall b | Precedes(chunks, b, q) :: chunks[b].state != Loose
  {
  }

  lemma OddHead(head: int, size: nat)
    requires HeadIs(head, size) && PrevInuse(head) && size % 2 == 0
    ensures head == size + 1
  {
  }

  /** A chunk fresh from the unsorted bin may go into bin j at place k. */
  ghost predicate Places(u: Store, j: nat, k: nat, p: Addr) {
    && 2 <= j < NBINS && j < |u.h.lists| && k <= |u.h.lists[j]| && CanInsert(u.h.chunks, j, u.h.lists[j], k, p)
  }

  lemma PlacesParts(u: Store, j: nat, k: nat, p: Addr)
    requires Places(u, j, k, p)
    ensures 2 <= j < NBINS && 1 <= j && j < |u.h.lists| && k <= |u.h.lists[j]| && CanInsert(u.h.chunks, j, u.h.lists[j], k, p)
  {
  }

  lemma MayLinkIntro(u: Store, j: nat, k: nat, p: Addr)
    requires Spare(u, p) && j < |u.h.lists| && CanInsert(u.h.chunks, j, u.h.lists[j], k, p)
    ensures MayLink(u.h, j, k, p)
  {
    hide CanInsert;
  }

  ghost function Linked1(u: Store, j: nat, k: nat, p: Addr): Store {
    if j < |u.h.lists| && k <= |u.h.lists[j]| && p in u.h.chunks
    then u.(m := LinkedIn(u.m, p, Node(j, u.h.lists[j], k), Node(j, u.h.lists[j], k + 1)), h := LinkHeap(u.h, j, k, p))
    else u
  }

  lemma Linked1Is(u: Store, j: nat, k: nat, p: Addr)
    requires j < |u.h.lists| && k <= |u.h.lists[j]| && p in u.h.chunks
    ensures Linked1(u, j, k, p)
         == u.(m := LinkedIn(u.m, p, Node(j, u.h.lists[j], k), Node(j, u.h.lists[j], k + 1)), h := LinkHeap(u.h, j, k, p))
  {
  }

  lemma FreshTag(s: Store, u: Store, p: Addr, j: nat)
    requires Inv(s) && NoLoose(s.h.chunks) && Fresh(s, u, p) && p in s.h.chunks && IsFree(s.h.chunks[p].state) && j < NBINS
    ensures p in u.h.chunks && Tagged(u.m, p, Chunk(u.h.chunks[p].size, Binned(j)))
  {
    hide *;
    FreshParts(s, u, p);
    var e, cs := FreeFacts(s, p);
    FreeSaysParts(s, p, e, cs);
    SameHead(s.m, u.m, s.h.chunks, e);
    SameHead(s.m, u.m, s.h.chunks, p);
    SameFoot(s.m, u.m, s.h.chunks, e);
    FreeTagIntro(u.m, p, u.h.chunks[p].size, j);
  }

  lemma SameFoot(m: Words, n: Words, chunks: Chunks, e: Addr)
    requires SameTags(m, n, chunks) && e in chunks
    ensures PrevSize(n, e) == PrevSize(m, e)
  {
  }

  lemma FreeTagIntro(m: Words, p: Addr, size: nat, j: nat)
    requires HeadIs(Head(m, p), size) && PrevSize(m, p + size) == size && !PrevInuse(Head(m, p + size)) && j < NBINS
    ensures Tagged(m, p, Chunk(size, Binned(j)))
  {
  }

  lemma Rebinned(chunks: Chunks, p: Addr, j: nat)
    requires NoLoose(chunks) && p in chunks && IsFree(chunks[p].state) && j < NBINS
    ensures var cs := Set(Set(chunks, p, Loose), p, Binned(j)); NoLoose(cs) && SameFree(chunks, cs)
  {
  }

  /** What moving a chunk to bin j keeps. */
  ghost predicate Moved(s: Store, t: Store) {
    && Inv(t) && Quiet(s, t) && !t.open && NoLoose(t.h.chunks) && SameFree(s.h.chunks, t.h.chunks)
    && t.fastbins == s.fastbins && t.h.top == s.h.top
  }

  lemma MovedIntro(s: Store, t: Store)
    requires Inv(t) && Quiet(s, t) && !t.open && NoLoose(t.h.chunks) && SameFree(s.h.chunks, t.h.chunks)
    requires t.fastbins == s.fastbins && t.h.top == s.h.top
    ensures Moved(s, t)
  {
  }

  lemma MovedParts(s: Store, t: Store)
    requires Moved(s, t)
    ensures Inv(t) && Quiet(s, t) && !t.open && NoLoose(t.h.chunks) && SameFree(s.h.chunks, t.h.chunks)
    ensures t.fastbins == s.fastbins && t.h.top == s.h.top
  {
  }

  lemma MovedThen(s: Store, t: Store, u: Store)
    requires Moved(s, t) && Moved(t, u)
    ensures Moved(s, u)
  {
    hide *;
    MovedParts(s, t);
    MovedParts(t, u);
    QuietThen(s, t, u);
    SameFreeThen(s.h.chunks, t.h.chunks, u.h.chunks);
    MovedIntro(s, u);
  }

  lemma MovedSame(s: Store)
    requires Inv(s) && !s.open && NoLoose(s.h.chunks)
    ensures Moved(s, s)
  {
    QuietSame(s);
  }

  /** A chunk just taken from the unsorted bin is linked into bin j. */
  lemma Rebin(s: Store, u: Store, j: nat, k: nat, p: Addr)
    requires Inv(s) && NoLoose(s.h.chunks) && Fresh(s, u, p) && !u.open && p in s.h.chunks && IsFree(s.h.chunks[p].state)
    requires Places(u, j, k, p)
    ensures Moved(s, Linked1(u, j, k, p)) && 2 <= j < NBINS && j < |u.h.lists| && k <= |u.h.lists[j]|
    ensures Linked1(u, j, k, p).m == LinkedIn(u.m, p, Node(j, u.h.lists[j], k), Node(j, u.h.lists[j], k + 1))
    ensures Linked1(u, j, k, p).h.lists == u.h.lists[j := InsertAt(u.h.lists[j], k, p)]
  {
    hide *;
    FreshParts(s, u, p);
    PlacesParts(u, j, k, p);
    MayLinkIntro(u, j, k, p);
    FreshTag(s, u, p, j);
    LinkStep(u, j, k, p);
    Linked1Is(u, j, k, p);
    LinkHeapParts(u.h, j, k, p);
    Rebinned(s.h.chunks, p, j);
    var t := Linked1(u, j, k, p);
    QuietThen(s, u, t);
    MovedIntro(s, t);
  }

  // ----- the place of a chunk in its bin -----

  /** What the code sees of a bin while it looks for the place of a chunk. */
  ghost predicate BinView(m: Words, chunks: Chunks, j: nat, s: seq<Addr>) {
    && Linked(m, j, s) && Nodes(j, s) && ListOk(chunks, j, s)
    && forall i | 0 <= i < |s| :: s[i] in chunks && Head(m, s[i]) == chunks[s[i]].size + 1
  }

  lemma ViewBin(s: Store, u: Store, p: Addr, j: nat)
    requires Inv(s) && NoLoose(s.h.chunks) && Fresh(s, u, p) && !u.open && 1 <= j < NBINS
    ensures |u.h.lists| == LISTS && LISTS > NBINS && BinView(u.m, u.h.chunks, j, u.h.lists[j])
  {
    hide *;
    FreshParts(s, u, p);
    InvParts(u);
    ListCount();
    ListNodes(u.h.chunks, u.h.lists, j);
    BinLinked(u, j);
    ViewHeads(s, u, p, j);
    BinViewIntro(u.m, u.h.chunks, j, u.h.lists[j]);
  }

  lemma BinLinked(u: Store, j: nat)
    requires Inv(u) && !u.open && 1 <= j < NBINS
    ensures |u.h.lists| == LISTS && LISTS > NBINS && Linked(u.m, j, u.h.lists[j]) && ListOk(u.h.chunks, j, u.h.lists[j])
  {
  }

  lemma ViewHeads(s: Store, u: Store, p: Addr, j: nat)
    requires Inv(s) && NoLoose(s.h.chunks) && Fresh(s, u, p) && 1 <= j < NBINS && |u.h.lists| == LISTS && LISTS > NBINS
    requires ListOk(u.h.chunks, j, u.h.lists[j])
    ensures forall i | 0 <= i < |u.h.lists[j]| ::
      u.h.lists[j][i] in u.h.chunks && Head(u.m, u.h.lists[j][i]) == u.h.chunks[u.h.lists[j][i]].size + 1
  {
    hide *;
    FreshParts(s, u, p);
    forall i | 0 <= i < |u.h.lists[j]|
      ensures u.h.lists[j][i] in u.h.chunks && Head(u.m, u.h.lists[j][i]) == u.h.chunks[u.h.lists[j][i]].size + 1
    {
      var q := u.h.lists[j][i];
      MemberFree(u.h.chunks, j, u.h.lists[j], i);
      SetBack(s.h.chunks, p, q);
      FreeHeadWord(s, q);
      SameHead(s.m, u.m, s.h.chunks, q);
    }
  }

  lemma MemberFree(chunks: Chunks, j: nat, s: seq<Addr>, i: nat)
    requires ListOk(chunks, j, s) && i < |s| && 1 <= j < NBINS
    ensures s[i] in chunks && IsFree(chunks[s[i]].state) && Suits(j, chunks[s[i]].size) && chunks[s[i]].state == Binned(j)
  {
  }

  lemma SetBack(chunks: Chunks, p: Addr, q: Addr)
    requires p in chunks && q in Set(chunks, p, Loose) && IsFree(Set(chunks, p, Loose)[q].state)
    ensures q in chunks && chunks[q] == Set(chunks, p, Loose)[q]
  {
  }

  lemma BinViewIntro(m: Words, chunks: Chunks, j: nat, s: seq<Addr>)
    requires Linked(m, j, s) && Nodes(j, s) && ListOk(chunks, j, s)
    requires forall i | 0 <= i < |s| :: s[i] in chunks && Head(m, s[i]) == chunks[s[i]].size + 1
    ensures BinView(m, chunks, j, s)
  {
  }

  /** In a small bin every place will do; the code takes the front. */
  lemma FrontFits(chunks: Chunks, j: nat, s: seq<Addr>, size: nat)
    requires ListOk(chunks, j, s) && Small(size) && j == BinIndex(size) && 2 <= j < NBINS && size % 8 == 0 && Shapes(chunks)
    ensures Members(chunks, j, s) && FitsAt(chunks, s, 0, size)
  {
    forall i | 0 <= i < |s| ensures chunks[s[i]].size == size {
      assert Shaped(s[i], chunks[s[i]]);
      BinIndexRange(size);
      BinIndexRange(chunks[s[i]].size);
      SmallBinExact(size, chunks[s[i]].size);
    }
  }

  lemma EmptyFits(chunks: Chunks, j: nat, size: nat)
    ensures Members(chunks, j, []) && FitsAt(chunks, [], 0, size)
  {
  }

  lemma BackFits(chunks: Chunks, j: nat, s: seq<Addr>, size: nat)
    requires ListOk(chunks, j, s) && s != [] && j != 1 && s[|s| - 1] in chunks && size <= chunks[s[|s| - 1]].size
    ensures Members(chunks, j, s) && FitsAt(chunks, s, |s|, size)
  {
    hide Suits;
  }

  lemma MiddleFits(chunks: Chunks, j: nat, s: seq<Addr>, k: nat, size: nat)
    requires ListOk(chunks, j, s) && k < |s| && j != 1 && s[k] in chunks && size >= chunks[s[k]].size
    requires forall i | 0 <= i < k :: s[i] in chunks && size < chunks[s[i]].size
    ensures Members(chunks, j, s) && FitsAt(chunks, s, k, size)
  {
    hide Suits;
  }

  lemma PlacesIntro(u: Store, j: nat, k: nat, p: Addr, size: nat)
    requires 2 <= j < NBINS && j < |u.h.lists| && k <= |u.h.lists[j]| && p in u.h.chunks && u.h.chunks[p] == Chunk(size, Loose)
    requires j == BinIndex(size) && Members(u.h.chunks, j, u.h.lists[j]) && FitsAt(u.h.chunks, u.h.lists[j], k, size)
    ensures Places(u, j, k, p)
  {
  }

  /** first, last and neighbours, as the code reads them. */
  lemma ViewEnds(m: Words, chunks: Chunks, j: nat, s: seq<Addr>)
    requires BinView(m, chunks, j, s)
    ensures Fd(m, BinAt(j)) == Node(j, s, 1) && Bk(m, BinAt(j)) == Node(j, s, |s|)
    ensures Node(j, s, 0) == BinAt(j) == Node(j, s, |s| + 1)
    ensures s == [] <==> Fd(m, BinAt(j)) == BinAt(j)
    ensures s == [] <==> Bk(m, BinAt(j)) == BinAt(j)
    ensures s != [] ==> Node(j, s, 1) == s[0] && Node(j, s, |s|) == s[|s| - 1]
  {
    Ends(m, j, s);
  }

  lemma ViewAt(m: Words, chunks: Chunks, j: nat, s: seq<Addr>, k: nat)
    requires BinView(m, chunks, j, s) && k < |s|
    ensures s[k] in chunks && Head(m, s[k]) == chunks[s[k]].size + 1
    ensures Node(j, s, k + 1) == s[k] && Fd(m, s[k]) == Node(j, s, k + 2) && Bk(m, s[k]) == Node(j, s, k)
  {
    Neighbours(m, j, s, k);
  }

  lemma ViewOk(m: Words, chunks: Chunks, j: nat, s: seq<Addr>)
    requires BinView(m, chunks, j, s)
    ensures ListOk(chunks, j, s)
  {
  }

  lemma SizeShape(u: Store, p: Addr)
    requires Inv(u) && p in u.h.chunks
    ensures u.h.chunks[p].size % 8 == 0 && 2 <= BinIndex(u.h.chunks[p].size) < NBINS && Shapes(u.h.chunks)
    ensures u.h.chunks[p].size >= MINSIZE
  {
    assert Shaped(p, u.h.chunks[p]);
    BinIndexRange(u.h.chunks[p].size);
  }

  function SizeAt(chunks: Chunks, q: Addr): nat {
    if q in chunks then chunks[q].size else 0
  }

  /** Where in a bin a chunk of the given size belongs: in front in a small bin; in a large one
      at the end if it is no larger than the smallest, and otherwise before the first that is
      no larger than it. */
  function PlaceIn(chunks: Chunks, l: seq<Addr>, size: nat): (k: nat)
    ensures k <= |l|
  {
    if l == [] || Small(size) then 0
    else if size <= SizeAt(chunks, l[|l| - 1]) then |l|
    else NotLarger(chunks, l, size, 0)
  }

  function NotLarger(chunks: Chunks, l: seq<Addr>, size: nat, k: nat): (r: nat)
    requires k <= |l|
    ensures k <= r <= |l|
    decreases |l| - k
  {
    if k == |l| || SizeAt(chunks, l[k]) <= size then k else NotLarger(chunks, l, size, k + 1)
  }

  lemma {:induction false} NotLargerIs(chunks: Chunks, l: seq<Addr>, size: nat, j: nat, k: nat)
    requires j <= k < |l| && SizeAt(chunks, l[k]) <= size && forall i | j <= i < k :: SizeAt(chunks, l[i]) > size
    ensures NotLarger(chunks, l, size, j) == k
    decreases k - j
  {
    if j < k { NotLargerIs(chunks, l, size, j + 1, k); }
  }

  lemma {:induction false} NotLargerSame(chunks: Chunks, cs: Chunks, l: seq<Addr>, size: nat, k: nat)
    requires k <= |l| && forall i | 0 <= i < |l| :: SizeAt(chunks, l[i]) == SizeAt(cs, l[i])
    ensures NotLarger(chunks, l, size, k) == NotLarger(cs, l, size, k)
    decreases |l| - k
  {
    if k < |l| { NotLargerSame(chunks, cs, l, size, k + 1); }
  }

  /** The place depends on the sizes only. */
  lemma PlaceSame(chunks: Chunks, p: Addr, l: seq<Addr>, size: nat)
    requires p in chunks
    ensures PlaceIn(Set(chunks, p, Loose), l, size) == PlaceIn(chunks, l, size)
  {
    NotLargerSame(Set(chunks, p, Loose), chunks, l, size, 0);
  }

  lemma PlaceFront(chunks: Chunks, l: seq<Addr>, size: nat)
    requires l == [] || Small(size)
    ensures PlaceIn(chunks, l, size) == 0
  {
  }

  lemma PlaceBack(chunks: Chunks, l: seq<Addr>, size: nat)
    requires l != [] && !Small(size) && l[|l| - 1] in chunks && size <= chunks[l[|l| - 1]].size
    ensures PlaceIn(chunks, l, size) == |l|
  {
  }

  lemma PlaceMiddle(chunks: Chunks, l: seq<Addr>, size: nat, k: nat)
    requires k < |l| && !Small(size) && l[|l| - 1] in chunks && size > chunks[l[|l| - 1]].size
    requires l[k] in chunks && chunks[l[k]].size <= size
    requires forall i | 0 <= i < k :: l[i] in chunks && size < chunks[l[i]].size
    ensures PlaceIn(chunks, l, size) == k
  {
    NotLargerIs(chunks, l, size, 0, k);
  }

  /** The search for the place of a chunk: small bins take it in front, large bins keep
      their order, looking at the smallest first. */
  method PlaceFor(m: Words, size: nat, ghost s: Store, ghost u: Store, ghost p: Addr)
      returns (bck: Addr, fwd: Addr, ghost k: nat)
    requires m == u.m && Inv(s) && NoLoose(s.h.chunks) && Fresh(s, u, p) && !u.open
    requires p in u.h.chunks && size == u.h.chunks[p].size
    ensures Places(u, BinIndex(size), k, p) && BinIndex(size) < |u.h.lists| && k <= |u.h.lists[BinIndex(size)]|
    ensures k == PlaceIn(u.h.chunks, u.h.lists[BinIndex(size)], size)
    ensures bck == Node(BinIndex(size), u.h.lists[BinIndex(size)], k)
    ensures fwd == Node(BinIndex(size), u.h.lists[BinIndex(size)], k + 1)
  {
    hide *;
    FreshParts(s, u, p);
    SizeShape(u, p);
    var j := BinIndex(size);
    ViewBin(s, u, p, j);
    ghost var l := u.h.lists[j];
    ViewEnds(u.m, u.h.chunks, j, l);
    ViewOk(u.m, u.h.chunks, j, l);
    SetIs(s.h.chunks, p, Loose);
    bck := BinAt(j);
    fwd := Fd(m, bck);
    k := 0;
    if fwd == bck {
      EmptyFits(u.h.chunks, j, size);
      PlaceFront(u.h.chunks, l, size);
    } else if Small(size) {
      FrontFits(u.h.chunks, j, l, size);
      PlaceFront(u.h.chunks, l, size);
    } else {
      var sz := size + 1;
      ViewAt(u.m, u.h.chunks, j, l, |l| - 1);
      if sz <= Head(m, Bk(m, bck)) {
        fwd := bck;
        bck := Bk(m, bck);
        k := |l|;
        BackFits(u.h.chunks, j, l, size);
        PlaceBack(u.h.chunks, l, size);
      } else {
        ViewAt(u.m, u.h.chunks, j, l, 0);
        while sz < Head(m, fwd)
          invariant k < |l| && fwd == Node(j, l, k + 1) == l[k] && l[k] in u.h.chunks
          invariant Head(m, fwd) == u.h.chunks[l[k]].size + 1
          invariant forall i | 0 <= i < k :: l[i] in u.h.chunks && size < u.h.chunks[l[i]].size
          decreases |l| - k
        {
          ViewAt(u.m, u.h.chunks, j, l, k);
          ViewAt(u.m, u.h.chunks, j, l, k + 1);
          fwd := Fd(m, fwd);
          k := k + 1;
        }
        ViewAt(u.m, u.h.chunks, j, l, k);
        bck := Bk(m, fwd);
        MiddleFits(u.h.chunks, j, l, k, size);
        PlaceMiddle(u.h.chunks, l, size, k);
      }
    }
    PlacesIntro(u, j, k, p, size);
  }

  // ----- the code's stores -----

  lemma CutTagsWords(m: Words, p: Addr, nb: nat, size: nat)
    requires nb <= size
    ensures CutTags(m, p, nb, size) == Poke(Poke(Poke(m, p + nb + 4, size - nb + 1), p + 4, nb + 1), p + size, size - nb)
  {
  }

  lemma AloneWordsAre(m: Words, r: Addr)
    ensures LinkedAlone(m, 1, r) == Poke(Poke(Poke(Poke(m, BinAt(1) + 12, r), BinAt(1) + 8, r), r + 12, BinAt(1)), r + 8, BinAt(1))
  {
  }

  lemma LinkedInWords(m: Words, p: Addr, bck: Addr, fwd: Addr)
    ensures LinkedIn(m, p, bck, fwd) == Poke(Poke(Poke(Poke(m, p + 12, bck), p + 8, fwd), fwd + 12, p), bck + 8, p)
  {
  }

  /** The last chunk of a bin, as the code finds and removes it. */
  ghost predicate LastOf(s: Store, i: nat, v: Addr) {
    && 1 <= i < NBINS < |s.h.lists| && s.h.lists[i] != [] && v == s.h.lists[i][|s.h.lists[i]| - 1] && v in s.h.chunks
    && s.h.chunks[v].state == Binned(i) && Suits(i, s.h.chunks[v].size)
    && SizeOf(Head(s.m, v)) == s.h.chunks[v].size && Bk(s.m, v) >= 0
    && Unlinked(s.m, v) == Poke(Poke(s.m, BinAt(i) + 12, Bk(s.m, v)), Bk(s.m, v) + 8, BinAt(i))
    && (Bk(s.m, v) == BinAt(i) <==> |s.h.lists[i]| == 1)
    && v >= LOW && v % 8 == 0 && s.h.chunks[v].size % 8 == 0 && s.h.chunks[v].size >= MINSIZE
  }

  lemma LastParts(s: Store, i: nat, v: Addr)
    requires LastOf(s, i, v)
    ensures 1 <= i < NBINS < |s.h.lists| && s.h.lists[i] != [] && v == s.h.lists[i][|s.h.lists[i]| - 1] && v in s.h.chunks
    ensures IsFree(s.h.chunks[v].state) && s.h.chunks[v].state == Binned(i) && Suits(i, s.h.chunks[v].size)
    ensures SizeOf(Head(s.m, v)) == s.h.chunks[v].size && Bk(s.m, v) >= 0
    ensures Unlinked(s.m, v) == Poke(Poke(s.m, BinAt(i) + 12, Bk(s.m, v)), Bk(s.m, v) + 8, BinAt(i))
    ensures Bk(s.m, v) == BinAt(i) <==> |s.h.lists[i]| == 1
    ensures v >= LOW && v > 0 && v % 8 == 0 && s.h.chunks[v].size % 8 == 0 && s.h.chunks[v].size >= MINSIZE == 16
  {
  }

  /** last(b) is the header exactly when the bin is empty. */
  lemma LastChunk(s: Store, i: nat)
    requires Inv(s) && !s.open && 1 <= i < NBINS
    ensures |s.h.lists| == LISTS && LISTS > NBINS
    ensures Bk(s.m, BinAt(i)) == BinAt(i) <==> s.h.lists[i] == []
    ensures Bk(s.m, BinAt(i)) >= 0 && (Bk(s.m, BinAt(i)) != BinAt(i) ==> LastOf(s, i, Bk(s.m, BinAt(i))))
  {
    hide *;
    InvParts(s);
    ListCount();
    ListNodes(s.h.chunks, s.h.lists, i);
    BinLinked(s, i);
    Ends(s.m, i, s.h.lists[i]);
    BinAddress(i, s.h.lists[i]);
    if s.h.lists[i] != [] { LastIntro(s, i); }
  }

  lemma BinAddress(i: nat, s: seq<Addr>)
    requires Nodes(i, s)
    ensures BinAt(i) < LOW && forall k | 0 <= k < |s| :: s[k] != BinAt(i)
  {
  }

  lemma LastIntro(s: Store, i: nat)
    requires Inv(s) && !s.open && 1 <= i < NBINS && |s.h.lists| == LISTS && LISTS > NBINS && s.h.lists[i] != []
    ensures LastOf(s, i, s.h.lists[i][|s.h.lists[i]| - 1])
  {
    hide *;
    InvParts(s);
    var l := s.h.lists[i];
    var v := l[|l| - 1];
    ListNodes(s.h.chunks, s.h.lists, i);
    BinLinked(s, i);
    MemberFree(s.h.chunks, i, l, |l| - 1);
    ShapeOf(s.h.chunks, v);
    TagOf(s.m, s.h.chunks, s.h.starts, v);
    FreeTagParts(s.m, v, s.h.chunks[v]);
    EightFours(s.h.chunks[v].size);
    HeadBits(Head(s.m, v), s.h.chunks[v].size);
    LastLinks(s.m, i, l);
    LastOfIntro(s, i, v);
  }

  lemma LastLinks(m: Words, i: nat, l: seq<Addr>)
    requires Linked(m, i, l) && Nodes(i, l) && l != []
    ensures var v := l[|l| - 1];
            Bk(m, v) >= 0 && Fd(m, v) == BinAt(i) && (Bk(m, v) == BinAt(i) <==> |l| == 1)
            && Unlinked(m, v) == Poke(Poke(m, BinAt(i) + 12, Bk(m, v)), Bk(m, v) + 8, BinAt(i)) && v >= LOW && v % 8 == 0
  {
    Neighbours(m, i, l, |l| - 1);
  }

  lemma LastOfIntro(s: Store, i: nat, v: Addr)
    requires 1 <= i < NBINS < |s.h.lists| && s.h.lists[i] != [] && v == s.h.lists[i][|s.h.lists[i]| - 1] && v in s.h.chunks
    requires s.h.chunks[v].state == Binned(i) && Suits(i, s.h.chunks[v].size)
    requires SizeOf(Head(s.m, v)) == s.h.chunks[v].size && Bk(s.m, v) >= 0
    requires Unlinked(s.m, v) == Poke(Poke(s.m, BinAt(i) + 12, Bk(s.m, v)), Bk(s.m, v) + 8, BinAt(i))
    requires Bk(s.m, v) == BinAt(i) <==> |s.h.lists[i]| == 1
    requires v >= LOW && v % 8 == 0 && s.h.chunks[v].size % 8 == 0 && s.h.chunks[v].size >= 16
    ensures LastOf(s, i, v)
  {
    hide Suits, Unlinked, Poke;
  }

  // ----- best fit -----

  ghost predicate FitsFree(chunks: Chunks, q: Addr, nb: nat) {
    q in chunks && IsFree(chunks[q].state) && nb <= chunks[q].size
  }

  /** p is a smallest free chunk that holds nb bytes. */
  ghost predicate BestFit(chunks: Chunks, p: Addr, nb: nat) {
    FitsFree(chunks, p, nb) && forall q | FitsFree(chunks, q, nb) :: chunks[p].size <= chunks[q].size
  }

  ghost predicate NoFit(chunks: Chunks, nb: nat) {
    forall q :: !FitsFree(chunks, q, nb)
  }

  lemma BestFitSame(chunks: Chunks, cs: Chunks, p: Addr, nb: nat)
    requires SameFree(chunks, cs)
    ensures BestFit(cs, p, nb) ==> BestFit(chunks, p, nb)
    ensures NoFit(cs, nb) ==> NoFit(chunks, nb)
  {
    if BestFit(cs, p, nb) {
      assert FitsFree(cs, p, nb);
      forall q | FitsFree(chunks, q, nb) ensures chunks[p].size <= chunks[q].size { assert FitsFree(cs, q, nb); }
    }
    if NoFit(cs, nb) {
      forall q ensures !FitsFree(chunks, q, nb) { assert !FitsFree(cs, q, nb); }
    }
  }

  lemma ExactFit(chunks: Chunks, p: Addr, nb: nat)
    requires p in chunks && IsFree(chunks[p].state) && chunks[p].size == nb
    ensures BestFit(chunks, p, nb)
  {
  }

  /** No chunk of a bin below the given one holds nb bytes, nor does one that is unsorted. */
  ghost predicate NoneBelow(chunks: Chunks, lists: seq<seq<Addr>>, nb: nat, idx: nat) {
    |lists| == LISTS && lists[1] == []
    && forall q {:trigger FitsFree(chunks, q, nb)} | FitsFree(chunks, q, nb) :: chunks[q].state.bin >= idx
  }

  lemma InBin(chunks: Chunks, lists: seq<seq<Addr>>, q: Addr) returns (k: nat)
    requires Listed(chunks, lists) && q in chunks && IsFree(chunks[q].state)
    ensures |lists| == LISTS && chunks[q].state.bin < NBINS < LISTS
    ensures k < |lists[chunks[q].state.bin]| && lists[chunks[q].state.bin][k] == q
    ensures ListOk(chunks, chunks[q].state.bin, lists[chunks[q].state.bin])
    ensures chunks[q].state.bin != 1 ==> 2 <= chunks[q].state.bin && BinIndex(chunks[q].size) == chunks[q].state.bin
  {
    k := Place(chunks, lists, q);
    assert ListOk(chunks, chunks[q].state.bin, lists[chunks[q].state.bin]);
    assert Suits(chunks[q].state.bin, chunks[q].size);
  }

  /** Once nothing is unsorted, bins below that of nb hold nothing large enough. */
  lemma StartBelow(chunks: Chunks, lists: seq<seq<Addr>>, nb: nat)
    requires Listed(chunks, lists) && lists[1] == []
    ensures NoneBelow(chunks, lists, nb, BinIndex(nb))
  {
    forall q | FitsFree(chunks, q, nb) ensures chunks[q].state.bin >= BinIndex(nb) {
      var k := InBin(chunks, lists, q);
      BinIndexRises(nb, chunks[q].size);
    }
  }

  lemma NextBelow(chunks: Chunks, lists: seq<seq<Addr>>, nb: nat, idx: nat, to: nat)
    requires Listed(chunks, lists) && NoneBelow(chunks, lists, nb, idx)
    requires forall i, k | idx <= i < to && i < NBINS && 0 <= k < |lists[i]| :: !FitsFree(chunks, lists[i][k], nb)
    ensures NoneBelow(chunks, lists, nb, to)
  {
    forall q | FitsFree(chunks, q, nb) ensures chunks[q].state.bin >= to {
      var k := InBin(chunks, lists, q);
    }
  }

  lemma NoneLeft(chunks: Chunks, lists: seq<seq<Addr>>, nb: nat)
    requires Listed(chunks, lists) && NoneBelow(chunks, lists, nb, NBINS)
    ensures NoFit(chunks, nb)
  {
    forall q ensures !FitsFree(chunks, q, nb) {
      if FitsFree(chunks, q, nb) { var k := InBin(chunks, lists, q); }
    }
  }

  /** In the lowest bin that may hold a fit, the last chunk that is large enough is a best
      fit: later ones are too small, earlier ones and higher bins are no smaller. */
  lemma BestInBin(chunks: Chunks, lists: seq<seq<Addr>>, nb: nat, i: nat, k: nat)
    requires Listed(chunks, lists) && NoneBelow(chunks, lists, nb, i) && 2 <= i < NBINS && k < |lists[i]|
    requires FitsFree(chunks, lists[i][k], nb)
    requires forall l | k < l < |lists[i]| :: !FitsFree(chunks, lists[i][l], nb)
    ensures BestFit(chunks, lists[i][k], nb)
  {
    var p := lists[i][k];
    var kp := InBin(chunks, lists, p);
    assert ListOk(chunks, i, lists[i]);
    assert chunks[p].state == Binned(i);
    forall q | FitsFree(chunks, q, nb) ensures chunks[p].size <= chunks[q].size {
      var l := InBin(chunks, lists, q);
      if chunks[q].state.bin > i {
        if chunks[q].size < chunks[p].size { BinIndexRises(chunks[q].size, chunks[p].size); }
      } else {
        assert lists[i][l] == q;
      }
    }
  }

  /** Every chunk of a bin above that of nb holds nb bytes. */
  lemma HigherFits(chunks: Chunks, lists: seq<seq<Addr>>, nb: nat, i: nat, k: nat)
    requires Listed(chunks, lists) && BinIndex(nb) < i < NBINS && 2 <= i && k < |lists[i]|
    ensures FitsFree(chunks, lists[i][k], nb)
  {
    assert ListOk(chunks, i, lists[i]);
    var q := lists[i][k];
    assert Suits(i, chunks[q].size);
    if chunks[q].size < nb { BinIndexRises(chunks[q].size, nb); }
  }
}
