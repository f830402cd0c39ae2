/** Giving a chunk back: the words the code computes, and the heap they represent. */
module DlRelease {
  import opened DlSizes
  import opened DlHeap
  import opened DlTags
  import opened DlLinks
  import opened DlSteps
  import opened DlMoves
  import opened DlCollect
  import opened DlCoalesce

  /** The joined chunk and what the code knows about it. */
  ghost predicate InHand(s: Store, p: Addr, size: int) {
    Inv(s) && !s.open && LooseOnly(s.h.chunks, p) && p in s.h.chunks && s.h.chunks[p].size == size && Lonely(s.h.chunks, p)
  }

  lemma InHandParts(s: Store, p: Addr, size: int)
    requires InHand(s, p, size)
    ensures Inv(s) && !s.open && LooseOnly(s.h.chunks, p) && p in s.h.chunks && s.h.chunks[p].size == size
    ensures s.h.chunks[p].state == Loose && Lonely(s.h.chunks, p) && |s.h.lists| == LISTS
    ensures Tiles(s.h.chunks, s.h.starts) && p + size == End(s.h.chunks, p)
  {
  }

  lemma NotFreeBefore(s: Store, p: Addr)
    requires Inv(s) && LooseOnly(s.h.chunks, p) && PrevInuse(Head(s.m, p))
    ensures Lonely(s.h.chunks, p)
  {
    OnlyBefore(s.h.chunks, s.h.starts, p);
    PrevTells(s.m, s.h.chunks, s.h.starts, p);
  }

  lemma InHandIntro(s: Store, p: Addr, size: int)
    requires Inv(s) && !s.open && LooseOnly(s.h.chunks, p) && p in s.h.chunks && s.h.chunks[p].size == size
    requires Lonely(s.h.chunks, p)
    ensures InHand(s, p, size)
  {
  }

  lemma OnlyParts(chunks: Chunks, p: Addr)
    requires LooseOnly(chunks, p)
    ensures p in chunks && chunks[p].state == Loose
  {
  }

  lemma QuietSame(s: Store)
    ensures Quiet(s, s)
  {
  }

  lemma JoinedSame(s: Store, p: Addr)
    ensures Joined(s, p).fastbins == s.fastbins && Joined(s, p).open == s.open
  {
  }

  lemma UnhookedSame(s: Store, i: nat, k: nat)
    ensures Unhooked(s, i, k).fastbins == s.fastbins && Unhooked(s, i, k).open == s.open
  {
  }

  /** The chunk at b, ending where p ended, in a memory where p's successor is the same. */
  ghost predicate WentBack(s: Store, t: Store, p: Addr, b: Addr) {
    && p in s.h.chunks && Quiet(s, t) && Shrinks(s.h.lists, t.h.lists)
    && t.fastbins == s.fastbins && t.h.top == s.h.top && Slid(s.h, t.h, p, b)
    && Head(t.m, p + s.h.chunks[p].size) == Head(s.m, p + s.h.chunks[p].size)
    && InHand(t, b, p + s.h.chunks[p].size - b)
    && if PrevInuse(Head(s.m, p)) then b == p && t == s
       else PrevSize(s.m, p) == p - b && t.m == Unlinked(s.m, b)
  }

  lemma WentBackIntro(s: Store, t: Store, p: Addr, b: Addr)
    requires p in s.h.chunks && Quiet(s, t) && Shrinks(s.h.lists, t.h.lists) && Slid(s.h, t.h, p, b)
    requires t.fastbins == s.fastbins && t.h.top == s.h.top
    requires Head(t.m, p + s.h.chunks[p].size) == Head(s.m, p + s.h.chunks[p].size)
    requires InHand(t, b, p + s.h.chunks[p].size - b)
    requires PrevInuse(Head(s.m, p)) ==> b == p && t == s
    requires !PrevInuse(Head(s.m, p)) ==> PrevSize(s.m, p) == p - b && t.m == Unlinked(s.m, b)
    ensures WentBack(s, t, p, b)
  {
  }

  /** Consolidating backward: what the code computes, and the heap it gets to. */
  lemma Backward(s: Store, p: Addr) returns (t: Store, b: Addr)
    requires Inv(s) && !s.open && LooseOnly(s.h.chunks, p)
    ensures WentBack(s, t, p, b)
  {
    hide *;
    OnlyParts(s.h.chunks, p);
    InvParts(s);
    if PrevInuse(Head(s.m, p)) {
      b, t := p, s;
      NotFreeBefore(s, p);
      QuietSame(s);
      ShrinksSame(s.h.lists);
      SlidSame(s.h, p);
      InHandIntro(s, p, s.h.chunks[p].size);
    } else {
      OnlyBefore(s.h.chunks, s.h.starts, p);
      var i, k;
      b, i, k := BackStep(s, p);
      t := Joined(Unhooked(s, i, k), b);
      EndIs(s.h.chunks, p);
      SameHead(s.m, t.m, s.h.chunks, p + s.h.chunks[p].size);
      UnhookShrinks(s, i, k, b);
      JoinedSame(Unhooked(s, i, k), b);
      UnhookedSame(s, i, k);
      BackLoose(s, p, b, i, k);
      BackSlid(s, p, b, i, k);
      InHandIntro(t, b, p + s.h.chunks[p].size - b);
    }
    WentBackIntro(s, t, p, b);
  }

  lemma BackSlid(s: Store, p: Addr, b: Addr, i: nat, k: nat)
    requires Inv(s) && LooseOnly(s.h.chunks, p) && b in s.h.chunks && b != p && p == b + s.h.chunks[b].size
    requires i < |s.h.lists| && i < NBINS && k < |s.h.lists[i]| && s.h.lists[i][k] == b && s.h.chunks[b].state == Binned(i)
    ensures Slid(s.h, Joined(Unhooked(s, i, k), b).h, p, b)
  {
    hide *;
    OnlyParts(s.h.chunks, p);
    InvParts(s);
    Parts(s.h);
    EndIs(s.h.chunks, b);
    SlidBack(s.h, i, k, p, b);
    UnhookedIs(s, i, k);
    JoinedIs(Unhooked(s, i, k), b);
  }

  lemma BackLoose(s: Store, p: Addr, b: Addr, i: nat, k: nat)
    requires LooseOnly(s.h.chunks, p) && b in s.h.chunks && b != p && p == b + s.h.chunks[b].size
    requires i < |s.h.lists| && k < |s.h.lists[i]| && s.h.lists[i][k] == b
    ensures LooseOnly(Joined(Unhooked(s, i, k), b).h.chunks, b)
  {
    hide *;
    OnlyParts(s.h.chunks, p);
    UnhookedIs(s, i, k);
    UnhookHeapIs(s.h, i, k);
    JoinLoose(s.h.chunks, b, p, b);
    SetKeeps(s.h.chunks, b);
    JoinedIs(Unhooked(s, i, k), b);
    MergeChunkIs(Unhooked(s, i, k).h, b);
  }

  lemma SetKeeps(chunks: Chunks, b: Addr)
    requires b in chunks
    ensures b in Set(chunks, b, Loose)
  {
  }

  lemma UnhookHeapIs(h: Heap, i: nat, k: nat)
    requires i < |h.lists| && k < |h.lists[i]| && h.lists[i][k] in h.chunks
    ensures UnlinkHeap(h, i, k).chunks == Set(h.chunks, h.lists[i][k], Loose)
  {
  }

  // ----- forward -----

  /** The memory after the bit of the next chunk is cleared and that chunk, if it was free,
      is taken out of its bin. */
  ghost function Cleared(m: Words, e: Addr): Words {
    var nextsize := SizeOf(Head(m, e));
    if PrevInuse(m[e + nextsize + 4]) then m[e + 4 := nextsize] else Unlinked(m[e + 4 := nextsize], e)
  }

  ghost function ClearedSize(m: Words, e: Addr, size: int): int {
    if PrevInuse(m[e + SizeOf(Head(m, e)) + 4]) then size else size + SizeOf(Head(m, e))
  }

  lemma ClearedUsed(s: Store, e: Addr, size: int)
    requires PrevInuse(s.m[e + SizeOf(Head(s.m, e)) + 4])
    ensures Marked(s, e).m == Cleared(s.m, e) && ClearedSize(s.m, e, size) == size
  {
  }

  lemma ClearedFree(s: Store, e: Addr, size: int)
    requires !PrevInuse(s.m[e + SizeOf(Head(s.m, e)) + 4])
    ensures Unlinked(Marked(s, e).m, e) == Cleared(s.m, e)
    ensures ClearedSize(s.m, e, size) == size + SizeOf(Head(s.m, e))
  {
  }

  /** The chunk in hand lies between chunks in use, and its successor knows that it is free. */
  ghost predicate Ready(s: Store, t: Store, p: Addr, size: int) {
    && Inv(t) && Quiet(s, t) && !t.open && LooseOnly(t.h.chunks, p) && Spare(t, p) && p in t.h.chunks
    && t.h.chunks[p].size == size && Shrinks(s.h.lists, t.h.lists)
    && t.fastbins == s.fastbins && t.h.top == s.h.top && Eaten(s.h, t.h, p, p + size)
  }

  lemma ReadyIntro(s: Store, t: Store, p: Addr, size: int)
    requires Inv(t) && Quiet(s, t) && !t.open && LooseOnly(t.h.chunks, p) && Spare(t, p) && p in t.h.chunks
    requires t.h.chunks[p].size == size && Shrinks(s.h.lists, t.h.lists)
    requires t.fastbins == s.fastbins && t.h.top == s.h.top && size >= 0 && Eaten(s.h, t.h, p, p + size)
    ensures Ready(s, t, p, size)
  {
  }

  lemma ReadyParts(s: Store, t: Store, p: Addr, size: int)
    requires Ready(s, t, p, size)
    ensures Inv(t) && Quiet(s, t) && !t.open && LooseOnly(t.h.chunks, p) && Spare(t, p) && p in t.h.chunks
    ensures t.h.chunks[p].size == size && Shrinks(s.h.lists, t.h.lists)
    ensures t.fastbins == s.fastbins && t.h.top == s.h.top && size >= 0 && Eaten(s.h, t.h, p, p + size)
  {
  }

  lemma NextOf(s: Store, p: Addr, e: Addr)
    requires Inv(s) && LooseOnly(s.h.chunks, p) && p in s.h.chunks && e == p + s.h.chunks[p].size
    ensures e in s.h.chunks && s.h.chunks[e].state != Loose && e % 8 == 0
    ensures s.h.top != Some(e) ==> s.h.chunks[e].state != Top
    ensures s.h.top == Some(e) ==> s.h.chunks[e].state == Top
  {
    hide *;
    InvParts(s);
    Parts(s.h);
    OnlyBefore(s.h.chunks, s.h.starts, p);
    EndIs(s.h.chunks, p);
    ShapeOf(s.h.chunks, e);
    TopOnly(s.h, e);
  }

  lemma TopOnly(h: Heap, e: Addr)
    requires TopIs(h.chunks, h.top) && e in h.chunks
    ensures h.chunks[e].state == Top <==> h.top == Some(e)
  {
  }

  lemma SolidHere(chunks: Chunks, e: Addr)
    requires e in chunks && !IsFree(chunks[e].state) && chunks[e].state != Top
    ensures Solid(chunks, e)
  {
  }

  lemma NotLooseFar(chunks: Chunks, p: Addr, e: Addr)
    requires LooseOnly(chunks, p) && p < e
    ensures NoLooseAt(chunks, e)
  {
  }

  lemma MarkedSame(s: Store, e: Addr)
    ensures Marked(s, e).h == s.h && Marked(s, e).fastbins == s.fastbins && Marked(s, e).open == s.open
  {
  }

  lemma AheadLoose(s: Store, p: Addr, q: Addr, i: nat, k: nat)
    requires LooseOnly(s.h.chunks, p) && p in s.h.chunks && q == p + s.h.chunks[p].size && At(s, q, i, k) && q != p
    ensures LooseOnly(Joined(Unhooked(s, i, k), p).h.chunks, p)
  {
    hide *;
    AtParts(s, q, i, k);
    UnhookedIs(s, i, k);
    UnhookHeapIs(s.h, i, k);
    JoinLoose(s.h.chunks, p, q, q);
    KeepsOther(s.h.chunks, q, p);
    JoinedIs(Unhooked(s, i, k), p);
    MergeChunkIs(Unhooked(s, i, k).h, p);
  }

  lemma KeepsOther(chunks: Chunks, q: Addr, p: Addr)
    requires q in chunks && p in chunks
    ensures p in Set(chunks, q, Loose)
  {
  }

  lemma AtParts(s: Store, q: Addr, i: nat, k: nat)
    requires At(s, q, i, k)
    ensures i < |s.h.lists| && k < |s.h.lists[i]| && s.h.lists[i][k] == q && q in s.h.chunks
    ensures s.h.chunks[q].state == Binned(i)
  {
  }

  /** Consolidating forward, when the next chunk is not top. */
  lemma Forward(s: Store, p: Addr, size: int) returns (t: Store)
    requires InHand(s, p, size) && size >= 0 && s.h.top != Some(p + size)
    ensures t.m == Cleared(s.m, p + size) && Ready(s, t, p, ClearedSize(s.m, p + size, size))
  {
    hide *;
    InHandParts(s, p, size);
    InvParts(s);
    var e: nat := p + size;
    NextOf(s, p, e);
    InuseTells(s, e);
    MarkStep(s, p);
    MarkedSame(s, e);
    SpareParts0(s.h.chunks, p, e);
    if PrevInuse(s.m[e + SizeOf(Head(s.m, e)) + 4]) {
      t := Marked(s, e);
      SolidHere(s.h.chunks, e);
      SpareIntro(t, p);
      ClearedUsed(s, e, size);
      ShrinksSame(s.h.lists);
      EatenSame(s.h, p);
      ReadyIntro(s, t, p, ClearedSize(s.m, e, size));
    } else {
      t := ForwardFree(s, p, size);
    }
  }

  lemma SpareParts0(chunks: Chunks, p: Addr, e: Addr)
    requires p in chunks && e == p + chunks[p].size
    ensures e == End(chunks, p)
  {
  }

  lemma ForwardFree(s: Store, p: Addr, size: int) returns (t: Store)
    requires InHand(s, p, size) && size >= 0 && s.h.top != Some(p + size)
    requires !PrevInuse(s.m[p + size + SizeOf(Head(s.m, p + size)) + 4])
    ensures t.m == Cleared(s.m, p + size) && Ready(s, t, p, ClearedSize(s.m, p + size, size))
  {
    hide *;
    InHandParts(s, p, size);
    InvParts(s);
    var e: nat := p + size;
    NextOf(s, p, e);
    InuseTells(s, e);
    MarkStep(s, p);
    MarkedSame(s, e);
    var u := Marked(s, e);
    ShapeOf(s.h.chunks, p);
    ShapeOf(s.h.chunks, e);
    FreeNotFence(s.h.chunks[e].state);
    NotLooseFar(s.h.chunks, p, e + s.h.chunks[e].size);
    FreeAheadIntro(u, p, e);
    var q, i, k := AheadStep(u, p);
    t := Joined(Unhooked(u, i, k), p);
    SwallowedParts(u, t, p, q);
    AheadLoose(u, p, q, i, k);
    UnhookShrinks(u, i, k, p);
    JoinedSame(Unhooked(u, i, k), p);
    UnhookedSame(u, i, k);
    QuietThen(s, u, t);
    ClearedFree(s, e, size);
    AheadEaten(u, p, q, i, k);
    ReadyIntro(s, t, p, ClearedSize(s.m, e, size));
  }

  lemma AheadEaten(s: Store, p: Addr, q: Addr, i: nat, k: nat)
    requires Inv(s) && p in s.h.chunks && s.h.chunks[p].state == Loose && q == p + s.h.chunks[p].size && At(s, q, i, k) && i < NBINS
    ensures q in s.h.chunks && Eaten(s.h, Joined(Unhooked(s, i, k), p).h, p, q + s.h.chunks[q].size)
  {
    hide *;
    InvParts(s);
    Parts(s.h);
    AtParts(s, q, i, k);
    ShapeOf(s.h.chunks, p);
    ShapeOf(s.h.chunks, q);
    EndIs(s.h.chunks, p);
    EndIs(s.h.chunks, q);
    EatenAhead(s.h, i, k, p, q);
    UnhookedIs(s, i, k);
    JoinedIs(Unhooked(s, i, k), p);
  }

  lemma FreeNotFence(st: State)
    ensures IsFree(st) ==> st != Fence
  {
  }

  lemma FreeAheadIntro(s: Store, p: Addr, q: Addr)
    requires p in s.h.chunks && s.h.chunks[p].state == Loose && Lonely(s.h.chunks, p) && q == p + s.h.chunks[p].size
    requires q in s.h.chunks && IsFree(s.h.chunks[q].state) && NoLooseAt(s.h.chunks, q + s.h.chunks[q].size)
    ensures FreeAhead(s, p)
  {
  }

  lemma SwallowedParts(s: Store, t: Store, p: Addr, q: Addr)
    requires Swallowed(s, t, p, q)
    ensures t.m == Unlinked(s.m, q) && t.h.top == s.h.top && t.open == s.open
    ensures p in s.h.chunks && q in s.h.chunks && p in t.h.chunks && q == p + s.h.chunks[p].size
    ensures t.h.chunks[p].size == s.h.chunks[p].size + s.h.chunks[q].size
  {
  }

  // ----- the end of a release -----

  /** set_head, set_foot and the links of a free chunk at the front of the unsorted bin. */
  ghost function Binning(m: Words, p: Addr, size: int): Words {
    var n: Words := m[p + 4 := size + 1][p + size := size];
    var fwd := Fd(n, BinAt(1));
    n[p + 12 := BinAt(1)][p + 8 := fwd][fwd + 12 := p][BinAt(1) + 8 := p]
  }

  lemma BinningIs(s: Store, p: Addr, size: nat)
    requires p in s.h.chunks && |s.h.lists| > 1 && Node(1, s.h.lists[1], 0) == BinAt(1)
    requires Node(1, s.h.lists[1], 1) == Fd(FreeTags(s, p, size).m, BinAt(1))
    ensures Fronted(FreeTags(s, p, size), p).m == Binning(s.m, p, size)
  {
  }

  /** No chunk is in the allocator's hands any more. */
  ghost predicate Done(s: Store, t: Store) {
    && Inv(t) && Quiet(s, t) && !t.open && NoLoose(t.h.chunks) && Shrinks(s.h.lists, t.h.lists)
    && t.fastbins == s.fastbins
  }

  lemma DoneIntro(s: Store, t: Store)
    requires Inv(t) && Quiet(s, t) && !t.open && NoLoose(t.h.chunks) && Shrinks(s.h.lists, t.h.lists)
    requires t.fastbins == s.fastbins
    ensures Done(s, t)
  {
  }

  lemma FrontNone(s: Store, p: Addr, size: nat)
    requires LooseOnly(s.h.chunks, p) && |s.h.lists| > 1
    ensures NoLoose(Fronted(FreeTags(s, p, size), p).h.chunks)
    ensures Fronted(FreeTags(s, p, size), p).fastbins == s.fastbins
  {
  }

  lemma UnsortedFirst(s: Store, p: Addr, size: nat)
    requires Inv(s) && !s.open && |s.h.lists| > 1
    ensures Node(1, s.h.lists[1], 0) == BinAt(1) && Node(1, s.h.lists[1], 1) == Fd(s.m, BinAt(1))
  {
    FrontLinks(s);
  }

  lemma SpareSize(s: Store, p: Addr)
    requires Inv(s) && Spare(s, p) && p in s.h.chunks
    ensures p >= LOW && s.h.chunks[p].size >= 16
  {
    assert Shaped(p, s.h.chunks[p]);
  }

  lemma LowWord(m: Words, p: Addr, size: nat, w: int)
    requires p >= LOW && w < LOW
    ensures m[p + 4 := size + 1][p + size := size][w] == m[w]
  {
  }

  lemma BinLow()
    ensures BinAt(1) + 8 < LOW
  {
  }

  /** A chunk in hand goes to the front of the unsorted bin. */
  lemma Bin(s: Store, t: Store, p: Addr, size: nat) returns (u: Store)
    requires Ready(s, t, p, size)
    ensures u.m == Binning(t.m, p, size) && Done(s, u) && u.h.top == s.h.top
    ensures p in t.h.chunks && 1 < |t.h.lists| && u.h == LinkHeap(t.h, 1, 0, p) && Eaten(s.h, t.h, p, p + size)
  {
    hide *;
    ReadyParts(s, t, p, size);
    InvParts(t);
    ListCount();
    SpareSize(t, p);
    FrontStep(t, p, size);
    u := Fronted(FreeTags(t, p, size), p);
    UnsortedFirst(t, p, size);
    BinLow();
    FreeTagsIs(t, p, size);
    LowWord(t.m, p, size, BinAt(1) + 8);
    FdOf(t.m, BinAt(1));
    FdOf(FreeTags(t, p, size).m, BinAt(1));
    BinningIs(t, p, size);
    FrontNone(t, p, size);
    FrontHeap(t, p, size);
    FrontShrinks(t, p, size);
    ShrinksThen(s.h.lists, t.h.lists, u.h.lists);
    QuietThen(s, t, u);
    DoneIntro(s, u);
  }

  lemma FrontHeap(s: Store, p: Addr, size: nat)
    requires p in s.h.chunks && |s.h.lists| > 1
    ensures Fronted(FreeTags(s, p, size), p).h == LinkHeap(s.h, 1, 0, p)
  {
  }

  lemma FdOf(m: Words, p: Addr)
    ensures Fd(m, p) == m[p + 8]
  {
  }

  /** A chunk in hand below top becomes part of top. */
  lemma IntoTop(s: Store, p: Addr, size: nat) returns (u: Store)
    requires InHand(s, p, size) && s.h.top == Some(p + size)
    ensures u.m == Poke(s.m, p + 4, size + SizeOf(Head(s.m, p + size)) + 1)
    ensures Done(s, u) && u.h.top == Some(p)
    ensures p in s.h.chunks && End(s.h.chunks, p) in s.h.chunks && u.h == MergeTop(s.h, p)
  {
    hide *;
    InHandParts(s, p, size);
    InvParts(s);
    var e := p + size;
    NextOf(s, p, e);
    TagOf(s.m, s.h.chunks, s.h.starts, e);
    ShapeOf(s.h.chunks, e);
    ShapedParts(e, s.h.chunks[e]);
    TopSize(s.m, e, s.h.chunks[e]);
    TopStep(s, p, size + s.h.chunks[e].size);
    u := Topped(s, p, size + s.h.chunks[e].size);
    ToppedIs(s, p, size + s.h.chunks[e].size);
    TopNone(s.h.chunks, p);
    MergeTopIs(s.h, p);
    ShrinksSame(s.h.lists);
    ToppedSame(s, p, size + s.h.chunks[e].size);
    DoneIntro(s, u);
  }

  lemma TopSize(m: Words, e: Addr, c: Chunk)
    requires Tagged(m, e, c) && c.state == Top && c.size % 4 == 0
    ensures SizeOf(Head(m, e)) == c.size
  {
    HeadBits(Head(m, e), c.size);
  }

  lemma MergeTopIs(h: Heap, p: Addr)
    requires p in h.chunks && End(h.chunks, p) in h.chunks
    ensures MergeTop(h, p).chunks == Merge(h.chunks, p, Top)
  {
  }

  lemma ToppedSame(s: Store, p: Addr, size: nat)
    ensures Topped(s, p, size).fastbins == s.fastbins
  {
  }

  lemma ClearedIs(m: Words, e: Addr, size: int)
    ensures var nextsize := SizeOf(Head(m, e));
            Cleared(m, e) == (if PrevInuse(m[e + nextsize + 4]) then Poke(m, e + 4, nextsize) else Unlinked(Poke(m, e + 4, nextsize), e))
            && ClearedSize(m, e, size) == (if PrevInuse(m[e + nextsize + 4]) then size else size + nextsize)
  {
  }

  lemma ReadyNat(s: Store, t: Store, p: Addr, size: int)
    requires Ready(s, t, p, size)
    ensures size >= 0
  {
  }

  lemma BinningWords(m: Words, p: Addr, size: int)
    ensures var n := Poke(Poke(m, p + 4, size + 1), p + size, size);
            Binning(m, p, size)
            == Poke(Poke(Poke(Poke(n, p + 12, BinAt(1)), p + 8, Fd(n, BinAt(1))), Fd(n, BinAt(1)) + 12, p), BinAt(1) + 8, p)
  {
  }

  lemma DoneOpen(s: Store, t: Store)
    requires Done(s, t)
    ensures !t.open && t.fastbins == s.fastbins && Inv(t) && NoLoose(t.h.chunks) && Quiet(s, t)
    ensures Shrinks(s.h.lists, t.h.lists)
  {
  }

  /** A release after the chunk was joined backward. */
  lemma DoneAfter(s: Store, t: Store, u: Store)
    requires Quiet(s, t) && Shrinks(s.h.lists, t.h.lists) && t.fastbins == s.fastbins && Done(t, u)
    ensures Done(s, u)
  {
    hide *;
    DoneOpen(t, u);
    QuietThen(s, t, u);
    ShrinksThen(s.h.lists, t.h.lists, u.h.lists);
    DoneIntro(s, u);
  }

  lemma WentBackParts(s: Store, t: Store, p: Addr, b: Addr)
    requires WentBack(s, t, p, b)
    ensures p in s.h.chunks && Quiet(s, t) && Shrinks(s.h.lists, t.h.lists)
    ensures t.fastbins == s.fastbins && t.h.top == s.h.top && InHand(t, b, p + s.h.chunks[p].size - b)
    ensures Head(t.m, p + s.h.chunks[p].size) == Head(s.m, p + s.h.chunks[p].size)
    ensures p + s.h.chunks[p].size - b >= 0 && Slid(s.h, t.h, p, b)
    ensures PrevInuse(Head(s.m, p)) ==> b == p && t.m == s.m
    ensures !PrevInuse(Head(s.m, p)) ==> PrevSize(s.m, p) == p - b && t.m == Unlinked(s.m, b)
  {
  }

  // ----- emptying a fastbin -----

  /** Every list but the unsorted one and the f-th fastbin holds no more than it did. */
  ghost predicate ShrinksBut(ls: seq<seq<Addr>>, ls': seq<seq<Addr>>, f: nat) {
    && |ls'| == |ls| == LISTS
    && (forall i | 2 <= i < LISTS && ls'[i] != [] :: ls[i] != [])
    && (forall i | NBINS <= i < LISTS && i != NBINS + f :: ls'[i] == ls[i])
  }

  ghost predicate Draining(s: Store, t: Store, f: nat) {
    && f < NFASTBINS && Inv(t) && Quiet(s, t) && !t.open && NoLoose(t.h.chunks) && ShrinksBut(s.h.lists, t.h.lists, f)
    && |s.fastbins| == NFASTBINS && |t.fastbins| == NFASTBINS && t.fastbins == s.fastbins[f := t.fastbins[f]]
  }

  ghost predicate Drained(s: Store, t: Store, f: nat) {
    Draining(s, t, f) && t.h.lists[NBINS + f] == []
  }

  lemma DrainStart(s: Store, f: nat)
    requires Inv(s) && !s.open && NoLoose(s.h.chunks) && f < NFASTBINS
    ensures Draining(s, s, f)
  {
    QuietSame(s);
  }

  lemma DrainingParts(s: Store, t: Store, f: nat)
    requires Draining(s, t, f)
    ensures f < NFASTBINS && Inv(t) && Quiet(s, t) && !t.open && NoLoose(t.h.chunks) && ShrinksBut(s.h.lists, t.h.lists, f)
    ensures |s.fastbins| == NFASTBINS && |t.fastbins| == NFASTBINS && t.fastbins == s.fastbins[f := t.fastbins[f]]
    ensures |t.h.lists| == LISTS && LISTS == NBINS + NFASTBINS && NBINS == 128 && NFASTBINS == 10
  {
  }

  lemma HeadOfFast(s: Store, f: nat)
    requires Inv(s) && f < NFASTBINS
    ensures |s.fastbins| == NFASTBINS && |s.h.lists| == LISTS
    ensures s.fastbins[f] == Next(s.h.lists[NBINS + f], 0)
    ensures s.fastbins[f] != 0 <==> s.h.lists[NBINS + f] != []
  {
    assert Chained(s.m, s.fastbins[f], s.h.lists[NBINS + f]);
    if s.h.lists[NBINS + f] != [] {
      assert ListOk(s.h.chunks, NBINS + f, s.h.lists[NBINS + f]);
      assert Shaped(s.h.lists[NBINS + f][0], s.h.chunks[s.h.lists[NBINS + f][0]]);
    }
  }

  /** What is known once the first chunk of the fastbin is in hand. */
  ghost predicate DrainHand(s: Store, t: Store, u: Store, f: nat, p: Addr) {
    && Inv(u) && Quiet(s, u) && !u.open && LooseOnly(u.h.chunks, p) && u.h.chunks[p].size == SizeOf(Head(t.m, p))
    && u.m == t.m && u.h.top == t.h.top && p in t.h.chunks && p in u.h.chunks
    && ShrinksBut(s.h.lists, u.h.lists, f) && f < NFASTBINS && |t.h.lists| == LISTS
    && t.h.lists[NBINS + f] != [] && t.h.lists[NBINS + f][0] == p && t.fastbins[..] == t.fastbins
    && |u.fastbins| == NFASTBINS && |s.fastbins| == NFASTBINS && u.fastbins == s.fastbins[f := u.fastbins[f]]
    && u.fastbins[f] == Fd(t.m, p)
    && |u.h.lists[NBINS + f]| == |t.h.lists[NBINS + f]| - 1
  }

  lemma FastSize(s: Store, v: Addr, f: nat)
    requires v in s.h.chunks && Tagged(s.m, v, Chunk(s.h.chunks[v].size, Used)) && Inv(s)
    ensures SizeOf(Head(s.m, v)) == s.h.chunks[v].size
  {
    hide *;
    InvParts(s);
    ShapeOf(s.h.chunks, v);
    EightFours(s.h.chunks[v].size);
    UsedHead(s.m, v, s.h.chunks[v].size);
    HeadBits(Head(s.m, v), s.h.chunks[v].size);
  }

  lemma UsedHead(m: Words, v: Addr, size: nat)
    requires Tagged(m, v, Chunk(size, Used))
    ensures HeadIs(Head(m, v), size)
  {
  }

  /** The first chunk of the fastbin is taken in hand. */
  lemma DrainOne(s: Store, t: Store, f: nat) returns (u: Store)
    requires Draining(s, t, f) && t.fastbins[f] != 0
    ensures DrainHand(s, t, u, f, t.fastbins[f]) && OffFast(t.h, u.h, f, t.fastbins[f])
  {
    hide *;
    DrainingParts(s, t, f);
    HeadOfFast(t, f);
    var v := PopStep(t, f);
    InFrontParts(t, f, v);
    PoppedIs(t, f);
    u := Popped(t, f);
    QuietThen(s, t, u);
    LoosenOnly(t.h.chunks, v, Loose);
    FastSize(t, v, f);
    PopShrinks(s.h.lists, t.h.lists, u.h.lists, f);
    SetChunkParts(t.h.chunks, v);
    DrainHandIntro(s, t, u, f, v);
    OffFastIntro(t.h, u.h, f, v);
  }

  lemma OffFastIntro(h: Heap, u: Heap, f: nat, p: Addr)
    requires |h.lists| == LISTS && f < NFASTBINS && h.lists[NBINS + f] != [] && h.lists[NBINS + f][0] == p && p in h.chunks
    requires u == UnlinkHeap(h, NBINS + f, 0)
    ensures OffFast(h, u, f, p)
  {
  }

  lemma SetChunkParts(chunks: Chunks, v: Addr)
    requires v in chunks
    ensures v in Set(chunks, v, Loose) && Set(chunks, v, Loose)[v].size == chunks[v].size
  {
  }

  lemma PopShrinks(a: seq<seq<Addr>>, b: seq<seq<Addr>>, c: seq<seq<Addr>>, f: nat)
    requires ShrinksBut(a, b, f) && f < NFASTBINS && b[NBINS + f] != [] && c == b[NBINS + f := RemoveAt(b[NBINS + f], 0)]
    ensures ShrinksBut(a, c, f) && |c[NBINS + f]| == |b[NBINS + f]| - 1
  {
  }

  lemma DrainHandIntro(s: Store, t: Store, u: Store, f: nat, p: Addr)
    requires Draining(s, t, f) && Inv(u) && Quiet(s, u) && !u.open && LooseOnly(u.h.chunks, p)
    requires p in u.h.chunks && u.h.chunks[p].size == SizeOf(Head(t.m, p))
    requires u.m == t.m && u.h.top == t.h.top && p in t.h.chunks && ShrinksBut(s.h.lists, u.h.lists, f)
    requires |t.h.lists| == LISTS && f < NFASTBINS && t.h.lists[NBINS + f] != [] && t.h.lists[NBINS + f][0] == p
    requires |t.fastbins| == NFASTBINS && u.fastbins == t.fastbins[f := Next(t.h.lists[NBINS + f], 1)]
    requires Fd(t.m, p) == Next(t.h.lists[NBINS + f], 1)
    requires |u.h.lists[NBINS + f]| == |t.h.lists[NBINS + f]| - 1
    ensures DrainHand(s, t, u, f, p)
  {
    hide Inv, Quiet, LooseOnly, NoLoose;
  }

  lemma DrainHandParts(s: Store, t: Store, u: Store, f: nat, p: Addr)
    requires DrainHand(s, t, u, f, p)
    ensures u == Store(t.m, u.h, u.fastbins, false) && u.h.top == t.h.top
    ensures Inv(u) && LooseOnly(u.h.chunks, p) && p in u.h.chunks && u.h.chunks[p].size == SizeOf(Head(t.m, p))
    ensures |s.fastbins| == NFASTBINS && f < NFASTBINS && |u.fastbins| == NFASTBINS
    ensures Fd(t.m, p) >= 0 && u.fastbins == s.fastbins[f := Fd(t.m, p)]
    ensures |u.h.lists| == |t.h.lists| == NBINS + NFASTBINS && |u.h.lists[NBINS + f]| == |t.h.lists[NBINS + f]| - 1
  {
  }

  lemma DrainMore(s: Store, t: Store, u: Store, v: Store, f: nat, p: Addr)
    requires DrainHand(s, t, u, f, p) && Done(u, v)
    ensures Draining(s, v, f) && |v.h.lists| == NBINS + NFASTBINS && |v.h.lists[NBINS + f]| == |t.h.lists[NBINS + f]| - 1
  {
    hide *;
    DoneOpen(u, v);
    DrainHandParts(s, t, u, f, p);
    DrainHandMore(s, t, u, f, p);
    QuietThen(s, u, v);
    ShrinksButThen(s.h.lists, u.h.lists, v.h.lists, f);
    DrainingIntro(s, v, f);
  }

  lemma DrainHandMore(s: Store, t: Store, u: Store, f: nat, p: Addr)
    requires DrainHand(s, t, u, f, p)
    ensures Quiet(s, u) && ShrinksBut(s.h.lists, u.h.lists, f) && NFASTBINS == 10 && LISTS == NBINS + NFASTBINS
    ensures u.fastbins == s.fastbins[f := u.fastbins[f]]
  {
  }

  lemma ShrinksButThen(a: seq<seq<Addr>>, b: seq<seq<Addr>>, c: seq<seq<Addr>>, f: nat)
    requires ShrinksBut(a, b, f) && Shrinks(b, c) && f < NFASTBINS
    ensures ShrinksBut(a, c, f) && |c| == |b| == LISTS && c[NBINS + f] == b[NBINS + f]
  {
  }

  lemma DrainingIntro(s: Store, t: Store, f: nat)
    requires f < NFASTBINS && Inv(t) && Quiet(s, t) && !t.open && NoLoose(t.h.chunks) && ShrinksBut(s.h.lists, t.h.lists, f)
    requires |s.fastbins| == NFASTBINS && |t.fastbins| == NFASTBINS && t.fastbins == s.fastbins[f := t.fastbins[f]]
    ensures Draining(s, t, f)
  {
  }

  lemma DrainEnd(s: Store, t: Store, f: nat)
    requires Draining(s, t, f) && t.fastbins[f] == 0
    ensures Drained(s, t, f) && |s.h.lists| == |t.h.lists| == LISTS && NBINS + f < LISTS && t.h.lists[NBINS + f] == []
  {
    HeadOfFast(t, f);
  }

  // ----- emptying all fastbins -----

  /** The fastbins below f are empty, the others as they were. */
  ghost predicate Swept(s: Store, t: Store, f: nat) {
    && Inv(t) && Quiet(s, t) && !t.open && NoLoose(t.h.chunks) && |s.h.lists| == |t.h.lists| == LISTS
    && (forall i | 2 <= i < NBINS && t.h.lists[i] != [] :: s.h.lists[i] != [])
    && (forall i | NBINS <= i < NBINS + f && i < LISTS :: t.h.lists[i] == [])
  }

  lemma SweepStart(s: Store)
    requires Inv(s) && !s.open && NoLoose(s.h.chunks)
    ensures Swept(s, s, 0)
  {
    QuietSame(s);
  }

  lemma SweptParts(s: Store, t: Store, f: nat)
    requires Swept(s, t, f)
    ensures Inv(t) && NoLoose(t.h.chunks) && NFASTBINS == 10
  {
  }

  lemma SweepMore(s: Store, t: Store, u: Store, f: nat)
    requires Swept(s, t, f) && Drained(t, u, f)
    ensures Swept(s, u, f + 1)
  {
    hide Inv, NoLoose, Quiet;
    QuietThen(s, t, u);
  }
}
