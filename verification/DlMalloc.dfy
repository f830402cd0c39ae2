/** The boundary-tag allocator: its state and its operations on memory words. */
module DlMalloc {
  import opened DlSizes
  import opened DlHeap
  import opened DlTags
  import opened DlLinks
  import opened DlSteps
  import opened DlMoves
  import opened DlCollect
  import opened DlCoalesce
  import opened DlRelease
  import opened DlTake
  import opened DlSystem
  import opened DlBreak
  import opened DlSpace
  import opened DlChoice
  import SegregatedFits

  /** A bin that holds chunks has its bit set. */
  ghost predicate BinsMapped(binmap: seq<bv32>, lists: seq<seq<Addr>>) {
    |binmap| == 4 && |lists| == LISTS
    && forall i: nat | 2 <= i < NBINS && lists[i] != [] :: SegregatedFits.Flag(binmap, i)
  }

  lemma MappedShrinks(binmap: seq<bv32>, ls: seq<seq<Addr>>, ls': seq<seq<Addr>>)
    requires BinsMapped(binmap, ls) && Shrinks(ls, ls')
    ensures BinsMapped(binmap, ls')
  {
  }

  lemma EmptyShrinks(ls: seq<seq<Addr>>, ls': seq<seq<Addr>>)
    requires FastEmpty(ls) && Shrinks(ls, ls')
    ensures FastEmpty(ls')
  {
  }

  /** av->top, while there is no top chunk, is the header of the unsorted bin. */
  ghost predicate TopField(top: Addr, h: Heap) {
    top == if h.top.Some? then h.top.value else BinAt(1)
  }

  /** The words represent a well-formed heap with no chunk in the allocator's hands, and the
      other fields agree with it. */
  ghost predicate Sound(s: Store, top: Addr, maxFast: nat, fastChunks: bool, binmap: seq<bv32>) {
    && Inv(s) && !s.open && NoLoose(s.h.chunks) && TopField(top, s.h) && maxFast == DEFAULT_MAX_FAST
    && BinsMapped(binmap, s.h.lists) && (!fastChunks ==> FastEmpty(s.h.lists))
  }

  lemma SoundParts(s: Store, top: Addr, maxFast: nat, fastChunks: bool, binmap: seq<bv32>)
    requires Sound(s, top, maxFast, fastChunks, binmap)
    ensures Inv(s) && !s.open && NoLoose(s.h.chunks) && TopField(top, s.h) && maxFast == DEFAULT_MAX_FAST
    ensures BinsMapped(binmap, s.h.lists) && (!fastChunks ==> FastEmpty(s.h.lists))
    ensures |s.h.lists| == LISTS && LISTS == NBINS + NFASTBINS && NBINS == 128
  {
  }

  lemma SoundIntro(s: Store, top: Addr, maxFast: nat, fastChunks: bool, binmap: seq<bv32>)
    requires Inv(s) && !s.open && NoLoose(s.h.chunks) && TopField(top, s.h) && maxFast == DEFAULT_MAX_FAST
    requires BinsMapped(binmap, s.h.lists) && (!fastChunks ==> FastEmpty(s.h.lists))
    ensures Sound(s, top, maxFast, fastChunks, binmap)
  {
  }

  /** The bytes obtained, as they are counted, are the bytes of all chunks and those skipped,
      less those that were given unasked; chunks lie where memory was obtained.  In the steady
      case nothing was skipped, given unasked or fenced off, and the chunks fill one stretch
      of memory up to the break. */
  ghost predicate Books(chunks: Chunks, sbrked: int, lost: int, brk: Addr, mapFloor: Addr, steady: bool) {
    && sbrked == Total(chunks) + lost && LOW <= brk <= mapFloor && Owned(chunks, brk, mapFloor)
    && (steady ==> lost == 0 && Compact(chunks, brk))
  }

  lemma BooksParts(chunks: Chunks, sbrked: int, lost: int, brk: Addr, mapFloor: Addr, steady: bool)
    requires Books(chunks, sbrked, lost, brk, mapFloor, steady)
    ensures sbrked == Total(chunks) + lost && LOW <= brk <= mapFloor && Owned(chunks, brk, mapFloor)
    ensures steady ==> lost == 0 && Compact(chunks, brk)
  {
  }

  lemma BooksIntro(chunks: Chunks, sbrked: int, lost: int, brk: Addr, mapFloor: Addr, steady: bool)
    requires sbrked == Total(chunks) + lost && LOW <= brk <= mapFloor && Owned(chunks, brk, mapFloor)
    requires steady ==> lost == 0 && Compact(chunks, brk)
    ensures Books(chunks, sbrked, lost, brk, mapFloor, steady)
  {
  }

  lemma BooksKept(chunks: Chunks, cs: Chunks, sbrked: int, lost: int, brk: Addr, mapFloor: Addr, steady: bool)
    requires Books(chunks, sbrked, lost, brk, mapFloor, steady) && SameSpace(chunks, cs)
    ensures Books(cs, sbrked, lost, brk, mapFloor, steady)
  {
    OwnedSpace(chunks, cs, brk, mapFloor);
    if steady { CompactSpace(chunks, cs, brk); }
  }

  /** Memory at b was obtained, but no chunk has it yet; in the steady case it starts where
      the chunks end. */
  ghost predicate Pending(steady: bool, chunks: Chunks, lost: int, b: Addr, size: nat, mapped: bool, brk: Addr) {
    steady ==> !mapped && lost == 0 && Compact(chunks, b) && b % 8 == 0 && b + size == brk
  }

  lemma PendingParts(steady: bool, chunks: Chunks, lost: int, b: Addr, size: nat, mapped: bool, brk: Addr)
    requires Pending(steady, chunks, lost, b, size, mapped, brk) && steady
    ensures !mapped && lost == 0 && Compact(chunks, b) && b % 8 == 0 && b + size == brk
  {
  }

  lemma PendingIntro(steady: bool, chunks: Chunks, lost: int, b: Addr, size: nat, mapped: bool, brk: Addr)
    requires steady ==> !mapped && lost == 0 && Compact(chunks, b) && b % 8 == 0 && b + size == brk
    ensures Pending(steady, chunks, lost, b, size, mapped, brk)
  {
  }

  /** The part of it that becomes the first top; `odd` bytes are counted but not part of it. */
  ghost predicate PendingTop(steady: bool, chunks: Chunks, lost: int, odd: int, a: Addr, n: nat, brk: Addr) {
    steady ==> lost == 0 && odd == 0 && chunks == map[] && a + n == brk
  }

  lemma PendingTopParts(steady: bool, chunks: Chunks, lost: int, odd: int, a: Addr, n: nat, brk: Addr)
    requires PendingTop(steady, chunks, lost, odd, a, n, brk)
    ensures steady ==> lost == 0 && odd == 0 && chunks == map[] && a + n == brk
  {
  }

  lemma PendingTopIntro(steady: bool, chunks: Chunks, lost: int, odd: int, a: Addr, n: nat, brk: Addr)
    requires steady ==> lost == 0 && odd == 0 && chunks == map[] && a + n == brk
    ensures PendingTop(steady, chunks, lost, odd, a, n, brk)
  {
  }

  // ----- what is asked of the system -----

  ghost function TopLimit(h: Heap): Addr {
    if h.top.Some? then h.top.value + TopWidth(h) else BinAt(1)
  }

  /** The heap with a top of w bytes. */
  ghost function Narrowed(h: Heap, w: nat): Heap {
    if h.top.Some? && h.top.value in h.chunks then h.(chunks := h.chunks[h.top.value := Chunk(w, Top)]) else h
  }

  lemma NarrowSame(s: Store)
    requires Inv(s)
    ensures Narrowed(s.h, TopWidth(s.h)) == s.h
  {
    if s.h.top.Some? { TopFacts(s); }
    hide Inv;
  }

  /** How a release of a large chunk ends, once the chunk has been joined with its neighbours
      to one of the given size, in heap u: if that is large, all fastbins are merged, and then
      top is trimmed if it has become very large. */
  ghost predicate Followed(u: Heap, pending: bool, y: Sys, size: int, g: Heap, pending': bool, y': Sys) {
    if size < LARGE_RELEASE then g == u && pending' == pending && y' == y
    else !pending' && FastEmpty(g.lists) && exists c :: AllJoined(u, pending, c) && Trimmed(c, y, g, y')
  }

  /** Everything is merged; where nothing was pending, nothing changes. */
  ghost predicate AllJoined(u: Heap, pending: bool, c: Heap) {
    WellFormed(c) && SameGround(u, c) && Merged(c.chunks) && if pending then Poured(u, c) else c == u
  }

  ghost predicate Trimmed(c: Heap, y: Sys, g: Heap, y': Sys) {
    && g == Narrowed(c, TopWidth(g)) && y'.floor == y.floor
    && if TopWidth(c) < DEFAULT_TRIM_THRESHOLD then g == c && y' == y
       else var less := TrimmedBy(y, TopLimit(c), TopWidth(c));
            && TopWidth(g) == TopWidth(c) - less && y'.brk == y.brk - less
            && y'.replies == if TrimExtra(TopWidth(c)) > 0 && y.brk == TopLimit(c) then Later(y).replies else y.replies
  }

  /** What free does to the heap, when fastbin chunks may be pending and the system is y. */
  ghost predicate GivenUp(h: Heap, pending: bool, y: Sys, p: Addr, g: Heap, pending': bool, y': Sys) {
    && p in h.chunks
    && if h.chunks[p].size <= DEFAULT_MAX_FAST then Shelved(h, g, p) && pending' && y' == y
       else exists u: Heap, lo: Addr, hi: Addr ::
              Collected(h, u, p, lo, hi) && Followed(u, pending, y, hi - lo, g, pending', y')
  }

  /** What the system deals out when nb bytes are needed in addition to the heap. */
  ghost function Asked(y: Sys, contiguous: bool, h: Heap, nb: nat): Deal {
    Dealt(y, contiguous, TopLimit(h), TopWidth(h), nb)
  }

  /** The heap g has the top that was dealt: that of h, grown, or a new one. */
  ghost predicate Crowned(h: Heap, d: Deal, g: Heap) {
    match d
    case Nothing => false
    case Grows(size) => h.top.Some? && g.top == h.top && TopWidth(g) == size
    case Anew(start, _, left) => g.top == Some(start) && TopWidth(g) == left
  }

  /** The front of that top has been handed out. */
  ghost predicate FromDeal(h: Heap, d: Deal, p: Addr, nb: nat, g: Heap) {
    g.top == Some(p + nb)
    && match d
       case Nothing => false
       case Grows(size) => h.top == Some(p) && TopWidth(g) == size - nb
       case Anew(start, _, left) => p == start && TopWidth(g) == left - nb
  }

  lemma CrownedServes(h: Heap, d: Deal, t: Heap, p: Addr, nb: nat, g: Heap)
    requires Crowned(h, d, t) && OffTop(t, g, p, nb) && nb > 0
    ensures FromDeal(h, d, p, nb, g)
  {
  }

  lemma CrownedEnough(h: Heap, d: Deal, t: Heap, nb: nat)
    requires Crowned(h, d, t)
    ensures Delivers(d, nb) <==> TopWidth(t) >= nb + MINSIZE
    ensures d.Grows? ==> Lined(d)
  {
    hide TopWidth;
  }

  lemma CrownedAnew(h: Heap, d: Deal, g: Heap)
    requires d.Anew? && g.top == Some(d.start) && TopWidth(g) == d.left
    ensures Crowned(h, d, g)
  {
    hide TopWidth;
  }

  lemma CrownedGrown(h: Heap, g: Heap, size: nat)
    requires h.top.Some? && g.top == h.top && TopWidth(g) == size
    ensures Crowned(h, Grows(size), g)
  {
    hide TopWidth;
  }

  lemma FromDealSame(h: Heap, d: Deal, p: Addr, nb: nat, g: Heap, k: Heap)
    requires FromDeal(h, d, p, nb, g) && k.top == h.top
    ensures FromDeal(k, d, p, nb, g)
  {
    hide TopWidth;
  }

  /** Top, if there is one, lies or ends off the alignment. */
  predicate Crooked(m: Words, top: Addr) {
    top >= LOW && (top % 8 != 0 || SizeOf(Head(m, top)) % 8 != 0)
  }

  /** Words with a crooked top represent no heap at all. */
  lemma CrookedIsBroken(s: Store, top: Addr, maxFast: nat, fastChunks: bool, binmap: seq<bv32>)
    requires Crooked(s.m, top)
    ensures !Sound(s, top, maxFast, fastChunks, binmap)
  {
    if Sound(s, top, maxFast, fastChunks, binmap) {
      SoundParts(s, top, maxFast, fastChunks, binmap);
      hide Sound, Inv, NoLoose;
      TopWord(s, top);
      TopShape(s, top);
      if s.h.top.Some? { TopAligned(s, top); }
    }
  }

  lemma TopAligned(s: Store, top: Addr)
    requires Inv(s) && s.h.top == Some(top) && top in s.h.chunks
    ensures top % 8 == 0 && s.h.chunks[top].size % 8 == 0
  {
    assert Shaped(top, s.h.chunks[top]);
  }

  /** A chunk in hand that has no free neighbour and does not end at top, as its words say. */
  ghost predicate Walled(m: Words, p: Addr, size: nat, top: Addr) {
    PrevInuse(Head(m, p)) && p + size != top && PrevInuse(m[p + size + SizeOf(Head(m, p + size)) + 4])
  }

  lemma WalledIs(m: Words, p: Addr, size: nat, top: Addr)
    ensures Walled(m, p, size, top) <==>
      PrevInuse(Head(m, p)) && p + size != top && PrevInuse(m[p + size + SizeOf(Head(m, p + size)) + 4])
  {
    hide PrevInuse, SizeOf;
  }

  /** malloc_state, with the memory it manages.  The ghost heap is what the words mean. */
  class Arena {
    var words: Words
    var top: Addr
    var lastRemainder: Addr
    var maxFast: nat            // without its flag bits; 0 before initialisation
    var fastChunks: bool        // have_fastchunks
    var fastbins: seq<Addr>
    var binmap: seq<bv32>
    var contiguous: bool        // MORECORE is taken to return contiguous regions
    var sbrkedMem: int          // bytes obtained, as the statistics count them
    var brk: Addr               // the system: end of the sbrk area, lowest mapped address,
    var mapFloor: Addr          // and what it will answer
    var replies: seq<Reply>
    ghost var h: Heap
    ghost var lost: int         // bytes skipped to align regions, less bytes given unasked
    ghost const tidy: bool      // whether the system deals only in multiples of the alignment
    ghost const steady: bool    // whether it only ever grants what was asked for at the break

    /** A zero-filled malloc_state and no chunks. */
    constructor (m: Words, brk: Addr, mapFloor: Addr, replies: seq<Reply>)
      requires (forall w: int | 0 <= w < LOW :: m[w] == 0) && LOW <= brk <= mapFloor && brk % 4 == 0
      ensures Blank() && Accounted() && System() == Sys(brk, mapFloor, replies) && contiguous && words == m
      ensures (tidy <==> Tidy(System())) && (steady <==> Even(System()))
    {
      tidy, steady := Tidy(Sys(brk, mapFloor, replies)), Even(Sys(brk, mapFloor, replies));
      contiguous, sbrkedMem, lost := true, 0, 0;
      this.brk, this.mapFloor, this.replies := brk, mapFloor, replies;
      words, top, lastRemainder, maxFast, fastChunks := m, 0, 0, 0, true;
      fastbins := seq(NFASTBINS, _ => 0);
      binmap := [0, 0, 0, 0];
      h := Heap(map[], {}, None, seq(LISTS, _ => []));
      new;
      NothingOwned(brk, mapFloor);
    }

    ghost predicate Blank()
      reads this
    {
      && (forall w: int | 0 <= w < LOW :: words[w] == 0)
      && top == 0 && maxFast == 0 && fastChunks && fastbins == seq(NFASTBINS, _ => 0) && binmap == [0, 0, 0, 0]
      && h == Heap(map[], {}, None, seq(LISTS, _ => []))
    }

    function System(): Sys
      reads this
    {
      Sys(brk, mapFloor, replies)
    }

    /** Bytes obtained are the bytes of all chunks and those skipped; chunks lie in memory
        that the system has given. */
    ghost predicate Accounted()
      reads this
    {
      Books(h.chunks, sbrkedMem, lost, brk, mapFloor, steady) && Orderly(steady, tidy, contiguous, System())
    }

    /** The system has given memory that top cannot be aligned with; see `SysMalloc`. */
    predicate Jammed()
      reads this
    {
      Crooked(words, top)
    }

    ghost predicate Valid()
      reads this
    {
      Sound(Store(words, h, fastbins, false), top, maxFast, fastChunks, binmap)
    }

    /** The chunk in hand is joined with a free next chunk and put in the unsorted bin. */
    method Enqueue(ghost t: Store, p: Addr, size0: nat) returns (size: int)
      requires words == t.m && InHand(t, p, size0) && t.h.top != Some(p + size0)
      modifies this`words, this`h
      ensures Done(t, Store(words, h, t.fastbins, false)) && h.top == t.h.top
      ensures size >= 0 && Fronts(t.h, h, p, p + size)
      ensures PrevInuse(old(words)[p + size0 + SizeOf(Head(old(words), p + size0)) + 4]) ==> size == size0
    {
      hide *;
      var m := words;
      var nextchunk := p + size0;
      var nextsize := SizeOf(Head(m, nextchunk));
      var nextinuse := PrevInuse(m[nextchunk + nextsize + 4]);
      ghost var u := Forward(t, p, size0);
      size := size0;
      m := Poke(m, nextchunk + 4, nextsize);
      if !nextinuse {
        m := Unlinked(m, nextchunk);
        size := size + nextsize;
      }
      ClearedIs(t.m, nextchunk, size0);
      ReadyNat(t, u, p, size);
      ghost var v := Bin(t, u, p, size);
      m := Poke(m, p + 4, size + 1);
      m := Poke(m, p + size, size);
      var bck := BinAt(1);
      var fwd := Fd(m, bck);
      m := Poke(m, p + 12, bck);
      m := Poke(m, p + 8, fwd);
      m := Poke(m, fwd + 12, p);
      m := Poke(m, bck + 8, p);
      BinningWords(u.m, p, size);
      DoneOpen(t, v);
      FrontsIntro(t.h, u.h, p, p + size);
      words, h := m, v.h;
    }

    /** The common part of free() and malloc_consolidate(): a chunk in the allocator's hands
        is joined with its free neighbours and goes to the front of the unsorted bin or to top.
        The stores of the original are made in an order that keeps tags ahead of links. */
    method Coalesce(p0: Addr, size0: nat, ghost fb: seq<Addr>) returns (size: int, ghost lo: Addr)
      requires Inv(Store(words, h, fb, false)) && LooseOnly(h.chunks, p0) && size0 == h.chunks[p0].size
      requires TopField(top, h)
      modifies this`words, this`top, this`h
      ensures Done(Store(old(words), old(h), fb, false), Store(words, h, fb, false)) && TopField(top, h)
      ensures Walled(old(words), p0, size0, old(top)) ==> size == size0 && h.top == old(h).top
      ensures size >= 0 && Collected(old(h), h, p0, lo, lo + size)
    {
      hide *;
      ghost var s := Store(words, h, fb, false);
      WalledIs(words, p0, size0, top);
      TopFieldIs(s, p0, top);
      ghost var t, b := Backward(s, p0);
      WentBackParts(s, t, p0, b);
      lo := b;
      var m := words;
      var p: Addr := p0;
      size := size0;
      var nextchunk := p + size0;
      if !PrevInuse(Head(m, p)) {
        var prevsize := PrevSize(m, p);
        size := size + prevsize;
        p := p - prevsize;
        m := Unlinked(m, p);
      }
      words := m;
      if nextchunk != top {
        size := Enqueue(t, p, size);
        WentToFront(s, t, Store(words, h, fb, false), p0, p, size, top);
      } else {
        ghost var u := WentToTop(s, t, p0, p, size, top);
        size := size + SizeOf(Head(words, nextchunk));
        words, top, h := Poke(words, p + 4, size + 1), p, u.h;
      }
    }

    /** One fastbin of malloc_consolidate(): each of its chunks is coalesced in turn. */
    method DrainFast(f: nat)
      requires Inv(Store(words, h, fastbins, false)) && NoLoose(h.chunks) && TopField(top, h) && f < NFASTBINS
      modifies this`words, this`top, this`h, this`fastbins
      ensures Drained(Store(old(words), old(h), old(fastbins), false), Store(words, h, fastbins, false), f)
      ensures TopField(top, h) && PouredBin(old(h), f, h)
    {
      hide *;
      ghost var s := Store(words, h, fastbins, false);
      DrainStart(s, f);
      DrainingParts(s, s, f);
      HeadOfFast(s, f);
      var p: Addr := fastbins[f];
      fastbins := fastbins[f := 0];
      ghost var n: nat := 0;
      PouredNone(h, f);
      while p != 0
        invariant |s.fastbins| == NFASTBINS && f < NFASTBINS && fastbins == s.fastbins[f := 0]
        invariant Draining(s, Store(words, h, s.fastbins[f := p], false), f) && TopField(top, h)
        invariant |s.h.lists| == |h.lists| == NBINS + NFASTBINS && PouredSome(s.h, f, n, h)
        invariant n + |h.lists[NBINS + f]| == |s.h.lists[NBINS + f]|
        decreases |h.lists[NBINS + f]|
      {
        ghost var t := Store(words, h, s.fastbins[f := p], false);
        ghost var u := DrainOne(s, t, f);
        DrainHandParts(s, t, u, f, p);
        var nextp: Addr := Fd(words, p);
        var size := SizeOf(Head(words, p));
        TopFieldKept(top, h, u.h);
        h := u.h;
        var merged, lo := Coalesce(p, size, u.fastbins);
        PouredOneIntro(t.h, u.h, f, p, lo, lo + merged, h);
        PouredNext(s.h, f, n, t.h, h);
        n := n + 1;
        DrainMore(s, t, u, Store(words, h, u.fastbins, false), f, p);
        p := nextp;
      }
      DrainEnd(s, Store(words, h, s.fastbins[f := 0], false), f);
      PouredWhole(s.h, f, n, h);
    }

    /** malloc_init_state(): circular links for all bins; top starts as the unsorted header. */
    method InitState()
      requires Blank()
      modifies this
      ensures lastRemainder == old(lastRemainder)
      ensures Valid() && !fastChunks && h == old(h) && FastEmpty(h.lists)
      ensures unchanged(`sbrkedMem, `lost, `brk, `mapFloor, `replies, `contiguous)
    {
      hide Sound, Inv, FastEmpty;
      words := CircularBins(words);
      maxFast, fastChunks := DEFAULT_MAX_FAST, false;
      top := BinAt(1);
      EmptySound(words, fastbins, h, binmap);
    }

    /** Establishes circular links for all bins. */
    static method CircularBins(m0: Words) returns (m: Words)
      requires m0[BinAt(0) + 12] == 0
      ensures m[BinAt(0) + 12] == 0
      ensures forall j: nat {:trigger BinAt(j)} | 1 <= j < NBINS :: m[BinAt(j) + 8] == BinAt(j) && m[BinAt(j) + 12] == BinAt(j)
    {
      m := m0;
      var i := 1;
      while i < NBINS
        invariant 1 <= i <= NBINS && m[BinAt(0) + 12] == 0
        invariant forall j: nat {:trigger BinAt(j)} | 1 <= j < i :: m[BinAt(j) + 8] == BinAt(j) && m[BinAt(j) + 12] == BinAt(j)
      {
        var bin := BinAt(i);
        m := m[bin + 8 := bin][bin + 12 := bin];
        i := i + 1;
      }
    }

    /** malloc_consolidate(): empties every fastbin, or initialises the state. */
    method Consolidate()
      requires Valid() || Blank()
      modifies this
      ensures lastRemainder == old(lastRemainder)
      ensures Valid() && !fastChunks && FastEmpty(h.lists)
      ensures old(maxFast) != 0 ==> Quiet(Store(old(words), old(h), old(fastbins), false), Store(words, h, fastbins, false))
      ensures old(maxFast) == 0 ==> h == old(h)
      ensures old(maxFast) != 0 ==> Poured(old(h), h)
      ensures unchanged(`sbrkedMem, `lost, `brk, `mapFloor, `replies, `contiguous)
      ensures |h.lists| == |old(h).lists| == LISTS
      ensures forall i | 2 <= i < NBINS && h.lists[i] != [] :: old(h).lists[i] != []
    {
      if maxFast != 0 {
        fastChunks := false;
        DrainAll();
      } else {
        InitState();
      }
    }

    method DrainAll()
      requires Inv(Store(words, h, fastbins, false)) && NoLoose(h.chunks) && TopField(top, h)
      requires maxFast == DEFAULT_MAX_FAST && BinsMapped(binmap, h.lists)
      modifies this`words, this`top, this`h, this`fastbins
      ensures Inv(Store(words, h, fastbins, false)) && NoLoose(h.chunks) && TopField(top, h)
      ensures Quiet(Store(old(words), old(h), old(fastbins), false), Store(words, h, fastbins, false))
      ensures BinsMapped(binmap, h.lists) && FastEmpty(h.lists) && Poured(old(h), h)
      ensures |h.lists| == |old(h).lists| == LISTS
      ensures forall i | 2 <= i < NBINS && h.lists[i] != [] :: old(h).lists[i] != []
    {
      var maxfb := maxFast / 8 - 2;
      hide *;
      ghost var s := Store(words, h, fastbins, false);
      SweepStart(s);
      PouredBinsNone(h);
      var fb := 0;
      while fb <= maxfb
        invariant fb <= maxfb + 1 && maxfb == 7
        invariant Swept(s, Store(words, h, fastbins, false), fb) && TopField(top, h) && PouredBins(s.h, fb, h)
      {
        SweptParts(s, Store(words, h, fastbins, false), fb);
        ghost var t := Store(words, h, fastbins, false);
        DrainFast(fb);
        PouredBinsNext(s.h, fb, t.h, h);
        SweepMore(s, t, Store(words, h, fastbins, false), fb);
        fb := fb + 1;
      }
      SweepEnd(s, Store(words, h, fastbins, false), binmap);
      PouredAll(s.h, h);
    }

    // ----- free -----

    /** The body of free(): a chunk that is in the allocator's hands, still tagged as in use,
        goes to a fastbin, or is coalesced; a large release may consolidate and trim. */
    method Release(p: Addr, size: nat)
      requires Released(Store(words, h, fastbins, false), p, size) && TopField(top, h) && maxFast == DEFAULT_MAX_FAST
      requires BinsMapped(binmap, h.lists) && (!fastChunks ==> FastEmpty(h.lists)) && Accounted()
      modifies this
      ensures lastRemainder == old(lastRemainder)
      ensures Valid() && Accounted() && Calm(Store(old(words), old(h), old(fastbins), false), Store(words, h, fastbins, false))
      ensures contiguous == old(contiguous) && mapFloor == old(mapFloor)
      ensures GivenUp(old(h), old(fastChunks), old(System()), p, h, fastChunks, System())
      ensures !old(fastChunks) && Walled(old(words), p, size, old(top)) ==>
        h.top == old(h).top
        && TopWidth(h) == TopLeft(old(System()), TopLimit(old(h)), TopWidth(old(h)), size + MINSIZE)
    {
      hide *;
      ghost var s := Store(words, h, fastbins, false);
      ghost var y, pending := System(), fastChunks;
      ReleasedParts(s, p, size);
      TopLeftIs(y, TopLimit(h), TopWidth(h), size + MINSIZE);
      TopLeftIs(y, TopLimit(h), TopWidth(h), LARGE_RELEASE + MINSIZE);
      LimitsAre();
      if size <= maxFast {
        AccountedIs();
        SystemIs();
        fastChunks := true;
        SystemIs();
        AccountedIs();
        PutFast(p, size);
        SystemIs();
        ShelvedGiven(s.h, pending, y, p, h);
      } else {
        AccountedIs();
        var merged, lo := Coalesce(p, size, fastbins);
        ghost var t := Store(words, h, fastbins, false);
        DoneSound(s, t, top, maxFast, fastChunks, binmap);
        DoneOpen(s, t);
        QuietParts(s, t);
        ValidIs();
        BooksKept(s.h.chunks, h.chunks, sbrkedMem, lost, brk, mapFloor, steady);
        AccountedIs();
        QuietCalm(s, t);
        if h.top == s.h.top { WidthStays(s, t); }
        SystemIs();
        if merged >= LARGE_RELEASE {
          ghost var c := AfterLarge();
          CalmThen(s, t, Store(words, h, fastbins, false));
          SweptFollows(t.h, pending, y, merged, c, h, System());
        } else {
          SmallFollows(t.h, pending, y, merged);
        }
        CollectedGiven(s.h, t.h, pending, y, p, lo, lo + merged, h, fastChunks, System());
      }
    }

    /** p->fd = *fb; *fb = p. */
    method PutFast(p: Addr, size: nat)
      requires Released(Store(words, h, fastbins, false), p, size) && TopField(top, h) && maxFast == DEFAULT_MAX_FAST
      requires BinsMapped(binmap, h.lists) && fastChunks && Accounted() && size <= maxFast
      modifies this`words, this`h, this`fastbins
      ensures Valid() && Accounted() && Calm(Store(old(words), old(h), old(fastbins), false), Store(words, h, fastbins, false))
      ensures h.top == old(h).top && TopWidth(h) == TopWidth(old(h)) && Shelved(old(h), h, p)
    {
      hide *;
      ghost var s := Store(words, h, fastbins, false);
      AccountedIs();
      ReleasedParts(s, p, size);
      var f := FastPlace(s, p, size);
      ghost var t := PushedStore(s, f, p, size);
      PushedShelved(s, f, p, size);
      PushedSound(s, t, p, f, top, maxFast, fastChunks, binmap);
      BooksKept(s.h.chunks, t.h.chunks, sbrkedMem, lost, brk, mapFloor, steady);
      WidthStays(s, t);
      words := Poke(words, p + 8, fastbins[f]);
      fastbins := fastbins[f := p];
      h := t.h;
      StoreOf(t, fastbins);
      ValidIs();
      AccountedIs();
    }

    /** After a large release: consolidate, and give memory back if top is very large. */
    method AfterLarge() returns (ghost c: Heap)
      requires Valid() && Accounted()
      modifies this
      ensures !fastChunks && FastEmpty(h.lists) && AllJoined(old(h), old(fastChunks), c) && Trimmed(c, old(System()), h, System())
      ensures lastRemainder == old(lastRemainder)
      ensures Valid() && Accounted() && Calm(Store(old(words), old(h), old(fastbins), false), Store(words, h, fastbins, false))
      ensures contiguous == old(contiguous) && mapFloor == old(mapFloor)
      ensures !old(fastChunks) ==> h.top == old(h).top
      ensures !old(fastChunks) ==> TopWidth(h) == TopLeft(old(System()), TopLimit(old(h)), TopWidth(old(h)), LARGE_RELEASE + MINSIZE)
    {
      hide *;
      ghost var s, y := Store(words, h, fastbins, false), System();
      CalmSame(s);
      SameGroundSelf(h);
      SystemIs();
      if fastChunks {
        ConsolidateAll();
      }
      ghost var t := Store(words, h, fastbins, false);
      ValidIs();
      SoundParts(t, top, maxFast, fastChunks, binmap);
      InvParts(t);
      MergedNow();
      c := h;
      JoinedIntro(s.h, old(fastChunks), c);
      SystemIs();
      NarrowSame(t);
      TopWord(t, top);
      TopMeasure(t, top);
      TopLeftIs(System(), TopLimit(h), TopWidth(h), LARGE_RELEASE + MINSIZE);
      if SizeOf(Head(words, top)) >= DEFAULT_TRIM_THRESHOLD {
        SysTrim();
        CalmThen(s, t, Store(words, h, fastbins, false));
      }
      SystemIs();
      TrimmedIntro(c, y, h, System());
    }

    /** Gives whole pages at the end of top back to the system: top is shortened by exactly as
        much as the system takes back.  See `DlBreak.TrimIsMost` for how much is offered. */
    method SysTrim()
      requires Valid() && Accounted()
      modifies this
      ensures lastRemainder == old(lastRemainder)
      ensures Valid() && Accounted() && Calm(Store(old(words), old(h), old(fastbins), false), Store(words, h, fastbins, false))
      ensures contiguous == old(contiguous) && mapFloor == old(mapFloor) && fastChunks == old(fastChunks)
      ensures h == Narrowed(old(h), TopWidth(h)) && h.lists == old(h).lists
      ensures replies == if TrimExtra(TopWidth(old(h))) > 0 && old(brk) == TopLimit(old(h)) then Later(old(System())).replies
                         else old(replies)
      ensures var less := TrimmedBy(old(System()), TopLimit(old(h)), TopWidth(old(h)));
              && brk == old(brk) - less && sbrkedMem == old(sbrkedMem) - less
              && h.top == old(h).top && TopWidth(h) == TopWidth(old(h)) - less
    {
      hide *;
      ghost var s := Store(words, h, fastbins, false);
      ValidIs();
      SoundParts(s, top, maxFast, fastChunks, binmap);
      TopWord(s, top);
      TopMeasure(s, top);
      CalmSame(s);
      NarrowSame(s);
      var topSize: nat := SizeOf(Head(words, top));
      SystemIs();
      TrimmedIs(System(), top + topSize, topSize);
      var extra := TrimExtra(topSize);
      if extra > 0 {
        var currentBrk := brk;
        if currentBrk == top + topSize {
          TrimPages(topSize);
          AccountedIs();
          SystemIs();
          var released := GiveBack(extra);
          SystemIs();
          ValidIs();
          AccountedIs();
          if released != 0 {
            TrimShape(topSize, extra, released);
            Shorten(topSize, released);
          }
        }
      }
    }

    /** MORECORE(-extra), then MORECORE(0): how much the break has gone down. */
    method GiveBack(extra: nat) returns (released: nat)
      requires extra % PAGE == 0
      modifies this`replies
      ensures released == GivenBack(old(System()), extra) && released <= extra && released % PAGE == 0
      ensures replies == Later(old(System())).replies
      ensures Orderly(steady, tidy, contiguous, old(System())) ==> Orderly(steady, tidy, contiguous, System())
    {
      hide GivenBack, Orderly;
      released := GivenBack(System(), extra);
      GivenBackIs(System(), extra);
      ghost var y := System();
      replies := Later(System()).replies;
      if Orderly(steady, tidy, contiguous, y) {
        OrderlyParts(steady, tidy, contiguous, y);
        OrderlyTrimmed(steady, tidy, contiguous, y, System());
      }
    }

    method Shorten(topSize: nat, released: nat)
      requires Valid() && Accounted() && h.top == Some(top) && top in h.chunks && topSize == h.chunks[top].size
      requires released <= topSize && topSize - released >= MINSIZE && released % 8 == 0 && brk == top + topSize
      modifies this`words, this`h, this`brk, this`sbrkedMem
      ensures Valid() && Accounted() && Calm(Store(old(words), old(h), fastbins, false), Store(words, h, fastbins, false))
      ensures h.top == old(h).top && TopWidth(h) == topSize - released && sbrkedMem == old(sbrkedMem) - released
      ensures h == Narrowed(old(h), topSize - released) && h.lists == old(h).lists
      ensures brk == old(brk) - released
    {
      hide *;
      ghost var s := Store(words, h, fastbins, false);
      ValidIs();
      AccountedIs();
      ghost var t := Shortened(s, top, topSize, released, maxFast, fastChunks, binmap, sbrkedMem, lost, brk, mapFloor, steady);
      BooksParts(t.h.chunks, sbrkedMem - released, lost, brk - released, mapFloor, steady);
      LowerOrderly(steady, tidy, contiguous, Sys(brk, mapFloor, replies), released);
      brk := brk - released;
      sbrkedMem := sbrkedMem - released;
      words := Poke(words, top + 4, topSize - released + 1);
      h := t.h;
      StoreOf(t, fastbins);
      ValidIs();
      AccountedIs();
    }

    lemma SystemIs()
      ensures System() == Sys(brk, mapFloor, replies)
    {
    }

    lemma AccountedIs()
      ensures Accounted() <==>
        Books(h.chunks, sbrkedMem, lost, brk, mapFloor, steady)
        && Orderly(steady, tidy, contiguous, Sys(brk, mapFloor, replies))
      ensures System() == Sys(brk, mapFloor, replies)
    {
      hide Books, Orderly;
    }

    /** free().  Nothing happens for 0; otherwise exactly the given chunk stops being live. */
    method FREe(mem: Addr)
      requires Valid() && Accounted()
      requires mem == 0 || (mem >= 8 && mem - 8 in h.chunks && h.chunks[mem - 8].state == Used)
      modifies this
      ensures lastRemainder == old(lastRemainder)
      ensures Valid() && Accounted()
      ensures mem == 0 ==> Calm(Store(old(words), old(h), old(fastbins), false), Store(words, h, fastbins, false))
      ensures mem != 0 ==> Freed(Store(old(words), old(h), old(fastbins), false), Store(words, h, fastbins, false), mem - 8)
      ensures contiguous == old(contiguous) && mapFloor == old(mapFloor)
      ensures mem == 0 ==> unchanged(this)
      ensures mem != 0 ==> GivenUp(old(h), old(fastChunks), old(System()), mem - 8, h, fastChunks, System())
    {
      hide *;
      ghost var s, y := Store(words, h, fastbins, false), System();
      CalmSame(s);
      SystemIs();
      if mem != 0 {
        var p := mem - 8;
        ValidIs();
        SoundParts(s, top, maxFast, fastChunks, binmap);
        ghost var t := TakeLive(s, p, top, binmap, fastChunks);
        AccountedIs();
        TakenParts(s, t, p);
        BooksKept(s.h.chunks, t.h.chunks, sbrkedMem, lost, brk, mapFloor, steady);
        var size: nat := SizeOf(Head(words, p));
        h := t.h;
        StoreOf(t, fastbins);
        AccountedIs();
        SystemIs();
        Release(p, size);
        GivenLoose(s, old(fastChunks), y, p, h, fastChunks, System());
        FreedAfter(s, t, Store(words, h, fastbins, false), p);
      }
    }

    // ----- malloc: handing out free chunks -----

    /** The whole of a free chunk that has been taken out of its bin in memory m. */
    method HandWhole(m: Words, victim: Addr, size: nat, nb: nat)
      requires Valid() && victim in h.chunks && IsFree(h.chunks[victim].state) && m == Unlinked(words, victim)
      requires size == h.chunks[victim].size && nb <= size < nb + MINSIZE
      modifies this`words, this`h
      ensures Valid() && Served(Store(old(words), old(h), fastbins, false), Store(words, h, fastbins, false), victim, nb)
      ensures HandedOut(old(h), h, victim, nb)
    {
      hide *;
      ghost var s := Store(words, h, fastbins, false);
      ValidIs();
      SoundParts(s, top, maxFast, fastChunks, binmap);
      ghost var i, k := Unhook(s, victim);
      ghost var t := GiveWhole(s, Unhooked(s, i, k), victim, nb);
      ListedAll(s);
      AtParts(s, victim, i, k);
      HandedWhole(s.h, t.h, i, k, victim, nb);
      UnhookShrinks(s, i, k, victim);
      ServedSound(s, t, victim, nb, top, maxFast, fastChunks, binmap, i, k);
      words := Poke(m, victim + size + 4, WithBit(Head(m, victim + size)));
      h := t.h;
      StoreOf(t, fastbins);
      ValidIs();
    }

    /** The front of a free chunk that has been taken out of its bin in memory m; the rest
        becomes the unsorted list. */
    method HandFront(m: Words, victim: Addr, size: nat, nb: nat) returns (remainder: Addr)
      requires Valid() && victim in h.chunks && IsFree(h.chunks[victim].state) && m == Unlinked(words, victim)
      requires size == h.chunks[victim].size && nb % 8 == 0 && nb >= MINSIZE && nb + MINSIZE <= size
      requires |h.lists| == LISTS && h.lists[1] == []
      modifies this`words, this`h
      ensures Valid() && Served(Store(old(words), old(h), fastbins, false), Store(words, h, fastbins, false), victim, nb)
      ensures remainder == victim + nb && HandedOut(old(h), h, victim, nb)
    {
      hide *;
      ghost var s := Store(words, h, fastbins, false);
      ValidIs();
      SoundParts(s, top, maxFast, fastChunks, binmap);
      ghost var i, k := Unhook(s, victim);
      UnsortedStays(s, Unhooked(s, i, k), i, k);
      ghost var t := GiveFront(s, Unhooked(s, i, k), victim, nb);
      ListedAll(s);
      AtParts(s, victim, i, k);
      HandedFront(s.h, t.h, i, k, victim, nb);
      CutSound(s, Unhooked(s, i, k), t, victim, nb, top, maxFast, fastChunks, binmap, i, k);
      remainder := CutStores(m, victim, size, nb, Unhooked(s, i, k));
      h := t.h;
      StoreOf(t, fastbins);
      ValidIs();
    }

    /** The stores of a cut: size words, the foot of the rest, and the unsorted links. */
    method CutStores(m0: Words, victim: Addr, size: nat, nb: nat, ghost u: Store) returns (remainder: Addr)
      requires m0 == u.m && nb <= size
      modifies this`words
      ensures remainder == victim + nb && words == LinkedAlone(CutTags(u.m, victim, nb, size), 1, remainder)
    {
      hide *;
      var m := m0;
      var remainderSize := size - nb;
      remainder := victim + nb;
      m := Poke(m, remainder + 4, remainderSize + 1);
      m := Poke(m, victim + 4, nb + 1);
      m := Poke(m, victim + size, remainderSize);
      CutTagsWords(u.m, victim, nb, size);
      AloneWordsAre(m, remainder);
      var unsorted := BinAt(1);
      m := Poke(m, unsorted + 12, remainder);
      m := Poke(m, unsorted + 8, remainder);
      m := Poke(m, remainder + 12, unsorted);
      m := Poke(m, remainder + 8, unsorted);
      words := m;
    }

    /** The last remainder, when it is the only unsorted chunk, is cut for a small request. */
    method CutSole(victim: Addr, size: nat, nb: nat)
      requires Valid() && |h.lists| == LISTS && h.lists[1] == [victim] && victim in h.chunks
      requires size == h.chunks[victim].size && nb % 8 == 0 && nb >= MINSIZE && nb + MINSIZE <= size
      modifies this`words, this`h, this`lastRemainder
      ensures Valid() && Served(Store(old(words), old(h), fastbins, false), Store(words, h, fastbins, false), victim, nb)
      ensures HandedOut(old(h), h, victim, nb) && lastRemainder == victim + nb
    {
      hide *;
      ghost var s := Store(words, h, fastbins, false);
      ValidIs();
      SoundParts(s, top, maxFast, fastChunks, binmap);
      ghost var u := OpenSole(s, victim);
      SoleEmpty(s, u, victim);
      ghost var t := GiveFront(s, u, victim, nb);
      ListedAll(s);
      SoleGone(s.h, victim);
      HandedFront(s.h, t.h, 1, 0, victim, nb);
      CutSound(s, u, t, victim, nb, top, maxFast, fastChunks, binmap, 1, 0);
      lastRemainder := CutStores(words, victim, size, nb, u);
      h := t.h;
      StoreOf(t, fastbins);
      ValidIs();
    }

    /** The chunk at the end of the unsorted list, removed in memory m, goes to its bin. */
    method PlaceInBin(m0: Words, victim: Addr, size: nat)
      requires Valid() && victim in h.chunks && h.chunks[victim].state == Binned(1) && m0 == Unlinked(words, victim)
      requires size == h.chunks[victim].size && |h.lists| == LISTS && h.lists[1] != [] && victim == h.lists[1][|h.lists[1]| - 1]
      modifies this`words, this`h, this`binmap
      ensures CanPlace(old(h)) && h == PlacedLast(old(h))
      ensures Valid() && Moved(Store(old(words), old(h), fastbins, false), Store(words, h, fastbins, false))
      ensures |h.lists| == |old(h).lists| == LISTS && |h.lists[1]| < |old(h).lists[1]|
      ensures forall j | 2 <= j < NBINS && j != BinIndex(size) :: h.lists[j] == old(h).lists[j]
    {
      hide *;
      ghost var s := Store(words, h, fastbins, false);
      ValidIs();
      SoundParts(s, top, maxFast, fastChunks, binmap);
      UnsortedIsFree(h.chunks, victim);
      ghost var i, k0 := Unhook(s, victim);
      ghost var u := Unhooked(s, i, k0);
      FreshParts(s, u, victim);
      var bck, fwd, k := PlaceFor(m0, size, s, u, victim);
      var j := BinIndex(size);
      Rebin(s, u, j, k, victim);
      ghost var t := Linked1(u, j, k, victim);
      LinkedInWords(m0, victim, bck, fwd);
      RebinSound(s, u, t, victim, i, k0, j, k, top, maxFast, fastChunks, binmap);
      RebinHeap(s, i, k0, j, k, victim, size);
      binmap := MarkedBin(binmap, j);
      var m := Poke(m0, victim + 12, bck);
      m := Poke(m, victim + 8, fwd);
      m := Poke(m, fwd + 12, victim);
      m := Poke(m, bck + 8, victim);
      words, h := m, t.h;
      MovedParts(s, t);
      StoreOf(t, fastbins);
      ValidIs();
    }

    /** The unsorted list is worked off from its end: an exact fit is handed out, the last
        remainder may be cut, every other chunk goes to its bin.
        @return the chunk handed out, or 0. */
    method ScanUnsorted(nb: nat) returns (p: Addr)
      requires Valid() && nb % 8 == 0 && nb >= MINSIZE && |h.lists| == LISTS
      requires Small(nb) ==> h.lists[SmallIndex(nb)] == []
      modifies this`words, this`h, this`binmap, this`lastRemainder
      ensures Valid()
      ensures p == 0 ==> Moved(Store(old(words), old(h), fastbins, false), Store(words, h, fastbins, false))
                         && |h.lists| == LISTS && h.lists[1] == [] && (Small(nb) ==> h.lists[SmallIndex(nb)] == [])
                         && h == AllPlaced(old(h)) && lastRemainder == old(lastRemainder)
                         && forall q :: !FromUnsorted(old(h), old(lastRemainder), nb, q)
      ensures p != 0 ==> Served(Store(old(words), old(h), fastbins, false), Store(words, h, fastbins, false), p, nb)
                         && (BestFit(old(h).chunks, p, nb) || Small(nb)) && FitsFree(old(h).chunks, p, nb)
                         && TookUnsorted(old(h), old(lastRemainder), nb, p, h)
                         && Remains(old(h), old(lastRemainder), nb, p, lastRemainder)
    {
      hide *;
      ghost var s := Store(words, h, fastbins, false);
      ValidIs();
      SoundParts(s, top, maxFast, fastChunks, binmap);
      MovedSame(s);
      LastChunk(s, 1);
      SmallRange(nb);
      ghost var last, n: nat := lastRemainder, |ListAt(h, 1)|;
      UnworkedStart(h, last, nb);
      PlacedNone(h);
      SomeMin();
      var victim: Addr := Bk(words, BinAt(1));
      while victim != BinAt(1)
        invariant Valid() && Moved(s, Store(words, h, fastbins, false)) && victim == Bk(words, BinAt(1)) && |h.lists| == LISTS
        invariant Small(nb) ==> h.lists[SmallIndex(nb)] == []
        invariant Unworked(s.h, last, nb, h.lists[1], n) && h == PlacedTo(s.h, n) && lastRemainder == last
        decreases |h.lists[1]|
      {
        ghost var t := Store(words, h, fastbins, false);
        ValidIs();
        SoundParts(t, top, maxFast, fastChunks, binmap);
        LastChunk(t, 1);
        LastParts(t, 1, victim);
        MovedParts(s, t);
        FreeSize(s.h.chunks, t.h.chunks, victim);
        var bck: Addr := Bk(words, victim);
        var size: nat := SizeOf(Head(words, victim));
        if Small(nb) && bck == BinAt(1) && victim == lastRemainder && size > nb + MINSIZE {
          SoleList(h.lists[1], victim);
          FitHere(s.h.chunks, victim, nb);
          UnworkedSole(s.h, last, nb, h.lists[1], n, victim);
          CutSole(victim, size, nb);
          TookIntro(s.h, last, nb, victim, h, t.h, 0);
          RemainsFree(s.h, last, size, nb, victim, lastRemainder);
          MovedServed(s, t, Store(words, h, fastbins, false), victim, nb);
          return victim;
        }
        var m := Poke(words, BinAt(1) + 12, bck);
        m := Poke(m, bck + 8, BinAt(1));
        if size == nb {
          FitHere(s.h.chunks, victim, nb);
          UnworkedExact(s.h, last, nb, h.lists[1], n, victim);
          HandWhole(m, victim, size, nb);
          MovedServed(s, t, Store(words, h, fastbins, false), victim, nb);
          ExactFit(s.h.chunks, victim, nb);
          BestFits(s.h, victim, nb);
          TookIntro(s.h, last, nb, victim, h, t.h, n - 1);
          RemainsFree(s.h, last, size, nb, victim, lastRemainder);
          return victim;
        }
        OtherSmall(size, nb);
        UnworkedNext(s.h, last, nb, h.lists[1], n, victim);
        PlaceInBin(m, victim, size);
        PlacedNext(s.h, n);
        PlacedLists(t.h);
        n := n - 1;
        MovedThen(s, t, Store(words, h, fastbins, false));
        ValidIs();
        SoundParts(Store(words, h, fastbins, false), top, maxFast, fastChunks, binmap);
        LastChunk(Store(words, h, fastbins, false), 1);
        victim := Bk(words, BinAt(1));
      }
      ValidIs();
      SoundParts(Store(words, h, fastbins, false), top, maxFast, fastChunks, binmap);
      LastEmpty(Store(words, h, fastbins, false));
      UnworkedEnd(s.h, last, nb, n);
      AllPlacedIs(s.h);
      p := 0;
    }

    /** A chunk found by best fit is handed out whole, or cut if enough would be left. */
    method Hand(m: Words, victim: Addr, size: nat, nb: nat) returns (remainder: Addr)
      requires Valid() && victim in h.chunks && IsFree(h.chunks[victim].state) && m == Unlinked(words, victim)
      requires size == h.chunks[victim].size && nb % 8 == 0 && MINSIZE <= nb <= size
      requires |h.lists| == LISTS && h.lists[1] == []
      modifies this`words, this`h
      ensures Valid() && Served(Store(old(words), old(h), fastbins, false), Store(words, h, fastbins, false), victim, nb)
      ensures remainder == if size - nb < MINSIZE then 0 else victim + nb
      ensures HandedOut(old(h), h, victim, nb)
    {
      var remainderSize := size - nb;
      if remainderSize < MINSIZE {
        HandWhole(m, victim, size, nb);
        remainder := 0;
      } else {
        remainder := HandFront(m, victim, size, nb);
      }
    }

    /** A large request first looks through its own bin, from the smallest chunk up. */
    method ScanBin(nb: nat) returns (p: Addr)
      requires Valid() && nb % 8 == 0 && nb >= MINSIZE && !Small(nb) && |h.lists| == LISTS && h.lists[1] == []
      modifies this`words, this`h
      ensures Valid()
      ensures p == 0 ==> words == old(words) && h == old(h) && NoneBelow(h.chunks, h.lists, nb, LargeIndex(nb) + 1)
      ensures p != 0 ==> Served(Store(old(words), old(h), fastbins, false), Store(words, h, fastbins, false), p, nb)
                         && BestFit(old(h).chunks, p, nb) && LastFit(old(h), nb, p)
                         && HandedOut(old(h), h, p, nb) && Remains(old(h), lastRemainder, nb, p, lastRemainder)
    {
      hide *;
      ghost var s := Store(words, h, fastbins, false);
      ValidIs();
      SoundParts(s, top, maxFast, fastChunks, binmap);
      InvParts(s);
      LargeRange(nb);
      var idx := LargeIndex(nb);
      ViewWhole(s, idx);
      ghost var l := h.lists[idx];
      ViewEnds(words, h.chunks, idx, l);
      StartBelow(h.chunks, h.lists, nb);
      var bin := BinAt(idx);
      var victim: Addr := Bk(words, bin);
      if l != [] {
        ViewAt(words, h.chunks, idx, l, 0);
        FirstFits(s, l[0], nb);
      }
      if victim != bin && Head(words, Fd(words, bin)) >= nb {
        ghost var k := |l| - 1;
        ViewAt(words, h.chunks, idx, l, k);
        ViewSize(s, idx, k);
        var size: nat := SizeOf(Head(words, victim));
        while size < nb
          invariant words == s.m && h == s.h
          invariant 0 <= k < |l| && victim == l[k] && victim in h.chunks && size == h.chunks[victim].size
          invariant forall i | k < i < |l| :: !FitsFree(h.chunks, l[i], nb)
          decreases k
        {
          TooSmall(h.chunks, victim, nb);
          ViewAt(words, h.chunks, idx, l, k);
          ViewAt(words, h.chunks, idx, l, k - 1);
          ViewSize(s, idx, k - 1);
          victim := Bk(words, victim);
          size := SizeOf(Head(words, victim));
          k := k - 1;
        }
        MemberHere(s, idx, k);
        FitHere(h.chunks, victim, nb);
        BestInBin(h.chunks, h.lists, nb, idx, k);
        LastFitIntro(h, nb, victim, idx, k);
        var _ := Hand(Unlinked(words, victim), victim, size, nb);
        RemainsFree(s.h, lastRemainder, size, nb, victim, lastRemainder);
        return victim;
      }
      NoneInBin(s, idx, nb);
      NextBelow(h.chunks, h.lists, nb, idx, idx + 1);
      p := 0;
    }

    /** The bitmap search: the lowest non-empty bin from the given one on. */
    method SearchBins(nb: nat, start: nat) returns (p: Addr)
      requires Valid() && nb % 8 == 0 && nb >= MINSIZE && |h.lists| == LISTS && h.lists[1] == []
      requires BinIndex(nb) < start < NBINS && NoneBelow(h.chunks, h.lists, nb, start)
      modifies this`words, this`h, this`binmap, this`lastRemainder
      ensures Valid()
      ensures p == 0 ==> words == old(words) && h == old(h) && NoFit(h.chunks, nb) && lastRemainder == old(lastRemainder)
      ensures p != 0 ==> Served(Store(old(words), old(h), fastbins, false), Store(words, h, fastbins, false), p, nb)
                         && BestFit(old(h).chunks, p, nb) && LastFit(old(h), nb, p)
                         && HandedOut(old(h), h, p, nb) && Remains(old(h), old(lastRemainder), nb, p, lastRemainder)
    {
      hide *;
      ghost var s := Store(words, h, fastbins, false);
      ValidIs();
      SoundParts(s, top, maxFast, fastChunks, binmap);
      BlockRange(start);
      var idx := start;
      var block := idx / 32;
      while true
        invariant words == s.m && h == s.h && Sound(s, top, maxFast, fastChunks, binmap)
        invariant lastRemainder == old(lastRemainder)
        invariant block < 4 && block * 32 <= idx <= (block + 1) * 32 && BinIndex(nb) < idx
        invariant NoneBelow(h.chunks, h.lists, nb, idx)
        decreases 128 - idx
      {
        ghost var was := idx;
        SoundParts(s, top, maxFast, fastChunks, binmap);
        MappedBins(s, binmap);
        block, idx := SegregatedFits.NextFlag(binmap, idx, block, h.lists[..NBINS]);
        if block == |binmap| {
          SkipEmpty(s, nb, was, NBINS);
          NoneAtAll(s, nb);
          ValidIs();
          return 0;
        }
        SkipEmpty(s, nb, was, idx);
        LastChunk(s, idx);
        var bin := BinAt(idx);
        var victim: Addr := Bk(words, bin);
        if victim == bin {
          SkipOne(s, nb, idx);
          UnmarkSound(s, top, maxFast, fastChunks, binmap, idx);
          binmap := UnmarkedBin(binmap, idx);
          idx := idx + 1;
        } else {
          ValidIs();
          p := TakeLast(nb, idx, victim);
          return;
        }
      }
    }

    /** The last chunk of a bin whose chunks are all large enough. */
    method TakeLast(nb: nat, idx: nat, victim: Addr) returns (p: Addr)
      requires Valid() && nb % 8 == 0 && nb >= MINSIZE && |h.lists| == LISTS && h.lists[1] == []
      requires BinIndex(nb) < idx < NBINS && NoneBelow(h.chunks, h.lists, nb, idx)
      requires LastOf(Store(words, h, fastbins, false), idx, victim)
      modifies this`words, this`h, this`lastRemainder
      ensures Valid() && p != 0
      ensures Served(Store(old(words), old(h), fastbins, false), Store(words, h, fastbins, false), p, nb)
              && BestFit(old(h).chunks, p, nb) && LastFit(old(h), nb, p)
      ensures HandedOut(old(h), h, p, nb) && Remains(old(h), old(lastRemainder), nb, p, lastRemainder)
    {
      hide *;
      ghost var s := Store(words, h, fastbins, false);
      ValidIs();
      SoundParts(s, top, maxFast, fastChunks, binmap);
      LastParts(s, idx, victim);
      LastIsBest(s, nb, idx);
      BestFits(s.h, victim, nb);
      BinIndexRange(nb);
      LastFitIntro(s.h, nb, victim, idx, |s.h.lists[idx]| - 1);
      SomeMin();
      var size: nat := SizeOf(Head(words, victim));
      var bck: Addr := Bk(words, victim);
      var m := Poke(words, BinAt(idx) + 12, bck);
      m := Poke(m, bck + 8, BinAt(idx));
      var remainder := Hand(m, victim, size, nb);
      if remainder != 0 && Small(nb) {
        lastRemainder := remainder;
      }
      RemainsFree(s.h, old(lastRemainder), size, nb, victim, lastRemainder);
      ValidIs();
      p := victim;
    }

    /** The front of top, if it is large enough to leave a top behind. */
    method UseTop(nb: nat) returns (p: Addr)
      requires Valid() && nb % 8 == 0 && nb >= MINSIZE
      modifies this`words, this`h, this`top
      ensures Valid()
      ensures p == 0 ==> words == old(words) && h == old(h) && top == old(top)
      ensures p != 0 ==> Served(Store(old(words), old(h), fastbins, false), Store(words, h, fastbins, false), p, nb)
                         && OfSize(h.chunks, p, nb) && OffTop(old(h), h, p, nb)
      ensures p != 0 <==> TopWidth(old(h)) >= nb + MINSIZE
    {
      hide *;
      ghost var s := Store(words, h, fastbins, false);
      ValidIs();
      SoundParts(s, top, maxFast, fastChunks, binmap);
      TopWord(s, top);
      TopMeasure(s, top);
      var victim := top;
      var size: nat := SizeOf(Head(words, victim));
      if size >= nb + MINSIZE {
        TopSome(s, top, size, nb);
        ghost var t := TopServe(s, victim, nb, top, maxFast, fastChunks, binmap);
        var remainder := victim + nb;
        var m := Poke(words, remainder + 4, size - nb + 1);
        m := Poke(m, victim + 4, nb + 1);
        words, top, h := m, remainder, t.h;
        StoreOf(t, fastbins);
        ValidIs();
        return victim;
      }
      p := 0;
    }

    // ----- memory from the system -----

    /** MORECORE with a positive argument.  One that is negative as a signed number is not
        passed on. */
    method Morecore(size: nat) returns (r: Option<Addr>)
      modifies this`brk, this`replies
      ensures Answer(r, System()) == FirstAnswer(old(System()), size) && mapFloor == old(mapFloor)
    {
      var a := FirstAnswer(System(), size);
      FirstFloor(System(), size);
      brk, replies, r := a.after.brk, a.after.replies, a.start;
    }

    /** MORECORE right after a successful call: the answer continues the same region. */
    method MorecoreMore(correction: nat) returns (r: Option<Addr>)
      modifies this`brk, this`replies
      ensures Answer(r, System()) == SbrkMore(old(System()), correction) && mapFloor == old(mapFloor)
    {
      var a := SbrkMore(System(), correction);
      MoreFloor(System(), correction);
      brk, replies, r := a.after.brk, a.after.replies, a.start;
    }

    /** MMAP of whole pages. */
    method MapPages(size: nat) returns (r: Option<Addr>)
      modifies this`mapFloor, this`replies
      ensures Answer(r, System()) == Mmap(old(System()), size) && brk == old(brk)
    {
      var a := Mmap(System(), size);
      MmapIs(System(), size);
      mapFloor, replies, r := a.after.floor, a.after.replies, a.start;
    }

    /** The request to the system: sbrk first, and mapped pages as a backup. */
    method AskSystem(nb: nat, oldSize: nat) returns (b: Option<Addr>, size: nat, mapped: bool)
      requires oldSize < nb + MINSIZE
      modifies this`brk, this`mapFloor, this`replies, this`contiguous
      ensures Offer(b, size, mapped, contiguous, System()) == Offered(old(System()), old(contiguous), oldSize, nb)
    {
      hide *;
      ghost var y, c := System(), contiguous;
      size := RoundUp(nb + MINSIZE - (if contiguous then oldSize else 0));
      WantedIs(nb, oldSize, contiguous);
      mapped := false;
      b := Morecore(size);
      if b == None {
        if contiguous {
          size := RoundUp(size + oldSize);
        }
        if size < MMAP_AS_MORECORE_SIZE {
          size := MMAP_AS_MORECORE_SIZE;
        }
        b := MapPages(size);
        mapped := true;
        SystemIs();
        if b.Some? {
          contiguous := false;
        }
        SystemIs();
      }
      OfferedIs(y, c, oldSize, nb);
    }

    /** The memory obtained and what is known of it. */
    method GetMemory(nb: nat, oldSize: nat) returns (b: Option<Addr>, size: nat, mapped: bool)
      requires Valid() && Accounted() && oldSize < nb + MINSIZE
      modifies this`brk, this`mapFloor, this`replies, this`contiguous
      ensures Valid() && (b == None ==> Accounted())
      ensures Offer(b, size, mapped, contiguous, System()) == Offered(old(System()), old(contiguous), oldSize, nb)
      ensures b.Some? ==> NewMemory(h.chunks, b.value, size, mapped, brk, mapFloor) && size % PAGE == 0
      ensures b.Some? ==> b.value % 4 == 0 && (tidy ==> b.value % 8 == 0) && (mapped ==> !contiguous)
      ensures b.Some? ==> Books(h.chunks, sbrkedMem, lost, brk, mapFloor, false)
      ensures b.Some? ==> Pending(steady, h.chunks, lost, b.value, size, mapped, brk)
      ensures Orderly(steady, tidy, contiguous, System())
    {
      hide *;
      ghost var s := Store(words, h, fastbins, false);
      ghost var y, c := System(), contiguous;
      ValidIs();
      SoundParts(s, top, maxFast, fastChunks, binmap);
      InvParts(s);
      AccountedIs();
      OfferMap(y, c, oldSize, nb);
      OfferNew(h.chunks, sbrkedMem, lost, y, steady, tidy, c, oldSize, nb);
      b, size, mapped := AskSystem(nb, oldSize);
      ValidIs();
      AccountedIs();
    }

    /** sYSMALLOc: extends or replaces top and serves the request from it.  A new top that is
        off the alignment jams the allocator: its words represent no heap any more, and the
        run is not followed further.  Otherwise the request is served exactly when what the
        system deals out suffices. */
    method SysMalloc(nb: nat) returns (p: Addr)
      requires Valid() && Accounted() && nb % 8 == 0 && nb >= MINSIZE && !fastChunks
      requires TopWidth(h) < nb + MINSIZE
      modifies this
      ensures lastRemainder == old(lastRemainder)
      ensures Jammed() || (Valid() && Accounted())
      ensures Valid() <==> Lined(Asked(old(System()), old(contiguous), old(h), nb))
      ensures Jammed() <==> !Lined(Asked(old(System()), old(contiguous), old(h), nb))
      ensures p != 0 <==> Lined(Asked(old(System()), old(contiguous), old(h), nb))
                          && Delivers(Asked(old(System()), old(contiguous), old(h), nb), nb)
      ensures tidy ==> !Jammed()
      ensures steady ==> (p != 0 <==> old(replies) != [] && old(brk) + Wanted(nb, TopWidth(old(h)), true) <= old(mapFloor))
      ensures p == 0 ==> Calm(Store(old(words), old(h), old(fastbins), false), Store(words, h, fastbins, false))
      ensures p != 0 ==> Granted(Store(old(words), old(h), old(fastbins), false), Store(words, h, fastbins, false), p, nb)
      ensures p != 0 ==> Snug(h.chunks, p, nb) && OfSize(h.chunks, p, nb) && h.top == Some(p + nb)
      ensures p != 0 ==> FromDeal(old(h), Asked(old(System()), old(contiguous), old(h), nb), p, nb, h)
    {
      hide *;
      ghost var s := Store(words, h, fastbins, false);
      if steady {
        AccountedIs();
        EitherHeap();
        BooksParts(h.chunks, sbrkedMem, lost, brk, mapFloor, steady);
        OrderlyParts(steady, tidy, contiguous, System());
        SteadyAsked(System(), h, nb);
      }
      ghost var d := Asked(System(), contiguous, h, nb);
      NothingDealt(nb);
      var got := MoreTop(nb);
      StandsStraight();
      if !got {
        return 0;
      }
      ghost var t := Store(words, h, fastbins, false);
      AccountedIs();
      CrownedEnough(s.h, d, h, nb);
      p := UseTop(nb);
      if p != 0 {
        OffTopEnd(t.h, h, p, nb);
        SomeMin();
        CrownedServes(s.h, d, t.h, p, nb, h);
        ServedGranted(t, Store(words, h, fastbins, false), p, nb);
        BooksKept(t.h.chunks, h.chunks, sbrkedMem, lost, brk, mapFloor, steady);
        CalmGranted(s, t, Store(words, h, fastbins, false), p, nb);
      }
      StandsStraight();
      AccountedIs();
    }

    /** The part of it that extends or replaces top.  @return whether there is a new top. */
    method MoreTop(nb: nat) returns (got: bool)
      requires Valid() && Accounted() && nb % 8 == 0 && nb >= MINSIZE && !fastChunks
      requires TopWidth(h) < nb + MINSIZE
      modifies this
      ensures lastRemainder == old(lastRemainder)
      ensures Jammed() || (Valid() && Accounted())
      ensures Jammed() <==> !Lined(Asked(old(System()), old(contiguous), old(h), nb))
      ensures tidy ==> !Jammed()
      ensures got <==> !Jammed() && Asked(old(System()), old(contiguous), old(h), nb) != Nothing
      ensures got ==> Crowned(old(h), Asked(old(System()), old(contiguous), old(h), nb), h)
      ensures Calm(Store(old(words), old(h), old(fastbins), false), Store(words, h, fastbins, false))
    {
      hide *;
      ghost var s := Store(words, h, fastbins, false);
      ghost var y, c := System(), contiguous;
      ValidIs();
      SoundParts(s, top, maxFast, fastChunks, binmap);
      TopWord(s, top);
      TopShape(s, top);
      TopMeasure(s, top);
      CalmSame(s);
      AskedIs(y, c, h, nb);
      var oldTop := top;
      var oldSize: nat := SizeOf(Head(words, oldTop));
      AccountedIs();
      TidyAsked(steady, tidy, c, y, h, nb);
      var b, size, mapped := GetMemory(nb, oldSize);
      StruckIs(Offer(b, size, mapped, contiguous, System()), oldTop + oldSize, oldSize);
      StandsStraight();
      NothingDealt(nb);
      if b == None {
        return false;
      }
      BothEdges(s, b.value, size, mapped, oldSize);
      if b.value == oldTop + oldSize && !mapped {
        NewMemoryParts(h.chunks, b.value, size, mapped, brk, mapFloor);
        ExtendTop(b.value, size, oldSize);
        StandsStraight();
        GrowsLined(oldSize + size);
        CrownedGrown(s.h, h, oldSize + size);
      } else {
        NewRegion(b.value, size, mapped, oldSize, Offer(b, size, mapped, contiguous, System()));
        if Jammed() {
          return false;
        }
        CrownedAnew(s.h, Asked(y, c, s.h, nb), h);
      }
      got := true;
    }

    /** A state that represents a heap is not jammed. */
    lemma StandsStraight()
      ensures Valid() ==> !Jammed()
      ensures Jammed() <==> Crooked(words, top)
    {
      hide *;
      ValidIs();
      JammedIs();
      if Crooked(words, top) {
        CrookedIsBroken(Store(words, h, fastbins, false), top, maxFast, fastChunks, binmap);
      }
    }

    lemma JammedIs()
      ensures Jammed() <==> Crooked(words, top)
    {
      hide Crooked;
    }

    /** In the steady case new memory continues top, unless there is none yet. */
    lemma BothEdges(s: Store, b: Addr, size: nat, mapped: bool, oldSize: nat)
      requires s.h == h && Inv(s) && Pending(steady, h.chunks, lost, b, size, mapped, brk)
      requires h.top.Some? ==> h.top == Some(top) && top in h.chunks && h.chunks[top].size == oldSize
      ensures steady && !(b == top + oldSize && !mapped) ==> h.chunks == map[]
      ensures steady ==> !mapped
    {
      if steady && h.top.Some? {
        TopAtEdge(h.chunks, h.starts, h.top, b);
      }
      hide Tiles, Listed, Apart, Tags, AllLinked, AllChained, Compact;
    }

    /** MORECORE has extended the previous space, so top grows. */
    method ExtendTop(b: Addr, size: nat, oldSize: nat)
      requires Valid() && Books(h.chunks, sbrkedMem, lost, brk, mapFloor, false)
      requires Pending(steady, h.chunks, lost, b, size, false, brk) && Orderly(steady, tidy, contiguous, System())
      requires NewMemory(h.chunks, b, size, false, brk, mapFloor)
      requires h.top == Some(top) && top in h.chunks && h.chunks[top].size == oldSize && b == top + oldSize
      modifies this`words, this`h, this`sbrkedMem
      ensures Valid() && Accounted() && Calm(Store(old(words), old(h), fastbins, false), Store(words, h, fastbins, false))
      ensures TopWidth(h) == oldSize + size && h.top == Some(top)
    {
      hide *;
      ghost var s := Store(words, h, fastbins, false);
      ValidIs();
      SystemIs();
      if steady { PendingParts(steady, h.chunks, lost, b, size, false, brk); }
      NewMemoryParts(h.chunks, b, size, false, brk, mapFloor);
      ghost var t := Grown(s, top, oldSize, size, maxFast, fastChunks, binmap, sbrkedMem, lost, brk, mapFloor, steady);
      sbrkedMem := sbrkedMem + size;
      words := Poke(words, top + 4, size + oldSize + 1);
      h := t.h;
      StoreOf(t, fastbins);
      ValidIs();
      AccountedIs();
    }

    /** The new memory does not continue top: align it, ask for the rest of its last page,
        make it the new top, and close the old one with fenceposts.  The program does not
        look whether the new top is aligned. */
    method NewRegion(b: Addr, size: nat, mapped: bool, oldSize: nat, ghost o: Offer)
      requires Valid() && Books(h.chunks, sbrkedMem, lost, brk, mapFloor, false) && !fastChunks
      requires o == Offer(Some(b), size, mapped, contiguous, System()) && (mapped ==> !contiguous)
      requires Pending(steady, h.chunks, lost, b, size, mapped, brk) && Orderly(steady, tidy, contiguous, System())
      requires b % 4 == 0 && (tidy ==> b % 8 == 0) && size % PAGE == 0
      requires NewMemory(h.chunks, b, size, mapped, brk, mapFloor) && (b != TopLimit(h) || mapped)
      requires oldSize != 0 ==> top in h.chunks && h.top == Some(top) && h.chunks[top].size == oldSize
      requires oldSize % 8 == 0 && (oldSize == 0 ==> h.top == None) && (steady ==> h.chunks == map[])
      modifies this
      ensures lastRemainder == old(lastRemainder)
      ensures Jammed() || (Valid() && Accounted())
      ensures Jammed() <==> !Lined(Struck(o, TopLimit(old(h)), oldSize))
      ensures !Jammed() ==> var d := Struck(o, TopLimit(old(h)), oldSize);
                            d.Anew? && h.top == Some(d.start) && TopWidth(h) == d.left
      ensures Calm(Store(old(words), old(h), old(fastbins), false), Store(words, h, fastbins, false))
    {
      hide *;
      ghost var s := Store(words, h, fastbins, false);
      SystemIs();
      AnewIs(o, TopLimit(h), oldSize);
      var alignedBrk, topSize, correction := Align(b, size, mapped, oldSize, o);
      SystemIs();
      LinedEnd(alignedBrk, topSize);
      SpaceParts(h.chunks, alignedBrk, topSize, brk, mapFloor);
      if alignedBrk % 8 == 0 && topSize % 8 == 0 {
        Install(size, correction, alignedBrk, topSize, oldSize);
        StandsStraight();
      } else {
        ValidIs();
        SoundParts(s, top, maxFast, fastChunks, binmap);
        InvParts(s);
        SetTop(size, correction, alignedBrk, topSize);
      }
    }

    /** av->top = aligned_brk and its size word, where they are off the alignment. */
    method SetTop(size: nat, correction: nat, alignedBrk: Addr, topSize: nat)
      requires NewTopSpace(h.chunks, alignedBrk, topSize, brk, mapFloor) && topSize % 4 == 0 && Shapes(h.chunks)
      requires alignedBrk % 8 != 0 || topSize % 8 != 0
      modifies this`words, this`top, this`sbrkedMem
      ensures Jammed() && Calm(Store(old(words), h, fastbins, false), Store(words, h, fastbins, false))
    {
      hide NewTopSpace, SizeOf, Shapes;
      TopApart(words, h, fastbins, alignedBrk, topSize, brk, mapFloor);
      sbrkedMem := sbrkedMem + size + correction;
      top := alignedBrk;
      words := Poke(words, top + 4, topSize + 1);
      OddWord(topSize);
    }

    /** The new top takes over. */
    method Install(size: nat, correction: nat, alignedBrk: Addr, topSize: nat, oldSize: nat)
      requires Valid() && Books(h.chunks, sbrkedMem, lost, brk, mapFloor, false) && !fastChunks
      requires PendingTop(steady, h.chunks, lost, size + correction - topSize, alignedBrk, topSize, brk)
      requires NewTopSpace(h.chunks, alignedBrk, topSize, brk, mapFloor) && alignedBrk % 8 == 0 && topSize % 8 == 0
      requires Orderly(steady, tidy, contiguous, System())
      requires oldSize != 0 ==> top in h.chunks && h.top == Some(top) && h.chunks[top].size == oldSize
      requires oldSize == 0 ==> h.top == None
      modifies this
      ensures lastRemainder == old(lastRemainder)
      ensures Valid() && Accounted() && Calm(Store(old(words), old(h), old(fastbins), false), Store(words, h, fastbins, false))
      ensures TopWidth(h) == TopLeft(old(System()), alignedBrk + topSize, topSize, oldSize) && h.top == Some(alignedBrk)
    {
      hide *;
      ghost var s := Store(words, h, fastbins, false);
      ghost var y := System();
      ValidIs();
      SoundParts(s, top, maxFast, fastChunks, binmap);
      SpaceParts(h.chunks, alignedBrk, topSize, brk, mapFloor);
      PendingTopParts(steady, h.chunks, lost, size + correction - topSize, alignedBrk, topSize, brk);
      SystemIs();
      TopLeftIs(y, alignedBrk + topSize, topSize, oldSize);
      var oldTop := top;
      ghost var sbrked0, lost0 := sbrkedMem, lost;
      sbrkedMem := sbrkedMem + size + correction;
      lost := lost + (size + correction - topSize);
      top := alignedBrk;
      words := Poke(words, top + 4, topSize + 1);
      if oldSize != 0 {
        SystemIs();
        FenceOld(s, oldTop, oldSize, topSize, size, correction, sbrked0, lost0);
      } else {
        SystemIs();
        LimitsAre();
        BeginHeap(s, topSize, size, correction, sbrked0, lost0);
      }
    }

    /** The first top of all is in place. */
    ghost method BeginHeap(s: Store, topSize: nat, size: nat, correction: nat, sbrked0: int, lost0: int)
      requires Inv(s) && !s.open && BinsMapped(binmap, s.h.lists) && (!fastChunks ==> FastEmpty(s.h.lists))
      requires s.h.top == None && maxFast == DEFAULT_MAX_FAST
      requires NewTopSpace(s.h.chunks, top, topSize, brk, mapFloor) && top % 8 == 0 && topSize % 8 == 0
      requires words == Poke(s.m, top + 4, topSize + 1) && fastbins == s.fastbins
      requires Books(s.h.chunks, sbrked0, lost0, brk, mapFloor, false) && Orderly(steady, tidy, contiguous, System())
      requires sbrkedMem == sbrked0 + size + correction && lost == lost0 + (size + correction - topSize)
      requires steady ==> lost0 == 0 && topSize == size + correction && top + topSize == brk
      modifies this`h
      ensures Valid() && Accounted() && Calm(s, Store(words, h, fastbins, false))
      ensures TopWidth(h) == topSize && h.top == Some(top)
    {
      hide *;
      SpaceParts(s.h.chunks, top, topSize, brk, mapFloor);
      SystemIs();
      var u := Founded(s, top, topSize, maxFast, fastChunks, binmap);
      BooksFirst(s, u, top, topSize, size, correction, sbrked0, lost0, brk, mapFloor, steady);
      h := u.h;
      StoreOf(u, fastbins);
      OneTopWidth(h, top, topSize);
      AccountedIs();
      ValidIs();
    }

    /** The new top is in place; the old one, in the heap as it was, is closed. */
    method FenceOld(ghost s: Store, oldTop: Addr, oldSize: nat, ghost topSize: nat, ghost size: nat, ghost correction: nat,
                    ghost sbrked0: int, ghost lost0: int)
      requires Sound(s, oldTop, maxFast, fastChunks, binmap) && !fastChunks && !steady
      requires s.h.top == Some(oldTop) && oldTop in s.h.chunks && s.h.chunks[oldTop].size == oldSize
      requires NewTopSpace(s.h.chunks, top, topSize, brk, mapFloor) && top % 8 == 0 && topSize % 8 == 0
      requires words == Poke(s.m, top + 4, topSize + 1) && fastbins == s.fastbins
      requires Books(s.h.chunks, sbrked0, lost0, brk, mapFloor, false) && Orderly(steady, tidy, contiguous, System())
      requires sbrkedMem == sbrked0 + size + correction && lost == lost0 + (size + correction - topSize)
      modifies this
      ensures lastRemainder == old(lastRemainder)
      ensures Valid() && Accounted() && Calm(s, Store(words, h, fastbins, false))
      ensures TopWidth(h) == TopLeft(old(System()), old(top) + topSize, topSize, oldSize) && h.top == Some(old(top))
    {
      hide *;
      SoundParts(s, oldTop, maxFast, fastChunks, binmap);
      SpaceParts(s.h.chunks, top, topSize, brk, mapFloor);
      ghost var u := Refenced(s, oldTop, oldSize, top, topSize, maxFast, fastChunks, binmap);
      BooksNew(s, u, top, topSize, size, correction, sbrked0, lost0, brk, mapFloor);
      TopWidthIs(u.h, top, topSize);
      FenceOff(u, oldTop, oldSize);
      CalmThen(s, u, Store(words, h, fastbins, false));
    }

    /** Shrinks the old top, closes it with two fenceposts, and releases what is left.  The
        release of a large rest may trim the new top. */
    method FenceOff(ghost u: Store, oldTop: Addr, oldSize: nat)
      requires u.m == FenceWords(words, oldTop, oldSize) && u.fastbins == fastbins && !u.open
      requires TopField(top, u.h) && BinsMapped(binmap, u.h.lists) && !fastChunks && FastEmpty(u.h.lists)
      requires maxFast == DEFAULT_MAX_FAST && !steady && Books(u.h.chunks, sbrkedMem, lost, brk, mapFloor, steady)
      requires oldSize >= 16 && oldSize % 8 == 0 && Shrunk(oldSize) == oldSize - 16 && u.h.top == Some(top)
      requires oldSize >= 32 ==> Released(u, oldTop, oldSize - 16)
      requires oldSize < 32 ==> Sound(u, top, maxFast, fastChunks, binmap)
      requires Orderly(steady, tidy, contiguous, System()) && top != oldTop + (oldSize - 16)
      modifies this
      ensures lastRemainder == old(lastRemainder)
      ensures Valid() && Accounted() && Calm(u, Store(words, h, fastbins, false))
      ensures TopWidth(h) == TopLeft(old(System()), TopLimit(u.h), TopWidth(u.h), oldSize) && h.top == Some(old(top))
      ensures if oldSize >= 32 then GivenUp(u.h, false, old(System()), oldTop, h, fastChunks, System()) else h == u.h
    {
      hide *;
      ghost var y := System();
      FenceWordsAre(words, oldTop, oldSize);
      ShrunkCode(oldSize);
      CalmSame(u);
      if oldSize >= 32 { FenceWalls(words, oldTop, oldSize, top); }
      TopLeftIs(y, TopLimit(u.h), TopWidth(u.h), oldSize);
      LimitsAre();
      SystemIs();
      var shrunk: nat := (oldSize - 3 * SIZE_SZ) - (oldSize - 3 * SIZE_SZ) % ALIGNMENT;
      words := Poke(words, oldTop + 4, shrunk + 1);
      words := Poke(words, oldTop + shrunk + 4, SIZE_SZ + 1);
      words := Poke(words, oldTop + shrunk + 8, SIZE_SZ + 1);
      h := u.h;
      StoreOf(u, fastbins);
      AccountedIs();
      if shrunk >= MINSIZE {
        Release(oldTop, shrunk);
      } else {
        ValidIs();
      }
    }

    /** Where the usable part of new memory starts, and how large it is after the second
        request, which asks for the rest of the last page and for what top could not give. */
    method Align(b: Addr, size: nat, mapped: bool, oldSize: nat, ghost o: Offer)
        returns (alignedBrk: Addr, topSize: nat, correction: nat)
      requires Valid() && Books(h.chunks, sbrkedMem, lost, brk, mapFloor, false)
      requires o == Offer(Some(b), size, mapped, contiguous, System()) && (mapped ==> !contiguous)
      requires Pending(steady, h.chunks, lost, b, size, mapped, brk) && Orderly(steady, tidy, contiguous, System())
      requires b % 4 == 0 && (tidy ==> b % 8 == 0) && size % PAGE == 0
      requires NewMemory(h.chunks, b, size, mapped, brk, mapFloor)
      requires oldSize % 8 == 0 && (steady ==> h.chunks == map[])
      modifies this`brk, this`replies
      ensures Valid() && Books(h.chunks, sbrkedMem, lost, brk, mapFloor, false)
      ensures alignedBrk == (if contiguous then AlignedStart(b) else b) && alignedBrk + topSize == FreshEnd(o, oldSize)
      ensures System() == Settlement(o, oldSize) && Orderly(steady, tidy, contiguous, System())
      ensures NewTopSpace(h.chunks, alignedBrk, topSize, brk, mapFloor) && topSize % 4 == 0 && alignedBrk % 4 == 0
      ensures PendingTop(steady, h.chunks, lost, size + correction - topSize, alignedBrk, topSize, brk)
    {
      hide *;
      ghost var brk0 := brk;
      ValidIs();
      SystemIs();
      NewMemoryParts(h.chunks, b, size, mapped, brk, mapFloor);
      alignedBrk, correction := b, 0;
      var sndBrk := b + size;
      if contiguous {
        var frontMisalign := b % 8;
        if frontMisalign > 0 {
          correction := 8 - frontMisalign;
          alignedBrk := alignedBrk + correction;
        }
        correction := correction + oldSize;
        var endMisalign := b + size + correction;
        RoundedUp(endMisalign);
        correction := correction + (RoundUp(endMisalign) - endMisalign);
        StartIs(b, size, oldSize);
        var second := MorecoreMore(correction);
        SystemIs();
        if second == None {
          correction := 0;
          sndBrk := brk;
        } else {
          sndBrk := second.value;
        }
      } else {
        if !mapped {
          sndBrk := brk;
        }
      }
      SystemIs();
      SettledIs(o, oldSize);
      EndsInside(h.chunks, o, oldSize, steady, tidy, lost);
      topSize := sndBrk - alignedBrk + correction;
      BooksWider(h.chunks, sbrkedMem, lost, brk0, mapFloor, brk, mapFloor, false);
      ValidIs();
    }

    // ----- malloc -----

    /** *fb = victim->fd. */
    method TakeFast(nb: nat, victim: Addr)
      requires Valid() && nb % 8 == 0 && MINSIZE <= nb <= maxFast && |fastbins| == NFASTBINS && FastIndex(nb) < NFASTBINS
      requires victim == fastbins[FastIndex(nb)] != 0
      modifies this`fastbins, this`h
      ensures Valid() && Served(Store(words, old(h), old(fastbins), false), Store(words, h, fastbins, false), victim, nb)
      ensures HandedOut(old(h), h, victim, nb) && OfSize(h.chunks, victim, nb)
    {
      hide *;
      ghost var s := Store(words, h, fastbins, false);
      ValidIs();
      ghost var t := FastServe(s, FastIndex(nb), nb, top, maxFast, fastChunks, binmap);
      fastbins := fastbins[FastIndex(nb) := Fd(words, victim)];
      h := t.h;
      StoreOf(t, fastbins);
      ValidIs();
    }

    /** One pass over unsorted chunks, bins and top.
        @return the chunk handed out, or 0 if top is too small as well. */
    method SearchOnce(nb: nat) returns (p: Addr)
      requires Valid() && nb % 8 == 0 && nb >= MINSIZE && |h.lists| == LISTS
      requires Small(nb) ==> h.lists[SmallIndex(nb)] == []
      modifies this`words, this`h, this`binmap, this`lastRemainder, this`top
      ensures Valid() && |h.lists| == LISTS
      ensures p == 0 ==> Moved(Store(old(words), old(h), fastbins, false), Store(words, h, fastbins, false))
                         && (Small(nb) ==> h.lists[SmallIndex(nb)] == []) && h == AllPlaced(old(h))
                         && TopWidth(h) < nb + MINSIZE && NoFit(old(h).chunks, nb) && lastRemainder == old(lastRemainder)
      ensures p != 0 ==> Served(Store(old(words), old(h), fastbins, false), Store(words, h, fastbins, false), p, nb)
                         && (Small(nb) || BestFit(old(h).chunks, p, nb) || NoFit(old(h).chunks, nb))
                         && Fits(old(h), p, nb) && Chosen(old(h), old(lastRemainder), nb, p, h, lastRemainder)
    {
      hide *;
      ghost var s, last := Store(words, h, fastbins, false), lastRemainder;
      ValidIs();
      SoundParts(s, top, maxFast, fastChunks, binmap);
      p := ScanUnsorted(nb);
      ListsOf();
      if p != 0 {
        FreeFits(s.h, p, nb);
        ChosenUnsorted(s.h, last, nb, p, h, lastRemainder);
        return;
      }
      ghost var t := Store(words, h, fastbins, false);
      MovedParts(s, t);
      InvParts(t);
      StartBelow(h.chunks, h.lists, nb);
      var start: nat;
      if !Small(nb) {
        LargeRange(nb);
        p := ScanBin(nb);
        ListsOf();
        if p != 0 {
          MovedServed(s, t, Store(words, h, fastbins, false), p, nb);
          ChosenBinned(s.h, t.h, last, nb, p, h, lastRemainder);
          BestFitSame(s.h.chunks, t.h.chunks, p, nb);
          BestFits(s.h, p, nb);
          return;
        }
        start := LargeIndex(nb) + 1;
      } else {
        SkipSmall(t, nb);
        start := SmallIndex(nb) + 1;
      }
      p := SearchRest(nb, start, s, t);
    }

    /** The bins above that of the request, and then top. */
    method SearchRest(nb: nat, start: nat, ghost s: Store, ghost t: Store) returns (p: Addr)
      requires Valid() && nb % 8 == 0 && nb >= MINSIZE && |h.lists| == LISTS && h.lists[1] == []
      requires BinIndex(nb) < start < NBINS && NoneBelow(h.chunks, h.lists, nb, start)
      requires t == Store(words, h, fastbins, false) && Inv(s) && Moved(s, t) && (Small(nb) ==> h.lists[SmallIndex(nb)] == [])
      requires h == AllPlaced(s.h) && forall q :: !FromUnsorted(s.h, lastRemainder, nb, q)
      modifies this`words, this`h, this`binmap, this`lastRemainder, this`top
      ensures Valid() && |h.lists| == LISTS
      ensures p == 0 ==> Moved(s, Store(words, h, fastbins, false))
                         && (Small(nb) ==> h.lists[SmallIndex(nb)] == []) && h == AllPlaced(s.h)
                         && TopWidth(h) < nb + MINSIZE && NoFit(s.h.chunks, nb) && lastRemainder == old(lastRemainder)
      ensures p != 0 ==> Served(s, Store(words, h, fastbins, false), p, nb)
                         && (BestFit(s.h.chunks, p, nb) || NoFit(s.h.chunks, nb)) && Fits(s.h, p, nb)
                         && Chosen(s.h, old(lastRemainder), nb, p, h, lastRemainder)
    {
      hide *;
      MovedParts(s, t);
      p := SearchBins(nb, start);
      ListsOf();
      if p != 0 {
        MovedServed(s, t, Store(words, h, fastbins, false), p, nb);
        ChosenBinned(s.h, t.h, old(lastRemainder), nb, p, h, lastRemainder);
        BestFitSame(s.h.chunks, t.h.chunks, p, nb);
        BestFits(s.h, p, nb);
        return;
      }
      BestFitSame(s.h.chunks, t.h.chunks, p, nb);
      p := UseTop(nb);
      ListsOf();
      if p != 0 {
        OffTopEnd(t.h, h, p, nb);
        TopFits(s, t, p, nb);
        ChosenTop(s.h, lastRemainder, nb, p, h);
        MovedServed(s, t, Store(words, h, fastbins, false), p, nb);
      }
    }

    /** A small request looks into its own bin, which holds chunks of its exact size.  The
        bins of a zero-filled state have null links, which triggers initialisation. */
    method TrySmall(nb: nat) returns (p: Addr)
      requires (Valid() || Blank()) && Accounted() && nb % 8 == 0 && nb >= MINSIZE && Small(nb)
      modifies this
      ensures lastRemainder == old(lastRemainder)
      ensures Valid() && Accounted() && |h.lists| == LISTS && SmallIndex(nb) < LISTS
      ensures p == 0 ==> Calm(Store(old(words), old(h), old(fastbins), false), Store(words, h, fastbins, false))
                         && h.lists[SmallIndex(nb)] == [] && h == old(h) && SmallList(old(h), nb) == []
      ensures p != 0 ==> SmallList(old(h), nb) != [] && p == SmallList(old(h), nb)[|SmallList(old(h), nb)| - 1]
                         && HandedOut(old(h), h, p, nb) && FitsFree(old(h).chunks, p, nb) && old(h).chunks[p].size == nb
      ensures fastChunks ==> old(fastChunks)
      ensures p != 0 ==> Granted(Store(old(words), old(h), old(fastbins), false), Store(words, h, fastbins, false), p, nb)
      ensures p != 0 ==> Snug(h.chunks, p, nb) && Fits(old(h), p, nb)
      ensures unchanged(`contiguous, `mapFloor, `brk, `replies)
    {
      hide *;
      ghost var s := Store(words, h, fastbins, false);
      SmallRange(nb);
      CalmSame(s);
      var idx := SmallIndex(nb);
      EitherLast(idx);
      SmallListIs(h, nb);
      if Blank() { BlankLists(nb); }
      HeaderPositive(idx);
      var bin := BinAt(idx);
      var victim: Addr := Bk(words, bin);
      if victim != bin {
        if victim == 0 {
          p := InitFirst(idx);
        } else {
          LastParts(s, idx, victim);
          p := TakeSmall(idx, victim, nb);
        }
        return;
      }
      p := 0;
    }

    method TakeSmall(idx: nat, victim: Addr, nb: nat) returns (p: Addr)
      requires Valid() && Accounted() && nb % 8 == 0 && nb >= MINSIZE && Small(nb) && idx == SmallIndex(nb)
      requires LastOf(Store(words, h, fastbins, false), idx, victim)
      modifies this`words, this`h
      ensures Valid() && Accounted() && |h.lists| == LISTS && p != 0
      ensures Granted(Store(old(words), old(h), fastbins, false), Store(words, h, fastbins, false), p, nb)
      ensures Snug(h.chunks, p, nb) && Fits(old(h), p, nb) && p == victim
      ensures HandedOut(old(h), h, p, nb) && FitsFree(old(h).chunks, p, nb) && old(h).chunks[p].size == nb
    {
      hide *;
      ghost var s := Store(words, h, fastbins, false);
      LastParts(s, idx, victim);
      ExactBin(h.chunks[victim].size, nb, idx);
      FitHere(h.chunks, victim, nb);
      FreeFits(h, victim, nb);
      SomeMin();
      var bin := BinAt(idx);
      var bck: Addr := Bk(words, victim);
      var m := Poke(words, bin + 12, bck);
      m := Poke(m, bck + 8, bin);
      AccountedIs();
      HandWhole(m, victim, nb, nb);
      ServedGranted(s, Store(words, h, fastbins, false), victim, nb);
      BooksKept(s.h.chunks, h.chunks, sbrkedMem, lost, brk, mapFloor, steady);
      AccountedIs();
      ListsOf();
      p := victim;
    }

    /** The first call of all: malloc_consolidate() initialises the state. */
    method InitFirst(ghost idx: nat) returns (p: Addr)
      requires Blank() && Accounted() && idx < LISTS
      modifies this
      ensures lastRemainder == old(lastRemainder)
      ensures Valid() && Accounted() && |h.lists| == LISTS && h.lists[idx] == [] && p == 0 && FastEmpty(h.lists) && !fastChunks
      ensures Calm(Store(old(words), old(h), old(fastbins), false), Store(words, h, fastbins, false)) && h == old(h)
      ensures unchanged(`contiguous, `mapFloor, `brk, `replies)
    {
      AccountedIs();
      ghost var s := Store(words, h, fastbins, false);
      assert h.lists[idx] == [];
      assert h.chunks == map[];
      hide *;
      Consolidate();
      CalmEmpty(s, Store(words, h, fastbins, false));
      AccountedIs();
      ListsOf();
      p := 0;
    }

    /** last(bin) in an initialised or in a zero-filled state. */
    lemma EitherLast(idx: nat)
      requires (Valid() || Blank()) && 1 <= idx < NBINS
      ensures Bk(words, BinAt(idx)) >= 0
      ensures Bk(words, BinAt(idx)) == 0 ==> Blank()
      ensures Bk(words, BinAt(idx)) != 0 ==>
        Valid() && |h.lists| == LISTS && LISTS > NBINS
        && (Bk(words, BinAt(idx)) == BinAt(idx) <==> h.lists[idx] == [])
        && (Bk(words, BinAt(idx)) != BinAt(idx) ==> LastOf(Store(words, h, fastbins, false), idx, Bk(words, BinAt(idx))))
    {
      if Valid() {
        hide *;
        ghost var s := Store(words, h, fastbins, false);
        ValidIs();
        SoundParts(s, top, maxFast, fastChunks, binmap);
        LastChunk(s, idx);
        HeaderPositive(idx);
        if Bk(words, BinAt(idx)) != BinAt(idx) { LastParts(s, idx, Bk(words, BinAt(idx))); }
      } else {
        assert BinAt(idx) + 12 < LOW;
      }
    }

    /** A large request starts from a consolidated heap; on the first call of all that is
        the initialisation. */
    method EnsureConsolidated()
      requires (Valid() || Blank()) && Accounted()
      modifies this
      ensures lastRemainder == old(lastRemainder)
      ensures Valid() && Accounted() && |h.lists| == LISTS && FastEmpty(h.lists) && !fastChunks
      ensures Calm(Store(old(words), old(h), old(fastbins), false), Store(words, h, fastbins, false))
      ensures if old(fastChunks) then Poured(old(h), h) else h == old(h)
      ensures SameGround(old(h), h) && unchanged(`contiguous, `mapFloor, `brk, `replies)
    {
      ghost var s := Store(words, h, fastbins, false);
      SameGroundSelf(h);
      if maxFast == 0 {
        assert Blank() by { hide Inv; }
        assert fastChunks;
        hide *;
        ZeroIndex();
        var _ := InitFirst(0);
        PouredEmpty(h);
      } else {
        assert Valid();
        hide *;
        CalmSame(s);
        ValidIs();
        SoundParts(s, top, maxFast, fastChunks, binmap);
        if fastChunks {
          ConsolidateAll();
        }
        ListsOf();
      }
    }

    /** malloc_consolidate() once the state is initialised. */
    method ConsolidateAll()
      requires Valid() && Accounted()
      modifies this
      ensures lastRemainder == old(lastRemainder)
      ensures Valid() && Accounted() && FastEmpty(h.lists) && !fastChunks && |h.lists| == |old(h).lists| == LISTS
      ensures Calm(Store(old(words), old(h), old(fastbins), false), Store(words, h, fastbins, false))
      ensures forall i | 2 <= i < NBINS && h.lists[i] != [] :: old(h).lists[i] != []
      ensures unchanged(`contiguous, `mapFloor, `brk, `replies, `sbrkedMem, `lost) && SameGround(old(h), h)
      ensures Poured(old(h), h)
    {
      hide *;
      ghost var s := Store(words, h, fastbins, false);
      ValidIs();
      SoundParts(s, top, maxFast, fastChunks, binmap);
      MaxFastSet();
      AccountedIs();
      Consolidate();
      QuietParts(s, Store(words, h, fastbins, false));
      QuietGround(s, Store(words, h, fastbins, false));
      BooksKept(s.h.chunks, h.chunks, sbrkedMem, lost, brk, mapFloor, steady);
      AccountedIs();
      QuietCalm(s, Store(words, h, fastbins, false));
    }

    /** The retry loop: it goes round a second time only when fastbin chunks were left, which
        the consolidation in between takes away.  `pool` is the heap of the last round: the
        system is asked when nothing of it fits, and everything is merged by then. */
    method Search(nb: nat) returns (p: Addr, ghost pool: Heap)
      requires Valid() && Accounted() && nb % 8 == 0 && nb >= MINSIZE && |h.lists| == LISTS
      requires Small(nb) ==> h.lists[SmallIndex(nb)] == []
      requires !Small(nb) ==> !fastChunks
      modifies this
      ensures Jammed() || (Valid() && Accounted())
      ensures tidy ==> !Jammed()
      ensures Outcome(old(h), old(System()), old(contiguous), pool, nb, p != 0, Jammed())
      ensures p == 0 ==> Calm(Store(old(words), old(h), old(fastbins), false), Store(words, h, fastbins, false))
      ensures p != 0 ==> Granted(Store(old(words), old(h), old(fastbins), false), Store(words, h, fastbins, false), p, nb)
      ensures p != 0 ==> Snug(h.chunks, p, nb)
      ensures !Depleted(pool, nb) ==> System() == old(System())
      ensures PoolIs(old(h), old(fastChunks), pool, nb) && (!Small(nb) ==> pool == old(h) && Merged(pool.chunks))
      ensures p != 0 && !Small(nb) ==> BestFit(pool.chunks, p, nb) || NoFit(pool.chunks, nb)
      ensures p != 0 ==> Chosen(pool, old(lastRemainder), nb, p, h, lastRemainder)
      ensures p != 0 && Depleted(pool, nb) ==> FromDeal(pool, Asked(old(System()), old(contiguous), pool, nb), p, nb, h)
      ensures p == 0 ==> lastRemainder == old(lastRemainder)
    {
      hide *;
      ghost var s, y, c := Store(words, h, fastbins, false), System(), contiguous;
      CalmSame(s);
      SameGroundSelf(h);
      PoolSame(h, fastChunks, nb);
      SmallRange(nb);
      AccountedIs();
      if !fastChunks { MergedNow(); }
      while true
        invariant Valid() && Accounted() && |h.lists| == LISTS && Calm(s, Store(words, h, fastbins, false))
        invariant Small(nb) ==> h.lists[SmallIndex(nb)] == []
        invariant SameGround(s.h, h) && y == Sys(brk, mapFloor, replies) && contiguous == c
        invariant !Small(nb) ==> !fastChunks && h == s.h && Merged(s.h.chunks)
        invariant PoolIs(s.h, old(fastChunks), h, nb) && (fastChunks ==> h == s.h && old(fastChunks))
        invariant lastRemainder == old(lastRemainder)
        decreases if fastChunks then 1 else 0
      {
        ghost var t := Store(words, h, fastbins, false);
        pool := h;
        EitherHeap();
        p := Round(nb);
        ghost var u := Store(words, h, fastbins, false);
        if p != 0 {
          FitsOutcome(s.h, y, c, pool, nb, p);
          StandsStraight();
          CalmGranted(s, t, u, p, nb);
          SystemIs();
          return;
        }
        SameGroundThen(s.h, t.h, u.h);
        CalmThen(s, t, u);
        if fastChunks {
          ConsolidateAll();
          MergedNow();
          PoolMerged(s.h, u.h, h, nb);
          SameGroundThen(s.h, u.h, h);
          CalmThen(s, u, Store(words, h, fastbins, false));
        } else {
          SameAsked(y, c, t.h, u.h, nb);
          SystemIs();
          p := SysMalloc(nb);
          AskedOutcome(s.h, y, c, pool, nb, p, Jammed());
          if p != 0 {
            ChosenTop(pool, lastRemainder, nb, p, h);
            FromDealSame(u.h, Asked(y, c, pool, nb), p, nb, h, pool);
            CalmGranted(s, u, Store(words, h, fastbins, false), p, nb);
          } else {
            CalmThen(s, u, Store(words, h, fastbins, false));
          }
          return;
        }
      }
    }

    /** One round of the search, with what it means to the caller of malloc. */
    method Round(nb: nat) returns (p: Addr)
      requires Valid() && Accounted() && nb % 8 == 0 && nb >= MINSIZE && |h.lists| == LISTS
      requires Small(nb) ==> h.lists[SmallIndex(nb)] == []
      modifies this`words, this`h, this`binmap, this`lastRemainder, this`top
      ensures Valid() && Accounted() && |h.lists| == LISTS
      ensures p == 0 ==> Calm(Store(old(words), old(h), fastbins, false), Store(words, h, fastbins, false))
                         && SameGround(old(h), h) && (Small(nb) ==> h.lists[SmallIndex(nb)] == []) && h == AllPlaced(old(h))
                         && TopWidth(h) < nb + MINSIZE && NoFit(old(h).chunks, nb) && lastRemainder == old(lastRemainder)
                         && TopWidth(old(h)) == TopWidth(h) && TopLimit(old(h)) == TopLimit(h) && h.top == old(h).top
                         && (!fastChunks ==> WellFormed(old(h)) && Merged(old(h).chunks) && Depleted(old(h), nb))
      ensures p != 0 ==> Granted(Store(old(words), old(h), fastbins, false), Store(words, h, fastbins, false), p, nb)
                         && Snug(h.chunks, p, nb) && (Small(nb) || BestFit(old(h).chunks, p, nb) || NoFit(old(h).chunks, nb))
                         && Fits(old(h), p, nb) && Chosen(old(h), old(lastRemainder), nb, p, h, lastRemainder)
    {
      hide *;
      ghost var t := Store(words, h, fastbins, false);
      ghost var top0, binmap0 := top, binmap;
      AccountedIs();
      ValidIs();
      SoundParts(t, top, maxFast, fastChunks, binmap);
      p := SearchOnce(nb);
      ghost var u := Store(words, h, fastbins, false);
      if p != 0 {
        ServedGranted(t, u, p, nb);
      } else {
        MovedSpace(t, u);
        MovedGround(t, u);
        MovedWidth(t, u);
        if !fastChunks { AllMerged(t, top0, maxFast, fastChunks, binmap0, nb); }
      }
      BooksKept(t.h.chunks, h.chunks, sbrkedMem, lost, brk, mapFloor, steady);
      AccountedIs();
    }

    lemma MergedNow()
      requires Valid() && !fastChunks
      ensures Merged(h.chunks)
    {
      hide *;
      ghost var s := Store(words, h, fastbins, false);
      ValidIs();
      SoundParts(s, top, maxFast, fastChunks, binmap);
      InvParts(s);
      NoFastLeft(h);
    }

    /** malloc() of a padded request: the fastbin, the small bin or the consolidation, and the
        search.  @return the chunk, or 0; and the heap in which it was searched for last. */
    method Obtain(nb: nat) returns (p: Addr, ghost pool: Heap)
      requires (Valid() || Blank()) && Accounted() && nb % 8 == 0 && nb >= MINSIZE
      modifies this
      ensures Jammed() || (Valid() && Accounted())
      ensures tidy ==> !Jammed()
      ensures Outcome(old(h), old(System()), old(contiguous), pool, nb, p != 0, Jammed())
      ensures p == 0 ==> Calm(Store(old(words), old(h), old(fastbins), false), Store(words, h, fastbins, false))
      ensures p != 0 ==> Granted(Store(old(words), old(h), old(fastbins), false), Store(words, h, fastbins, false), p, nb)
      ensures p != 0 ==> Snug(h.chunks, p, nb)
      ensures !Depleted(pool, nb) ==> System() == old(System())
      ensures PoolIs(old(h), old(fastChunks), pool, nb) && (!Small(nb) ==> Merged(pool.chunks))
      ensures p != 0 && !Small(nb) ==> BestFit(pool.chunks, p, nb) || NoFit(pool.chunks, nb)
      ensures p != 0 ==> Picked(old(h), old(maxFast), old(lastRemainder), pool, nb, p, h, lastRemainder)
      ensures p != 0 && Depleted(pool, nb) ==> FromDeal(pool, Asked(old(System()), old(contiguous), pool, nb), p, nb, h)
      ensures p == 0 ==> lastRemainder == old(lastRemainder)
    {
      hide *;
      ghost var s, y, c := Store(words, h, fastbins, false), System(), contiguous;
      pool := h;
      EitherHeap();
      CalmSame(s);
      SystemIs();
      p := 0;
      ghost var fast, last, pending := maxFast, lastRemainder, fastChunks;
      LargeIsSlow(nb);
      if Small(nb) { PoolSame(h, pending, nb); }
      if nb <= maxFast {
        p := TryFast(nb);
        if p != 0 { PickedFast(s.h, fast, last, nb, p, h); }
      }
      if p == 0 {
        if Small(nb) {
          p := TrySmall(nb);
          if p != 0 { PickedSmall(s.h, fast, last, nb, p, h); }
          SameGroundSelf(s.h);
        } else {
          EnsureConsolidated();
          MergedNow();
        }
      }
      ghost var t := Store(words, h, fastbins, false);
      if p == 0 {
        SystemIs();
        ghost var more := fastChunks;
        p, pool := Search(nb);
        PoolBefore(s.h, pending, t.h, more, pool, nb);
        if p != 0 { PickedSearched(s.h, fast, last, pool, nb, p, h, lastRemainder); }
        OutcomeBefore(s.h, t.h, y, c, pool, nb, p != 0, Jammed());
        if p == 0 {
          CalmThen(s, t, Store(words, h, fastbins, false));
        } else {
          CalmGranted(s, t, Store(words, h, fastbins, false), p, nb);
        }
      } else {
        StandsStraight();
        SameGroundSelf(s.h);
        FitsOutcome(s.h, y, c, pool, nb, p);
        SystemIs();
      }
    }

    /** malloc().  @return the address of a payload, or 0.  `pool` is the heap in which the
        request was searched for last; for a large request it is the heap at entry after
        everything in the fastbins has been merged.  Where it holds something that fits, the
        request is served and the system is left alone; otherwise that depends on the system,
        exactly as `Asked` says. */
    method MALLOc(bytes: nat) returns (mem: Addr, ghost pool: Heap)
      requires (Valid() || Blank()) && Accounted()
      modifies this
      ensures Jammed() || ((Valid() || (Blank() && bytes >= REQUEST_LIMIT)) && Accounted())
      ensures old(Valid()) || mem != 0 ==> Jammed() || Valid()
      ensures tidy ==> !Jammed()
      ensures bytes >= REQUEST_LIMIT ==> mem == 0 && unchanged(this)
      ensures bytes < REQUEST_LIMIT ==>
        Outcome(old(h), old(System()), old(contiguous), pool, RequestToSize(bytes), mem != 0, Jammed())
      ensures mem == 0 && bytes < REQUEST_LIMIT ==> Depleted(old(h), RequestToSize(bytes))
      ensures steady && bytes < REQUEST_LIMIT && Depleted(pool, RequestToSize(bytes)) ==>
        (mem != 0 <==> old(replies) != []
                       && old(brk) + Wanted(RequestToSize(bytes), TopWidth(pool), true) <= old(mapFloor))
      ensures mem == 0 ==> Calm(Store(old(words), old(h), old(fastbins), false), Store(words, h, fastbins, false))
      ensures mem != 0 ==> Allotted(Store(old(words), old(h), old(fastbins), false), Store(words, h, fastbins, false), mem, bytes)
      ensures mem != 0 ==> Snug(h.chunks, mem - 8, RequestToSize(bytes))
      ensures bytes < REQUEST_LIMIT && !Depleted(pool, RequestToSize(bytes)) ==> System() == old(System())
      ensures bytes < REQUEST_LIMIT ==>
        PoolIs(old(h), old(fastChunks), pool, RequestToSize(bytes)) && (!Small(RequestToSize(bytes)) ==> Merged(pool.chunks))
      ensures mem != 0 ==>
        Picked(old(h), old(maxFast), old(lastRemainder), pool, RequestToSize(bytes), mem - 8, h, lastRemainder)
      ensures mem != 0 && Depleted(pool, RequestToSize(bytes)) ==>
        FromDeal(pool, Asked(old(System()), old(contiguous), pool, RequestToSize(bytes)), mem - 8, RequestToSize(bytes), h)
      ensures mem == 0 ==> lastRemainder == old(lastRemainder)
      ensures mem != 0 && !Small(RequestToSize(bytes)) ==>
        BestFit(pool.chunks, mem - 8, RequestToSize(bytes)) || NoFit(pool.chunks, RequestToSize(bytes))
    {
      hide *;
      ghost var s, y, c := Store(words, h, fastbins, false), System(), contiguous;
      LimitOf();
      StraightStart();
      CalmSame(s);
      StandsStraight();
      if bytes >= REQUEST_LIMIT {
        return 0, h;
      }
      RequestShape(bytes);
      EitherHeap();
      AccountedIs();
      BooksParts(h.chunks, sbrkedMem, lost, brk, mapFloor, steady);
      OrderlyParts(steady, tidy, contiguous, y);
      var nb := RequestToSize(bytes);
      var p: Addr;
      p, pool := Obtain(nb);
      if steady && Depleted(pool, nb) { SteadyOutcome(s.h, y, pool, nb, p != 0, Jammed()); }
      if p == 0 {
        FailsOnEmpty(s.h, y, c, pool, nb, Jammed());
        return 0, pool;
      }
      OutcomeGot(s.h, y, c, pool, nb, Jammed());
      ValidIs();
      SoundParts(Store(words, h, fastbins, false), top, maxFast, fastChunks, binmap);
      AllottedIntro(s, Store(words, h, fastbins, false), p, bytes);
      mem := p + 8;
    }

    lemma BlankLists(nb: nat)
      requires Blank()
      ensures SmallList(h, nb) == []
    {
    }

    /** A zero-filled state is not jammed either. */
    lemma StraightStart()
      ensures Blank() ==> !Jammed()
    {
    }

    /** In either kind of state the heap is well-formed. */
    lemma EitherHeap()
      requires Valid() || Blank()
      ensures WellFormed(h)
    {
      if Valid() {
        hide *;
        ValidIs();
        SoundParts(Store(words, h, fastbins, false), top, maxFast, fastChunks, binmap);
        InvParts(Store(words, h, fastbins, false));
      } else {
        hide Valid;
        EmptyHeap(h);
      }
    }

    /** A request that qualifies for a fastbin looks there first.  In a zero-filled state
        max_fast is 0, so that nothing qualifies. */
    method TryFast(nb: nat) returns (p: Addr)
      requires (Valid() || Blank()) && Accounted() && nb % 8 == 0 && MINSIZE <= nb <= maxFast
      modifies this`fastbins, this`h
      ensures Valid() && Accounted() && Small(nb)
      ensures p == 0 ==> unchanged(this) && FastList(old(h), nb) == []
      ensures p != 0 ==> FastList(old(h), nb) != [] && p == FastList(old(h), nb)[0] && HandedOut(old(h), h, p, nb)
                         && !FitsFree(old(h).chunks, p, nb)
      ensures p != 0 ==> Granted(Store(words, old(h), old(fastbins), false), Store(words, h, fastbins, false), p, nb)
      ensures p != 0 ==> Snug(h.chunks, p, nb) && Fits(old(h), p, nb)
    {
      assert Valid() by { hide Inv; }
      hide *;
      ghost var s := Store(words, h, fastbins, false);
      ValidIs();
      SoundParts(s, top, maxFast, fastChunks, binmap);
      FastCount(s);
      FastRange(nb);
      FastFirst(s, nb);
      var victim := fastbins[FastIndex(nb)];
      if victim == 0 {
        return 0;
      }
      AccountedIs();
      FastFits(s, FastIndex(nb), nb);
      TakeFast(nb, victim);
      ServedGranted(s, Store(words, h, fastbins, false), victim, nb);
      BooksKept(s.h.chunks, h.chunks, sbrkedMem, lost, brk, mapFloor, steady);
      AccountedIs();
      p := victim;
    }

    lemma ListsOf()
      requires Valid()
      ensures |h.lists| == LISTS
    {
      hide *;
      ValidIs();
      SoundParts(Store(words, h, fastbins, false), top, maxFast, fastChunks, binmap);
    }

    lemma ValidIs()
      ensures Valid() <==> Sound(Store(words, h, fastbins, false), top, maxFast, fastChunks, binmap)
    {
      hide Sound;
    }
  }

  lemma StoreOf(t: Store, fastbins: seq<Addr>)
    requires !t.open && t.fastbins == fastbins
    ensures t == Store(t.m, t.h, fastbins, false)
  {
  }

  lemma ServedSound(s: Store, t: Store, p: Addr, nb: nat, top: Addr, maxFast: nat, fastChunks: bool, binmap: seq<bv32>,
                    i: nat, k: nat)
    requires Sound(s, top, maxFast, fastChunks, binmap) && Served(s, t, p, nb) && t.h.top == s.h.top
    requires i < NBINS && i < |s.h.lists| && k < |s.h.lists[i]| && t.h.lists == s.h.lists[i := RemoveAt(s.h.lists[i], k)]
    ensures Sound(t, top, maxFast, fastChunks, binmap) && !t.open
  {
    hide Inv, NoLoose, Given;
  }

  lemma SmallRange(nb: nat)
    requires nb >= MINSIZE
    ensures 1 < NBINS < LISTS && (Small(nb) ==> 2 <= SmallIndex(nb) < NBINS) && MINSIZE == 16 && LOW > 0
    ensures BinAt(1) > 0
  {
  }

  lemma SoleList(l: seq<Addr>, v: Addr)
    requires |l| == 1 && v == l[0]
    ensures l == [v]
  {
  }

  /** Small chunks of another size belong to another bin. */
  lemma OtherSmall(size: nat, nb: nat)
    requires size != nb && size % 8 == 0 && nb % 8 == 0
    ensures Small(nb) ==> BinIndex(size) != SmallIndex(nb)
  {
    if Small(nb) && BinIndex(size) == SmallIndex(nb) {
      if !Small(size) { BinIndexRises(MIN_LARGE, size); }
      SmallBinExact(nb, size);
    }
  }

  lemma LastEmpty(s: Store)
    requires Inv(s) && !s.open && Bk(s.m, BinAt(1)) == BinAt(1)
    ensures |s.h.lists| == LISTS && s.h.lists[1] == []
  {
    LastChunk(s, 1);
  }

  lemma MovedServed(s: Store, t: Store, u: Store, p: Addr, nb: nat)
    requires Moved(s, t) && Served(t, u, p, nb)
    ensures Served(s, u, p, nb)
  {
    MovedParts(s, t);
    hide Inv, NoLoose, Quiet, Given;
    QuietGiven(s, t, u, p);
  }

  lemma LargeRange(nb: nat)
    requires !Small(nb)
    ensures LargeIndex(nb) == BinIndex(nb) && 64 <= LargeIndex(nb) < LargeIndex(nb) + 1 < NBINS < LISTS
  {
    BinIndexRange(nb);
  }

  lemma ViewWhole(s: Store, j: nat)
    requires Inv(s) && !s.open && NoLoose(s.h.chunks) && 1 <= j < NBINS
    ensures |s.h.lists| == LISTS && LISTS > NBINS && BinView(s.m, s.h.chunks, j, s.h.lists[j])
  {
    hide *;
    InvParts(s);
    ListCount();
    ListNodes(s.h.chunks, s.h.lists, j);
    BinLinked(s, j);
    var l := s.h.lists[j];
    forall i | 0 <= i < |l| ensures l[i] in s.h.chunks && Head(s.m, l[i]) == s.h.chunks[l[i]].size + 1 {
      MemberFree(s.h.chunks, j, l, i);
      FreeHeadWord(s, l[i]);
    }
    BinViewIntro(s.m, s.h.chunks, j, l);
  }

  lemma ViewSize(s: Store, j: nat, k: nat)
    requires Inv(s) && |s.h.lists| == LISTS && 1 <= j < NBINS < LISTS && k < |s.h.lists[j]|
    requires s.h.lists[j][k] in s.h.chunks && Head(s.m, s.h.lists[j][k]) == s.h.chunks[s.h.lists[j][k]].size + 1
    ensures SizeOf(Head(s.m, s.h.lists[j][k])) == s.h.chunks[s.h.lists[j][k]].size
  {
    hide *;
    InvParts(s);
    var q := s.h.lists[j][k];
    ShapeOf(s.h.chunks, q);
    EightFours(s.h.chunks[q].size);
    HeadIsSelf(s.h.chunks[q].size);
    HeadBits(Head(s.m, q), s.h.chunks[q].size);
  }

  /** The first chunk of the bin is its largest; comparing its size word with the request is
      as good as comparing its size. */
  lemma FirstFits(s: Store, q: Addr, nb: nat)
    requires Inv(s) && q in s.h.chunks && Head(s.m, q) == s.h.chunks[q].size + 1 && nb % 8 == 0
    ensures Head(s.m, q) >= nb <==> s.h.chunks[q].size >= nb
  {
    hide *;
    InvParts(s);
    ShapeOf(s.h.chunks, q);
    EightApart(s.h.chunks[q].size, nb);
  }

  lemma EightApart(a: nat, b: nat)
    requires a % 8 == 0 && b % 8 == 0
    ensures a + 1 >= b <==> a >= b
  {
  }

  lemma TooSmall(chunks: Chunks, q: Addr, nb: nat)
    requires q in chunks && chunks[q].size < nb
    ensures !FitsFree(chunks, q, nb)
  {
  }

  lemma FitHere(chunks: Chunks, q: Addr, nb: nat)
    requires q in chunks && IsFree(chunks[q].state) && chunks[q].size >= nb
    ensures FitsFree(chunks, q, nb)
  {
  }

  lemma MemberHere(s: Store, j: nat, k: nat)
    requires Inv(s) && |s.h.lists| == LISTS && 1 <= j < NBINS < LISTS && k < |s.h.lists[j]|
    ensures s.h.lists[j][k] in s.h.chunks && IsFree(s.h.chunks[s.h.lists[j][k]].state) && s.h.lists[j][k] > 0
    ensures s.h.chunks[s.h.lists[j][k]].state == Binned(j)
  {
    hide *;
    InvParts(s);
    ListIs(s.h.chunks, s.h.lists, j);
    MemberFree(s.h.chunks, j, s.h.lists[j], k);
    ShapeOf(s.h.chunks, s.h.lists[j][k]);
  }

  lemma ListIs(chunks: Chunks, lists: seq<seq<Addr>>, j: nat)
    requires Listed(chunks, lists) && j < NBINS
    ensures |lists| == LISTS && LISTS > NBINS && ListOk(chunks, j, lists[j])
  {
  }

  /** A bin whose first, largest chunk is too small holds no fit. */
  lemma NoneInBin(s: Store, j: nat, nb: nat)
    requires Inv(s) && |s.h.lists| == LISTS && 2 <= j < NBINS < LISTS
    requires s.h.lists[j] != [] ==> s.h.lists[j][0] in s.h.chunks && s.h.chunks[s.h.lists[j][0]].size < nb
    ensures forall i, k | j <= i < j + 1 && i < NBINS && 0 <= k < |s.h.lists[i]| :: !FitsFree(s.h.chunks, s.h.lists[i][k], nb)
  {
    hide *;
    ListedAll(s);
    LargestFirst(s.h.chunks, s.h.lists, j, nb);
  }

  lemma LargestFirst(chunks: Chunks, lists: seq<seq<Addr>>, j: nat, nb: nat)
    requires Listed(chunks, lists) && 2 <= j < |lists|
    requires lists[j] != [] ==> lists[j][0] in chunks && chunks[lists[j][0]].size < nb
    ensures forall k | 0 <= k < |lists[j]| :: !FitsFree(chunks, lists[j][k], nb)
  {
    assert ListOk(chunks, j, lists[j]);
    hide Listed, Suits, NoDup;
  }

  lemma BlockRange(i: nat)
    requires i < NBINS
    ensures i / 32 < 4 && i / 32 * 32 <= i <= (i / 32 + 1) * 32 && NBINS == 128
  {
  }

  lemma NoBinZero(s: Store)
    requires Inv(s)
    ensures |s.h.lists| == LISTS && LISTS > NBINS && s.h.lists[0] == []
  {
    hide Suits;
    assert ListOk(s.h.chunks, 0, s.h.lists[0]);
    if s.h.lists[0] != [] {
      assert Suits(0, s.h.chunks[s.h.lists[0][0]].size);
    }
    NoSuit();
  }

  lemma NoSuit()
    ensures forall size: nat :: !Suits(0, size)
  {
  }

  lemma MappedBins(s: Store, binmap: seq<bv32>)
    requires Inv(s) && BinsMapped(binmap, s.h.lists) && |s.h.lists| == LISTS && s.h.lists[1] == []
    ensures |binmap| == 4 && NBINS <= |s.h.lists| && NBINS == 128 && SegregatedFits.WORD_BITS == 32
    ensures |s.h.lists[..NBINS]| == 128
    ensures SegregatedFits.Mapped(s.h.lists[..NBINS], binmap)
  {
    hide SegregatedFits.On;
    NoBinZero(s);
    forall i: nat | SegregatedFits.Flag(binmap, i) ensures i < 128 {
    }
  }

  lemma SkipEmpty(s: Store, nb: nat, was: nat, idx: nat)
    requires Inv(s) && |s.h.lists| == LISTS && NBINS <= LISTS && was <= idx <= NBINS
    requires NoneBelow(s.h.chunks, s.h.lists, nb, was) && SegregatedFits.EmptyFrom(s.h.lists[..NBINS], was, idx)
    ensures NoneBelow(s.h.chunks, s.h.lists, nb, idx)
  {
    forall i | was <= i < idx ensures s.h.lists[i] == [] {
      assert s.h.lists[..NBINS][i] == s.h.lists[i];
    }
    NextBelow(s.h.chunks, s.h.lists, nb, was, idx);
  }

  lemma SkipOne(s: Store, nb: nat, idx: nat)
    requires Inv(s) && |s.h.lists| == LISTS && idx < NBINS <= LISTS && s.h.lists[idx] == []
    requires NoneBelow(s.h.chunks, s.h.lists, nb, idx)
    ensures NoneBelow(s.h.chunks, s.h.lists, nb, idx + 1)
  {
    NextBelow(s.h.chunks, s.h.lists, nb, idx, idx + 1);
  }

  lemma NoneAtAll(s: Store, nb: nat)
    requires Inv(s) && NoneBelow(s.h.chunks, s.h.lists, nb, NBINS)
    ensures NoFit(s.h.chunks, nb)
  {
    NoneLeft(s.h.chunks, s.h.lists, nb);
  }

  lemma LastIsBest(s: Store, nb: nat, idx: nat)
    requires Inv(s) && |s.h.lists| == LISTS && BinIndex(nb) < idx < NBINS <= LISTS && s.h.lists[idx] != [] && nb >= MINSIZE
    requires NoneBelow(s.h.chunks, s.h.lists, nb, idx)
    ensures var v := s.h.lists[idx][|s.h.lists[idx]| - 1];
            BestFit(s.h.chunks, v, nb) && v in s.h.chunks && nb <= s.h.chunks[v].size
  {
    hide *;
    BinIndexRange(nb);
    InvParts(s);
    HigherFits(s.h.chunks, s.h.lists, nb, idx, |s.h.lists[idx]| - 1);
    FitsParts(s.h.chunks, s.h.lists[idx][|s.h.lists[idx]| - 1], nb);
    BestInBin(s.h.chunks, s.h.lists, nb, idx, |s.h.lists[idx]| - 1);
  }

  lemma FitsParts(chunks: Chunks, q: Addr, nb: nat)
    requires FitsFree(chunks, q, nb)
    ensures q in chunks && nb <= chunks[q].size
  {
  }

  /** unmark_bin. */
  function UnmarkedBin(binmap: seq<bv32>, j: nat): seq<bv32> {
    if j / 32 < |binmap|
    then binmap[j / 32 := SegregatedFits.Unmark(binmap[j / 32], SegregatedFits.Bit(j % 32))] else binmap
  }

  lemma UnmarkSound(s: Store, top: Addr, maxFast: nat, fastChunks: bool, binmap: seq<bv32>, j: nat)
    requires Sound(s, top, maxFast, fastChunks, binmap) && j < |s.h.lists| && s.h.lists[j] == []
    ensures Sound(s, top, maxFast, fastChunks, UnmarkedBin(binmap, j))
  {
    hide SegregatedFits.Flag, SegregatedFits.Unmark, SegregatedFits.Bit, Inv, NoLoose;
    var b := UnmarkedBin(binmap, j);
    forall i: nat | 2 <= i < NBINS && s.h.lists[i] != [] ensures SegregatedFits.Flag(b, i) {
      if j / 32 < 4 { SegregatedFits.FlagUnmark(binmap, j, i); }
    }
  }

  /** chunksize(av->top): the header of the unsorted bin stands in for a top of size 0. */
  lemma TopWord(s: Store, top: Addr)
    requires Inv(s) && TopField(top, s.h)
    ensures s.h.top == None ==> SizeOf(Head(s.m, top)) == 0
    ensures s.h.top.Some? ==> top == s.h.top.value && top in s.h.chunks && SizeOf(Head(s.m, top)) == s.h.chunks[top].size
    ensures SizeOf(Head(s.m, top)) >= 0
  {
    hide *;
    TopFieldParts(top, s.h);
    if s.h.top.Some? {
      TopFacts(s);
      EightFours(s.h.chunks[top].size);
      HeadBits(Head(s.m, top), s.h.chunks[top].size);
    } else {
      BinZeroWord(s, top);
    }
  }

  lemma TopFieldParts(top: Addr, h: Heap)
    requires TopField(top, h)
    ensures h.top.Some? ==> top == h.top.value
    ensures h.top == None ==> top == BinAt(1)
    ensures h.top == None || h.top.Some?
  {
  }

  lemma BinZeroWord(s: Store, top: Addr)
    requires Inv(s) && top == BinAt(1)
    ensures SizeOf(Head(s.m, top)) == 0
  {
    assert Bk(s.m, BinAt(0)) == 0;
  }

  lemma TopSome(s: Store, top: Addr, size: nat, nb: nat)
    requires Inv(s) && TopField(top, s.h) && size >= nb + MINSIZE && nb % 8 == 0 && nb >= MINSIZE
    requires s.h.top == None ==> size == 0
    requires s.h.top.Some? ==> top == s.h.top.value && top in s.h.chunks && size == s.h.chunks[top].size
    ensures s.h.top == Some(top) && CanSplit(s.h.chunks, top, nb) && top in s.h.chunks && size == s.h.chunks[top].size
    ensures top > 0
  {
    assert Shaped(top, s.h.chunks[top]);
  }

  lemma TopServe(s: Store, p: Addr, nb: nat, top: Addr, maxFast: nat, fastChunks: bool, binmap: seq<bv32>) returns (t: Store)
    requires Sound(s, top, maxFast, fastChunks, binmap) && s.h.top == Some(p) && CanSplit(s.h.chunks, p, nb)
    ensures Served(s, t, p, nb) && Sound(t, p + nb, maxFast, fastChunks, binmap) && !t.open && t.fastbins == s.fastbins
    ensures OfSize(t.h.chunks, p, nb) && OffTop(s.h, t.h, p, nb)
    ensures p in s.h.chunks && nb <= s.h.chunks[p].size
    ensures t.m == Poke(Poke(s.m, p + nb + 4, s.h.chunks[p].size - nb + 1), p + 4, nb + 1)
  {
    hide *;
    SoundParts(s, top, maxFast, fastChunks, binmap);
    TopFacts(s);
    CutInside(s.h.chunks, p, nb);
    TopCutStep(s, p, nb);
    t := TopCut(s, p, nb);
    TopCutIs(s, p, nb);
    OffTopIs(s, p, nb);
    SomeMin();
    OfSizeIntro(t.h.chunks, p, nb);
    ServedIntro(s, t, p, nb);
    TopFieldNew(p + nb, t.h);
    SoundIntro(t, p + nb, maxFast, fastChunks, binmap);
  }

  lemma OffTopIs(s: Store, p: Addr, nb: nat)
    requires CanSplit(s.h.chunks, p, nb) && s.h.chunks[p].state == Top && s.h.top == Some(p) && nb > 0
    ensures OffTop(s.h, TopCut(s, p, nb).h, p, nb) && OfSize(TopCut(s, p, nb).h.chunks, p, nb)
    ensures TopCut(s, p, nb).h.top == Some(p + nb)
  {
  }

  lemma OffTopEnd(h: Heap, g: Heap, p: Addr, nb: nat)
    requires OffTop(h, g, p, nb)
    ensures g.top == Some(p + nb) && h.top == Some(p)
  {
  }

  /** What a heap in the allocator says of its lists. */
  lemma ListedAll(s: Store)
    requires Inv(s)
    ensures Listed(s.h.chunks, s.h.lists) && |s.h.lists| == LISTS && 1 < LISTS
  {
    hide *;
    InvParts(s);
    Parts(s.h);
    ListCount();
  }

  lemma SoleGone(h: Heap, p: Addr)
    requires |h.lists| > 1 && h.lists[1] == [p]
    ensures h.lists[1][0] == p && h.lists[1 := RemoveAt(h.lists[1], 0)] == h.lists[1 := []]
    ensures h.lists[1 := RemoveAt(h.lists[1], 0)][1] == []
  {
  }

  lemma TopCutIs(s: Store, p: Addr, nb: nat)
    requires CanSplit(s.h.chunks, p, nb) && s.h.chunks[p].state == Top && NoLoose(s.h.chunks)
    ensures var t := TopCut(s, p, nb);
            t.open == s.open && t.fastbins == s.fastbins && NoLoose(t.h.chunks)
            && t.m == Poke(Poke(s.m, p + nb + 4, s.h.chunks[p].size - nb + 1), p + 4, nb + 1)
  {
  }

  /** mark_bin. */
  function MarkedBin(binmap: seq<bv32>, j: nat): seq<bv32> {
    if j / 32 < |binmap|
    then binmap[j / 32 := SegregatedFits.Mark(binmap[j / 32], SegregatedFits.Bit(j % 32))] else binmap
  }

  lemma MarkMapped(binmap: seq<bv32>, ls: seq<seq<Addr>>, j: nat, s: seq<Addr>)
    requires BinsMapped(binmap, ls) && 2 <= j < NBINS
    ensures BinsMapped(MarkedBin(binmap, j), ls[j := s])
  {
    hide SegregatedFits.Flag, SegregatedFits.Mark, SegregatedFits.Bit;
    forall i: nat | 2 <= i < NBINS && ls[j := s][i] != [] ensures SegregatedFits.Flag(MarkedBin(binmap, j), i) {
      SegregatedFits.FlagMark(binmap, j, i);
    }
  }

  lemma UnsortedIsFree(chunks: Chunks, v: Addr)
    ensures v in chunks && chunks[v].state == Binned(1) ==> IsFree(chunks[v].state)
  {
  }

  lemma UnsortedStays(s: Store, u: Store, i: nat, k: nat)
    requires |s.h.lists| == LISTS && s.h.lists[1] == [] && i < |s.h.lists| && k < |s.h.lists[i]|
    requires u.h.lists == s.h.lists[i := RemoveAt(s.h.lists[i], k)]
    ensures |u.h.lists| == LISTS && u.h.lists[1] == []
  {
  }

  lemma CutSound(s: Store, u: Store, t: Store, p: Addr, nb: nat, top: Addr, maxFast: nat, fastChunks: bool,
                 binmap: seq<bv32>, i: nat, k: nat)
    requires Sound(s, top, maxFast, fastChunks, binmap) && Served(s, t, p, nb) && t.h.top == s.h.top
    requires i < NBINS && i < |s.h.lists| && k < |s.h.lists[i]| && u.h.lists == s.h.lists[i := RemoveAt(s.h.lists[i], k)]
    requires |u.h.lists| == LISTS && t.h.lists == u.h.lists[1 := [p + nb]]
    ensures Sound(t, top, maxFast, fastChunks, binmap) && !t.open
  {
    hide Inv, NoLoose, Given;
  }

  lemma SoleEmpty(s: Store, u: Store, p: Addr)
    requires |s.h.lists| == LISTS && u.h.lists == s.h.lists[1 := []]
    ensures |u.h.lists| == LISTS && u.h.lists[1] == []
  {
  }

  lemma RebinSound(s: Store, u: Store, t: Store, p: Addr, i: nat, k0: nat, j: nat, k: nat,
                   top: Addr, maxFast: nat, fastChunks: bool, binmap: seq<bv32>)
    requires Sound(s, top, maxFast, fastChunks, binmap) && Moved(s, t) && At(s, p, i, k0) && s.h.chunks[p].state == Binned(1)
    requires i < |s.h.lists| && k0 < |s.h.lists[i]| && u.h.lists == s.h.lists[i := RemoveAt(s.h.lists[i], k0)]
    requires 2 <= j < NBINS && j < |u.h.lists| && k <= |u.h.lists[j]| && t.h.lists == u.h.lists[j := InsertAt(u.h.lists[j], k, p)]
    ensures Sound(t, top, maxFast, fastChunks, MarkedBin(binmap, j))
    ensures |t.h.lists| == |s.h.lists| == LISTS && |t.h.lists[1]| < |s.h.lists[1]|
    ensures forall i' | 2 <= i' < NBINS && i' != j :: t.h.lists[i'] == s.h.lists[i']
  {
    hide Inv, NoLoose, SameFree, Quiet, MarkedBin;
    assert i == 1;
    MarkMapped(binmap, u.h.lists, j, InsertAt(u.h.lists[j], k, p));
  }

  /** The chunk moved is the last unsorted one, and goes to its place. */
  lemma RebinHeap(s: Store, i: nat, k0: nat, j: nat, k: nat, p: Addr, size: nat)
    requires Inv(s) && At(s, p, i, k0) && p in s.h.chunks && s.h.chunks[p].state == Binned(1) && s.h.chunks[p].size == size
    requires |s.h.lists| == LISTS && s.h.lists[1] != [] && p == s.h.lists[1][|s.h.lists[1]| - 1]
    requires j == BinIndex(size) && 2 <= j < NBINS && |Unhooked(s, i, k0).h.lists| == LISTS
    requires k == PlaceIn(Unhooked(s, i, k0).h.chunks, Unhooked(s, i, k0).h.lists[j], size)
    ensures CanPlace(s.h) && Linked1(Unhooked(s, i, k0), j, k, p).h == PlacedLast(s.h)
  {
    hide *;
    AtParts(s, p, i, k0);
    ListCount();
    InvParts(s);
    SameBin(s.h.chunks[p].state, i);
    LastPlace(s, k0, p);
    UnhookedIs(s, i, k0);
    UnlinkHeapParts(s.h, i, k0);
    PlaceSame(s.h.chunks, p, s.h.lists[j], size);
    RebinHeapIs(s, k0, j, k, p, size);
  }

  lemma SameBin(st: State, i: nat)
    requires st == Binned(1) && st == Binned(i)
    ensures i == 1
  {
  }

  lemma LastPlace(s: Store, k0: nat, p: Addr)
    requires Inv(s) && |s.h.lists| == LISTS && 1 < LISTS && k0 < |s.h.lists[1]| && s.h.lists[1][k0] == p
    requires p == s.h.lists[1][|s.h.lists[1]| - 1]
    ensures k0 == |s.h.lists[1]| - 1 && RemoveAt(s.h.lists[1], k0) == s.h.lists[1][..|s.h.lists[1]| - 1]
  {
    assert ListOk(s.h.chunks, 1, s.h.lists[1]);
    hide Inv, Members;
  }

  lemma RebinHeapIs(s: Store, k0: nat, j: nat, k: nat, p: Addr, size: nat)
    requires |s.h.lists| == LISTS && 1 < NBINS < LISTS && k0 < |s.h.lists[1]| && s.h.lists[1][k0] == p
    requires RemoveAt(s.h.lists[1], k0) == s.h.lists[1][..|s.h.lists[1]| - 1] && k0 == |s.h.lists[1]| - 1
    requires p in s.h.chunks && s.h.chunks[p].size == size && j == BinIndex(size) && 2 <= j < NBINS
    requires k == PlaceIn(s.h.chunks, s.h.lists[j], size)
    ensures CanPlace(s.h) && Linked1(Unhooked(s, 1, k0), j, k, p).h == PlacedLast(s.h)
  {
    hide *;
    UnhookedIs(s, 1, k0);
    UnlinkHeapParts(s.h, 1, k0);
    SetIs(s.h.chunks, p, Loose);
    Linked1Is(Unhooked(s, 1, k0), j, k, p);
    PlacedLastIs(s.h, k0, j, k, p, size);
  }

  /** A chunk in the allocator's hands whose tags are those of a chunk in use. */
  ghost predicate Released(s: Store, p: Addr, size: nat) {
    && Inv(s) && !s.open && LooseOnly(s.h.chunks, p) && p in s.h.chunks && s.h.chunks[p].size == size
    && Tagged(s.m, p, Chunk(size, Used))
  }

  lemma ReleasedParts(s: Store, p: Addr, size: nat)
    requires Released(s, p, size)
    ensures Inv(s) && !s.open && LooseOnly(s.h.chunks, p) && p in s.h.chunks && s.h.chunks[p].size == size
    ensures Tagged(s.m, p, Chunk(size, Used))
  {
  }

  lemma DoneSound(s: Store, t: Store, top: Addr, maxFast: nat, fastChunks: bool, binmap: seq<bv32>)
    requires Done(s, t) && TopField(top, t.h) && maxFast == DEFAULT_MAX_FAST
    requires BinsMapped(binmap, s.h.lists) && (!fastChunks ==> FastEmpty(s.h.lists))
    ensures Sound(t, top, maxFast, fastChunks, binmap)
  {
    hide Inv, NoLoose, Quiet;
  }

  lemma FastEven(chunks: Chunks, f: nat, l: seq<Addr>, size: nat)
    requires ListOk(chunks, NBINS + f, l) && Shapes(chunks) && size >= MINSIZE && f == FastIndex(size) && size % 8 == 0
    ensures Members(chunks, NBINS + f, l) && FitsAt(chunks, l, 0, size)
  {
    forall j | 0 <= j < |l| ensures chunks[l[j]].size == size {
      assert Shaped(l[j], chunks[l[j]]);
      assert Suits(NBINS + f, chunks[l[j]].size);
    }
  }

  /** The fastbin of a small chunk, and why the chunk may go there. */
  method FastPlace(ghost s: Store, ghost p: Addr, size: nat) returns (f: nat)
    requires Released(s, p, size) && size <= DEFAULT_MAX_FAST
    ensures f < NFASTBINS && MayLink(s.h, NBINS + f, 0, p) && |s.fastbins| == NFASTBINS && |s.h.lists| == LISTS
    ensures size >= MINSIZE && f == FastIndex(size)
  {
    assert Shaped(p, s.h.chunks[p]);
    f := FastIndex(size);
    assert ListOk(s.h.chunks, NBINS + f, s.h.lists[NBINS + f]);
    FastEven(s.h.chunks, f, s.h.lists[NBINS + f], size);
    hide Tagged, Tags, AllLinked, AllChained, Ordered, Followed, Preceded, Apart, TopIs;
  }

  lemma PushedStore(s: Store, f: nat, p: Addr, size: nat) returns (t: Store)
    requires Released(s, p, size) && f < NFASTBINS && MayLink(s.h, NBINS + f, 0, p) && |s.fastbins| == NFASTBINS && |s.h.lists| == LISTS
    ensures t == Pushed(s, f, p) && Inv(t) && Quiet(s, t) && t.m == Poke(s.m, p + 8, s.fastbins[f])
    ensures t.fastbins == s.fastbins[f := p] && !t.open && NoLoose(t.h.chunks) && t.h.top == s.h.top && Calm(s, t)
    ensures |t.h.lists| == LISTS && forall i | 0 <= i < NBINS :: t.h.lists[i] == s.h.lists[i]
    ensures SameSpace(s.h.chunks, t.h.chunks)
  {
    hide *;
    ReleasedParts(s, p, size);
    ListCount();
    MayLinkParts(s.h, NBINS + f, 0, p);
    PushStep(s, f, p);
    t := Pushed(s, f, p);
    PushedIs(s, f, p);
    LinkHeapParts(s.h, NBINS + f, 0, p);
    PokeIs(s.m, p + 8, s.fastbins[f]);
    SettleNone(s.h.chunks, p, Binned(NBINS + f));
    QuietCalm(s, t);
    QuietParts(s, t);
  }

  lemma PushedSound(s: Store, t: Store, p: Addr, f: nat, top: Addr, maxFast: nat, fastChunks: bool, binmap: seq<bv32>)
    requires Inv(t) && !t.open && NoLoose(t.h.chunks) && t.h.top == s.h.top && TopField(top, s.h) && maxFast == DEFAULT_MAX_FAST
    requires |t.h.lists| == LISTS && BinsMapped(binmap, s.h.lists) && forall i | 0 <= i < NBINS :: t.h.lists[i] == s.h.lists[i]
    requires fastChunks
    ensures Sound(t, top, maxFast, fastChunks, binmap)
  {
    hide Inv, NoLoose;
  }

  lemma MaxFastSet()
    ensures DEFAULT_MAX_FAST != 0
  {
  }

  /** Memory the system has just given: nothing of the heap is there. */
  ghost predicate NewMemory(chunks: Chunks, b: Addr, size: nat, mapped: bool, brk: Addr, mapFloor: Addr) {
    && size % 8 == 0 && size >= PAGE && b >= LOW && brk <= mapFloor
    && (if mapped then b == mapFloor && b % 8 == 0 && Clear(chunks, b, b + size)
        else b + size <= brk && Clear(chunks, b, mapFloor))
  }

  lemma NewMemoryParts(chunks: Chunks, b: Addr, size: nat, mapped: bool, brk: Addr, mapFloor: Addr)
    requires NewMemory(chunks, b, size, mapped, brk, mapFloor)
    ensures size % 8 == 0 && size >= 4096 && PAGE == 4096 && b >= LOW && brk <= mapFloor
    ensures mapped ==> b == mapFloor && b % 8 == 0 && Clear(chunks, b, b + size)
    ensures !mapped ==> b + size <= brk && Clear(chunks, b, mapFloor)
  {
  }

  lemma SbrkClear(chunks: Chunks, brk0: Addr, mapFloor: Addr, b: Addr, size: nat, brk: Addr)
    requires Owned(chunks, brk0, mapFloor) && Shapes(chunks) && brk0 <= b && b + size <= brk <= mapFloor
    requires size % PAGE == 0 && size >= PAGE && LOW <= brk0
    ensures NewMemory(chunks, b, size, false, brk, mapFloor)
  {
    OwnedClear(chunks, brk0, mapFloor, b, mapFloor);
    PageEights(size);
  }

  lemma PageEights(size: nat)
    requires size % PAGE == 0
    ensures size % 8 == 0
  {
    var k := size / PAGE;
    assert size == 8 * (512 * k);
  }

  lemma MappedClear(chunks: Chunks, brk: Addr, floor0: Addr, b: Addr, size: nat)
    requires Owned(chunks, brk, floor0) && Shapes(chunks) && brk <= b && b + size <= floor0 && size > 0
    ensures Clear(chunks, b, b + size)
  {
    OwnedClear(chunks, brk, floor0, b, b + size);
  }

  lemma MappedIs(chunks: Chunks, b: Addr, size: nat, brk: Addr, mapFloor: Addr, floor0: Addr)
    requires Clear(chunks, b, b + size) && b == mapFloor && brk <= b && b % 8 == 0 && size % PAGE == 0 && size > 0
    requires LOW <= brk
    ensures NewMemory(chunks, b, size, true, brk, mapFloor)
  {
    PageEights(size);
  }

  lemma BooksWider(chunks: Chunks, sbrked: int, lost: int, brk: Addr, floor: Addr, brk': Addr, floor': Addr, steady: bool)
    requires Books(chunks, sbrked, lost, brk, floor, steady) && brk <= brk' <= floor' <= floor
    ensures Books(chunks, sbrked, lost, brk', floor', false)
  {
  }

  /** Space for a new top, aligned or not. */
  ghost predicate NewTopSpace(chunks: Chunks, a: Addr, n: nat, brk: Addr, mapFloor: Addr) {
    Clear(chunks, a, a + n) && n >= MINSIZE && a >= LOW && (a + n <= brk || mapFloor <= a) && brk <= mapFloor
  }

  lemma SpaceParts(chunks: Chunks, a: Addr, n: nat, brk: Addr, mapFloor: Addr)
    requires NewTopSpace(chunks, a, n, brk, mapFloor)
    ensures a % 8 == 0 && n % 8 == 0 ==> Room(chunks, a, n)
    ensures (a + n <= brk || mapFloor <= a) && brk <= mapFloor && n >= MINSIZE && a >= LOW
  {
  }

  lemma OddWord(n: nat)
    requires n % 4 == 0
    ensures SizeOf(n + 1) == n
  {
    FourMod(n);
  }

  /** The size word of a new top lies in no payload. */
  lemma TopApart(m: Words, h: Heap, fastbins: seq<Addr>, a: Addr, n: nat, brk: Addr, mapFloor: Addr)
    requires NewTopSpace(h.chunks, a, n, brk, mapFloor) && Shapes(h.chunks)
    ensures Calm(Store(m, h, fastbins, false), Store(Poke(m, a + 4, n + 1), h, fastbins, false)) && a >= LOW
  {
    forall b, w | Payload(h.chunks, b, w) ensures Poke(m, a + 4, n + 1)[w] == m[w] {
      assert Shaped(b, h.chunks[b]);
    }
  }

  lemma LinedEnd(a: nat, n: nat)
    requires a % 4 == 0
    ensures a % 8 == 0 ==> ((a + n) % 8 == 0 <==> n % 8 == 0)
  {
    if a % 8 == 0 { SumEights(a, n); }
  }

  /** Where the new top lies, as the offer and the second answer make it. */
  lemma EndsInside(chunks: Chunks, o: Offer, oldSize: nat, steady: bool, tidy: bool, lost: int)
    requires o.start.Some? && (o.mapped ==> !o.contiguous) && o.start.value % 4 == 0 && o.size % PAGE == 0
    requires NewMemory(chunks, o.start.value, o.size, o.mapped, o.after.brk, o.after.floor)
    requires Orderly(steady, tidy, o.contiguous, o.after) && (tidy ==> o.start.value % 8 == 0) && (steady ==> chunks == map[])
    requires Pending(steady, chunks, lost, o.start.value, o.size, o.mapped, o.after.brk)
    ensures var y := Settlement(o, oldSize);
            var a := if o.contiguous then AlignedStart(o.start.value) else o.start.value;
            var e := FreshEnd(o, oldSize);
            && y.floor == o.after.floor && o.after.brk <= y.brk <= y.floor && a <= e && a % 4 == 0 && (e - a) % 4 == 0
            && NewTopSpace(chunks, a, e - a, y.brk, y.floor) && Orderly(steady, tidy, o.contiguous, y)
            && PendingTop(steady, chunks, lost, o.size + Counted(o, oldSize) - (e - a), a, e - a, y.brk)
  {
    hide *;
    var y, a, e := Settlement(o, oldSize), if o.contiguous then AlignedStart(o.start.value) else o.start.value, FreshEnd(o, oldSize);
    NewMemoryParts(chunks, o.start.value, o.size, o.mapped, o.after.brk, o.after.floor);
    PageIs();
    EndsWhere(o, oldSize);
    OrderlyParts(steady, tidy, o.contiguous, o.after);
    EndsWhole(o, oldSize);
    FourLess(a, e);
    SettledOrderly(o, oldSize, steady, tidy);
    SpaceIntro(chunks, o.start.value, o.size, o.mapped, o.after.brk, a, e - a, y.brk, y.floor);
    if steady {
      PendingParts(steady, chunks, lost, o.start.value, o.size, o.mapped, o.after.brk);
      StartIs(o.start.value, o.size, oldSize);
      SettledEven(o, oldSize);
    }
    PendingTopIntro(steady, chunks, lost, o.size + Counted(o, oldSize) - (e - a), a, e - a, y.brk);
  }

  lemma PageIs()
    ensures PAGE == 4096
  {
  }

  lemma FourLess(a: nat, b: nat)
    requires a % 4 == 0 && b % 4 == 0
    ensures (b - a) % 4 == 0
  {
    var j, k := a / 4, b / 4;
    assert b - a == 4 * (k - j);
  }

  lemma SpaceIntro(chunks: Chunks, b: Addr, size: nat, mapped: bool, brk0: Addr, a: Addr, n: nat, brk: Addr, mapFloor: Addr)
    requires NewMemory(chunks, b, size, mapped, brk0, mapFloor) && b <= a && n >= MINSIZE && brk0 <= brk <= mapFloor
    requires if mapped then a == b && n == size else a + n <= brk
    ensures NewTopSpace(chunks, a, n, brk, mapFloor)
  {
  }

  /** What the offer is for the heap and its accounts. */
  lemma OfferNew(chunks: Chunks, sbrked: int, lost: int, y: Sys, steady: bool, tidy: bool, contiguous: bool, oldSize: nat, nb: nat)
    requires Shapes(chunks) && Books(chunks, sbrked, lost, y.brk, y.floor, steady) && Orderly(steady, tidy, contiguous, y)
    requires oldSize < nb + MINSIZE
    ensures var o := Offered(y, contiguous, oldSize, nb);
            && Orderly(steady, tidy, o.contiguous, o.after) && o.size % PAGE == 0
            && (o.start == None ==> Books(chunks, sbrked, lost, o.after.brk, o.after.floor, steady))
            && (o.start.Some? ==>
                  && NewMemory(chunks, o.start.value, o.size, o.mapped, o.after.brk, o.after.floor)
                  && o.start.value % 4 == 0 && (tidy ==> o.start.value % 8 == 0)
                  && Books(chunks, sbrked, lost, o.after.brk, o.after.floor, false)
                  && Pending(steady, chunks, lost, o.start.value, o.size, o.mapped, o.after.brk))
  {
    hide *;
    var o := Offered(y, contiguous, oldSize, nb);
    OfferSystem(y, steady, tidy, contiguous, oldSize, nb);
    OfferSize(y, contiguous, oldSize, nb);
    OfferMap(y, contiguous, oldSize, nb);
    BooksParts(chunks, sbrked, lost, y.brk, y.floor, steady);
    if o.start.Some? {
      if o.mapped {
        PageIs();
        MappedClear(chunks, y.brk, y.floor, o.start.value, o.size);
        MappedIs(chunks, o.start.value, o.size, o.after.brk, o.after.floor, y.floor);
      } else {
        SbrkClear(chunks, y.brk, y.floor, o.start.value, o.size, o.after.brk);
      }
      BooksWider(chunks, sbrked, lost, y.brk, y.floor, o.after.brk, o.after.floor, steady);
      PendingIntro(steady, chunks, lost, o.start.value, o.size, o.mapped, o.after.brk);
    }
  }

  lemma TopMeasure(s: Store, top: Addr)
    requires Inv(s) && TopField(top, s.h)
    ensures TopWidth(s.h) == SizeOf(Head(s.m, top)) && TopLimit(s.h) == top + TopWidth(s.h)
    ensures s.h.top.Some? ==> s.h.top == Some(top) && top in s.h.chunks && TopWidth(s.h) == s.h.chunks[top].size
    ensures TopWidth(s.h) > 0 ==> s.h.top.Some?
  {
    TopWord(s, top);
    hide Inv, SizeOf;
  }

  /** Top is as large as before if it is where it was. */
  lemma WidthStays(s: Store, t: Store)
    requires Inv(s) && Inv(t) && Quiet(s, t) && s.h.top == t.h.top
    ensures TopWidth(s.h) == TopWidth(t.h) && TopLimit(s.h) == TopLimit(t.h)
  {
    if s.h.top.Some? { TopStays(s.h, t.h); }
    hide Inv, Quiet;
  }

  lemma LessFour(a: nat, b: nat)
    requires b % 8 == 0 && b <= a
    ensures a % 4 == 0 ==> (a - b) % 4 == 0
  {
    if a % 4 == 0 {
      EightIsFour(b);
      FourLess(b, a);
    }
  }

  lemma LowerOrderly(steady: bool, tidy: bool, contiguous: bool, y: Sys, released: nat)
    requires Orderly(steady, tidy, contiguous, y) && released % 8 == 0 && released <= y.brk
    ensures Orderly(steady, tidy, contiguous, y.(brk := y.brk - released))
  {
    hide *;
    OrderlyParts(steady, tidy, contiguous, y);
    LessFour(y.brk, released);
    if tidy {
      TidyParts(y);
      LessEight(y.brk, released);
    }
    OrderlyTrimmed(steady, tidy, contiguous, y, y.(brk := y.brk - released));
  }

  lemma LimitsAre()
    ensures LARGE_RELEASE == 65536 && MINSIZE == 16 && DEFAULT_MAX_FAST == 72
  {
  }

  lemma AskedIs(y: Sys, contiguous: bool, h: Heap, nb: nat)
    ensures Asked(y, contiguous, h, nb) == Struck(Offered(y, contiguous, TopWidth(h), nb), TopLimit(h), TopWidth(h))
  {
    hide Offered, Struck;
  }

  lemma TidyAsked(steady: bool, tidy: bool, contiguous: bool, y: Sys, h: Heap, nb: nat)
    requires Orderly(steady, tidy, contiguous, y) && TopWidth(h) < nb + MINSIZE
    ensures tidy ==> Lined(Asked(y, contiguous, h, nb))
  {
    if tidy { TidyLined(y, contiguous, TopLimit(h), TopWidth(h), nb); }
    hide Lined, Dealt, Tidy, Even;
  }

  lemma OneTopWidth(h: Heap, a: Addr, n: nat)
    requires h.chunks == map[a := Chunk(n, Top)] && h.top == Some(a)
    ensures TopWidth(h) == n && TopLimit(h) == a + n
  {
  }

  lemma TopWidthIs(h: Heap, a: Addr, n: nat)
    requires h.top == Some(a) && a in h.chunks && h.chunks[a] == Chunk(n, Top)
    ensures TopWidth(h) == n && TopLimit(h) == a + n
  {
  }

  /** The fenceposts keep the rest of the old top to itself. */
  lemma FenceWalls(m: Words, t: Addr, size: nat, top: Addr)
    requires size >= 32 && size % 8 == 0 && Shrunk(size) == size - 16 && top != t + (size - 16)
    ensures Walled(FenceWords(m, t, size), t, size - 16, top)
  {
    hide *;
    FenceHeads(m, t, size);
    EightIsFour(size);
    FourSum(size, -16);
    OddHeads(size - 16);
    WalledIs(FenceWords(m, t, size), t, size - 16, top);
  }

  lemma FenceHeads(m: Words, t: Addr, size: nat)
    requires size >= 32 && Shrunk(size) == size - 16
    ensures var n := FenceWords(m, t, size);
            Head(n, t) == size - 16 + 1 && Head(n, t + (size - 16)) == 5 && n[t + (size - 16) + 4 + 4] == 5
  {
  }

  lemma OddHeads(n: nat)
    requires n % 4 == 0
    ensures SizeOf(5) == 4 && PrevInuse(5) && PrevInuse(n + 1)
  {
    var k := n / 4;
    assert n == 4 * k;
    TwoMod(k);
  }

  // ----- how a request ends -----

  /** A request for nb bytes from heap h ends as it must.  The pool is h, rearranged.  If anything
      there fits, the request is served; otherwise everything has been merged, and it depends
      on what the system deals out whether it is served, and whether the allocator is jammed. */
  ghost predicate Outcome(h: Heap, y: Sys, contiguous: bool, pool: Heap, nb: nat, got: bool, jammed: bool) {
    && WellFormed(pool) && SameGround(h, pool)
    && if Depleted(pool, nb) then
         && Merged(pool.chunks)
         && (jammed <==> !Lined(Asked(y, contiguous, pool, nb)))
         && (got <==> Lined(Asked(y, contiguous, pool, nb)) && Delivers(Asked(y, contiguous, pool, nb), nb))
       else got && !jammed
  }

  /** The heap in which a request is served: the one at entry, or, where chunks were pending in
      fastbins, that in which they have been given back and everything is merged; for a small
      request this comes after all unsorted chunks have gone to their bins, and only if nothing
      fitted. */
  ghost predicate PoolIs(h: Heap, pending: bool, pool: Heap, nb: nat) {
    if !pending then pool == h
    else if Small(nb) then
      pool == h || (Merged(pool.chunks) && NoFit(h.chunks, nb) && TopWidth(h) < nb + MINSIZE && Poured(AllPlaced(h), pool))
    else Merged(pool.chunks) && Poured(h, pool)
  }

  lemma PoolSame(h: Heap, pending: bool, nb: nat)
    requires pending ==> Small(nb)
    ensures PoolIs(h, pending, h, nb)
  {
    hide AllPlaced, Poured;
  }

  lemma PoolMerged(h: Heap, u: Heap, pool: Heap, nb: nat)
    requires Merged(pool.chunks) && NoFit(h.chunks, nb) && TopWidth(h) < nb + MINSIZE && Small(nb)
    requires u == AllPlaced(h) && Poured(u, pool)
    ensures PoolIs(h, true, pool, nb)
  {
    hide AllPlaced, Poured, Merged;
  }

  /** The search starts from the heap at entry, or from the consolidated one. */
  lemma PoolBefore(h: Heap, pending: bool, g: Heap, more: bool, pool: Heap, nb: nat)
    requires if Small(nb) then g == h && (more ==> pending) && PoolIs(g, more, pool, nb)
             else pool == g && if pending then Merged(g.chunks) && Poured(h, g) else g == h
    ensures PoolIs(h, pending, pool, nb)
  {
    hide Merged, NoFit, AllPlaced, Poured;
  }

  /** The list of the fastbin of a size, and of its small bin. */
  ghost function FastList(h: Heap, nb: nat): seq<Addr> {
    if nb >= MINSIZE then ListAt(h, NBINS + FastIndex(nb)) else []
  }

  ghost function SmallList(h: Heap, nb: nat): seq<Addr> {
    ListAt(h, SmallIndex(nb))
  }

  lemma SmallListIs(h: Heap, nb: nat)
    ensures |h.lists| == LISTS && SmallIndex(nb) < LISTS ==> SmallList(h, nb) == h.lists[SmallIndex(nb)]
  {
  }

  /** Which chunk serves a request of nb bytes: the first of the fastbin of its size, if it has
      one; or else, if the request is small, the last of the bin of its size; or else what the
      search of the pool chooses. */
  ghost predicate Picked(h: Heap, maxFast: nat, last: Addr, pool: Heap, nb: nat, p: Addr, after: Heap, last': Addr) {
    if nb <= maxFast && FastList(h, nb) != [] then
      p == FastList(h, nb)[0] && HandedOut(h, after, p, nb) && last' == last
    else if Small(nb) && SmallList(h, nb) != [] then
      p == SmallList(h, nb)[|SmallList(h, nb)| - 1] && HandedOut(h, after, p, nb) && last' == last
    else Chosen(pool, last, nb, p, after, last')
  }

  lemma PickedFast(h: Heap, maxFast: nat, last: Addr, nb: nat, p: Addr, after: Heap)
    requires nb <= maxFast && FastList(h, nb) != [] && p == FastList(h, nb)[0] && HandedOut(h, after, p, nb)
    ensures Picked(h, maxFast, last, h, nb, p, after, last)
  {
    hide HandedOut;
  }

  lemma PickedSmall(h: Heap, maxFast: nat, last: Addr, nb: nat, p: Addr, after: Heap)
    requires (nb <= maxFast ==> FastList(h, nb) == []) && Small(nb) && SmallList(h, nb) != []
    requires p == SmallList(h, nb)[|SmallList(h, nb)| - 1] && HandedOut(h, after, p, nb)
    ensures Picked(h, maxFast, last, h, nb, p, after, last)
  {
    hide HandedOut;
  }

  lemma PickedSearched(h: Heap, maxFast: nat, last: Addr, pool: Heap, nb: nat, p: Addr, after: Heap, last': Addr)
    requires (nb <= maxFast ==> FastList(h, nb) == []) && (Small(nb) ==> SmallList(h, nb) == [])
    requires Chosen(pool, last, nb, p, after, last')
    ensures Picked(h, maxFast, last, pool, nb, p, after, last')
  {
    hide Chosen;
  }

  lemma FastFirst(s: Store, nb: nat)
    requires Inv(s) && nb >= MINSIZE && FastIndex(nb) < NFASTBINS
    ensures |s.fastbins| == NFASTBINS && (s.fastbins[FastIndex(nb)] == 0 <==> FastList(s.h, nb) == [])
    ensures FastList(s.h, nb) != [] ==> s.fastbins[FastIndex(nb)] == FastList(s.h, nb)[0]
    ensures FastList(s.h, nb) != [] ==> !FitsFree(s.h.chunks, FastList(s.h, nb)[0], nb)
  {
    HeadOfFast(s, FastIndex(nb));
    var l := s.h.lists[NBINS + FastIndex(nb)];
    assert ListOk(s.h.chunks, NBINS + FastIndex(nb), l);
    hide Suits, Inv;
  }

  lemma LargeIsSlow(nb: nat)
    ensures nb <= DEFAULT_MAX_FAST ==> Small(nb)
  {
  }

  lemma MovedWidth(t: Store, u: Store)
    requires Inv(t) && Moved(t, u)
    ensures TopWidth(t.h) == TopWidth(u.h) && TopLimit(t.h) == TopLimit(u.h) && u.h.top == t.h.top
  {
    hide *;
    MovedParts(t, u);
    WidthStays(t, u);
  }

  /** Nothing that is asked of the system depends on how free chunks are binned. */
  lemma SameAsked(y: Sys, contiguous: bool, h: Heap, g: Heap, nb: nat)
    requires TopWidth(h) == TopWidth(g) && TopLimit(h) == TopLimit(g)
    ensures Asked(y, contiguous, h, nb) == Asked(y, contiguous, g, nb)
  {
    hide Dealt, TopWidth, TopLimit;
  }

  lemma FitsOutcome(h: Heap, y: Sys, contiguous: bool, pool: Heap, nb: nat, p: Addr)
    requires Fits(pool, p, nb) && WellFormed(pool) && SameGround(h, pool)
    ensures Outcome(h, y, contiguous, pool, nb, true, false) && !Depleted(pool, nb)
  {
    hide Fits, WellFormed, SameGround;
  }

  lemma AskedOutcome(h: Heap, y: Sys, contiguous: bool, pool: Heap, nb: nat, p: Addr, jammed: bool)
    requires Depleted(pool, nb) && Merged(pool.chunks) && WellFormed(pool) && SameGround(h, pool)
    requires jammed <==> !Lined(Asked(y, contiguous, pool, nb))
    requires p != 0 <==> Lined(Asked(y, contiguous, pool, nb)) && Delivers(Asked(y, contiguous, pool, nb), nb)
    ensures Outcome(h, y, contiguous, pool, nb, p != 0, jammed)
  {
    hide Depleted, Merged, WellFormed, SameGround, Asked, Lined, Delivers;
  }

  lemma OutcomeGot(h: Heap, y: Sys, contiguous: bool, pool: Heap, nb: nat, jammed: bool)
    requires Outcome(h, y, contiguous, pool, nb, true, jammed)
    ensures !jammed
  {
    hide Depleted, Merged, WellFormed, SameGround, Asked, Lined, Delivers;
  }

  lemma OutcomeGround(h: Heap, y: Sys, contiguous: bool, pool: Heap, nb: nat, got: bool, jammed: bool)
    requires Outcome(h, y, contiguous, pool, nb, got, jammed)
    ensures SameGround(h, pool) && WellFormed(pool)
  {
    hide Depleted, Merged, WellFormed, SameGround, Asked, Lined, Delivers;
  }

  /** The outcome of a search is that of the request. */
  lemma OutcomeBefore(h: Heap, g: Heap, y: Sys, contiguous: bool, pool: Heap, nb: nat, got: bool, jammed: bool)
    requires SameGround(h, g) && Outcome(g, y, contiguous, pool, nb, got, jammed)
    ensures Outcome(h, y, contiguous, pool, nb, got, jammed)
  {
    SameGroundThen(h, g, pool);
    hide Depleted, WellFormed, Merged, SameGround, Asked, Lined, Delivers;
  }

  /** A request fails only if nothing fitted before it: neither a free chunk, nor one in a
      fastbin, nor top. */
  lemma FailsOnEmpty(h: Heap, y: Sys, contiguous: bool, pool: Heap, nb: nat, jammed: bool)
    requires WellFormed(h) && Outcome(h, y, contiguous, pool, nb, false, jammed)
    ensures Depleted(h, nb)
  {
    assert Depleted(pool, nb);
    DepletedBefore(h, pool, nb);
    hide Depleted;
  }

  /** A pool in which nothing fits has too small a top. */
  lemma DepletedTop(h: Heap, nb: nat)
    requires WellFormed(h) && Depleted(h, nb)
    ensures TopWidth(h) < nb + MINSIZE
  {
    if h.top.Some? { assert !Fits(h, h.top.value, nb); }
  }

  /** Where top ends if the chunks fill one stretch of memory. */
  lemma EdgeOfTop(h: Heap, edge: Addr)
    requires WellFormed(h) && Compact(h.chunks, edge)
    ensures TopWidth(h) == 0 || TopLimit(h) == edge
  {
    if h.top.Some? { TopAtEdge(h.chunks, h.starts, h.top, edge); }
  }

  /** With a system that only continues its memory, a request that nothing fits is served
      exactly when there is an answer left and room for what top lacks. */
  lemma SteadyOutcome(h: Heap, y: Sys, pool: Heap, nb: nat, got: bool, jammed: bool)
    requires Outcome(h, y, true, pool, nb, got, jammed) && Even(y) && Compact(h.chunks, y.brk) && Depleted(pool, nb)
    ensures !jammed && (got <==> y.replies != [] && y.brk + Wanted(nb, TopWidth(pool), true) <= y.floor)
  {
    GroundParts(h, pool);
    CompactSpace(h.chunks, pool.chunks, y.brk);
    DepletedTop(pool, nb);
    SteadyAsked(y, pool, nb);
    hide Even, Depleted, WellFormed, Merged, SameGround, Lined, Delivers, Dealt, Wanted;
  }

  lemma SteadyAsked(y: Sys, h: Heap, nb: nat)
    requires Even(y) && Compact(h.chunks, y.brk) && WellFormed(h) && TopWidth(h) < nb + MINSIZE
    ensures Lined(Asked(y, true, h, nb))
    ensures Delivers(Asked(y, true, h, nb), nb) <==> y.replies != [] && y.brk + Wanted(nb, TopWidth(h), true) <= y.floor
  {
    EdgeOfTop(h, y.brk);
    EvenIsTidy(y);
    TidyLined(y, true, TopLimit(h), TopWidth(h), nb);
    EvenDelivers(y, TopLimit(h), TopWidth(h), nb);
    hide Even, WellFormed, Lined, Delivers, Dealt, Wanted;
  }

  lemma EmptyHeap(h: Heap)
    requires h == Heap(map[], {}, None, seq(LISTS, _ => []))
    ensures WellFormed(h)
  {
  }

  lemma BestFits(h: Heap, p: Addr, nb: nat)
    ensures BestFit(h.chunks, p, nb) ==> Fits(h, p, nb) && FitsFree(h.chunks, p, nb)
  {
  }

  lemma FreeFits(h: Heap, p: Addr, nb: nat)
    requires FitsFree(h.chunks, p, nb)
    ensures Fits(h, p, nb)
  {
  }

  lemma TopFits(s: Store, t: Store, p: Addr, nb: nat)
    requires Inv(s) && Moved(s, t) && t.h.top == Some(p) && TopWidth(t.h) >= nb + MINSIZE
    ensures Fits(s.h, p, nb)
  {
    hide *;
    MovedParts(s, t);
    WidthStays(s, t);
    TopFacts(s);
    TopIsFit(s.h, p, nb);
  }

  lemma TopIsFit(h: Heap, p: Addr, nb: nat)
    requires h.top == Some(p) && p in h.chunks && h.chunks[p].state == Top && TopWidth(h) >= nb + MINSIZE
    ensures Fits(h, p, nb)
  {
  }

  lemma FastFits(s: Store, f: nat, nb: nat)
    requires Inv(s) && f < NFASTBINS && |s.fastbins| == NFASTBINS && s.fastbins[f] != 0
    requires nb % 8 == 0 && nb >= MINSIZE && f == FastIndex(nb)
    ensures Fits(s.h, s.fastbins[f], nb)
  {
    HeadOfFast(s, f);
    var l := s.h.lists[NBINS + f];
    assert ListOk(s.h.chunks, NBINS + f, l);
    var v := l[0];
    assert Suits(NBINS + f, s.h.chunks[v].size) && Shaped(v, s.h.chunks[v]);
    FastExact(s.h.chunks[v].size, nb, f);
  }

  lemma QuietGround(s: Store, t: Store)
    requires Quiet(s, t)
    ensures SameGround(s.h, t.h)
  {
  }

  lemma MovedGround(s: Store, t: Store)
    requires Moved(s, t)
    ensures SameGround(s.h, t.h)
  {
    MovedParts(s, t);
    QuietGround(s, t);
  }

  /** With empty fastbins everything is merged; then nothing fits if no free chunk does and
      top is too small. */
  lemma AllMerged(s: Store, top: Addr, maxFast: nat, fastChunks: bool, binmap: seq<bv32>, nb: nat)
    requires Sound(s, top, maxFast, fastChunks, binmap) && !fastChunks && NoFit(s.h.chunks, nb) && TopWidth(s.h) < nb + MINSIZE
    ensures WellFormed(s.h) && Merged(s.h.chunks) && Depleted(s.h, nb)
  {
    hide *;
    SoundParts(s, top, maxFast, fastChunks, binmap);
    InvParts(s);
    NoFastLeft(s.h);
    forall q ensures !Fits(s.h, q, nb) {
      NothingFits(s.h, q, nb);
    }
    DepletedIntro(s.h, nb);
  }

  lemma NoFastLeft(h: Heap)
    requires WellFormed(h) && FastEmpty(h.lists) && NoLoose(h.chunks)
    ensures Merged(h.chunks)
  {
    forall a | a in h.chunks ensures !IsFast(h.chunks[a].state) {
      if IsFast(h.chunks[a].state) { var k := Place(h.chunks, h.lists, a); }
    }
  }

  lemma NothingFits(h: Heap, q: Addr, nb: nat)
    requires WellFormed(h) && Merged(h.chunks) && NoFit(h.chunks, nb) && TopWidth(h) < nb + MINSIZE
    ensures !Fits(h, q, nb)
  {
    assert !FitsFree(h.chunks, q, nb);
    if q in h.chunks && h.chunks[q].state == Top { assert h.top == Some(q); }
    hide Tiles, Listed, Apart;
  }

  lemma ServedGranted(s: Store, t: Store, p: Addr, nb: nat)
    requires Served(s, t, p, nb)
    ensures Granted(s, t, p, nb) && SameSpace(s.h.chunks, t.h.chunks) && Snug(t.h.chunks, p, nb)
  {
  }

  /** A chunk was cut, or too small to be cut. */
  ghost predicate Snug(chunks: Chunks, p: Addr, nb: nat) {
    p in chunks && chunks[p].size < nb + MINSIZE
  }

  lemma Grown(s: Store, top: Addr, oldSize: nat, size: nat, maxFast: nat, fastChunks: bool, binmap: seq<bv32>,
              sbrked: int, lost: int, brk: Addr, mapFloor: Addr, steady: bool) returns (t: Store)
    requires Sound(s, top, maxFast, fastChunks, binmap) && Books(s.h.chunks, sbrked, lost, brk, mapFloor, false)
    requires steady ==> lost == 0 && Compact(s.h.chunks, top + oldSize) && top + oldSize + size == brk
    requires s.h.top == Some(top) && top in s.h.chunks && s.h.chunks[top].size == oldSize
    requires NewMemory(s.h.chunks, top + oldSize, size, false, brk, mapFloor)
    ensures Sound(t, top, maxFast, fastChunks, binmap) && !t.open && t.fastbins == s.fastbins && Calm(s, t)
    ensures t.m == Poke(s.m, top + 4, size + oldSize + 1)
    ensures TopWidth(t.h) == oldSize + size && t.h.top == Some(top)
    ensures Books(t.h.chunks, sbrked + size, lost, brk, mapFloor, steady)
  {
    hide *;
    SoundParts(s, top, maxFast, fastChunks, binmap);
    BooksParts(s.h.chunks, sbrked, lost, brk, mapFloor, false);
    NewMemoryParts(s.h.chunks, top + oldSize, size, false, brk, mapFloor);
    TopFacts(s);
    MoreEight(oldSize, size);
    EndIs(s.h.chunks, top);
    ClearLess(s.h.chunks, top + oldSize, top + (size + oldSize), mapFloor);
    ResizeStep(s, size + oldSize);
    t := Resized(s, size + oldSize);
    ResizedIs(s, size + oldSize);
    ResizeSame(s.h.chunks, top, size + oldSize);
    ResizeTotal(s.h.chunks, top, size + oldSize);
    ResizeOwned(s.h.chunks, top, size + oldSize, brk, mapFloor);
    TopChunk(s.h.chunks, top, oldSize);
    if steady { CompactGrown(s.h.chunks, top, oldSize, size); }
    TopFieldKept(top, s.h, t.h);
    CalmIntro(s, t);
    SoundIntro(t, top, maxFast, fastChunks, binmap);
    ResizedTop(s, top, size + oldSize);
    BooksIntro(t.h.chunks, sbrked + size, lost, brk, mapFloor, steady);
  }

  lemma TopChunk(chunks: Chunks, t: Addr, size: nat)
    requires t in chunks && chunks[t].state == Top && chunks[t].size == size
    ensures chunks[t] == Chunk(size, Top)
  {
  }

  lemma MoreEight(a: nat, b: nat)
    requires a % 8 == 0 && b % 8 == 0
    ensures (b + a) % 8 == 0
  {
    var i, j := a / 8, b / 8;
    assert a + b == 8 * (i + j);
  }

  lemma ClearLess(chunks: Chunks, lo: Addr, hi: Addr, far: Addr)
    requires Clear(chunks, lo, far) && lo <= hi <= far
    ensures Clear(chunks, lo, hi)
  {
  }

  lemma ResizeOwned(chunks: Chunks, t: Addr, size: nat, brk: Addr, mapFloor: Addr)
    requires Owned(chunks, brk, mapFloor) && t in chunks && t + size <= brk
    ensures Owned(Resize(chunks, t, size), brk, mapFloor)
  {
    forall w | InChunk(Resize(chunks, t, size), w) ensures w < brk || mapFloor <= w {
      ResizeSpace(chunks, t, size, w);
    }
  }

  lemma BooksNew(s: Store, u: Store, a: Addr, n: nat, size: nat, correction: nat, sbrked: int, lost: int, brk: Addr, mapFloor: Addr)
    requires Extended(s, u, a, a + n) && (a + n <= brk || mapFloor <= a) && brk <= mapFloor
    requires Books(s.h.chunks, sbrked, lost, brk, mapFloor, false)
    ensures Books(u.h.chunks, sbrked + size + correction, lost + (size + correction - n), brk, mapFloor, false)
  {
    OwnedMore(s, u, a, a + n, brk, mapFloor, brk, mapFloor);
  }

  lemma BooksFirst(s: Store, u: Store, a: Addr, n: nat, size: nat, correction: nat, sbrked: int, lost: int,
                   brk: Addr, mapFloor: Addr, steady: bool)
    requires Extended(s, u, a, a + n) && (a + n <= brk || mapFloor <= a) && brk <= mapFloor
    requires Books(s.h.chunks, sbrked, lost, brk, mapFloor, false) && u.h.chunks == map[a := Chunk(n, Top)]
    requires steady ==> lost == 0 && n == size + correction && a + n == brk
    ensures Books(u.h.chunks, sbrked + size + correction, lost + (size + correction - n), brk, mapFloor, steady)
  {
    hide *;
    BooksNew(s, u, a, n, size, correction, sbrked, lost, brk, mapFloor);
    CompactFirst(a, n);
    BooksSteady(u.h.chunks, sbrked + size + correction, lost + (size + correction - n), brk, mapFloor, steady);
  }

  lemma BooksSteady(chunks: Chunks, sbrked: int, lost: int, brk: Addr, mapFloor: Addr, steady: bool)
    requires Books(chunks, sbrked, lost, brk, mapFloor, false) && (steady ==> lost == 0 && Compact(chunks, brk))
    ensures Books(chunks, sbrked, lost, brk, mapFloor, steady)
  {
  }

  lemma ExactBin(size: nat, nb: nat, idx: nat)
    requires Suits(idx, size) && size % 8 == 0 && nb % 8 == 0 && nb >= MINSIZE && Small(nb) && idx == SmallIndex(nb)
    ensures size == nb && nb < nb + MINSIZE
  {
    SmallBinExact(nb, size);
  }

  lemma CalmEmpty(s: Store, t: Store)
    requires s.h.chunks == map[] && t.h.chunks == map[]
    ensures Calm(s, t)
  {
  }

  lemma HeaderPositive(idx: nat)
    ensures BinAt(idx) > 0
  {
  }

  lemma ZeroIndex()
    ensures 0 < LISTS
  {
  }

  lemma MovedSpace(s: Store, t: Store)
    requires Moved(s, t)
    ensures Calm(s, t) && SameSpace(s.h.chunks, t.h.chunks)
  {
  }

  lemma LimitOf()
    ensures REQUEST_LIMIT > 0
  {
  }

  lemma RequestShape(bytes: nat)
    ensures RequestToSize(bytes) % 8 == 0 && RequestToSize(bytes) >= MINSIZE
  {
    RequestFits(bytes);
  }

  lemma FastRange(nb: nat)
    requires MINSIZE <= nb <= DEFAULT_MAX_FAST
    ensures FastIndex(nb) < NFASTBINS && Small(nb)
  {
  }

  /** What a caller of malloc gets: an aligned payload of at least the requested bytes that
      overlaps no other; all other payloads are as they were. */
  ghost predicate Allotted(s: Store, t: Store, mem: Addr, bytes: nat) {
    && mem > 8 && mem % ALIGNMENT == 0 && Granted(s, t, mem - 8, RequestToSize(bytes))
    && bytes + SIZE_SZ <= t.h.chunks[mem - 8].size
    && forall b, w {:trigger Payload(s.h.chunks, b, w)} | Payload(s.h.chunks, b, w) :: !Payload(t.h.chunks, mem - 8, w)
  }

  lemma AllottedParts(s: Store, t: Store, mem: Addr, bytes: nat)
    requires Allotted(s, t, mem, bytes)
    ensures mem > 8 && mem % 8 == 0 && Granted(s, t, mem - 8, RequestToSize(bytes))
  {
  }

  lemma AllottedIntro(s: Store, t: Store, p: Addr, bytes: nat)
    requires Inv(t) && Granted(s, t, p, RequestToSize(bytes))
    ensures Allotted(s, t, p + 8, bytes)
  {
    hide *;
    InvParts(t);
    RequestFits(bytes);
    GrantedParts(s, t, p, RequestToSize(bytes));
    ShapeOf(t.h.chunks, p);
    forall b, w | Payload(s.h.chunks, b, w) ensures !Payload(t.h.chunks, p, w) {
      PayloadsApart(s.h.chunks, t.h.chunks, p, b, w);
    }
    AllottedFrom(s, t, p, bytes);
  }

  lemma GrantedParts(s: Store, t: Store, p: Addr, nb: nat)
    requires Granted(s, t, p, nb)
    ensures Grew(s.h.chunks, t.h.chunks, p) && Preserved(s.h.chunks, s.m, t.m) && p in t.h.chunks && t.h.chunks[p].size >= nb
  {
  }

  lemma PayloadsApart(chunks: Chunks, cs: Chunks, p: Addr, b: Addr, w: int)
    requires Grew(chunks, cs, p) && Shapes(cs) && Ordered(cs) && Payload(chunks, b, w)
    ensures !Payload(cs, p, w)
  {
    assert b in cs && cs[b] == chunks[b] && b != p;
    if b < p { assert End(cs, b) <= p; } else { assert End(cs, p) <= b; }
  }

  lemma AllottedFrom(s: Store, t: Store, p: Addr, bytes: nat)
    requires Granted(s, t, p, RequestToSize(bytes)) && RequestToSize(bytes) >= bytes + SIZE_SZ && p % 8 == 0 && p > 0
    requires forall b, w {:trigger Payload(s.h.chunks, b, w)} | Payload(s.h.chunks, b, w) :: !Payload(t.h.chunks, p, w)
    ensures Allotted(s, t, p + 8, bytes)
  {
  }

  lemma SkipSmall(s: Store, nb: nat)
    requires Inv(s) && |s.h.lists| == LISTS && Small(nb) && nb >= MINSIZE && s.h.lists[SmallIndex(nb)] == []
    requires NoneBelow(s.h.chunks, s.h.lists, nb, BinIndex(nb))
    ensures BinIndex(nb) < SmallIndex(nb) + 1 < NBINS && NoneBelow(s.h.chunks, s.h.lists, nb, SmallIndex(nb) + 1)
  {
    SkipOne(s, nb, SmallIndex(nb));
  }

  lemma FastServe(s: Store, f: nat, nb: nat, top: Addr, maxFast: nat, fastChunks: bool, binmap: seq<bv32>) returns (t: Store)
    requires Sound(s, top, maxFast, fastChunks, binmap) && f < NFASTBINS && |s.fastbins| == NFASTBINS && s.fastbins[f] != 0
    requires nb % 8 == 0 && nb >= MINSIZE && f == FastIndex(nb)
    ensures Served(s, t, s.fastbins[f], nb) && Sound(t, top, maxFast, fastChunks, binmap)
    ensures HandedOut(s.h, t.h, s.fastbins[f], nb) && OfSize(t.h.chunks, s.fastbins[f], nb)
    ensures Fd(s.m, s.fastbins[f]) >= 0 && t.m == s.m && t.fastbins == s.fastbins[f := Fd(s.m, s.fastbins[f])] && !t.open
  {
    hide *;
    SoundParts(s, top, maxFast, fastChunks, binmap);
    InvParts(s);
    ListCount();
    HeadOfFast(s, f);
    var v := PopStep(s, f);
    InFrontParts(s, f, v);
    PoppedIs(s, f);
    var u := Popped(s, f);
    LoosenOnly(s.h.chunks, v, Loose);
    SetIs(s.h.chunks, v, Loose);
    SettleStep(u, v);
    t := u.(h := SetChunk(u.h, v, Used));
    SetChunkIs(u.h, v, Used);
    GrewSet(u.h.chunks, v);
    SettledGiven(u, t, v);
    QuietGiven(s, u, t, v);
    SettleNone(u.h.chunks, v, Used);
    ShapeOf(s.h.chunks, v);
    FastExact(s.h.chunks[v].size, nb, f);
    OfSizeIntro(t.h.chunks, v, nb);
    ListedAll(s);
    HandedWhole(s.h, t.h, NBINS + f, 0, v, nb);
    ServedIntro(s, t, v, nb);
    PopSound(s, t, f, top, maxFast, fastChunks, binmap);
  }

  lemma FastExact(size: nat, nb: nat, f: nat)
    requires Suits(NBINS + f, size) && size % 8 == 0 && nb % 8 == 0 && nb >= MINSIZE && f == FastIndex(nb)
    ensures size == nb && nb < nb + MINSIZE
  {
  }

  lemma PopSound(s: Store, t: Store, f: nat, top: Addr, maxFast: nat, fastChunks: bool, binmap: seq<bv32>)
    requires Sound(s, top, maxFast, fastChunks, binmap) && Inv(t) && !t.open && NoLoose(t.h.chunks) && t.h.top == s.h.top
    requires |s.h.lists| == LISTS && f < NFASTBINS && s.h.lists[NBINS + f] != []
    requires t.h.lists == s.h.lists[NBINS + f := RemoveAt(s.h.lists[NBINS + f], 0)]
    ensures Sound(t, top, maxFast, fastChunks, binmap)
  {
    hide Inv, NoLoose;
  }

  lemma FenceWordsAre(m: Words, t: Addr, size: nat)
    ensures var shrunk := (size - 3 * SIZE_SZ) - (size - 3 * SIZE_SZ) % ALIGNMENT;
            FenceWords(m, t, size)
            == Poke(Poke(Poke(m, t + 4, shrunk + 1), t + shrunk + 4, SIZE_SZ + 1), t + shrunk + 8, SIZE_SZ + 1)
  {
  }

  /** The heap after the old top has been closed; what is left of it may be released. */
  lemma Refenced(s: Store, t: Addr, z: nat, a: Addr, n: nat, maxFast: nat, fastChunks: bool, binmap: seq<bv32>) returns (u: Store)
    requires Sound(s, t, maxFast, fastChunks, binmap) && s.h.top == Some(t) && t in s.h.chunks && z == s.h.chunks[t].size
    requires Room(s.h.chunks, a, n)
    ensures u.m == FenceWords(Poke(s.m, a + 4, n + 1), t, z) && u.fastbins == s.fastbins && !u.open
    ensures Extended(s, u, a, a + n) && Calm(s, u) && TopField(a, u.h) && u.h.top == Some(a)
    ensures a in u.h.chunks && u.h.chunks[a] == Chunk(n, Top) && z % 8 == 0 && a != t + (z - 16)
    ensures BinsMapped(binmap, u.h.lists) && (!fastChunks ==> FastEmpty(u.h.lists))
    ensures z >= 16 && Shrunk(z) == z - 16
    ensures z >= 32 ==> Released(u, t, z - 16)
    ensures z < 32 ==> Sound(u, a, maxFast, fastChunks, binmap)
  {
    hide *;
    SoundParts(s, t, maxFast, fastChunks, binmap);
    InvParts(s);
    TopFacts(s);
    SomeMin();
    ReplaceStep(s, t, a, n);
    u := Replaced(s, a, n);
    NewTopParts(s, u, a, n);
    ExtendedCalm(s, u, a, a + n);
    TopFieldNew(a, u.h);
    ShrunkIs(z);
    ReplacedSome(s, a, n, t);
    RoomParts(s.h.chunks, a, n, t);
    NotThere(s.h.chunks, a, n);
    ReplacedLoose(s.h.chunks, t, a, n);
    if z >= 32 {
      FenceReleased(s.m, t, z, a, n);
      OnlyParts(u.h.chunks, t);
      ReleasedIntro(u, t, z - 16);
    } else {
      SoundIntro(u, a, maxFast, fastChunks, binmap);
    }
  }

  lemma NewTopParts(s: Store, u: Store, a: Addr, n: nat)
    requires NewTop(s, u, a, n)
    ensures Inv(u) && u.h.top == Some(a) && a in u.h.chunks && u.h.chunks[a] == Chunk(n, Top)
    ensures u.h.lists == s.h.lists && u.fastbins == s.fastbins && u.open == s.open
    ensures Extended(s, u, a, a + n)
  {
  }

  /** The rest of the old top is tagged as in use: the fencepost behind it says so. */
  lemma FenceReleased(m: Words, t: Addr, z: nat, a: Addr, n: nat)
    requires z >= 32 && Shrunk(z) == z - 16
    ensures Tagged(FenceWords(Poke(m, a + 4, n + 1), t, z), t, Chunk(z - 16, Used))
  {
    assert PrevInuse(5);
  }

  /** The first region. */
  lemma Founded(s: Store, a: Addr, n: nat, maxFast: nat, fastChunks: bool, binmap: seq<bv32>) returns (u: Store)
    requires Inv(s) && !s.open && BinsMapped(binmap, s.h.lists) && (!fastChunks ==> FastEmpty(s.h.lists))
    requires s.h.top == None && maxFast == DEFAULT_MAX_FAST && Room(s.h.chunks, a, n)
    ensures u.m == Poke(s.m, a + 4, n + 1) && u.fastbins == s.fastbins && !u.open
    ensures Extended(s, u, a, a + n) && Calm(s, u) && Sound(u, a, maxFast, fastChunks, binmap)
    ensures u.h.top == Some(a)
    ensures u.h.chunks == map[a := Chunk(n, Top)]
  {
    hide *;
    RoomShape(s.h.chunks, a, n);
    FirstStep(s, a, n);
    u := Replaced(s, a, n);
    NewTopParts(s, u, a, n);
    ExtendedCalm(s, u, a, a + n);
    TopFieldNew(a, u.h);
    SoundIntro(u, a, maxFast, fastChunks, binmap);
  }

  lemma RoomShape(chunks: Chunks, a: Addr, n: nat)
    requires Room(chunks, a, n)
    ensures a % 8 == 0 && n % 8 == 0 && n >= MINSIZE && a >= LOW
  {
  }

  lemma ShrunkCode(size: nat)
    ensures Shrunk(size) == (size - 3 * SIZE_SZ) - (size - 3 * SIZE_SZ) % ALIGNMENT && MINSIZE == 16 && ALIGNMENT == 8
  {
  }

  /** Before the first extension top is a header, below all memory the system gives. */
  lemma TopShape(s: Store, top: Addr)
    requires Inv(s) && TopField(top, s.h)
    ensures s.h.top == None ==> top < LOW
    ensures s.h.top.Some? ==> top in s.h.chunks && s.h.top == Some(top) && s.h.chunks[top].size % 8 == 0 && s.h.chunks[top].size > 0
    ensures s.h.top == None || s.h.top.Some?
  {
    if s.h.top.Some? { assert Shaped(top, s.h.chunks[top]); }
  }

  lemma TrimShape(topSize: nat, extra: nat, released: nat)
    requires extra == TrimExtra(topSize) && 0 < released <= extra && released % PAGE == 0
    ensures released % 8 == 0 && released <= topSize && topSize - released >= MINSIZE && topSize > 0
  {
    var k := released / PAGE;
    assert released == 8 * (512 * k);
  }

  lemma Shortened(s: Store, top: Addr, topSize: nat, released: nat, maxFast: nat, fastChunks: bool, binmap: seq<bv32>,
                  sbrked: int, lost: int, brk: Addr, mapFloor: Addr, steady: bool) returns (t: Store)
    requires Sound(s, top, maxFast, fastChunks, binmap) && Books(s.h.chunks, sbrked, lost, brk, mapFloor, steady)
    requires s.h.top == Some(top) && top in s.h.chunks && topSize == s.h.chunks[top].size
    requires released <= topSize && topSize - released >= MINSIZE && released % 8 == 0 && brk == top + topSize
    ensures Sound(t, top, maxFast, fastChunks, binmap) && !t.open && t.fastbins == s.fastbins && Calm(s, t)
    ensures t.h.top == s.h.top && TopWidth(t.h) == topSize - released
    ensures t.h == Narrowed(s.h, topSize - released) && t.h.lists == s.h.lists
    ensures t.m == Poke(s.m, top + 4, topSize - released + 1)
    ensures brk - released >= 0 && Books(t.h.chunks, sbrked - released, lost, brk - released, mapFloor, steady)
  {
    hide *;
    SoundParts(s, top, maxFast, fastChunks, binmap);
    BooksParts(s.h.chunks, sbrked, lost, brk, mapFloor, steady);
    TopFacts(s);
    LessEight(topSize, released);
    ResizeStep(s, topSize - released);
    t := Resized(s, topSize - released);
    ResizedIs(s, topSize - released);
    ResizeSame(s.h.chunks, top, topSize - released);
    ResizeTotal(s.h.chunks, top, topSize - released);
    InvParts(s);
    OwnedLess(s.h.chunks, top, topSize, released, brk, mapFloor);
    TopChunk(s.h.chunks, top, topSize);
    if steady { CompactShrunk(s.h.chunks, top, topSize, released); }
    TopFieldKept(top, s.h, t.h);
    CalmIntro(s, t);
    SoundIntro(t, top, maxFast, fastChunks, binmap);
    BooksIntro(t.h.chunks, sbrked - released, lost, brk - released, mapFloor, steady);
    ResizedTop(s, top, topSize - released);
  }

  lemma ResizedTop(s: Store, top: Addr, size: nat)
    requires s.h.top == Some(top) && top in s.h.chunks
    ensures Resized(s, size).h.top == s.h.top && TopWidth(Resized(s, size).h) == size
    ensures Resized(s, size).h == Narrowed(s.h, size)
  {
  }

  lemma LessEight(a: nat, b: nat)
    requires a % 8 == 0 && b % 8 == 0 && b <= a
    ensures (a - b) % 8 == 0
  {
    var i, j := a / 8, b / 8;
    assert a - b == 8 * (i - j);
  }

  lemma CalmIntro(s: Store, t: Store)
    requires SameLive(s.h.chunks, t.h.chunks) && Preserved(s.h.chunks, s.m, t.m)
    ensures Calm(s, t)
  {
  }

  lemma OwnedLess(chunks: Chunks, top: Addr, topSize: nat, released: nat, brk: Addr, mapFloor: Addr)
    requires Owned(chunks, brk, mapFloor) && Ordered(chunks) && Shapes(chunks) && top in chunks && topSize == chunks[top].size
    requires brk == top + topSize && released <= topSize && brk <= mapFloor
    ensures Owned(Resize(chunks, top, topSize - released), brk - released, mapFloor)
  {
    var cs := Resize(chunks, top, topSize - released);
    forall w | InChunk(cs, w) ensures w < brk - released || mapFloor <= w {
      var a :| a in cs && a <= w < End(cs, a);
      if a != top {
        assert a in chunks && a <= w < End(chunks, a);
        assert InChunk(chunks, w);
        assert Shaped(a, chunks[a]) && Shaped(top, chunks[top]);
        if a < top { assert End(chunks, a) <= top; } else { assert End(chunks, top) <= a; }
      }
    }
  }

  /** p is no longer live; every other chunk is as it was. */
  ghost predicate Freed(s: Store, t: Store, p: Addr) {
    Grew(t.h.chunks, s.h.chunks, p) && Preserved(t.h.chunks, s.m, t.m)
  }

  lemma ShelvedGiven(h: Heap, pending: bool, y: Sys, p: Addr, g: Heap)
    requires Shelved(h, g, p) && p in h.chunks && h.chunks[p].size <= DEFAULT_MAX_FAST
    ensures GivenUp(h, pending, y, p, g, true, y)
  {
  }

  lemma CollectedGiven(h: Heap, u: Heap, pending: bool, y: Sys, p: Addr, lo: Addr, hi: Addr, g: Heap, pending': bool, y': Sys)
    requires p in h.chunks && h.chunks[p].size > DEFAULT_MAX_FAST && lo <= hi
    requires Collected(h, u, p, lo, hi) && Followed(u, pending, y, hi - lo, g, pending', y')
    ensures GivenUp(h, pending, y, p, g, pending', y')
  {
    hide Collected, Followed;
  }

  lemma SmallFollows(u: Heap, pending: bool, y: Sys, size: nat)
    requires size < LARGE_RELEASE
    ensures Followed(u, pending, y, size, u, pending, y)
  {
  }

  lemma SweptFollows(u: Heap, pending: bool, y: Sys, size: nat, c: Heap, g: Heap, y': Sys)
    requires size >= LARGE_RELEASE && FastEmpty(g.lists) && AllJoined(u, pending, c) && Trimmed(c, y, g, y')
    ensures Followed(u, pending, y, size, g, false, y')
  {
    hide AllJoined, Trimmed, FastEmpty;
  }

  lemma JoinedIntro(u: Heap, pending: bool, c: Heap)
    requires WellFormed(c) && SameGround(u, c) && Merged(c.chunks) && if pending then Poured(u, c) else c == u
    ensures AllJoined(u, pending, c)
  {
    hide WellFormed, SameGround, Merged, Poured;
  }

  lemma TrimmedIntro(c: Heap, y: Sys, g: Heap, y': Sys)
    requires g == Narrowed(c, TopWidth(g)) && y'.floor == y.floor
    requires TopWidth(c) < DEFAULT_TRIM_THRESHOLD ==> g == c && y' == y
    requires TopWidth(c) >= DEFAULT_TRIM_THRESHOLD ==>
      var less := TrimmedBy(y, TopLimit(c), TopWidth(c));
      && TopWidth(g) == TopWidth(c) - less && y'.brk == y.brk - less
      && y'.replies == if TrimExtra(TopWidth(c)) > 0 && y.brk == TopLimit(c) then Later(y).replies else y.replies
    ensures Trimmed(c, y, g, y')
  {
  }

  lemma PushedShelved(s: Store, f: nat, p: Addr, size: nat)
    requires Released(s, p, size) && f < NFASTBINS && size >= MINSIZE && f == FastIndex(size) && |s.fastbins| == NFASTBINS && |s.h.lists| == LISTS
    ensures p in s.h.chunks && Shelved(s.h, Pushed(s, f, p).h, p)
  {
    hide *;
    ReleasedParts(s, p, size);
    ListCount();
    InvParts(s);
    ShapeOf(s.h.chunks, p);
    PushedIs(s, f, p);
    ShelvedIs(s.h, p, NBINS + f);
  }

  /** free() of a live chunk, seen from before the chunk came into the allocator's hands. */
  lemma GivenLoose(s: Store, pending: bool, y: Sys, p: Addr, g: Heap, pending': bool, y': Sys)
    requires Inv(s) && p in s.h.chunks && GivenUp(SetChunk(s.h, p, Loose), pending, y, p, g, pending', y')
    ensures GivenUp(s.h, pending, y, p, g, pending', y')
  {
    hide Collected, Followed, Shelved, Inv;
    var k := SetChunk(s.h, p, Loose);
    if s.h.chunks[p].size > DEFAULT_MAX_FAST {
      var u: Heap, lo: Addr, hi: Addr :| Collected(k, u, p, lo, hi) && Followed(u, pending, y, hi - lo, g, pending', y');
      CollectedBefore(s, u, p, lo, hi);
    } else {
      ShelvedLoose(s.h, g, p);
    }
  }

  lemma CollectedBefore(s: Store, u: Heap, p: Addr, lo: Addr, hi: Addr)
    requires Inv(s) && p in s.h.chunks && Collected(SetChunk(s.h, p, Loose), u, p, lo, hi)
    ensures Collected(s.h, u, p, lo, hi)
  {
    hide *;
    InvParts(s);
    CollectedLoose(s.h, u, p, lo, hi);
  }

  lemma FreedAfter(s: Store, t: Store, u: Store, p: Addr)
    requires Taken(s, t, p) && Calm(t, u)
    ensures Freed(s, u, p)
  {
    forall b, w | Payload(u.h.chunks, b, w) ensures u.m[w] == s.m[w] {
      assert Payload(t.h.chunks, b, w);
    }
  }

  lemma TakenParts(s: Store, t: Store, p: Addr)
    requires Taken(s, t, p)
    ensures SameSpace(s.h.chunks, t.h.chunks)
  {
  }

  /** A live chunk comes into the allocator's hands with its tags unchanged. */
  lemma TakeLive(s: Store, p: Addr, top: Addr, binmap: seq<bv32>, fastChunks: bool) returns (t: Store)
    requires Inv(s) && !s.open && NoLoose(s.h.chunks) && p in s.h.chunks && s.h.chunks[p].state == Used
    requires TopField(top, s.h) && BinsMapped(binmap, s.h.lists) && (!fastChunks ==> FastEmpty(s.h.lists))
    ensures Taken(s, t, p) && t.m == s.m && t.fastbins == s.fastbins && !t.open && SizeOf(Head(s.m, p)) >= 0
    ensures t.h == SetChunk(s.h, p, Loose)
    ensures Released(t, p, SizeOf(Head(s.m, p)))
    ensures TopField(top, t.h) && BinsMapped(binmap, t.h.lists) && (!fastChunks ==> FastEmpty(t.h.lists))
  {
    hide *;
    InvParts(s);
    TakeStep(s, p);
    t := Loosened(s, p);
    LoosenedIs(s, p);
    SetChunkIs(s.h, p, Loose);
    LoosenOnly(s.h.chunks, p, Loose);
    TagOf(s.m, s.h.chunks, s.h.starts, p);
    UsedIs(s.m, p, s.h.chunks[p]);
    FastSize(s, p, 0);
    TopFieldKept(top, s.h, t.h);
    ReleasedIntro(t, p, SizeOf(Head(s.m, p)));
  }

  lemma UsedIs(m: Words, p: Addr, c: Chunk)
    requires Tagged(m, p, c) && c.state == Used
    ensures Tagged(m, p, Chunk(c.size, Used))
  {
  }

  lemma ReleasedIntro(s: Store, p: Addr, size: nat)
    requires Inv(s) && !s.open && LooseOnly(s.h.chunks, p) && p in s.h.chunks && s.h.chunks[p].size == size
    requires Tagged(s.m, p, Chunk(size, Used))
    ensures Released(s, p, size)
  {
  }

  lemma NothingOwned(brk: Addr, mapFloor: Addr)
    ensures Owned(map[], brk, mapFloor) && Total(map[]) == 0
  {
  }

  lemma EmptySound(m: Words, fastbins: seq<Addr>, h: Heap, binmap: seq<bv32>)
    requires h == Heap(map[], {}, None, seq(LISTS, _ => [])) && fastbins == seq(NFASTBINS, _ => 0) && |binmap| == 4
    requires forall j: nat {:trigger BinAt(j)} | 1 <= j < NBINS :: m[BinAt(j) + 8] == BinAt(j) && m[BinAt(j) + 12] == BinAt(j)
    requires m[BinAt(0) + 12] == 0
    ensures Sound(Store(m, h, fastbins, false), BinAt(1), DEFAULT_MAX_FAST, false, binmap) && FastEmpty(h.lists)
  {
    hide Inv;
    EmptyInv(m, fastbins, h);
  }

  lemma EmptyInv(m: Words, fastbins: seq<Addr>, h: Heap)
    requires h == Heap(map[], {}, None, seq(LISTS, _ => [])) && fastbins == seq(NFASTBINS, _ => 0)
    requires forall j: nat {:trigger BinAt(j)} | 1 <= j < NBINS :: m[BinAt(j) + 8] == BinAt(j) && m[BinAt(j) + 12] == BinAt(j)
    requires m[BinAt(0) + 12] == 0
    ensures Inv(Store(m, h, fastbins, false))
  {
    forall i: nat | 1 <= i < NBINS ensures Linked(m, i, h.lists[i]) {
      assert m[BinAt(i) + 8] == BinAt(i);
    }
    assert Listed(h.chunks, h.lists);
  }

  lemma SweepEnd(s: Store, t: Store, binmap: seq<bv32>)
    requires Swept(s, t, 8) && BinsMapped(binmap, s.h.lists)
    ensures Inv(t) && NoLoose(t.h.chunks) && Quiet(s, t) && BinsMapped(binmap, t.h.lists) && FastEmpty(t.h.lists)
    ensures |t.h.lists| == |s.h.lists| == LISTS
    ensures forall i | 2 <= i < NBINS && t.h.lists[i] != [] :: s.h.lists[i] != []
  {
    TallEmpty(t, 8);
    TallEmpty(t, 9);
  }

  /** Chunks too big for max_fast are in no fastbin. */
  lemma TallEmpty(s: Store, f: nat)
    requires Inv(s) && 8 <= f < NFASTBINS
    ensures s.h.lists[NBINS + f] == []
  {
    hide Suits;
    assert ListOk(s.h.chunks, NBINS + f, s.h.lists[NBINS + f]);
    if s.h.lists[NBINS + f] != [] {
      assert Suits(NBINS + f, s.h.chunks[s.h.lists[NBINS + f][0]].size);
    }
    NoTall(NBINS + f);
  }

  lemma NoTall(i: nat)
    requires NBINS + 8 <= i
    ensures forall size: nat :: !Suits(i, size)
  {
  }

  lemma EndOf(h: Heap, p: Addr)
    requires p in h.chunks
    ensures End(h.chunks, p) == p + h.chunks[p].size
  {
  }

  lemma WentToFront(s: Store, t: Store, v: Store, p0: Addr, p: Addr, size: nat, top: Addr)
    requires Inv(s) && LooseOnly(s.h.chunks, p0) && TopField(top, s.h) && WentBack(s, t, p0, p)
    requires Done(t, v) && v.h.top == t.h.top && Fronts(t.h, v.h, p, p + size)
    requires p0 in s.h.chunks && s.h.top != Some(p0 + s.h.chunks[p0].size)
    ensures Done(s, v) && TopField(top, v.h) && v.h.top == s.h.top && Collected(s.h, v.h, p0, p, p + size)
  {
    hide *;
    WentBackParts(s, t, p0, p);
    InvParts(s);
    ListCount();
    EndOf(s.h, p0);
    DoneAfter(s, t, v);
    CollectedFronts(s.h, t.h, v.h, p0, p, p + size);
    TopFieldKept(top, s.h, v.h);
  }

  lemma WentToTop(s: Store, t: Store, p0: Addr, p: Addr, size: nat, top: Addr) returns (u: Store)
    requires Inv(s) && LooseOnly(s.h.chunks, p0) && TopField(top, s.h) && WentBack(s, t, p0, p)
    requires p0 in s.h.chunks && top == p0 + s.h.chunks[p0].size == p + size
    ensures Done(s, u) && u.h.top == Some(p) && TopField(p, u.h) && u.fastbins == s.fastbins && !u.open
    ensures var z := SizeOf(Head(t.m, top));
            z >= 0 && u.m == Poke(t.m, p + 4, size + z + 1) && Collected(s.h, u.h, p0, p, p + size + z)
  {
    hide *;
    WentBackParts(s, t, p0, p);
    InvParts(s);
    TopFieldIs(s, p0, top);
    u := IntoTop(t, p, size);
    TopNext(s, t, p0, p, top, top);
    TopWord(s, top);
    CollectedTop(s.h, t.h, p0, p);
    DoneAfter(s, t, u);
    DoneOpen(s, u);
    TopFieldNew(p, u.h);
  }

  /** Top lies behind the chunk in hand, before and after it was joined backward. */
  lemma TopNext(s: Store, t: Store, p0: Addr, p: Addr, e: Addr, top: Addr)
    requires Inv(s) && LooseOnly(s.h.chunks, p0) && TopField(top, s.h) && p0 in s.h.chunks && e == p0 + s.h.chunks[p0].size == top
    requires Slid(s.h, t.h, p0, p) && Head(t.m, e) == Head(s.m, e)
    ensures s.h.top == Some(e) && e in s.h.chunks && End(s.h.chunks, e) == e + SizeOf(Head(t.m, e)) && End(s.h.chunks, p0) == e
  {
    hide *;
    TopFieldIs(s, p0, top);
    TopWord(s, top);
    EndOf(s.h, p0);
    EndOf(s.h, e);
  }

  lemma TopFieldIs(s: Store, p: Addr, top: Addr)
    requires Inv(s) && LooseOnly(s.h.chunks, p) && TopField(top, s.h)
    ensures p in s.h.chunks && (s.h.top == Some(p + s.h.chunks[p].size) <==> top == p + s.h.chunks[p].size)
  {
    assert Shaped(p, s.h.chunks[p]);
  }

  lemma TopFieldKept(top: Addr, h: Heap, g: Heap)
    requires TopField(top, h) && g.top == h.top
    ensures TopField(top, g)
  {
  }

  lemma TopFieldNew(p: Addr, h: Heap)
    requires h.top == Some(p)
    ensures TopField(p, h)
  {
  }

  // ----- systems with which the program fails -----

  lemma SomeGround(h: Heap, pool: Heap, a: Addr)
    requires SameGround(h, pool) && WellFormed(pool) && a in pool.chunks
    ensures h.chunks != map[]
  {
    assert Shaped(a, pool.chunks[a]);
    assert InChunk(pool.chunks, a);
    assert InChunk(h.chunks, a);
  }

  lemma EmptyPool(h: Heap, pool: Heap, nb: nat)
    requires h.chunks == map[] && SameGround(h, pool) && WellFormed(pool)
    ensures pool.chunks == map[] && TopWidth(pool) == 0 && TopLimit(pool) == BinAt(1) && Depleted(pool, nb)
  {
    forall a ensures a !in pool.chunks {
      if a in pool.chunks { SomeGround(h, pool, a); }
    }
  }

  /** If the only answer of the system is a grant one word behind the break, the very first
      request makes a top that is off the alignment: the words represent no heap any more. */
  method Unaligned(m: Words) returns (a: Arena)
    requires forall w: int | 0 <= w < LOW :: m[w] == 0
    ensures fresh(a) && a.Jammed() && !a.Valid()
  {
    hide *;
    LowIs();
    OneWordOff();
    a := new Arena(m, LOW, 0x1000_0000, [Grant(1, 0)]);
    BlankEmpty(a);
    ghost var h := a.h;
    var mem, pool := a.MALLOc(100);
    JamsFirst(h, Sys(LOW, 0x1000_0000, [Grant(1, 0)]), pool, mem != 0, a.Jammed());
    a.StandsStraight();
  }

  /** So it does if a word more is granted than was asked for, also when nothing else fails. */
  method Overgranted(m: Words) returns (a: Arena)
    requires forall w: int | 0 <= w < LOW :: m[w] == 0
    ensures fresh(a) && a.Jammed() && !a.Valid()
  {
    hide *;
    LowIs();
    OneWordMore();
    a := new Arena(m, LOW, 0x1000_0000, [Grant(0, 1), Grant(0, 0)]);
    BlankEmpty(a);
    ghost var h := a.h;
    var mem, pool := a.MALLOc(100);
    JamsFirst(h, Sys(LOW, 0x1000_0000, [Grant(0, 1), Grant(0, 0)]), pool, mem != 0, a.Jammed());
    a.StandsStraight();
  }

  lemma LowIs()
    ensures LOW == 8192 && REQUEST_LIMIT > 100 && RequestToSize(100) == 104 && BinAt(1) < LOW
  {
  }

  lemma BlankEmpty(a: Arena)
    requires a.Blank()
    ensures a.h.chunks == map[]
  {
  }

  lemma JamsFirst(h: Heap, y: Sys, pool: Heap, got: bool, jammed: bool)
    requires h.chunks == map[] && Outcome(h, y, true, pool, 104, got, jammed)
    requires forall end: Addr | end < LOW :: !Lined(Dealt(y, true, end, 0, 104))
    ensures jammed
  {
    EmptyPool(h, pool, 104);
    assert !Lined(Dealt(y, true, BinAt(1), 0, 104));
    hide Dealt, Lined, Delivers, Depleted, WellFormed, SameGround;
  }
}
