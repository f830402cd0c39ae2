/** The allocator's own debugging checks, on memory words alone: they succeed in every state
    that satisfies the invariant. */
module DlChecks {
  import opened DlSizes
  import opened DlHeap
  import opened DlTags
  import opened DlLinks
  import opened DlSteps
  import opened DlMoves
  import opened DlCoalesce
  import opened DlRelease
  import opened DlTake
  import opened DlSystem
  import opened DlSpace
  import opened DlMalloc

  /** inuse(p). */
  ghost predicate InUse(m: Words, p: int) {
    PrevInuse(m[p + SizeOf(m[p + 4]) + 4])
  }

  /** do_check_free_chunk: the tags, the foot, the neighbours and the links of a free chunk. */
  ghost predicate FreeChecks(m: Words, p: int, top: Addr) {
    var sz := SizeOf(m[p + 4]);
    var next := p + sz;
    && !InUse(m, p)
    && sz >= MINSIZE && sz % 8 == 0 && (p + 8) % 8 == 0
    && m[next] == sz
    && PrevInuse(m[p + 4])
    && (next == top || InUse(m, next))
    && m[m[p + 8] + 12] == p && m[m[p + 12] + 8] == p
  }

  /** do_check_inuse_chunk: the chunk is in use, and free neighbours are in order. */
  ghost predicate InuseChecks(m: Words, p: int, top: Addr) {
    var next := p + SizeOf(m[p + 4]);
    && InUse(m, p)
    && (!PrevInuse(m[p + 4]) ==>
          var prv := p - m[p]; prv + SizeOf(m[prv + 4]) == p && FreeChecks(m, prv, top))
    && if next == top then PrevInuse(m[next + 4]) && SizeOf(m[next + 4]) >= MINSIZE
       else !InUse(m, next) ==> FreeChecks(m, next, top)
  }

  // ----- free chunks -----

  lemma InUseIs(m: Words, p: Addr, size: nat)
    requires SizeOf(Head(m, p)) == size
    ensures InUse(m, p) <==> PrevInuse(Head(m, p + size))
  {
    hide PrevInuse, SizeOf;
  }

  lemma FreeSize(s: Store, p: Addr)
    requires Inv(s) && NoLoose(s.h.chunks) && p in s.h.chunks && IsFree(s.h.chunks[p].state)
    ensures SizeOf(Head(s.m, p)) == s.h.chunks[p].size && PrevInuse(Head(s.m, p))
  {
    hide *;
    InvParts(s);
    FreeHeadWord(s, p);
    ShapeOf(s.h.chunks, p);
    EightFours(s.h.chunks[p].size);
    HeadIsSelf(s.h.chunks[p].size);
    HeadBits(s.h.chunks[p].size + 1, s.h.chunks[p].size);
  }

  /** The links of a free chunk lead back to it. */
  lemma FreeLinks(s: Store, p: Addr)
    requires Inv(s) && !s.open && p in s.h.chunks && IsFree(s.h.chunks[p].state)
    ensures Fd(s.m, p) >= 0 && Bk(s.m, p) >= 0
    ensures Bk(s.m, Fd(s.m, p)) == p && Fd(s.m, Bk(s.m, p)) == p
  {
    var k := Place(s.h.chunks, s.h.lists, p);
    var i := s.h.chunks[p].state.bin;
    assert ListOk(s.h.chunks, i, s.h.lists[i]);
    assert Suits(i, s.h.chunks[p].size);
    var l := s.h.lists[i];
    hide *;
    BinRange(s, p, i);
    BinLinked(s, i);
    Neighbours(s.m, i, l, k);
    LinkAtIs(s.m, i, l, k, p);
  }

  lemma BinRange(s: Store, p: Addr, i: nat)
    requires p in s.h.chunks && s.h.chunks[p].state == Binned(i) && IsFree(s.h.chunks[p].state) && Suits(i, s.h.chunks[p].size)
    ensures 1 <= i < NBINS
  {
  }

  lemma LinkAtIs(m: Words, i: nat, l: seq<Addr>, k: nat, p: Addr)
    requires Linked(m, i, l) && k < |l| && l[k] == p
    ensures Bk(m, Node(i, l, k + 2)) == p && Fd(m, Node(i, l, k)) == p
  {
    assert LinkedAt(m, i, l, k) && LinkedAt(m, i, l, k + 1);
  }

  /** Every free chunk passes its check. */
  lemma FreePasses(s: Store, p: Addr, top: Addr)
    requires Inv(s) && !s.open && NoLoose(s.h.chunks) && p in s.h.chunks && IsFree(s.h.chunks[p].state)
    ensures FreeChecks(s.m, p, top)
  {
    hide *;
    InvParts(s);
    var next := p + s.h.chunks[p].size;
    FreeSize(s, p);
    ShapeOf(s.h.chunks, p);
    TagOf(s.m, s.h.chunks, s.h.starts, p);
    FreeTagParts(s.m, p, s.h.chunks[p]);
    FreeEnd(s, p);
    InUseIs(s.m, p, s.h.chunks[p].size);
    NoLooseHere(s.h.chunks, next);
    SolidParts(s.h.chunks, next);
    InuseTells(s, next);
    FreeLinks(s, p);
    SomeMin();
    FreeChecksIntro(s.m, p, s.h.chunks[p].size, top);
  }

  lemma SolidParts(chunks: Chunks, e: Addr)
    requires Solid(chunks, e)
    ensures e in chunks && !IsFree(chunks[e].state) && chunks[e].state != Top
  {
  }

  lemma FreeChecksIntro(m: Words, p: Addr, sz: nat, top: Addr)
    requires SizeOf(Head(m, p)) == sz && sz >= MINSIZE && sz % 8 == 0 && p % 8 == 0 && PrevInuse(Head(m, p))
    requires !InUse(m, p) && PrevSize(m, p + sz) == sz && PrevInuse(m[p + sz + SizeOf(Head(m, p + sz)) + 4])
    requires Fd(m, p) >= 0 && Bk(m, p) >= 0 && Bk(m, Fd(m, p)) == p && Fd(m, Bk(m, p)) == p
    ensures FreeChecks(m, p, top)
  {
    hide PrevInuse, SizeOf;
  }

  // ----- chunks in use -----

  /** Chunks in use, whether live or in a fastbin. */
  ghost predicate Busy(st: State) {
    st == Used || IsFast(st)
  }

  lemma BusySize(s: Store, p: Addr)
    requires Inv(s) && p in s.h.chunks && Busy(s.h.chunks[p].state)
    ensures SizeOf(Head(s.m, p)) == s.h.chunks[p].size && InUse(s.m, p)
    ensures p + s.h.chunks[p].size in s.h.chunks
  {
    hide *;
    InvParts(s);
    ShapeOf(s.h.chunks, p);
    TagOf(s.m, s.h.chunks, s.h.starts, p);
    BusyTag(s.m, p, s.h.chunks[p]);
    FastSize(s, p, 0);
    UsedEnd(s.m, p, s.h.chunks[p].size);
    InUseIs(s.m, p, s.h.chunks[p].size);
    BusyNext(s.h.chunks, s.h.starts, p);
  }

  lemma BusyTag(m: Words, p: Addr, c: Chunk)
    requires Tagged(m, p, c) && Busy(c.state)
    ensures Tagged(m, p, Chunk(c.size, Used))
  {
  }

  lemma UsedEnd(m: Words, p: Addr, size: nat)
    requires Tagged(m, p, Chunk(size, Used))
    ensures PrevInuse(Head(m, p + size))
  {
    hide PrevInuse, HeadIs;
  }

  lemma BusyNext(chunks: Chunks, starts: set<Addr>, p: Addr)
    requires Tiles(chunks, starts) && p in chunks && Busy(chunks[p].state)
    ensures p + chunks[p].size in chunks
  {
    assert End(chunks, p) in chunks;
  }

  /** A chunk before which PREV_INUSE is clear follows a free one, which passes its check. */
  lemma PrevPasses(s: Store, p: Addr, top: Addr)
    requires Inv(s) && !s.open && NoLoose(s.h.chunks) && p in s.h.chunks && !PrevInuse(Head(s.m, p))
    ensures var prv := p - PrevSize(s.m, p); prv >= 0 && prv + SizeOf(s.m[prv + 4]) == p && FreeChecks(s.m, prv, top)
  {
    hide *;
    NoneBefore(s.h.chunks, p);
    var prv := PrevIs(s, p);
    FreeSize(s, prv);
    HeadOf(s.m, prv);
    FreePasses(s, prv, top);
  }

  lemma NoneBefore(chunks: Chunks, p: Addr)
    requires NoLoose(chunks)
    ensures NoLooseBefore(chunks, p)
  {
  }

  /** Every chunk in use passes its check. */
  lemma InusePasses(s: Store, p: Addr, top: Addr)
    requires Inv(s) && !s.open && NoLoose(s.h.chunks) && TopField(top, s.h) && p in s.h.chunks && Busy(s.h.chunks[p].state)
    ensures InuseChecks(s.m, p, top)
  {
    hide *;
    InvParts(s);
    Parts(s.h);
    BusySize(s, p);
    ShapeOf(s.h.chunks, p);
    HeadOf(s.m, p);
    var next := p + s.h.chunks[p].size;
    HeadOf(s.m, next);
    if !PrevInuse(Head(s.m, p)) { PrevPasses(s, p, top); }
    TopFieldParts(top, s.h);
    NextOfBusy(s, p, next, top);
    if next == top {
      TopSizeOk(s, top);
      InUseIs(s.m, p, s.h.chunks[p].size);
    } else {
      InuseTells(s, next);
      if IsFree(s.h.chunks[next].state) { FreePasses(s, next, top); }
      NextInUse(s.m, next);
    }
    InuseChecksIntro(s.m, p, s.h.chunks[p].size, top);
  }

  lemma NextInUse(m: Words, q: Addr)
    ensures InUse(m, q) <==> PrevInuse(m[q + SizeOf(Head(m, q)) + 4])
  {
    hide PrevInuse, SizeOf;
  }

  lemma NextOfBusy(s: Store, p: Addr, q: Addr, top: Addr)
    requires Inv(s) && NoLoose(s.h.chunks) && TopField(top, s.h) && p in s.h.chunks && Busy(s.h.chunks[p].state)
    requires q == p + s.h.chunks[p].size
    ensures q in s.h.chunks && s.h.chunks[q].state != Loose && (s.h.chunks[q].state == Top <==> q == top)
    ensures q == top ==> s.h.top == Some(top)
  {
    assert Shaped(p, s.h.chunks[p]);
    assert q == End(s.h.chunks, p) && q in s.h.chunks;
  }

  lemma TopSizeOk(s: Store, top: Addr)
    requires Inv(s) && s.h.top == Some(top)
    ensures SizeOf(Head(s.m, top)) >= MINSIZE
  {
    hide *;
    TopFacts(s);
    EightFours(s.h.chunks[top].size);
    HeadBits(Head(s.m, top), s.h.chunks[top].size);
  }

  lemma InuseChecksIntro(m: Words, p: Addr, size: nat, top: Addr)
    requires SizeOf(m[p + 4]) == size && InUse(m, p)
    requires !PrevInuse(m[p + 4]) ==> var prv := p - PrevSize(m, p); prv + SizeOf(m[prv + 4]) == p && FreeChecks(m, prv, top)
    requires p + size == top ==> PrevInuse(m[p + size + 4]) && SizeOf(m[p + size + 4]) >= MINSIZE
    requires p + size != top && !InUse(m, p + size) ==> FreeChecks(m, p + size, top)
    ensures InuseChecks(m, p, top)
  {
    hide PrevInuse, SizeOf, FreeChecks, InUse;
  }

  // ----- the whole state -----

  /** A chunk of the i-th list passes the check of its kind and belongs there. */
  ghost predicate MemberChecks(m: Words, q: Addr, i: nat, top: Addr) {
    var size := SizeOf(m[q + 4]);
    && (if i < NBINS then FreeChecks(m, q, top) else InuseChecks(m, q, top)) && size >= MINSIZE
    && (2 <= i < NBINS ==> BinIndex(size) == i) && (i >= NBINS ==> FastIndex(size) == i - NBINS)
  }

  /** Largest first. */
  ghost predicate OrderChecks(m: Words, l: seq<Addr>) {
    forall j, k | 0 <= j < k < |l| :: SizeOf(m[l[j] + 4]) >= SizeOf(m[l[k] + 4])
  }

  /** The chunks that the loop over a regular bin visits, from p on by bk until the header;
      the last one first. */
  ghost predicate WalkedBack(m: Words, bin: int, p: int, l: seq<Addr>)
    decreases |l|
  {
    if l == [] then p == bin
    else p == l[|l| - 1] && p != bin && WalkedBack(m, bin, m[p + 12], l[..|l| - 1])
  }

  /** The chunks that the loop over a fastbin visits, from p on by fd until null. */
  ghost predicate WalkedOn(m: Words, p: int, l: seq<Addr>)
    decreases |l|
  {
    if l == [] then p == 0 else p == l[0] && p != 0 && WalkedOn(m, m[p + 8], l[1..])
  }

  ghost predicate Visits(m: Words, fastbins: seq<Addr>, i: nat, l: seq<Addr>) {
    if i < NBINS then WalkedBack(m, BinAt(i), m[BinAt(i) + 12], l)
    else i - NBINS < |fastbins| && WalkedOn(m, fastbins[i - NBINS], l)
  }

  /** The checks of do_check_malloc_state on the chunks of a bin or a fastbin. */
  ghost predicate ListChecks(m: Words, l: seq<Addr>, maxFast: nat, fastChunks: bool, binmap: seq<bv32>, i: nat, top: Addr) {
    && (2 <= i < NBINS && l != [] ==> SegregatedFits.Flag(binmap, i))
    && (i >= NBINS && (!fastChunks || i - NBINS > maxFast / 8 - 2) ==> l == [])
    && (forall k | 0 <= k < |l| :: MemberChecks(m, l[k], i, top))
    && (i != 1 ==> OrderChecks(m, l))
  }

  /** do_check_malloc_state on a bin or a fastbin: the walk through it comes to an end, and what
      it visits passes. */
  ghost predicate BinChecks(m: Words, fastbins: seq<Addr>, maxFast: nat, fastChunks: bool, binmap: seq<bv32>, i: nat, top: Addr) {
    exists l :: Visits(m, fastbins, i, l) && ListChecks(m, l, maxFast, fastChunks, binmap, i, top)
  }

  lemma {:induction false} CircleWalk(m: Words, i: nat, l: seq<Addr>, k: nat)
    requires Linked(m, i, l) && Nodes(i, l) && k <= |l|
    ensures WalkedBack(m, BinAt(i), Node(i, l, k), l[..k])
    decreases k
  {
    if k > 0 {
      CircleWalk(m, i, l, k - 1);
      NodesApart(i, l, 0, k);
      assert LinkedAt(m, i, l, k - 1);
      assert l[..k][..k - 1] == l[..k - 1];
      assert l[..k][k - 1] == Node(i, l, k);
    }
  }

  lemma {:induction false} ChainWalk(m: Words, head: Addr, l: seq<Addr>, k: nat)
    requires Chained(m, head, l) && 0 !in l && k <= |l|
    ensures WalkedOn(m, Next(l, k), l[k..])
    decreases |l| - k
  {
    if k < |l| {
      ChainWalk(m, head, l, k + 1);
      assert l[k..][1..] == l[k + 1..];
      assert l[k] in l;
      assert Fd(m, l[k]) == Next(l, k + 1);
    }
  }

  /** The walk through a regular bin. */
  lemma BinVisits(s: Store, i: nat)
    requires Inv(s) && !s.open && 1 <= i < NBINS && |s.h.lists| == LISTS && NBINS < LISTS
    ensures Visits(s.m, s.fastbins, i, s.h.lists[i])
  {
    var l := s.h.lists[i];
    hide *;
    InvParts(s);
    ListNodes(s.h.chunks, s.h.lists, i);
    BinLinked(s, i);
    LastNode(s.m, i, l);
    CircleWalk(s.m, i, l, |l|);
    assert l[..|l|] == l;
    VisitsBin(s.m, s.fastbins, i, l);
  }

  lemma LastNode(m: Words, i: nat, l: seq<Addr>)
    requires Linked(m, i, l)
    ensures m[BinAt(i) + 12] == Node(i, l, |l|)
  {
    assert LinkedAt(m, i, l, |l|);
  }

  lemma VisitsBin(m: Words, fastbins: seq<Addr>, i: nat, l: seq<Addr>)
    requires i < NBINS && WalkedBack(m, BinAt(i), m[BinAt(i) + 12], l)
    ensures Visits(m, fastbins, i, l)
  {
  }

  /** The walk through a fastbin. */
  lemma FastVisits(s: Store, f: nat)
    requires Inv(s) && f < NFASTBINS && |s.h.lists| == LISTS && NBINS + f < LISTS
    ensures Visits(s.m, s.fastbins, NBINS + f, s.h.lists[NBINS + f])
  {
    var l := s.h.lists[NBINS + f];
    assert |s.fastbins| == NFASTBINS && Chained(s.m, s.fastbins[f], l);
    assert ListOk(s.h.chunks, NBINS + f, l);
    forall k | 0 <= k < |l| ensures l[k] != 0 {
      assert Shaped(l[k], s.h.chunks[l[k]]);
    }
    hide Inv, Chained;
    ChainWalk(s.m, s.fastbins[f], l, 0);
    assert l[0..] == l;
    ChainHead(s.m, s.fastbins[f], l);
  }

  lemma ChainHead(m: Words, head: Addr, l: seq<Addr>)
    requires Chained(m, head, l)
    ensures head == Next(l, 0)
  {
  }

  /** Chunks beyond max_fast are never put on a fastbin. */
  lemma HighFastEmpty(s: Store, i: nat)
    requires Inv(s) && |s.h.lists| == LISTS && NBINS <= i < LISTS && i - NBINS > DEFAULT_MAX_FAST / 8 - 2
    ensures s.h.lists[i] == []
  {
    var l := s.h.lists[i];
    assert ListOk(s.h.chunks, i, l);
    if l != [] { FastLimit(i, s.h.chunks[l[0]].size); }
  }

  lemma FastLimit(i: nat, size: nat)
    requires i >= NBINS && Suits(i, size)
    ensures i - NBINS <= DEFAULT_MAX_FAST / 8 - 2
  {
  }

  lemma ListPasses(s: Store, i: nat, k: nat, top: Addr)
    requires Inv(s) && !s.open && NoLoose(s.h.chunks) && TopField(top, s.h) && i < LISTS && |s.h.lists| == LISTS
    requires k < |s.h.lists[i]|
    ensures var q := s.h.lists[i][k];
            && (if i < NBINS then FreeChecks(s.m, q, top) else InuseChecks(s.m, q, top))
            && q in s.h.chunks && SizeOf(s.m[q + 4]) == s.h.chunks[q].size && Suits(i, s.h.chunks[q].size)
            && s.h.chunks[q].size >= MINSIZE
  {
    var q := s.h.lists[i][k];
    MemberOf(s, i, k);
    hide *;
    InvParts(s);
    ShapeOf(s.h.chunks, q);
    SomeMin();
    HeadOf(s.m, q);
    ListKind(i, s.h.chunks[q].state);
    if i < NBINS {
      FreePasses(s, q, top);
      FreeSize(s, q);
    } else {
      InusePasses(s, q, top);
      BusySize(s, q);
    }
  }

  lemma MemberOf(s: Store, i: nat, k: nat)
    requires Inv(s) && i < LISTS && |s.h.lists| == LISTS && k < |s.h.lists[i]|
    ensures var q := s.h.lists[i][k]; q in s.h.chunks && s.h.chunks[q].state == Binned(i) && Suits(i, s.h.chunks[q].size)
  {
    assert ListOk(s.h.chunks, i, s.h.lists[i]);
    hide Suits;
  }

  lemma ListKind(i: nat, st: State)
    requires st == Binned(i)
    ensures if i < NBINS then IsFree(st) else Busy(st)
  {
  }

  lemma InOrder(s: Store, i: nat, j: nat, k: nat)
    requires Inv(s) && i < LISTS && |s.h.lists| == LISTS && i != 1 && j < k < |s.h.lists[i]|
    ensures s.h.lists[i][j] in s.h.chunks && s.h.lists[i][k] in s.h.chunks
    ensures s.h.chunks[s.h.lists[i][j]].size >= s.h.chunks[s.h.lists[i][k]].size
  {
    assert ListOk(s.h.chunks, i, s.h.lists[i]);
    hide Suits;
  }

  lemma SuitsTells(i: nat, size: nat)
    requires Suits(i, size) && size >= MINSIZE
    ensures (2 <= i < NBINS ==> BinIndex(size) == i) && (i >= NBINS ==> FastIndex(size) == i - NBINS)
  {
  }

  lemma MemberPasses(s: Store, i: nat, k: nat, top: Addr)
    requires Inv(s) && !s.open && NoLoose(s.h.chunks) && TopField(top, s.h) && i < LISTS && |s.h.lists| == LISTS
    requires k < |s.h.lists[i]|
    ensures MemberChecks(s.m, s.h.lists[i][k], i, top)
  {
    ListPasses(s, i, k, top);
    SuitsTells(i, s.h.chunks[s.h.lists[i][k]].size);
    hide Inv, NoLoose, TopField, FreeChecks, InuseChecks, SizeOf, Suits, BinIndex, FastIndex;
  }

  lemma OrderPasses(s: Store, i: nat, top: Addr)
    requires Inv(s) && !s.open && NoLoose(s.h.chunks) && TopField(top, s.h) && i < LISTS && |s.h.lists| == LISTS && i != 1
    ensures OrderChecks(s.m, s.h.lists[i])
  {
    hide Inv, NoLoose, TopField, FreeChecks, InuseChecks, SizeOf, Suits;
    forall j, k | 0 <= j < k < |s.h.lists[i]|
      ensures SizeOf(s.m[s.h.lists[i][j] + 4]) >= SizeOf(s.m[s.h.lists[i][k] + 4])
    {
      ListPasses(s, i, j, top);
      ListPasses(s, i, k, top);
      InOrder(s, i, j, k);
    }
  }

  lemma BinPasses(s: Store, top: Addr, maxFast: nat, fastChunks: bool, binmap: seq<bv32>, i: nat)
    requires Sound(s, top, maxFast, fastChunks, binmap) && 1 <= i < LISTS && |s.h.lists| == LISTS
    ensures BinChecks(s.m, s.fastbins, maxFast, fastChunks, binmap, i, top)
  {
    hide *;
    SoundParts(s, top, maxFast, fastChunks, binmap);
    ListCount();
    InvParts(s);
    var l := s.h.lists[i];
    forall k | 0 <= k < |l| ensures MemberChecks(s.m, l[k], i, top) {
      MemberPasses(s, i, k, top);
    }
    if i != 1 { OrderPasses(s, i, top); }
    if i < NBINS {
      BinVisits(s, i);
      FlagOf(s, binmap, i);
    } else {
      FastVisits(s, i - NBINS);
      if i - NBINS > DEFAULT_MAX_FAST / 8 - 2 { HighFastEmpty(s, i); }
      if !fastChunks { FastEmptyAt(s.h.lists, i); }
    }
    ListIntro(s.m, s.fastbins, l, maxFast, fastChunks, binmap, i, top);
  }

  lemma FlagOf(s: Store, binmap: seq<bv32>, i: nat)
    requires BinsMapped(binmap, s.h.lists) && i < |s.h.lists|
    ensures 2 <= i < NBINS && s.h.lists[i] != [] ==> SegregatedFits.Flag(binmap, i)
  {
    hide SegregatedFits.Flag;
  }

  lemma FastEmptyAt(lists: seq<seq<Addr>>, i: nat)
    requires FastEmpty(lists) && NBINS <= i < LISTS && |lists| == LISTS
    ensures lists[i] == []
  {
  }

  lemma ListIntro(m: Words, fastbins: seq<Addr>, l: seq<Addr>, maxFast: nat, fastChunks: bool, binmap: seq<bv32>, i: nat, top: Addr)
    requires Visits(m, fastbins, i, l) && maxFast == DEFAULT_MAX_FAST
    requires 2 <= i < NBINS && l != [] ==> SegregatedFits.Flag(binmap, i)
    requires i >= NBINS && (!fastChunks || i - NBINS > DEFAULT_MAX_FAST / 8 - 2) ==> l == []
    requires forall k | 0 <= k < |l| :: MemberChecks(m, l[k], i, top)
    requires i != 1 ==> OrderChecks(m, l)
    ensures BinChecks(m, fastbins, maxFast, fastChunks, binmap, i, top)
  {
    hide Visits, SegregatedFits.Flag, MemberChecks, OrderChecks;
    assert ListChecks(m, l, maxFast, fastChunks, binmap, i, top);
  }

  /** do_check_malloc_state and the checks it calls succeed in every valid state: on all bins
      and fastbins, walked through by their links, on all chunks, and on top, which is at
      least a minimum chunk and never follows a free one. */
  lemma StatePasses(a: Arena)
    requires a.Valid()
    ensures forall i | 1 <= i < LISTS :: BinChecks(a.words, a.fastbins, a.maxFast, a.fastChunks, a.binmap, i, a.top)
    ensures forall p | p in a.h.chunks && IsFree(a.h.chunks[p].state) :: FreeChecks(a.words, p, a.top)
    ensures forall p | p in a.h.chunks && Busy(a.h.chunks[p].state) :: InuseChecks(a.words, p, a.top)
    ensures a.h.top.Some? ==> SizeOf(a.words[a.top + 4]) >= MINSIZE && PrevInuse(a.words[a.top + 4])
  {
    hide *;
    a.ValidIs();
    AllPass(Store(a.words, a.h, a.fastbins, false), a.top, a.maxFast, a.fastChunks, a.binmap);
  }

  lemma AllPass(s: Store, top: Addr, maxFast: nat, fastChunks: bool, binmap: seq<bv32>)
    requires Sound(s, top, maxFast, fastChunks, binmap)
    ensures forall i | 1 <= i < LISTS :: BinChecks(s.m, s.fastbins, maxFast, fastChunks, binmap, i, top)
    ensures forall p | p in s.h.chunks && IsFree(s.h.chunks[p].state) :: FreeChecks(s.m, p, top)
    ensures forall p | p in s.h.chunks && Busy(s.h.chunks[p].state) :: InuseChecks(s.m, p, top)
    ensures s.h.top.Some? ==> SizeOf(s.m[top + 4]) >= MINSIZE && PrevInuse(s.m[top + 4])
  {
    hide *;
    SoundParts(s, top, maxFast, fastChunks, binmap);
    forall i | 1 <= i < LISTS ensures BinChecks(s.m, s.fastbins, maxFast, fastChunks, binmap, i, top) {
      BinPasses(s, top, maxFast, fastChunks, binmap, i);
    }
    forall p | p in s.h.chunks && IsFree(s.h.chunks[p].state) ensures FreeChecks(s.m, p, top) {
      FreePasses(s, p, top);
    }
    forall p | p in s.h.chunks && Busy(s.h.chunks[p].state) ensures InuseChecks(s.m, p, top) {
      InusePasses(s, p, top);
    }
    TopFieldParts(top, s.h);
    if s.h.top.Some? { TopPasses(s, top); }
  }

  /** The address ranges of do_check_chunk, which it checks while memory is taken to be
      contiguous: between the end of top less the bytes obtained, and top. */
  ghost predicate RangeChecks(a: Arena, p: Addr)
    reads a
  {
    var maxAddress := a.top + SizeOf(a.words[a.top + 4]);
    p >= maxAddress - a.sbrkedMem && p + SizeOf(a.words[p + 4]) <= a.top
  }

  /** Of the stretch from p to the end of top, what the chunks do not account for. */
  ghost function Holes(h: Heap, p: Addr, top: Addr): int
    requires top in h.chunks
  {
    End(h.chunks, top) - p - Total(h.chunks)
  }

  /** When this check succeeds.  The chunk lies below top; and what lies between it and the
      end of top without belonging to a chunk is no more than the bytes the allocator has
      counted without having them, less those it has without having counted them.  A gap that
      the system leaves at the break is counted, and so is what is skipped to align a new top;
      a grant larger than was asked for is not. */
  lemma RangesExact(a: Arena, p: Addr)
    requires a.Valid() && a.Accounted()
    requires p in a.h.chunks && (IsFree(a.h.chunks[p].state) || Busy(a.h.chunks[p].state))
    ensures a.top in a.h.chunks && a.h.chunks[a.top].state == Top
    ensures RangeChecks(a, p) <==> p < a.top && Holes(a.h, p, a.top) <= a.lost
  {
    hide *;
    a.ValidIs();
    SoundParts(Store(a.words, a.h, a.fastbins, false), a.top, a.maxFast, a.fastChunks, a.binmap);
    a.AccountedIs();
    BooksParts(a.h.chunks, a.sbrkedMem, a.lost, a.brk, a.mapFloor, a.steady);
    RangeOf(Store(a.words, a.h, a.fastbins, false), a.top, p);
    HeadOf(a.words, a.top);
    HeadOf(a.words, p);
    RangeIs(a, p);
  }

  /** With a system that only continues its memory, every free chunk and every chunk in use
      passes this check too. */
  lemma RangesPass(a: Arena, p: Addr)
    requires a.Valid() && a.Accounted() && a.steady
    requires p in a.h.chunks && (IsFree(a.h.chunks[p].state) || Busy(a.h.chunks[p].state))
    ensures RangeChecks(a, p)
  {
    hide *;
    a.ValidIs();
    SoundParts(Store(a.words, a.h, a.fastbins, false), a.top, a.maxFast, a.fastChunks, a.binmap);
    a.AccountedIs();
    BooksParts(a.h.chunks, a.sbrkedMem, a.lost, a.brk, a.mapFloor, a.steady);
    InvParts(Store(a.words, a.h, a.fastbins, false));
    RangesExact(a, p);
    NotTopKind(a.h.chunks[p].state);
    OneTopHere(a.h, a.top);
    TopReaches(a.h, a.top, a.brk);
    BelowTop(a.h, p, a.top, a.brk);
  }

  /** The words of top and of the chunk, and where top is. */
  lemma RangeOf(s: Store, top: Addr, p: Addr)
    requires Inv(s) && NoLoose(s.h.chunks) && TopField(top, s.h)
    requires p in s.h.chunks && (IsFree(s.h.chunks[p].state) || Busy(s.h.chunks[p].state))
    ensures top in s.h.chunks && s.h.chunks[top].state == Top && SizeOf(Head(s.m, top)) == s.h.chunks[top].size
    ensures SizeOf(Head(s.m, p)) == s.h.chunks[p].size && (p < top <==> End(s.h.chunks, p) <= top)
  {
    hide *;
    InvParts(s);
    var t := SomeTop(s.h, p);
    OneTopHere(s.h, t);
    TopMeasure(s, top);
    ShapeOf(s.h.chunks, t);
    if IsFree(s.h.chunks[p].state) { FreeSize(s, p); } else { BusySize(s, p); }
    NotTopKind(s.h.chunks[p].state);
    TopOrder(s.h, p, top);
  }

  lemma TopOrder(h: Heap, p: Addr, q: Addr)
    requires WellFormed(h) && p in h.chunks && q in h.chunks && p != q
    ensures p < q <==> End(h.chunks, p) <= q
  {
    assert Shaped(p, h.chunks[p]);
    if p < q { OrderedPair(h.chunks, p, q); }
  }

  lemma NotTopKind(st: State)
    ensures IsFree(st) || Busy(st) ==> st != Top
  {
  }

  lemma OneTopHere(h: Heap, t: Addr)
    requires WellFormed(h) && t in h.chunks && h.chunks[t].state == Top
    ensures h.top == Some(t)
  {
  }

  lemma BelowTop(h: Heap, p: Addr, top: Addr, edge: Addr)
    requires WellFormed(h) && h.top == Some(top) && top in h.chunks && p in h.chunks && p != top
    requires Compact(h.chunks, edge) && End(h.chunks, top) == edge
    ensures p < top && Holes(h, p, top) <= 0
  {
    assert Shaped(p, h.chunks[p]) && Shaped(top, h.chunks[top]);
    assert InChunk(h.chunks, p);
    LastIsTop(h.chunks, h.starts, h.top);
    OrderedPair(h.chunks, p, top);
    hide Total, InChunk;
  }

  lemma TopReaches(h: Heap, top: Addr, edge: Addr)
    requires WellFormed(h) && Compact(h.chunks, edge) && h.top == Some(top)
    ensures top in h.chunks && End(h.chunks, top) == edge
  {
    EdgeOfTop(h, edge);
    assert Shaped(top, h.chunks[top]);
    hide Tiles, Listed, Apart, Compact;
  }

  lemma RangeIs(a: Arena, p: Addr)
    requires a.top in a.h.chunks && p in a.h.chunks && a.sbrkedMem == Total(a.h.chunks) + a.lost
    requires SizeOf(a.words[a.top + 4]) == a.h.chunks[a.top].size && SizeOf(a.words[p + 4]) == a.h.chunks[p].size
    requires p < a.top <==> End(a.h.chunks, p) <= a.top
    ensures RangeChecks(a, p) <==> p < a.top && Holes(a.h, p, a.top) <= a.lost
  {
    hide SizeOf, Total;
  }

  lemma TopPasses(s: Store, top: Addr)
    requires Inv(s) && NoLoose(s.h.chunks) && s.h.top == Some(top)
    ensures SizeOf(s.m[top + 4]) >= MINSIZE && PrevInuse(s.m[top + 4])
  {
    hide *;
    InvParts(s);
    TopFacts(s);
    TopSizeOk(s, top);
    NoLooseAny(s.h.chunks, top);
    PrevTells(s.m, s.h.chunks, s.h.starts, top);
    HeadOf(s.m, top);
  }
}
