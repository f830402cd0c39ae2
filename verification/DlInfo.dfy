/** mallinfo(): the statistics, and the conservation of bytes that makes them exact. */
module DlInfo {
  import opened DlSizes
  import opened DlHeap
  import opened DlTags
  import opened DlLinks
  import opened DlSteps
  import opened DlMoves
  import opened DlCoalesce
  import opened DlRelease
  import opened DlTake
  import opened DlSystem
  import opened DlMalloc

  // ----- bytes by kind of chunk -----

  datatype Kind = InUse | InBins | InFastbins | AtTop | Fenced | InHand

  function KindOf(st: State): Kind {
    match st
    case Used => InUse
    case Binned(i) => if i < NBINS then InBins else InFastbins
    case Loose => InHand
    case Top => AtTop
    case Fence => Fenced
  }

  /** The chunks at the given places. */
  ghost function Part(chunks: Chunks, places: set<Addr>): Chunks {
    map a | a in chunks && a in places :: chunks[a]
  }

  ghost function Places(chunks: Chunks, k: Kind): set<Addr> {
    set a | a in chunks && KindOf(chunks[a].state) == k
  }

  ghost function Bytes(chunks: Chunks, k: Kind): nat {
    Total(Part(chunks, Places(chunks, k)))
  }

  lemma PartMore(chunks: Chunks, places: set<Addr>, p: Addr)
    requires p in chunks && p !in places
    ensures Total(Part(chunks, places + {p})) == Total(Part(chunks, places)) + chunks[p].size
  {
    TotalWithout(Part(chunks, places + {p}), p);
    assert Part(chunks, places + {p}) - {p} == Part(chunks, places);
  }

  lemma {:induction false} TotalUnion(chunks: Chunks, xs: set<Addr>, ys: set<Addr>)
    requires xs !! ys
    ensures Total(Part(chunks, xs + ys)) == Total(Part(chunks, xs)) + Total(Part(chunks, ys))
    decreases ys
  {
    if ys == {} {
      assert xs + ys == xs;
      assert Part(chunks, ys) == map[];
    } else {
      var y :| y in ys;
      TotalUnion(chunks, xs, ys - {y});
      assert ys == (ys - {y}) + {y} && xs + ys == xs + (ys - {y}) + {y};
      if y in chunks {
        PartMore(chunks, xs + (ys - {y}), y);
        PartMore(chunks, ys - {y}, y);
      } else {
        assert Part(chunks, xs + ys) == Part(chunks, xs + (ys - {y}));
        assert Part(chunks, ys) == Part(chunks, ys - {y});
      }
    }
  }

  lemma KindsApart(chunks: Chunks, k: Kind, l: Kind)
    requires k != l
    ensures Places(chunks, k) !! Places(chunks, l)
  {
  }

  lemma KindsCover(chunks: Chunks)
    ensures Part(chunks, Places(chunks, InUse) + Places(chunks, InBins) + Places(chunks, InFastbins)
                         + (Places(chunks, AtTop) + Places(chunks, Fenced) + Places(chunks, InHand))) == chunks
  {
    forall a | a in chunks
      ensures a in Places(chunks, InUse) + Places(chunks, InBins) + Places(chunks, InFastbins)
                   + (Places(chunks, AtTop) + Places(chunks, Fenced) + Places(chunks, InHand))
    {
      assert a in Places(chunks, KindOf(chunks[a].state));
    }
  }

  lemma ThreeKinds(chunks: Chunks, k: Kind, l: Kind, m: Kind)
    requires k != l && l != m && m != k
    ensures Total(Part(chunks, Places(chunks, k) + Places(chunks, l) + Places(chunks, m)))
         == Bytes(chunks, k) + Bytes(chunks, l) + Bytes(chunks, m)
  {
    KindsApart(chunks, k, l);
    KindsApart(chunks, l, m);
    KindsApart(chunks, k, m);
    hide Places, Part, Total;
    TotalUnion(chunks, Places(chunks, k), Places(chunks, l));
    TotalUnion(chunks, Places(chunks, k) + Places(chunks, l), Places(chunks, m));
  }

  /** Every byte of a chunk is of exactly one kind. */
  lemma TotalByKind(chunks: Chunks)
    ensures Total(chunks) == Bytes(chunks, InUse) + Bytes(chunks, InBins) + Bytes(chunks, InFastbins)
                             + Bytes(chunks, AtTop) + Bytes(chunks, Fenced) + Bytes(chunks, InHand)
  {
    hide *;
    var first := Places(chunks, InUse) + Places(chunks, InBins) + Places(chunks, InFastbins);
    var second := Places(chunks, AtTop) + Places(chunks, Fenced) + Places(chunks, InHand);
    forall k: Kind, l: Kind | k != l ensures Places(chunks, k) !! Places(chunks, l) {
      KindsApart(chunks, k, l);
    }
    assert first !! second;
    TotalUnion(chunks, first, second);
    ThreeKinds(chunks, InUse, InBins, InFastbins);
    ThreeKinds(chunks, AtTop, Fenced, InHand);
    KindsCover(chunks);
  }

  lemma NoneOfKind(chunks: Chunks, k: Kind)
    requires forall a | a in chunks :: KindOf(chunks[a].state) != k
    ensures Bytes(chunks, k) == 0
  {
    assert Part(chunks, Places(chunks, k)) == map[];
  }

  lemma SomeOfKind(chunks: Chunks, k: Kind, p: Addr)
    requires p in chunks && KindOf(chunks[p].state) == k
    ensures Bytes(chunks, k) >= chunks[p].size
  {
    PartMore(chunks, Places(chunks, k) - {p}, p);
    assert Places(chunks, k) - {p} + {p} == Places(chunks, k);
  }

  lemma TopBytes(chunks: Chunks, top: Option<Addr>)
    requires TopIs(chunks, top)
    ensures Bytes(chunks, AtTop) == if top.Some? then chunks[top.value].size else 0
  {
    if top.Some? {
      assert Places(chunks, AtTop) == {} + {top.value};
      PartMore(chunks, {}, top.value);
      assert Part(chunks, {}) == map[];
    } else {
      NoneOfKind(chunks, AtTop);
    }
  }

  // ----- conservation -----

  /** The bytes obtained from the system, as they are counted, are those of all chunks, fences,
      and what was skipped to align regions, less what was given unasked. */
  lemma Conserved(a: Arena)
    requires a.Valid() && a.Accounted()
    ensures a.sbrkedMem == Bytes(a.h.chunks, InUse) + Bytes(a.h.chunks, InBins) + Bytes(a.h.chunks, InFastbins)
                           + Bytes(a.h.chunks, AtTop) + Bytes(a.h.chunks, Fenced) + a.lost
    ensures a.steady ==> Bytes(a.h.chunks, Fenced) == 0 && a.lost == 0
  {
    hide *;
    a.ValidIs();
    a.AccountedIs();
    SoundParts(Store(a.words, a.h, a.fastbins, false), a.top, a.maxFast, a.fastChunks, a.binmap);
    BooksParts(a.h.chunks, a.sbrkedMem, a.lost, a.brk, a.mapFloor, a.steady);
    TotalByKind(a.h.chunks);
    NoneInHand(a.h.chunks);
    if a.steady { NoneFenced(a.h.chunks, a.brk); }
  }

  lemma NoneInHand(chunks: Chunks)
    requires NoLoose(chunks)
    ensures Bytes(chunks, InHand) == 0
  {
    NoneOfKind(chunks, InHand);
  }

  lemma NoneFenced(chunks: Chunks, edge: Addr)
    requires Compact(chunks, edge)
    ensures Bytes(chunks, Fenced) == 0
  {
    NoneOfKind(chunks, Fenced);
  }

  /** Fences cost bytes. */
  lemma FencesCost(chunks: Chunks)
    requires Shapes(chunks)
    ensures Bytes(chunks, Fenced) == 0 <==> NoFence(chunks)
  {
    if NoFence(chunks) {
      NoneOfKind(chunks, Fenced);
    } else {
      var p :| p in chunks && chunks[p].state == Fence;
      assert Shaped(p, chunks[p]);
      SomeOfKind(chunks, Fenced, p);
    }
  }

  // ----- walking the lists -----

  /** The binned chunks whose list is one of those from lo up to hi. */
  ghost function InLists(chunks: Chunks, lo: nat, hi: nat): set<Addr> {
    set a | a in chunks && chunks[a].state.Binned? && lo <= chunks[a].state.bin < hi
  }

  /** Chunks whose bytes have been added up: all of the lists from lo up to i, and of the i-th
      those at the places from k up to n. */
  ghost function Seen(chunks: Chunks, lo: nat, i: nat, s: seq<Addr>, k: nat, n: nat): set<Addr>
    requires k <= n <= |s|
  {
    InLists(chunks, lo, i) + (set j | k <= j < n :: s[j])
  }

  lemma SeenNone(chunks: Chunks, lo: nat, i: nat, s: seq<Addr>, k: nat)
    requires k <= |s|
    ensures Seen(chunks, lo, i, s, k, k) == InLists(chunks, lo, i)
  {
  }

  lemma SeenAll(chunks: Chunks, lists: seq<seq<Addr>>, lo: nat, i: nat)
    requires Listed(chunks, lists) && lo <= i < LISTS
    ensures Seen(chunks, lo, i, lists[i], 0, |lists[i]|) == InLists(chunks, lo, i + 1)
  {
    var s := lists[i];
    assert ListOk(chunks, i, s);
    forall a | a in InLists(chunks, lo, i + 1) ensures a in Seen(chunks, lo, i, s, 0, |s|) {
      if chunks[a].state.bin == i {
        var k := Place(chunks, lists, a);
        assert s[k] == a;
      }
    }
  }

  lemma SeenAdds(chunks: Chunks, lists: seq<seq<Addr>>, lo: nat, i: nat, k: nat, n: nat, l: nat) returns (was: set<Addr>)
    requires Listed(chunks, lists) && i < LISTS && k <= n <= |lists[i]|
    requires (k > 0 && l == k - 1) || (n < |lists[i]| && l == n)
    ensures was == Seen(chunks, lo, i, lists[i], k, n) && lists[i][l] in chunks && lists[i][l] !in was
    ensures (if l == n then Seen(chunks, lo, i, lists[i], k, n + 1) else Seen(chunks, lo, i, lists[i], l, n)) == was + {lists[i][l]}
  {
    var s := lists[i];
    assert ListOk(chunks, i, s);
    hide Suits, Descending, Found;
    was := Seen(chunks, lo, i, s, k, n);
  }

  lemma SeenMore(chunks: Chunks, lists: seq<seq<Addr>>, lo: nat, i: nat, k: nat, n: nat, l: nat)
    requires Listed(chunks, lists) && i < LISTS && k <= n <= |lists[i]|
    requires (k > 0 && l == k - 1) || (n < |lists[i]| && l == n)
    ensures lists[i][l] in chunks
    ensures var more := if l == n then Seen(chunks, lo, i, lists[i], k, n + 1) else Seen(chunks, lo, i, lists[i], l, n);
            && Total(Part(chunks, more)) == Total(Part(chunks, Seen(chunks, lo, i, lists[i], k, n))) + chunks[lists[i][l]].size
            && |more| == |Seen(chunks, lo, i, lists[i], k, n)| + 1
  {
    assert |lists| == LISTS;
    hide Listed, Seen, Total, Part;
    var was := SeenAdds(chunks, lists, lo, i, k, n, l);
    PartMore(chunks, was, lists[i][l]);
  }

  lemma ListsOfKind(chunks: Chunks, lists: seq<seq<Addr>>)
    requires Listed(chunks, lists)
    ensures InLists(chunks, 1, NBINS) == Places(chunks, InBins) && InLists(chunks, NBINS, LISTS) == Places(chunks, InFastbins)
  {
    forall a | a in Places(chunks, InBins) ensures a in InLists(chunks, 1, NBINS) {
      var i := chunks[a].state.bin;
      var k := Place(chunks, lists, a);
      assert ListOk(chunks, i, lists[i]);
      assert Suits(i, chunks[a].size);
    }
    forall a | a in Places(chunks, InFastbins) ensures a in InLists(chunks, NBINS, LISTS) {
      var k := Place(chunks, lists, a);
    }
  }

  lemma BytesAre(chunks: Chunks, k: Kind)
    ensures Bytes(chunks, k) == Total(Part(chunks, Places(chunks, k)))
  {
  }

  lemma StartEmpty(chunks: Chunks, lo: nat)
    ensures InLists(chunks, lo, lo) == {} && Total(Part(chunks, InLists(chunks, lo, lo))) == 0
  {
    assert Part(chunks, InLists(chunks, lo, lo)) == map[];
  }

  lemma FastMember(s: Store, f: nat, k: nat)
    requires Inv(s) && f < NFASTBINS && NBINS + f < |s.h.lists| && k < |s.h.lists[NBINS + f]|
    ensures var v := s.h.lists[NBINS + f][k];
            v in s.h.chunks && s.h.chunks[v].state == Binned(NBINS + f) && Fd(s.m, v) == Next(s.h.lists[NBINS + f], k + 1)
  {
    assert ListOk(s.h.chunks, NBINS + f, s.h.lists[NBINS + f]);
    assert Chained(s.m, s.fastbins[f], s.h.lists[NBINS + f]);
    hide Tiles, Apart, Tags, AllLinked, Suits, TopIs;
  }

  lemma FastTag(m: Words, v: Addr, c: Chunk)
    requires Tagged(m, v, c) && c.state.Binned? && c.state.bin >= NBINS
    ensures Tagged(m, v, Chunk(c.size, Used))
  {
  }

  /** What the words of a fastbin's k-th chunk say. */
  lemma FastAt(s: Store, f: nat, k: nat)
    requires Inv(s) && f < NFASTBINS && NBINS + f < |s.h.lists| && k < |s.h.lists[NBINS + f]|
    ensures var v := s.h.lists[NBINS + f][k];
            && v != 0 && v in s.h.chunks && SizeOf(Head(s.m, v)) == s.h.chunks[v].size
            && Fd(s.m, v) == Next(s.h.lists[NBINS + f], k + 1)
  {
    hide *;
    FastMember(s, f, k);
    InvParts(s);
    var v := s.h.lists[NBINS + f][k];
    ShapeOf(s.h.chunks, v);
    TagOf(s.m, s.h.chunks, s.h.starts, v);
    FastTag(s.m, v, s.h.chunks[v]);
    FastSize(s, v, f);
  }

  /** The walk through the fastbins. */
  method CountFast(a: Arena) returns (nblocks: nat, avail: nat)
    requires a.Valid()
    ensures nblocks == |Places(a.h.chunks, InFastbins)| && avail == Bytes(a.h.chunks, InFastbins)
  {
    hide *;
    ghost var s := Store(a.words, a.h, a.fastbins, false);
    ghost var chunks := a.h.chunks;
    a.ValidIs();
    SoundParts(s, a.top, a.maxFast, a.fastChunks, a.binmap);
    InvParts(s);
    ListCount();
    nblocks, avail := 0, 0;
    StartEmpty(chunks, NBINS);
    var i := 0;
    while i < NFASTBINS
      invariant i <= NFASTBINS
      invariant nblocks == |InLists(chunks, NBINS, NBINS + i)| && avail == Total(Part(chunks, InLists(chunks, NBINS, NBINS + i)))
    {
      HeadOfFast(s, i);
      ghost var l := s.h.lists[NBINS + i];
      ghost var k := 0;
      SeenNone(chunks, NBINS, NBINS + i, l, 0);
      var p: Addr := a.fastbins[i];
      while p != 0
        invariant k <= |l| && p == Next(l, k) && (k == |l| ==> p == 0)
        invariant nblocks == |Seen(chunks, NBINS, NBINS + i, l, 0, k)|
        invariant avail == Total(Part(chunks, Seen(chunks, NBINS, NBINS + i, l, 0, k)))
        decreases |l| - k
      {
        NextIs(l, k);
        FastAt(s, i, k);
        SeenMore(chunks, s.h.lists, NBINS, NBINS + i, 0, k, k);
        nblocks := nblocks + 1;
        avail := avail + SizeOf(Head(a.words, p));
        p := Fd(a.words, p);
        k := k + 1;
        NextIs(l, k);
      }
      NextIs(l, k);
      if k < |l| { FastAt(s, i, k); }
      SeenAll(chunks, s.h.lists, NBINS, NBINS + i);
      i := i + 1;
    }
    ListsOfKind(chunks, s.h.lists);
    BytesAre(chunks, InFastbins);
  }

  lemma NextIs(l: seq<Addr>, k: nat)
    ensures Next(l, k) == if k < |l| then l[k] else 0
  {
  }

  /** The k-th node of a bin's circle, counted from the header. */
  lemma NodeIs(i: nat, l: seq<Addr>, k: nat)
    requires Nodes(i, l) && k <= |l|
    ensures Node(i, l, k) == if k == 0 then BinAt(i) else l[k - 1]
    ensures Node(i, l, k) == BinAt(i) <==> k == 0
  {
    if k > 0 { NodesApart(i, l, 0, k); }
  }

  lemma BinNodes(s: Store, i: nat)
    requires Inv(s) && 1 <= i < NBINS
    ensures |s.h.lists| == LISTS && i < LISTS && Nodes(i, s.h.lists[i])
  {
    hide *;
    InvParts(s);
    ListCount();
    ListNodes(s.h.chunks, s.h.lists, i);
  }

  /** The walk through the regular bins. */
  method CountBins(a: Arena) returns (nblocks: nat, avail: nat)
    requires a.Valid()
    ensures nblocks == |Places(a.h.chunks, InBins)| && avail == Bytes(a.h.chunks, InBins)
  {
    hide *;
    ghost var s := Store(a.words, a.h, a.fastbins, false);
    ghost var chunks := a.h.chunks;
    a.ValidIs();
    SoundParts(s, a.top, a.maxFast, a.fastChunks, a.binmap);
    InvParts(s);
    ListCount();
    nblocks, avail := 0, 0;
    StartEmpty(chunks, 1);
    var i := 1;
    while i < NBINS
      invariant 1 <= i <= NBINS
      invariant nblocks == |InLists(chunks, 1, i)| && avail == Total(Part(chunks, InLists(chunks, 1, i)))
    {
      ViewWhole(s, i);
      BinNodes(s, i);
      ghost var l := s.h.lists[i];
      ViewEnds(a.words, chunks, i, l);
      ghost var k: nat := |l|;
      SeenNone(chunks, 1, i, l, |l|);
      NodeIs(i, l, k);
      var b := BinAt(i);
      var p: Addr := Bk(a.words, b);
      while p != b
        invariant k <= |l| && p == Node(i, l, k) && (p == b <==> k == 0)
        invariant nblocks == |Seen(chunks, 1, i, l, k, |l|)|
        invariant avail == Total(Part(chunks, Seen(chunks, 1, i, l, k, |l|)))
        decreases k
      {
        NodeIs(i, l, k);
        ViewAt(a.words, chunks, i, l, k - 1);
        ViewSize(s, i, k - 1);
        SeenMore(chunks, s.h.lists, 1, i, k, |l|, k - 1);
        nblocks := nblocks + 1;
        avail := avail + SizeOf(Head(a.words, p));
        p := Bk(a.words, p);
        k := k - 1;
        NodeIs(i, l, k);
      }
      SeenAll(chunks, s.h.lists, 1, i);
      i := i + 1;
    }
    ListsOfKind(chunks, s.h.lists);
    BytesAre(chunks, InBins);
  }

  /** The fields of struct mallinfo that concern the arena. */
  datatype Info = Info(arena: int, ordblks: nat, smblks: nat, fsmblks: nat, fordblks: nat, uordblks: int, keepcost: nat)

  /** What a report says of the chunks. */
  ghost predicate Reports(mi: Info, chunks: Chunks, sbrked: int, lost: int) {
    && mi.arena == sbrked
    && mi.ordblks == |Places(chunks, InBins)| + 1 && mi.smblks == |Places(chunks, InFastbins)|
    && mi.fsmblks == Bytes(chunks, InFastbins) && mi.keepcost == Bytes(chunks, AtTop)
    && mi.fordblks == Bytes(chunks, InBins) + Bytes(chunks, InFastbins) + Bytes(chunks, AtTop)
    && mi.uordblks == Bytes(chunks, InUse) + Bytes(chunks, Fenced) + lost
  }

  lemma ReportsIntro(mi: Info, chunks: Chunks, sbrked: int, lost: int)
    requires mi.arena == sbrked
    requires mi.ordblks == |Places(chunks, InBins)| + 1 && mi.smblks == |Places(chunks, InFastbins)|
    requires mi.fsmblks == Bytes(chunks, InFastbins) && mi.keepcost == Bytes(chunks, AtTop)
    requires mi.fordblks == Bytes(chunks, InBins) + Bytes(chunks, InFastbins) + Bytes(chunks, AtTop)
    requires mi.uordblks == Bytes(chunks, InUse) + Bytes(chunks, Fenced) + lost
    ensures Reports(mi, chunks, sbrked, lost)
  {
    hide Bytes, Places;
  }

  /** The number of bytes in use that is reported is the bytes of the chunks in use exactly
      when the bytes fenced off and skipped are as many as those given unasked; where nothing
      is given unasked, when nothing was fenced off and nothing was skipped. */
  lemma UsedIsExact(a: Arena, mi: Info)
    requires a.Valid() && a.Accounted() && Reports(mi, a.h.chunks, a.sbrkedMem, a.lost)
    ensures mi.uordblks == Bytes(a.h.chunks, InUse) <==> Bytes(a.h.chunks, Fenced) + a.lost == 0
    ensures a.lost >= 0 ==> (mi.uordblks == Bytes(a.h.chunks, InUse) <==> NoFence(a.h.chunks) && a.lost == 0)
    ensures a.steady ==> mi.uordblks == Bytes(a.h.chunks, InUse)
  {
    ReportedUse(mi, a.h.chunks, a.sbrkedMem, a.lost);
    hide *;
    a.ValidIs();
    SoundParts(Store(a.words, a.h, a.fastbins, false), a.top, a.maxFast, a.fastChunks, a.binmap);
    InvParts(Store(a.words, a.h, a.fastbins, false));
    FencesCost(a.h.chunks);
    Conserved(a);
  }

  lemma ReportedUse(mi: Info, chunks: Chunks, sbrked: int, lost: int)
    requires Reports(mi, chunks, sbrked, lost)
    ensures mi.uordblks == Bytes(chunks, InUse) + Bytes(chunks, Fenced) + lost
  {
  }

  /** mALLINFo. */
  method MALLInfo(a: Arena) returns (mi: Info)
    requires (a.Valid() || a.Blank()) && a.Accounted()
    modifies a
    ensures a.Valid() && a.Accounted() && Reports(mi, a.h.chunks, a.sbrkedMem, a.lost)
    ensures old(a.Valid()) ==> unchanged(a)
    ensures Calm(Store(old(a.words), old(a.h), old(a.fastbins), false), Store(a.words, a.h, a.fastbins, false))
  {
    ghost var s := Store(a.words, a.h, a.fastbins, false);
    assert a.Blank() ==> a.top == 0 && a.h.chunks == map[];
    if a.Valid() { TopNotZero(a); }
    hide *;
    CalmSame(s);
    if a.top == 0 {
      a.AccountedIs();
      a.Consolidate();
      CalmEmpty(s, Store(a.words, a.h, a.fastbins, false));
      a.AccountedIs();
    }
    ghost var t := Store(a.words, a.h, a.fastbins, false);
    a.ValidIs();
    SoundParts(t, a.top, a.maxFast, a.fastChunks, a.binmap);
    TopWord(t, a.top);
    TopHolds(t);
    var topSize: nat := SizeOf(Head(a.words, a.top));
    var nfastblocks, fastavail := CountFast(a);
    var nblocks, binavail := CountBins(a);
    var avail := topSize + fastavail + binavail;
    Conserved(a);
    mi := Info(a.sbrkedMem, nblocks + 1, nfastblocks, fastavail, avail, a.sbrkedMem - avail, topSize);
    ReportsIntro(mi, a.h.chunks, a.sbrkedMem, a.lost);
  }

  lemma TopNotZero(a: Arena)
    requires a.Valid()
    ensures a.top != 0
  {
    hide *;
    a.ValidIs();
    SoundParts(Store(a.words, a.h, a.fastbins, false), a.top, a.maxFast, a.fastChunks, a.binmap);
    TopFieldParts(a.top, a.h);
    if a.h.top.Some? { TopFacts(Store(a.words, a.h, a.fastbins, false)); }
    HeaderPositive(1);
    LowIsPositive();
  }

  lemma LowIsPositive()
    ensures LOW > 0
  {
  }

  lemma TopHolds(t: Store)
    requires Inv(t)
    ensures Bytes(t.h.chunks, AtTop) == if t.h.top.Some? && t.h.top.value in t.h.chunks then t.h.chunks[t.h.top.value].size else 0
    ensures t.h.top == None || t.h.top.Some?
  {
    hide *;
    InvParts(t);
    Parts(t.h);
    TopSomewhere(t.h);
    TopBytes(t.h.chunks, t.h.top);
  }

  lemma TopSomewhere(h: Heap)
    requires TopIs(h.chunks, h.top)
    ensures h.top.Some? ==> h.top.value in h.chunks
    ensures h.top == None || h.top.Some?
  {
  }
}
