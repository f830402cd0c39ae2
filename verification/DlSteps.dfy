/** The elementary steps of the allocator on the heap and its memory words: each keeps the
    whole invariant, touches no live payload, and conserves the bytes of the heap. */
module DlSteps {
  import opened DlSizes
  import opened DlHeap
  import opened DlTags
  import opened DlLinks

  /** Memory words, the heap they represent, and the heads of the fastbins. */
  datatype Store = Store(m: Words, h: Heap, fastbins: seq<Addr>, open: bool)

  ghost predicate Inv(s: Store) {
    && WellFormed(s.h)
    && Tags(s.m, s.h.chunks, s.h.starts)
    && AllLinked(s.m, s.h.lists, s.open)
    && AllChained(s.m, s.fastbins, s.h.lists)
  }

  // ----- live chunks -----

  /** A word of a live payload, up to and including the word borrowed from the next chunk. */
  ghost predicate Payload(chunks: Chunks, b: Addr, w: int) {
    b in chunks && chunks[b].state == Used && b + 8 <= w <= b + chunks[b].size
  }

  ghost predicate NoPayload(chunks: Chunks, w: int) {
    forall b :: !Payload(chunks, b, w)
  }

  ghost predicate Preserved(chunks: Chunks, m: Words, n: Words) {
    forall b, w {:trigger Payload(chunks, b, w)} | Payload(chunks, b, w) :: n[w] == m[w]
  }

  ghost predicate SameLive(chunks: Chunks, cs: Chunks) {
    && (forall b | b in chunks && chunks[b].state == Used :: b in cs && cs[b] == chunks[b])
    && (forall b | b in cs && cs[b].state == Used :: b in chunks && cs[b] == chunks[b])
  }

  // ----- bytes -----

  /** The bytes of all chunks. */
  ghost function Total(chunks: Chunks): nat
    decreases |chunks|
  {
    if chunks == map[] then 0
    else
      var a :| a in chunks;
      assert |chunks - {a}| < |chunks| by { Smaller(chunks, a); }
      chunks[a].size + Total(chunks - {a})
  }

  lemma Smaller(chunks: Chunks, a: Addr)
    requires a in chunks
    ensures |chunks - {a}| < |chunks|
  {
    assert (chunks - {a}).Keys == chunks.Keys - {a};
    assert |(chunks - {a}).Keys| == |chunks - {a}| && |chunks.Keys| == |chunks|;
  }

  lemma {:induction false} TotalWithout(chunks: Chunks, p: Addr)
    requires p in chunks
    ensures Total(chunks) == chunks[p].size + Total(chunks - {p})
    decreases |chunks|
  {
    var a :| a in chunks && Total(chunks) == chunks[a].size + Total(chunks - {a});
    if a != p {
      Smaller(chunks, a);
      Smaller(chunks, p);
      TotalWithout(chunks - {a}, p);
      TotalWithout(chunks - {p}, a);
      assert chunks - {a} - {p} == chunks - {p} - {a};
    }
  }

  ghost predicate InChunk(chunks: Chunks, w: int) {
    exists a :: a in chunks && a <= w < End(chunks, a)
  }

  /** The chunks cover the same addresses, with the same total and the same fences. */
  ghost predicate SameSpace(chunks: Chunks, cs: Chunks) {
    && Total(cs) == Total(chunks)
    && (forall w :: InChunk(cs, w) ==> InChunk(chunks, w))
    && (forall a | a in chunks && chunks[a].state == Fence :: a in cs && cs[a] == chunks[a])
    && (forall a | a in cs && cs[a].state == Fence :: a in chunks && cs[a] == chunks[a])
  }

  lemma SpaceSame(chunks: Chunks)
    ensures SameSpace(chunks, chunks)
  {
  }

  lemma SameSpaceThen(a: Chunks, b: Chunks, c: Chunks)
    requires SameSpace(a, b) && SameSpace(b, c)
    ensures SameSpace(a, c)
  {
    hide Total;
  }

  lemma TotalSet(chunks: Chunks, p: Addr, st: State)
    requires p in chunks && chunks[p].state != Fence && st != Fence
    ensures SameSpace(chunks, Set(chunks, p, st))
  {
    TotalWithout(chunks, p);
    TotalWithout(Set(chunks, p, st), p);
    assert Set(chunks, p, st) - {p} == chunks - {p};
    forall w | InChunk(Set(chunks, p, st), w) ensures InChunk(chunks, w) {
      var a :| a in Set(chunks, p, st) && a <= w < End(Set(chunks, p, st), a);
      assert a in chunks && a <= w < End(chunks, a);
    }
  }

  lemma SplitSpace(chunks: Chunks, p: Addr, nb: nat, st: State, rest: State, w: int)
    requires p in chunks && 0 < nb <= chunks[p].size && InChunk(Split(chunks, p, nb, st, rest), w)
    ensures InChunk(chunks, w)
  {
    var cs := Split(chunks, p, nb, st, rest);
    var a :| a in cs && a <= w < End(cs, a);
    if a == p || a == p + nb { assert p in chunks && p <= w < End(chunks, p); } else { assert a in chunks && a <= w < End(chunks, a); }
  }

  lemma TotalSplit(chunks: Chunks, p: Addr, nb: nat, st: State, rest: State)
    requires p in chunks && 0 < nb <= chunks[p].size && p + nb !in chunks
    requires chunks[p].state != Fence && st != Fence && rest != Fence
    ensures SameSpace(chunks, Split(chunks, p, nb, st, rest))
  {
    var cs := Split(chunks, p, nb, st, rest);
    TotalWithout(chunks, p);
    TotalWithout(cs, p + nb);
    TotalWithout(cs - {p + nb}, p);
    assert cs - {p + nb} - {p} == chunks - {p};
    forall w | InChunk(cs, w) ensures InChunk(chunks, w) {
      SplitSpace(chunks, p, nb, st, rest, w);
    }
  }

  lemma MergeSpace(chunks: Chunks, p: Addr, st: State, w: int)
    requires p in chunks && End(chunks, p) in chunks && End(chunks, p) != p && InChunk(Merge(chunks, p, st), w)
    ensures InChunk(chunks, w)
  {
    var cs, n := Merge(chunks, p, st), End(chunks, p);
    var a :| a in cs && a <= w < End(cs, a);
    if a != p {
      assert a in chunks && a <= w < End(chunks, a);
    } else if w < n {
      assert p in chunks && p <= w < End(chunks, p);
    } else {
      assert n in chunks && n <= w < End(chunks, n);
    }
  }

  lemma TotalMerge(chunks: Chunks, p: Addr, st: State)
    requires p in chunks && End(chunks, p) in chunks && End(chunks, p) != p
    requires chunks[p].state != Fence && chunks[End(chunks, p)].state != Fence && st != Fence
    ensures SameSpace(chunks, Merge(chunks, p, st))
  {
    var cs, n := Merge(chunks, p, st), End(chunks, p);
    TotalWithout(chunks, n);
    TotalWithout(chunks - {n}, p);
    TotalWithout(cs, p);
    assert cs - {p} == chunks - {n} - {p};
    forall w | InChunk(cs, w) ensures InChunk(chunks, w) {
      MergeSpace(chunks, p, st, w);
    }
  }

  /** A step that leaves live chunks, their contents and the total alone. */
  ghost predicate Quiet(s: Store, t: Store) {
    && SameLive(s.h.chunks, t.h.chunks)
    && Preserved(s.h.chunks, s.m, t.m)
    && SameSpace(s.h.chunks, t.h.chunks)
    && t.h.starts == s.h.starts
  }

  lemma QuietThen(s: Store, t: Store, u: Store)
    requires Quiet(s, t) && Quiet(t, u)
    ensures Quiet(s, u)
  {
    forall b, w | Payload(s.h.chunks, b, w) ensures u.m[w] == s.m[w] {
      assert Payload(t.h.chunks, b, w);
    }
  }

  lemma PreservedWrite(chunks: Chunks, m: Words, w: int, v: int)
    requires NoPayload(chunks, w)
    ensures Preserved(chunks, m, m[w := v])
  {
  }

  /** Words from behind the size word of a chunk that is not live to the size word of the
      next chunk belong to no payload. */
  lemma NotPayload(chunks: Chunks, p: Addr, w: int)
    requires Shapes(chunks) && Ordered(chunks) && p in chunks && chunks[p].state != Used
    requires p + 4 <= w <= End(chunks, p) + 4
    ensures NoPayload(chunks, w)
  {
    forall b | b in chunks && chunks[b].state == Used ensures !(b + 8 <= w <= b + chunks[b].size) {
      if b < p { assert End(chunks, b) <= p; } else { assert End(chunks, p) <= b; }
    }
  }

  lemma HeadNotPayload(chunks: Chunks, q: Addr)
    requires Shapes(chunks) && Ordered(chunks) && q in chunks
    ensures NoPayload(chunks, q + 4)
  {
    forall b | b in chunks && chunks[b].state == Used ensures !(b + 8 <= q + 4 <= b + chunks[b].size) {
      if b < q { assert End(chunks, b) <= q; }
    }
  }

  lemma LowNotPayload(chunks: Chunks, w: int)
    requires Shapes(chunks) && w < LOW
    ensures NoPayload(chunks, w)
  {
    forall b | b in chunks ensures !(b + 8 <= w) { assert Shaped(b, chunks[b]); }
  }

  // ----- single words -----

  ghost function Wrote(s: Store, w: int, v: int): Store {
    s.(m := s.m[w := v])
  }

  lemma HeadLinks(m: Words, chunks: Chunks, q: Addr, v: int)
    requires Shapes(chunks) && Ordered(chunks) && q in chunks
    ensures SameLinks(m, m[q + 4 := v], chunks)
  {
    assert Shaped(q, chunks[q]);
    forall x | x in chunks && chunks[x].state.Binned? ensures x + 12 != q + 4 {
      assert Shaped(x, chunks[x]);
      if x < q { assert End(chunks, x) <= q; }
    }
  }

  lemma LinksKept(s: Store, t: Store)
    requires Inv(s) && t == s.(m := t.m) && SameLinks(s.m, t.m, s.h.chunks)
    requires Tags(t.m, s.h.chunks, s.h.starts)
    ensures Inv(t)
  {
    hide Tags, AllLinked, AllChained, Listed, SameLinks, Tiles, Apart, TopIs;
    AllLinkedSame(s.m, t.m, s.h.chunks, s.h.lists, s.open);
    AllChainedSame(s.m, t.m, s.h.chunks, s.fastbins, s.h.lists);
  }

  /** set_head and its variants. */
  lemma HeadStep(s: Store, q: Addr, v: int)
    requires Inv(s) && q in s.h.chunks
    requires BitFits(s.h.chunks, s.h.starts, q, v) && SizeFits(s.m, q, s.h.chunks[q], v)
    ensures Inv(Wrote(s, q + 4, v)) && Quiet(s, Wrote(s, q + 4, v))
  {
    hide BitFits, SizeFits, Tags, AllLinked, AllChained, Listed, Apart, TopIs, SameSpace, SameLinks, Preserved;
    HeadTags(s.m, s.h.chunks, s.h.starts, q, v);
    HeadLinks(s.m, s.h.chunks, q, v);
    LinksKept(s, Wrote(s, q + 4, v));
    SpaceSame(s.h.chunks);
    HeadNotPayload(s.h.chunks, q);
    PreservedWrite(s.h.chunks, s.m, q + 4, v);
  }

  lemma InsideLinks(m: Words, chunks: Chunks, p: Addr, w: int, v: int)
    requires Shapes(chunks) && Ordered(chunks) && p in chunks && !chunks[p].state.Binned?
    requires p + 4 <= w <= End(chunks, p)
    ensures SameLinks(m, m[w := v], chunks)
  {
    assert Shaped(p, chunks[p]);
    forall x | x in chunks && chunks[x].state.Binned? ensures x + 8 != w && x + 12 != w {
      assert Shaped(x, chunks[x]);
      if x < p { assert End(chunks, x) <= p; } else { assert End(chunks, p) <= x; }
    }
  }

  /** A word inside a loose chunk or top, such as the size word of a remainder to come. */
  lemma InsideStep(s: Store, p: Addr, w: int, v: int)
    requires Inv(s) && Inside(s.h.chunks, p, w) && (s.h.chunks[p].state == Loose || s.h.chunks[p].state == Top)
    ensures Inv(Wrote(s, w, v)) && Quiet(s, Wrote(s, w, v))
  {
    hide Tags, AllLinked, AllChained, Listed, Apart, TopIs, SameSpace, SameLinks, Preserved;
    InsideTags(s.m, s.h.chunks, s.h.starts, p, w, v);
    InsideLinks(s.m, s.h.chunks, p, w, v);
    LinksKept(s, Wrote(s, w, v));
    SpaceSame(s.h.chunks);
    NotPayload(s.h.chunks, p, w);
    PreservedWrite(s.h.chunks, s.m, w, v);
  }

  /** set_foot: the word at the end of a loose chunk. */
  lemma FootStep(s: Store, p: Addr, v: int)
    requires Inv(s) && p in s.h.chunks && s.h.chunks[p].state == Loose
    ensures Inv(Wrote(s, End(s.h.chunks, p), v)) && Quiet(s, Wrote(s, End(s.h.chunks, p), v))
  {
    hide Tags, AllLinked, AllChained, Listed, Apart, TopIs, SameSpace, SameLinks, Preserved;
    FootTags(s.m, s.h.chunks, s.h.starts, p, v);
    InsideLinks(s.m, s.h.chunks, p, End(s.h.chunks, p), v);
    LinksKept(s, Wrote(s, End(s.h.chunks, p), v));
    SpaceSame(s.h.chunks);
    NotPayload(s.h.chunks, p, End(s.h.chunks, p));
    PreservedWrite(s.h.chunks, s.m, End(s.h.chunks, p), v);
  }

  // ----- the state of one chunk -----

  ghost function SetChunk(h: Heap, p: Addr, st: State): Heap
    requires p in h.chunks
  {
    h.(chunks := Set(h.chunks, p, st))
  }

  lemma TopKept(h: Heap, p: Addr, st: State)
    requires TopIs(h.chunks, h.top) && p in h.chunks && !h.chunks[p].state.Top? && !st.Top?
    ensures TopIs(Set(h.chunks, p, st), h.top)
  {
  }

  /** A live chunk comes into the hands of the allocator, or a loose one becomes live. */
  lemma LoosenStep(s: Store, p: Addr)
    requires Inv(s) && p in s.h.chunks && s.h.chunks[p].state == Used
    ensures Inv(s.(h := SetChunk(s.h, p, Loose)))
    ensures SameSpace(s.h.chunks, Set(s.h.chunks, p, Loose))
  {
    hide Tags, AllLinked, AllChained, Listed, Apart, TopIs, Tiles, SameSpace, SameBinned;
    SetTiles(s.h.chunks, s.h.starts, p, Loose);
    SameBinnedSet(s.h.chunks, p, Loose);
    ListedSame(s.h.chunks, Set(s.h.chunks, p, Loose), s.h.lists);
    ApartSet(s.h.chunks, p, Loose);
    TopKept(s.h, p, Loose);
    SetTags(s.m, s.h.chunks, s.h.starts, p, Loose);
    TotalSet(s.h.chunks, p, Loose);
  }

  lemma SameBinnedSet(chunks: Chunks, p: Addr, st: State)
    requires p in chunks && !chunks[p].state.Binned? && !st.Binned?
    ensures SameBinned(chunks, Set(chunks, p, st))
  {
  }

  lemma SettleStep(s: Store, p: Addr)
    requires Inv(s) && p in s.h.chunks && s.h.chunks[p].state == Loose
    requires Tagged(s.m, p, Chunk(s.h.chunks[p].size, Used))
    ensures Inv(s.(h := SetChunk(s.h, p, Used)))
    ensures SameSpace(s.h.chunks, Set(s.h.chunks, p, Used))
  {
    hide Tags, Tagged, AllLinked, AllChained, Listed, Apart, TopIs, Tiles, SameSpace, SameBinned;
    SetTiles(s.h.chunks, s.h.starts, p, Used);
    SameBinnedSet(s.h.chunks, p, Used);
    ListedSame(s.h.chunks, Set(s.h.chunks, p, Used), s.h.lists);
    ApartSet(s.h.chunks, p, Used);
    TopKept(s.h, p, Used);
    SetTags(s.m, s.h.chunks, s.h.starts, p, Used);
    TotalSet(s.h.chunks, p, Used);
  }

  // ----- joining and cutting -----

  ghost function MergeChunk(h: Heap, p: Addr): Heap
    requires p in h.chunks && End(h.chunks, p) in h.chunks
  {
    h.(chunks := Merge(h.chunks, p, Loose))
  }

  lemma SameBinnedMerge(chunks: Chunks, starts: set<Addr>, p: Addr, st: State)
    requires Tiles(chunks, starts) && p in chunks && chunks[p].state == Loose && End(chunks, p) in chunks
    requires !chunks[End(chunks, p)].state.Binned? && !st.Binned?
    ensures SameBinned(chunks, Merge(chunks, p, st)) && End(chunks, p) != p
  {
    assert Shaped(p, chunks[p]);
  }

  lemma TopMerge(h: Heap, p: Addr)
    requires TopIs(h.chunks, h.top) && p in h.chunks && h.chunks[p].state == Loose && End(h.chunks, p) in h.chunks
    requires h.chunks[End(h.chunks, p)].state == Loose && End(h.chunks, p) != p
    ensures TopIs(Merge(h.chunks, p, Loose), h.top)
  {
  }

  lemma SameLiveMerge(chunks: Chunks, p: Addr, st: State)
    requires p in chunks && chunks[p].state == Loose && End(chunks, p) in chunks
    requires chunks[End(chunks, p)].state != Used && st != Used && End(chunks, p) != p
    ensures SameLive(chunks, Merge(chunks, p, st))
  {
  }

  lemma SameMemory(chunks: Chunks, m: Words)
    ensures Preserved(chunks, m, m)
  {
  }

  /** Two loose neighbours become one. */
  lemma MergeStep(s: Store, p: Addr)
    requires Inv(s) && p in s.h.chunks && s.h.chunks[p].state == Loose
    requires End(s.h.chunks, p) in s.h.chunks && s.h.chunks[End(s.h.chunks, p)].state == Loose
    ensures Inv(s.(h := MergeChunk(s.h, p))) && Quiet(s, s.(h := MergeChunk(s.h, p)))
  {
    hide Tags, AllLinked, AllChained, Listed, Apart, TopIs, Tiles, SameSpace, SameBinned, SameLive, Preserved;
    SameBinnedMerge(s.h.chunks, s.h.starts, p, Loose);
    MergeTiles(s.h.chunks, s.h.starts, p, Loose);
    ListedSame(s.h.chunks, Merge(s.h.chunks, p, Loose), s.h.lists);
    ApartMerge(s.h.chunks, s.h.starts, p, Loose);
    TopMerge(s.h, p);
    MergeTags(s.m, s.h.chunks, s.h.starts, p, Loose);
    TotalMerge(s.h.chunks, p, Loose);
    SameLiveMerge(s.h.chunks, p, Loose);
    SameMemory(s.h.chunks, s.m);
  }

  ghost function MergeTop(h: Heap, p: Addr): Heap
    requires p in h.chunks && End(h.chunks, p) in h.chunks
  {
    h.(chunks := Merge(h.chunks, p, Top), top := Some(p))
  }

  lemma TopIsMerged(h: Heap, p: Addr)
    requires TopIs(h.chunks, h.top) && p in h.chunks && h.chunks[p].state == Loose && End(h.chunks, p) != p
    requires h.top == Some(End(h.chunks, p)) && End(h.chunks, p) in h.chunks
    ensures TopIs(Merge(h.chunks, p, Top), Some(p))
  {
  }

  /** A loose chunk below top becomes part of it. */
  lemma MergeTopStep(s: Store, p: Addr)
    requires Inv(s) && p in s.h.chunks && s.h.chunks[p].state == Loose && Lonely(s.h.chunks, p)
    requires s.h.top == Some(End(s.h.chunks, p)) && End(s.h.chunks, p) in s.h.chunks
    requires HeadIs(Head(s.m, p), s.h.chunks[p].size + s.h.chunks[End(s.h.chunks, p)].size)
    ensures Inv(s.(h := MergeTop(s.h, p))) && Quiet(s, s.(h := MergeTop(s.h, p)))
  {
    assert s.h.chunks[End(s.h.chunks, p)].state == Top;
    hide Tags, AllLinked, AllChained, Listed, Apart, TopIs, Tiles, SameSpace, SameBinned, SameLive, Preserved, Lonely;
    SameBinnedMerge(s.h.chunks, s.h.starts, p, Top);
    MergeTiles(s.h.chunks, s.h.starts, p, Top);
    ListedSame(s.h.chunks, Merge(s.h.chunks, p, Top), s.h.lists);
    ApartMerge(s.h.chunks, s.h.starts, p, Top);
    TopIsMerged(s.h, p);
    MergeTags(s.m, s.h.chunks, s.h.starts, p, Top);
    TotalMerge(s.h.chunks, p, Top);
    SameLiveMerge(s.h.chunks, p, Top);
    SameMemory(s.h.chunks, s.m);
  }

  ghost function SplitChunk(h: Heap, p: Addr, nb: nat): Heap
    requires CanSplit(h.chunks, p, nb)
  {
    if h.chunks[p].state == Top then h.(chunks := Split(h.chunks, p, nb, Loose, Top), top := Some(p + nb))
    else h.(chunks := Split(h.chunks, p, nb, Loose, Loose))
  }

  lemma SameBinnedSplit(chunks: Chunks, p: Addr, nb: nat, st: State, rest: State)
    requires CanSplit(chunks, p, nb) && !chunks[p].state.Binned? && p + nb !in chunks && !st.Binned? && !rest.Binned?
    ensures SameBinned(chunks, Split(chunks, p, nb, st, rest))
  {
  }

  lemma SameLiveSplit(chunks: Chunks, p: Addr, nb: nat, st: State, rest: State)
    requires CanSplit(chunks, p, nb) && chunks[p].state != Used && p + nb !in chunks && st != Used && rest != Used
    ensures SameLive(chunks, Split(chunks, p, nb, st, rest))
  {
  }

  lemma TopSplit(h: Heap, p: Addr, nb: nat)
    requires TopIs(h.chunks, h.top) && CanSplit(h.chunks, p, nb) && p + nb !in h.chunks
    requires h.chunks[p].state == Loose || h.chunks[p].state == Top
    ensures TopIs(SplitChunk(h, p, nb).chunks, SplitChunk(h, p, nb).top)
  {
  }

  lemma ApartLoose(chunks: Chunks, starts: set<Addr>, p: Addr, nb: nat, rest: State)
    requires Tiles(chunks, starts) && Apart(chunks) && CanSplit(chunks, p, nb) && !IsFree(rest)
    requires chunks[p].state.Top? || !rest.Top?
    ensures Apart(Split(chunks, p, nb, Loose, rest))
  {
    SplitOrdered(chunks, p, nb, Loose, rest);
    var cs := Split(chunks, p, nb, Loose, rest);
    assert Shaped(p, chunks[p]);
    forall a | a in cs && IsFree(cs[a].state) ensures Solid(cs, End(cs, a)) {
      assert Solid(chunks, End(chunks, a));
    }
  }

  /** A loose chunk is cut in two loose ones, or top into a loose chunk and a new top. */
  lemma SplitStep(s: Store, p: Addr, nb: nat)
    requires Inv(s) && CanSplit(s.h.chunks, p, nb)
    requires s.h.chunks[p].state == Loose || s.h.chunks[p].state == Top
    requires s.h.chunks[p].state == Top ==> HeadIs(Head(s.m, p + nb), s.h.chunks[p].size - nb)
    ensures Inv(s.(h := SplitChunk(s.h, p, nb))) && Quiet(s, s.(h := SplitChunk(s.h, p, nb)))
    ensures p + nb !in s.h.chunks
  {
    var rest := if s.h.chunks[p].state == Top then Top else Loose;
    hide Tags, AllLinked, AllChained, Listed, Apart, TopIs, Tiles, SameSpace, SameBinned, SameLive, Preserved, CanSplit;
    SplitTiles(s.h.chunks, s.h.starts, p, nb, Loose, rest);
    SameBinnedSplit(s.h.chunks, p, nb, Loose, rest);
    ListedSame(s.h.chunks, Split(s.h.chunks, p, nb, Loose, rest), s.h.lists);
    ApartLoose(s.h.chunks, s.h.starts, p, nb, rest);
    TopSplit(s.h, p, nb);
    SplitTags(s.m, s.h.chunks, s.h.starts, p, nb, Loose, rest);
    TotalCut(s.h.chunks, p, nb, rest);
    SameLiveSplit(s.h.chunks, p, nb, Loose, rest);
    SameMemory(s.h.chunks, s.m);
  }

  lemma TotalCut(chunks: Chunks, p: Addr, nb: nat, rest: State)
    requires CanSplit(chunks, p, nb) && p + nb !in chunks && chunks[p].state != Fence && rest != Fence
    ensures SameSpace(chunks, Split(chunks, p, nb, Loose, rest))
  {
    TotalSplit(chunks, p, nb, Loose, rest);
  }

  // ----- lists -----

  lemma LinkWriteSame(m: Words, chunks: Chunks, starts: set<Addr>, i: nat, y: Addr, w: int, v: int)
    requires Tiles(chunks, starts) && i < NBINS && Ours(chunks, i, y) && (w == y + 8 || w == y + 12)
    ensures SameTags(m, m[w := v], chunks) && NoPayload(chunks, w)
  {
    if y == BinAt(i) {
      forall a | a in chunks ensures w < a { assert Shaped(a, chunks[a]); }
      LowNotPayload(chunks, w);
    } else {
      assert Shaped(y, chunks[y]);
      InsideApart(chunks, y, w);
      NotPayload(chunks, y, w);
    }
  }

  /** A link word of the i-th list, or of a chunk that is in none. */
  lemma LinkWrite(m: Words, chunks: Chunks, starts: set<Addr>, i: nat, y: Addr, w: int, v: int)
    requires Tiles(chunks, starts) && Tags(m, chunks, starts) && i < NBINS
    requires Ours(chunks, i, y) && (w == y + 8 || w == y + 12)
    ensures Tags(m[w := v], chunks, starts) && SameTags(m, m[w := v], chunks)
    ensures SameLinksBut(m, m[w := v], chunks, i) && Preserved(chunks, m, m[w := v])
  {
    hide Tags, SameTags, SameLinksBut, Preserved, Ours, Preceded, Followed;
    LinkWriteTags(m, chunks, starts, i, y, w, v);
    LinkWriteBut(m, chunks, i, y, w, v);
    LinkWriteSame(m, chunks, starts, i, y, w, v);
    PreservedWrite(chunks, m, w, v);
  }

  /** What several link writes leave as it was. */
  ghost predicate Relinked(m: Words, n: Words, chunks: Chunks, starts: set<Addr>, i: nat) {
    && (Tags(m, chunks, starts) ==> Tags(n, chunks, starts))
    && SameTags(m, n, chunks) && SameLinksBut(m, n, chunks, i) && Preserved(chunks, m, n)
  }

  lemma RelinkedWrite(m: Words, chunks: Chunks, starts: set<Addr>, i: nat, y: Addr, w: int, v: int)
    requires Tiles(chunks, starts) && Tags(m, chunks, starts) && i < NBINS
    requires Ours(chunks, i, y) && (w == y + 8 || w == y + 12)
    ensures Relinked(m, m[w := v], chunks, starts, i) && Tags(m[w := v], chunks, starts)
  {
    hide Tags, SameTags, SameLinksBut, Preserved, Ours, Tiles;
    LinkWrite(m, chunks, starts, i, y, w, v);
  }

  lemma RelinkedThen(m: Words, n: Words, o: Words, chunks: Chunks, starts: set<Addr>, i: nat)
    requires Relinked(m, n, chunks, starts, i) && Relinked(n, o, chunks, starts, i)
    ensures Relinked(m, o, chunks, starts, i)
  {
    hide Tags;
    assert SameTags(m, o, chunks);
    assert SameLinksBut(m, o, chunks, i);
    assert Preserved(chunks, m, o);
  }

  lemma TwoWrites(m: Words, chunks: Chunks, starts: set<Addr>, i: nat,
                  y: Addr, w: int, v: int, y': Addr, w': int, v': int)
    requires Tiles(chunks, starts) && Tags(m, chunks, starts) && i < NBINS
    requires Ours(chunks, i, y) && (w == y + 8 || w == y + 12)
    requires Ours(chunks, i, y') && (w' == y' + 8 || w' == y' + 12)
    ensures Relinked(m, m[w := v][w' := v'], chunks, starts, i) && Tags(m[w := v][w' := v'], chunks, starts)
  {
    hide *;
    RelinkedWrite(m, chunks, starts, i, y, w, v);
    RelinkedWrite(m[w := v], chunks, starts, i, y', w', v');
    RelinkedThen(m, m[w := v], m[w := v][w' := v'], chunks, starts, i);
  }

  lemma NodeOurs(chunks: Chunks, lists: seq<seq<Addr>>, i: nat, k: nat)
    requires Listed(chunks, lists) && i < NBINS && k <= |lists[i]| + 1
    ensures Ours(chunks, i, Node(i, lists[i], k))
  {
    assert ListOk(chunks, i, lists[i]);
  }

  ghost function UnlinkHeap(h: Heap, i: nat, k: nat): Heap
    requires i < |h.lists| && k < |h.lists[i]| && h.lists[i][k] in h.chunks
  {
    h.(chunks := Set(h.chunks, h.lists[i][k], Loose), lists := h.lists[i := RemoveAt(h.lists[i], k)])
  }

  lemma UnlinkWords(m: Words, h: Heap, i: nat, k: nat)
    requires WellFormed(h) && Tags(m, h.chunks, h.starts) && 1 <= i < NBINS && k < |h.lists[i]|
    requires Linked(m, i, h.lists[i])
    ensures Linked(Unlinked(m, h.lists[i][k]), i, RemoveAt(h.lists[i], k))
    ensures Relinked(m, Unlinked(m, h.lists[i][k]), h.chunks, h.starts, i)
    ensures Tags(Unlinked(m, h.lists[i][k]), h.chunks, h.starts)
  {
    hide *;
    Parts(h);
    var s := h.lists[i];
    var fd, bk := Node(i, s, k + 2), Node(i, s, k);
    ListNodes(h.chunks, h.lists, i);
    UnlinkedIs(m, i, s, k);
    UnlinkLinked(m, i, s, k);
    NodeOurs(h.chunks, h.lists, i, k);
    NodeOurs(h.chunks, h.lists, i, k + 2);
    TwoWrites(m, h.chunks, h.starts, i, fd, fd + 12, bk, bk, bk + 8, fd);
  }

  lemma UnlinkedIs(m: Words, i: nat, s: seq<Addr>, k: nat)
    requires Linked(m, i, s) && k < |s|
    ensures Unlinked(m, s[k]) == m[Node(i, s, k + 2) + 12 := Node(i, s, k)][Node(i, s, k) + 8 := Node(i, s, k + 2)]
  {
    Neighbours(m, i, s, k);
  }

  lemma Parts(h: Heap)
    requires WellFormed(h)
    ensures Tiles(h.chunks, h.starts) && Shapes(h.chunks) && Ordered(h.chunks) && Listed(h.chunks, h.lists)
    ensures Apart(h.chunks) && TopIs(h.chunks, h.top) && |h.lists| == LISTS && NBINS < LISTS
  {
  }

  lemma UnlinkWellFormed(h: Heap, i: nat, k: nat)
    requires WellFormed(h) && 1 <= i < LISTS && k < |h.lists[i]|
    ensures h.lists[i][k] in h.chunks && h.chunks[h.lists[i][k]].state == Binned(i)
    ensures WellFormed(UnlinkHeap(h, i, k))
    ensures SameLive(h.chunks, UnlinkHeap(h, i, k).chunks) && SameSpace(h.chunks, UnlinkHeap(h, i, k).chunks)
  {
    var p := h.lists[i][k];
    hide SameSpace, Listed, Tiles, SameLive, Apart, TopIs;
    ListedRemove(h.chunks, h.lists, i, k, Loose);
    TotalSet(h.chunks, p, Loose);
    LiveSet(h.chunks, p, Loose);
    SetTiles(h.chunks, h.starts, p, Loose);
    ApartSet(h.chunks, p, Loose);
    TopKept(h, p, Loose);
  }

  /** unlink of any chunk of a regular bin. */
  lemma UnlinkStep(s: Store, i: nat, k: nat)
    requires Inv(s) && 1 <= i < NBINS && (s.open ==> i >= 2) && k < |s.h.lists[i]|
    ensures s.h.lists[i][k] in s.h.chunks && s.h.chunks[s.h.lists[i][k]].state == Binned(i)
    ensures var t := s.(m := Unlinked(s.m, s.h.lists[i][k]), h := UnlinkHeap(s.h, i, k));
            Inv(t) && Quiet(s, t) && SameTags(s.m, t.m, s.h.chunks)
  {
    var p := s.h.lists[i][k];
    assert Linked(s.m, i, s.h.lists[i]);
    UnlinkWords(s.m, s.h, i, k);
    UnlinkWellFormed(s.h, i, k);
    var n := Unlinked(s.m, p);
    assert SameLinksBut(s.m, n, s.h.chunks, i) && SameTags(s.m, n, s.h.chunks) && Preserved(s.h.chunks, s.m, n);
    assert Listed(s.h.chunks, s.h.lists);
    hide Tags, AllLinked, AllChained, Linked, WellFormed, Listed, SameSpace, SameLive, Preserved, SameLinksBut, Unlinked, Tagged, SameTags;
    OthersLinked(s.m, n, s.h.chunks, s.h.lists, s.open, i, RemoveAt(s.h.lists[i], k));
    OthersChained(s.m, n, s.h.chunks, s.fastbins, s.h.lists, i, RemoveAt(s.h.lists[i], k));
    LooseTags(n, s.h.chunks, s.h.starts, p);
  }

  lemma LooseTags(m: Words, chunks: Chunks, starts: set<Addr>, p: Addr)
    requires Tags(m, chunks, starts) && p in chunks
    ensures Tags(m, Set(chunks, p, Loose), starts)
  {
    SetTags(m, chunks, starts, p, Loose);
  }

  ghost function LinkHeap(h: Heap, i: nat, k: nat, p: Addr): Heap
    requires i < |h.lists| && k <= |h.lists[i]| && p in h.chunks
  {
    h.(chunks := Set(h.chunks, p, Binned(i)), lists := h.lists[i := InsertAt(h.lists[i], k, p)])
  }

  /** A loose chunk that may become free: its neighbours are not, and it suits the bin. */
  ghost predicate MayLink(h: Heap, i: nat, k: nat, p: Addr) {
    && i < |h.lists| && CanInsert(h.chunks, i, h.lists[i], k, p) && h.chunks[p].state == Loose
    && (i < NBINS ==> Lonely(h.chunks, p) && Solid(h.chunks, End(h.chunks, p)))
  }

  lemma LinkWellFormed(h: Heap, i: nat, k: nat, p: Addr)
    requires WellFormed(h) && i < LISTS && MayLink(h, i, k, p)
    ensures WellFormed(LinkHeap(h, i, k, p))
    ensures SameLive(h.chunks, LinkHeap(h, i, k, p).chunks) && SameSpace(h.chunks, LinkHeap(h, i, k, p).chunks)
  {
    assert Shaped(p, h.chunks[p]);
    var cs := Set(h.chunks, p, Binned(i));
    LiveSet(h.chunks, p, Binned(i));
    hide SameSpace, Listed, Tiles, SameLive, Apart, TopIs, CanInsert, Lonely, Solid;
    ListedInsert(h.chunks, h.lists, i, k, p);
    TotalSet(h.chunks, p, Binned(i));
    SetTiles(h.chunks, h.starts, p, Binned(i));
    ApartSet(h.chunks, p, Binned(i));
    TopKept(h, p, Binned(i));
  }

  lemma LiveSet(chunks: Chunks, p: Addr, st: State)
    requires p in chunks && chunks[p].state != Used && st != Used
    ensures SameLive(chunks, Set(chunks, p, st))
  {
  }

  lemma NotListed(chunks: Chunks, lists: seq<seq<Addr>>, i: nat, p: Addr)
    requires Listed(chunks, lists) && i < LISTS && p in chunks && !chunks[p].state.Binned?
    ensures p !in lists[i]
  {
    assert ListOk(chunks, i, lists[i]);
  }

  lemma LinkWords(m: Words, h: Heap, i: nat, k: nat, p: Addr)
    requires WellFormed(h) && Tags(m, h.chunks, h.starts) && 1 <= i < NBINS && k <= |h.lists[i]|
    requires Linked(m, i, h.lists[i]) && p in h.chunks && h.chunks[p].state == Loose
    ensures var n := LinkedIn(m, p, Node(i, h.lists[i], k), Node(i, h.lists[i], k + 1));
            Linked(n, i, InsertAt(h.lists[i], k, p)) && Relinked(m, n, h.chunks, h.starts, i) && Tags(n, h.chunks, h.starts)
  {
    hide *;
    Parts(h);
    var s := h.lists[i];
    ChunkOurs(h.chunks, i, p);
    ListNodes(h.chunks, h.lists, i);
    NotListed(h.chunks, h.lists, i, p);
    LinkLinked(m, i, s, k, p);
    NodeOurs(h.chunks, h.lists, i, k);
    NodeOurs(h.chunks, h.lists, i, k + 1);
    FourWrites(m, h.chunks, h.starts, i, p, Node(i, s, k), Node(i, s, k + 1));
  }

  lemma ChunkOurs(chunks: Chunks, i: nat, p: Addr)
    requires Shapes(chunks) && p in chunks && chunks[p].state == Loose
    ensures Ours(chunks, i, p) && p % 8 == 0 && LOW <= p && !chunks[p].state.Binned?
  {
    assert Shaped(p, chunks[p]);
  }

  lemma FourWrites(m: Words, chunks: Chunks, starts: set<Addr>, i: nat, p: Addr, bck: Addr, fwd: Addr)
    requires Tiles(chunks, starts) && Tags(m, chunks, starts) && i < NBINS
    requires Ours(chunks, i, p) && Ours(chunks, i, bck) && Ours(chunks, i, fwd)
    ensures Relinked(m, LinkedIn(m, p, bck, fwd), chunks, starts, i) && Tags(LinkedIn(m, p, bck, fwd), chunks, starts)
  {
    hide *;
    LinkedInIs(m, p, bck, fwd);
    TwoWrites(m, chunks, starts, i, p, p + 12, bck, p, p + 8, fwd);
    var n: Words := m[p + 12 := bck][p + 8 := fwd];
    TwoWrites(n, chunks, starts, i, fwd, fwd + 12, p, bck, bck + 8, p);
    RelinkedThen(m, n, n[fwd + 12 := p][bck + 8 := p], chunks, starts, i);
  }

  lemma LinkedInIs(m: Words, p: Addr, bck: Addr, fwd: Addr)
    ensures LinkedIn(m, p, bck, fwd) == m[p + 12 := bck][p + 8 := fwd][fwd + 12 := p][bck + 8 := p]
  {
  }

  lemma LinkTags(m: Words, n: Words, chunks: Chunks, starts: set<Addr>, p: Addr, i: nat)
    requires Tiles(chunks, starts) && Tags(n, chunks, starts) && SameTags(m, n, chunks)
    requires p in chunks && chunks[p].state == Loose && Tagged(m, p, Chunk(chunks[p].size, Binned(i)))
    ensures Tags(n, Set(chunks, p, Binned(i)), starts)
  {
    assert End(chunks, p) in chunks;
    TaggedSame(m, n, p, Chunk(chunks[p].size, Binned(i)));
    SetTags(n, chunks, starts, p, Binned(i));
  }

  /** A loose chunk is linked into a regular bin at the given place. */
  lemma LinkStep(s: Store, i: nat, k: nat, p: Addr)
    requires Inv(s) && 1 <= i < NBINS && (s.open ==> i >= 2) && MayLink(s.h, i, k, p)
    requires Tagged(s.m, p, Chunk(s.h.chunks[p].size, Binned(i)))
    ensures var t := s.(m := LinkedIn(s.m, p, Node(i, s.h.lists[i], k), Node(i, s.h.lists[i], k + 1)),
                        h := LinkHeap(s.h, i, k, p));
            Inv(t) && Quiet(s, t)
  {
    assert Linked(s.m, i, s.h.lists[i]);
    LinkWords(s.m, s.h, i, k, p);
    LinkWellFormed(s.h, i, k, p);
    var n := LinkedIn(s.m, p, Node(i, s.h.lists[i], k), Node(i, s.h.lists[i], k + 1));
    assert SameLinksBut(s.m, n, s.h.chunks, i) && SameTags(s.m, n, s.h.chunks) && Preserved(s.h.chunks, s.m, n);
    assert Listed(s.h.chunks, s.h.lists) && Tiles(s.h.chunks, s.h.starts);
    hide Tags, AllLinked, AllChained, Linked, WellFormed, Listed, Tiles, SameSpace, SameLive, Preserved, SameLinksBut;
    hide LinkedIn, Tagged, SameTags;
    OthersLinked(s.m, n, s.h.chunks, s.h.lists, s.open, i, InsertAt(s.h.lists[i], k, p));
    OthersChained(s.m, n, s.h.chunks, s.fastbins, s.h.lists, i, InsertAt(s.h.lists[i], k, p));
    LinkTags(s.m, n, s.h.chunks, s.h.starts, p, i);
  }

  lemma AloneWords(m: Words, h: Heap, p: Addr)
    requires WellFormed(h) && Tags(m, h.chunks, h.starts) && p in h.chunks && h.chunks[p].state == Loose
    ensures var n := LinkedAlone(m, 1, p);
            Linked(n, 1, [p]) && Relinked(m, n, h.chunks, h.starts, 1) && Tags(n, h.chunks, h.starts)
  {
    hide *;
    Parts(h);
    ChunkOurs(h.chunks, 1, p);
    HeaderOurs(h.chunks);
    AloneLinked(m, 1, p);
    AloneWrites(m, h.chunks, h.starts, p);
  }

  lemma AloneWrites(m: Words, chunks: Chunks, starts: set<Addr>, p: Addr)
    requires Tiles(chunks, starts) && Tags(m, chunks, starts) && Ours(chunks, 1, p)
    ensures Relinked(m, LinkedAlone(m, 1, p), chunks, starts, 1) && Tags(LinkedAlone(m, 1, p), chunks, starts)
  {
    hide *;
    var b := BinAt(1);
    LinkedAloneIs(m, p, b);
    HeaderOurs(chunks);
    TwoWrites(m, chunks, starts, 1, b, b + 12, p, b, b + 8, p);
    var n: Words := m[b + 12 := p][b + 8 := p];
    TwoWrites(n, chunks, starts, 1, p, p + 12, b, p, p + 8, b);
    RelinkedThen(m, n, n[p + 12 := b][p + 8 := b], chunks, starts, 1);
  }

  lemma HeaderOurs(chunks: Chunks)
    ensures Ours(chunks, 1, BinAt(1)) && 1 < NBINS
  {
  }

  lemma LinkedAloneIs(m: Words, p: Addr, b: Addr)
    requires b == BinAt(1)
    ensures LinkedAlone(m, 1, p) == m[b + 12 := p][b + 8 := p][p + 12 := b][p + 8 := b]
  {
  }

  /** Overwriting both links of the unsorted header loses no chunk, because the list is
      empty when it is done. */
  lemma AloneStep(s: Store, p: Addr)
    requires Inv(s) && s.h.lists[1] == [] && MayLink(s.h, 1, 0, p)
    requires Tagged(s.m, p, Chunk(s.h.chunks[p].size, Binned(1)))
    ensures var t := s.(m := LinkedAlone(s.m, 1, p), h := LinkHeap(s.h, 1, 0, p), open := false);
            Inv(t) && Quiet(s, t) && t.h.lists[1] == [p]
  {
    hide *;
    InvParts(s);
    FrontAlone(s.h, p);
    AloneWords(s.m, s.h, p);
    LinkWellFormed(s.h, 1, 0, p);
    var n := LinkedAlone(s.m, 1, p);
    RelinkedParts(s.m, n, s.h.chunks, s.h.starts, 1);
    OthersLinked(s.m, n, s.h.chunks, s.h.lists, s.open, 1, [p]);
    OthersChained(s.m, n, s.h.chunks, s.fastbins, s.h.lists, 1, [p]);
    LinkTags(s.m, n, s.h.chunks, s.h.starts, p, 1);
    var t := s.(m := n, h := LinkHeap(s.h, 1, 0, p), open := false);
    LinkHeapParts(s.h, 1, 0, p);
    InvIntro(t);
    QuietIntro(s, t);
  }

  lemma InvParts(s: Store)
    requires Inv(s)
    ensures WellFormed(s.h) && Tags(s.m, s.h.chunks, s.h.starts) && AllLinked(s.m, s.h.lists, s.open)
    ensures AllChained(s.m, s.fastbins, s.h.lists)
    ensures Tiles(s.h.chunks, s.h.starts) && Shapes(s.h.chunks) && Ordered(s.h.chunks) && Listed(s.h.chunks, s.h.lists)
    ensures |s.h.lists| == LISTS && NBINS < LISTS
  {
  }

  lemma InvIntro(s: Store)
    requires WellFormed(s.h) && |s.h.lists| == LISTS && Tags(s.m, s.h.chunks, s.h.starts)
    requires AllLinked(s.m, s.h.lists, s.open) && AllChained(s.m, s.fastbins, s.h.lists)
    ensures Inv(s)
  {
  }

  lemma QuietIntro(s: Store, t: Store)
    requires SameLive(s.h.chunks, t.h.chunks) && Preserved(s.h.chunks, s.m, t.m)
    requires SameSpace(s.h.chunks, t.h.chunks) && t.h.starts == s.h.starts
    ensures Quiet(s, t)
  {
  }

  lemma RelinkedParts(m: Words, n: Words, chunks: Chunks, starts: set<Addr>, i: nat)
    requires Relinked(m, n, chunks, starts, i)
    ensures SameTags(m, n, chunks) && SameLinksBut(m, n, chunks, i) && Preserved(chunks, m, n)
  {
  }

  lemma LinkHeapParts(h: Heap, i: nat, k: nat, p: Addr)
    requires i < |h.lists| && k <= |h.lists[i]| && p in h.chunks
    ensures var g := LinkHeap(h, i, k, p);
            g.chunks == Set(h.chunks, p, Binned(i)) && g.lists == h.lists[i := InsertAt(h.lists[i], k, p)]
            && g.starts == h.starts && g.top == h.top
  {
  }

  lemma FrontAlone(h: Heap, p: Addr)
    requires |h.lists| == LISTS && h.lists[1] == [] && MayLink(h, 1, 0, p)
    ensures p in h.chunks && h.chunks[p].state == Loose && 1 < NBINS < LISTS && InsertAt(h.lists[1], 0, p) == [p]
  {
  }

  /** The only unsorted chunk is taken although the header still points to it. */
  lemma OpenStep(s: Store, p: Addr)
    requires Inv(s) && s.h.lists[1] == [p]
    ensures p in s.h.chunks && s.h.chunks[p].state == Binned(1)
    ensures var t := s.(h := UnlinkHeap(s.h, 1, 0), open := true);
            Inv(t) && Quiet(s, t) && t.h.lists[1] == []
  {
    hide *;
    InvParts(s);
    Sole(s, p);
    UnlinkWellFormed(s.h, 1, 0);
    SameMemory(s.h.chunks, s.m);
    LooseTags(s.m, s.h.chunks, s.h.starts, p);
    OpenLists(s.m, s.h.lists, s.open);
    OpenChains(s.m, s.fastbins, s.h.lists);
    UnlinkHeapParts(s.h, 1, 0);
    var t := s.(h := UnlinkHeap(s.h, 1, 0), open := true);
    RemoveOnly(p);
    InvIntro(t);
    QuietIntro(s, t);
  }

  lemma RemoveOnly(p: Addr)
    ensures RemoveAt([p], 0) == []
  {
  }

  lemma Sole(s: Store, p: Addr)
    requires Inv(s) && s.h.lists[1] == [p]
    ensures p in s.h.chunks && s.h.chunks[p].state == Binned(1) && 1 < LISTS
  {
    assert ListOk(s.h.chunks, 1, s.h.lists[1]);
    assert s.h.lists[1][0] == p;
  }

  lemma OpenLists(m: Words, lists: seq<seq<Addr>>, open: bool)
    requires |lists| == LISTS && AllLinked(m, lists, open)
    ensures AllLinked(m, lists[1 := []], true)
  {
    hide Linked;
  }

  lemma OpenChains(m: Words, fastbins: seq<Addr>, lists: seq<seq<Addr>>)
    requires |lists| == LISTS && AllChained(m, fastbins, lists)
    ensures AllChained(m, fastbins, lists[1 := []])
  {
    hide Chained;
  }

  lemma UnlinkHeapParts(h: Heap, i: nat, k: nat)
    requires i < |h.lists| && k < |h.lists[i]| && h.lists[i][k] in h.chunks
    ensures var g := UnlinkHeap(h, i, k);
            g.chunks == Set(h.chunks, h.lists[i][k], Loose) && g.lists == h.lists[i := RemoveAt(h.lists[i], k)]
            && g.starts == h.starts && g.top == h.top
  {
  }

  // ----- fastbins -----

  ghost function PopHeap(h: Heap, f: nat): Heap
    requires |h.lists| == LISTS && f < NFASTBINS && h.lists[NBINS + f] != [] && h.lists[NBINS + f][0] in h.chunks
  {
    UnlinkHeap(h, NBINS + f, 0)
  }

  lemma PopChains(m: Words, fastbins: seq<Addr>, lists: seq<seq<Addr>>, f: nat)
    requires |lists| == LISTS && AllChained(m, fastbins, lists) && f < NFASTBINS && lists[NBINS + f] != []
    ensures fastbins[f] == lists[NBINS + f][0]
    ensures Fd(m, fastbins[f]) == Next(lists[NBINS + f], 1) && Fd(m, fastbins[f]) >= 0
    ensures AllChained(m, fastbins[f := Fd(m, fastbins[f])], lists[NBINS + f := RemoveAt(lists[NBINS + f], 0)])
  {
    assert Chained(m, fastbins[f], lists[NBINS + f]);
    var s, r := lists[NBINS + f], RemoveAt(lists[NBINS + f], 0);
    assert Chained(m, Next(s, 1), r) by {
      forall k | 0 <= k < |r| ensures Fd(m, r[k]) == Next(r, k + 1) {
        assert Fd(m, s[k + 1]) == Next(s, k + 2);
      }
    }
  }

  lemma OtherLinked(m: Words, lists: seq<seq<Addr>>, open: bool, i: nat, s: seq<Addr>)
    requires |lists| == LISTS && AllLinked(m, lists, open) && NBINS <= i < LISTS
    ensures AllLinked(m, lists[i := s], open)
  {
    hide Linked;
  }

  lemma FastHead(s: Store, f: nat)
    requires Inv(s) && f < NFASTBINS && s.h.lists[NBINS + f] != []
    ensures var v := s.h.lists[NBINS + f][0];
            v in s.h.chunks && s.h.chunks[v].state == Binned(NBINS + f) && Suits(NBINS + f, s.h.chunks[v].size)
            && Tagged(s.m, v, Chunk(s.h.chunks[v].size, Used))
  {
    assert ListOk(s.h.chunks, NBINS + f, s.h.lists[NBINS + f]);
    var v := s.h.lists[NBINS + f][0];
    assert Tagged(s.m, v, s.h.chunks[v]);
  }

  /** What PopStep finds in front of the fastbin. */
  ghost predicate InFront(s: Store, f: nat, v: Addr) {
    && |s.h.lists| == LISTS && f < NFASTBINS && |s.fastbins| == NFASTBINS && s.h.lists[NBINS + f] != []
    && v == s.h.lists[NBINS + f][0] && v in s.h.chunks && s.h.chunks[v].state == Binned(NBINS + f)
    && Suits(NBINS + f, s.h.chunks[v].size) && s.fastbins[f] == v && Fd(s.m, v) == Next(s.h.lists[NBINS + f], 1)
    && Tagged(s.m, v, Chunk(s.h.chunks[v].size, Used))
  }

  lemma InFrontIntro(s: Store, f: nat)
    requires Inv(s) && f < NFASTBINS && s.h.lists[NBINS + f] != []
    ensures |s.h.lists| == LISTS && NBINS + f < LISTS && InFront(s, f, s.h.lists[NBINS + f][0])
  {
    FastHead(s, f);
    PopChains(s.m, s.fastbins, s.h.lists, f);
  }

  lemma InFrontParts(s: Store, f: nat, v: Addr)
    requires InFront(s, f, v)
    ensures |s.h.lists| == LISTS && f < NFASTBINS && |s.fastbins| == NFASTBINS && s.h.lists[NBINS + f] != []
    ensures v == s.h.lists[NBINS + f][0] && v in s.h.chunks && s.h.chunks[v].state == Binned(NBINS + f)
    ensures Suits(NBINS + f, s.h.chunks[v].size) && s.fastbins[f] == v && Fd(s.m, v) == Next(s.h.lists[NBINS + f], 1)
    ensures Tagged(s.m, v, Chunk(s.h.chunks[v].size, Used))
  {
  }

  ghost function Popped(s: Store, f: nat): Store {
    if |s.h.lists| == LISTS && f < NFASTBINS && |s.fastbins| == NFASTBINS && s.h.lists[NBINS + f] != []
       && s.h.lists[NBINS + f][0] in s.h.chunks
    then s.(h := PopHeap(s.h, f), fastbins := s.fastbins[f := Next(s.h.lists[NBINS + f], 1)])
    else s
  }

  lemma PoppedIs(s: Store, f: nat)
    requires |s.h.lists| == LISTS && f < NFASTBINS && |s.fastbins| == NFASTBINS && s.h.lists[NBINS + f] != []
    requires s.h.lists[NBINS + f][0] in s.h.chunks
    ensures var u := Popped(s, f);
            u.m == s.m && u.open == s.open && u.h.top == s.h.top && u.h.chunks == Set(s.h.chunks, s.h.lists[NBINS + f][0], Loose)
            && u.h.lists == s.h.lists[NBINS + f := RemoveAt(s.h.lists[NBINS + f], 0)] && u.h.starts == s.h.starts
            && u.fastbins == s.fastbins[f := Next(s.h.lists[NBINS + f], 1)] && u.h == UnlinkHeap(s.h, NBINS + f, 0)
  {
  }

  /** The first chunk of a fastbin is taken. */
  lemma PopStep(s: Store, f: nat) returns (v: Addr)
    requires Inv(s) && f < NFASTBINS && NBINS + f < |s.h.lists| && s.h.lists[NBINS + f] != []
    ensures InFront(s, f, v) && Inv(Popped(s, f)) && Quiet(s, Popped(s, f))
  {
    hide *;
    InvParts(s);
    ListCount();
    InFrontIntro(s, f);
    v := s.h.lists[NBINS + f][0];
    InFrontParts(s, f, v);
    PopChains(s.m, s.fastbins, s.h.lists, f);
    UnlinkWellFormed(s.h, NBINS + f, 0);
    OtherLinked(s.m, s.h.lists, s.open, NBINS + f, RemoveAt(s.h.lists[NBINS + f], 0));
    LooseTags(s.m, s.h.chunks, s.h.starts, v);
    SameMemory(s.h.chunks, s.m);
    PoppedIs(s, f);
    InvIntro(Popped(s, f));
    QuietIntro(s, Popped(s, f));
  }

  lemma ListCount()
    ensures LISTS == NBINS + NFASTBINS && NBINS == 128 && NFASTBINS == 10
  {
  }

  lemma ChainKept(m: Words, n: Words, head: Addr, s: seq<Addr>, p: Addr)
    requires Chained(m, head, s) && forall w: int | w != p + 8 :: n[w] == m[w]
    requires p !in s
    ensures Chained(n, head, s)
  {
    forall k | 0 <= k < |s| ensures Fd(n, s[k]) == Next(s, k + 1) {
      assert s[k] != p;
      assert Fd(m, s[k]) == Next(s, k + 1);
    }
  }

  lemma ChainPushed(n: Words, head: Addr, s: seq<Addr>, p: Addr)
    requires Chained(n, head, s) && Fd(n, p) == head
    ensures Chained(n, p, InsertAt(s, 0, p))
  {
    var r := InsertAt(s, 0, p);
    forall k | 0 <= k < |r| ensures Fd(n, r[k]) == Next(r, k + 1) {
      if k > 0 { assert Fd(n, s[k - 1]) == Next(s, k); }
    }
  }

  lemma PushChain(m: Words, n: Words, fastbins: seq<Addr>, chunks: Chunks, lists: seq<seq<Addr>>, f: nat, p: Addr, j: nat)
    requires Listed(chunks, lists) && AllChained(m, fastbins, lists) && f < NFASTBINS && |lists| == LISTS
    requires p in chunks && chunks[p].state == Loose && n == m[p + 8 := fastbins[f]] && j < NFASTBINS
    ensures Chained(n, fastbins[j], lists[NBINS + j])
    ensures j == f ==> Chained(n, p, InsertAt(lists[NBINS + f], 0, p))
  {
    hide Chained, Listed;
    NotListed(chunks, lists, NBINS + j, p);
    ChainKept(m, n, fastbins[j], lists[NBINS + j], p);
    if j == f { ChainPushed(n, fastbins[f], lists[NBINS + f], p); }
  }

  lemma PushChains(m: Words, fastbins: seq<Addr>, chunks: Chunks, lists: seq<seq<Addr>>, f: nat, p: Addr)
    requires Listed(chunks, lists) && AllChained(m, fastbins, lists) && f < NFASTBINS && |lists| == LISTS
    requires p in chunks && chunks[p].state == Loose
    ensures AllChained(m[p + 8 := fastbins[f]], fastbins[f := p], lists[NBINS + f := InsertAt(lists[NBINS + f], 0, p)])
  {
    var n: Words := m[p + 8 := fastbins[f]];
    var ls := lists[NBINS + f := InsertAt(lists[NBINS + f], 0, p)];
    var fb := fastbins[f := p];
    hide Chained, Listed;
    forall j | 0 <= j < NFASTBINS ensures Chained(n, fb[j], ls[NBINS + j]) {
      PushChain(m, n, fastbins, chunks, lists, f, p, j);
    }
  }

  ghost function Pushed(s: Store, f: nat, p: Addr): Store
    requires f < |s.fastbins| && NBINS + f < |s.h.lists| && p in s.h.chunks
  {
    s.(m := s.m[p + 8 := s.fastbins[f]], h := LinkHeap(s.h, NBINS + f, 0, p), fastbins := s.fastbins[f := p])
  }

  lemma PushedIs(s: Store, f: nat, p: Addr)
    requires f < |s.fastbins| && NBINS + f < |s.h.lists| && p in s.h.chunks
    ensures var t := Pushed(s, f, p);
            t.m == s.m[p + 8 := s.fastbins[f]] && t.h == LinkHeap(s.h, NBINS + f, 0, p)
            && t.fastbins == s.fastbins[f := p] && t.open == s.open
  {
  }

  /** A loose chunk is put at the front of a fastbin; for its neighbours it stays in use. */
  lemma PushStep(s: Store, f: nat, p: Addr)
    requires Inv(s) && f < NFASTBINS && MayLink(s.h, NBINS + f, 0, p)
    requires Tagged(s.m, p, Chunk(s.h.chunks[p].size, Used))
    ensures |s.fastbins| == NFASTBINS && |s.h.lists| == LISTS && Inv(Pushed(s, f, p)) && Quiet(s, Pushed(s, f, p))
  {
    hide *;
    InvParts(s);
    ListCount();
    FastCount(s);
    MayLinkParts(s.h, NBINS + f, 0, p);
    PushInside(s, p);
    InsideStep(s, p, p + 8, s.fastbins[f]);
    WroteIs(s, p + 8, s.fastbins[f]);
    InvParts(Wrote(s, p + 8, s.fastbins[f]));
    QuietParts(s, Wrote(s, p + 8, s.fastbins[f]));
    PushParts(s, f, p);
  }

  lemma PushParts(s: Store, f: nat, p: Addr)
    requires Inv(s) && f < NFASTBINS && |s.fastbins| == NFASTBINS && |s.h.lists| == LISTS && MayLink(s.h, NBINS + f, 0, p)
    requires Tagged(s.m, p, Chunk(s.h.chunks[p].size, Used))
    requires Tags(s.m[p + 8 := s.fastbins[f]], s.h.chunks, s.h.starts)
    requires AllLinked(s.m[p + 8 := s.fastbins[f]], s.h.lists, s.open)
    requires Preserved(s.h.chunks, s.m, s.m[p + 8 := s.fastbins[f]])
    ensures Inv(Pushed(s, f, p)) && Quiet(s, Pushed(s, f, p))
  {
    hide *;
    InvParts(s);
    ListCount();
    MayLinkParts(s.h, NBINS + f, 0, p);
    var n: Words := s.m[p + 8 := s.fastbins[f]];
    PushChains(s.m, s.fastbins, s.h.chunks, s.h.lists, f, p);
    LinkWellFormed(s.h, NBINS + f, 0, p);
    OtherLinked(n, s.h.lists, s.open, NBINS + f, InsertAt(s.h.lists[NBINS + f], 0, p));
    PushTags(s.m, n, s.h.chunks, s.h.starts, p, f, s.fastbins[f]);
    LinkHeapParts(s.h, NBINS + f, 0, p);
    PushedIs(s, f, p);
    InvIntro(Pushed(s, f, p));
    QuietIntro(s, Pushed(s, f, p));
  }

  lemma PushInside(s: Store, p: Addr)
    requires Inv(s) && p in s.h.chunks && s.h.chunks[p].state == Loose
    ensures Inside(s.h.chunks, p, p + 8)
  {
    assert Shaped(p, s.h.chunks[p]);
  }

  lemma FastCount(s: Store)
    requires Inv(s)
    ensures |s.fastbins| == NFASTBINS
  {
  }

  lemma MayLinkParts(h: Heap, i: nat, k: nat, p: Addr)
    requires MayLink(h, i, k, p)
    ensures p in h.chunks && h.chunks[p].state == Loose && i < |h.lists| && k <= |h.lists[i]|
  {
  }

  lemma WroteIs(s: Store, w: int, v: int)
    ensures Wrote(s, w, v).m == s.m[w := v] && Wrote(s, w, v).h == s.h
    ensures Wrote(s, w, v).fastbins == s.fastbins && Wrote(s, w, v).open == s.open
  {
  }

  lemma QuietParts(s: Store, t: Store)
    requires Quiet(s, t)
    ensures SameLive(s.h.chunks, t.h.chunks) && Preserved(s.h.chunks, s.m, t.m)
    ensures SameSpace(s.h.chunks, t.h.chunks) && t.h.starts == s.h.starts
  {
  }

  lemma PushTags(m: Words, n: Words, chunks: Chunks, starts: set<Addr>, p: Addr, f: nat, v: int)
    requires Tiles(chunks, starts) && Tags(n, chunks, starts) && n == m[p + 8 := v] && f < NFASTBINS
    requires p in chunks && chunks[p].state == Loose && Tagged(m, p, Chunk(chunks[p].size, Used))
    ensures Tags(n, Set(chunks, p, Binned(NBINS + f)), starts)
  {
    assert Shaped(p, chunks[p]);
    assert Tagged(n, p, Chunk(chunks[p].size, Binned(NBINS + f)));
    SetTags(n, chunks, starts, p, Binned(NBINS + f));
  }
}
