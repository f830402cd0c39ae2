/** Rebuilding a live chunk: taking it in hand, joining it with what follows, and cutting it
    into live parts, as realloc() and memalign() do. */
module DlCarve {
  import opened DlSizes
  import opened DlHeap
  import opened DlTags
  import opened DlLinks
  import opened DlSteps
  import opened DlMoves
  import opened DlCoalesce
  import opened DlCollect
  import opened DlRelease
  import opened DlSystem
  import opened DlBreak
  import opened DlMalloc

  /** set_head_size: the PREV_INUSE bit is kept. */
  function SizeBit(head: int, size: nat): int {
    size + head % 2
  }

  /** Everything but the tags of p is in order; p is in the allocator's hands. */
  ghost predicate Held(s: Store, p: Addr, size: nat, top: Addr, maxFast: nat, fastChunks: bool, binmap: seq<bv32>) {
    && Inv(s) && !s.open && LooseOnly(s.h.chunks, p) && p in s.h.chunks && s.h.chunks[p].size == size
    && TopField(top, s.h) && maxFast == DEFAULT_MAX_FAST && BinsMapped(binmap, s.h.lists)
    && (!fastChunks ==> FastEmpty(s.h.lists))
  }

  lemma HeldParts(s: Store, p: Addr, size: nat, top: Addr, maxFast: nat, fastChunks: bool, binmap: seq<bv32>)
    requires Held(s, p, size, top, maxFast, fastChunks, binmap)
    ensures Inv(s) && !s.open && LooseOnly(s.h.chunks, p) && p in s.h.chunks && s.h.chunks[p].size == size
    ensures s.h.chunks[p].state == Loose
    ensures TopField(top, s.h) && maxFast == DEFAULT_MAX_FAST && BinsMapped(binmap, s.h.lists)
    ensures !fastChunks ==> FastEmpty(s.h.lists)
  {
  }

  lemma HeldIntro(s: Store, p: Addr, size: nat, top: Addr, maxFast: nat, fastChunks: bool, binmap: seq<bv32>)
    requires Inv(s) && !s.open && LooseOnly(s.h.chunks, p) && p in s.h.chunks && s.h.chunks[p].size == size
    requires TopField(top, s.h) && maxFast == DEFAULT_MAX_FAST && BinsMapped(binmap, s.h.lists)
    requires !fastChunks ==> FastEmpty(s.h.lists)
    ensures Held(s, p, size, top, maxFast, fastChunks, binmap)
  {
  }

  // ----- the size words -----

  lemma SizeBitIs(head: int, size: nat)
    requires size % 8 == 0
    ensures HeadIs(SizeBit(head, size), size) && (PrevInuse(SizeBit(head, size)) <==> PrevInuse(head))
  {
    var k := size / 8;
    assert size == 2 * (4 * k);
  }

  /** A size word of the chunk in hand that keeps the bit fits the chunk before it. */
  lemma KeepsBit(s: Store, p: Addr, v: int)
    requires Inv(s) && LooseOnly(s.h.chunks, p) && (PrevInuse(v) <==> PrevInuse(Head(s.m, p)))
    ensures BitFits(s.h.chunks, s.h.starts, p, v)
  {
    OnlyBefore(s.h.chunks, s.h.starts, p);
    hide Tagged, Listed, Apart, TopIs, AllLinked, AllChained, PrevInuse;
    forall b | Precedes(s.h.chunks, b, p) ensures IsFree(s.h.chunks[b].state) <==> !PrevInuse(v) {
      TagTells(s.m, s.h.chunks, s.h.starts, b, p);
    }
    if p in s.h.starts { assert PrevInuse(s.m[p + 4]); }
  }

  // ----- the whole chunk -----

  /** set_head_size(p, z); set_inuse_bit_at_offset(p, z). */
  function WholeWords(m: Words, p: Addr, z: nat): Words {
    Poke(Poke(m, p + 4, SizeBit(Head(m, p), z)), p + z + 4, WithBit(Head(m, p + z)))
  }

  /** The chunk in hand is live again, and its words are those it had. */
  ghost predicate Restored(s: Store, t: Store, p: Addr) {
    && Inv(t) && !t.open && NoLoose(t.h.chunks) && Grew(s.h.chunks, t.h.chunks, p)
    && p in s.h.chunks && p in t.h.chunks && t.h.chunks[p].size == s.h.chunks[p].size
    && Preserved(s.h.chunks, s.m, t.m) && SameSpace(s.h.chunks, t.h.chunks)
    && t.h.lists == s.h.lists && t.h.top == s.h.top && t.fastbins == s.fastbins
    && forall w: int | p + 8 <= w <= p + t.h.chunks[p].size :: t.m[w] == s.m[w]
  }

  lemma RestoredParts(s: Store, t: Store, p: Addr)
    requires Restored(s, t, p)
    ensures Inv(t) && !t.open && NoLoose(t.h.chunks) && Grew(s.h.chunks, t.h.chunks, p)
    ensures p in s.h.chunks && p in t.h.chunks && t.h.chunks[p].size == s.h.chunks[p].size
    ensures Preserved(s.h.chunks, s.m, t.m) && SameSpace(s.h.chunks, t.h.chunks)
    ensures t.h.lists == s.h.lists && t.h.top == s.h.top && t.fastbins == s.fastbins
    ensures forall w: int | p + 8 <= w <= p + t.h.chunks[p].size :: t.m[w] == s.m[w]
  {
  }

  lemma RestoredIntro(s: Store, t: Store, p: Addr)
    requires Inv(t) && !t.open && NoLoose(t.h.chunks) && Grew(s.h.chunks, t.h.chunks, p)
    requires p in s.h.chunks && p in t.h.chunks && t.h.chunks[p].size == s.h.chunks[p].size
    requires Preserved(s.h.chunks, s.m, t.m) && SameSpace(s.h.chunks, t.h.chunks)
    requires t.h.lists == s.h.lists && t.h.top == s.h.top && t.fastbins == s.fastbins
    requires forall w: int | p + 8 <= w <= p + t.h.chunks[p].size :: t.m[w] == s.m[w]
    ensures Restored(s, t, p)
  {
  }

  /** The size word of the chunk in hand. */
  lemma OwnHead(s: Store, p: Addr, size: nat, v: nat)
    requires Inv(s) && LooseOnly(s.h.chunks, p) && v == SizeBit(Head(s.m, p), size) && size % 8 == 0
    ensures Inv(Wrote(s, p + 4, v)) && Quiet(s, Wrote(s, p + 4, v))
  {
    hide *;
    OnlyParts(s.h.chunks, p);
    SizeBitIs(Head(s.m, p), size);
    KeepsBit(s, p, v);
    LooseSize(s.m, p, s.h.chunks[p], v);
    HeadStep(s, p, v);
  }

  /** The bit behind a chunk in hand is set. */
  lemma SetBit(s: Store, p: Addr, e: Addr)
    requires Inv(s) && p in s.h.chunks && s.h.chunks[p].state == Loose && e == p + s.h.chunks[p].size
    requires e in s.h.chunks && s.h.chunks[e].state != Loose
    ensures Inv(Wrote(s, e + 4, WithBit(Head(s.m, e)))) && Quiet(s, Wrote(s, e + 4, WithBit(Head(s.m, e))))
  {
    hide *;
    InvParts(s);
    ShapeOf(s.h.chunks, e);
    EndIs(s.h.chunks, p);
    LooseBit(s.h.chunks, s.h.starts, p, WithBit(Head(s.m, e)));
    BitKeepsSize(s.m, s.h.chunks, s.h.starts, e);
    HeadStep(s, e, WithBit(Head(s.m, e)));
  }

  /** Both size words around a chunk in hand are written. */
  lemma TwoHeads(s: Store, p: Addr, size: nat) returns (u: Store)
    requires Inv(s) && !s.open && LooseOnly(s.h.chunks, p) && p in s.h.chunks && s.h.chunks[p].size == size
    ensures Inv(u) && Quiet(s, u) && u == s.(m := WholeWords(s.m, p, size)) && Tagged(u.m, p, Chunk(size, Used))
  {
    hide *;
    OnlyParts(s.h.chunks, p);
    InvParts(s);
    ShapeOf(s.h.chunks, p);
    NextOf(s, p, p + size);
    var e := p + size;
    SizeBitIs(Head(s.m, p), size);
    SizeBitNat(Head(s.m, p), size);
    var v: nat := SizeBit(Head(s.m, p), size);
    OwnHead(s, p, size, v);
    var t := Wrote(s, p + 4, v);
    WroteIs(s, p + 4, v);
    SetBit(t, p, e);
    u := Wrote(t, e + 4, WithBit(Head(t.m, e)));
    WroteIs(t, e + 4, WithBit(Head(t.m, e)));
    QuietThen(s, t, u);
    HeadOfPoke(s.m, p, v);
    OtherHead(s.m, p, e, v);
    UsedTag(t.m, p, size);
    TwoWords(s.m, p, size);
  }

  lemma SizeBitNat(head: int, size: nat)
    ensures SizeBit(head, size) >= 0
  {
  }

  lemma OtherHead(m: Words, p: Addr, e: Addr, v: int)
    requires p != e
    ensures Head(m[p + 4 := v], e) == Head(m, e)
  {
  }

  lemma HeadOfPoke(m: Words, p: Addr, v: int)
    ensures Head(m[p + 4 := v], p) == v
  {
  }

  lemma TwoWords(m: Words, p: Addr, z: nat)
    requires z > 0
    ensures WholeWords(m, p, z) == m[p + 4 := SizeBit(Head(m, p), z)][p + z + 4 := WithBit(Head(m, p + z))]
    ensures forall w: int | p + 8 <= w <= p + z :: WholeWords(m, p, z)[w] == m[w]
  {
  }

  /** The chunk in hand becomes live as a whole. */
  lemma WholeStep(s: Store, p: Addr, size: nat) returns (t: Store)
    requires Inv(s) && !s.open && LooseOnly(s.h.chunks, p) && p in s.h.chunks && s.h.chunks[p].size == size
    ensures Restored(s, t, p) && t.m == WholeWords(s.m, p, size) && t.h == SetChunk(s.h, p, Used)
  {
    hide *;
    OnlyParts(s.h.chunks, p);
    InvParts(s);
    ShapeOf(s.h.chunks, p);
    var u := TwoHeads(s, p, size);
    SettleStep(u, p);
    t := u.(h := SetChunk(u.h, p, Used));
    SetChunkIs(u.h, p, Used);
    GrewSet(s.h.chunks, p);
    SettleNone(s.h.chunks, p, Used);
    QuietParts(s, u);
    TwoWords(s.m, p, size);
    RestoredIntro(s, t, p);
  }

  // ----- two live parts -----

  /** set_head_size(p, nb); set_head(r, rest | PREV_INUSE); set_inuse_bit_at_offset(r, rest),
      where r is p + nb. */
  function CarveWords(m: Words, p: Addr, nb: nat, z: nat): Words {
    Poke(Poke(Poke(m, p + 4, SizeBit(Head(m, p), nb)), p + nb + 4, z - nb + 1), p + z + 4, WithBit(Head(m, p + z)))
  }

  /** The chunk in hand has become two live chunks; words inside both are what they were. */
  ghost predicate Carved(s: Store, t: Store, p: Addr, nb: nat) {
    && Inv(t) && !t.open && NoLoose(t.h.chunks)
    && p in s.h.chunks && s.h.chunks[p].state == Loose && nb <= s.h.chunks[p].size && p + nb !in s.h.chunks
    && p in t.h.chunks && t.h.chunks[p] == Chunk(nb, Used)
    && p + nb in t.h.chunks && t.h.chunks[p + nb] == Chunk(s.h.chunks[p].size - nb, Used)
    && (forall b | b in s.h.chunks && s.h.chunks[b].state == Used :: b in t.h.chunks && t.h.chunks[b] == s.h.chunks[b])
    && (forall b | b in t.h.chunks && t.h.chunks[b].state == Used && b != p && b != p + nb ::
          b in s.h.chunks && s.h.chunks[b] == t.h.chunks[b])
    && Preserved(s.h.chunks, s.m, t.m) && SameSpace(s.h.chunks, t.h.chunks)
    && t.h.lists == s.h.lists && t.h.top == s.h.top && t.fastbins == s.fastbins
    && (forall w: int | p + 8 <= w <= p + nb :: t.m[w] == s.m[w])
    && (forall w: int | p + nb + 8 <= w <= p + s.h.chunks[p].size :: t.m[w] == s.m[w])
  }

  /** The size word of the rest, and the cut itself. */
  ghost function Severed(s: Store, p: Addr, nb: nat, rest: nat): Store {
    if CanSplit(s.h.chunks, p, nb) then Wrote(s, p + nb + 4, rest + 1).(h := SplitChunk(s.h, p, nb)) else s
  }

  lemma SeveredIs(s: Store, p: Addr, nb: nat, rest: nat)
    requires CanSplit(s.h.chunks, p, nb) && s.h.chunks[p].state == Loose && rest == s.h.chunks[p].size - nb
    ensures Severed(s, p, nb, rest) == Wrote(s, p + nb + 4, rest + 1).(h := SplitChunk(s.h, p, nb))
    ensures Severed(s, p, nb, rest).m == s.m[p + nb + 4 := rest + 1] && Severed(s, p, nb, rest).open == s.open
    ensures Severed(s, p, nb, rest).h == s.h.(chunks := Split(s.h.chunks, p, nb, Loose, Loose))
    ensures Severed(s, p, nb, rest).fastbins == s.fastbins
  {
  }

  lemma Sever(s: Store, p: Addr, nb: nat, rest: nat)
    requires Inv(s) && p in s.h.chunks && s.h.chunks[p].state == Loose && CanSplit(s.h.chunks, p, nb)
    requires rest == s.h.chunks[p].size - nb
    ensures p + nb !in s.h.chunks && Inv(Severed(s, p, nb, rest)) && Quiet(s, Severed(s, p, nb, rest))
  {
    hide *;
    InvParts(s);
    CutShapes(s.h.chunks, p, nb);
    InsideStep(s, p, p + nb + 4, rest + 1);
    WroteIs(s, p + nb + 4, rest + 1);
    SplitStep(Wrote(s, p + nb + 4, rest + 1), p, nb);
    SeveredIs(s, p, nb, rest);
    QuietThen(s, Wrote(s, p + nb + 4, rest + 1), Severed(s, p, nb, rest));
  }

  lemma HalvesOf(chunks: Chunks, starts: set<Addr>, p: Addr, nb: nat, rest: nat)
    requires Tiles(chunks, starts) && LooseOnly(chunks, p) && CanSplit(chunks, p, nb) && p + nb !in chunks
    requires rest == chunks[p].size - nb
    ensures var cs := Split(chunks, p, nb, Loose, Loose);
            && p in cs && cs[p] == Chunk(nb, Loose) && p + nb in cs && cs[p + nb] == Chunk(rest, Loose)
            && p + nb + rest in cs && cs[p + nb + rest].state != Loose && p != p + nb
    ensures nb % 8 == 0 && nb >= 16 && rest >= 16 && rest % 8 == 0
  {
    OnlyBefore(chunks, starts, p);
    assert Shaped(p, chunks[p]);
  }

  /** The size words of both parts, and the cut itself. */
  lemma HalfOpen(s: Store, p: Addr, nb: nat, rest: nat) returns (u: Store)
    requires Inv(s) && LooseOnly(s.h.chunks, p) && CanSplit(s.h.chunks, p, nb) && p in s.h.chunks
    requires rest == s.h.chunks[p].size - nb && nb % 8 == 0
    ensures Inv(u) && Quiet(s, u) && p + nb !in s.h.chunks
    ensures u.m == s.m[p + 4 := SizeBit(Head(s.m, p), nb)][p + nb + 4 := rest + 1]
    ensures u.h == s.h.(chunks := Split(s.h.chunks, p, nb, Loose, Loose)) && u.fastbins == s.fastbins && u.open == s.open
  {
    hide *;
    OnlyParts(s.h.chunks, p);
    SizeBitNat(Head(s.m, p), nb);
    var v: nat := SizeBit(Head(s.m, p), nb);
    OwnHead(s, p, nb, v);
    var t := Wrote(s, p + 4, v);
    WroteIs(s, p + 4, v);
    Sever(t, p, nb, rest);
    u := Severed(t, p, nb, rest);
    SeveredIs(t, p, nb, rest);
    QuietThen(s, t, u);
  }

  /** All stores of a cut, and the cut itself; both parts are in hand, tagged as in use. */
  lemma Open(s: Store, p: Addr, nb: nat, rest: nat) returns (u: Store)
    requires Inv(s) && LooseOnly(s.h.chunks, p) && CanSplit(s.h.chunks, p, nb) && p in s.h.chunks
    requires rest == s.h.chunks[p].size - nb
    ensures Inv(u) && Quiet(s, u) && p + nb !in s.h.chunks && u.m == CarveWords(s.m, p, nb, nb + rest)
    ensures u.h == s.h.(chunks := Split(s.h.chunks, p, nb, Loose, Loose)) && u.fastbins == s.fastbins && u.open == s.open
  {
    hide *;
    OnlyParts(s.h.chunks, p);
    InvParts(s);
    CutShapes(s.h.chunks, p, nb);
    var t := HalfOpen(s, p, nb, rest);
    HalvesOf(s.h.chunks, s.h.starts, p, nb, rest);
    var e := p + nb + rest;
    SetBit(t, p + nb, e);
    u := Wrote(t, e + 4, WithBit(Head(t.m, e)));
    WroteIs(t, e + 4, WithBit(Head(t.m, e)));
    QuietThen(s, t, u);
    ThreeWords(s.m, p, nb, rest);
  }

  lemma ThreeWords(m: Words, p: Addr, nb: nat, rest: nat)
    requires nb > 0 && rest > 0
    ensures var n: Words := m[p + 4 := SizeBit(Head(m, p), nb)][p + nb + 4 := rest + 1];
            CarveWords(m, p, nb, nb + rest) == n[p + nb + rest + 4 := WithBit(Head(n, p + nb + rest))]
  {
  }

  lemma CarveReads(m: Words, p: Addr, nb: nat, rest: nat)
    requires nb > 0 && rest > 0
    ensures var n := CarveWords(m, p, nb, nb + rest);
            && Head(n, p) == SizeBit(Head(m, p), nb) && Head(n, p + nb) == rest + 1
            && Head(n, p + nb + rest) == WithBit(Head(m, p + nb + rest))
  {
  }

  lemma UsedTagIs(m: Words, p: Addr, size: nat)
    requires HeadIs(Head(m, p), size) && PrevInuse(Head(m, p + size))
    ensures Tagged(m, p, Chunk(size, Used))
  {
    hide PrevInuse, HeadIs;
  }

  lemma WithBitIs(head: int)
    ensures PrevInuse(WithBit(head))
  {
  }

  lemma CarvedTags(m: Words, p: Addr, nb: nat, rest: nat)
    requires nb % 8 == 0 && nb >= 16 && rest >= 16 && rest % 8 == 0
    ensures var n := CarveWords(m, p, nb, nb + rest);
            Tagged(n, p, Chunk(nb, Used)) && Tagged(n, p + nb, Chunk(rest, Used))
  {
    hide *;
    var n := CarveWords(m, p, nb, nb + rest);
    CarveReads(m, p, nb, rest);
    SizeBitIs(Head(m, p), nb);
    EightFours(rest);
    HeadIsSelf(rest);
    HeadBits(rest, rest);
    WithBitIs(Head(m, p + nb + rest));
    UsedTagIs(n, p, nb);
    UsedTagIs(n, p + nb, rest);
  }

  lemma CarvedWords(m: Words, p: Addr, nb: nat, rest: nat)
    requires nb > 0 && rest > 0
    ensures var n := CarveWords(m, p, nb, nb + rest);
            && (forall w: int | p + 8 <= w <= p + nb :: n[w] == m[w])
            && (forall w: int | p + nb + 8 <= w <= p + nb + rest :: n[w] == m[w])
  {
  }

  lemma CarvedChunks(chunks: Chunks, p: Addr, nb: nat, rest: nat, cs: Chunks)
    requires LooseOnly(chunks, p) && CanSplit(chunks, p, nb) && p + nb !in chunks && rest == chunks[p].size - nb
    requires BothUsed(Split(chunks, p, nb, Loose, Loose), cs, p, p + nb)
    ensures NoLoose(cs) && cs == Split(chunks, p, nb, Used, Used)
  {
  }

  lemma CarvedLive(chunks: Chunks, p: Addr, nb: nat)
    requires p in chunks && chunks[p].state == Loose && 0 < nb <= chunks[p].size && p + nb !in chunks
    ensures var cs := Split(chunks, p, nb, Used, Used);
            && p in cs && cs[p] == Chunk(nb, Used) && p + nb in cs && cs[p + nb] == Chunk(chunks[p].size - nb, Used)
            && (forall b | b in chunks && chunks[b].state == Used :: b in cs && cs[b] == chunks[b])
            && (forall b | b in cs && cs[b].state == Used && b != p && b != p + nb :: b in chunks && chunks[b] == cs[b])
    ensures SameSpace(chunks, Split(chunks, p, nb, Used, Used))
  {
    TotalSplit(chunks, p, nb, Used, Used);
  }

  lemma CarvedIntro(s: Store, t: Store, p: Addr, nb: nat)
    requires Inv(t) && !t.open && NoLoose(t.h.chunks)
    requires p in s.h.chunks && s.h.chunks[p].state == Loose && nb <= s.h.chunks[p].size && p + nb !in s.h.chunks
    requires p in t.h.chunks && t.h.chunks[p] == Chunk(nb, Used)
    requires p + nb in t.h.chunks && t.h.chunks[p + nb] == Chunk(s.h.chunks[p].size - nb, Used)
    requires forall b | b in s.h.chunks && s.h.chunks[b].state == Used :: b in t.h.chunks && t.h.chunks[b] == s.h.chunks[b]
    requires forall b | b in t.h.chunks && t.h.chunks[b].state == Used && b != p && b != p + nb ::
               b in s.h.chunks && s.h.chunks[b] == t.h.chunks[b]
    requires Preserved(s.h.chunks, s.m, t.m) && SameSpace(s.h.chunks, t.h.chunks)
    requires t.h.lists == s.h.lists && t.h.top == s.h.top && t.fastbins == s.fastbins
    requires forall w: int | p + 8 <= w <= p + nb :: t.m[w] == s.m[w]
    requires forall w: int | p + nb + 8 <= w <= p + s.h.chunks[p].size :: t.m[w] == s.m[w]
    ensures Carved(s, t, p, nb)
  {
  }

  /** The chunk in hand becomes two live chunks. */
  lemma CarveStep(s: Store, p: Addr, nb: nat, rest: nat) returns (t: Store)
    requires Inv(s) && !s.open && LooseOnly(s.h.chunks, p) && CanSplit(s.h.chunks, p, nb) && p in s.h.chunks
    requires rest == s.h.chunks[p].size - nb
    ensures Carved(s, t, p, nb) && t.m == CarveWords(s.m, p, nb, nb + rest)
    ensures nb <= s.h.chunks[p].size && t.h == s.h.(chunks := Split(s.h.chunks, p, nb, Used, Used))
  {
    hide *;
    OnlyParts(s.h.chunks, p);
    InvParts(s);
    var u := Open(s, p, nb, rest);
    HalvesOf(s.h.chunks, s.h.starts, p, nb, rest);
    CarvedTags(s.m, p, nb, rest);
    CarvedWords(s.m, p, nb, rest);
    CarvedLive(s.h.chunks, p, nb);
    t := SettleBoth(u, p, p + nb);
    CarvedChunks(s.h.chunks, p, nb, rest, t.h.chunks);
    QuietParts(s, u);
    SameSpaceThen(s.h.chunks, u.h.chunks, t.h.chunks);
    CarvedIntro(s, t, p, nb);
  }

  /** Two loose chunks have become live. */
  ghost predicate BothUsed(chunks: Chunks, cs: Chunks, p: Addr, r: Addr) {
    && p in chunks && r in chunks && p != r
    && cs == chunks[p := Chunk(chunks[p].size, Used)][r := Chunk(chunks[r].size, Used)]
  }

  lemma BothUsedIs(chunks: Chunks, p: Addr, r: Addr)
    requires p in chunks && r in chunks && p != r
    ensures r in Set(chunks, p, Used) && Set(chunks, p, Used)[r] == chunks[r]
    ensures BothUsed(chunks, Set(Set(chunks, p, Used), r, Used), p, r)
  {
  }

  lemma SettleBoth(u: Store, p: Addr, r: Addr) returns (t: Store)
    requires Inv(u) && p in u.h.chunks && r in u.h.chunks && p != r
    requires u.h.chunks[p].state == Loose && u.h.chunks[r].state == Loose
    requires Tagged(u.m, p, Chunk(u.h.chunks[p].size, Used)) && Tagged(u.m, r, Chunk(u.h.chunks[r].size, Used))
    ensures Inv(t) && t.m == u.m && t.fastbins == u.fastbins && t.open == u.open
    ensures BothUsed(u.h.chunks, t.h.chunks, p, r) && t.h.lists == u.h.lists && t.h.top == u.h.top
    ensures t.h.starts == u.h.starts && SameSpace(u.h.chunks, t.h.chunks)
  {
    hide *;
    SettleStep(u, p);
    BothUsedIs(u.h.chunks, p, r);
    var v := u.(h := SetChunk(u.h, p, Used));
    SetChunkIs(u.h, p, Used);
    SettleStep(v, r);
    t := v.(h := SetChunk(v.h, r, Used));
    SetChunkIs(v.h, r, Used);
    SameSpaceThen(u.h.chunks, v.h.chunks, t.h.chunks);
  }

  // ----- taking in hand -----

  /** A chunk has come into the allocator's hands; no word has changed. */
  ghost predicate Grasped(s: Store, t: Store, p: Addr) {
    && Freed(s, t, p) && t.m == s.m && SameSpace(s.h.chunks, t.h.chunks)
    && t.fastbins == s.fastbins && !t.open && t.h.top == s.h.top && t.h.lists == s.h.lists
  }

  lemma GraspedParts(s: Store, t: Store, p: Addr)
    requires Grasped(s, t, p)
    ensures Freed(s, t, p) && t.m == s.m && SameSpace(s.h.chunks, t.h.chunks)
    ensures t.fastbins == s.fastbins && !t.open && t.h.top == s.h.top && t.h.lists == s.h.lists
  {
  }

  lemma TakenFreed(s: Store, t: Store, p: Addr)
    requires Taken(s, t, p)
    ensures Freed(s, t, p) && SameSpace(s.h.chunks, t.h.chunks)
  {
  }

  /** A live chunk of a sound heap is taken in hand. */
  lemma Grasp(s: Store, p: Addr, top: Addr, maxFast: nat, fastChunks: bool, binmap: seq<bv32>) returns (t: Store)
    requires Sound(s, top, maxFast, fastChunks, binmap) && p in s.h.chunks && s.h.chunks[p].state == Used
    ensures Grasped(s, t, p) && Held(t, p, s.h.chunks[p].size, top, maxFast, fastChunks, binmap)
    ensures t.h == SetChunk(s.h, p, Loose) && t.h.chunks == Set(s.h.chunks, p, Loose)
    ensures SizeOf(Head(s.m, p)) == s.h.chunks[p].size
  {
    hide *;
    SoundParts(s, top, maxFast, fastChunks, binmap);
    InvParts(s);
    TakeStep(s, p);
    t := Loosened(s, p);
    LoosenedIs(s, p);
    SetChunkIs(s.h, p, Loose);
    LoosenOnly(s.h.chunks, p, Loose);
    TopFieldKept(top, s.h, t.h);
    TakenFreed(s, t, p);
    TagOf(s.m, s.h.chunks, s.h.starts, p);
    UsedIs(s.m, p, s.h.chunks[p]);
    FastSize(s, p, 0);
    GraspedIntro(s, t, p);
    HeldIntro(t, p, s.h.chunks[p].size, top, maxFast, fastChunks, binmap);
  }

  lemma GraspedIntro(s: Store, t: Store, p: Addr)
    requires Freed(s, t, p) && t.m == s.m && SameSpace(s.h.chunks, t.h.chunks)
    requires t.fastbins == s.fastbins && !t.open && t.h.top == s.h.top && t.h.lists == s.h.lists
    ensures Grasped(s, t, p)
  {
  }

  /** The chunk p and the chunk q behind it are one chunk, in the allocator's hands. */
  function JoinedChunks(chunks: Chunks, p: Addr, q: Addr): Chunks
    requires p in chunks && q in chunks
  {
    (chunks - {q})[p := Chunk(chunks[p].size + chunks[q].size, Loose)]
  }

  lemma MergedBoth(chunks: Chunks, p: Addr, q: Addr)
    requires p in chunks && q in chunks && q == p + chunks[p].size && p != q
    ensures var cs := Set(chunks, p, Loose);
            p in cs && End(cs, p) in cs && Merge(cs, p, Loose) == JoinedChunks(chunks, p, q)
  {
  }

  /** The chunk q behind p has left its list and has been joined with p. */
  ghost predicate Annexed(h: Heap, g: Heap, p: Addr, q: Addr) {
    && p in h.chunks && q in h.chunks && p != q && g.chunks == JoinedChunks(h.chunks, p, q)
    && g.starts == h.starts && g.top == h.top && LessLists(h.lists, g.lists, {q})
  }

  lemma AnnexedFree(h: Heap, i: nat, k: nat, g: Heap, p: Addr, q: Addr)
    requires Listed(h.chunks, h.lists) && i < |h.lists| && k < |h.lists[i]| && h.lists[i][k] == q
    requires p in h.chunks && q in h.chunks && p != q
    requires p in Set(h.chunks, q, Loose) && q in Set(h.chunks, q, Loose)
    requires g == UnlinkHeap(h, i, k).(chunks := JoinedChunks(Set(h.chunks, q, Loose), p, q))
    ensures Annexed(h, g, p, q)
  {
    ListsUnlinked(h, i, k);
    hide Listed, RemoveAt;
    assert JoinedChunks(Set(h.chunks, q, Loose), p, q) == JoinedChunks(h.chunks, p, q);
  }

  lemma AnnexedLive(h: Heap, g: Heap, p: Addr, q: Addr)
    requires Listed(h.chunks, h.lists) && p in h.chunks && q in h.chunks && p != q && h.chunks[q].state == Used
    requires p in Set(h.chunks, q, Loose) && q in Set(h.chunks, q, Loose)
    requires g == SetChunk(h, q, Loose).(chunks := JoinedChunks(Set(h.chunks, q, Loose), p, q))
    ensures Annexed(h, g, p, q)
  {
    forall i | 0 <= i < |h.lists| ensures h.lists[i] == Less(h.lists[i], {q}) {
      assert ListOk(h.chunks, i, h.lists[i]);
      LessNone(h.lists[i], {q});
    }
    assert JoinedChunks(Set(h.chunks, q, Loose), p, q) == JoinedChunks(h.chunks, p, q);
  }

  /** A live chunk is joined with the chunk in hand that follows it. */
  lemma JoinLive(u: Store, p: Addr, q: Addr) returns (v: Store)
    requires Inv(u) && !u.open && LooseOnly(u.h.chunks, q) && q in u.h.chunks
    requires p in u.h.chunks && u.h.chunks[p].state == Used && q == p + u.h.chunks[p].size && p != q
    ensures Inv(v) && Grasped(u, v, p) && LooseOnly(v.h.chunks, p) && p in v.h.chunks
    ensures v.h.chunks[p].size == u.h.chunks[p].size + u.h.chunks[q].size
    ensures v.h == u.h.(chunks := JoinedChunks(u.h.chunks, p, q))
  {
    hide *;
    TakeStep(u, p);
    var w := Loosened(u, p);
    LoosenedIs(u, p);
    SetChunkIs(u.h, p, Loose);
    JoinLoose(u.h.chunks, p, q, p);
    InvParts(w);
    JoinedSizes(u.h.chunks, p, q);
    MergeStep(w, p);
    v := w.(h := MergeChunk(w.h, p));
    MergeChunkIs(w.h, p);
    MergedBoth(u.h.chunks, p, q);
    TakenQuiet(u, w, v, p);
    TakenFreed(u, v, p);
    GraspedIntro(u, v, p);
  }

  lemma JoinedSizes(chunks: Chunks, p: Addr, q: Addr)
    requires p in chunks && q == p + chunks[p].size && p != q && LooseOnly(chunks, q)
    ensures p in Set(chunks, p, Loose) && End(Set(chunks, p, Loose), p) == q && q in Set(chunks, p, Loose)
    ensures Set(chunks, p, Loose)[q].state == Loose && Set(chunks, p, Loose)[p].state == Loose
    ensures p in Merge(Set(chunks, p, Loose), p, Loose)
    ensures Merge(Set(chunks, p, Loose), p, Loose)[p].size == chunks[p].size + chunks[q].size
  {
  }

  lemma RemoveShrinks(ls: seq<seq<Addr>>, i: nat, k: nat)
    requires i < NBINS && i < |ls| && k < |ls[i]|
    ensures Shrinks(ls, ls[i := RemoveAt(ls[i], k)])
  {
  }

  /** What was handed out and taken back again leaves all others alone. */
  lemma GrantFree(s: Store, t: Store, u: Store, q: Addr, nb: nat)
    requires Granted(s, t, q, nb) && Freed(t, u, q)
    ensures Calm(s, u)
  {
    forall b, w | Payload(s.h.chunks, b, w) ensures u.m[w] == s.m[w] {
      assert Payload(t.h.chunks, b, w);
      assert Payload(u.h.chunks, b, w);
    }
  }

  // ----- the end of a rebuilding -----

  /** The heap after the chunk p has been cut down to nb bytes: the rest, if there is enough of
      it for a chunk, has been given back as a chunk of its own. */
  ghost predicate CutBack(h: Heap, pending: bool, y: Sys, p: Addr, nb: nat, g: Heap, pending': bool, y': Sys) {
    && p in h.chunks && nb <= h.chunks[p].size
    && if h.chunks[p].size < nb + MINSIZE then
         g == SetChunk(h, p, Used) && pending' == pending && y' == y
       else
         GivenUp(h.(chunks := Split(h.chunks, p, nb, Used, Used)), pending, y, p + nb, g, pending', y')
  }

  lemma CutBackRest(h: Heap, pending: bool, y: Sys, p: Addr, nb: nat, c: Heap, g: Heap, pending': bool, y': Sys)
    requires p in h.chunks && h.chunks[p].size >= nb + MINSIZE && c == h.(chunks := Split(h.chunks, p, nb, Used, Used))
    requires GivenUp(c, pending, y, p + nb, g, pending', y')
    ensures CutBack(h, pending, y, p, nb, g, pending', y')
  {
    hide GivenUp;
  }

  lemma CutBackNone(h: Heap, pending: bool, y: Sys, p: Addr, nb: nat, g: Heap)
    requires p in h.chunks && nb <= h.chunks[p].size < nb + MINSIZE && g == SetChunk(h, p, Used)
    ensures CutBack(h, pending, y, p, nb, g, pending, y)
  {
  }

  /** It does not matter whether the chunk was live or already in the allocator's hands. */
  lemma CutBackLoose(h: Heap, pending: bool, y: Sys, p: Addr, nb: nat, g: Heap, pending': bool, y': Sys)
    requires p in h.chunks && CutBack(SetChunk(h, p, Loose), pending, y, p, nb, g, pending', y')
    ensures CutBack(h, pending, y, p, nb, g, pending', y')
  {
    hide GivenUp;
    var v := SetChunk(h, p, Loose);
    assert SetChunk(v, p, Used) == SetChunk(h, p, Used) by {
      assert v.chunks[p := Chunk(h.chunks[p].size, Used)] == h.chunks[p := Chunk(h.chunks[p].size, Used)];
    }
    assert Split(v.chunks, p, nb, Used, Used) == Split(h.chunks, p, nb, Used, Used);
  }

  /** p is live again, of at least the given size; its words and all other payloads are as
      they were. */
  ghost predicate Regranted(s: Store, t: Store, p: Addr, nb: nat) {
    Granted(s, t, p, nb) && forall w: int | p + 8 <= w <= p + t.h.chunks[p].size :: t.m[w] == s.m[w]
  }

  lemma RestoredDone(s: Store, t: Store, p: Addr, size: nat, nb: nat, top: Addr, maxFast: nat, fastChunks: bool, binmap: seq<bv32>)
    requires Held(s, p, size, top, maxFast, fastChunks, binmap) && Restored(s, t, p) && nb <= size
    ensures Sound(t, top, maxFast, fastChunks, binmap) && Regranted(s, t, p, nb) && SameSpace(s.h.chunks, t.h.chunks)
    ensures t == Store(t.m, t.h, s.fastbins, false)
  {
    hide *;
    HeldParts(s, p, size, top, maxFast, fastChunks, binmap);
    RestoredParts(s, t, p);
    TopFieldKept(top, s.h, t.h);
    SoundIntro(t, top, maxFast, fastChunks, binmap);
    StoreOf(t, s.fastbins);
    RegrantedIntro(s, t, p, nb);
  }

  lemma RegrantedIntro(s: Store, t: Store, p: Addr, nb: nat)
    requires Grew(s.h.chunks, t.h.chunks, p) && Preserved(s.h.chunks, s.m, t.m) && p in t.h.chunks && t.h.chunks[p].size >= nb
    requires forall w: int | p + 8 <= w <= p + t.h.chunks[p].size :: t.m[w] == s.m[w]
    ensures Regranted(s, t, p, nb)
  {
  }

  lemma CarvedParts(s: Store, t: Store, p: Addr, nb: nat)
    requires Carved(s, t, p, nb)
    ensures Inv(t) && !t.open && NoLoose(t.h.chunks) && SameSpace(s.h.chunks, t.h.chunks)
    ensures p in s.h.chunks && nb <= s.h.chunks[p].size && p + nb !in s.h.chunks && p in t.h.chunks && p + nb in t.h.chunks
    ensures t.h.chunks[p] == Chunk(nb, Used) && t.h.chunks[p + nb] == Chunk(s.h.chunks[p].size - nb, Used)
    ensures t.h.lists == s.h.lists && t.h.top == s.h.top && t.fastbins == s.fastbins
    ensures forall w: int | p + 8 <= w <= p + nb :: t.m[w] == s.m[w]
    ensures forall w: int | p + nb + 8 <= w <= p + s.h.chunks[p].size :: t.m[w] == s.m[w]
  {
  }

  lemma CarvedSound(s: Store, t: Store, p: Addr, size: nat, nb: nat, top: Addr, maxFast: nat, fastChunks: bool, binmap: seq<bv32>)
    requires Held(s, p, size, top, maxFast, fastChunks, binmap) && Carved(s, t, p, nb)
    ensures Sound(t, top, maxFast, fastChunks, binmap) && t == Store(t.m, t.h, s.fastbins, false)
  {
    hide *;
    HeldParts(s, p, size, top, maxFast, fastChunks, binmap);
    CarvedParts(s, t, p, nb);
    TopFieldKept(top, s.h, t.h);
    SoundIntro(t, top, maxFast, fastChunks, binmap);
    StoreOf(t, s.fastbins);
  }

  lemma CarvedGrew(s: Store, t: Store, u: Store, p: Addr, nb: nat, gone: Addr, kept: Addr)
    requires Carved(s, t, p, nb) && Freed(t, u, gone) && nb > 0
    requires (gone == p && kept == p + nb) || (gone == p + nb && kept == p)
    ensures Grew(s.h.chunks, u.h.chunks, kept) && kept in t.h.chunks && u.h.chunks[kept] == t.h.chunks[kept]
  {
    hide Inv, NoLoose, SameSpace, Preserved, Grew;
    GrewOut(s.h.chunks, t.h.chunks, u.h.chunks, p, nb, gone, kept);
  }

  lemma GrewOut(chunks: Chunks, cs: Chunks, us: Chunks, p: Addr, nb: nat, gone: Addr, kept: Addr)
    requires p in chunks && chunks[p].state == Loose && p + nb !in chunks && nb > 0
    requires p in cs && p + nb in cs && cs[p].state == Used && cs[p + nb].state == Used
    requires forall b | b in chunks && chunks[b].state == Used :: b in cs && cs[b] == chunks[b]
    requires forall b | b in cs && cs[b].state == Used && b != p && b != p + nb :: b in chunks && chunks[b] == cs[b]
    requires Grew(us, cs, gone) && ((gone == p && kept == p + nb) || (gone == p + nb && kept == p))
    ensures Grew(chunks, us, kept) && kept in cs && us[kept] == cs[kept]
  {
  }

  lemma CarvedKept(s: Store, t: Store, u: Store, p: Addr, nb: nat, gone: Addr)
    requires Carved(s, t, p, nb) && Freed(t, u, gone) && (gone == p || gone == p + nb)
    ensures Preserved(s.h.chunks, s.m, u.m)
  {
    hide Inv, NoLoose, SameSpace;
    forall b, w | Payload(s.h.chunks, b, w) ensures u.m[w] == s.m[w] {
      assert Payload(t.h.chunks, b, w);
      assert Payload(u.h.chunks, b, w);
    }
  }

  lemma FreedKept(t: Store, u: Store, gone: Addr, kept: Addr)
    requires Freed(t, u, gone) && kept in u.h.chunks && u.h.chunks[kept].state == Used
    ensures forall w: int | kept + 8 <= w <= kept + u.h.chunks[kept].size :: u.m[w] == t.m[w]
  {
    forall w: int | kept + 8 <= w <= kept + u.h.chunks[kept].size ensures u.m[w] == t.m[w] {
      assert Payload(u.h.chunks, kept, w);
    }
  }

  lemma GrewParts(chunks: Chunks, cs: Chunks, p: Addr)
    requires Grew(chunks, cs, p)
    ensures p in cs && cs[p].state == Used
  {
  }

  /** One of the two parts is freed; the other is what has been granted. */
  lemma CarvedFront(s: Store, t: Store, u: Store, p: Addr, nb: nat)
    requires Carved(s, t, p, nb) && Freed(t, u, p + nb) && nb > 0
    ensures Regranted(s, u, p, nb)
  {
    hide *;
    CarvedParts(s, t, p, nb);
    CarvedGrew(s, t, u, p, nb, p + nb, p);
    CarvedKept(s, t, u, p, nb, p + nb);
    GrewParts(s.h.chunks, u.h.chunks, p);
    FreedKept(t, u, p + nb, p);
    RegrantedIntro(s, u, p, nb);
  }

  lemma BackWords(s: Store, t: Store, p: Addr, lead: nat, q: Addr)
    requires Carved(s, t, p, lead) && q == p + lead
    ensures q in t.h.chunks && forall w: int | q + 8 <= w <= q + t.h.chunks[q].size :: t.m[w] == s.m[w]
  {
    hide Inv, NoLoose, SameSpace, Preserved;
  }

  lemma CarvedBack(s: Store, t: Store, u: Store, p: Addr, lead: nat)
    requires Carved(s, t, p, lead) && Freed(t, u, p) && lead > 0
    ensures p in s.h.chunks && lead <= s.h.chunks[p].size && Regranted(s, u, p + lead, s.h.chunks[p].size - lead)
  {
    hide *;
    CarvedSizes(s, t, p, lead);
    var q := p + lead;
    CarvedGrew(s, t, u, p, lead, p, q);
    CarvedKept(s, t, u, p, lead, p);
    GrewParts(s.h.chunks, u.h.chunks, q);
    FreedKept(t, u, p, q);
    BackWords(s, t, p, lead, q);
    RegrantedIntro(s, u, q, u.h.chunks[q].size);
  }

  lemma CarvedSizes(s: Store, t: Store, p: Addr, nb: nat)
    requires Carved(s, t, p, nb)
    ensures p in s.h.chunks && nb <= s.h.chunks[p].size && p in t.h.chunks && p + nb in t.h.chunks
    ensures t.h.chunks[p] == Chunk(nb, Used) && t.h.chunks[p + nb] == Chunk(s.h.chunks[p].size - nb, Used)
  {
  }

  lemma MaySplit(s: Store, p: Addr, size: nat, nb: nat)
    requires p in s.h.chunks && s.h.chunks[p].size == size && nb % 8 == 0 && nb >= MINSIZE && nb + MINSIZE <= size
    ensures CanSplit(s.h.chunks, p, nb) && nb > 0 && p + nb + 8 >= 8
  {
  }

  lemma WholeSnug(s: Store, t: Store, p: Addr, size: nat, nb: nat, top: Addr, maxFast: nat, fastChunks: bool, binmap: seq<bv32>)
    requires Held(s, p, size, top, maxFast, fastChunks, binmap) && Restored(s, t, p) && size < nb + MINSIZE
    ensures Snug(t.h.chunks, p, nb)
  {
    hide *;
    HeldParts(s, p, size, top, maxFast, fastChunks, binmap);
    RestoredSize(s, t, p);
    SnugIntro(t.h.chunks, p, nb);
  }

  lemma RestoredSize(s: Store, t: Store, p: Addr)
    requires Restored(s, t, p)
    ensures p in s.h.chunks && p in t.h.chunks && t.h.chunks[p].size == s.h.chunks[p].size
  {
    hide Inv;
  }

  lemma SnugIntro(chunks: Chunks, p: Addr, nb: nat)
    requires p in chunks && chunks[p].size < nb + MINSIZE
    ensures Snug(chunks, p, nb)
  {
  }

  /** The part that is kept has exactly the size asked for. */
  lemma FrontSnug(s: Store, t: Store, u: Store, p: Addr, nb: nat)
    requires Carved(s, t, p, nb) && Freed(t, u, p + nb) && nb > 0
    ensures Snug(u.h.chunks, p, nb)
  {
    hide *;
    CarvedParts(s, t, p, nb);
    CarvedGrew(s, t, u, p, nb, p + nb, p);
    GrewParts(s.h.chunks, u.h.chunks, p);
    MinPositive();
    SnugIntro(u.h.chunks, p, nb);
  }

  lemma UsedChunk(c: Chunk)
    requires c.state == Used
    ensures c == Chunk(c.size, Used)
  {
  }

  lemma MinPositive()
    ensures MINSIZE > 0
  {
  }

  lemma CarveHeld(s: Store, p: Addr, size: nat, nb: nat, top: Addr, maxFast: nat, fastChunks: bool, binmap: seq<bv32>)
      returns (t: Store)
    requires Held(s, p, size, top, maxFast, fastChunks, binmap) && nb + MINSIZE <= size && nb % 8 == 0 && nb >= MINSIZE
    ensures Carved(s, t, p, nb) && Sound(t, top, maxFast, fastChunks, binmap) && t == Store(t.m, t.h, s.fastbins, false)
    ensures t.m == CarveWords(s.m, p, nb, size) && SameSpace(s.h.chunks, t.h.chunks)
    ensures p + nb in t.h.chunks && t.h.chunks[p + nb].state == Used
    ensures p in s.h.chunks && s.h.chunks[p].size == size && nb <= s.h.chunks[p].size
    ensures t.h == s.h.(chunks := Split(s.h.chunks, p, nb, Used, Used))
  {
    hide *;
    HeldParts(s, p, size, top, maxFast, fastChunks, binmap);
    MaySplit(s, p, size, nb);
    t := CarveStep(s, p, nb, size - nb);
    CarvedSound(s, t, p, size, nb, top, maxFast, fastChunks, binmap);
    CarvedParts(s, t, p, nb);
  }

  lemma CarvedDone(s: Store, t: Store, u: Store, p: Addr, nb: nat)
    requires Carved(s, t, p, nb) && Freed(t, u, p + nb) && nb > 0
    ensures Regranted(s, u, p, nb) && Snug(u.h.chunks, p, nb)
  {
    hide *;
    CarvedFront(s, t, u, p, nb);
    FrontSnug(s, t, u, p, nb);
  }

  /** What is not needed becomes a live chunk, which is freed. */
  method CutOff(a: Arena, newp: Addr, newsize: nat, nb: nat)
    requires Held(Store(a.words, a.h, a.fastbins, false), newp, newsize, a.top, a.maxFast, a.fastChunks, a.binmap)
    requires a.Accounted() && nb + MINSIZE <= newsize && nb % 8 == 0 && nb >= MINSIZE
    modifies a
    ensures a.Valid() && a.Accounted()
    ensures Regranted(Store(old(a.words), old(a.h), old(a.fastbins), false), Store(a.words, a.h, a.fastbins, false), newp, nb)
    ensures Snug(a.h.chunks, newp, nb)
    ensures CutBack(old(a.h), old(a.fastChunks), old(a.System()), newp, nb, a.h, a.fastChunks, a.System())
    ensures a.lastRemainder == old(a.lastRemainder)
  {
    hide *;
    ghost var s, pending, y := Store(a.words, a.h, a.fastbins, false), a.fastChunks, a.System();
    a.AccountedIs();
    a.SystemIs();
    ghost var t := CarveHeld(s, newp, newsize, nb, a.top, a.maxFast, a.fastChunks, a.binmap);
    BooksKept(s.h.chunks, t.h.chunks, a.sbrkedMem, a.lost, a.brk, a.mapFloor, a.steady);
    var remainder := newp + nb;
    a.words := CarveWords(a.words, newp, nb, newsize);
    a.h := t.h;
    a.ValidIs();
    a.AccountedIs();
    a.SystemIs();
    a.FREe(remainder + 8);
    CutBackRest(s.h, pending, y, newp, nb, t.h, a.h, a.fastChunks, a.System());
    MinPositive();
    CarvedDone(s, t, Store(a.words, a.h, a.fastbins, false), newp, nb);
  }

  /** The end of realloc(): what is not needed of the chunk in hand is cut off and freed. */
  method Finish(a: Arena, newp: Addr, newsize: nat, nb: nat)
    requires Held(Store(a.words, a.h, a.fastbins, false), newp, newsize, a.top, a.maxFast, a.fastChunks, a.binmap)
    requires a.Accounted() && nb <= newsize && nb % 8 == 0 && nb >= MINSIZE
    modifies a
    ensures a.Valid() && a.Accounted()
    ensures Regranted(Store(old(a.words), old(a.h), old(a.fastbins), false), Store(a.words, a.h, a.fastbins, false), newp, nb)
    ensures Snug(a.h.chunks, newp, nb)
    ensures CutBack(old(a.h), old(a.fastChunks), old(a.System()), newp, nb, a.h, a.fastChunks, a.System())
    ensures a.lastRemainder == old(a.lastRemainder)
  {
    hide *;
    ghost var s, pending, y := Store(a.words, a.h, a.fastbins, false), a.fastChunks, a.System();
    HeldParts(s, newp, newsize, a.top, a.maxFast, a.fastChunks, a.binmap);
    a.AccountedIs();
    a.SystemIs();
    var remainderSize := newsize - nb;
    if remainderSize < MINSIZE {
      ghost var t := WholeStep(s, newp, newsize);
      RestoredDone(s, t, newp, newsize, nb, a.top, a.maxFast, a.fastChunks, a.binmap);
      WholeSnug(s, t, newp, newsize, nb, a.top, a.maxFast, a.fastChunks, a.binmap);
      BooksKept(s.h.chunks, t.h.chunks, a.sbrkedMem, a.lost, a.brk, a.mapFloor, a.steady);
      a.words := WholeWords(a.words, newp, newsize);
      a.h := t.h;
      a.ValidIs();
      a.AccountedIs();
      a.SystemIs();
      CutBackNone(s.h, pending, y, newp, nb, a.h);
    } else {
      CutOff(a, newp, newsize, nb);
    }
  }
}
