/** memalign(): a block at a multiple of a power of two, cut out of a larger one. */
module DlAlign {
  import opened DlSizes
  import opened DlHeap
  import opened DlTags
  import opened DlSteps
  import opened DlMoves
  import opened DlRelease
  import opened DlSystem
  import opened DlBreak
  import opened DlMalloc
  import opened DlCarve

  // ----- the alignment -----

  predicate IsPower(n: nat) {
    n == 1 || (n > 0 && n % 2 == 0 && IsPower(n / 2))
  }

  /** The first of a, 2a, 4a, ... that is at least n. */
  function Doubled(a: nat, n: nat): nat
    requires a > 0
    decreases if a < n then n - a else 0
  {
    if a >= n then a else Doubled(2 * a, n)
  }

  /** The alignment that is used for a requested one above the usual. */
  function Rounded(alignment: nat): nat {
    Doubled(16, alignment)
  }

  lemma {:induction false} PowersApart(p: nat, q: nat)
    requires IsPower(p) && IsPower(q) && p < q
    ensures 2 * p <= q
    decreases q
  {
    if p > 1 { PowersApart(p / 2, q / 2); }
  }

  lemma {:induction false} DoubledIs(a: nat, n: nat, q: nat)
    requires IsPower(a) && IsPower(q) && q >= a && q >= n
    ensures IsPower(Doubled(a, n)) && n <= Doubled(a, n) <= q && Doubled(a, n) >= a
    decreases if a < n then n - a else 0
  {
    if a < n {
      PowersApart(a, q);
      assert IsPower(2 * a);
      DoubledIs(2 * a, n, q);
    }
  }

  lemma {:induction false} DoubledPower(a: nat, n: nat)
    requires IsPower(a) && a % 16 == 0
    ensures IsPower(Doubled(a, n)) && Doubled(a, n) >= n && Doubled(a, n) % 16 == 0 && Doubled(a, n) >= a
    decreases if a < n then n - a else 0
  {
    if a < n {
      TwiceSixteen(a);
      assert IsPower(2 * a);
      DoubledPower(2 * a, n);
    }
  }

  lemma Sixteens(k: nat)
    ensures (16 * k) % 16 == 0
  {
  }

  lemma Halved(a: nat)
    ensures 2 * a / 2 == a
  {
  }

  lemma TwiceSixteen(a: nat)
    requires a % 16 == 0
    ensures (2 * a) % 16 == 0 && (2 * a) % 2 == 0 && 2 * a / 2 == a
  {
    var k := a / 16;
    assert a == 16 * k;
    Sixteens(2 * k);
    assert 2 * a == 16 * (2 * k);
    EvenOdd(a);
    Halved(a);
  }

  /** The alignment used is the least power of two that is at least 16 and at least the
      requested one. */
  lemma RoundedIsLeast(alignment: nat, q: nat)
    ensures IsPower(Rounded(alignment)) && Rounded(alignment) >= alignment && Rounded(alignment) >= 16
    ensures Rounded(alignment) % 16 == 0
    ensures IsPower(q) && q >= 16 && q >= alignment ==> Rounded(alignment) <= q
    ensures IsPower(alignment) && alignment >= 16 ==> Rounded(alignment) == alignment
  {
    SixteenIsPower();
    DoubledPower(16, alignment);
    if IsPower(q) && q >= 16 && q >= alignment { DoubledIs(16, alignment, q); }
    if IsPower(alignment) && alignment >= 16 { DoubledIs(16, alignment, alignment); }
  }

  lemma SixteenIsPower()
    ensures IsPower(16)
  {
    assert IsPower(2) && IsPower(4) && IsPower(8);
  }

  /** What a machine word can hold. */
  const WORD: nat := 0x1_0000_0000

  /** a <<= 1. */
  function Shift(a: nat): nat {
    a * 2 % WORD
  }

  /** 16 after k shifts. */
  function Shifted(k: nat): nat {
    if k == 0 then 16 else Shift(Shifted(k - 1))
  }

  lemma {:induction false} ShiftedIs(k: nat)
    ensures Shifted(k) == 0 || (IsPower(Shifted(k)) && 16 <= Shifted(k) <= WORD / 2)
  {
    hide IsPower;
    SixteenIsPower();
    HalfIsPower();
    if k > 0 {
      ShiftedIs(k - 1);
      var a := Shifted(k - 1);
      if 0 < a < WORD / 2 {
        PowersApart(a, WORD / 2);
        TwicePower(a);
        assert Shift(a) == 2 * a;
      }
    }
  }

  lemma TwicePower(a: nat)
    requires IsPower(a)
    ensures IsPower(2 * a)
  {
    Halved(a);
    EvenOdd(a);
  }

  lemma SixteenTimes(a: nat)
    requires IsPower(a)
    ensures IsPower(16 * a)
  {
    hide IsPower;
    TwicePower(a);
    TwicePower(2 * a);
    TwicePower(4 * a);
    TwicePower(8 * a);
  }

  lemma HalfIsPower()
    ensures IsPower(WORD / 2)
  {
    hide IsPower;
    SixteenIsPower();
    SixteenTimes(0x10);
    SixteenTimes(0x100);
    SixteenTimes(0x1000);
    SixteenTimes(0x1_0000);
    SixteenTimes(0x10_0000);
    SixteenTimes(0x100_0000);
    TwicePower(0x1000_0000);
    TwicePower(0x2000_0000);
    TwicePower(0x4000_0000);
  }

  lemma {:induction false} Reaches(k: nat, alignment: nat) returns (j: nat)
    requires Shifted(k) > 0 && alignment <= WORD / 2
    ensures Shifted(j) >= alignment
    decreases WORD - Shifted(k)
  {
    j := k;
    if Shifted(k) < alignment {
      ShiftedIs(k);
      HalfIsPower();
      PowersApart(Shifted(k), WORD / 2);
      assert Shifted(k + 1) == 2 * Shifted(k);
      j := Reaches(k + 1, alignment);
    }
  }

  /** The loop of shifts comes to an end exactly for alignments up to half of what a word can
      hold; above, the shifted value becomes 0 and the loop runs for ever. */
  lemma LoopEnds(alignment: nat)
    requires 0 < alignment < WORD
    ensures (exists k :: Shifted(k) >= alignment) <==> alignment <= WORD / 2
  {
    if alignment <= WORD / 2 {
      var j := Reaches(0, alignment);
    } else {
      forall k ensures Shifted(k) < alignment { ShiftedIs(k); }
    }
  }

  /** The loop that rounds up an alignment that is no power of two; see `LoopEnds`. */
  method RoundAlignment(alignment0: nat) returns (alignment: nat)
    requires alignment0 <= WORD / 2
    ensures alignment == Rounded(alignment0)
  {
    hide IsPower, Doubled;
    RoundedIsLeast(alignment0, 16);
    alignment := alignment0;
    if alignment < MINSIZE {
      alignment := MINSIZE;
      SixteenIsPower();
    }
    if !IsPower(alignment) {
      var a := ALIGNMENT * 2;
      HalfIsPower();
      SixteenIsPower();
      while a < alignment
        invariant 0 < a <= WORD / 2 && IsPower(a) && Doubled(a, alignment) == Rounded(alignment)
        decreases if a < alignment then alignment - a else 0
      {
        PowersApart(a, WORD / 2);
        DoubledNext(a, alignment);
        a := Shift(a);
      }
      DoubledEnd(a, alignment);
      alignment := a;
    } else {
      RoundedIsLeast(alignment, alignment);
    }
  }

  lemma DoubledNext(a: nat, n: nat)
    requires 0 < a < n && IsPower(a)
    ensures Doubled(a, n) == Doubled(2 * a, n) && IsPower(2 * a)
  {
    Halved(a);
  }

  lemma DoubledEnd(a: nat, n: nat)
    requires a > 0 && a >= n
    ensures Doubled(a, n) == a
  {
  }

  // ----- the padding -----

  /** What is asked of malloc, before it is cut to a machine word. */
  function Padded(alignment: nat, bytes: nat): nat {
    RequestToSize(bytes) + Rounded(alignment) + MINSIZE
  }

  /** The padded request is enough for any position of the block exactly when it does not wrap
      around: then the chunk has room for a leader and the block at the next place but one, and
      otherwise it may be smaller than the block alone. */
  lemma PaddingFits(alignment: nat, bytes: nat)
    requires Rounded(alignment) <= WORD / 2 && bytes < REQUEST_LIMIT
    ensures RequestToSize(Padded(alignment, bytes) % WORD) >= RequestToSize(bytes) <==> Padded(alignment, bytes) < WORD
    ensures Padded(alignment, bytes) < WORD ==>
      RequestToSize(Padded(alignment, bytes) % WORD) >= RequestToSize(bytes) + Rounded(alignment) + MINSIZE + SIZE_SZ
  {
    RoundedIsLeast(alignment, 16);
    RequestFits(Padded(alignment, bytes) % WORD);
    RequestFits(bytes);
    if Padded(alignment, bytes) >= WORD {
      assert Padded(alignment, bytes) % WORD == Padded(alignment, bytes) - WORD;
    }
  }

  // ----- the place -----

  /** (m + alignment - 1) & -alignment. */
  function AlignUp(m: nat, alignment: nat): nat
    requires alignment > 0
  {
    (m + alignment - 1) / alignment * alignment
  }

  lemma AlignUpIs(m: nat, alignment: nat)
    requires alignment > 0 && m % alignment != 0
    ensures AlignUp(m, alignment) % alignment == 0 && m < AlignUp(m, alignment) < m + alignment
    ensures (AlignUp(m, alignment) + alignment) % alignment == 0
  {
    var k, r := m / alignment, m % alignment;
    assert m == alignment * k + r;
    var j := (m + alignment - 1) / alignment;
    assert j == k + 1 by {
      assert m + alignment - 1 == alignment * (k + 1) + (r - 1);
      Quotient(k + 1, r - 1, alignment);
    }
    assert AlignUp(m, alignment) == (k + 1) * alignment;
    Multiple(k + 1, alignment);
    Multiple(k + 2, alignment);
    assert (k + 2) * alignment == (k + 1) * alignment + alignment;
    assert (k + 1) * alignment == alignment * k + alignment;
  }

  lemma Quotient(k: nat, r: nat, n: nat)
    requires r < n
    ensures (n * k + r) / n == k
  {
    var q, rem := (n * k + r) / n, (n * k + r) % n;
    assert n * q + rem == n * k + r;
    assert n * (q - k) == r - rem;
    if q != k { FarMultiple(n, q - k); }
  }

  lemma FarMultiple(n: int, d: int)
    requires n >= 0 && d != 0
    ensures n * d >= n || n * d <= -n
  {
    if d > 0 { assert n * (d - 1) >= 0; } else { assert n * (-d - 1) >= 0; }
  }

  lemma Multiple(k: nat, n: nat)
    requires n > 0
    ensures (k * n) % n == 0
  {
    Quotient(k, 0, n);
    assert n * k == k * n;
  }

  /** A multiple of an alignment that is a multiple of 8 is one of 8. */
  lemma MultipleOfEight(m: nat, alignment: nat)
    requires alignment > 0 && alignment % 16 == 0 && m % alignment == 0
    ensures m % 8 == 0
  {
    var k, j := m / alignment, alignment / 16;
    assert m == alignment * k;
    assert m == 8 * (2 * j * k);
    Multiple(2 * j * k, 8);
  }

  /** A block may go where nothing lies before it, or enough for a chunk. */
  predicate FitPlace(m: nat, alignment: nat, k: nat)
    requires alignment > 0
  {
    k % alignment == 0 && (k == m || k >= m + MINSIZE)
  }

  /** The block goes to the first such place. */
  ghost predicate LeastPlace(m: nat, alignment: nat, k: nat) {
    alignment > 0 && FitPlace(m, alignment, k) && forall j: nat | FitPlace(m, alignment, j) :: k <= j
  }

  lemma PlaceHere(m: nat, alignment: nat)
    requires alignment > 0 && m % alignment == 0
    ensures LeastPlace(m, alignment, m)
  {
  }

  lemma PlaceBeyond(m: nat, alignment: nat, k: nat)
    requires alignment > 0 && m % alignment != 0
    requires k == if AlignUp(m, alignment) - m < MINSIZE then AlignUp(m, alignment) + alignment else AlignUp(m, alignment)
    requires alignment >= MINSIZE
    ensures LeastPlace(m, alignment, k)
  {
    AlignUpIs(m, alignment);
    var up := AlignUp(m, alignment);
    forall j: nat | FitPlace(m, alignment, j) ensures k <= j {
      NextMultiple(m, alignment, up, j);
      if up - m < MINSIZE { NextMultiple(up, alignment, up + alignment, j); }
    }
  }

  /** Between two neighbouring multiples there is none. */
  lemma NextMultiple(m: nat, n: nat, up: nat, j: nat)
    requires n > 0 && up % n == 0 && m < up <= m + n && j % n == 0 && j > m
    ensures j >= up
  {
    var a, b := up / n, j / n;
    assert up == n * a && j == n * b;
    if b < a { assert n * (a - b) >= n by { FarMultiple(n, a - b); } }
  }

  /** Where the block goes: at the next aligned place, or the one after it when the first
      leaves too small a leader.  The padding leaves room for either. */
  lemma PlaceIsGood(m: nat, alignment: nat, size: nat, nb: nat) returns (lead: nat)
    requires m >= 8 && m % 8 == 0 && alignment >= 16 && alignment % 16 == 0 && m % alignment != 0
    requires size % 8 == 0 && nb % 8 == 0 && nb >= 16 && size >= nb + alignment + 20
    ensures lead == (if AlignUp(m, alignment) - m < MINSIZE then AlignUp(m, alignment) + alignment - m else AlignUp(m, alignment) - m)
    ensures (m + lead) % alignment == 0 && lead % 8 == 0 && lead >= MINSIZE && lead + MINSIZE <= size && size - lead >= nb
    ensures (size - lead) % 8 == 0
  {
    hide *;
    AlignUpIs(m, alignment);
    SomeMin();
    var up := AlignUp(m, alignment);
    lead := if up - m < MINSIZE then up + alignment - m else up - m;
    MultipleOfEight(m + lead, alignment);
    LessEight(m + lead, m);
    LessEight(size, lead);
    EightSteps(lead);
  }

  lemma EightSteps(x: nat)
    requires x % 8 == 0 && x > 0
    ensures x >= 8
  {
  }

  // ----- the operation -----

  /** A live chunk is taken in hand and becomes two live chunks. */
  lemma CarveLive(t: Store, p: Addr, nb: nat, rest: nat, top: Addr, maxFast: nat, fastChunks: bool, binmap: seq<bv32>)
      returns (u: Store, v: Store)
    requires Sound(t, top, maxFast, fastChunks, binmap) && p in t.h.chunks && t.h.chunks[p] == Chunk(nb + rest, Used)
    requires nb % 8 == 0 && nb >= MINSIZE && rest >= MINSIZE
    ensures Freed(t, u, p) && Carved(u, v, p, nb) && v.m == CarveWords(t.m, p, nb, nb + rest) && SameSpace(t.h.chunks, v.h.chunks)
    ensures Sound(v, top, maxFast, fastChunks, binmap) && v == Store(v.m, v.h, t.fastbins, false)
    ensures p in u.h.chunks && u.h.chunks[p].size == nb + rest
    ensures p in v.h.chunks && v.h.chunks[p].state == Used && p + nb in v.h.chunks && v.h.chunks[p + nb].state == Used
    ensures v.h == t.h.(chunks := Split(t.h.chunks, p, nb, Used, Used))
  {
    hide *;
    u := Grasp(t, p, top, maxFast, fastChunks, binmap);
    GraspedParts(t, u, p);
    HeldParts(u, p, nb + rest, top, maxFast, fastChunks, binmap);
    MaySplit(u, p, nb + rest, nb);
    v := CarveStep(u, p, nb, rest);
    SplitLoose(t.h, p, nb);
    CarvedSound(u, v, p, nb + rest, nb, top, maxFast, fastChunks, binmap);
    CarvedParts(u, v, p, nb);
    SameSpaceThen(t.h.chunks, u.h.chunks, v.h.chunks);
  }

  /** The same of a chunk that has just been granted. */
  lemma CarveGranted(s: Store, t: Store, p: Addr, nb: nat, lead: nat, rest: nat, top: Addr, maxFast: nat, fastChunks: bool,
                     binmap: seq<bv32>) returns (u: Store, v: Store)
    requires Sound(t, top, maxFast, fastChunks, binmap) && Granted(s, t, p, nb) && p in t.h.chunks
    requires t.h.chunks[p].size == lead + rest && lead % 8 == 0 && lead >= MINSIZE && rest >= MINSIZE
    ensures Calm(s, u) && Carved(u, v, p, lead) && v.m == CarveWords(t.m, p, lead, lead + rest)
    ensures Sound(v, top, maxFast, fastChunks, binmap) && v == Store(v.m, v.h, t.fastbins, false)
    ensures SameSpace(t.h.chunks, v.h.chunks) && p in u.h.chunks && u.h.chunks[p].size == lead + rest
    ensures p in v.h.chunks && v.h.chunks[p].state == Used && p + lead in v.h.chunks && v.h.chunks[p + lead].state == Used
    ensures v.h == t.h.(chunks := Split(t.h.chunks, p, lead, Used, Used))
  {
    hide *;
    GrantedLive(s, t, p, nb);
    UsedChunk(t.h.chunks[p]);
    u, v := CarveLive(t, p, lead, rest, top, maxFast, fastChunks, binmap);
    GrantFree(s, t, u, p, nb);
  }

  lemma SplitLoose(h: Heap, p: Addr, nb: nat)
    requires p in h.chunks && nb <= h.chunks[p].size
    ensures var g := SetChunk(h, p, Loose);
            && p in g.chunks && nb <= g.chunks[p].size
            && g.(chunks := Split(g.chunks, p, nb, Used, Used)) == h.(chunks := Split(h.chunks, p, nb, Used, Used))
  {
    assert h.chunks[p := Chunk(h.chunks[p].size, Loose)][p := Chunk(nb, Used)] == h.chunks[p := Chunk(nb, Used)];
  }

  /** The heap after what lies before q in the chunk p has been given back. */
  ghost predicate LeaderGone(h: Heap, pending: bool, y: Sys, p: Addr, q: Addr, g: Heap, pending': bool, y': Sys) {
    if q == p then g == h && pending' == pending && y' == y
    else p in h.chunks && p <= q <= End(h.chunks, p)
         && GivenUp(h.(chunks := Split(h.chunks, p, q - p, Used, Used)), pending, y, p, g, pending', y')
  }

  /** The heap after what the chunk p does not need has been given back, if that is more than
      a chunk has to be. */
  ghost predicate TailGone(h: Heap, pending: bool, y: Sys, p: Addr, nb: nat, g: Heap, pending': bool, y': Sys) {
    && p in h.chunks
    && if h.chunks[p].size <= nb + MINSIZE then g == h && pending' == pending && y' == y
       else GivenUp(h.(chunks := Split(h.chunks, p, nb, Used, Used)), pending, y, p + nb, g, pending', y')
  }

  lemma LeaderGoneIntro(h: Heap, pending: bool, y: Sys, p: Addr, lead: nat, c: Heap, g: Heap, pending': bool, y': Sys)
    requires p in h.chunks && 0 < lead <= h.chunks[p].size && c == h.(chunks := Split(h.chunks, p, lead, Used, Used))
    requires GivenUp(c, pending, y, p, g, pending', y')
    ensures LeaderGone(h, pending, y, p, p + lead, g, pending', y')
  {
    hide GivenUp;
  }

  lemma TailGoneIntro(h: Heap, pending: bool, y: Sys, p: Addr, nb: nat, c: Heap, g: Heap, pending': bool, y': Sys)
    requires p in h.chunks && h.chunks[p].size > nb + MINSIZE && c == h.(chunks := Split(h.chunks, p, nb, Used, Used))
    requires GivenUp(c, pending, y, p + nb, g, pending', y')
    ensures TailGone(h, pending, y, p, nb, g, pending', y')
  {
    hide GivenUp;
  }

  lemma LeaderNone(h: Heap, pending: bool, y: Sys, p: Addr)
    ensures LeaderGone(h, pending, y, p, p, h, pending, y)
  {
  }

  lemma TailNone(h: Heap, pending: bool, y: Sys, p: Addr, nb: nat)
    requires p in h.chunks && h.chunks[p].size <= nb + MINSIZE
    ensures TailGone(h, pending, y, p, nb, h, pending, y)
  {
  }

  /** Both ends of the chunk p around the block of nb bytes at q have been given back. */
  ghost predicate BothGone(h: Heap, pending: bool, y: Sys, p: Addr, q: Addr, nb: nat, g: Heap, pending': bool, y': Sys) {
    exists u, between, z ::
      LeaderGone(h, pending, y, p, q, u, between, z) && TailGone(u, between, z, q, nb, g, pending', y')
  }

  lemma BothGoneIntro(h: Heap, pending: bool, y: Sys, p: Addr, q: Addr, nb: nat, u: Heap, between: bool, z: Sys,
                      g: Heap, pending': bool, y': Sys)
    requires LeaderGone(h, pending, y, p, q, u, between, z) && TailGone(u, between, z, q, nb, g, pending', y')
    ensures BothGone(h, pending, y, p, q, nb, g, pending', y')
  {
    hide LeaderGone, TailGone;
  }

  /** Where an aligned block ends up, and the heap that this leaves: malloc has picked a chunk
      for the padded request, the block lies at the first place in it that will do, and both
      ends have been given back. */
  ghost predicate AlignedIn(h: Heap, maxFast: nat, last: Addr, pool: Heap, big: nat, alignment: nat, nb: nat, mem: Addr,
                            g: Heap, pending': bool, y': Sys, last': Addr) {
    exists m, mid, pending, y ::
      AlignedFrom(h, maxFast, last, pool, big, alignment, nb, mem, g, pending', y', last', m, mid, pending, y)
  }

  ghost predicate AlignedFrom(h: Heap, maxFast: nat, last: Addr, pool: Heap, big: nat, alignment: nat, nb: nat, mem: Addr,
                              g: Heap, pending': bool, y': Sys, last': Addr, m: Addr, mid: Heap, pending: bool, y: Sys) {
    && m >= 8 && mem >= 8 && Picked(h, maxFast, last, pool, big, m - 8, mid, last') && LeastPlace(m, alignment, mem)
    && BothGone(mid, pending, y, m - 8, mem - 8, nb, g, pending', y')
  }

  lemma AlignedIntro(h: Heap, maxFast: nat, last: Addr, pool: Heap, big: nat, alignment: nat, nb: nat, mem: Addr,
                     g: Heap, pending': bool, y': Sys, last': Addr, m: Addr, mid: Heap, pending: bool, y: Sys)
    requires m >= 8 && mem >= 8 && Picked(h, maxFast, last, pool, big, m - 8, mid, last') && LeastPlace(m, alignment, mem)
    requires BothGone(mid, pending, y, m - 8, mem - 8, nb, g, pending', y')
    ensures AlignedIn(h, maxFast, last, pool, big, alignment, nb, mem, g, pending', y', last')
  {
    assert AlignedFrom(h, maxFast, last, pool, big, alignment, nb, mem, g, pending', y', last', m, mid, pending, y) by {
      hide Picked, LeastPlace, BothGone;
    }
    hide AlignedFrom;
  }

  /** The size words of both parts. */
  method StoreLeader(a: Arena, p: Addr, leadsize: nat, newsize: nat)
    requires leadsize > 0 && newsize > 0
    modifies a`words
    ensures a.words == CarveWords(old(a.words), p, leadsize, leadsize + newsize)
  {
    hide *;
    LeadWords(a.words, p, leadsize, newsize);
    var newp := p + leadsize;
    var m := Poke(a.words, newp + 4, newsize + 1);
    m := Poke(m, newp + newsize + 4, WithBit(Head(m, newp + newsize)));
    m := Poke(m, p + 4, SizeBit(Head(m, p), leadsize));
    a.words := m;
  }

  /** The block moves up to an aligned place, and the leader is freed. */
  method CutLeader(a: Arena, ghost s: Store, p: Addr, size: nat, leadsize: nat, nb: nat) returns (newp: Addr)
    requires a.Valid() && a.Accounted() && Granted(s, Store(a.words, a.h, a.fastbins, false), p, nb)
    requires p in a.h.chunks && a.h.chunks[p].size == size && leadsize % 8 == 0 && leadsize >= MINSIZE
    requires leadsize + MINSIZE <= size && size - leadsize >= nb
    modifies a
    ensures a.Valid() && a.Accounted() && newp == p + leadsize
    ensures Granted(s, Store(a.words, a.h, a.fastbins, false), newp, nb) && a.lastRemainder == old(a.lastRemainder)
    ensures LeaderGone(old(a.h), old(a.fastChunks), old(a.System()), p, newp, a.h, a.fastChunks, a.System())
  {
    hide *;
    ghost var t, pending, y := Store(a.words, a.h, a.fastbins, false), a.fastChunks, a.System();
    a.SystemIs();
    a.ValidIs();
    a.AccountedIs();
    SomeMin();
    var newsize := size - leadsize;
    ghost var u, v := CarveGranted(s, t, p, nb, leadsize, newsize, a.top, a.maxFast, a.fastChunks, a.binmap);
    BooksKept(t.h.chunks, v.h.chunks, a.sbrkedMem, a.lost, a.brk, a.mapFloor, a.steady);
    newp := p + leadsize;
    StoreLeader(a, p, leadsize, newsize);
    a.h := v.h;
    a.ValidIs();
    a.AccountedIs();
    a.SystemIs();
    a.FREe(p + 8);
    ghost var w := Store(a.words, a.h, a.fastbins, false);
    LeaderGoneIntro(t.h, pending, y, p, leadsize, v.h, a.h, a.fastChunks, a.System());
    BackDone(s, u, v, w, p, leadsize, newsize, nb);
  }

  lemma BackDone(s: Store, u: Store, v: Store, w: Store, p: Addr, lead: nat, rest: nat, nb: nat)
    requires Calm(s, u) && Carved(u, v, p, lead) && Freed(v, w, p) && lead > 0 && rest >= nb
    requires p in u.h.chunks && u.h.chunks[p].size == lead + rest
    ensures Granted(s, w, p + lead, nb)
  {
    hide *;
    CarvedBack(u, v, w, p, lead);
    RegrantedMore(s, u, w, p + lead, rest, nb);
  }

  lemma FrontDone(s: Store, u: Store, v: Store, w: Store, p: Addr, nb: nat)
    requires Calm(s, u) && Carved(u, v, p, nb) && Freed(v, w, p + nb) && nb > 0
    ensures Granted(s, w, p, nb) && Snug(w.h.chunks, p, nb)
  {
    hide *;
    CarvedDone(u, v, w, p, nb);
    RegrantedMore(s, u, w, p, nb, nb);
  }

  lemma GrantedLive(s: Store, t: Store, p: Addr, nb: nat)
    requires Granted(s, t, p, nb)
    ensures p in t.h.chunks && t.h.chunks[p].state == Used && t.h.chunks[p].size >= nb
  {
  }

  lemma RegrantedMore(s: Store, u: Store, w: Store, p: Addr, size: nat, nb: nat)
    requires Calm(s, u) && Regranted(u, w, p, size) && size >= nb
    ensures Granted(s, w, p, nb)
  {
    CalmGranted(s, u, w, p, nb);
  }

  /** The order of the stores does not matter. */
  lemma LeadWords(m: Words, p: Addr, lead: nat, rest: nat)
    requires lead > 0 && rest > 0
    ensures var n := Poke(m, p + lead + 4, rest + 1);
            var o := Poke(n, p + lead + rest + 4, WithBit(Head(n, p + lead + rest)));
            Poke(o, p + 4, SizeBit(Head(o, p), lead)) == CarveWords(m, p, lead, lead + rest)
  {
  }

  /** Both ends have been given back, but for a rest that is not larger than a chunk has to
      be: memalign, unlike malloc and realloc, keeps a rest of exactly that size. */
  ghost predicate Trim(chunks: Chunks, p: Addr, nb: nat) {
    p in chunks && chunks[p].size <= nb + MINSIZE
  }

  lemma SnugTrim(chunks: Chunks, p: Addr, nb: nat)
    requires Snug(chunks, p, nb)
    ensures Trim(chunks, p, nb)
  {
  }

  lemma TrimIntro(chunks: Chunks, p: Addr, nb: nat)
    requires p in chunks && chunks[p].size <= nb + MINSIZE
    ensures Trim(chunks, p, nb)
  {
  }

  /** The end of the block that is not needed is freed. */
  method CutTail(a: Arena, ghost s: Store, p: Addr, size: nat, nb: nat)
    requires a.Valid() && a.Accounted() && Granted(s, Store(a.words, a.h, a.fastbins, false), p, nb)
    requires p in a.h.chunks && a.h.chunks[p].size == size && nb % 8 == 0 && nb >= MINSIZE && nb + MINSIZE < size
    modifies a
    ensures a.Valid() && a.Accounted() && a.lastRemainder == old(a.lastRemainder)
    ensures Granted(s, Store(a.words, a.h, a.fastbins, false), p, nb) && Snug(a.h.chunks, p, nb)
    ensures TailGone(old(a.h), old(a.fastChunks), old(a.System()), p, nb, a.h, a.fastChunks, a.System())
  {
    hide *;
    ghost var t, pending, y := Store(a.words, a.h, a.fastbins, false), a.fastChunks, a.System();
    a.SystemIs();
    a.ValidIs();
    a.AccountedIs();
    SomeMin();
    GrantedLive(s, t, p, nb);
    var remainderSize := size - nb;
    ghost var u, v := CarveGranted(s, t, p, nb, nb, remainderSize, a.top, a.maxFast, a.fastChunks, a.binmap);
    BooksKept(t.h.chunks, v.h.chunks, a.sbrkedMem, a.lost, a.brk, a.mapFloor, a.steady);
    var remainder := p + nb;
    BitIsSet(t, a.top, a.maxFast, a.fastChunks, a.binmap, p, size);
    TailWords(t.m, p, nb, remainderSize);
    var m := Poke(a.words, remainder + 4, remainderSize + 1);
    m := Poke(m, p + 4, SizeBit(Head(m, p), nb));
    a.words, a.h := m, v.h;
    a.ValidIs();
    a.AccountedIs();
    a.SystemIs();
    a.FREe(remainder + 8);
    ghost var w := Store(a.words, a.h, a.fastbins, false);
    TailGoneIntro(t.h, pending, y, p, nb, v.h, a.h, a.fastChunks, a.System());
    FrontDone(s, u, v, w, p, nb);
  }

  /** The chunk behind a live chunk knows that it is in use. */
  lemma BitIsSet(t: Store, top: Addr, maxFast: nat, fastChunks: bool, binmap: seq<bv32>, p: Addr, size: nat)
    requires Sound(t, top, maxFast, fastChunks, binmap) && p in t.h.chunks && t.h.chunks[p] == Chunk(size, Used)
    ensures PrevInuse(Head(t.m, p + size))
  {
    hide *;
    SoundParts(t, top, maxFast, fastChunks, binmap);
    InvParts(t);
    TagOf(t.m, t.h.chunks, t.h.starts, p);
    UsedBit(t.m, p, size);
  }

  lemma UsedBit(m: Words, p: Addr, size: nat)
    requires Tagged(m, p, Chunk(size, Used))
    ensures PrevInuse(Head(m, p + size))
  {
    hide PrevInuse, HeadIs;
  }

  lemma TailWords(m: Words, p: Addr, nb: nat, rest: nat)
    requires nb > 0 && rest > 0 && PrevInuse(Head(m, p + nb + rest))
    ensures var n := Poke(m, p + nb + 4, rest + 1);
            Poke(n, p + 4, SizeBit(Head(n, p), nb)) == CarveWords(m, p, nb, nb + rest)
  {
    hide PrevInuse;
  }

  /** What memalign asks of malloc. */
  function Requested(alignment: nat, bytes: nat): nat {
    if alignment <= ALIGNMENT then bytes else Padded(alignment, bytes)
  }

  /** The padded request can be passed on as it is. */
  predicate Unwrapped(alignment: nat, bytes: nat) {
    bytes >= REQUEST_LIMIT || Requested(alignment, bytes) < WORD
  }

  /** The argument of malloc: the padded request as a machine word. */
  function Passed(alignment: nat, bytes: nat): nat {
    Requested(alignment, bytes) % WORD
  }

  lemma PassedWhole(alignment: nat, bytes: nat)
    requires Unwrapped(alignment, bytes) && bytes < REQUEST_LIMIT
    ensures Passed(alignment, bytes) == Requested(alignment, bytes)
  {
    hide Requested;
  }

  /** What malloc has granted is not even large enough for the request without padding. */
  ghost predicate Stunted(s: Store, t: Store, p: Addr, alignment: nat, bytes: nat) {
    && Granted(s, t, p, RequestToSize(Passed(alignment, bytes)))
    && p in t.h.chunks && t.h.chunks[p].size < RequestToSize(bytes)
  }

  /** And it is off the alignment, so that the code goes on to cut a leader out of it. */
  ghost predicate Stray(s: Store, t: Store, p: Addr, alignment: nat, bytes: nat) {
    Stunted(s, t, p, alignment, bytes) && Rounded(alignment) > 0 && (p + 8) % Rounded(alignment) != 0
  }

  lemma StuntedIntro(s: Store, t: Store, p: Addr, alignment: nat, bytes: nat)
    requires Granted(s, t, p, RequestToSize(Passed(alignment, bytes)))
    requires p in t.h.chunks && t.h.chunks[p].size < RequestToSize(bytes)
    ensures Stunted(s, t, p, alignment, bytes)
  {
  }

  lemma StrayIntro(s: Store, t: Store, p: Addr, alignment: nat, bytes: nat)
    requires Stunted(s, t, p, alignment, bytes) && Rounded(alignment) > 0 && (p + 8) % Rounded(alignment) != 0
    ensures Stray(s, t, p, alignment, bytes)
  {
  }

  /** memalign().  A block that is handed out lies at a multiple of the alignment, and whether
      one is handed out is up to malloc, which is asked for the padded request as a machine
      word.  When that does not wrap around, the block holds the request, overlaps no other,
      and has both ends given back.  When it does, the block is too small, or the leader is
      carved out of memory that is not the block's: `astray` says that this point is reached,
      and the run is not followed further. */
  method MEMALIGn(a: Arena, alignment0: nat, bytes: nat) returns (mem: Addr, ghost pool: Heap, astray: bool)
    requires (a.Valid() || a.Blank()) && a.Accounted() && alignment0 <= WORD / 2
    modifies a
    ensures a.Jammed() || ((a.Valid() || a.Blank()) && a.Accounted())
    ensures old(a.Valid()) || mem != 0 || astray ==> a.Jammed() || a.Valid()
    ensures a.tidy ==> !a.Jammed()
    ensures if bytes >= REQUEST_LIMIT || Passed(alignment0, bytes) >= REQUEST_LIMIT then mem == 0 && !astray && unchanged(a)
            else Outcome(old(a.h), old(a.System()), old(a.contiguous), pool, RequestToSize(Passed(alignment0, bytes)),
                         mem != 0 || astray, a.Jammed())
    ensures mem == 0 && !astray ==>
      Calm(Store(old(a.words), old(a.h), old(a.fastbins), false), Store(a.words, a.h, a.fastbins, false))
    ensures Unwrapped(alignment0, bytes) ==> !astray
    ensures Unwrapped(alignment0, bytes) && mem != 0 ==>
      Allotted(Store(old(a.words), old(a.h), old(a.fastbins), false), Store(a.words, a.h, a.fastbins, false), mem, bytes)
    ensures Unwrapped(alignment0, bytes) && mem != 0 ==> Trim(a.h.chunks, mem - 8, RequestToSize(bytes))
    ensures mem != 0 && alignment0 > ALIGNMENT ==> Rounded(alignment0) > 0 && mem % Rounded(alignment0) == 0
    ensures mem != 0 ==>
      if alignment0 > ALIGNMENT && Unwrapped(alignment0, bytes) then
        AlignedIn(old(a.h), old(a.maxFast), old(a.lastRemainder), pool, RequestToSize(Requested(alignment0, bytes)),
                  Rounded(alignment0), RequestToSize(bytes), mem, a.h, a.fastChunks, a.System(), a.lastRemainder)
      else mem >= 8 && Picked(old(a.h), old(a.maxFast), old(a.lastRemainder), pool, RequestToSize(Passed(alignment0, bytes)),
                              mem - 8, a.h, a.lastRemainder)
    ensures !Unwrapped(alignment0, bytes) && mem != 0 ==>
      mem >= 8 && Stunted(Store(old(a.words), old(a.h), old(a.fastbins), false), Store(a.words, a.h, a.fastbins, false),
                          mem - 8, alignment0, bytes)
    ensures astray ==>
      exists p :: Stray(Store(old(a.words), old(a.h), old(a.fastbins), false), Store(a.words, a.h, a.fastbins, false),
                        p, alignment0, bytes)
  {
    hide *;
    ghost var s, y, c := Store(a.words, a.h, a.fastbins, false), a.System(), a.contiguous;
    ghost var fast, last := a.maxFast, a.lastRemainder;
    pool, astray := a.h, false;
    CalmSame(s);
    a.StandsStraight();
    a.StraightStart();
    RequestedIs(alignment0, bytes);
    if alignment0 <= ALIGNMENT {
      mem, pool := a.MALLOc(bytes);
      if mem != 0 {
        AllottedParts(s, Store(a.words, a.h, a.fastbins, false), mem, bytes);
        SnugTrim(a.h.chunks, mem - 8, RequestToSize(bytes));
      }
      return;
    }
    RoundedIsLeast(alignment0, 16);
    var alignment := RoundAlignment(alignment0);
    if bytes >= REQUEST_LIMIT {
      return 0, pool, false;
    }
    var nb := RequestToSize(bytes);
    RequestFits(bytes);
    RequestFits(nb + alignment + MINSIZE);
    SomeMin();
    EightFour();
    RoundedHalf(alignment0);
    WrapIs(nb, alignment, bytes);
    var m: Addr;
    m, pool := a.MALLOc((nb + alignment + MINSIZE) % WORD);
    if m == 0 {
      return 0, pool, false;
    }
    ghost var t := Store(a.words, a.h, a.fastbins, false);
    AllottedParts(s, t, m, (nb + alignment + MINSIZE) % WORD);
    if nb + alignment + MINSIZE >= WORD {
      SnugIs(a.h.chunks, m - 8, RequestToSize((nb + alignment + MINSIZE) % WORD));
      StuntedIntro(s, t, m - 8, alignment0, bytes);
      if m % alignment != 0 {
        StrayIntro(s, t, m - 8, alignment0, bytes);
        return 0, pool, true;
      }
      return m, pool, false;
    }
    OutcomeGot(s.h, y, c, pool, RequestToSize(nb + alignment + MINSIZE), a.Jammed());
    GrantedLess(s, t, m - 8, RequestToSize(nb + alignment + MINSIZE), nb + alignment + MINSIZE + SIZE_SZ);
    ghost var pending, z := a.fastChunks, a.System();
    var p := Position(a, s, m, alignment, nb);
    AlignedIntro(s.h, fast, last, pool, RequestToSize(nb + alignment + MINSIZE), alignment, nb, p + 8,
                 a.h, a.fastChunks, a.System(), a.lastRemainder, m, t.h, pending, z);
    AllottedNow(a, s, p, bytes);
    mem := p + 8;
  }

  lemma AllottedNow(a: Arena, s: Store, p: Addr, bytes: nat)
    requires a.Valid() && Granted(s, Store(a.words, a.h, a.fastbins, false), p, RequestToSize(bytes))
    ensures Allotted(s, Store(a.words, a.h, a.fastbins, false), p + 8, bytes) && !a.Jammed()
  {
    hide *;
    a.ValidIs();
    a.StandsStraight();
    var u := Store(a.words, a.h, a.fastbins, false);
    SoundParts(u, a.top, a.maxFast, a.fastChunks, a.binmap);
    AllottedIntro(s, u, p, bytes);
  }

  /** With the largest alignment and a request of nearly half of what a word can hold, malloc
      is asked for 8 bytes, and the code goes on to cut a leader out of the smallest chunk. */
  method Wraps(m: Words) returns (a: Arena, ghost s: Store)
    requires forall w: int | 0 <= w < LOW :: m[w] == 0
    ensures fresh(a) && a.Valid() && s.m == m && s.h.chunks == map[]
    ensures exists p :: Stray(s, Store(a.words, a.h, a.fastbins, false), p, 0x8000_0000, 0x7FFF_FFF0)
  {
    hide *;
    LowIs();
    WrapsTo();
    ghost var y := Sys(LOW, 0x1000_0000, [Grant(0, 0)]);
    ScriptIs(y);
    a := new Arena(m, LOW, 0x1000_0000, [Grant(0, 0)]);
    BlankEmpty(a);
    s := Store(a.words, a.h, a.fastbins, false);
    var mem, pool, astray := MEMALIGn(a, 0x8000_0000, 0x7FFF_FFF0);
    FirstServed(s.h, y, pool, mem != 0 || astray, a.Jammed());
    if mem != 0 {
      StuntedAt(s, Store(a.words, a.h, a.fastbins, false), mem - 8, 0x8000_0000, 0x7FFF_FFF0);
      BelowHalf(a, mem);
      NoMultiple(mem);
    }
  }

  lemma WrapsTo()
    ensures 0x8000_0000 <= WORD / 2 && ALIGNMENT < 0x8000_0000 && 0x7FFF_FFF0 < REQUEST_LIMIT
    ensures Rounded(0x8000_0000) == 0x8000_0000 && !Unwrapped(0x8000_0000, 0x7FFF_FFF0)
    ensures Passed(0x8000_0000, 0x7FFF_FFF0) == 8 < REQUEST_LIMIT && RequestToSize(8) == 16
  {
    hide Rounded, IsPower;
    HalfIsPower();
    RoundedIsLeast(0x8000_0000, 0x8000_0000);
  }

  lemma ScriptIs(y: Sys)
    requires y == Sys(LOW, 0x1000_0000, [Grant(0, 0)])
    ensures Even(y) && Tidy(y) && LOW % 4 == 0 && LOW <= 0x1000_0000
  {
  }

  /** The first request, of the smallest chunk, is served. */
  lemma FirstServed(h: Heap, y: Sys, pool: Heap, got: bool, jammed: bool)
    requires h.chunks == map[] && Outcome(h, y, true, pool, 16, got, jammed)
    requires y == Sys(LOW, 0x1000_0000, [Grant(0, 0)])
    ensures got
  {
    hide *;
    OutcomeGround(h, y, true, pool, 16, got, jammed);
    EmptyPool(h, pool, 16);
    ScriptIs(y);
    NothingCompact(h.chunks, y.brk);
    SteadyOutcome(h, y, pool, 16, got, jammed);
    OnePage();
  }

  lemma NothingCompact(chunks: Chunks, edge: Addr)
    requires chunks == map[]
    ensures Compact(chunks, edge)
  {
  }

  lemma OnePage()
    ensures LOW + Wanted(16, 0, true) <= 0x1000_0000
  {
  }

  lemma StuntedAt(s: Store, t: Store, p: Addr, alignment: nat, bytes: nat)
    requires Stunted(s, t, p, alignment, bytes)
    ensures p in t.h.chunks
  {
    hide Granted;
  }

  /** With a system that continues its memory, all of it lies in the lower half. */
  lemma BelowHalf(a: Arena, mem: Addr)
    requires a.Valid() && a.Accounted() && a.steady && mem >= 8 && mem - 8 in a.h.chunks
    ensures mem < WORD / 2
  {
    hide *;
    ghost var s := Store(a.words, a.h, a.fastbins, false);
    a.ValidIs();
    SoundParts(s, a.top, a.maxFast, a.fastChunks, a.binmap);
    InvParts(s);
    ShapeOf(a.h.chunks, mem - 8);
    a.AccountedIs();
    BooksParts(a.h.chunks, a.sbrkedMem, a.lost, a.brk, a.mapFloor, a.steady);
    OrderlyParts(a.steady, a.tidy, a.contiguous, Sys(a.brk, a.mapFloor, a.replies));
    LowerHalf(a.h.chunks, mem, Sys(a.brk, a.mapFloor, a.replies));
  }

  lemma LowerHalf(chunks: Chunks, mem: Addr, y: Sys)
    requires Compact(chunks, y.brk) && Even(y) && y.brk <= y.floor && mem >= 8 && mem - 8 in chunks && chunks[mem - 8].size > 8
    ensures mem < WORD / 2
  {
    assert InChunk(chunks, mem);
  }

  lemma NoMultiple(mem: nat)
    requires 0 < mem < WORD / 2
    ensures mem % 0x8000_0000 != 0
  {
  }

  lemma RoundedHalf(alignment: nat)
    requires alignment <= WORD / 2
    ensures Rounded(alignment) <= WORD / 2
  {
    HalfIsPower();
    RoundedIsLeast(alignment, WORD / 2);
  }

  lemma SnugIs(chunks: Chunks, p: Addr, nb: nat)
    requires Snug(chunks, p, nb)
    ensures p in chunks && chunks[p].size < nb + MINSIZE
  {
  }

  /** The padded request as a machine word: when it has wrapped around, not even a chunk with
      slack holds the request. */
  lemma WrapIs(nb: nat, alignment: nat, bytes: nat)
    requires nb == RequestToSize(bytes) && bytes < REQUEST_LIMIT && alignment <= WORD / 2
    ensures nb + alignment + MINSIZE < WORD ==> (nb + alignment + MINSIZE) % WORD == nb + alignment + MINSIZE
    ensures nb + alignment + MINSIZE >= WORD ==> RequestToSize((nb + alignment + MINSIZE) % WORD) + MINSIZE <= nb
    ensures (nb + alignment + MINSIZE) % WORD < REQUEST_LIMIT || nb + alignment + MINSIZE < WORD
  {
    RequestFits(bytes);
    var x := nb + alignment + MINSIZE;
    if x >= WORD {
      assert x % WORD == x - WORD;
      RequestFits(x - WORD);
    }
  }

  lemma RequestedIs(alignment: nat, bytes: nat)
    ensures Requested(alignment, bytes)
         == if alignment <= ALIGNMENT then bytes else RequestToSize(bytes) + Rounded(alignment) + MINSIZE
    ensures Unwrapped(alignment, bytes) <==> bytes >= REQUEST_LIMIT || Requested(alignment, bytes) < WORD
    ensures Passed(alignment, bytes) == Requested(alignment, bytes) % WORD
    ensures bytes < REQUEST_LIMIT ==> bytes % WORD == bytes
    ensures REQUEST_LIMIT < WORD
  {
    hide RequestToSize, Rounded;
  }

  lemma EightFour()
    ensures ALIGNMENT == 8 && SIZE_SZ == 4
  {
  }

  lemma GrantedLess(s: Store, t: Store, p: Addr, big: nat, nb: nat)
    requires Granted(s, t, p, big) && nb <= big
    ensures Granted(s, t, p, nb)
  {
  }

  /** Gives back both ends of the large block. */
  method Position(a: Arena, ghost s: Store, m: Addr, alignment: nat, nb: nat) returns (p: Addr)
    requires a.Valid() && a.Accounted() && m > 8 && m % 8 == 0 && alignment >= 16 && alignment % 16 == 0
    requires nb % 8 == 0 && nb >= MINSIZE
    requires Granted(s, Store(a.words, a.h, a.fastbins, false), m - 8, nb + alignment + MINSIZE + SIZE_SZ)
    modifies a
    ensures a.Valid() && a.Accounted() && (p + 8) % alignment == 0
    ensures Granted(s, Store(a.words, a.h, a.fastbins, false), p, nb) && Trim(a.h.chunks, p, nb)
    ensures LeastPlace(m, alignment, p + 8) && a.lastRemainder == old(a.lastRemainder)
    ensures BothGone(old(a.h), old(a.fastChunks), old(a.System()), m - 8, p, nb, a.h, a.fastChunks, a.System())
  {
    hide *;
    p := m - 8;
    ghost var g, pending, y := a.h, a.fastChunks, a.System();
    LeaderNone(g, pending, y, p);
    EightFour();
    SomeMin();
    GrantedLess(s, Store(a.words, a.h, a.fastbins, false), p, nb + alignment + MINSIZE + SIZE_SZ, nb);
    GrantedLive(s, Store(a.words, a.h, a.fastbins, false), p, nb + alignment + MINSIZE + SIZE_SZ);
    var size := LiveSize(a, p);
    if m % alignment != 0 {
      ghost var lead := PlaceIsGood(m, alignment, size, nb);
      AlignUpIs(m, alignment);
      var brk := AlignUp(m, alignment) - 8;
      if brk - p < MINSIZE {
        brk := brk + alignment;
      }
      var leadsize := brk - p;
      PlaceBeyond(m, alignment, brk + 8);
      p := CutLeader(a, s, p, size, leadsize, nb);
      GrantedLive(s, Store(a.words, a.h, a.fastbins, false), p, nb);
      size := LiveSize(a, p);
    } else {
      PlaceHere(m, alignment);
    }
    ghost var u, between, z := a.h, a.fastChunks, a.System();
    if size > nb + MINSIZE {
      CutTail(a, s, p, size, nb);
      SnugTrim(a.h.chunks, p, nb);
    } else {
      TrimIntro(a.h.chunks, p, nb);
      TailNone(u, between, z, p, nb);
    }
    BothGoneIntro(g, pending, y, m - 8, p, nb, u, between, z, a.h, a.fastChunks, a.System());
  }

  /** chunksize of a live chunk. */
  method LiveSize(a: Arena, p: Addr) returns (size: nat)
    requires a.Valid() && p in a.h.chunks && a.h.chunks[p].state == Used
    ensures size == a.h.chunks[p].size && size % 8 == 0
  {
    hide *;
    ghost var t := Store(a.words, a.h, a.fastbins, false);
    a.ValidIs();
    SoundParts(t, a.top, a.maxFast, a.fastChunks, a.binmap);
    InvParts(t);
    TagOf(t.m, t.h.chunks, t.h.starts, p);
    UsedIs(t.m, p, t.h.chunks[p]);
    FastSize(t, p, 0);
    ShapeOf(t.h.chunks, p);
    size := SizeOf(Head(a.words, p));
  }
}
