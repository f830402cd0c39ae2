/** A client of the allocator: blocks of words that only the client changes. */
module DlClient {
  import opened DlSizes
  import opened DlHeap
  import opened DlTags
  import opened DlSteps
  import opened DlMoves
  import opened DlSystem
  import opened DlBreak
  import opened DlSpace
  import opened DlMalloc
  import opened DlRealloc
  import opened DlAlign

  /** What the client knows: for each block it holds, by address, the words it should hold. */
  type Blocks = map<Addr, seq<int>>

  /** The calls of a client, and its stores into its own blocks.  A call on an address that
      is not the client's is left out. */
  datatype Op =
    | Allocate(bytes: nat)
    | AllocateAligned(alignment: nat, bytes: nat)
    | Release(mem: Addr)
    | Resize(mem: Addr, bytes: nat)
    | Put(mem: Addr, i: nat, v: int)

  // ----- what an operation means to the client -----

  /** The allocator and the system as an operation finds them. */
  datatype Scene = Scene(h: Heap, system: Sys, contiguous: bool)

  /** Nothing fits, even after everything has been merged, and what the system deals out is
      too little. */
  ghost predicate Starved(sc: Scene, nb: nat) {
    exists pool :: Outcome(sc.h, sc.system, sc.contiguous, pool, nb, false, false)
  }

  ghost predicate NewBlock(bs: Blocks, cs: Blocks, r: Addr, bytes: nat) {
    r != 0 && r % 8 == 0 && r !in bs && r in cs && cs == bs[r := cs[r]] && |cs[r]| == bytes / 4
  }

  /** As much of the old contents as fits. */
  ghost predicate Carried(data: seq<int>, more: seq<int>, n: nat) {
    |more| == n && forall i | 0 <= i < n && i < |data| :: more[i] == data[i]
  }

  /** Sizes for which an allocation may fail. */
  ghost predicate MayFail(sc: Scene, bytes: nat) {
    bytes >= REQUEST_LIMIT || Starved(sc, RequestToSize(bytes))
  }

  /** A call of memalign that comes back with what it promises. */
  predicate Proper(alignment: nat, bytes: nat) {
    alignment <= WORD / 2 && Unwrapped(alignment, bytes)
  }

  /** One operation with result r.  An allocation fails only if the request is out of range or
      the system does not give enough, a shrinking only for the first reason, and a failure
      changes nothing; new words may hold anything; no operation changes a block that it is not about. */
  ghost predicate Meaning(op: Op, r: Addr, bs: Blocks, cs: Blocks, sc: Scene) {
    match op
    case Allocate(bytes) => if r == 0 then cs == bs && MayFail(sc, bytes) else NewBlock(bs, cs, r, bytes)
    case AllocateAligned(alignment, bytes) =>
      if r == 0 then
        cs == bs && (Proper(alignment, bytes) ==> bytes >= REQUEST_LIMIT || MayFail(sc, Requested(alignment, bytes)))
      else NewBlock(bs, cs, r, bytes) && (alignment > ALIGNMENT ==> Rounded(alignment) > 0 && r % Rounded(alignment) == 0)
    case Release(mem) => if mem in bs then cs == bs - {mem} else cs == bs
    case Resize(mem, bytes) =>
      if mem !in bs then cs == bs
      else if r == 0 then
        cs == bs && (bytes >= REQUEST_LIMIT || (bytes > 4 * |bs[mem]| && MayFail(sc, RequestToSize(bytes) - 7)))
      else (r == mem || r !in bs) && r in cs && cs == (bs - {mem})[r := cs[r]] && Carried(bs[mem], cs[r], bytes / 4)
    case Put(mem, i, v) =>
      if mem in bs && i < |bs[mem]| then cs == bs[mem := bs[mem][i := v]] else cs == bs
  }

  /** The live chunks are those of the client's blocks. */
  ghost predicate Mirrors(h: Heap, bs: Blocks) {
    && (forall mem | mem in bs :: mem >= 8 && mem - 8 in h.chunks && h.chunks[mem - 8].state == Used)
    && (forall p | p in h.chunks && h.chunks[p].state == Used :: p + 8 in bs)
  }

  /** A run: the results of the operations, and before and after each the blocks and the
      scene. */
  ghost predicate Runs(ops: seq<Op>, results: seq<Addr>, states: seq<Blocks>, scenes: seq<Scene>) {
    && |results| <= |ops| && |states| == |scenes| == |results| + 1 && states[0] == map[]
    && (forall j | 0 <= j <= |results| :: Mirrors(scenes[j].h, states[j]))
    && forall j | 0 <= j < |results| :: Meaning(ops[j], results[j], states[j], states[j + 1], scenes[j])
  }

  // ----- what the memory must hold -----

  ghost predicate Holds(s: Store, mem: Addr, data: seq<int>) {
    && mem > 8 && mem % 8 == 0 && mem - 8 in s.h.chunks && s.h.chunks[mem - 8].state == Used
    && 4 * |data| + 4 <= s.h.chunks[mem - 8].size
    && forall i: nat | i < |data| :: Word(s.m, mem, i) == data[i]
  }

  /** Every block is live and holds its words, and nothing else is live. */
  ghost predicate Intact(s: Store, bs: Blocks) {
    && (forall mem | mem in bs :: Holds(s, mem, bs[mem]))
    && (forall p | p in s.h.chunks && s.h.chunks[p].state == Used :: p + 8 in bs)
  }

  lemma IntactStart(s: Store)
    requires s.h.chunks == map[]
    ensures Intact(s, map[])
  {
  }

  /** A block whose chunk and words are as they were. */
  lemma HoldsKept(s: Store, t: Store, mem: Addr, data: seq<int>)
    requires Holds(s, mem, data) && mem - 8 in t.h.chunks && t.h.chunks[mem - 8] == s.h.chunks[mem - 8]
    requires forall w: int {:trigger t.m[w]} | mem <= w <= mem - 8 + s.h.chunks[mem - 8].size :: t.m[w] == s.m[w]
    ensures Holds(t, mem, data)
  {
    forall i: nat | i < |data| ensures Word(t.m, mem, i) == data[i] {
      assert Word(s.m, mem, i) == data[i];
    }
  }

  lemma HoldsParts(s: Store, mem: Addr, data: seq<int>)
    requires Holds(s, mem, data)
    ensures mem > 8 && mem % 8 == 0 && mem - 8 in s.h.chunks && s.h.chunks[mem - 8].state == Used
    ensures 4 * |data| + 4 <= s.h.chunks[mem - 8].size
  {
  }

  lemma PayloadKept(s: Store, t: Store, p: Addr)
    requires Preserved(s.h.chunks, s.m, t.m) && p in s.h.chunks && s.h.chunks[p].state == Used
    ensures forall w: int {:trigger t.m[w]} | p + 8 <= w <= p + s.h.chunks[p].size :: t.m[w] == s.m[w]
  {
    forall w: int {:trigger t.m[w]} | p + 8 <= w <= p + s.h.chunks[p].size ensures t.m[w] == s.m[w] {
      assert Payload(s.h.chunks, p, w);
    }
  }

  lemma IntactCalm(s: Store, t: Store, bs: Blocks)
    requires Intact(s, bs) && Calm(s, t)
    ensures Intact(t, bs)
  {
    forall mem | mem in bs ensures Holds(t, mem, bs[mem]) {
      HoldsParts(s, mem, bs[mem]);
      PayloadKept(s, t, mem - 8);
      HoldsKept(s, t, mem, bs[mem]);
    }
    hide Holds, Preserved;
  }

  /** The words of a block as memory has them. */
  function ReadWords(m: Words, mem: Addr, n: nat): (r: seq<int>)
    ensures |r| == n && forall i: nat | i < n :: r[i] == Word(m, mem, i)
  {
    if n == 0 then [] else ReadWords(m, mem, n - 1) + [Word(m, mem, n - 1)]
  }

  lemma HoldsNew(t: Store, mem: Addr, bytes: nat)
    requires mem > 8 && mem % 8 == 0 && mem - 8 in t.h.chunks && t.h.chunks[mem - 8].state == Used
    requires bytes + SIZE_SZ <= t.h.chunks[mem - 8].size
    ensures Holds(t, mem, ReadWords(t.m, mem, bytes / 4))
  {
  }

  lemma GrantedOthers(s: Store, t: Store, p: Addr, nb: nat, q: Addr)
    requires Granted(s, t, p, nb) && q in s.h.chunks && s.h.chunks[q].state == Used
    ensures q in t.h.chunks && t.h.chunks[q] == s.h.chunks[q] && q != p && Preserved(s.h.chunks, s.m, t.m)
  {
  }

  lemma GrantedLives(s: Store, t: Store, p: Addr, nb: nat)
    requires Granted(s, t, p, nb)
    ensures p in t.h.chunks && t.h.chunks[p].state == Used
    ensures forall q | q in t.h.chunks && t.h.chunks[q].state == Used && q != p :: q in s.h.chunks && s.h.chunks[q].state == Used
  {
  }

  lemma AllottedParts2(s: Store, t: Store, mem: Addr, bytes: nat)
    requires Allotted(s, t, mem, bytes)
    ensures mem > 8 && mem % 8 == 0 && Granted(s, t, mem - 8, RequestToSize(bytes))
    ensures mem - 8 in t.h.chunks && bytes + SIZE_SZ <= t.h.chunks[mem - 8].size
  {
  }

  lemma IntactAllotted(s: Store, t: Store, bs: Blocks, mem: Addr, bytes: nat)
    requires Intact(s, bs) && Allotted(s, t, mem, bytes)
    ensures var cs := bs[mem := ReadWords(t.m, mem, bytes / 4)];
            Intact(t, cs) && NewBlock(bs, cs, mem, bytes)
  {
    var cs := bs[mem := ReadWords(t.m, mem, bytes / 4)];
    AllottedParts2(s, t, mem, bytes);
    GrantedLives(s, t, mem - 8, RequestToSize(bytes));
    HoldsNew(t, mem, bytes);
    forall x | x in bs ensures Holds(t, x, bs[x]) && x != mem {
      HoldsParts(s, x, bs[x]);
      GrantedOthers(s, t, mem - 8, RequestToSize(bytes), x - 8);
      PayloadKept(s, t, x - 8);
      HoldsKept(s, t, x, bs[x]);
    }
    hide Holds, Allotted, Granted;
    forall p | p in t.h.chunks && t.h.chunks[p].state == Used ensures p + 8 in cs {
    }
  }

  lemma FreedOthers(s: Store, t: Store, p: Addr, q: Addr)
    requires Freed(s, t, p) && q in s.h.chunks && s.h.chunks[q].state == Used && q != p
    ensures q in t.h.chunks && t.h.chunks[q] == s.h.chunks[q]
    ensures forall w: int {:trigger t.m[w]} | q + 8 <= w <= q + s.h.chunks[q].size :: t.m[w] == s.m[w]
  {
    forall w: int {:trigger t.m[w]} | q + 8 <= w <= q + s.h.chunks[q].size ensures t.m[w] == s.m[w] {
      assert Payload(t.h.chunks, q, w);
    }
  }

  lemma FreedLives(s: Store, t: Store, p: Addr)
    requires Freed(s, t, p)
    ensures forall q | q in t.h.chunks && t.h.chunks[q].state == Used :: q != p && q in s.h.chunks && s.h.chunks[q].state == Used
  {
    hide Preserved;
  }

  lemma IntactFreed(s: Store, t: Store, bs: Blocks, mem: Addr)
    requires Intact(s, bs) && mem in bs && mem > 8 && Freed(s, t, mem - 8)
    ensures Intact(t, bs - {mem})
  {
    forall x | x in bs && x != mem ensures Holds(t, x, bs[x]) {
      HoldsParts(s, x, bs[x]);
      FreedOthers(s, t, mem - 8, x - 8);
      HoldsKept(s, t, x, bs[x]);
    }
    FreedLives(s, t, mem - 8);
    hide Holds, Freed;
    forall p | p in t.h.chunks && t.h.chunks[p].state == Used ensures p + 8 in bs - {mem} {
    }
  }

  lemma RegrownOthers(s: Store, t: Store, p: Addr, q: Addr, nb: nat, x: Addr)
    requires Regrown(s, t, p, q, nb) && x in s.h.chunks && s.h.chunks[x].state == Used && x != p
    ensures x != q && x in t.h.chunks && t.h.chunks[x] == s.h.chunks[x]
    ensures forall w: int {:trigger t.m[w]} | x + 8 <= w <= x + s.h.chunks[x].size :: t.m[w] == s.m[w]
  {
    forall w: int {:trigger t.m[w]} | x + 8 <= w <= x + s.h.chunks[x].size ensures t.m[w] == s.m[w] {
      assert Payload(s.h.chunks, x, w);
    }
    hide SameWords;
  }

  lemma RegrownLives(s: Store, t: Store, p: Addr, q: Addr, nb: nat)
    requires Regrown(s, t, p, q, nb)
    ensures q in t.h.chunks && t.h.chunks[q].state == Used && t.h.chunks[q].size >= nb
    ensures forall x | x in t.h.chunks && t.h.chunks[x].state == Used && x != q :: x != p && x in s.h.chunks && s.h.chunks[x].state == Used
  {
    hide SameWords;
  }

  lemma CarriedOver(s: Store, t: Store, mem: Addr, data: seq<int>, r: Addr, bytes: nat, nb: nat)
    requires Holds(s, mem, data) && r > 8 && Regrown(s, t, mem - 8, r - 8, nb) && nb >= bytes + SIZE_SZ
    ensures Carried(data, ReadWords(t.m, r, bytes / 4), bytes / 4)
  {
    var more := ReadWords(t.m, r, bytes / 4);
    forall i: nat | i < bytes / 4 && i < |data| ensures more[i] == data[i] {
      assert Word(s.m, mem, i) == data[i];
      assert Word(t.m, r - 8 + 8, i) == Word(s.m, mem - 8 + 8, i);
    }
  }

  lemma IntactRegrown(s: Store, t: Store, bs: Blocks, mem: Addr, r: Addr, bytes: nat, nb: nat)
    requires Intact(s, bs) && mem in bs && mem > 8 && r > 8 && r % 8 == 0
    requires Regrown(s, t, mem - 8, r - 8, nb) && nb >= bytes + SIZE_SZ
    ensures var cs := (bs - {mem})[r := ReadWords(t.m, r, bytes / 4)];
            Intact(t, cs) && Carried(bs[mem], cs[r], bytes / 4) && (r == mem || r !in bs)
  {
    hide *;
    var cs := (bs - {mem})[r := ReadWords(t.m, r, bytes / 4)];
    IntactParts(s, bs);
    CarriedOver(s, t, mem, bs[mem], r, bytes, nb);
    RegrownLives(s, t, mem - 8, r - 8, nb);
    HoldsNew(t, r, bytes);
    forall x | x in bs && x != mem ensures Holds(t, x, bs[x]) && x != r {
      HoldsParts(s, x, bs[x]);
      RegrownOthers(s, t, mem - 8, r - 8, nb, x - 8);
      HoldsKept(s, t, x, bs[x]);
    }
    forall p | p in t.h.chunks && t.h.chunks[p].state == Used ensures p + 8 in cs {
    }
    IntactIntro(t, cs);
  }

  /** A word of one payload is not of another. */
  lemma OtherPayload(chunks: Chunks, p: Addr, q: Addr, w: int)
    requires Shapes(chunks) && Ordered(chunks) && Payload(chunks, p, w) && q in chunks && p != q
    ensures !(q + 8 <= w <= q + chunks[q].size)
  {
    if p < q { assert End(chunks, p) <= q; } else { assert End(chunks, q) <= p; }
  }

  lemma HoldsPut(s: Store, mem: Addr, data: seq<int>, i: nat, v: int)
    requires Holds(s, mem, data) && i < |data|
    ensures Holds(s.(m := Poke(s.m, mem + 4 * i, v)), mem, data[i := v])
    ensures Payload(s.h.chunks, mem - 8, mem + 4 * i)
    ensures OnlyPayload(s.m, Poke(s.m, mem + 4 * i, v), s.h.chunks, mem - 8)
  {
    var n := Poke(s.m, mem + 4 * i, v);
    forall l: nat | l < |data| ensures Word(n, mem, l) == data[i := v][l] {
      assert Word(s.m, mem, l) == data[l];
    }
  }

  lemma HoldsOther(s: Store, x: Addr, data: seq<int>, w: int, v: int)
    requires Holds(s, x, data) && !(x <= w <= x - 8 + s.h.chunks[x - 8].size)
    ensures Holds(s.(m := Poke(s.m, w, v)), x, data)
  {
    HoldsKept(s, s.(m := Poke(s.m, w, v)), x, data);
  }

  lemma IntactParts(s: Store, bs: Blocks)
    requires Intact(s, bs)
    ensures forall mem | mem in bs :: Holds(s, mem, bs[mem])
    ensures forall p | p in s.h.chunks && s.h.chunks[p].state == Used :: p + 8 in bs
  {
  }

  lemma IntactIntro(s: Store, bs: Blocks)
    requires forall mem | mem in bs :: Holds(s, mem, bs[mem])
    requires forall p | p in s.h.chunks && s.h.chunks[p].state == Used :: p + 8 in bs
    ensures Intact(s, bs)
  {
  }

  lemma IntactPut(s: Store, bs: Blocks, mem: Addr, i: nat, v: int)
    requires Shapes(s.h.chunks) && Ordered(s.h.chunks) && Intact(s, bs) && mem in bs && i < |bs[mem]|
    ensures mem > 8 && OnlyPayload(s.m, Poke(s.m, mem + 4 * i, v), s.h.chunks, mem - 8)
    ensures mem - 8 in s.h.chunks && s.h.chunks[mem - 8].state == Used
    ensures Intact(s.(m := Poke(s.m, mem + 4 * i, v)), bs[mem := bs[mem][i := v]])
  {
    hide *;
    var t := s.(m := Poke(s.m, mem + 4 * i, v));
    var cs := bs[mem := bs[mem][i := v]];
    IntactParts(s, bs);
    HoldsParts(s, mem, bs[mem]);
    HoldsPut(s, mem, bs[mem], i, v);
    forall x | x in cs ensures Holds(t, x, cs[x]) {
      if x != mem {
        HoldsParts(s, x, bs[x]);
        OtherPayload(s.h.chunks, mem - 8, x - 8, mem + 4 * i);
        HoldsOther(s, x, bs[x], mem + 4 * i, v);
      }
    }
    IntactIntro(t, cs);
  }

  // ----- runs -----

  /** The state in which a client finds the allocator. */
  ghost predicate Serves(a: Arena, bs: Blocks)
    reads a
  {
    && a.Accounted() && (a.Valid() || (a.Blank() && bs == map[]))
    && Intact(Store(a.words, a.h, a.fastbins, false), bs)
  }

  lemma ServesParts(a: Arena, bs: Blocks)
    requires Serves(a, bs)
    ensures a.Accounted() && (a.Valid() || (a.Blank() && bs == map[]))
    ensures Intact(Store(a.words, a.h, a.fastbins, false), bs)
  {
    hide Intact;
  }

  lemma ServesIntro(a: Arena, bs: Blocks)
    requires a.Accounted() && (a.Valid() || (a.Blank() && bs == map[]))
    requires Intact(Store(a.words, a.h, a.fastbins, false), bs)
    ensures Serves(a, bs)
  {
    hide Intact;
  }

  lemma BlankServes(a: Arena)
    requires a.Blank() && a.Accounted()
    ensures Serves(a, map[])
  {
    assert a.h.chunks == map[];
    IntactStart(Store(a.words, a.h, a.fastbins, false));
    hide Intact;
  }

  /** The scene that an arena sets. */
  ghost function SceneOf(a: Arena): Scene
    reads a
  {
    Scene(a.h, a.System(), a.contiguous)
  }

  lemma SceneIs(a: Arena)
    ensures SceneOf(a) == Scene(a.h, a.System(), a.contiguous)
  {
  }

  lemma StarvedIntro(sc: Scene, pool: Heap, nb: nat)
    requires Outcome(sc.h, sc.system, sc.contiguous, pool, nb, false, false)
    ensures Starved(sc, nb)
  {
    hide Outcome;
  }

  lemma MayFailIntro(sc: Scene, bytes: nat)
    requires bytes >= REQUEST_LIMIT || Starved(sc, RequestToSize(bytes))
    ensures MayFail(sc, bytes)
  {
    hide Starved;
  }

  method DoAllocate(a: Arena, bs: Blocks, bytes: nat) returns (r: Addr, cs: Blocks)
    requires Serves(a, bs)
    modifies a
    ensures a.tidy ==> !a.Jammed()
    ensures !a.Jammed() ==> Serves(a, cs) && Meaning(Allocate(bytes), r, bs, cs, old(SceneOf(a)))
  {
    hide *;
    ghost var s, sc := Store(a.words, a.h, a.fastbins, false), SceneOf(a);
    SceneIs(a);
    ServesParts(a, bs);
    r, cs := 0, bs;
    var mem, pool := a.MALLOc(bytes);
    if a.Jammed() {
      return;
    }
    if mem == 0 {
      if bytes < REQUEST_LIMIT { StarvedIntro(sc, pool, RequestToSize(bytes)); }
      MayFailIntro(sc, bytes);
    }
    ghost var t := Store(a.words, a.h, a.fastbins, false);
    if mem == 0 {
      IntactCalm(s, t, bs);
    } else {
      IntactAllotted(s, t, bs, mem, bytes);
      r, cs := mem, bs[mem := ReadWords(a.words, mem, bytes / 4)];
    }
    ServesIntro(a, cs);
    MeansAllocate(bytes, r, bs, cs, sc);
  }

  lemma MeansAllocate(bytes: nat, r: Addr, bs: Blocks, cs: Blocks, sc: Scene)
    requires if r == 0 then cs == bs && MayFail(sc, bytes) else NewBlock(bs, cs, r, bytes)
    ensures Meaning(Allocate(bytes), r, bs, cs, sc)
  {
  }

  method DoAllocateAligned(a: Arena, bs: Blocks, alignment: nat, bytes: nat) returns (r: Addr, cs: Blocks)
    requires Serves(a, bs)
    modifies a
    ensures a.tidy ==> !a.Jammed()
    ensures !a.Jammed() ==> Serves(a, cs) && Meaning(AllocateAligned(alignment, bytes), r, bs, cs, old(SceneOf(a)))
  {
    hide *;
    ghost var s, sc := Store(a.words, a.h, a.fastbins, false), SceneOf(a);
    SceneIs(a);
    ServesParts(a, bs);
    a.StandsStraight();
    a.StraightStart();
    ProperIs(alignment, bytes);
    r, cs := 0, bs;
    if Proper(alignment, bytes) {
      var mem, pool, _ := MEMALIGn(a, alignment, bytes);
      if a.Jammed() {
        return;
      }
      if mem == 0 {
        if bytes < REQUEST_LIMIT {
          if Requested(alignment, bytes) < REQUEST_LIMIT { StarvedIntro(sc, pool, RequestToSize(Requested(alignment, bytes))); }
          MayFailIntro(sc, Requested(alignment, bytes));
        }
      }
      ghost var t := Store(a.words, a.h, a.fastbins, false);
      if mem == 0 {
        IntactCalm(s, t, bs);
      } else {
        IntactAllotted(s, t, bs, mem, bytes);
        r, cs := mem, bs[mem := ReadWords(a.words, mem, bytes / 4)];
      }
    }
    ServesIntro(a, cs);
    MeansAligned(alignment, bytes, r, bs, cs, sc);
  }

  lemma ProperIs(alignment: nat, bytes: nat)
    ensures Proper(alignment, bytes) <==> alignment <= WORD / 2 && Unwrapped(alignment, bytes)
    ensures Proper(alignment, bytes) && bytes < REQUEST_LIMIT ==> Passed(alignment, bytes) == Requested(alignment, bytes)
  {
    if Proper(alignment, bytes) && bytes < REQUEST_LIMIT { PassedWhole(alignment, bytes); }
    hide Unwrapped, Passed, Requested;
  }

  lemma MeansAligned(alignment: nat, bytes: nat, r: Addr, bs: Blocks, cs: Blocks, sc: Scene)
    requires r == 0 ==> cs == bs
    requires r == 0 && Proper(alignment, bytes) ==> bytes >= REQUEST_LIMIT || MayFail(sc, Requested(alignment, bytes))
    requires r != 0 ==> NewBlock(bs, cs, r, bytes)
    requires r != 0 && alignment > ALIGNMENT ==> Rounded(alignment) > 0 && r % Rounded(alignment) == 0
    ensures Meaning(AllocateAligned(alignment, bytes), r, bs, cs, sc)
  {
    hide NewBlock, Rounded, Proper, MayFail, Requested;
  }

  method DoRelease(a: Arena, bs: Blocks, mem: Addr) returns (cs: Blocks)
    requires Serves(a, bs)
    modifies a
    ensures !a.Jammed() && Serves(a, cs) && Meaning(Release(mem), 0, bs, cs, old(SceneOf(a)))
  {
    hide *;
    ghost var s, sc := Store(a.words, a.h, a.fastbins, false), SceneOf(a);
    a.StraightStart();
    ServesParts(a, bs);
    cs := bs;
    if mem in bs {
      IntactParts(s, bs);
      HoldsParts(s, mem, bs[mem]);
      a.FREe(mem);
      IntactFreed(s, Store(a.words, a.h, a.fastbins, false), bs, mem);
      cs := bs - {mem};
    }
    ServesIntro(a, cs);
    a.StandsStraight();
    MeansRelease(mem, bs, cs, sc);
  }

  lemma MeansRelease(mem: Addr, bs: Blocks, cs: Blocks, sc: Scene)
    requires if mem in bs then cs == bs - {mem} else cs == bs
    ensures Meaning(Release(mem), 0, bs, cs, sc)
  {
  }

  /** A block is not too small for what fits into its words. */
  lemma ShrinksHere(s: Store, mem: Addr, data: seq<int>, bytes: nat)
    requires Inv(s) && Holds(s, mem, data) && bytes <= 4 * |data|
    ensures GrowsHere(s.h, mem - 8, RequestToSize(bytes))
  {
    hide *;
    HoldsParts(s, mem, data);
    InvParts(s);
    ShapeOf(s.h.chunks, mem - 8);
    PadFits(bytes, s.h.chunks[mem - 8].size);
    HereAlready(s.h, mem - 8, RequestToSize(bytes));
  }

  lemma PadFits(bytes: nat, size: nat)
    requires size % 8 == 0 && size >= 16 && size >= bytes + 4
    ensures RequestToSize(bytes) <= size
  {
    RequestFits(bytes);
  }

  lemma RefittedFails(sc: Scene, pool: Heap, p: Addr, nb: nat)
    requires Refitted(sc.h, sc.system, sc.contiguous, pool, p, nb, false, false) && nb >= MINSIZE && nb % 8 == 0
    ensures !GrowsHere(sc.h, p, nb) && MayFail(sc, nb - 7)
  {
    RequestAgain(nb);
    if nb < REQUEST_LIMIT + 7 { StarvedIntro(sc, pool, nb); }
    hide Outcome, GrowsHere, Starved;
  }

  method DoResize(a: Arena, bs: Blocks, mem: Addr, bytes: nat) returns (r: Addr, cs: Blocks)
    requires Serves(a, bs)
    modifies a
    ensures a.tidy ==> !a.Jammed()
    ensures !a.Jammed() ==> Serves(a, cs) && Meaning(Resize(mem, bytes), r, bs, cs, old(SceneOf(a)))
  {
    hide *;
    ghost var s, sc := Store(a.words, a.h, a.fastbins, false), SceneOf(a);
    SceneIs(a);
    ServesParts(a, bs);
    a.StandsStraight();
    a.StraightStart();
    r, cs := 0, bs;
    RequestShape(bytes);
    SomeMin();
    if mem in bs {
      IntactParts(s, bs);
      HoldsParts(s, mem, bs[mem]);
      a.ValidIs();
      SoundParts(s, a.top, a.maxFast, a.fastChunks, a.binmap);
      if bytes <= 4 * |bs[mem]| { ShrinksHere(s, mem, bs[mem], bytes); }
      ghost var pool;
      r, pool := REALLOc(a, mem, bytes);
      if a.Jammed() {
        return;
      }
      ghost var t := Store(a.words, a.h, a.fastbins, false);
      if r == 0 {
        if bytes < REQUEST_LIMIT { RefittedFails(sc, pool, mem - 8, RequestToSize(bytes)); }
        IntactCalm(s, t, bs);
      } else {
        EightIs();
        IntactRegrown(s, t, bs, mem, r, bytes, RequestToSize(bytes));
        cs := (bs - {mem})[r := ReadWords(a.words, r, bytes / 4)];
      }
    }
    ServesIntro(a, cs);
    MeansResize(mem, bytes, r, bs, cs, sc);
  }

  lemma MeansResize(mem: Addr, bytes: nat, r: Addr, bs: Blocks, cs: Blocks, sc: Scene)
    requires RequestToSize(bytes) >= 7
    requires if mem !in bs then cs == bs
             else if r == 0 then
               cs == bs && (bytes >= REQUEST_LIMIT || (bytes > 4 * |bs[mem]| && MayFail(sc, RequestToSize(bytes) - 7)))
             else (r == mem || r !in bs) && r in cs && cs == (bs - {mem})[r := cs[r]] && Carried(bs[mem], cs[r], bytes / 4)
    ensures Meaning(Resize(mem, bytes), r, bs, cs, sc)
  {
    hide Carried, MayFail;
  }

  method DoPut(a: Arena, bs: Blocks, mem: Addr, i: nat, v: int) returns (cs: Blocks)
    requires Serves(a, bs)
    modifies a
    ensures !a.Jammed() && Serves(a, cs) && Meaning(Put(mem, i, v), 0, bs, cs, old(SceneOf(a)))
  {
    hide *;
    ghost var s, sc := Store(a.words, a.h, a.fastbins, false), SceneOf(a);
    a.StraightStart();
    ServesParts(a, bs);
    cs := bs;
    if mem in bs && i < |bs[mem]| {
      a.ValidIs();
      a.AccountedIs();
      SoundParts(s, a.top, a.maxFast, a.fastChunks, a.binmap);
      InvParts(s);
      IntactPut(s, bs, mem, i, v);
      UserStep(s, Poke(s.m, mem + 4 * i, v), mem - 8);
      SameSound(s, s.(m := Poke(s.m, mem + 4 * i, v)), a.top, a.maxFast, a.fastChunks, a.binmap);
      a.words := Poke(a.words, mem + 4 * i, v);
      cs := bs[mem := bs[mem][i := v]];
      a.ValidIs();
      a.AccountedIs();
    }
    ServesIntro(a, cs);
    a.StandsStraight();
    MeansPut(mem, i, v, bs, cs, sc);
  }

  lemma MeansPut(mem: Addr, i: nat, v: int, bs: Blocks, cs: Blocks, sc: Scene)
    requires if mem in bs && i < |bs[mem]| then cs == bs[mem := bs[mem][i := v]] else cs == bs
    ensures Meaning(Put(mem, i, v), 0, bs, cs, sc)
  {
  }

  /** One operation, on the real memory and in the client's mind. */
  method Step(a: Arena, bs: Blocks, op: Op) returns (r: Addr, cs: Blocks)
    requires Serves(a, bs)
    modifies a
    ensures a.tidy ==> !a.Jammed()
    ensures !a.Jammed() ==> Serves(a, cs) && Meaning(op, r, bs, cs, old(SceneOf(a)))
  {
    hide Serves, Meaning, SceneOf;
    r := 0;
    match op
    case Allocate(bytes) => r, cs := DoAllocate(a, bs, bytes);
    case AllocateAligned(alignment, bytes) => r, cs := DoAllocateAligned(a, bs, alignment, bytes);
    case Release(mem) => cs := DoRelease(a, bs, mem);
    case Resize(mem, bytes) => r, cs := DoResize(a, bs, mem, bytes);
    case Put(mem, i, v) => cs := DoPut(a, bs, mem, i, v);
  }

  lemma ServesMirrors(a: Arena, bs: Blocks)
    requires Serves(a, bs)
    ensures Mirrors(SceneOf(a).h, bs)
  {
    hide *;
    var s := Store(a.words, a.h, a.fastbins, false);
    SceneIs(a);
    ServesParts(a, bs);
    IntactParts(s, bs);
    forall mem | mem in bs ensures mem >= 8 && mem - 8 in a.h.chunks && a.h.chunks[mem - 8].state == Used {
      HoldsParts(s, mem, bs[mem]);
    }
    MirrorsIntro(a.h, bs);
  }

  lemma MirrorsIntro(h: Heap, bs: Blocks)
    requires forall mem | mem in bs :: mem >= 8 && mem - 8 in h.chunks && h.chunks[mem - 8].state == Used
    requires forall p | p in h.chunks && h.chunks[p].state == Used :: p + 8 in bs
    ensures Mirrors(h, bs)
  {
  }

  /** Whatever the client does and whatever the system answers, from a zero-filled state on
      every operation means what it should, until the system gives memory with which top
      cannot be aligned; if it deals in multiples of the alignment that never happens.  At
      the end memory holds exactly the blocks of the client with the words that it put there. */
  method Run(a: Arena, ops: seq<Op>) returns (results: seq<Addr>, ghost states: seq<Blocks>, ghost scenes: seq<Scene>)
    requires a.Blank() && a.Accounted()
    modifies a
    ensures Runs(ops, results, states, scenes) && scenes[0] == old(SceneOf(a))
    ensures |results| < |ops| ==> a.Jammed()
    ensures |results| == |ops| ==> Serves(a, states[|ops|]) && scenes[|ops|] == SceneOf(a)
    ensures a.tidy ==> |results| == |ops|
  {
    hide Serves, Meaning, Intact, Mirrors, SceneOf;
    BlankServes(a);
    ServesMirrors(a, map[]);
    var bs: Blocks := map[];
    results, states, scenes := [], [bs], [SceneOf(a)];
    var i := 0;
    while i < |ops|
      invariant 0 <= i <= |ops| && |results| == i && |states| == |scenes| == i + 1 && states[0] == map[] && states[i] == bs
      invariant Serves(a, bs) && scenes[i] == SceneOf(a) && scenes[0] == old(SceneOf(a))
      invariant forall j | 0 <= j <= i :: Mirrors(scenes[j].h, states[j])
      invariant forall j | 0 <= j < i :: Meaning(ops[j], results[j], states[j], states[j + 1], scenes[j])
    {
      var r, cs := Step(a, bs, ops[i]);
      if a.Jammed() {
        return;
      }
      ServesMirrors(a, cs);
      results, states, scenes, bs := results + [r], states + [cs], scenes + [SceneOf(a)], cs;
      i := i + 1;
    }
  }

  // ----- with a system that only continues its memory -----

  /** Such a system lets an allocation fail only when it has no answer left or no room for the
      request. */
  lemma OutOfRoom(sc: Scene, nb: nat)
    requires Starved(sc, nb) && sc.contiguous && Even(sc.system) && Compact(sc.h.chunks, sc.system.brk)
    ensures sc.system.replies == [] || sc.system.brk + RoundUp(nb + MINSIZE) > sc.system.floor
  {
    hide *;
    var pool := StarvedPool(sc, nb);
    StarvedDepleted(sc, pool, nb);
    SteadyOutcome(sc.h, sc.system, pool, nb, false, false);
    WantedLess(nb, TopWidth(pool));
  }

  lemma StarvedPool(sc: Scene, nb: nat) returns (pool: Heap)
    requires Starved(sc, nb)
    ensures Outcome(sc.h, sc.system, sc.contiguous, pool, nb, false, false)
  {
    hide Outcome;
    pool :| Outcome(sc.h, sc.system, sc.contiguous, pool, nb, false, false);
  }

  lemma StarvedDepleted(sc: Scene, pool: Heap, nb: nat)
    requires Outcome(sc.h, sc.system, sc.contiguous, pool, nb, false, false)
    ensures Depleted(pool, nb)
  {
    hide Depleted;
  }

  lemma WantedLess(nb: nat, have: nat)
    ensures Wanted(nb, have, true) <= RoundUp(nb + MINSIZE)
  {
  }
}
