/** The system behind the allocator: what sbrk and mmap answer, what the allocator asks for
    when top is too small, and what becomes of top then. */
module DlBreak {
  import opened DlSizes
  import opened DlHeap

  /** The answer to one request.  A grant of sbrk starts behind a gap that somebody else has
      taken and may be larger than what was asked for; both are counted in words. */
  datatype Reply = Refuse | Grant(gap: nat, extra: nat)

  /** The end of the sbrk area, the lowest mapped address, and the answers to come.  After the
      last answer everything is refused. */
  datatype Sys = Sys(brk: Addr, floor: Addr, replies: seq<Reply>)

  datatype Answer = Answer(start: Option<Addr>, after: Sys)

  function Later(y: Sys): Sys {
    if y.replies == [] then y else y.(replies := y.replies[1..])
  }

  /** MORECORE with a positive argument. */
  function Sbrk(y: Sys, size: nat): Answer {
    if y.replies == [] || y.replies[0].Refuse? then Answer(None, Later(y))
    else
      var at := y.brk + 4 * y.replies[0].gap;
      var end := at + size + 4 * y.replies[0].extra;
      if end > y.floor then Answer(None, Later(y)) else Answer(Some(at), Later(y).(brk := end))
  }

  /** The next answer with no gap: nobody has taken memory in between. */
  function NoGap(y: Sys): Sys {
    if y.replies == [] || y.replies[0].Refuse? then y
    else y.(replies := [Grant(0, y.replies[0].extra)] + y.replies[1..])
  }

  /** MORECORE right after a grant. */
  function SbrkMore(y: Sys, size: nat): Answer {
    Sbrk(NoGap(y), size)
  }

  /** MMAP of whole pages: somewhere below the regions mapped so far. */
  function Mmap(y: Sys, size: nat): Answer {
    if y.replies == [] || y.replies[0].Refuse? || y.brk + PAGE + size + 4 * y.replies[0].gap > y.floor
    then Answer(None, Later(y))
    else
      var at := (y.floor - size - 4 * y.replies[0].gap) / PAGE * PAGE;
      Answer(Some(at), Later(y).(floor := at))
  }

  const MMAP_AS_MORECORE_SIZE: nat := 0x10_0000

  /** Sizes from here on are negative as arguments of sbrk. */
  const SIGN_LIMIT: nat := 0x8000_0000

  function RoundUp(x: nat): nat {
    (x + PAGE - 1) / PAGE * PAGE
  }

  lemma RoundedUp(x: nat)
    ensures RoundUp(x) % PAGE == 0 && x <= RoundUp(x) < x + PAGE && (x > 0 ==> RoundUp(x) >= PAGE) && PAGE == 4096
  {
  }

  // ----- giving memory back -----

  /** FASTBIN_CONSOLIDATION_THRESHOLD. */
  const LARGE_RELEASE: nat := 65536

  /** By how much the break goes down after MORECORE(-extra). */
  function GivenBack(y: Sys, extra: nat): nat {
    if y.replies == [] || y.replies[0].Refuse? || 4 * y.replies[0].gap >= extra then 0
    else extra - 4 * y.replies[0].gap / PAGE * PAGE
  }

  lemma GivenBackIs(y: Sys, extra: nat)
    requires extra % PAGE == 0
    ensures GivenBack(y, extra) <= extra && GivenBack(y, extra) % PAGE == 0
  {
    if y.replies != [] && y.replies[0].Grant? {
      var k, j := extra / PAGE, 4 * y.replies[0].gap / PAGE;
      if 4 * y.replies[0].gap < extra { assert GivenBack(y, extra) == PAGE * (k - j); }
    }
  }

  /** The arithmetic of sYSTRIm with pad 0: whole pages, keeping one and the minimum chunk. */
  function TrimExtra(topSize: nat): int {
    ((topSize - MINSIZE + (PAGE - 1)) / PAGE - 1) * PAGE
  }

  lemma TrimPages(topSize: nat)
    ensures TrimExtra(topSize) % PAGE == 0 && (TrimExtra(topSize) > 0 ==> TrimExtra(topSize) + MINSIZE < topSize)
  {
  }

  /** It is the largest number of whole pages that leaves more than the minimum chunk. */
  lemma TrimIsMost(topSize: nat, extra: nat)
    requires topSize > MINSIZE
    ensures TrimExtra(topSize) >= 0 && TrimExtra(topSize) % PAGE == 0 && topSize - TrimExtra(topSize) > MINSIZE
    ensures extra % PAGE == 0 && topSize - extra > MINSIZE ==> extra <= TrimExtra(topSize)
  {
    if extra % PAGE == 0 && topSize - extra > MINSIZE {
      var k := extra / PAGE;
      assert extra == PAGE * k;
    }
  }

  /** By how much sYSTRIm shortens a top with the given end and size. */
  function TrimmedBy(y: Sys, end: Addr, size: nat): nat {
    if TrimExtra(size) > 0 && y.brk == end then GivenBack(y, TrimExtra(size)) else 0
  }

  lemma TrimmedLess(y: Sys, end: Addr, size: nat)
    ensures TrimmedBy(y, end, size) % PAGE == 0
    ensures TrimmedBy(y, end, size) > 0 ==> TrimmedBy(y, end, size) + MINSIZE < size
    ensures TrimmedBy(y, end, size) <= size
  {
    TrimPages(size);
    if TrimExtra(size) > 0 { GivenBackIs(y, TrimExtra(size)); }
  }

  // ----- the first request -----

  /** The argument of the first MORECORE: what top lacks, if the new space may continue it. */
  function Wanted(nb: nat, oldSize: nat, contiguous: bool): nat {
    RoundUp(nb + MINSIZE - (if contiguous && oldSize <= nb + MINSIZE then oldSize else 0))
  }

  /** It is the least number of whole pages with which the request and a minimum top are
      served, from top as well where the new space may continue it. */
  lemma WantedIsLeast(nb: nat, oldSize: nat, contiguous: bool, size: nat)
    requires oldSize < nb + MINSIZE
    ensures var have := if contiguous then oldSize else 0;
            && Wanted(nb, oldSize, contiguous) % PAGE == 0 && have + Wanted(nb, oldSize, contiguous) >= nb + MINSIZE
            && (size % PAGE == 0 && have + size >= nb + MINSIZE ==> size >= Wanted(nb, oldSize, contiguous))
  {
    var need := nb + MINSIZE - (if contiguous then oldSize else 0);
    RoundedUp(need);
    if size % PAGE == 0 && size >= need {
      var j, k := size / PAGE, RoundUp(need) / PAGE;
      assert size == PAGE * j && RoundUp(need) == PAGE * k;
    }
  }

  /** The argument of the MMAP that is tried when it fails. */
  function MapWanted(nb: nat, oldSize: nat, contiguous: bool): nat {
    var size := if contiguous then RoundUp(Wanted(nb, oldSize, contiguous) + oldSize) else Wanted(nb, oldSize, contiguous);
    if size < MMAP_AS_MORECORE_SIZE then MMAP_AS_MORECORE_SIZE else size
  }

  /** The memory obtained, if any, and whether further memory may be expected to continue it. */
  datatype Offer = Offer(start: Option<Addr>, size: nat, mapped: bool, contiguous: bool, after: Sys)

  function FirstAnswer(y: Sys, size: nat): Answer {
    if size < SIGN_LIMIT then Sbrk(y, size) else Answer(None, y)
  }

  function Offered(y: Sys, contiguous: bool, oldSize: nat, nb: nat): Offer {
    var size := Wanted(nb, oldSize, contiguous);
    var first := FirstAnswer(y, size);
    if first.start.Some? then Offer(first.start, size, false, contiguous, first.after)
    else
      var more := MapWanted(nb, oldSize, contiguous);
      var second := Mmap(first.after, more);
      Offer(second.start, more, true, contiguous && second.start == None, second.after)
  }

  // ----- what becomes of top -----

  function AlignedStart(b: Addr): Addr {
    if b % 8 > 0 then b + (8 - b % 8) else b
  }

  /** The argument of the second MORECORE: the bytes skipped in front, what the old top could
      not give, and the rest of the last page. */
  function Correction(b: Addr, size: nat, oldSize: nat): nat {
    var c := AlignedStart(b) - b + oldSize;
    c + (RoundUp(b + size + c) - (b + size + c))
  }

  /** Top grows to the given size, or a new one takes its place, of which `left` bytes are left
      when the request is served. */
  datatype Deal = Nothing | Grows(size: nat) | Anew(start: Addr, end: Addr, left: nat)

  function SecondAnswer(o: Offer, oldSize: nat): Answer
    requires o.start.Some?
  {
    SbrkMore(o.after, Correction(o.start.value, o.size, oldSize))
  }

  /** Where a new top ends: behind the second grant, or where all memory ends. */
  function FreshEnd(o: Offer, oldSize: nat): Addr
    requires o.start.Some?
  {
    if o.mapped then o.start.value + o.size
    else if !o.contiguous then o.after.brk
    else
      var second := SecondAnswer(o, oldSize);
      if second.start.Some? then second.start.value + Correction(o.start.value, o.size, oldSize) else second.after.brk
  }

  /** The system once a new top has been obtained. */
  function Settlement(o: Offer, oldSize: nat): Sys
    requires o.start.Some?
  {
    if o.contiguous then SecondAnswer(o, oldSize).after else o.after
  }

  /** The release of a large old top ends with a look at the size of the new one: if that
      exceeds the threshold, it is trimmed before the request is served from it. */
  function TopLeft(y: Sys, end: Addr, size: nat, oldSize: nat): int {
    size - (if oldSize >= LARGE_RELEASE + MINSIZE && size >= DEFAULT_TRIM_THRESHOLD then TrimmedBy(y, end, size) else 0)
  }

  function Struck(o: Offer, oldEnd: Addr, oldSize: nat): Deal {
    if o.start == None then Nothing
    else if o.start.value == oldEnd && !o.mapped then Grows(oldSize + o.size)
    else
      var start := if o.contiguous then AlignedStart(o.start.value) else o.start.value;
      var end := FreshEnd(o, oldSize);
      var size := if start <= end then end - start else 0;
      TrimmedLess(Settlement(o, oldSize), end, size);
      Anew(start, end, TopLeft(Settlement(o, oldSize), end, size, oldSize))
  }

  /** What becomes of a top with the given end and size when nb bytes are needed. */
  function Dealt(y: Sys, contiguous: bool, oldEnd: Addr, oldSize: nat, nb: nat): Deal {
    Struck(Offered(y, contiguous, oldSize, nb), oldEnd, oldSize)
  }

  /** The memory dealt suffices for the request and a top behind it. */
  predicate Delivers(d: Deal, nb: nat) {
    match d
    case Nothing => false
    case Grows(size) => size >= nb + MINSIZE
    case Anew(_, _, left) => left >= nb + MINSIZE
  }

  /** A new top starts and ends at a multiple of the alignment. */
  predicate Lined(d: Deal) {
    d.Anew? ==> d.start % 8 == 0 && d.end % 8 == 0
  }

  // ----- when the system delivers -----

  /** Nothing comes of a request exactly when both sbrk and mmap refuse it.  What comes is too
      little only if sbrk granted something elsewhere and then refused the rest of it, or if
      the new top is trimmed at once because the old one was large. */
  lemma FallsShort(y: Sys, contiguous: bool, oldEnd: Addr, oldSize: nat, nb: nat)
    requires oldSize < nb + MINSIZE
    ensures var o := Offered(y, contiguous, oldSize, nb);
            var d := Dealt(y, contiguous, oldEnd, oldSize, nb);
            && (d == Nothing <==> o.start == None)
            && (o.start == None <==>
                  FirstAnswer(y, Wanted(nb, oldSize, contiguous)).start == None
                  && Mmap(FirstAnswer(y, Wanted(nb, oldSize, contiguous)).after, MapWanted(nb, oldSize, contiguous)).start == None)
            && (d != Nothing && !Delivers(d, nb) ==>
                  || (d.Anew? && !o.mapped && o.contiguous && o.start != Some(oldEnd) && SecondAnswer(o, oldSize).start == None)
                  || (d.Anew? && oldSize >= LARGE_RELEASE + MINSIZE && d.start + DEFAULT_TRIM_THRESHOLD <= d.end))
  {
    var o := Offered(y, contiguous, oldSize, nb);
    if o.start.Some? {
      OfferSize(y, contiguous, oldSize, nb);
      if !(o.start.value == oldEnd && !o.mapped) && o.contiguous {
        CorrectionIs(o.start.value, o.size, oldSize);
      }
      hide Wanted, MapWanted, Mmap, Correction, AlignedStart, RoundUp;
    }
  }

  lemma OfferSize(y: Sys, contiguous: bool, oldSize: nat, nb: nat)
    requires oldSize < nb + MINSIZE
    ensures var o := Offered(y, contiguous, oldSize, nb);
            && o.size % PAGE == 0 && o.size >= PAGE && o.size + (if o.contiguous then oldSize else 0) >= nb + MINSIZE
            && (o.start.Some? && !o.mapped ==> y.brk <= o.start.value && o.start.value + o.size <= o.after.brk <= o.after.floor
                                               && o.after.floor == y.floor && o.contiguous == contiguous)
            && (o.start.Some? && o.mapped ==> !o.contiguous)
  {
    RoundedUp(nb + MINSIZE - (if contiguous && oldSize <= nb + MINSIZE then oldSize else 0));
    RoundedUp(Wanted(nb, oldSize, contiguous) + oldSize);
    assert MMAP_AS_MORECORE_SIZE % PAGE == 0;
    hide RoundUp;
  }

  lemma CorrectionIs(b: Addr, size: nat, oldSize: nat)
    ensures 0 <= Correction(b, size, oldSize) - (AlignedStart(b) - b + oldSize) < PAGE && b <= AlignedStart(b) < b + 8
    ensures (b + size + Correction(b, size, oldSize)) % PAGE == 0 && AlignedStart(b) % 8 == 0
  {
    var c := AlignedStart(b) - b + oldSize;
    RoundedUp(b + size + c);
    NextEight(b);
    hide RoundUp;
  }

  lemma NextEight(b: Addr)
    ensures AlignedStart(b) % 8 == 0
  {
  }

  // ----- when top is aligned -----

  /** Bytes that the first request was given beyond its size. */
  function Excess(o: Offer): nat
    requires o.start.Some? && o.start.value + o.size <= o.after.brk
  {
    o.after.brk - (o.start.value + o.size)
  }

  /** Exactly when the system's answers give an aligned top: with the second grant the excess
      of the first must be aligned, without it the end of memory, and memory that is not
      expected to continue must itself be aligned. */
  lemma LinedWhen(y: Sys, contiguous: bool, oldEnd: Addr, oldSize: nat, nb: nat)
    requires oldSize < nb + MINSIZE
    ensures var o := Offered(y, contiguous, oldSize, nb);
            var d := Dealt(y, contiguous, oldEnd, oldSize, nb);
            && (o.start == None || (o.start == Some(oldEnd) && !o.mapped) || o.mapped ==> Lined(d))
            && (o.start.Some? && o.start != Some(oldEnd) && !o.mapped ==>
                  && o.start.value + o.size <= o.after.brk
                  && (Lined(d) <==>
                        if !contiguous then o.start.value % 8 == 0 && Excess(o) % 8 == 0
                        else if SecondAnswer(o, oldSize).start.Some? then Excess(o) % 8 == 0
                        else (o.start.value + Excess(o)) % 8 == 0))
  {
    hide *;
    var o := Offered(y, contiguous, oldSize, nb);
    DealtIs(y, contiguous, oldEnd, oldSize, nb);
    OfferSize(y, contiguous, oldSize, nb);
    OfferMap(y, contiguous, oldSize, nb);
    StruckIs(o, oldEnd, oldSize);
    NothingDealt(nb);
    GrowsLined(oldSize + o.size);
    if o.start.Some? && (o.start.value != oldEnd || o.mapped) {
      AnewIs(o, oldEnd, oldSize);
      SettledIs(o, oldSize);
      PagesAreEights(o.size);
      SumEights(o.size, o.start.value);
      if !o.mapped {
        ExcessIs(o);
        if contiguous { EndContiguous(o, oldSize); } else { EndElsewhere(o); }
      }
    }
  }

  lemma DealtIs(y: Sys, contiguous: bool, oldEnd: Addr, oldSize: nat, nb: nat)
    ensures Dealt(y, contiguous, oldEnd, oldSize, nb) == Struck(Offered(y, contiguous, oldSize, nb), oldEnd, oldSize)
  {
    hide Struck, Offered;
  }

  lemma ExcessIs(o: Offer)
    requires o.start.Some? && o.start.value + o.size <= o.after.brk
    ensures Excess(o) == o.after.brk - (o.start.value + o.size)
  {
  }

  /** Where the end of a contiguous region is aligned. */
  lemma EndContiguous(o: Offer, oldSize: nat)
    requires o.start.Some? && !o.mapped && o.contiguous && o.size % PAGE == 0 && o.start.value + o.size <= o.after.brk
    ensures AlignedStart(o.start.value) % 8 == 0
    ensures FreshEnd(o, oldSize) % 8 == 0 <==>
              if SecondAnswer(o, oldSize).start.Some? then Excess(o) % 8 == 0 else (o.start.value + Excess(o)) % 8 == 0
  {
    hide *;
    var b, c := o.start.value, Correction(o.start.value, o.size, oldSize);
    SettledIs(o, oldSize);
    SecondMore(o, oldSize);
    SecondStart(o, oldSize);
    CorrectionIs(b, o.size, oldSize);
    NextEight(b);
    PagesAreEights(b + o.size + c);
    PagesAreEights(o.size);
    ExcessIs(o);
    SumEights(b + o.size + c, Excess(o));
    SumEights(o.size, b + Excess(o));
  }

  /** Where a region that is not taken to be contiguous is aligned. */
  lemma EndElsewhere(o: Offer)
    requires o.start.Some? && o.size % PAGE == 0 && o.start.value + o.size <= o.after.brk
    ensures o.start.value % 8 == 0 ==> (o.after.brk % 8 == 0 <==> Excess(o) % 8 == 0)
  {
    PagesAreEights(o.size);
    if o.start.value % 8 == 0 {
      SumEights(o.start.value, o.size);
      SumEights(o.start.value + o.size, Excess(o));
    }
  }

  lemma SecondStart(o: Offer, oldSize: nat)
    requires o.start.Some?
    ensures var a := SecondAnswer(o, oldSize);
            && (a.start.Some? ==> a.start.value == o.after.brk && a.after.brk >= o.after.brk + Correction(o.start.value, o.size, oldSize)
                                  && a.after.brk <= a.after.floor)
            && (a.start == None ==> a.after.brk == o.after.brk)
            && a.after.floor == o.after.floor
  {
    hide Correction;
  }

  lemma PagesAreEights(x: nat)
    requires x % PAGE == 0
    ensures x % 8 == 0
  {
    var k := x / PAGE;
    assert x == 8 * (512 * k);
  }

  lemma SumEights(a: int, b: int)
    requires a % 8 == 0
    ensures (a + b) % 8 == 0 <==> b % 8 == 0
  {
    var k := a / 8;
    assert a == 8 * k;
  }

  lemma MmapIs(y: Sys, size: nat)
    ensures var a := Mmap(y, size);
            && a.after.brk == y.brk && (a.start == None ==> a.after.floor == y.floor)
            && (a.start.Some? ==> a.start.value % 8 == 0 && a.start.value == a.after.floor
                                  && y.brk <= a.start.value && a.start.value + size <= y.floor)
  {
    if y.replies != [] && y.replies[0].Grant? && y.brk + PAGE + size + 4 * y.replies[0].gap <= y.floor {
      var x := y.floor - size - 4 * y.replies[0].gap;
      Below(x);
    }
  }

  lemma Below(x: nat)
    requires x >= PAGE
    ensures x - PAGE < x / PAGE * PAGE <= x && x / PAGE * PAGE % 8 == 0
  {
    var k := x / PAGE;
    assert k * PAGE == 8 * (512 * k);
  }

  // ----- systems that behave -----

  /** All memory comes and goes in multiples of the alignment. */
  ghost predicate Tidy(y: Sys) {
    y.brk % 8 == 0 && forall i | 0 <= i < |y.replies| && y.replies[i].Grant? :: y.replies[i].gap % 2 == 0 && y.replies[i].extra % 2 == 0
  }

  /** All memory continues what was there before, in the lower half of the address space. */
  ghost predicate Even(y: Sys) {
    y.brk % 8 == 0 && y.floor < SIGN_LIMIT && forall i | 0 <= i < |y.replies| :: y.replies[i] == Grant(0, 0)
  }

  lemma EvenIsTidy(y: Sys)
    requires Even(y)
    ensures Tidy(y)
  {
  }

  lemma SbrkTidy(y: Sys, size: nat)
    requires Tidy(y) && size % 8 == 0
    ensures Tidy(Sbrk(y, size).after)
    ensures var a := Sbrk(y, size); a.start.Some? ==> a.start.value % 8 == 0
  {
    if y.replies != [] && y.replies[0].Grant? {
      TwiceFour(y.replies[0].gap);
      TwiceFour(y.replies[0].extra);
      SumEights(y.brk, 4 * y.replies[0].gap);
      SumEights(y.brk + 4 * y.replies[0].gap, size);
      SumEights(y.brk + 4 * y.replies[0].gap + size, 4 * y.replies[0].extra);
    }
  }

  lemma TwiceFour(x: nat)
    requires x % 2 == 0
    ensures 4 * x % 8 == 0
  {
  }

  lemma FourSum(a: int, b: int)
    requires a % 4 == 0 && b % 4 == 0
    ensures (a + b) % 4 == 0
  {
    var j, k := a / 4, b / 4;
    assert a + b == 4 * (j + k);
  }

  lemma EightIsFour(x: int)
    requires x % 8 == 0
    ensures x % 4 == 0
  {
    var k := x / 8;
    assert x == 4 * (2 * k);
  }

  lemma SbrkWhole(y: Sys, size: nat)
    requires y.brk % 4 == 0 && size % 4 == 0
    ensures var a := Sbrk(y, size); a.after.brk % 4 == 0 && (a.start.Some? ==> a.start.value % 4 == 0)
  {
    if y.replies != [] && y.replies[0].Grant? {
      FourSum(y.brk, 4 * y.replies[0].gap);
      FourSum(y.brk + 4 * y.replies[0].gap, size);
      FourSum(y.brk + 4 * y.replies[0].gap + size, 4 * y.replies[0].extra);
    }
  }

  /** What stays true of the system: whole words, and its manners if it has any. */
  ghost predicate Orderly(steady: bool, tidy: bool, contiguous: bool, y: Sys) {
    y.brk % 4 == 0 && (tidy ==> Tidy(y)) && (steady ==> tidy && contiguous && Even(y))
  }

  lemma OrderlyParts(steady: bool, tidy: bool, contiguous: bool, y: Sys)
    requires Orderly(steady, tidy, contiguous, y)
    ensures y.brk % 4 == 0 && (tidy ==> Tidy(y)) && (steady ==> tidy && contiguous && Even(y))
  {
  }

  /** The same system with less memory in use and its next answers given. */
  lemma OrderlyTrimmed(steady: bool, tidy: bool, contiguous: bool, y: Sys, z: Sys)
    requires Orderly(steady, tidy, contiguous, y) && z.floor == y.floor && (z.replies == y.replies || z.replies == Later(y).replies)
    requires z.brk % 4 == 0 && (tidy ==> z.brk % 8 == 0)
    ensures Orderly(steady, tidy, contiguous, z)
  {
  }

  lemma EvenSbrk(y: Sys, size: nat)
    requires Even(y) && size % 8 == 0
    ensures var a := Sbrk(y, size);
            && Even(a.after)
            && (a.start.Some? <==> y.replies != [] && y.brk + size <= y.floor)
            && (a.start.Some? ==> a.start.value == y.brk && a.after.brk == y.brk + size)
  {
    SumEights(y.brk, size);
  }

  lemma EvenMmap(y: Sys, size: nat)
    requires Even(y)
    ensures Even(Mmap(y, size).after) || Mmap(y, size).start.Some?
  {
    MmapIs(y, size);
  }

  lemma TidyMmap(y: Sys, size: nat)
    requires Tidy(y)
    ensures Tidy(Mmap(y, size).after)
  {
    MmapIs(y, size);
  }

  lemma OfferWhole(y: Sys, contiguous: bool, oldSize: nat, nb: nat)
    requires y.brk % 4 == 0 && oldSize < nb + MINSIZE
    ensures var o := Offered(y, contiguous, oldSize, nb);
            o.after.brk % 4 == 0 && (o.start.Some? ==> o.start.value % 4 == 0)
  {
    var size := Wanted(nb, oldSize, contiguous);
    RoundedUp(nb + MINSIZE - (if contiguous && oldSize <= nb + MINSIZE then oldSize else 0));
    PagesAreEights(size);
    EightIsFour(size);
    SbrkWhole(y, size);
    var f := FirstAnswer(y, size);
    var m := Mmap(f.after, MapWanted(nb, oldSize, contiguous));
    MmapIs(f.after, MapWanted(nb, oldSize, contiguous));
    hide Wanted, MapWanted, Sbrk, Mmap, RoundUp;
    if m.start.Some? { EightIsFour(m.start.value); }
  }

  lemma OfferTidy(y: Sys, contiguous: bool, oldSize: nat, nb: nat)
    requires Tidy(y) && oldSize < nb + MINSIZE
    ensures var o := Offered(y, contiguous, oldSize, nb);
            Tidy(o.after) && (o.start.Some? ==> o.start.value % 8 == 0)
  {
    var size := Wanted(nb, oldSize, contiguous);
    RoundedUp(nb + MINSIZE - (if contiguous && oldSize <= nb + MINSIZE then oldSize else 0));
    PagesAreEights(size);
    SbrkTidy(y, size);
    var f := FirstAnswer(y, size);
    MmapIs(f.after, MapWanted(nb, oldSize, contiguous));
    TidyMmap(f.after, MapWanted(nb, oldSize, contiguous));
    hide Wanted, MapWanted, Sbrk, Mmap, RoundUp;
  }

  /** A system that only continues its memory gives what there is room for, and nothing else. */
  lemma OfferEven(y: Sys, oldSize: nat, nb: nat)
    requires Even(y) && oldSize < nb + MINSIZE
    ensures var o := Offered(y, true, oldSize, nb);
            && o.contiguous && Even(o.after)
            && (o.start.Some? <==> y.replies != [] && y.brk + Wanted(nb, oldSize, true) <= y.floor)
            && (o.start.Some? ==> !o.mapped && o.start.value == y.brk && o.start.value + o.size == o.after.brk)
  {
    var size := Wanted(nb, oldSize, true);
    RoundedUp(nb + MINSIZE - oldSize);
    RoundedUp(size + oldSize);
    PagesAreEights(size);
    EvenSbrk(y, size);
    var f := FirstAnswer(y, size);
    EvenMmap(f.after, MapWanted(nb, oldSize, true));
    if f.start == None {
      assert MapWanted(nb, oldSize, true) >= size;
      assert f.after.replies == [] || y.brk + size > y.floor;
    }
    hide RoundUp;
  }

  lemma CorrectionFour(b: Addr, size: nat, oldSize: nat)
    requires b % 4 == 0 && size % PAGE == 0
    ensures Correction(b, size, oldSize) % 4 == 0 && (b + size) % 4 == 0
  {
    hide *;
    var c := Correction(b, size, oldSize);
    CorrectionIs(b, size, oldSize);
    PagesAreEights(b + size + c);
    PagesAreEights(size);
    EightIsFour(b + size + c);
    EightIsFour(size);
    FourSum(b, size);
    FourRest(b + size, c);
  }

  lemma CorrectionEight(b: Addr, size: nat, oldSize: nat)
    requires b % 8 == 0 && size % PAGE == 0
    ensures Correction(b, size, oldSize) % 8 == 0
  {
    hide *;
    var c := Correction(b, size, oldSize);
    CorrectionIs(b, size, oldSize);
    PagesAreEights(b + size + c);
    PagesAreEights(size);
    SumEights(b, size);
    SumEights(b + size, c);
  }

  lemma SecondIs(o: Offer, oldSize: nat)
    requires o.start.Some?
    ensures SecondAnswer(o, oldSize) == Sbrk(NoGap(o.after), Correction(o.start.value, o.size, oldSize))
    ensures NoGap(o.after).brk == o.after.brk && NoGap(o.after).floor == o.after.floor
  {
    hide Sbrk, Correction;
  }

  lemma SecondWhole(o: Offer, oldSize: nat)
    requires o.start.Some? && o.after.brk % 4 == 0 && o.start.value % 4 == 0 && o.size % PAGE == 0
    ensures SecondAnswer(o, oldSize).after.brk % 4 == 0
  {
    hide *;
    SecondIs(o, oldSize);
    CorrectionFour(o.start.value, o.size, oldSize);
    SbrkWhole(NoGap(o.after), Correction(o.start.value, o.size, oldSize));
  }

  lemma FourRest(a: int, b: int)
    requires a % 4 == 0 && (a + b) % 4 == 0
    ensures b % 4 == 0
  {
    var j, k := a / 4, (a + b) / 4;
    assert b == 4 * (k - j);
  }

  lemma SecondTidy(o: Offer, oldSize: nat)
    requires o.start.Some? && Tidy(o.after) && o.start.value % 8 == 0 && o.size % PAGE == 0
    ensures Tidy(SecondAnswer(o, oldSize).after)
  {
    hide *;
    SecondIs(o, oldSize);
    CorrectionEight(o.start.value, o.size, oldSize);
    NoGapTidy(o.after);
    SbrkTidy(NoGap(o.after), Correction(o.start.value, o.size, oldSize));
  }

  lemma NoGapTidy(y: Sys)
    requires Tidy(y)
    ensures Tidy(NoGap(y))
  {
    var z := NoGap(y);
    forall i | 0 <= i < |z.replies| && z.replies[i].Grant? ensures z.replies[i].gap % 2 == 0 && z.replies[i].extra % 2 == 0 {
      if i > 0 { assert z.replies[i] == y.replies[i]; }
    }
  }

  lemma NoGapEven(y: Sys)
    requires Even(y)
    ensures NoGap(y) == y
  {
    if y.replies != [] {
      assert y.replies[0] == Grant(0, 0);
      assert [Grant(0, 0)] + y.replies[1..] == y.replies;
    }
  }

  lemma SecondEven(o: Offer, oldSize: nat)
    requires o.start.Some? && Even(o.after) && o.start.value % 8 == 0 && o.size % PAGE == 0
    ensures Even(SecondAnswer(o, oldSize).after)
    ensures var a := SecondAnswer(o, oldSize);
            a.start.Some? ==> a.after.brk == o.after.brk + Correction(o.start.value, o.size, oldSize)
  {
    hide *;
    SecondIs(o, oldSize);
    CorrectionEight(o.start.value, o.size, oldSize);
    NoGapEven(o.after);
    EvenSbrk(o.after, Correction(o.start.value, o.size, oldSize));
  }

  /** Aligned memory makes an aligned top. */
  lemma TidyLined(y: Sys, contiguous: bool, oldEnd: Addr, oldSize: nat, nb: nat)
    requires Tidy(y) && oldSize < nb + MINSIZE
    ensures Lined(Dealt(y, contiguous, oldEnd, oldSize, nb))
  {
    var o := Offered(y, contiguous, oldSize, nb);
    LinedWhen(y, contiguous, oldEnd, oldSize, nb);
    OfferTidy(y, contiguous, oldSize, nb);
    OfferSize(y, contiguous, oldSize, nb);
    if o.start.Some? && o.start != Some(oldEnd) && !o.mapped {
      PagesAreEights(o.size);
      var b := o.start.value;
      SumEights(b, o.size);
      SumEights(b + o.size, Excess(o));
      SumEights(b, Excess(o));
    }
    hide Offered, Lined, Dealt, Tidy;
  }

  /** A system that only continues its memory delivers exactly when it has an answer left and
      room for what top lacks. */
  lemma EvenDelivers(y: Sys, oldEnd: Addr, oldSize: nat, nb: nat)
    requires Even(y) && oldSize < nb + MINSIZE && (oldSize == 0 || oldEnd == y.brk)
    ensures Delivers(Dealt(y, true, oldEnd, oldSize, nb), nb) <==> y.replies != [] && y.brk + Wanted(nb, oldSize, true) <= y.floor
  {
    var o := Offered(y, true, oldSize, nb);
    OfferEven(y, oldSize, nb);
    FallsShort(y, true, oldEnd, oldSize, nb);
    OfferSize(y, true, oldSize, nb);
    if o.start.Some? && o.start != Some(oldEnd) {
      var d := Dealt(y, true, oldEnd, oldSize, nb);
      SecondStart(o, oldSize);
      CorrectionIs(o.start.value, o.size, oldSize);
      assert AlignedStart(o.start.value) == o.start.value;
      hide Wanted, Correction, SecondAnswer, Offered, Even;
      assert d.Anew? && d.start == o.start.value && d.end == FreshEnd(o, oldSize);
      if oldSize == 0 { assert d.left == d.end - d.start; }
    }
  }

  // ----- what the parts of the code contribute -----

  lemma FirstFloor(y: Sys, size: nat)
    ensures FirstAnswer(y, size).after.floor == y.floor
  {
  }

  lemma MoreFloor(y: Sys, size: nat)
    ensures SbrkMore(y, size).after.floor == y.floor
  {
  }

  lemma WantedIs(nb: nat, oldSize: nat, contiguous: bool)
    requires oldSize < nb + MINSIZE
    ensures Wanted(nb, oldSize, contiguous) == RoundUp(nb + MINSIZE - (if contiguous then oldSize else 0))
    ensures var size := if contiguous then RoundUp(Wanted(nb, oldSize, contiguous) + oldSize) else Wanted(nb, oldSize, contiguous);
            MapWanted(nb, oldSize, contiguous) == if size < MMAP_AS_MORECORE_SIZE then MMAP_AS_MORECORE_SIZE else size
  {
    hide RoundUp;
  }

  lemma OfferedIs(y: Sys, contiguous: bool, oldSize: nat, nb: nat)
    ensures var size := Wanted(nb, oldSize, contiguous);
            var first := FirstAnswer(y, size);
            var more := MapWanted(nb, oldSize, contiguous);
            var second := Mmap(first.after, more);
            Offered(y, contiguous, oldSize, nb)
            == if first.start != None then Offer(first.start, size, false, contiguous, first.after)
               else Offer(second.start, more, true, contiguous && second.start == None, second.after)
  {
    hide Wanted, MapWanted, FirstAnswer, Mmap;
  }

  lemma StartIs(b: Addr, size: nat, oldSize: nat)
    ensures AlignedStart(b) == if b % 8 > 0 then b + (8 - b % 8) else b
    ensures var c := (if b % 8 > 0 then 8 - b % 8 else 0) + oldSize;
            Correction(b, size, oldSize) == c + (RoundUp(b + size + c) - (b + size + c))
  {
    hide RoundUp;
  }

  /** What the statistics count for the second request. */
  function Counted(o: Offer, oldSize: nat): nat
    requires o.start.Some?
  {
    if o.contiguous && SecondAnswer(o, oldSize).start.Some? then Correction(o.start.value, o.size, oldSize) else 0
  }

  lemma SettledIs(o: Offer, oldSize: nat)
    requires o.start.Some? && (o.mapped ==> !o.contiguous)
    ensures var second := SbrkMore(o.after, Correction(o.start.value, o.size, oldSize));
            && Settlement(o, oldSize) == (if o.contiguous then second.after else o.after)
            && FreshEnd(o, oldSize)
               == (if o.mapped then o.start.value + o.size
                   else if !o.contiguous then o.after.brk
                   else if second.start != None then second.start.value + Correction(o.start.value, o.size, oldSize)
                   else second.after.brk)
            && Counted(o, oldSize)
               == (if o.contiguous && second.start != None then Correction(o.start.value, o.size, oldSize) else 0)
  {
    hide SbrkMore, Correction;
  }

  /** A new top starts where the offer starts, or at the next aligned place, and ends inside
      the memory obtained. */
  lemma EndsWhere(o: Offer, oldSize: nat)
    requires o.start.Some? && (o.mapped ==> !o.contiguous) && o.size >= PAGE
    requires !o.mapped ==> o.start.value + o.size <= o.after.brk <= o.after.floor
    requires o.after.brk <= o.after.floor
    ensures var y := Settlement(o, oldSize);
            var a := if o.contiguous then AlignedStart(o.start.value) else o.start.value;
            var e := FreshEnd(o, oldSize);
            && y.floor == o.after.floor && o.after.brk <= y.brk <= y.floor && o.start.value <= a && a + MINSIZE <= e
            && (o.mapped ==> e == o.start.value + o.size && y == o.after && a == o.start.value)
            && (!o.mapped ==> e <= y.brk)
  {
    SettledIs(o, oldSize);
    if o.contiguous {
      SecondStart(o, oldSize);
      CorrectionIs(o.start.value, o.size, oldSize);
    }
    hide Correction, SbrkMore, Settlement, FreshEnd, AlignedStart;
  }

  lemma EndsWhole(o: Offer, oldSize: nat)
    requires o.start.Some? && (o.mapped ==> !o.contiguous) && o.size % PAGE == 0
    requires o.start.value % 4 == 0 && o.after.brk % 4 == 0
    ensures Settlement(o, oldSize).brk % 4 == 0 && FreshEnd(o, oldSize) % 4 == 0
    ensures AlignedStart(o.start.value) % 4 == 0
  {
    hide *;
    var b, c := o.start.value, Correction(o.start.value, o.size, oldSize);
    SettledIs(o, oldSize);
    SecondMore(o, oldSize);
    CorrectionFour(b, o.size, oldSize);
    SecondWhole(o, oldSize);
    SecondStart(o, oldSize);
    NextEight(b);
    EightIsFour(AlignedStart(b));
    FourSum(o.after.brk, c);
  }

  lemma SecondMore(o: Offer, oldSize: nat)
    requires o.start.Some?
    ensures SecondAnswer(o, oldSize) == SbrkMore(o.after, Correction(o.start.value, o.size, oldSize))
  {
    hide SbrkMore, Correction;
  }

  lemma SettledOrderly(o: Offer, oldSize: nat, steady: bool, tidy: bool)
    requires o.start.Some? && (o.mapped ==> !o.contiguous) && o.size % PAGE == 0 && o.start.value % 4 == 0
    requires Orderly(steady, tidy, o.contiguous, o.after) && (tidy && o.contiguous ==> o.start.value % 8 == 0)
    ensures Orderly(steady, tidy, o.contiguous, Settlement(o, oldSize))
  {
    EndsWhole(o, oldSize);
    if o.contiguous && tidy { SecondTidy(o, oldSize); }
    if o.contiguous && steady { SecondEven(o, oldSize); }
    hide Correction, SbrkMore, Even, Tidy;
  }

  /** In the steady case all that is obtained is counted and becomes top. */
  lemma SettledEven(o: Offer, oldSize: nat)
    requires o.start.Some? && !o.mapped && o.contiguous && Even(o.after) && o.size % PAGE == 0
    requires o.start.value % 8 == 0 && o.start.value + o.size == o.after.brk
    ensures FreshEnd(o, oldSize) == Settlement(o, oldSize).brk
    ensures FreshEnd(o, oldSize) - o.start.value == o.size + Counted(o, oldSize)
  {
    SettledIs(o, oldSize);
    SecondStart(o, oldSize);
    SecondEven(o, oldSize);
    hide Correction, SbrkMore, Settlement, FreshEnd, Counted, Even;
  }

  /** What becomes of top, case by case. */
  lemma StruckIs(o: Offer, oldEnd: Addr, oldSize: nat)
    ensures o.start == None ==> Struck(o, oldEnd, oldSize) == Nothing
    ensures o.start == Some(oldEnd) && !o.mapped ==> Struck(o, oldEnd, oldSize) == Grows(oldSize + o.size)
  {
    hide AlignedStart, FreshEnd, TopLeft, Settlement;
  }

  lemma AnewIs(o: Offer, oldEnd: Addr, oldSize: nat)
    requires o.start.Some? && (o.start.value != oldEnd || o.mapped)
    ensures var a := if o.contiguous then AlignedStart(o.start.value) else o.start.value;
            var e := FreshEnd(o, oldSize);
            var d := Struck(o, oldEnd, oldSize);
            && d.Anew? && d.start == a && d.end == e
            && (Lined(d) <==> a % 8 == 0 && e % 8 == 0)
            && (a <= e ==> d.left == TopLeft(Settlement(o, oldSize), e, e - a, oldSize))
  {
    hide AlignedStart, FreshEnd, TopLeft, Settlement;
  }

  lemma NothingDealt(nb: nat)
    ensures Lined(Nothing) && !Delivers(Nothing, nb)
  {
  }

  lemma TopLeftIs(y: Sys, end: Addr, size: nat, oldSize: nat)
    ensures TopLeft(y, end, size, oldSize)
         == size - (if oldSize >= LARGE_RELEASE + MINSIZE && size >= DEFAULT_TRIM_THRESHOLD then TrimmedBy(y, end, size) else 0)
  {
    hide TrimmedBy;
  }

  lemma TrimmedIs(y: Sys, end: Addr, size: nat)
    ensures TrimmedBy(y, end, size) == if TrimExtra(size) > 0 && y.brk == end then GivenBack(y, TrimExtra(size)) else 0
  {
    hide TrimExtra, GivenBack;
  }

  lemma TidyParts(y: Sys)
    requires Tidy(y)
    ensures y.brk % 8 == 0
  {
  }

  lemma OfferSystem(y: Sys, steady: bool, tidy: bool, contiguous: bool, oldSize: nat, nb: nat)
    requires Orderly(steady, tidy, contiguous, y) && oldSize < nb + MINSIZE
    ensures var o := Offered(y, contiguous, oldSize, nb);
            && Orderly(steady, tidy, o.contiguous, o.after)
            && (o.start.Some? ==> o.start.value % 4 == 0 && (tidy ==> o.start.value % 8 == 0))
            && (o.start.Some? && steady ==> !o.mapped && o.start.value == y.brk && o.start.value + o.size == o.after.brk
                                            && y.brk % 8 == 0)
  {
    OfferWhole(y, contiguous, oldSize, nb);
    if tidy { OfferTidy(y, contiguous, oldSize, nb); }
    if steady {
      OfferEven(y, oldSize, nb);
      TidyParts(y);
    }
    hide Offered, Tidy, Even;
  }

  /** A mapping lies between the break and the mappings before it; nothing else lowers them. */
  lemma OfferMap(y: Sys, contiguous: bool, oldSize: nat, nb: nat)
    requires oldSize < nb + MINSIZE
    ensures var o := Offered(y, contiguous, oldSize, nb);
            && (o.start == None ==> o.after.brk == y.brk && o.after.floor == y.floor)
            && (o.start.Some? && o.mapped ==>
                  o.after.brk == y.brk <= o.start.value && o.start.value == o.after.floor && o.start.value % 8 == 0
                  && o.start.value + o.size <= y.floor && !o.contiguous)
  {
    var first := FirstAnswer(y, Wanted(nb, oldSize, contiguous));
    MmapIs(first.after, MapWanted(nb, oldSize, contiguous));
    FirstKeeps(y, Wanted(nb, oldSize, contiguous));
    hide Wanted, MapWanted, FirstAnswer, Mmap;
  }

  lemma FirstKeeps(y: Sys, size: nat)
    ensures var a := FirstAnswer(y, size);
            a.after.floor == y.floor && (a.start == None ==> a.after.brk == y.brk) && a.after.brk >= y.brk
  {
  }

  lemma GrowsLined(size: nat)
    ensures Lined(Grows(size))
  {
  }

  // ----- answers with which the program fails -----

  lemma OneWordOff()
    ensures forall end: Addr | end < LOW :: !Lined(Dealt(Sys(LOW, 0x1000_0000, [Grant(1, 0)]), true, end, 0, 104))
  {
    var y := Sys(LOW, 0x1000_0000, [Grant(1, 0)]);
    assert Wanted(104, 0, true) == PAGE;
    assert Sbrk(y, PAGE) == Answer(Some(LOW + 4), Sys(LOW + 4 + PAGE, 0x1000_0000, []));
    var o := Offered(y, true, 0, 104);
    assert SecondAnswer(o, 0).start == None;
    forall end: Addr | end < LOW ensures !Lined(Dealt(y, true, end, 0, 104)) {
      LinedWhen(y, true, end, 0, 104);
    }
  }

  lemma OneWordMore()
    ensures forall end: Addr | end < LOW :: !Lined(Dealt(Sys(LOW, 0x1000_0000, [Grant(0, 1), Grant(0, 0)]), true, end, 0, 104))
  {
    var y := Sys(LOW, 0x1000_0000, [Grant(0, 1), Grant(0, 0)]);
    assert Wanted(104, 0, true) == PAGE;
    assert Sbrk(y, PAGE) == Answer(Some(LOW), Sys(LOW + PAGE + 4, 0x1000_0000, [Grant(0, 0)]));
    var o := Offered(y, true, 0, 104);
    assert Correction(LOW, PAGE, 0) == 0;
    assert SecondAnswer(o, 0).start == Some(LOW + PAGE + 4);
    forall end: Addr | end < LOW ensures !Lined(Dealt(y, true, end, 0, 104)) {
      LinedWhen(y, true, end, 0, 104);
    }
  }

  /** Four answers away from a trimmed top: the heap ends at 0x20000 with a top of 0x10010 bytes. */
  function Trimming(): Sys {
    Sys(0x2_0000, 0x7000_0000, [Grant(1024, 0), Grant(0, 0), Grant(0, 0)])
  }

  lemma TrimmingOffer()
    ensures Offered(Trimming(), true, 0x1_0010, 0x4000_0000)
         == Offer(Some(0x2_1000), 0x3FFF_0000, false, true, Sys(0x4001_1000, 0x7000_0000, [Grant(0, 0), Grant(0, 0)]))
  {
    assert Wanted(0x4000_0000, 0x1_0010, true) == 0x3FFF_0000;
  }

  lemma TrimmingRest(o: Offer)
    requires o == Offer(Some(0x2_1000), 0x3FFF_0000, false, true, Sys(0x4001_1000, 0x7000_0000, [Grant(0, 0), Grant(0, 0)]))
    ensures SecondAnswer(o, 0x1_0010) == Answer(Some(0x4001_1000), Sys(0x4002_2000, 0x7000_0000, [Grant(0, 0)]))
    ensures FreshEnd(o, 0x1_0010) == 0x4002_2000
  {
    assert Correction(0x2_1000, 0x3FFF_0000, 0x1_0010) == 0x1_1000;
    assert [Grant(0, 0)] + o.after.replies[1..] == o.after.replies;
    hide Correction;
  }

  lemma TrimmingLeft()
    ensures TopLeft(Sys(0x4002_2000, 0x7000_0000, [Grant(0, 0)]), 0x4002_2000, 0x4000_1000, 0x1_0010) == 0x1000
  {
    assert TrimExtra(0x4000_1000) == 0x4000_0000;
    hide TrimExtra;
  }

  /** The system grants all that is asked for, but because the old top was large the new one is
      trimmed before the request is served from it, and too little is left. */
  lemma TrimmedAway()
    ensures var d := Dealt(Trimming(), true, 0x2_0000, 0x1_0010, 0x4000_0000);
            d.Anew? && Lined(d) && d.start + 0x4000_0000 + MINSIZE <= d.end && !Delivers(d, 0x4000_0000)
  {
    TrimmingOffer();
    var o := Offered(Trimming(), true, 0x1_0010, 0x4000_0000);
    TrimmingRest(o);
    TrimmingLeft();
    StartIs(0x2_1000, 0x3FFF_0000, 0x1_0010);
    AnewIs(o, 0x2_0000, 0x1_0010);
    hide Offered, Trimming, SecondAnswer, FreshEnd, TopLeft, AlignedStart;
  }
}
