/** A segregated-fits heap: one free list per size class and a bitmap that says which
    lists may be non-empty. */
module SegregatedFits {

  // ----- one 32-bit word of the bitmap -----

  const WORD_BITS: nat := 32

  /** idx2bit, for a position inside a word. */
  function Bit(k: nat): bv32
    requires k < WORD_BITS
  {
    1 << k
  }

  ghost predicate Power(b: bv32) {
    b != 0 && b & (b - 1) == 0
  }

  lemma BitPower(k: nat)
    requires k < WORD_BITS
    ensures Power(Bit(k)) && (k < 31 ==> Bit(k) < 0x8000_0000)
  {
    if
    case k == 0 =>
    case k == 1 =>
    case k == 2 =>
    case k == 3 =>
    case k == 4 =>
    case k == 5 =>
    case k == 6 =>
    case k == 7 =>
    case k == 8 =>
    case k == 9 =>
    case k == 10 =>
    case k == 11 =>
    case k == 12 =>
    case k == 13 =>
    case k == 14 =>
    case k == 15 =>
    case k == 16 =>
    case k == 17 =>
    case k == 18 =>
    case k == 19 =>
    case k == 20 =>
    case k == 21 =>
    case k == 22 =>
    case k == 23 =>
    case k == 24 =>
    case k == 25 =>
    case k == 26 =>
    case k == 27 =>
    case k == 28 =>
    case k == 29 =>
    case k == 30 =>
    case k == 31 =>
  }

  function Double(b: bv32): bv32 { b << 1 }

  lemma BitDoubles(k: nat)
    requires k < WORD_BITS
    ensures Double(Bit(k)) == if k < 31 then Bit(k + 1) else 0
  {
    if
    case k == 0 =>
    case k == 1 =>
    case k == 2 =>
    case k == 3 =>
    case k == 4 =>
    case k == 5 =>
    case k == 6 =>
    case k == 7 =>
    case k == 8 =>
    case k == 9 =>
    case k == 10 =>
    case k == 11 =>
    case k == 12 =>
    case k == 13 =>
    case k == 14 =>
    case k == 15 =>
    case k == 16 =>
    case k == 17 =>
    case k == 18 =>
    case k == 19 =>
    case k == 20 =>
    case k == 21 =>
    case k == 22 =>
    case k == 23 =>
    case k == 24 =>
    case k == 25 =>
    case k == 26 =>
    case k == 27 =>
    case k == 28 =>
    case k == 29 =>
    case k == 30 =>
    case k == 31 =>
  }

  lemma DoubleMore(b: bv32)
    requires b != 0 && b < 0x8000_0000
    ensures b < b << 1
  {
  }

  lemma {:induction false} BitsRise(j: nat, k: nat)
    requires j <= k < WORD_BITS
    ensures Bit(j) <= Bit(k) && (j < k ==> Bit(j) < Bit(k))
  {
    if j < k {
      BitsRise(j, k - 1);
      BitPower(k - 1);
      BitDoubles(k - 1);
      DoubleMore(Bit(k - 1));
    }
  }

  function Mark(word: bv32, b: bv32): bv32 { word | b }

  function Unmark(word: bv32, b: bv32): bv32 { word & !b }

  predicate Shares(word: bv32, b: bv32) {
    word & b != 0
  }

  ghost predicate On(word: bv32, k: nat)
    requires k < WORD_BITS
  {
    Shares(word, Bit(k))
  }

  lemma BelowBit(word: bv32, b: bv32)
    requires Power(b) && word < b
    ensures word & b == 0
  {
  }

  /** A position whose bit exceeds the word has no bit of the word at or above it. */
  lemma NoneAbove(word: bv32, k: nat)
    requires k < WORD_BITS && Bit(k) > word
    ensures forall j | k <= j < WORD_BITS :: !On(word, j)
  {
    forall j | k <= j < WORD_BITS ensures !On(word, j) {
      BitsRise(k, j);
      BitPower(j);
      BelowBit(word, Bit(j));
    }
  }

  lemma HalfBit(word: bv32, b: bv32)
    requires Power(b) && b < 0x8000_0000 && word < b << 1 && word & b == 0
    ensures word < b
  {
  }

  lemma TopBit(word: bv32)
    requires word & 0x8000_0000 == 0
    ensures word < 0x8000_0000
  {
  }

  /** Conversely, a word with no bit at or above a position is less than its bit. */
  lemma {:induction false} AllBelow(word: bv32, k: nat)
    requires k < WORD_BITS && forall j | k <= j < WORD_BITS :: !On(word, j)
    ensures word < Bit(k)
    decreases WORD_BITS - k
  {
    BitPower(k);
    BitDoubles(k);
    assert !On(word, k);
    if k == 31 {
      assert Bit(31) == 0x8000_0000;
      TopBit(word);
    } else {
      AllBelow(word, k + 1);
      HalfBit(word, Bit(k));
    }
  }

  lemma TwoPowers(a: bv32, b: bv32)
    requires Power(a) && Power(b) && a != b
    ensures !Shares(a, b)
  {
  }

  lemma Apart(i: nat, k: nat)
    requires i < WORD_BITS && k < WORD_BITS && i != k
    ensures !Shares(Bit(i), Bit(k))
  {
    hide Bit, Power, Shares;
    BitPower(i);
    BitPower(k);
    BitsRise(if i < k then i else k, if i < k then k else i);
    TwoPowers(Bit(i), Bit(k));
  }

  lemma NotZero(k: nat)
    requires k < WORD_BITS
    ensures Bit(k) != 0
  {
    BitPower(k);
  }

  lemma ClearBit(word: bv32, a: bv32, b: bv32)
    requires !Shares(a, b)
    ensures Shares(Unmark(word, a), b) <==> Shares(word, b)
  {
  }

  lemma ClearSame(word: bv32, a: bv32)
    ensures !Shares(Unmark(word, a), a)
  {
  }

  lemma SetBit(word: bv32, a: bv32, b: bv32)
    requires !Shares(a, b)
    ensures Shares(Mark(word, a), b) <==> Shares(word, b)
  {
  }

  lemma SetSame(word: bv32, a: bv32)
    requires a != 0
    ensures Shares(Mark(word, a), a)
  {
  }

  lemma Cleared(word: bv32, i: nat, k: nat)
    requires i < WORD_BITS && k < WORD_BITS
    ensures On(Unmark(word, Bit(i)), k) <==> On(word, k) && k != i
  {
    hide Bit, Shares, Mark, Unmark;
    if k == i {
      ClearSame(word, Bit(i));
    } else {
      Apart(i, k);
      ClearBit(word, Bit(i), Bit(k));
    }
  }

  lemma Marked(word: bv32, i: nat, k: nat)
    requires i < WORD_BITS && k < WORD_BITS
    ensures On(Mark(word, Bit(i)), k) <==> On(word, k) || k == i
  {
    hide Bit, Shares, Mark, Unmark;
    if k == i {
      NotZero(i);
      SetSame(word, Bit(i));
    } else {
      Apart(i, k);
      SetBit(word, Bit(i), Bit(k));
    }
  }

  // ----- the bitmap over all bins -----

  ghost predicate Flag(binmap: seq<bv32>, i: nat) {
    i / WORD_BITS < |binmap| && On(binmap[i / WORD_BITS], i % WORD_BITS)
  }

  lemma FlagAt(binmap: seq<bv32>, block: nat, k: nat)
    requires block < |binmap| && k < WORD_BITS
    ensures Flag(binmap, block * WORD_BITS + k) <==> On(binmap[block], k)
  {
    assert (block * WORD_BITS + k) / WORD_BITS == block && (block * WORD_BITS + k) % WORD_BITS == k;
  }

  lemma FlagUnmark(binmap: seq<bv32>, i: nat, j: nat)
    requires i / WORD_BITS < |binmap|
    ensures Flag(binmap[i / WORD_BITS := Unmark(binmap[i / WORD_BITS], Bit(i % WORD_BITS))], j)
       <==> Flag(binmap, j) && j != i
  {
    hide On;
    if i / WORD_BITS == j / WORD_BITS {
      Cleared(binmap[i / WORD_BITS], i % WORD_BITS, j % WORD_BITS);
    }
  }

  lemma FlagMark(binmap: seq<bv32>, i: nat, j: nat)
    requires i / WORD_BITS < |binmap|
    ensures Flag(binmap[i / WORD_BITS := Mark(binmap[i / WORD_BITS], Bit(i % WORD_BITS))], j)
       <==> Flag(binmap, j) || j == i
  {
    hide On;
    if i / WORD_BITS == j / WORD_BITS {
      Marked(binmap[i / WORD_BITS], i % WORD_BITS, j % WORD_BITS);
    }
  }

  // ----- size classes -----

  datatype Option<+T> = None | Some(value: T)

  /** What the heap demands of its size functions: classes grow, and the class of a size
      that is not too big has a large enough maximum. */
  ghost predicate Classes(sizeClass: nat -> nat, classSize: seq<nat>) {
    && 0 < |classSize| && 0 < classSize[0]
    && (forall i, j | 0 <= i < j < |classSize| :: classSize[i] < classSize[j])
    && (forall sz | 0 < sz <= classSize[|classSize| - 1] ::
          sizeClass(sz) < |classSize| && sz <= classSize[sizeClass(sz)])
  }

  /** The linear scan: the lowest non-empty bin at or above the given one. */
  function Scan(bins: seq<seq<nat>>, from: nat): (found: Option<nat>)
    ensures match found
            case Some(i) => from <= i < |bins| && bins[i] != [] && forall j | from <= j < i :: bins[j] == []
            case None => forall j | from <= j < |bins| :: bins[j] == []
    decreases |bins| - from
  {
    if from >= |bins| then None else if bins[from] != [] then Some(from) else Scan(bins, from + 1)
  }

  lemma {:induction false} ScanFound(bins: seq<seq<nat>>, from: nat, i: nat)
    requires from <= i < |bins| && bins[i] != [] && forall j | from <= j < i :: bins[j] == []
    ensures Scan(bins, from) == Some(i)
    decreases i - from
  {
    if from < i { ScanFound(bins, from + 1, i); }
  }

  ghost predicate Fits(classSize: seq<nat>, i: nat, size: nat) {
    i < |classSize| && classSize[i] <= size && (i + 1 < |classSize| ==> size < classSize[i + 1])
  }

  /** A size has one home class. */
  lemma OneHome(sizeClass: nat -> nat, classSize: seq<nat>, i: nat, j: nat, size: nat)
    requires Classes(sizeClass, classSize) && Fits(classSize, i, size) && Fits(classSize, j, size)
    ensures i == j
  {
  }

  // ----- bins and bitmap together -----

  /** A non-empty bin has its bit set, and no bit is set beyond the last bin. */
  ghost predicate Mapped(bins: seq<seq<nat>>, binmap: seq<bv32>) {
    && (forall i: nat | i < |bins| && bins[i] != [] :: Flag(binmap, i))
    && (forall i: nat | Flag(binmap, i) :: i < |bins|)
  }

  /** The objects of a bin have at least the size of its class and less than the next. */
  ghost predicate Sized(classSize: seq<nat>, getSize: nat -> nat, bins: seq<seq<nat>>) {
    forall i: nat, o | i < |bins| && o in bins[i] :: Fits(classSize, i, getSize(o))
  }

  ghost predicate EmptyFrom(bins: seq<seq<nat>>, from: nat, to: nat) {
    forall i | from <= i < to && i < |bins| :: bins[i] == []
  }

  /** Bins of the block from position k on are empty when the bit of k exceeds the word
      or has been shifted out. */
  lemma RestOfBlock(bins: seq<seq<nat>>, binmap: seq<bv32>, block: nat, k: nat)
    requires Mapped(bins, binmap) && block < |binmap| && k <= WORD_BITS
    requires k < WORD_BITS ==> Bit(k) > binmap[block]
    ensures EmptyFrom(bins, block * WORD_BITS + k, (block + 1) * WORD_BITS)
  {
    hide On, Bit;
    if k < WORD_BITS { NoneAbove(binmap[block], k); }
    forall i | block * WORD_BITS + k <= i < (block + 1) * WORD_BITS && i < |bins| ensures bins[i] == [] {
      FlagAt(binmap, block, i - block * WORD_BITS);
    }
  }

  lemma UpToBit(bins: seq<seq<nat>>, binmap: seq<bv32>, block: nat, start: nat, k: nat)
    requires Mapped(bins, binmap) && block < |binmap| && start <= k < WORD_BITS
    requires forall j | start <= j < k :: !On(binmap[block], j)
    ensures EmptyFrom(bins, block * WORD_BITS + start, block * WORD_BITS + k)
  {
    hide On, Bit;
    forall i | block * WORD_BITS + start <= i < block * WORD_BITS + k && i < |bins| ensures bins[i] == [] {
      FlagAt(binmap, block, i - block * WORD_BITS);
    }
  }

  lemma UnmarkKeeps(bins: seq<seq<nat>>, binmap: seq<bv32>, i: nat)
    requires Mapped(bins, binmap) && i < |bins| && bins[i] == [] && i / WORD_BITS < |binmap|
    ensures Mapped(bins, binmap[i / WORD_BITS := Unmark(binmap[i / WORD_BITS], Bit(i % WORD_BITS))])
  {
    hide Flag, Bit, Unmark;
    var m := binmap[i / WORD_BITS := Unmark(binmap[i / WORD_BITS], Bit(i % WORD_BITS))];
    forall j: nat ensures Flag(m, j) <==> Flag(binmap, j) && j != i {
      FlagUnmark(binmap, i, j);
    }
  }

  lemma MarkKeeps(bins: seq<seq<nat>>, binmap: seq<bv32>, i: nat, bin: seq<nat>)
    requires Mapped(bins, binmap) && i < |bins| && i / WORD_BITS < |binmap|
    ensures Mapped(bins[i := bin], binmap[i / WORD_BITS := Mark(binmap[i / WORD_BITS], Bit(i % WORD_BITS))])
  {
    hide Flag, Bit, Mark;
    var m := binmap[i / WORD_BITS := Mark(binmap[i / WORD_BITS], Bit(i % WORD_BITS))];
    forall j: nat ensures Flag(m, j) <==> Flag(binmap, j) || j == i {
      FlagMark(binmap, i, j);
    }
  }

  lemma TakeKeeps(classSize: seq<nat>, getSize: nat -> nat, bins: seq<seq<nat>>, binmap: seq<bv32>, i: nat)
    requires Mapped(bins, binmap) && Sized(classSize, getSize, bins) && i < |bins| && bins[i] != []
    ensures Mapped(bins[i := bins[i][1..]], binmap) && Sized(classSize, getSize, bins[i := bins[i][1..]])
    ensures Fits(classSize, i, getSize(bins[i][0]))
  {
    hide Flag, Fits;
  }

  lemma PutKeeps(classSize: seq<nat>, getSize: nat -> nat, bins: seq<seq<nat>>, i: nat, o: nat)
    requires Sized(classSize, getSize, bins) && i < |bins| && Fits(classSize, i, getSize(o))
    ensures Sized(classSize, getSize, bins[i := [o] + bins[i]])
  {
    hide Fits;
  }

  lemma SomeAbove(word: bv32, k: nat)
    requires k < WORD_BITS && Bit(k) <= word
    ensures exists j | k <= j < WORD_BITS :: On(word, j)
  {
    hide Bit, On;
    if !exists j | k <= j < WORD_BITS :: On(word, j) {
      AllBelow(word, k);
    }
  }

  /** The inner loop of the search: shift up to the next bit of the word. */
  method NextBit(word: bv32, start: nat) returns (k: nat)
    requires start < WORD_BITS && Bit(start) <= word
    ensures start <= k < WORD_BITS && On(word, k)
    ensures forall j | start <= j < k :: !On(word, j)
  {
    k := start;
    var bit := Bit(k);
    SomeAbove(word, k);
    hide Bit, Shares, Double;
    while !Shares(word, bit)
      invariant start <= k < WORD_BITS && bit == Bit(k)
      invariant forall j | start <= j < k :: !On(word, j)
      invariant exists j | k <= j < WORD_BITS :: On(word, j)
      decreases WORD_BITS - k
    {
      BitDoubles(k);
      bit, k := Double(bit), k + 1;
    }
  }

  /** do ... while: the next block with a bit set. */
  method NextBlock(binmap: seq<bv32>, start: nat, ghost bins: seq<seq<nat>>) returns (block: nat)
    requires Mapped(bins, binmap) && start < |binmap|
    ensures start < block <= |binmap|
    ensures block < |binmap| ==> binmap[block] != 0
    ensures EmptyFrom(bins, (start + 1) * WORD_BITS, block * WORD_BITS)
  {
    block := start + 1;
    while block < |binmap| && binmap[block] == 0
      invariant start < block <= |binmap|
      invariant EmptyFrom(bins, (start + 1) * WORD_BITS, block * WORD_BITS)
    {
      assert Bit(0) == 1;
      RestOfBlock(bins, binmap, block, 0);
      block := block + 1;
    }
  }

  /** From a position that may be past the last bit of its block to the next bit that is
      set, or to the end of the bitmap. */
  method NextFlag(binmap: seq<bv32>, start: nat, startBlock: nat, ghost bins: seq<seq<nat>>) returns (block: nat, idx: nat)
    requires Mapped(bins, binmap) && startBlock < |binmap|
    requires |bins| <= |binmap| * WORD_BITS
    requires startBlock * WORD_BITS <= start <= (startBlock + 1) * WORD_BITS
    ensures block <= |binmap| && start <= idx
    ensures block == |binmap| ==> EmptyFrom(bins, start, |bins|)
    ensures block < |binmap| ==>
      block * WORD_BITS <= idx < (block + 1) * WORD_BITS && idx < |bins| && EmptyFrom(bins, start, idx)
  {
    block, idx := startBlock, start;
    var k := idx - block * WORD_BITS;
    if k == WORD_BITS || Bit(k) > binmap[block] {
      RestOfBlock(bins, binmap, block, k);
      block := NextBlock(binmap, block, bins);
      if block == |binmap| {
        return;
      }
      assert Bit(0) == 1;
      idx, k := block * WORD_BITS, 0;
    }
    hide Bit, On;
    ghost var from := k;
    k := NextBit(binmap[block], k);
    UpToBit(bins, binmap, block, from, k);
    FlagAt(binmap, block, k);
    idx := block * WORD_BITS + k;
  }

  class SegHeap {
    const sizeClass: nat -> nat     // getSizeClass
    const classSize: seq<nat>       // getClassMaxSize
    const getSize: nat -> nat       // size of an object, by its address
    const bins: array<seq<nat>>     // myLittleHeap: free objects per class
    const binmap: array<bv32>
    var big: seq<nat>               // objects given to the heap for big objects
    var memoryHeld: nat

    constructor (sizeClass: nat -> nat, classSize: seq<nat>, getSize: nat -> nat)
      requires Classes(sizeClass, classSize)
      ensures Valid() && this.classSize == classSize && this.sizeClass == sizeClass && this.getSize == getSize
      ensures fresh(bins) && fresh(binmap) && big == [] && memoryHeld == 0
      ensures forall i | 0 <= i < |classSize| :: bins[i] == []
    {
      this.sizeClass, this.classSize, this.getSize := sizeClass, classSize, getSize;
      bins := new seq<nat>[|classSize|](_ => []);
      binmap := new bv32[(|classSize| + 31) / WORD_BITS](_ => 0);
      big, memoryHeld := [], 0;
      new;
      NoFlags(binmap[..]);
    }

    ghost predicate Valid()
      reads bins, binmap
    {
      && Classes(sizeClass, classSize)
      && bins.Length == |classSize| && binmap.Length == (|classSize| + 31) / WORD_BITS
      && (bins as object) != binmap
      && Mapped(bins[..], binmap[..]) && Sized(classSize, getSize, bins[..])
    }

    /** The bitmap search takes an object from the bin that the linear scan finds, or asks
        the big heap (None) when the request is too big or the scan finds nothing.  The
        object is never smaller than the request. */
    method Malloc(sz: nat) returns (ptr: Option<nat>)
      requires Valid() && 0 < sz
      modifies bins, binmap
      ensures Valid()
      ensures sz > classSize[|classSize| - 1] ==> ptr == None && bins[..] == old(bins[..])
      ensures sz <= classSize[|classSize| - 1] ==>
        match Scan(old(bins[..]), sizeClass(sz))
        case None => ptr == None && bins[..] == old(bins[..])
        case Some(i) => ptr == Some(old(bins[..])[i][0]) && bins[..] == old(bins[..])[i := old(bins[..])[i][1..]]
      ensures ptr.Some? ==> getSize(ptr.value) >= sz
    {
      if sz > classSize[|classSize| - 1] {
        return None;
      }
      var sc := sizeClass(sz);
      var idx: nat, block: nat := sc, sc / WORD_BITS;
      ghost var before := bins[..];
      while true
        invariant Valid() && bins[..] == before
        invariant block < binmap.Length && block * WORD_BITS <= idx <= (block + 1) * WORD_BITS && sc <= idx
        invariant EmptyFrom(before, sc, idx)
        decreases binmap.Length * WORD_BITS - idx
      {
        block, idx := NextFlag(binmap[..], idx, block, bins[..]);
        if block == binmap.Length {
          ScanNone(before, sc);
          return None;
        }
        ptr := Get(idx);
        if ptr.Some? {
          ScanFound(before, sc, idx);
          BigEnough(sizeClass, classSize, sc, idx, sz, getSize(ptr.value));
          return;
        }
        UnmarkBin(idx);
        idx := idx + 1;
      }
    }

    /** A little heap gives one of its free objects, if it has any. */
    method Get(i: nat) returns (ptr: Option<nat>)
      requires Valid() && i < bins.Length
      modifies bins
      ensures Valid()
      ensures old(bins[i]) == [] ==> ptr == None && bins[..] == old(bins[..])
      ensures old(bins[i]) != [] ==> ptr == Some(old(bins[i][0])) && bins[..] == old(bins[..])[i := old(bins[i])[1..]]
                                     && Fits(classSize, i, getSize(ptr.value))
    {
      if bins[i] == [] {
        return None;
      }
      ptr := Some(bins[i][0]);
      TakeKeeps(classSize, getSize, bins[..], binmap[..], i);
      bins[i] := bins[i][1..];
      assert bins[..] == old(bins[..])[i := old(bins[i])[1..]];
    }

    method UnmarkBin(i: nat)
      requires Valid() && i < bins.Length && bins[i] == []
      modifies binmap
      ensures Valid()
    {
      UnmarkKeeps(bins[..], binmap[..], i);
      binmap[i / WORD_BITS] := Unmark(binmap[i / WORD_BITS], Bit(i % WORD_BITS));
      assert binmap[..] == old(binmap[..])[i / WORD_BITS := Unmark(old(binmap[i / WORD_BITS]), Bit(i % WORD_BITS))];
    }

    method MarkBin(i: nat)
      requires i / WORD_BITS < binmap.Length
      modifies binmap
      ensures binmap[..] == old(binmap[..])[i / WORD_BITS := Mark(old(binmap[i / WORD_BITS]), Bit(i % WORD_BITS))]
    {
      binmap[i / WORD_BITS] := Mark(binmap[i / WORD_BITS], Bit(i % WORD_BITS));
    }

    /** Frees an object: too big for the classes, it goes to the big heap; otherwise to
        the bin of the class it fits.  Objects smaller than the smallest class do not
        occur; an object of size 0 is dropped. */
    method Free(ptr: nat)
      requires Valid() && (getSize(ptr) == 0 || classSize[0] <= getSize(ptr))
      modifies this`big, this`memoryHeld, bins, binmap
      ensures Valid()
      ensures getSize(ptr) == 0 ==> bins[..] == old(bins[..]) && big == old(big)
      ensures getSize(ptr) > classSize[|classSize| - 1] ==> bins[..] == old(bins[..]) && big == old(big) + [ptr]
      ensures 0 < getSize(ptr) <= classSize[|classSize| - 1] ==>
        exists i: nat :: Fits(classSize, i, getSize(ptr))
                         && bins[..] == old(bins[..])[i := [ptr] + old(bins[..])[i]] && big == old(big)
    {
      var size := getSize(ptr);
      if size == 0 {
        return;
      }
      if size > classSize[|classSize| - 1] {
        big := big + [ptr];
        return;
      }
      var c: nat := sizeClass(size);
      while classSize[c] > size
        invariant c < |classSize| && (c + 1 < |classSize| ==> size < classSize[c + 1])
      {
        c := c - 1;
      }
      assert Fits(classSize, c, size);
      MarkKeeps(bins[..], binmap[..], c, [ptr] + bins[c]);
      PutKeeps(classSize, getSize, bins[..], c, ptr);
      bins[c] := [ptr] + bins[c];
      assert bins[..] == old(bins[..])[c := [ptr] + old(bins[..])[c]];
      MarkBin(c);
      memoryHeld := memoryHeld + size;
    }
  }

  lemma NoFlags(binmap: seq<bv32>)
    requires forall b | b in binmap :: b == 0
    ensures forall i: nat :: !Flag(binmap, i)
  {
    forall i: nat ensures !Flag(binmap, i) {
      if i / WORD_BITS < |binmap| {
        assert binmap[i / WORD_BITS] in binmap;
        Zero(Bit(i % WORD_BITS));
      }
    }
  }

  lemma Zero(b: bv32)
    ensures !Shares(0, b)
  {
  }

  lemma BigEnough(sizeClass: nat -> nat, classSize: seq<nat>, sc: nat, i: nat, sz: nat, size: nat)
    requires Classes(sizeClass, classSize) && sc <= i < |classSize| && sz <= classSize[sc] && Fits(classSize, i, size)
    ensures sz <= size
  {
  }

  lemma ScanNone(bins: seq<seq<nat>>, from: nat)
    requires EmptyFrom(bins, from, |bins|)
    ensures Scan(bins, from) == None
  {
  }
}
