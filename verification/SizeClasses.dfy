/** The size classes of the Kingsley heap and of the big heap of the Lea-style heap, and
    what they mean for a segregated-fits heap built on them. */
module SizeClasses {
  import opened SegregatedFits

  function Pow2(n: nat): (p: nat)
    ensures p > 0
  {
    if n == 0 then 1 else 2 * Pow2(n - 1)
  }

  lemma {:induction false} Pow2Rises(m: nat, n: nat)
    requires m < n
    ensures Pow2(m) < Pow2(n)
  {
    if m + 1 < n { Pow2Rises(m, n - 1); }
  }

  /** s is the quotient of x by p. */
  ghost predicate Quotient(s: nat, x: nat, p: nat) {
    s * p <= x < (s + 1) * p
  }

  /** Shifting right by one more place. */
  lemma HalveQuotient(s: nat, x: nat, p: nat)
    requires Quotient(s, x, p)
    ensures Quotient(s / 2, x, 2 * p)
  {
    var h := s / 2;
    Twice(h, p);
    Twice(h + 1, p);
    assert (h + 1) * p == h * p + p;
    assert (2 * h + 1) * p == 2 * h * p + p;
    if s == 2 * h {
      assert s * p == 2 * h * p && (s + 1) * p == (2 * h + 1) * p;
    } else {
      assert s * p == (2 * h + 1) * p && (s + 1) * p == 2 * (h + 1) * p;
    }
  }

  lemma Twice(h: nat, p: nat)
    ensures 2 * h * p == h * (2 * p) == h * p + h * p
  {
  }

  lemma Eightfold(s: nat, x: nat, p: nat)
    requires Quotient(s, x, p)
    ensures s > 7 <==> x >= 8 * p
  {
    if s > 7 {
      assert s * p == 8 * p + (s - 8) * p;
    } else {
      assert 8 * p == (s + 1) * p + (7 - s) * p;
    }
  }

  // ----- Kingsley: powers of two from 8 up -----

  const KINGSLEY_BINS: nat := 29

  function Class2Size(i: nat): nat {
    Pow2(i + 3)
  }

  const SMALL_CLASSES: seq<nat> := [0, 1, 2, 2, 3, 3, 3, 3, 4, 4, 4, 4, 4, 4, 4, 4]

  ghost predicate Least(c: nat, sz: nat) {
    sz <= Class2Size(c) && (c > 0 ==> Class2Size(c - 1) < sz)
  }

  lemma SmallClass(sz: nat)
    requires 8 <= sz <= 128
    ensures Least(SMALL_CLASSES[(sz - 1) / 8], sz)
  {
    assert Pow2(3) == 8;
    assert Pow2(4) == 16;
    assert Pow2(5) == 32;
    assert Pow2(6) == 64;
    assert Pow2(7) == 128;
    var i := (sz - 1) / 8;
    if
    case i == 0 =>
    case i == 1 =>
    case 2 <= i < 4 =>
    case 4 <= i < 8 =>
    case 8 <= i =>
  }

  /** size2Class: the least class whose size is enough. */
  method Size2Class(size: nat) returns (c: nat)
    ensures Least(c, if size < 8 then 8 else size) && c == KingsleyClass(size)
  {
    var sz := size;
    if sz < 8 {
      sz := 8;
    }
    if sz <= 128 {
      c := SMALL_CLASSES[(sz - 1) / 8];
      SmallClass(sz);
      LeastIsUnique(c, KingsleyClass(size), sz);
      return;
    }
    c := 5;
    var sz1 := (sz - 1) / 32;
    assert Pow2(5) == 32;
    assert Pow2(7) == 128;
    while sz1 > 7
      invariant c >= 5 && Quotient(sz1, sz - 1, Pow2(c)) && Class2Size(c - 1) < sz
      decreases sz1
    {
      HalveQuotient(sz1, sz - 1, Pow2(c));
      Eightfold(sz1, sz - 1, Pow2(c));
      ThreeMore(c);
      sz1 := sz1 / 2;
      c := c + 1;
    }
    Eightfold(sz1, sz - 1, Pow2(c));
    ThreeMore(c);
    LeastIsUnique(c, KingsleyClass(size), sz);
  }

  lemma ThreeMore(c: nat)
    ensures Class2Size(c) == 8 * Pow2(c)
  {
    assert Pow2(c + 3) == 2 * Pow2(c + 2);
    assert Pow2(c + 2) == 2 * Pow2(c + 1);
  }

  lemma {:induction false} LeastIsUnique(c: nat, d: nat, sz: nat)
    requires Least(c, sz) && Least(d, sz)
    ensures c == d
  {
    if c < d { Rises(c, d - 1); }
    if d < c { Rises(d, c - 1); }
  }

  lemma Rises(c: nat, d: nat)
    requires c <= d
    ensures Class2Size(c) <= Class2Size(d)
  {
    if c < d { Pow2Rises(c + 3, d + 3); }
  }

  /** The class function that Size2Class computes: the first class that is large enough. */
  function KingsleyClass(sz: nat): (c: nat)
    ensures Least(c, if sz < 8 then 8 else sz)
  {
    LeastFrom(0, if sz < 8 then 8 else sz)
  }

  function LeastFrom(c: nat, sz: nat): (d: nat)
    requires c > 0 ==> Class2Size(c - 1) < sz
    ensures Least(d, sz)
    decreases if sz <= Class2Size(c) then 0 else sz - Class2Size(c)
  {
    if sz <= Class2Size(c) then c else LeastFrom(c + 1, sz)
  }

  function KingsleySizes(n: nat): (s: seq<nat>)
    ensures |s| == n && forall i | 0 <= i < n :: s[i] == Class2Size(i)
  {
    seq(n, i => if i >= 0 then Class2Size(i) else 0)
  }

  /** The Kingsley size functions are fit for a segregated-fits heap. */
  lemma KingsleyFits()
    ensures Classes(KingsleyClass, KingsleySizes(KINGSLEY_BINS))
  {
    var sizes := KingsleySizes(KINGSLEY_BINS);
    assert Class2Size(0) == 8;
    forall i, j | 0 <= i < j < |sizes| ensures sizes[i] < sizes[j] {
      Pow2Rises(i + 3, j + 3);
    }
    forall sz: nat | 0 < sz <= sizes[KINGSLEY_BINS - 1]
      ensures KingsleyClass(sz) < KINGSLEY_BINS && sz <= sizes[KingsleyClass(sz)]
    {
      NotBeyond(KingsleyClass(sz), 28, if sz < 8 then 8 else sz);
    }
  }

  lemma NotBeyond(c: nat, d: nat, sz: nat)
    requires Least(c, sz) && sz <= Class2Size(d)
    ensures c <= d
  {
    if c > d { Rises(d, c - 1); }
  }

  // ----- the big heap: five ranges -----

  const BIG_BINS: nat := 132

  /** The table of class sizes, by ranges: steps of 8, 64, 512, 4096 and 32768, then powers
      of two up to 2^31. */
  function BigSize(i: nat): nat {
    if i < 64 then 8 * (i + 1)
    else if i < 89 then 64 * (i - 55)
    else if i < 106 then 512 * (i - 84)
    else if i < 114 then 4096 * (i - 103)
    else if i < 118 then 32768 * (i - 112)
    else Pow2(i - 100)
  }

  function Log2(n: nat): nat {
    if n <= 1 then 0 else 1 + Log2(n / 2)
  }

  /** log2, which halves until nothing is left. */
  method LogTwo(sz: nat) returns (c: nat)
    ensures c == Log2(sz) && (sz > 0 ==> Pow2(c) <= sz < 2 * Pow2(c))
  {
    c := 0;
    var sz1 := sz;
    while sz1 > 1
      invariant c + Log2(sz1) == Log2(sz)
      decreases sz1
    {
      sz1 := sz1 / 2;
      c := c + 1;
    }
    if sz > 0 { LogBounds(sz); }
  }

  lemma {:induction false} LogBounds(n: nat)
    requires n > 0
    ensures Pow2(Log2(n)) <= n < 2 * Pow2(Log2(n))
  {
    if n > 1 { LogBounds(n / 2); }
  }

  /** getSizeClass of the big heap, with its thresholds. */
  function BigClass(sz: nat): nat
    requires sz > 0
  {
    var sz1 := sz - 1;
    if sz1 <= 513 then sz1 / 8
    else if sz1 / 64 <= 32 then 56 + sz1 / 64
    else if sz1 / 512 <= 20 then 91 + sz1 / 512
    else if sz1 / 4096 <= 10 then 110 - 6 + sz1 / 4096
    else if sz1 / 32768 <= 4 then 119 - 6 + sz1 / 32768
    else if sz1 / 262144 <= 2 then 124 - 6 + sz1 / 262144
    else 126 - 6 + Log2(sz1 / 524288)
  }

  lemma {:induction false} Pow2Add(m: nat, n: nat)
    ensures Pow2(m + n) == Pow2(m) * Pow2(n)
  {
    if m > 0 {
      Pow2Add(m - 1, n);
      assert Pow2(m + n) == 2 * Pow2(m - 1 + n);
      assert 2 * (Pow2(m - 1) * Pow2(n)) == (2 * Pow2(m - 1)) * Pow2(n);
    }
  }

  lemma PowTable()
    ensures Pow2(18) == 262144 && Pow2(19) == 524288 && Pow2(20) == 1048576
  {
    assert Pow2(6) == 64;
    Pow2Add(6, 6);
    Pow2Add(6, 12);
    assert Pow2(19) == 2 * Pow2(18) && Pow2(20) == 2 * Pow2(19);
  }

  lemma PowerClass(sz: nat)
    requires 786432 < sz
    ensures BigClass(sz) == 120 + Log2((sz - 1) / 524288)
    ensures BigSize(BigClass(sz) - 1) < sz <= BigSize(BigClass(sz))
  {
    var n := (sz - 1) / 524288;
    var l := Log2(n);
    LogBounds(n);
    PowTable();
    Pow2Add(19, l);
    Pow2Add(20, l);
    assert BigSize(120 + l) == Pow2(20 + l) && BigSize(119 + l) == Pow2(19 + l);
  }

  /** The class of a size is large enough for it, always; and it is the least such class
      exactly when the size lies outside 2113 .. 10752.  In that range the class is six too
      high: the classes 89 to 94 are never asked for. */
  lemma BigClassFits(sz: nat)
    requires sz > 0
    ensures sz <= BigSize(BigClass(sz))
    ensures (BigClass(sz) > 0 ==> BigSize(BigClass(sz) - 1) < sz) <==> !(2112 < sz <= 10752)
  {
    PowTable();
    if sz > 786432 { PowerClass(sz); }
  }

  lemma BigSizesRise(i: nat, j: nat)
    requires i < j
    ensures BigSize(i) < BigSize(j)
  {
    PowTable();
    if i >= 118 {
      Pow2Rises(i - 100, j - 100);
    } else if j > 118 {
      Pow2Rises(18, j - 100);
    }
  }

  function BigSizes(): (s: seq<nat>)
    ensures |s| == BIG_BINS && forall i | 0 <= i < BIG_BINS :: s[i] == BigSize(i)
  {
    seq(BIG_BINS, i => if i >= 0 then BigSize(i) else 0)
  }

  /** getSizeClass as a total function; the heap never asks for the class of 0. */
  function BigClassOf(sz: nat): nat {
    if sz > 0 then BigClass(sz) else 0
  }

  /** The big heap's size functions are fit for a segregated-fits heap, so a recycled
      object is never smaller than the request. */
  lemma BigFits()
    ensures Classes(BigClassOf, BigSizes())
  {
    var sizes := BigSizes();
    forall i, j | 0 <= i < j < |sizes| ensures sizes[i] < sizes[j] {
      BigSizesRise(i, j);
    }
    forall sz: nat | 0 < sz <= sizes[BIG_BINS - 1]
      ensures BigClassOf(sz) < BIG_BINS && sz <= sizes[BigClassOf(sz)]
    {
      BigClassFits(sz);
      ClassInRange(sz);
    }
  }

  lemma ClassInRange(sz: nat)
    requires 0 < sz <= BigSize(131)
    ensures BigClass(sz) <= 131
  {
    if sz > 786432 {
      PowerClass(sz);
      if BigClass(sz) > 132 { BigSizesRise(131, BigClass(sz) - 1); }
    }
  }
}
