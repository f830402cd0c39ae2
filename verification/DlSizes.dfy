/** Sizes in the boundary-tag allocator: padding of requests and the bin of a size. */
module DlSizes {

  const SIZE_SZ: nat := 4
  const ALIGNMENT: nat := 8
  const MINSIZE: nat := 16
  const MIN_LARGE: nat := 512
  const NBINS: nat := 128
  const NFASTBINS: nat := 10

  /** The default of max_fast: request2size(64). */
  const DEFAULT_MAX_FAST: nat := 72

  /** 2^32 - 2 * MINSIZE: requests from here on would wrap around when padded. */
  const REQUEST_LIMIT: nat := 0x1_0000_0000 - 2 * MINSIZE

  /** One gigabyte. */
  const DEFAULT_TRIM_THRESHOLD: nat := 0x4000_0000

  const PAGE: nat := 4096

  function RequestToSize(req: nat): nat {
    if req + SIZE_SZ + 7 < MINSIZE then MINSIZE else (req + SIZE_SZ + 7) / 8 * 8
  }

  /** The least multiple of the alignment that holds the request and the size word, but
      never less than the minimum chunk. */
  lemma RequestFits(req: nat)
    ensures RequestToSize(req) % ALIGNMENT == 0 && RequestToSize(req) >= MINSIZE
    ensures RequestToSize(req) >= req + SIZE_SZ
    ensures RequestToSize(req) > MINSIZE ==> RequestToSize(req) - ALIGNMENT < req + SIZE_SZ
  {
  }

  /** Asking for a padded size less the alignment mask gives the padded size back. */
  lemma RequestAgain(nb: nat)
    requires nb % ALIGNMENT == 0 && nb >= MINSIZE
    ensures RequestToSize(nb - 7) == nb
  {
  }

  predicate Small(sz: nat) {
    sz < MIN_LARGE
  }

  function SmallIndex(sz: nat): nat {
    sz / 8
  }

  function LargeIndex(sz: nat): nat {
    if sz / 64 <= 32 then 56 + sz / 64
    else if sz / 512 <= 20 then 91 + sz / 512
    else if sz / 4096 <= 10 then 110 + sz / 4096
    else if sz / 32768 <= 4 then 119 + sz / 32768
    else if sz / 262144 <= 2 then 124 + sz / 262144
    else 126
  }

  function BinIndex(sz: nat): nat {
    if Small(sz) then SmallIndex(sz) else LargeIndex(sz)
  }

  /** A larger chunk never has a smaller index, so every chunk of a higher bin is larger
      than every chunk of a lower one. */
  lemma BinIndexRises(a: nat, b: nat)
    requires a <= b
    ensures BinIndex(a) <= BinIndex(b)
  {
  }

  lemma BinIndexRange(sz: nat)
    requires sz >= MINSIZE
    ensures 2 <= BinIndex(sz) <= 126 && (Small(sz) <==> BinIndex(sz) < 64)
  {
  }

  /** A small bin holds chunks of one size. */
  lemma SmallBinExact(a: nat, b: nat)
    requires a % ALIGNMENT == 0 && b % ALIGNMENT == 0 && Small(a) && BinIndex(a) == BinIndex(b)
    ensures a == b
  {
  }

  /** The spacing of the large bins: 64, 512, 4096, 32768 and 262144 bytes, and one bin for
      what is left.  Where one spacing gives way to the next, the bins are not full, or, at
      45056 bytes, shared. */
  lemma LargeBinSpacing(sz: nat)
    requires sz >= MIN_LARGE
    ensures var i := BinIndex(sz);
            if sz < 2112 then 64 <= i <= 88 && 64 * (i - 56) <= sz < 64 * (i - 55)
            else if sz < 10752 then 95 <= i <= 111 && 512 * (i - 91) <= sz < 512 * (i - 90)
            else if sz < 45056 then 112 <= i <= 120 && 4096 * (i - 110) <= sz < 4096 * (i - 109)
            else if sz < 163840 then 120 <= i <= 123 && 32768 * (i - 119) <= sz < 32768 * (i - 118)
            else if sz < 786432 then 124 <= i <= 126 && 262144 * (i - 124) <= sz < 262144 * (i - 123)
            else i == 126
  {
  }

  function FastIndex(sz: nat): nat
    requires sz >= MINSIZE
  {
    sz / 8 - 2
  }

  lemma SomeMin()
    ensures MINSIZE == 16
  {
  }
}
