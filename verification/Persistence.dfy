/** The versioned page store of one region and the memory made of two regions, in the
    shape of the program: objects whose sets, version arrays and page copies are updated
    in place.  Each method is specified by the transaction functions that the step machine
    uses, so a call is the combined effect of the steps it consists of. */
module Persistence {
  import opened Programs
  import opened Transactions

  const PAGE_SIZE: nat := 4096

  // ----- arrays as total maps over pages -----

  ghost function Number(s: seq<int>, page: nat): int {
    if page < |s| then s[page] else 0
  }

  ghost function Numbers(s: seq<int>): Versions {
    imap page: nat :: Number(s, page)
  }

  ghost function Level(s: seq<Prot>, page: nat): Prot {
    if page < |s| then s[page] else NoAccess
  }

  ghost function Levels(s: seq<Prot>): Protection {
    imap page: nat :: Level(s, page)
  }

  ghost function Content(s: seq<PageData>, page: nat): PageData {
    if page < |s| then s[page] else ZeroPage()
  }

  ghost function Contents(s: seq<PageData>): Mem {
    imap page: nat :: Content(s, page)
  }

  ghost predicate InBounds(s: set<nat>, n: nat) {
    forall page | page in s :: page < n
  }

  lemma SetNumber(s: seq<int>, page: nat, v: int)
    requires page < |s|
    ensures Numbers(s[page := v]) == Numbers(s)[page := v]
  {
    var t := s[page := v];
    forall q: nat ensures Number(t, q) == Numbers(s)[page := v][q] {
      assert Number(t, q) == if q == page then v else Number(s, q);
    }
  }

  ghost predicate Copied(s: seq<PageData>, t: seq<PageData>, cow: map<nat, PageData>, done: set<nat>) {
    && |s| == |t|
    && forall page | 0 <= page < |s| :: t[page] == if page in done && page in cow then cow[page] else s[page]
  }

  ghost predicate Raised(s: seq<int>, t: seq<int>, local: seq<int>, done: set<nat>) {
    && |s| == |t| == |local|
    && forall page | 0 <= page < |s| :: t[page] == if page in done then local[page] + 1 else s[page]
  }

  lemma SetLevel(s: seq<Prot>, page: nat, v: Prot)
    requires page < |s|
    ensures Levels(s[page := v]) == Levels(s)[page := v]
  {
    var t := s[page := v];
    forall q: nat ensures Level(t, q) == Levels(s)[page := v][q] {
      assert Level(t, q) == if q == page then v else Level(s, q);
    }
  }

  lemma CopiedPages(s: seq<PageData>, t: seq<PageData>, cow: map<nat, PageData>, dirtied: set<nat>)
    requires InBounds(dirtied, |s|) && Copied(s, t, cow, dirtied)
    ensures Contents(t) == Overlay(Contents(s), cow, dirtied)
  {
    forall page: nat ensures Content(t, page) == OverlayPage(Contents(s), cow, dirtied, page) {
      assert Contents(s)[page] == Content(s, page);
    }
  }

  lemma BumpedPages(s: seq<int>, t: seq<int>, tx: Tx, local: seq<int>)
    requires InBounds(tx.dirtied, |s|) && tx.local == Numbers(local) && Raised(s, t, local, tx.dirtied)
    ensures Bumped(tx, Numbers(s), Numbers(t))
  {
    forall page: nat ensures Numbers(t)[page] == if page in tx.dirtied then tx.local[page] + 1 else Numbers(s)[page] {
      assert Number(t, page) == if page in tx.dirtied then Number(local, page) + 1 else Number(s, page);
    }
  }

  lemma ProtectedPages(s: seq<Prot>, t: seq<Prot>, tx: Tx, after: Tx)
    requires |s| == |t| && InBounds(tx.dirtied, |s|)
    requires tx.prot == Levels(s) && after == tx.(prot := Levels(t), cow := tx.cow - tx.dirtied)
    requires forall page | 0 <= page < |s| :: t[page] == if page in tx.dirtied then NoAccess else s[page]
    ensures LeftBehind(tx, after)
  {
    forall page: nat ensures after.prot[page] == if page in tx.dirtied then NoAccess else tx.prot[page] {
      assert Level(t, page) == if page in tx.dirtied then NoAccess else Level(s, page);
    }
  }

  lemma AllProtectedPages(s: seq<Prot>)
    requires forall page | 0 <= page < |s| :: s[page] == NoAccess
    ensures Levels(s) == NoPages()
  {
    assert forall page: nat :: Level(s, page) == Initial(page);
  }

  // ----- what the operations do to a region -----

  /** The handler on a protected access: first a read, then a write. */
  ghost function Trapped(tx: Tx, page: nat, ver: Versions): Tx {
    if page !in tx.pages then Transactions.RecordRead(FirstTouch(tx, page), page, ver[page])
    else Transactions.RecordWrite(tx, page)
  }

  /** What commit() leaves behind: dirtied pages lose their copy and are protected again;
      pages that were only read stay accessible. */
  ghost predicate LeftBehind(tx: Tx, after: Tx) {
    && after.pages == tx.pages && after.read == tx.read && after.dirtied == tx.dirtied
    && after.local == tx.local && after.cow == tx.cow - tx.dirtied && after.observed == tx.observed
    && forall page: nat :: after.prot[page] == if page in tx.dirtied then NoAccess else tx.prot[page]
  }

  ghost predicate Bumped(tx: Tx, ver: Versions, after: Versions) {
    forall page: nat :: after[page] == if page in tx.dirtied then tx.local[page] + 1 else ver[page]
  }

  /** commit(): the private copies of the dirtied pages become the shared contents, and
      the versions of exactly these pages move past the recorded ones. */
  ghost predicate CommittedTo(tx: Tx, mem: Mem, ver: Versions, tx': Tx, mem': Mem, ver': Versions) {
    && mem' == Overlay(mem, tx.cow, tx.dirtied)
    && Bumped(tx, ver, ver')
    && LeftBehind(tx, tx')
  }

  /** One region: the shared file and its version numbers, and the private transient
      mapping with the page sets of the current transaction. */
  class Region {
    const base: nat
    const pages: nat
    const memory: array<PageData>   // _persistentMemory
    const versions: array<int>      // _persistentVersions
    const local: array<int>         // _localVersions
    const prot: array<Prot>         // protection of the transient pages
    var copies: map<nat, PageData>  // private copies in the transient mapping
    var read: set<nat>
    var dirtied: set<nat>
    var isLocked: bool

    constructor (base: nat, memory: array<PageData>, versions: array<int>, local: array<int>, prot: array<Prot>)
      requires base % PAGE_SIZE == 0
      requires memory.Length == versions.Length == local.Length == prot.Length && versions != local
      ensures Valid() && copies == map[] && read == {} && dirtied == {} && !isLocked
      ensures this.base == base && this.memory == memory && this.versions == versions
      ensures this.local == local && this.prot == prot
    {
      this.base, this.pages := base, memory.Length;
      this.memory, this.versions, this.local, this.prot := memory, versions, local, prot;
      copies, read, dirtied, isLocked := map[], {}, {}, false;
    }

    ghost predicate Valid()
      reads this
    {
      && memory.Length == versions.Length == local.Length == prot.Length == pages
      && versions != local && base % PAGE_SIZE == 0
      && InBounds(read, pages) && InBounds(dirtied, pages)
      && copies.Keys <= dirtied
    }

    /** The private state of the region, given the pages the trap handler has seen. */
    ghost function State(seen: set<nat>): Tx
      reads this, local, prot
    {
      Tx(Levels(prot[..]), copies, seen, read, dirtied, Numbers(local[..]), {})
    }

    ghost function Shared(): Mem
      reads memory
    {
      Contents(memory[..])
    }

    ghost function Published(): Versions
      reads versions
    {
      Numbers(versions[..])
    }

    predicate InRange(addr: nat) {
      base <= addr < base + pages * PAGE_SIZE
    }

    function ComputePage(addr: nat): (page: nat)
      requires InRange(addr)
      ensures page < pages && base + page * PAGE_SIZE <= addr < base + (page + 1) * PAGE_SIZE
    {
      (addr - base) / PAGE_SIZE
    }

    method RecordRead(addr: nat, ghost seen: set<nat>)
      requires Valid()
      modifies this`read, local
      ensures Valid()
      ensures State(seen) == if InRange(addr) then
        Transactions.RecordRead(old(State(seen)), ComputePage(addr), Published()[ComputePage(addr)])
        else old(State(seen))
    {
      if InRange(addr) {
        var page := ComputePage(addr);
        local[page] := versions[page];
        read := read + {page};
        SetNumber(old(local[..]), page, versions[page]);
        assert local[..] == old(local[..])[page := versions[page]];
        assert Published()[page] == Number(versions[..], page);
      } else {
        assert local[..] == old(local[..]);
      }
    }

    method RecordWrite(addr: nat)
      requires Valid()
      modifies this`read, this`dirtied
      ensures Valid()
      ensures dirtied == old(dirtied) + (if InRange(addr) then {ComputePage(addr)} else {})
      ensures read == old(read) + (if InRange(addr) then {ComputePage(addr)} else {})
    {
      if InRange(addr) {
        var page := ComputePage(addr);
        dirtied := dirtied + {page};
        read := read + {page};
      }
    }

    method Begin(ghost seen: set<nat>)
      requires Valid() && copies == map[]
      modifies this`read, this`dirtied
      ensures Valid() && State({}) == BeginTx(old(State(seen)))
    {
      read := {};
      dirtied := {};
    }

    predicate IsNop()
      reads this
      ensures IsNop() <==> Nop(State({}))
    {
      read == {} && dirtied == {}
    }

    /** Compares the recorded version of every page read with the published one, stopping
        at the first that differs. */
    method IsConsistent(ghost seen: set<nat>) returns (wasConsistent: bool)
      requires Valid() && isLocked
      ensures wasConsistent <==> Consistent(State(seen), Published())
    {
      wasConsistent := true;
      var todo := read;
      while todo != {}
        invariant todo <= read && wasConsistent
        invariant forall page | page in read - todo :: versions[page] == local[page]
        decreases |todo|
      {
        var page :| page in todo;
        if versions[page] != local[page] {
          assert Published()[page] == Number(versions[..], page) && State(seen).local[page] == Number(local[..], page);
          wasConsistent := false;
          return;
        }
        todo := todo - {page};
      }
      forall page | page in read ensures Published()[page] == State(seen).local[page] {
        assert Published()[page] == Number(versions[..], page) && State(seen).local[page] == Number(local[..], page);
      }
    }

    /** Copies every dirtied page into the shared store and publishes its new version;
        then drops the private copies. */
    method Commit(ghost seen: set<nat>)
      requires Valid() && isLocked
      modifies this`copies, memory, versions, prot
      ensures Valid()
      ensures CommittedTo(old(State(seen)), old(Shared()), old(Published()), State(seen), Shared(), Published())
    {
      hide Contents, Content, Numbers, Number, Levels, Level, Overlay, OverlayPage, Bumped, LeftBehind;
      CopyDirtied();
      CopiedPages(old(memory[..]), memory[..], copies, dirtied);
      BumpedPages(old(versions[..]), versions[..], State(seen), local[..]);
      DropCopies();
      ProtectedPages(old(prot[..]), prot[..], old(State(seen)), State(seen));
    }

    method DropCopies()
      requires Valid()
      modifies this`copies, prot
      ensures Valid() && copies == old(copies) - dirtied
      ensures forall page | 0 <= page < pages :: prot[page] == if page in dirtied then NoAccess else old(prot[page])
    {
      var todo := dirtied;
      while todo != {}
        invariant Valid() && todo <= dirtied
        invariant forall page :: page in copies <==> page in old(copies) && (page in dirtied ==> page in todo)
        invariant forall page | page in copies :: copies[page] == old(copies[page])
        invariant forall page | 0 <= page < pages ::
          prot[page] == if page in dirtied && page !in todo then NoAccess else old(prot[page])
        decreases |todo|
      {
        var page :| page in todo;
        UpdatePage(page);
        todo := todo - {page};
      }
    }

    method CopyDirtied()
      requires Valid() && isLocked
      modifies memory, versions
      ensures forall page | 0 <= page < pages ::
        memory[page] == if page in dirtied && page in copies then copies[page] else old(memory[page])
      ensures forall page | 0 <= page < pages ::
        versions[page] == if page in dirtied then local[page] + 1 else old(versions[page])
    {
      var todo := dirtied;
      while todo != {}
        invariant todo <= dirtied
        invariant forall page | 0 <= page < pages ::
          memory[page] == if page in dirtied && page !in todo && page in copies then copies[page] else old(memory[page])
        invariant forall page | 0 <= page < pages ::
          versions[page] == if page in dirtied && page !in todo then local[page] + 1 else old(versions[page])
        decreases |todo|
      {
        var page :| page in todo;
        // memcpy from the transient page: without a private copy it shows the shared data
        memory[page] := if page in copies then copies[page] else memory[page];
        versions[page] := local[page] + 1;
        todo := todo - {page};
      }
    }

    method UpdatePage(page: nat)
      requires Valid() && page < pages
      modifies this`copies, prot
      ensures Valid() && copies == old(copies) - {page} && prot[..] == old(prot[..])[page := NoAccess]
    {
      copies := copies - {page};
      prot[page] := NoAccess;
    }

    /** Drops every private copy and protects every page. */
    method UpdateAll(ghost seen: set<nat>)
      requires Valid()
      modifies this`copies, prot
      ensures Valid() && State(seen) == Transactions.UpdateAll(old(State(seen)))
    {
      copies := map[];
      ProtectAll();
      AllProtectedPages(prot[..]);
    }

    method ProtectAll()
      requires Valid()
      modifies prot
      ensures forall page | 0 <= page < pages :: prot[page] == NoAccess
    {
      forall page | 0 <= page < pages {
        prot[page] := NoAccess;
      }
    }

    method Protect(page: nat, to: Prot)
      requires Valid() && page < pages
      modifies prot
      ensures prot[..] == old(prot[..])[page := to]
    {
      prot[page] := to;
    }

    method Lock()
      requires !isLocked
      modifies this`isLocked
      ensures isLocked
    {
      isLocked := true;
    }

    method Unlock()
      requires isLocked
      modifies this`isLocked
      ensures !isLocked
    {
      isLocked := false;
    }
  }

  /** The pages of a region whose addresses the trap handler has seen. */
  ghost function SeenIn(r: Region, seen: set<nat>): set<nat> {
    set page: nat | page < r.pages && PageAddress(r, page) in seen
  }

  function PageAddress(r: Region, page: nat): nat {
    r.base + page * PAGE_SIZE
  }

  lemma SeeMore(r: Region, seen: set<nat>, addr: nat)
    requires r.InRange(addr) && r.base % PAGE_SIZE == 0
    ensures addr - addr % PAGE_SIZE == PageAddress(r, r.ComputePage(addr))
    ensures SeenIn(r, seen + {addr - addr % PAGE_SIZE}) == SeenIn(r, seen) + {r.ComputePage(addr)}
    ensures r.ComputePage(addr) in SeenIn(r, seen) <==> addr - addr % PAGE_SIZE in seen
  {
    PageStart(r.base, addr);
    var page := r.ComputePage(addr);
    assert PageAddress(r, page) == addr - addr % PAGE_SIZE;
    forall p: nat ensures PageAddress(r, p) == PageAddress(r, page) ==> p == page {
    }
  }

  lemma PageStart(base: nat, addr: nat)
    requires base <= addr && base % PAGE_SIZE == 0
    ensures addr - addr % PAGE_SIZE == base + (addr - base) / PAGE_SIZE * PAGE_SIZE
  {
  }

  lemma SeeNone(r: Region, seen: set<nat>, addr: nat)
    requires !r.InRange(addr) && r.base % PAGE_SIZE == 0
    ensures SeenIn(r, seen + {addr - addr % PAGE_SIZE}) == SeenIn(r, seen)
  {
    forall page: nat | page < r.pages ensures PageAddress(r, page) != addr - addr % PAGE_SIZE {
    }
  }

  /** The heap and the globals, with the pages the trap handler has seen. */
  class Memory {
    const heap: Region
    const globals: Region
    var seen: set<nat>      // _pages: page addresses

    constructor (heap: Region, globals: Region)
      requires Apart(heap, globals)
      ensures this.heap == heap && this.globals == globals && seen == {}
    {
      this.heap, this.globals, seen := heap, globals, {};
    }

    /** The two regions share no address and no array. */
    static ghost predicate Apart(heap: Region, globals: Region) {
      && heap != globals
      && (forall addr: nat :: !(heap.InRange(addr) && globals.InRange(addr)))
      && heap.memory != globals.memory && heap.prot != globals.prot
      && {heap.versions, heap.local} !! {globals.versions, globals.local}
    }

    ghost predicate Valid()
      reads heap, globals
    {
      Apart(heap, globals) && heap.Valid() && globals.Valid()
    }

    ghost function HeapState(): Tx
      reads this, heap, heap.local, heap.prot
    {
      heap.State(SeenIn(heap, seen))
    }

    ghost function GlobalsState(): Tx
      reads this, globals, globals.local, globals.prot
    {
      globals.State(SeenIn(globals, seen))
    }

    method Begin()
      requires Valid() && heap.copies == map[] && globals.copies == map[]
      modifies this`seen, heap, globals
      ensures Valid()
      ensures HeapState() == BeginTx(old(HeapState())) && GlobalsState() == BeginTx(old(GlobalsState()))
    {
      ghost var inHeap, inGlobals := SeenIn(heap, seen), SeenIn(globals, seen);
      seen := {};
      heap.Begin(inHeap);
      globals.Begin(inGlobals);
    }

    predicate IsNop()
      reads this, heap, globals
      ensures IsNop() <==> heap.read == {} && heap.dirtied == {} && globals.read == {} && globals.dirtied == {}
    {
      heap.IsNop() && globals.IsNop()
    }

    method LockAll()
      requires !heap.isLocked && !globals.isLocked && heap != globals
      modifies heap`isLocked, globals`isLocked
      ensures heap.isLocked && globals.isLocked
    {
      heap.Lock();
      globals.Lock();
    }

    method UnlockAll()
      requires heap.isLocked && globals.isLocked && heap != globals
      modifies heap`isLocked, globals`isLocked
      ensures !heap.isLocked && !globals.isLocked
    {
      heap.Unlock();
      globals.Unlock();
    }

    method IsConsistent() returns (result: bool)
      requires Valid() && !heap.isLocked && !globals.isLocked
      modifies heap`isLocked, globals`isLocked
      ensures Valid() && !heap.isLocked && !globals.isLocked
      ensures result <==> Consistent(HeapState(), heap.Published()) && Consistent(GlobalsState(), globals.Published())
    {
      LockAll();
      result := heap.IsConsistent(SeenIn(heap, seen));
      if result {
        result := globals.IsConsistent(SeenIn(globals, seen));
      }
      UnlockAll();
    }

    /** All or nothing: both regions are committed if both are consistent, and otherwise
        no page, version or private state changes. */
    method TryToCommit() returns (committed: bool)
      requires Valid() && !heap.isLocked && !globals.isLocked
      modifies heap`isLocked, globals`isLocked, heap`copies, globals`copies
      modifies heap.memory, heap.versions, heap.prot, globals.memory, globals.versions, globals.prot
      ensures Valid() && !heap.isLocked && !globals.isLocked
      ensures committed <==> Consistent(old(HeapState()), old(heap.Published()))
                             && Consistent(old(GlobalsState()), old(globals.Published()))
      ensures committed ==>
        && CommittedTo(old(HeapState()), old(heap.Shared()), old(heap.Published()), HeapState(), heap.Shared(), heap.Published())
        && CommittedTo(old(GlobalsState()), old(globals.Shared()), old(globals.Published()),
                       GlobalsState(), globals.Shared(), globals.Published())
      ensures !committed ==>
        && unchanged(heap`copies, heap.memory, heap.versions, heap.prot)
        && unchanged(globals`copies, globals.memory, globals.versions, globals.prot)
    {
      hide CommittedTo, Levels, Numbers, Contents, SeenIn;
      LockAll();
      committed := heap.IsConsistent(SeenIn(heap, seen));
      if committed {
        committed := globals.IsConsistent(SeenIn(globals, seen));
      }
      if committed {
        CommitBoth();
      }
      UnlockAll();
    }

    method CommitBoth()
      requires Valid() && heap.isLocked && globals.isLocked
      modifies heap`copies, globals`copies
      modifies heap.memory, heap.versions, heap.prot, globals.memory, globals.versions, globals.prot
      ensures Valid()
      ensures CommittedTo(old(HeapState()), old(heap.Shared()), old(heap.Published()),
                          HeapState(), heap.Shared(), heap.Published())
      ensures CommittedTo(old(GlobalsState()), old(globals.Shared()), old(globals.Published()),
                          GlobalsState(), globals.Shared(), globals.Published())
    {
      hide CommittedTo, Levels, Numbers, Contents, SeenIn;
      heap.Commit(SeenIn(heap, seen));
      globals.Commit(SeenIn(globals, seen));
    }

    method UpdateAll()
      requires Valid()
      modifies heap`copies, globals`copies, heap.prot, globals.prot
      ensures Valid()
      ensures HeapState() == Transactions.UpdateAll(old(HeapState()))
      ensures GlobalsState() == Transactions.UpdateAll(old(GlobalsState()))
    {
      heap.UpdateAll(SeenIn(heap, seen));
      globals.UpdateAll(SeenIn(globals, seen));
    }

    /** The signal handler on a protected access (SEGV_ACCERR) inside one of the regions. */
    method Handle(addr: nat)
      requires Valid() && (heap.InRange(addr) || globals.InRange(addr))
      modifies this`seen, heap`read, heap`dirtied, heap.local, heap.prot
      modifies globals`read, globals`dirtied, globals.local, globals.prot
      ensures Valid()
      ensures HeapState() == if heap.InRange(addr) then
        Trapped(old(HeapState()), heap.ComputePage(addr), heap.Published()) else old(HeapState())
      ensures GlobalsState() == if globals.InRange(addr) then
        Trapped(old(GlobalsState()), globals.ComputePage(addr), globals.Published()) else old(GlobalsState())
    {
      if heap.InRange(addr) {
        SeeMore(heap, seen, addr);
        SeeNone(globals, seen, addr);
        HandleIn(heap, addr);
        assert globals.prot[..] == old(globals.prot[..]) && globals.local[..] == old(globals.local[..]);
      } else {
        SeeMore(globals, seen, addr);
        SeeNone(heap, seen, addr);
        HandleIn(globals, addr);
        assert heap.prot[..] == old(heap.prot[..]) && heap.local[..] == old(heap.local[..]);
      }
    }

    /** The handler, once it is known which region's mapping holds the page. */
    method HandleIn(r: Region, addr: nat)
      requires r.Valid() && r.InRange(addr)
      modifies this`seen, r`read, r`dirtied, r.local, r.prot
      ensures r.Valid() && seen == old(seen) + {addr - addr % PAGE_SIZE}
      ensures r.State(SeenIn(r, seen))
           == Trapped(old(r.State(SeenIn(r, seen))), r.ComputePage(addr), r.Published())
    {
      var page := addr - addr % PAGE_SIZE;
      SeeMore(r, seen, addr);
      if page !in seen {
        ghost var was := SeenIn(r, seen);
        seen := seen + {page};
        FirstAccess(r, addr, was, SeenIn(r, seen));
      } else {
        assert seen == seen + {page};
        LaterAccess(r, addr, SeenIn(r, seen));
      }
    }

    /** A page that has not been seen becomes readable, and the read is recorded. */
    static method FirstAccess(r: Region, addr: nat, ghost was: set<nat>, ghost now: set<nat>)
      requires r.Valid() && r.InRange(addr) && r.ComputePage(addr) !in was && now == was + {r.ComputePage(addr)}
      modifies r`read, r.local, r.prot
      ensures r.Valid() && r.State(now) == Trapped(old(r.State(was)), r.ComputePage(addr), r.Published())
    {
      SetLevel(r.prot[..], r.ComputePage(addr), ReadOnly);
      r.Protect(r.ComputePage(addr), ReadOnly);
      r.RecordRead(addr, now);
    }

    /** A page that has been seen becomes writable, and the write is recorded. */
    static method LaterAccess(r: Region, addr: nat, ghost was: set<nat>)
      requires r.Valid() && r.InRange(addr) && r.ComputePage(addr) in was
      modifies r`read, r`dirtied, r.prot
      ensures r.Valid() && r.State(was) == Trapped(old(r.State(was)), r.ComputePage(addr), r.Published())
    {
      SetLevel(r.prot[..], r.ComputePage(addr), ReadWrite);
      r.Protect(r.ComputePage(addr), ReadWrite);
      r.RecordWrite(addr);
    }
  }
}
