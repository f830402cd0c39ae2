/** The private memory state of a process: page protection, private copies, and the page
    sets of the current transaction, with the operations of the trap handler and of the
    versioned store as functions. */
module Transactions {
  import opened Programs

  datatype Prot = NoAccess | ReadOnly | ReadWrite

  type Protection = m: imap<nat, Prot> | forall p: nat :: p in m
    ghost witness imap p: nat :: NoAccess
  type Versions = m: imap<nat, int> | forall p: nat :: p in m
    ghost witness imap p: nat :: 0

  /** A value obtained from the shared store by the current transaction. */
  datatype Seen = Seen(page: nat, off: Off, v: Val)

  datatype Tx = Tx(
    prot: Protection,           // page protection of the transient mapping
    cow: map<nat, PageData>,    // private copies in the transient mapping
    pages: set<nat>,            // _pages: pages the handler has seen
    read: set<nat>,             // _read
    dirtied: set<nat>,          // _dirtied
    local: Versions,            // _localVersions
    observed: set<Seen>)        // history: values read from the shared store

  ghost function Initial(page: nat): Prot { NoAccess }

  ghost function NoPages(): Protection {
    imap p: nat :: Initial(p)
  }

  ghost predicate AllProtected(tx: Tx) {
    forall page: nat :: tx.prot[page] == NoAccess
  }

  /** begin: clear the page sets.  Protection is not touched. */
  ghost function BeginTx(tx: Tx): Tx {
    tx.(pages := {}, read := {}, dirtied := {}, observed := {})
  }

  /** A fault on a page the handler has not seen: the page becomes readable; its version
      is recorded next, by RecordRead. */
  ghost function FirstTouch(tx: Tx, page: nat): Tx {
    tx.(pages := tx.pages + {page}, prot := tx.prot[page := ReadOnly])
  }

  ghost function RecordRead(tx: Tx, page: nat, version: int): Tx {
    tx.(local := tx.local[page := version], read := tx.read + {page})
  }

  /** A fault on a page the handler has seen: the page becomes writable and dirty. */
  ghost function RecordWrite(tx: Tx, page: nat): Tx {
    tx.(prot := tx.prot[page := ReadWrite], dirtied := tx.dirtied + {page}, read := tx.read + {page})
  }

  /** The transient mapping is private: a page without a private copy shows the current
      contents of the shared store. */
  ghost function View(tx: Tx, mem: Mem, page: nat): PageData {
    if page in tx.cow then tx.cow[page] else mem[page]
  }

  /** History of a data read: a word of a page without a private copy is shared data. */
  ghost function Observe(tx: Tx, mem: Mem, page: nat, off: Off): Tx {
    if page in tx.cow then tx
    else tx.(observed := tx.observed + {Seen(page, off, mem[page][off])})
  }

  /** A store into the transient mapping: the first one copies the page. */
  ghost function WriteWord(tx: Tx, mem: Mem, page: nat, off: Off, v: Val): Tx {
    var d: PageData := View(tx, mem, page)[off := v];
    tx.(cow := tx.cow[page := d])
  }

  /** updateAll: drop every private copy and protect every page. */
  ghost function UpdateAll(tx: Tx): Tx {
    tx.(cow := map[], prot := NoPages())
  }

  ghost function UpdatePage(tx: Tx, page: nat): Tx {
    tx.(cow := tx.cow - {page}, prot := tx.prot[page := NoAccess])
  }

  ghost predicate Nop(tx: Tx) {
    tx.read == {} && tx.dirtied == {}
  }

  ghost predicate Consistent(tx: Tx, ver: Versions) {
    forall page | page in tx.read :: ver[page] == tx.local[page]
  }

  /** A store with the private copies of the pages in `todo` laid over it. */
  ghost function Overlay(m: Mem, cow: map<nat, PageData>, todo: set<nat>): Mem {
    imap p: nat :: OverlayPage(m, cow, todo, p)
  }

  ghost function OverlayPage(m: Mem, cow: map<nat, PageData>, todo: set<nat>, p: nat): PageData {
    if p in todo && p in cow then cow[p] else m[p]
  }
}
