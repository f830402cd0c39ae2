/** A commit of the step machine, in which one word is copied at a time and all other
    processes go on, has the effect of one call of the store's commit. */
module Atomicity {
  import opened Programs
  import opened Transactions
  import opened Protocol
  import opened OrderProof
  import opened TxnProof
  import opened Persistence

  /** The private copies of the pages in `left` are still there. */
  ghost predicate CopiesLeft(tx0: Tx, cow: map<nat, PageData>, left: set<nat>) {
    cow == tx0.cow - (tx0.dirtied - left)
  }

  /** All dirtied pages but those in `left` are protected again. */
  ghost predicate ProtLeft(tx0: Tx, prot: Protection, left: set<nat>) {
    forall page: nat :: prot[page] == if page in tx0.dirtied - left then NoAccess else tx0.prot[page]
  }

  /** The versions of all dirtied pages but those in `todo` are published. */
  ghost predicate VersionsOut(tx0: Tx, ver0: Versions, ver: Versions, todo: set<nat>) {
    forall page: nat :: ver[page] == if page in tx0.dirtied - todo then tx0.local[page] + 1 else ver0[page]
  }

  ghost predicate SameSets(tx0: Tx, tx: Tx) {
    tx.pages == tx0.pages && tx.read == tx0.read && tx.dirtied == tx0.dirtied && tx.local == tx0.local && tx.observed == tx0.observed
  }

  /** Where the pages of the commit are. */
  ghost predicate InPlace(tx0: Tx, ph: Phase) {
    && ph.Commit? && ph.todo <= tx0.dirtied && ph.stale <= tx0.dirtied && ph.todo !! ph.stale
    && (ph.copying.Copying? ==> ph.copying.page in ph.todo)
  }

  /** How far the commit of a process has come since it began with tx0, mem0 and ver0. */
  ghost predicate Under(tx0: Tx, mem0: Mem, ver0: Versions, p: Proc, mem: Mem, ver: Versions) {
    && InPlace(tx0, p.phase) && SameSets(tx0, p.tx)
    && CopiesLeft(tx0, p.tx.cow, p.phase.todo + p.phase.stale) && ProtLeft(tx0, p.tx.prot, p.phase.todo + p.phase.stale)
    && VersionsOut(tx0, ver0, ver, p.phase.todo) && WordsCopied(p, mem)
    && Overlay(mem, p.tx.cow, p.phase.todo) == Overlay(mem0, tx0.cow, tx0.dirtied)
  }

  lemma UnderStart(p: Proc, mem: Mem, ver: Versions)
    requires p.phase == Commit(p.tx.dirtied, Idle, {})
    ensures Under(p.tx, mem, ver, p, mem, ver)
  {
    assert p.tx.cow - (p.tx.dirtied - (p.phase.todo + p.phase.stale)) == p.tx.cow;
    hide Overlay;
  }

  /** A page is chosen, or dropped, or the commit ends. */
  ghost predicate LocalKind(p: Proc, page: nat, q: Proc) {
    && p.phase.Commit?
    && var Commit(todo, copying, stale) := p.phase;
       || (page in todo && q == p.(phase := Commit(todo, Copying(page, 0), stale)))
       || (page in stale && q == p.(phase := Commit(todo, Idle, stale - {page}), tx := UpdatePage(p.tx, page)))
       || (todo == {} && stale == {} && q == p.(phase := Unlock1(ForEnd, true)))
  }

  lemma LocalKinds(p: Proc, ver: Versions, page: nat, q: Proc)
    requires CheckMove(p, ver, page, q) && p.phase.Commit?
    ensures LocalKind(p, page, q)
  {
  }

  /** A local action of the commit, which may be its end. */
  lemma UnderLocal(tx0: Tx, mem0: Mem, ver0: Versions, p: Proc, mem: Mem, ver: Versions, page: nat, q: Proc)
    requires Under(tx0, mem0, ver0, p, mem, ver) && LocalKind(p, page, q)
    ensures q.phase.Commit? ==> Under(tx0, mem0, ver0, q, mem, ver)
    ensures !q.phase.Commit? ==> CommittedTo(tx0, mem0, ver0, q.tx, mem, ver)
  {
    hide Overlay, CopiesLeft, ProtLeft, VersionsOut, CommittedTo, WordsCopied;
    LocalCopied(p, page, q, mem);
    if !q.phase.Commit? {
      UnderEnd(tx0, mem0, ver0, p, mem, ver, q);
    } else if page in p.phase.stale && q.tx == UpdatePage(p.tx, page) && q.phase.copying == Idle {
      var left := p.phase.todo + p.phase.stale;
      DropCopy(tx0, p.tx.cow, left, page);
      DropProt(tx0, p.tx.prot, left, page);
      DropOverlay(mem, p.tx.cow, p.phase.todo, page);
      assert q.phase.todo + q.phase.stale == left - {page};
    }
  }

  lemma LocalCopied(p: Proc, page: nat, q: Proc, mem: Mem)
    requires LocalKind(p, page, q) && WordsCopied(p, mem)
    ensures WordsCopied(q, mem)
  {
  }

  lemma UnderEnd(tx0: Tx, mem0: Mem, ver0: Versions, p: Proc, mem: Mem, ver: Versions, q: Proc)
    requires Under(tx0, mem0, ver0, p, mem, ver) && p.phase.todo == {} && p.phase.stale == {} && q.tx == p.tx
    ensures CommittedTo(tx0, mem0, ver0, q.tx, mem, ver)
  {
    hide Overlay, CopiesLeft, ProtLeft, VersionsOut, WordsCopied, LeftBehind, Bumped;
    OverlayNone(mem, p.tx.cow, {});
    assert p.phase.todo + p.phase.stale == {};
    EndBehind(tx0, p.tx);
    EndBumped(tx0, ver0, ver);
  }

  lemma EndBehind(tx0: Tx, tx: Tx)
    requires SameSets(tx0, tx) && CopiesLeft(tx0, tx.cow, {}) && ProtLeft(tx0, tx.prot, {})
    ensures LeftBehind(tx0, tx)
  {
    assert tx0.dirtied - {} == tx0.dirtied;
  }

  lemma EndBumped(tx0: Tx, ver0: Versions, ver: Versions)
    requires VersionsOut(tx0, ver0, ver, {})
    ensures Bumped(tx0, ver0, ver)
  {
  }

  lemma DropCopy(tx0: Tx, cow: map<nat, PageData>, left: set<nat>, page: nat)
    requires CopiesLeft(tx0, cow, left) && page in left && left <= tx0.dirtied
    ensures CopiesLeft(tx0, cow - {page}, left - {page})
  {
    assert tx0.dirtied - (left - {page}) == (tx0.dirtied - left) + {page};
  }

  lemma DropProt(tx0: Tx, prot: Protection, left: set<nat>, page: nat)
    requires ProtLeft(tx0, prot, left) && page in left && left <= tx0.dirtied
    ensures ProtLeft(tx0, prot[page := NoAccess], left - {page})
  {
  }

  lemma DropOverlay(mem: Mem, cow: map<nat, PageData>, todo: set<nat>, page: nat)
    requires page !in todo
    ensures Overlay(mem, cow - {page}, todo) == Overlay(mem, cow, todo)
  {
    forall r: nat ensures Overlay(mem, cow - {page}, todo)[r] == Overlay(mem, cow, todo)[r] {
    }
  }

  /** A word is copied, or a version is published. */
  lemma UnderPublish(tx0: Tx, mem0: Mem, ver0: Versions, p: Proc, mem: Mem, ver: Versions, mem': Mem, ver': Versions)
    requires Under(tx0, mem0, ver0, p, mem, ver) && Publishing(p.phase)
    requires mem' == if Copies(p.phase) then CopyWord(p, mem) else mem
    requires ver' == if Copies(p.phase) then ver else BumpVersion(p, ver)
    ensures Under(tx0, mem0, ver0, PublishNext(p), mem', ver')
  {
    hide Overlay, CopiesLeft, ProtLeft, VersionsOut, WordsCopied, CopyWord;
    var q := PublishNext(p);
    PublishCopied(p, mem);
    if Copies(p.phase) {
      CopyKeepsCommitted(p, mem);
    } else {
      BumpKeepsCommitted(p, mem);
      var page := p.phase.copying.page;
      assert q.phase.todo + q.phase.stale == p.phase.todo + p.phase.stale;
      OneVersion(tx0, ver0, ver, p.phase.todo, page);
    }
  }

  lemma OneVersion(tx0: Tx, ver0: Versions, ver: Versions, todo: set<nat>, page: nat)
    requires VersionsOut(tx0, ver0, ver, todo) && page in todo && todo <= tx0.dirtied
    ensures VersionsOut(tx0, ver0, ver[page := tx0.local[page] + 1], todo - {page})
  {
  }

  /** While x commits, the steps of the others leave the shared store and x alone. */
  lemma OthersWait(s: Sys, x: Pid, y: Pid, t: Sys)
    requires OrderInv(s) && x in s.procs && y in s.procs && x != y && s.procs[x].phase.Commit? && Step(s, y, t)
    ensures x in t.procs && t.procs[x] == s.procs[x] && t.mem == s.mem && t.ver == s.ver
  {
    hide *;
    CommitterView(s, x);
    var q, z := StepKinds(s, y, t);
    if Private(s, s.procs[y], q) && t == s.Put(y, q) {
      PutView(s, y, q, t);
    } else if StepLock(s, y, t) {
      LockView(s, y, t);
    } else if StepPublish(s, y, t) {
      PublishView(s, y, t);
    } else if StepFork(s, y, z, t) {
      ForkAside(s, x, y, z, t);
    } else {
      EndView(s, y, q, t);
    }
  }

  lemma ForkAside(s: Sys, x: Pid, y: Pid, z: Pid, t: Sys)
    requires x in s.procs && y in s.procs && x != y && StepFork(s, y, z, t)
    ensures x in t.procs && t.procs[x] == s.procs[x] && t.mem == s.mem && t.ver == s.ver
  {
  }

  /** A step of the committing process itself. */
  lemma OwnStep(tx0: Tx, mem0: Mem, ver0: Versions, s: Sys, x: Pid, t: Sys)
    requires x in s.procs && Step(s, x, t)
    requires Under(tx0, mem0, ver0, s.procs[x], s.mem, s.ver)
    ensures x in t.procs
    ensures t.procs[x].phase.Commit? ==> Under(tx0, mem0, ver0, t.procs[x], t.mem, t.ver)
    ensures !t.procs[x].phase.Commit? ==> CommittedTo(tx0, mem0, ver0, t.procs[x].tx, t.mem, t.ver)
  {
    hide *;
    var p := s.procs[x];
    UnderPhase(tx0, mem0, ver0, p, s.mem, s.ver);
    var q, z := StepKinds(s, x, t);
    if Private(s, p, q) && t == s.Put(x, q) {
      PutView(s, x, q, t);
      var page := CommitKind(s, p, q);
      LocalKinds(p, s.ver, page, q);
      UnderLocal(tx0, mem0, ver0, p, s.mem, s.ver, page, q);
    } else if StepLock(s, x, t) {
      LockView(s, x, t);
    } else if StepPublish(s, x, t) {
      PublishView(s, x, t);
      PublishPhase(p);
      UnderPublish(tx0, mem0, ver0, p, s.mem, s.ver, t.mem, t.ver);
    } else if StepFork(s, x, z, t) {
      ForkPhase(s, x, z, t);
    } else {
      EndKind(s, x, q, t);
    }
  }

  lemma UnderPhase(tx0: Tx, mem0: Mem, ver0: Versions, p: Proc, mem: Mem, ver: Versions)
    requires Under(tx0, mem0, ver0, p, mem, ver)
    ensures p.phase.Commit?
  {
  }

  /** A commit that has begun in the i-th state and is not over in the k-th. */
  ghost predicate Committing(run: seq<Sys>, i: nat, k: nat, x: Pid) {
    && i <= k < |run|
    && (forall j | i <= j <= k :: x in run[j].procs && run[j].procs[x].phase.Commit?)
    && run[i].procs[x].phase == Commit(run[i].procs[x].tx.dirtied, Idle, {})
  }

  lemma {:induction false} CommitGoesOn(run: seq<Sys>, main: Prog, m0: Mem, i: nat, k: nat, x: Pid)
    requires IsRun(run, main, m0) && Committing(run, i, k, x)
    ensures Under(run[i].procs[x].tx, run[i].mem, run[i].ver, run[k].procs[x], run[k].mem, run[k].ver)
    decreases k
  {
    hide *;
    CommittingParts(run, i, k, x);
    if k == i {
      UnderStart(run[i].procs[x], run[i].mem, run[i].ver);
    } else {
      CommitGoesOn(run, main, m0, i, k - 1, x);
      OneMore(run, main, m0, i, k - 1, x);
    }
  }

  lemma CommittingParts(run: seq<Sys>, i: nat, k: nat, x: Pid)
    requires Committing(run, i, k, x)
    ensures i <= k < |run| && x in run[i].procs && x in run[k].procs && run[k].procs[x].phase.Commit?
    ensures run[i].procs[x].phase == Commit(run[i].procs[x].tx.dirtied, Idle, {})
    ensures k > i ==> Committing(run, i, k - 1, x)
  {
  }

  /** One step from the k-th state on. */
  lemma OneMore(run: seq<Sys>, main: Prog, m0: Mem, i: nat, k: nat, x: Pid)
    requires IsRun(run, main, m0) && k + 1 < |run| && Committing(run, i, k, x)
    requires Under(run[i].procs[x].tx, run[i].mem, run[i].ver, run[k].procs[x], run[k].mem, run[k].ver)
    ensures x in run[k + 1].procs
    ensures run[k + 1].procs[x].phase.Commit? ==>
      Under(run[i].procs[x].tx, run[i].mem, run[i].ver, run[k + 1].procs[x], run[k + 1].mem, run[k + 1].ver)
    ensures !run[k + 1].procs[x].phase.Commit? ==>
      CommittedTo(run[i].procs[x].tx, run[i].mem, run[i].ver, run[k + 1].procs[x].tx, run[k + 1].mem, run[k + 1].ver)
  {
    hide *;
    CommittingParts(run, i, k, x);
    RunOrder(run, main, m0, k);
    var y := Mover(run, main, m0, k);
    if y == x {
      OwnStep(run[i].procs[x].tx, run[i].mem, run[i].ver, run[k], x, run[k + 1]);
    } else {
      UnderPhase(run[i].procs[x].tx, run[i].mem, run[i].ver, run[k].procs[x], run[k].mem, run[k].ver);
      OthersWait(run[k], x, y, run[k + 1]);
    }
  }

  /** However its word copies and version bumps interleave with the steps of the other
      processes, a commit does to the store, the versions and the private state of its process
      exactly what commit() does in one call. */
  lemma CommitIsAtomic(run: seq<Sys>, main: Prog, m0: Mem, i: nat, k: nat, x: Pid)
    requires IsRun(run, main, m0)
    requires k + 1 < |run| && Committing(run, i, k, x) && x in run[k + 1].procs && !run[k + 1].procs[x].phase.Commit?
    ensures CommittedTo(run[i].procs[x].tx, run[i].mem, run[i].ver,
                        run[k + 1].procs[x].tx, run[k + 1].mem, run[k + 1].ver)
  {
    CommitGoesOn(run, main, m0, i, k, x);
    OneMore(run, main, m0, i, k, x);
    hide *;
  }
}
