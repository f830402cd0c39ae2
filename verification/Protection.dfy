/** Which pages a process can access without a trap, in every run.

    A transaction opens the pages it touches; a commit protects the pages it dirtied and
    leaves those it only read; a null commit and a rollback protect every page. */
module Protection {
  import opened Programs
  import opened Transactions
  import opened Protocol
  import opened OrderProof
  import opened TxnProof

  // ----- the pages that earlier transactions have left readable -----

  /** What a step of the process makes of the pages left readable: nothing is left after a
      null commit and after a rollback; a commit adds what it has read and takes away what
      it has dirtied. */
  ghost function LeftAfter(left: iset<nat>, p: Proc, q: Proc): iset<nat> {
    if p.phase == Run && q.phase == Ended then iset{}
    else if p.phase.Unlock2? && q.phase == Begin then iset{}
    else if p.phase.Unlock2? && q.phase == Ended then
      iset page: nat | (page in left || page in p.tx.read) && page !in p.tx.dirtied
    else left
  }

  /** The pages that the transactions of x before the k-th state have left readable; a forked
      process takes over those of the process it stands before. */
  ghost function Left(run: seq<Sys>, k: nat, x: Pid): iset<nat>
    requires k < |run|
    decreases k
  {
    if k == 0 then iset{}
    else if x in run[k - 1].procs && x in run[k].procs then
      LeftAfter(Left(run, k - 1, x), run[k - 1].procs[x], run[k].procs[x])
    else if y :| y in run[k - 1].procs && Parent(run[k], y, x) then Left(run, k - 1, y)
    else iset{}
  }

  ghost predicate Parent(t: Sys, x: Pid, y: Pid) {
    x in t.procs && t.procs[x].pred == Some(y)
  }

  // ----- protection, phase by phase -----

  /** The commit of the process has been decided on, and its end has not been reached. */
  ghost predicate Decided(ph: Phase) {
    ph.Commit? || ((ph.Unlock1? || ph.Unlock2?) && ph.why == ForEnd && ph.ok)
  }

  /** The dirtied pages that have not been protected again. */
  ghost function Unprotected(ph: Phase): set<nat> {
    if ph.Commit? then ph.todo + ph.stale else {}
  }

  ghost function Expected(p: Proc, left: iset<nat>, page: nat): Prot {
    if InTxn(p.phase) then
      if page in p.tx.dirtied then ReadWrite
      else if page in left || page in p.tx.pages then ReadOnly else NoAccess
    else if Decided(p.phase) then
      if page in p.tx.dirtied then (if page in Unprotected(p.phase) then ReadWrite else NoAccess)
      else if page in left || page in p.tx.read then ReadOnly else NoAccess
    else
      if page in left then ReadOnly else NoAccess
  }

  /** The page sets the expectation is about. */
  ghost predicate Sets(p: Proc) {
    && (InTxn(p.phase) ==>
          && p.tx.dirtied <= p.tx.read <= p.tx.pages
          && (forall page | page in p.tx.pages :: page in p.tx.read || p.phase == TrapRead(page))
          && (p.phase.TrapRead? ==> p.phase.page in p.tx.pages))
    && (p.phase.Commit? ==>
          && Unprotected(p.phase) <= p.tx.dirtied && p.phase.todo !! p.phase.stale
          && (p.phase.copying.Copying? ==> p.phase.copying.page in p.phase.todo))
  }

  ghost predicate Kept(p: Proc, left: iset<nat>) {
    Sets(p) && forall page: nat :: p.tx.prot[page] == Expected(p, left, page)
  }

  lemma KeptSays(p: Proc, left: iset<nat>, page: nat)
    requires Kept(p, left)
    ensures p.phase == Begin ==> p.tx.prot[page] == if page in left then ReadOnly else NoAccess
    ensures InTxn(p.phase) ==>
      p.tx.prot[page] == if page in p.tx.dirtied then ReadWrite
                         else if page in left || page in p.tx.pages then ReadOnly else NoAccess
  {
    hide Sets;
  }

  // ----- steps of one process -----

  lemma SamePhase(left: iset<nat>, p: Proc)
    ensures LeftAfter(left, p, p) == left
  {
  }

  lemma TrapKept(p: Proc, page: nat, q: Proc, left: iset<nat>)
    requires p.phase == Run && Trap(p, page, q) && Kept(p, left)
    ensures Kept(q, left)
  {
    if page !in p.tx.pages {
      assert q.phase == TrapRead(page) && q.tx == FirstTouch(p.tx, page);
    } else {
      assert q.phase == Run && q.tx == RecordWrite(p.tx, page);
    }
  }

  lemma BeginKept(p: Proc, mem: Mem, ver: Versions, q: Proc, left: iset<nat>)
    requires UserMove(p, mem, ver, q) && p.phase == Begin && Kept(p, left)
    ensures Kept(q, left)
  {
    assert q.tx == BeginTx(p.tx) && q.phase == Run;
  }

  lemma RecordKept(p: Proc, mem: Mem, ver: Versions, q: Proc, left: iset<nat>)
    requires UserMove(p, mem, ver, q) && p.phase.TrapRead? && Kept(p, left)
    ensures Kept(q, left)
  {
    assert q.phase == Run && q.tx == RecordRead(p.tx, p.phase.page, ver[p.phase.page]);
  }

  /** Running code, except for traps, leaves protection and page sets alone. */
  lemma RunKind(p: Proc, mem: Mem, ver: Versions, q: Proc)
    requires UserMove(p, mem, ver, q) && p.phase == Run
    ensures (exists page :: Trap(p, page, q))
         || (InTxn(q.phase) && !q.phase.TrapRead? && q.tx.prot == p.tx.prot && q.tx.pages == p.tx.pages
             && q.tx.read == p.tx.read && q.tx.dirtied == p.tx.dirtied)
    ensures InTxn(q.phase)
  {
  }

  lemma PlainKept(p: Proc, q: Proc, left: iset<nat>)
    requires InTxn(p.phase) && InTxn(q.phase) && !p.phase.TrapRead? && !q.phase.TrapRead? && Kept(p, left)
    requires q.tx.prot == p.tx.prot && q.tx.pages == p.tx.pages && q.tx.read == p.tx.read && q.tx.dirtied == p.tx.dirtied
    ensures Kept(q, left)
  {
  }

  lemma UserPhase(p: Proc, mem: Mem, ver: Versions, q: Proc)
    requires UserMove(p, mem, ver, q)
    ensures p.phase == Begin || p.phase.TrapRead? || p.phase == Run
    ensures InTxn(q.phase) && InTxn(Run)
  {
  }

  lemma SameLeft(left: iset<nat>, p: Proc, q: Proc)
    requires InTxn(q.phase) || p.phase.Commit? || p.phase.Check? || p.phase.Lock1? || p.phase.Lock2? || p.phase.Unlock1?
    ensures LeftAfter(left, p, q) == left
  {
  }

  lemma UserKept(p: Proc, mem: Mem, ver: Versions, q: Proc, left: iset<nat>)
    requires UserMove(p, mem, ver, q) && Kept(p, left)
    ensures Kept(q, LeftAfter(left, p, q))
  {
    hide *;
    UserPhase(p, mem, ver, q);
    SameLeft(left, p, q);
    if p.phase == Begin {
      BeginKept(p, mem, ver, q, left);
    } else if p.phase == Run {
      RunKind(p, mem, ver, q);
      if page :| Trap(p, page, q) {
        TrapKept(p, page, q, left);
      } else {
        PlainKept(p, q, left);
      }
    } else {
      RecordKept(p, mem, ver, q, left);
    }
  }

  lemma CompareKept(p: Proc, ver: Versions, page: nat, q: Proc, left: iset<nat>)
    requires p.phase.Check? && CheckMove(p, ver, page, q) && Kept(p, left)
    ensures Kept(q, left)
  {
    assert q.tx == p.tx && p.tx.pages <= p.tx.read;
  }

  lemma CommitKept(p: Proc, ver: Versions, page: nat, q: Proc, left: iset<nat>)
    requires p.phase.Commit? && CheckMove(p, ver, page, q) && Kept(p, left)
    ensures Kept(q, left)
  {
    if q.phase.Commit? && q.phase.stale != p.phase.stale {
      assert q == p.(phase := Commit(p.phase.todo, Idle, p.phase.stale - {page}), tx := UpdatePage(p.tx, page));
    }
  }

  lemma CheckKept(p: Proc, ver: Versions, page: nat, q: Proc, left: iset<nat>)
    requires CheckMove(p, ver, page, q) && Kept(p, left)
    ensures Kept(q, LeftAfter(left, p, q))
  {
    assert p.phase.Check? || p.phase.Commit?;
    hide *;
    SameLeft(left, p, q);
    if p.phase.Check? {
      CompareKept(p, ver, page, q, left);
    } else {
      CommitKept(p, ver, page, q, left);
    }
  }

  /** A null commit protects every page, and is not ordered. */
  lemma NullEnd(p: Proc, q: Proc)
    requires EndMove(p, q) && q.phase == Ended
    ensures p.phase == Run && Nop(p.tx) && q.pred == p.pred && q.tx.cow == map[] && AllProtected(q.tx)
  {
  }

  lemma WaitKept(p: Proc, unlatched: set<Pid>, retval: map<Pid, Val>, q: Proc, left: iset<nat>)
    requires WaitMove(p, unlatched, retval, q) && Kept(p, left)
    ensures Kept(q, LeftAfter(left, p, q))
  {
    if EndMove(p, q) {
      FinishKept(p, q, left);
    } else {
      IdleKept(p, unlatched, retval, q, left);
    }
  }

  lemma FinishKept(p: Proc, q: Proc, left: iset<nat>)
    requires EndMove(p, q) && Kept(p, left)
    ensures Kept(q, LeftAfter(left, p, q))
  {
  }

  lemma IdleKept(p: Proc, unlatched: set<Pid>, retval: map<Pid, Val>, q: Proc, left: iset<nat>)
    requires WaitMove(p, unlatched, retval, q) && !EndMove(p, q) && Kept(p, left)
    ensures Kept(q, LeftAfter(left, p, q))
  {
  }

  lemma PrivateKept(s: Sys, p: Proc, q: Proc, left: iset<nat>)
    requires Private(s, p, q) && Kept(p, left)
    ensures Kept(q, LeftAfter(left, p, q))
  {
    hide *;
    PrivateKinds(s, p, q);
    if UserMove(p, s.mem, s.ver, q) {
      UserKept(p, s.mem, s.ver, q, left);
    } else if page :| CheckMove(p, s.ver, page, q) {
      CheckKept(p, s.ver, page, q, left);
    } else {
      WaitKept(p, s.unlatched, s.retval, q, left);
    }
  }

  lemma LockKept(p: Proc, heapLock: Option<Pid>, globLock: Option<Pid>, left: iset<nat>)
    requires MayLock(p, heapLock, globLock) && Kept(p, left)
    ensures Kept(LockNext(p), LeftAfter(left, p, LockNext(p)))
  {
    if p.phase.Unlock2? { UnlockKept(p, left); }
  }

  lemma UnlockKept(p: Proc, left: iset<nat>)
    requires p.phase.Unlock2? && Kept(p, left)
    ensures Kept(AfterUnlock(p), LeftAfter(left, p, AfterUnlock(p)))
  {
  }

  lemma PublishKept(p: Proc, left: iset<nat>)
    requires Publishing(p.phase) && Kept(p, left)
    ensures Kept(PublishNext(p), LeftAfter(left, p, PublishNext(p)))
  {
    var q := PublishNext(p);
    assert Unprotected(q.phase) == Unprotected(p.phase);
    SameLeft(left, p, q);
  }

  lemma EndKept(s: Sys, x: Pid, q: Proc, t: Sys, left: iset<nat>)
    requires x in s.procs && EndStep(s, x, q, t) && Kept(s.procs[x], left)
    ensures Kept(q, LeftAfter(left, s.procs[x], q))
  {
    EndQuiet(s, x, q, t);
    QuietKept(s.procs[x], q, left);
    hide EndStep, Kept;
  }

  lemma QuietKept(p: Proc, q: Proc, left: iset<nat>)
    requires Kept(p, left) && q.tx == p.tx && (!InTxn(p.phase) || p.phase.Wait?)
    requires p.phase != Begin && !p.phase.Commit? && !p.phase.Unlock2? && !p.phase.Unlock1?
    requires p.phase.Wait? ==> q.phase.Lock1?
    requires !p.phase.Wait? ==> q.phase == ExitWait || q.phase.Posting? || q.phase == Begin
    ensures Kept(q, LeftAfter(left, p, q))
  {
  }

  /** The ends of threads, and the ends of waits, leave the address space alone. */
  lemma EndQuiet(s: Sys, x: Pid, q: Proc, t: Sys)
    requires x in s.procs && EndStep(s, x, q, t)
    ensures q.tx == s.procs[x].tx
    ensures !InTxn(s.procs[x].phase) || s.procs[x].phase.Wait?
    ensures s.procs[x].phase != Begin && !s.procs[x].phase.Commit? && !s.procs[x].phase.Unlock2? && !s.procs[x].phase.Unlock1?
    ensures s.procs[x].phase.Wait? ==> q.phase.Lock1?
    ensures !s.procs[x].phase.Wait? ==>
              q.phase == ExitWait || q.phase.Posting? || (q.phase == Begin && q.rollbacks == 0)
  {
    if StepWake(s, x, q, t) {
      hide *;
      WakeKind(s, x, q, t);
      WakeQuiet(s.procs[x], s.retval, q);
    } else {
      hide StepWake;
    }
  }

  lemma WakeKind(s: Sys, x: Pid, q: Proc, t: Sys)
    requires x in s.procs && StepWake(s, x, q, t)
    ensures WaitOver(s.procs[x], s.retval, q)
  {
    hide WaitOver;
  }

  lemma WakeQuiet(p: Proc, retval: map<Pid, Val>, q: Proc)
    requires WaitOver(p, retval, q)
    ensures q.tx == p.tx && (p.phase.Wait? || p.phase == ExitWait || p.phase == Join)
    ensures !InTxn(p.phase) || p.phase.Wait?
    ensures p.phase.Wait? ==> q.phase.Lock1?
    ensures !p.phase.Wait? ==> q.phase.Posting? || (q.phase == Begin && q.rollbacks == 0)
  {
  }

  // ----- steps of the system -----

  /** Every process but x is as it was, and x has moved on, or forked y. */
  ghost predicate Moved(s: Sys, x: Pid, y: Pid, t: Sys) {
    && x in s.procs && x in t.procs
    && (t.procs == s.procs[x := t.procs[x]]
        || (y !in s.procs && y !in s.order && y in t.procs && t.procs == s.procs[x := t.procs[x]][y := t.procs[y]]
            && t.procs[x].pred == Some(y)))
  }

  lemma StepMoves(s: Sys, x: Pid, t: Sys) returns (y: Pid)
    requires x in s.procs && Step(s, x, t)
    ensures Moved(s, x, y, t)
    ensures forall left | Kept(s.procs[x], left) ::
              && Kept(t.procs[x], LeftAfter(left, s.procs[x], t.procs[x]))
              && (y !in s.procs && y in t.procs ==> Kept(t.procs[y], left))
  {
    hide *;
    var q;
    q, y := StepKinds(s, x, t);
    var fork := false;
    if Private(s, s.procs[x], q) && t == s.Put(x, q) {
      PutView(s, x, q, t);
    } else if StepLock(s, x, t) {
      LockView(s, x, t);
      q := LockNext(s.procs[x]);
    } else if StepPublish(s, x, t) {
      PublishView(s, x, t);
      q := PublishNext(s.procs[x]);
    } else if StepFork(s, x, y, t) {
      ForkMoves(s, x, y, t);
      fork := true;
    } else {
      EndView(s, x, q, t);
    }
    if !fork {
      y := x;
      OneMoves(s, x, q, t);
    }
    forall left | Kept(s.procs[x], left)
      ensures Kept(t.procs[x], LeftAfter(left, s.procs[x], t.procs[x]))
      ensures y !in s.procs && y in t.procs ==> Kept(t.procs[y], left)
    {
      if fork {
        ForkKept(s, x, y, t, left);
      } else if Private(s, s.procs[x], q) && t == s.Put(x, q) {
        PrivateKept(s, s.procs[x], q, left);
      } else if StepLock(s, x, t) {
        LockView(s, x, t);
        LockKept(s.procs[x], s.heapLock, s.globLock, left);
      } else if StepPublish(s, x, t) {
        PublishView(s, x, t);
        PublishKept(s.procs[x], left);
      } else {
        EndKept(s, x, q, t, left);
      }
    }
  }

  lemma OneMoves(s: Sys, x: Pid, q: Proc, t: Sys)
    requires x in s.procs && t.procs == s.procs[x := q]
    ensures Moved(s, x, x, t) && x in t.procs && t.procs[x] == q
  {
  }

  lemma ForkMoves(s: Sys, x: Pid, y: Pid, t: Sys)
    requires x in s.procs && StepFork(s, x, y, t)
    ensures Moved(s, x, y, t)
  {
  }

  /** A forked process takes over the address space with its protection. */
  lemma ForkKept(s: Sys, x: Pid, y: Pid, t: Sys, left: iset<nat>)
    requires x in s.procs && StepFork(s, x, y, t) && Kept(s.procs[x], left)
    ensures x in t.procs && y in t.procs && Kept(t.procs[x], LeftAfter(left, s.procs[x], t.procs[x])) && Kept(t.procs[y], left)
  {
    var p := s.procs[x];
    ForkedAre(s, x, y, t);
    hide *;
    FreshKept(p, t.procs[x].pred, t.procs[x].task, left);
    FreshKept(p, t.procs[y].pred, t.procs[y].task, left);
  }

  lemma ForkedAre(s: Sys, x: Pid, y: Pid, t: Sys)
    requires x in s.procs && StepFork(s, x, y, t)
    ensures x in t.procs && y in t.procs && s.procs[x].phase == Ended
    ensures t.procs[x] == Fresh(t.procs[x].pred, t.procs[x].task, s.procs[x])
    ensures t.procs[y] == Fresh(t.procs[y].pred, t.procs[y].task, s.procs[x])
  {
  }

  /** A forked process starts with the pages of the one it comes from. */
  lemma FreshKept(p: Proc, pred: Option<Pid>, task: Task, left: iset<nat>)
    requires p.phase == Ended && Kept(p, left)
    ensures Kept(Fresh(pred, task, p), left) && LeftAfter(left, p, Fresh(pred, task, p)) == left
  {
  }

  /** Nobody has a process as its predecessor that is not in the list. */
  lemma PredKnown(s: Sys, z: Pid, y: Pid)
    requires OrderInv(s) && z in s.procs && y !in s.order
    ensures s.procs[z].pred != Some(y)
  {
    hide *;
    var i := At(s, z);
    if s.procs[z].pred.Some? {
      PredLast(s.procs[z], z, s.order[..i], s.unlatched);
      assert s.order[i - 1] == s.procs[z].pred.value;
    }
  }

  // ----- runs -----

  ghost predicate KeptInv(run: seq<Sys>, k: nat)
    requires k < |run|
  {
    forall x | x in run[k].procs :: Kept(run[k].procs[x], Left(run, k, x))
  }

  lemma LeftOld(run: seq<Sys>, k: nat, x: Pid)
    requires k + 1 < |run| && x in run[k].procs && x in run[k + 1].procs
    ensures Left(run, k + 1, x) == LeftAfter(Left(run, k, x), run[k].procs[x], run[k + 1].procs[x])
  {
  }

  lemma LeftNew(run: seq<Sys>, k: nat, x: Pid, y: Pid)
    requires k + 1 < |run| && y !in run[k].procs && x in run[k].procs && Parent(run[k + 1], x, y)
    requires forall z | z in run[k].procs && z != x :: !Parent(run[k + 1], z, y)
    ensures Left(run, k + 1, y) == Left(run, k, x)
  {
  }

  lemma StepKeepsKept(run: seq<Sys>, main: Prog, m0: Mem, k: nat)
    requires IsRun(run, main, m0) && k + 1 < |run| && KeptInv(run, k)
    ensures KeptInv(run, k + 1)
  {
    hide *;
    RunOrder(run, main, m0, k);
    var x := Mover(run, main, m0, k);
    var y := StepMoves(run[k], x, run[k + 1]);
    KeptOf(run, k, x);
    var t := run[k + 1];
    forall z | z in t.procs ensures Kept(t.procs[z], Left(run, k + 1, z)) {
      MovedParts(run[k], x, y, t, z);
      if z in run[k].procs {
        KeptOf(run, k, z);
        LeftOld(run, k, z);
        SamePhase(Left(run, k, z), run[k].procs[z]);
      } else {
        ForkedAlone(run[k], x, y, run[k + 1]);
        LeftNew(run, k, x, y);
      }
    }
    KeptIntro(run, k + 1);
  }

  lemma MovedParts(s: Sys, x: Pid, y: Pid, t: Sys, z: Pid)
    requires Moved(s, x, y, t) && z in t.procs
    ensures z in s.procs && z != x ==> t.procs[z] == s.procs[z]
    ensures z !in s.procs ==> z == y && Parent(t, x, y) && y !in s.order
  {
  }

  lemma ForkedAlone(s: Sys, x: Pid, y: Pid, t: Sys)
    requires OrderInv(s) && Moved(s, x, y, t) && y !in s.order && y !in s.procs
    ensures forall z | z in s.procs && z != x :: !Parent(t, z, y)
  {
    forall z | z in s.procs && z != x ensures !Parent(t, z, y) { PredKnown(s, z, y); }
    hide OrderInv;
  }

  lemma KeptOf(run: seq<Sys>, k: nat, x: Pid)
    requires k < |run| && KeptInv(run, k) && x in run[k].procs
    ensures Kept(run[k].procs[x], Left(run, k, x))
  {
  }

  lemma KeptIntro(run: seq<Sys>, k: nat)
    requires k < |run| && forall x | x in run[k].procs :: Kept(run[k].procs[x], Left(run, k, x))
    ensures KeptInv(run, k)
  {
  }

  lemma InitKept(run: seq<Sys>, main: Prog, m0: Mem)
    requires |run| > 0 && Init(run[0], main, m0)
    ensures KeptInv(run, 0)
  {
  }

  lemma {:induction false} RunKept(run: seq<Sys>, main: Prog, m0: Mem, k: nat)
    requires IsRun(run, main, m0) && k < |run|
    ensures KeptInv(run, k)
  {
    hide *;
    if k == 0 {
      Start(run, main, m0);
      InitKept(run, main, m0);
    } else {
      RunKept(run, main, m0, k - 1);
      StepKeepsKept(run, main, m0, k - 1);
    }
  }

  /** In every run, whatever was protected before: a transaction begins with exactly those
      pages readable that a commit of its process, or of the one it was forked from, has read
      without writing since the last null commit or rollback, and every other page protected.
      While it runs, the pages it has dirtied are writable and those it has touched readable
      as well. */
  lemma PagesOpen(run: seq<Sys>, main: Prog, m0: Mem, k: nat, x: Pid, page: nat)
    requires IsRun(run, main, m0) && k < |run| && x in run[k].procs
    ensures var p := run[k].procs[x];
            && (p.phase == Begin ==> p.tx.prot[page] == if page in Left(run, k, x) then ReadOnly else NoAccess)
            && (InTxn(p.phase) ==>
                  p.tx.prot[page] == if page in p.tx.dirtied then ReadWrite
                                     else if page in Left(run, k, x) || page in p.tx.pages then ReadOnly else NoAccess)
  {
    hide *;
    RunKept(run, main, m0, k);
    KeptOf(run, k, x);
    KeptSays(run[k].procs[x], Left(run, k, x), page);
  }

  /** Transactions begin with every page protected if and only if nothing is left readable. */
  lemma ProtectedWhenNothingLeft(run: seq<Sys>, main: Prog, m0: Mem, k: nat)
    requires IsRun(run, main, m0) && k < |run|
    ensures Disciplined(run[k]) <==>
            forall x | x in run[k].procs && run[k].procs[x].phase == Begin :: Left(run, k, x) == iset{}
  {
    forall x | x in run[k].procs && run[k].procs[x].phase == Begin
      ensures AllProtected(run[k].procs[x].tx) <==> Left(run, k, x) == iset{}
    {
      forall page: nat
        ensures run[k].procs[x].tx.prot[page] == if page in Left(run, k, x) then ReadOnly else NoAccess
      {
        PagesOpen(run, main, m0, k, x, page);
      }
      NothingLeft(run[k].procs[x].tx, Left(run, k, x));
    }
    hide Left, AllProtected, IsRun;
  }

  lemma NothingLeft(tx: Tx, left: iset<nat>)
    requires forall page: nat :: tx.prot[page] == if page in left then ReadOnly else NoAccess
    ensures AllProtected(tx) <==> left == iset{}
  {
    if AllProtected(tx) {
      forall page: nat ensures page !in left { assert tx.prot[page] == NoAccess; }
    }
  }

  /** At the end of a transaction: it ends at once exactly if it has neither read nor written
      a page. */
  lemma NullEndsAtOnce(run: seq<Sys>, main: Prog, m0: Mem, k: nat, x: Pid)
    requires IsRun(run, main, m0) && k + 1 < |run| && x in run[k].procs && run[k].procs[x].phase == Run
    requires x in run[k + 1].procs && Ends(run[k + 1].procs[x].phase)
    ensures run[k + 1].procs[x].phase == Ended <==> run[k].procs[x].tx.read == {} && run[k].procs[x].tx.dirtied == {}
  {
    hide *;
    RunOrder(run, main, m0, k);
    var y := Mover(run, main, m0, k);
    var q := NullKind(run[k], y, run[k + 1], x);
    EndsAs(run[k].procs[x], q);
  }

  lemma EndsAs(p: Proc, q: Proc)
    requires EndMove(p, q)
    ensures q.phase == Ended <==> p.tx.read == {} && p.tx.dirtied == {}
  {
  }

  /** The phases that the end of a transaction leads to. */
  ghost predicate Ends(ph: Phase) {
    ph == Ended || ph == Wait(ForEnd)
  }

  lemma EndedEnds()
    ensures Ends(Ended)
  {
  }

  /** The end of a null transaction: every page is protected and no private copy is left; the
      process keeps its predecessor, and nothing that is shared changes. */
  lemma NullCommit(run: seq<Sys>, main: Prog, m0: Mem, k: nat, x: Pid)
    requires IsRun(run, main, m0) && k + 1 < |run| && x in run[k].procs && run[k].procs[x].phase == Run
    requires x in run[k + 1].procs && run[k + 1].procs[x].phase == Ended
    ensures Nop(run[k].procs[x].tx) && AllProtected(run[k + 1].procs[x].tx) && run[k + 1].procs[x].tx.cow == map[]
    ensures run[k + 1].procs[x].pred == run[k].procs[x].pred && Left(run, k + 1, x) == iset{}
    ensures run[k + 1].mem == run[k].mem && run[k + 1].ver == run[k].ver && run[k + 1].order == run[k].order
    ensures run[k + 1].heapLock == run[k].heapLock && run[k + 1].globLock == run[k].globLock
    ensures run[k + 1].unlatched == run[k].unlatched && run[k + 1].retval == run[k].retval
  {
    hide *;
    RunOrder(run, main, m0, k);
    var y := Mover(run, main, m0, k);
    EndedEnds();
    var q := NullKind(run[k], y, run[k + 1], x);
    NullEnd(run[k].procs[x], q);
    LeftOld(run, k, x);
    NullLeft(Left(run, k, x), run[k].procs[x], q);
  }

  lemma NullLeft(left: iset<nat>, p: Proc, q: Proc)
    requires p.phase == Run && q.phase == Ended
    ensures LeftAfter(left, p, q) == iset{}
  {
  }

  lemma NullKind(s: Sys, y: Pid, t: Sys, x: Pid) returns (q: Proc)
    requires y in s.procs && Step(s, y, t) && x in s.procs && x in t.procs
    requires s.procs[x].phase == Run && Ends(t.procs[x].phase)
    ensures x == y && q == t.procs[x] && EndMove(s.procs[x], q) && t == s.Put(x, q)
    ensures t.mem == s.mem && t.ver == s.ver && t.order == s.order && t.heapLock == s.heapLock && t.globLock == s.globLock
    ensures t.unlatched == s.unlatched && t.retval == s.retval
  {
    hide *;
    RunInTxn(s.procs[x]);
    var z := StepMoves(s, y, t);
    MovedParts(s, y, z, t, x);
    q, z := StepKinds(s, y, t);
    if Private(s, s.procs[y], q) && t == s.Put(y, q) {
      PutView(s, y, q, t);
      EndedBy(s, s.procs[y], q);
    } else if StepLock(s, y, t) {
      LockNotRun(s, y, t);
    } else if StepPublish(s, y, t) {
      PublishView(s, y, t);
    } else if StepFork(s, y, z, t) {
      ForkPhase(s, y, z, t);
    } else {
      EndView(s, y, q, t);
      EndQuiet(s, y, q, t);
    }
  }

  lemma LockNotRun(s: Sys, y: Pid, t: Sys)
    requires y in s.procs && StepLock(s, y, t)
    ensures s.procs[y].phase != Run
  {
  }

  lemma RunInTxn(p: Proc)
    ensures p.phase == Run ==> InTxn(p.phase) && !p.phase.Wait? && !Ends(p.phase)
  {
  }

  lemma EndedBy(s: Sys, p: Proc, q: Proc)
    requires Private(s, p, q) && p.phase == Run && Ends(q.phase)
    ensures EndMove(p, q)
  {
    PrivateKinds(s, p, q);
    hide Private;
  }
}
