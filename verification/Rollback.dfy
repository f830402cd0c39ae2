/** Rollbacks: a transaction rolls back at most once, and not at all once it is
    irrevocable, because from then on no other process can publish a version. */
module Rollback {
  import opened Programs
  import opened Transactions
  import opened Protocol
  import opened OrderProof
  import opened TxnProof

  ghost predicate Failed(ph: Phase) {
    (ph.Unlock1? || ph.Unlock2?) && !ph.ok
  }

  /** The process has waited for its predecessors and has validated or restarted since. */
  ghost predicate Secure(p: Proc) {
    || p.rollbacks > 0 || p.irrevocable
    || ((p.phase.Unlock1? || p.phase.Unlock2?) && p.phase.ok && p.phase.why == ForIo)
  }

  /** Every page the handler has seen is in the read set or is being recorded, and the
      pages still to compare are pages of the read set. */
  ghost predicate Noted(p: Proc) {
    && (InTxn(p.phase) ==> forall page | page in p.tx.pages :: page in p.tx.read || p.phase == TrapRead(page))
    && (p.phase.Check? ==> p.phase.todo <= p.tx.read)
  }

  /** The pages compared so far have the versions recorded for them. */
  ghost predicate Compared(p: Proc, ver: Versions) {
    p.phase.Check? ==> forall page | page in p.tx.read - p.phase.todo :: ver[page] == p.tx.local[page]
  }

  ghost predicate Safe(p: Proc, ver: Versions) {
    && Noted(p) && Compared(p, ver)
    && p.rollbacks <= 1
    && (Failed(p.phase) ==> !Consistent(p.tx, ver))
    && (Secure(p) ==> !Failed(p.phase))
    && (Secure(p) && InTxn(p.phase) ==> Consistent(p.tx, ver))
  }

  ghost predicate RollbackInv(s: Sys) {
    forall x | x in s.procs :: Safe(s.procs[x], s.ver)
  }

  lemma UserSafe(p: Proc, mem: Mem, ver: Versions, q: Proc)
    requires UserMove(p, mem, ver, q) && Safe(p, ver)
    ensures Safe(q, ver)
  {
    UserNotes(p, mem, ver, q);
    UserFlags(p, mem, ver, q);
    hide UserMove, Noted;
  }

  /** A user move adds a page to the read set only with the version it has now. */
  lemma UserNotes(p: Proc, mem: Mem, ver: Versions, q: Proc)
    requires UserMove(p, mem, ver, q) && Noted(p)
    ensures Noted(q) && InTxn(q.phase) && !q.phase.Check?
    ensures forall page | page in q.tx.read ::
              || (InTxn(p.phase) && page in p.tx.read && q.tx.local[page] == p.tx.local[page])
              || q.tx.local[page] == ver[page]
  {
  }

  lemma UserFlags(p: Proc, mem: Mem, ver: Versions, q: Proc)
    requires UserMove(p, mem, ver, q)
    ensures q.rollbacks == p.rollbacks && q.irrevocable == p.irrevocable
    ensures !q.phase.Unlock1? && !q.phase.Unlock2?
  {
  }

  /** A comparison fails only in a transaction that is not secure. */
  lemma CheckSafe(p: Proc, ver: Versions, page: nat, q: Proc)
    requires CheckMove(p, ver, page, q) && Safe(p, ver)
    ensures Safe(q, ver)
  {
    assert p.phase.Check? && page in p.phase.todo ==> page in p.tx.read;
    assert p.phase.Check? && p.phase.todo == {} ==> forall z | z in p.tx.read :: z in p.tx.read - p.phase.todo;
  }

  lemma WaitSafe(p: Proc, unlatched: set<Pid>, retval: map<Pid, Val>, q: Proc, ver: Versions)
    requires WaitMove(p, unlatched, retval, q) && Safe(p, ver)
    ensures Safe(q, ver)
  {
  }

  lemma PrivateSafe(s: Sys, x: Pid, q: Proc)
    requires RollbackInv(s) && x in s.procs && Private(s, s.procs[x], q)
    ensures Safe(q, s.ver)
  {
    hide *;
    var p := s.procs[x];
    SafeOf(s, x);
    PrivateKinds(s, p, q);
    if UserMove(p, s.mem, s.ver, q) {
      UserSafe(p, s.mem, s.ver, q);
    } else if page :| CheckMove(p, s.ver, page, q) {
      CheckSafe(p, s.ver, page, q);
    } else {
      WaitSafe(p, s.unlatched, s.retval, q, s.ver);
    }
  }

  lemma LockSafe(p: Proc, heapLock: Option<Pid>, globLock: Option<Pid>, ver: Versions)
    requires MayLock(p, heapLock, globLock) && Safe(p, ver)
    ensures Safe(LockNext(p), ver)
  {
  }

  /** A secure process and a committing one are both the first live process. */
  lemma SecureAlone(s: Sys, x: Pid, y: Pid)
    requires OrderInv(s) && x in s.procs && y in s.procs
    requires Secure(s.procs[x]) && InTxn(s.procs[x].phase) && s.procs[y].phase.Commit?
    ensures x == y
  {
    var i := At(s, x);
    var j := At(s, y);
    SecurePast(s.procs[x], x, s.order[..i], s.unlatched);
    SecurePast(s.procs[y], y, s.order[..j], s.unlatched);
    hide OrderInv, Behind, Control;
    FirstLiveUnique(s, i, j);
  }

  lemma SecurePast(p: Proc, x: Pid, pre: seq<Pid>, u: set<Pid>)
    requires Behind(p, x, pre, u) && ((Secure(p) && InTxn(p.phase)) || p.phase.Commit?)
    ensures Exited(pre, u) && x !in u
  {
  }

  lemma PublishSafe(p: Proc, ver: Versions, ver': Versions)
    requires Publishing(p.phase) && Safe(p, ver)
    ensures Safe(PublishNext(p), ver')
  {
  }

  lemma PublishKeepsRollback(s: Sys, x: Pid, t: Sys)
    requires OrderInv(s) && RollbackInv(s) && x in s.procs && StepPublish(s, x, t)
    ensures RollbackInv(t)
  {
    hide *;
    SafeOf(s, x);
    PublishView(s, x, t);
    CommitterView(s, x);
    PublishSafe(s.procs[x], s.ver, t.ver);
    forall z | z in s.procs && z != x ensures Safe(s.procs[z], t.ver) {
      SafeOf(s, z);
      if Secure(s.procs[z]) && InTxn(s.procs[z].phase) {
        SecureAlone(s, z, x);
      } else {
        NotSecure(s.procs[z], s.ver, t.ver);
      }
    }
    AllSafe(s, x, PublishNext(s.procs[x]), t);
  }

  lemma NotSecure(p: Proc, ver: Versions, ver': Versions)
    requires Safe(p, ver) && !(Secure(p) && InTxn(p.phase)) && !p.phase.Check? && !p.phase.Unlock1? && !p.phase.Unlock2?
    ensures Safe(p, ver')
  {
  }

  lemma AllSafe(s: Sys, x: Pid, q: Proc, t: Sys)
    requires t.procs == s.procs[x := q] && Safe(q, t.ver)
    requires forall z | z in s.procs && z != x :: Safe(s.procs[z], t.ver)
    ensures RollbackInv(t)
  {
    hide Safe;
  }

  lemma EndSafe(s: Sys, x: Pid, q: Proc, t: Sys)
    requires x in s.procs && EndStep(s, x, q, t) && Safe(s.procs[x], s.ver)
    ensures Safe(q, s.ver)
  {
    EndFlags(s, x, q, t);
    hide EndStep;
  }

  lemma EndFlags(s: Sys, x: Pid, q: Proc, t: Sys)
    requires x in s.procs && EndStep(s, x, q, t)
    ensures !q.phase.Unlock1? && !q.phase.Unlock2? && q.tx == s.procs[x].tx
    ensures InTxn(q.phase) ==> s.procs[x].phase.Wait? && q.phase.Lock1?
    ensures !q.phase.Check?
    ensures q.rollbacks == 0 || q.rollbacks == s.procs[x].rollbacks
    ensures InTxn(q.phase) ==> q.rollbacks == s.procs[x].rollbacks && q.irrevocable == s.procs[x].irrevocable
  {
    if StepWake(s, x, q, t) {
      OverKind(s.procs[x], s.retval, q);
      hide WaitOver;
    }
  }

  lemma BeginSafe(q: Proc, ver: Versions)
    requires q.phase == Begin && q.rollbacks == 0 && !q.irrevocable
    ensures Safe(q, ver)
  {
  }

  lemma ForkKeepsRollback(s: Sys, x: Pid, y: Pid, t: Sys)
    requires RollbackInv(s) && x in s.procs && StepFork(s, x, y, t)
    ensures RollbackInv(t)
  {
    BeginSafe(t.procs[x], t.ver);
    BeginSafe(t.procs[y], t.ver);
    hide Safe;
  }

  lemma OneSafe(s: Sys, x: Pid, q: Proc, t: Sys)
    requires RollbackInv(s) && x in s.procs && t.procs == s.procs[x := q] && t.ver == s.ver && Safe(q, s.ver)
    ensures RollbackInv(t)
  {
    hide Safe;
  }

  lemma LockVer(s: Sys, x: Pid, t: Sys)
    requires RollbackInv(s) && x in s.procs && StepLock(s, x, t)
    ensures RollbackInv(t)
  {
    LockView(s, x, t);
    hide StepLock, LockNext, MayLock, Safe;
    LockSafe(s.procs[x], s.heapLock, s.globLock, s.ver);
    OneSafe(s, x, LockNext(s.procs[x]), t);
  }

  lemma SafeOf(s: Sys, x: Pid)
    requires RollbackInv(s) && x in s.procs
    ensures Safe(s.procs[x], s.ver)
  {
  }

  lemma StepKeepsRollback(s: Sys, x: Pid, t: Sys)
    requires OrderInv(s) && RollbackInv(s) && x in s.procs && Step(s, x, t)
    ensures RollbackInv(t)
  {
    hide *;
    var q, y := StepKinds(s, x, t);
    if Private(s, s.procs[x], q) && t == s.Put(x, q) {
      PrivateSafe(s, x, q);
      PutView(s, x, q, t);
      OneSafe(s, x, q, t);
    } else if StepLock(s, x, t) {
      LockVer(s, x, t);
    } else if StepPublish(s, x, t) {
      PublishKeepsRollback(s, x, t);
    } else if StepFork(s, x, y, t) {
      ForkKeepsRollback(s, x, y, t);
    } else {
      SafeOf(s, x);
      EndSafe(s, x, q, t);
      EndView(s, x, q, t);
      OneSafe(s, x, q, t);
    }
  }

  lemma InitRollback(s: Sys, main: Prog, m0: Mem)
    requires Init(s, main, m0)
    ensures RollbackInv(s)
  {
    BeginSafe(s.procs[ROOT], s.ver);
    hide Safe;
  }

  lemma {:induction false} RunRollback(run: seq<Sys>, main: Prog, m0: Mem, k: nat)
    requires IsRun(run, main, m0) && k < |run|
    ensures RollbackInv(run[k])
  {
    hide *;
    if k == 0 {
      Start(run, main, m0);
      InitRollback(run[0], main, m0);
    } else {
      RunRollback(run, main, m0, k - 1);
      RunOrder(run, main, m0, k - 1);
      var x := Mover(run, main, m0, k - 1);
      StepKeepsRollback(run[k - 1], x, run[k]);
    }
  }

  /** In every state of every run: no transaction has rolled back twice, a transaction
      that has rolled back once or is irrevocable is not failing validation, and would
      pass it now. */
  lemma RollsBackOnce(run: seq<Sys>, main: Prog, m0: Mem, k: nat, x: Pid)
    requires IsRun(run, main, m0) && k < |run| && x in run[k].procs
    ensures run[k].procs[x].rollbacks <= 1
    ensures run[k].procs[x].rollbacks == 1 || run[k].procs[x].irrevocable ==>
              && !Failed(run[k].procs[x].phase)
              && (InTxn(run[k].procs[x].phase) ==> Consistent(run[k].procs[x].tx, run[k].ver))
  {
    RunRollback(run, main, m0, k);
    SafeOf(run[k], x);
    hide RollbackInv;
  }

  /** In every run: validation fails only if some page of the read set has got another version
      since it was recorded, and comes to its end only if none has. */
  lemma FailsOnlyIfStale(run: seq<Sys>, main: Prog, m0: Mem, k: nat, x: Pid)
    requires IsRun(run, main, m0) && k < |run| && x in run[k].procs
    ensures var p := run[k].procs[x];
            && (Failed(p.phase) ==> exists page :: page in p.tx.read && run[k].ver[page] != p.tx.local[page])
            && (p.phase.Check? && p.phase.todo == {} ==> Consistent(p.tx, run[k].ver))
  {
    RunRollback(run, main, m0, k);
    SafeOf(run[k], x);
    hide RollbackInv, IsRun;
    var p := run[k].procs[x];
    if p.phase.Check? && p.phase.todo == {} {
      forall page | page in p.tx.read ensures run[k].ver[page] == p.tx.local[page] {
        assert page in p.tx.read - p.phase.todo;
      }
    }
  }

  /** And a transaction rolls back only after that. */
  lemma RollsBackOnlyIfStale(run: seq<Sys>, main: Prog, m0: Mem, k: nat, x: Pid)
    requires IsRun(run, main, m0) && k + 1 < |run| && x in run[k].procs && x in run[k + 1].procs
    requires run[k + 1].procs[x].rollbacks > run[k].procs[x].rollbacks
    ensures !Consistent(run[k].procs[x].tx, run[k].ver) && run[k + 1].procs[x].task == run[k].procs[x].saved
    ensures run[k + 1].procs[x].rollbacks == 1 && run[k + 1].procs[x].tx.cow == map[]
  {
    hide *;
    RunRollback(run, main, m0, k);
    RunRollback(run, main, m0, k + 1);
    SafeOf(run[k], x);
    SafeOf(run[k + 1], x);
    RunOrder(run, main, m0, k);
    var y := Mover(run, main, m0, k);
    CountKind(run[k], y, run[k + 1], x);
    StaleSays(run[k].procs[x], run[k].ver);
    StaleSays(run[k + 1].procs[x], run[k + 1].ver);
  }

  lemma StaleSays(p: Proc, ver: Versions)
    requires Safe(p, ver)
    ensures (Failed(p.phase) ==> !Consistent(p.tx, ver)) && 0 <= p.rollbacks <= 1
  {
    hide Noted, Compared, Secure, Consistent;
  }

  /** Only the release of the second lock counts rollbacks up. */
  lemma CountKind(s: Sys, y: Pid, t: Sys, x: Pid)
    requires y in s.procs && Step(s, y, t) && x in s.procs && x in t.procs
    requires t.procs[x].rollbacks > s.procs[x].rollbacks
    ensures Failed(s.procs[x].phase) && t.procs[x].task == s.procs[x].saved && t.procs[x].tx.cow == map[]
  {
    hide *;
    var q, z := StepKinds(s, y, t);
    if Private(s, s.procs[y], q) && t == s.Put(y, q) {
      PutView(s, y, q, t);
      PrivateCount(s, s.procs[y], q);
    } else if StepLock(s, y, t) {
      LockView(s, y, t);
      LockCount(s, y, t);
    } else if StepPublish(s, y, t) {
      PublishView(s, y, t);
      PublishCount(s.procs[y]);
    } else if StepFork(s, y, z, t) {
      ForkCount(s, y, z, t, x);
    } else {
      EndView(s, y, q, t);
      EndFlags(s, y, q, t);
    }
  }

  lemma PrivateCount(s: Sys, p: Proc, q: Proc)
    requires Private(s, p, q)
    ensures q.rollbacks <= p.rollbacks
  {
    PrivateKinds(s, p, q);
    hide Private;
    if UserMove(p, s.mem, s.ver, q) {
      UserFlags(p, s.mem, s.ver, q);
    }
    hide UserMove;
  }

  lemma LockCount(s: Sys, x: Pid, t: Sys)
    requires x in s.procs && x in t.procs && t.procs[x] == LockNext(s.procs[x]) && t.procs[x].rollbacks > s.procs[x].rollbacks
    ensures Failed(s.procs[x].phase) && t.procs[x].task == s.procs[x].saved && t.procs[x].tx.cow == map[]
  {
  }

  lemma PublishCount(p: Proc)
    requires Publishing(p.phase)
    ensures PublishNext(p).rollbacks == p.rollbacks
  {
  }

  lemma ForkCount(s: Sys, x: Pid, y: Pid, t: Sys, z: Pid)
    requires x in s.procs && StepFork(s, x, y, t) && z in s.procs && z in t.procs
    ensures t.procs[z].rollbacks <= s.procs[z].rollbacks
  {
  }

  /** With protected begins the private state of every process stays tied to the store. */
  lemma {:induction false} RunTx(run: seq<Sys>, main: Prog, m0: Mem, k: nat)
    requires IsRun(run, main, m0) && k < |run|
    requires forall i | 0 <= i < k :: Disciplined(run[i])
    ensures OrderInv(run[k]) && TxInv(run[k])
  {
    hide *;
    RunOrder(run, main, m0, k);
    if k == 0 {
      Start(run, main, m0);
      InitTx(run[0], main, m0);
    } else {
      RunTx(run, main, m0, k - 1);
      var x := Mover(run, main, m0, k - 1);
      StepKeepsTx(run[k - 1], x, run[k]);
    }
  }

  /** Validation under the locks: when every page of the read set has been compared,
      every value the transaction obtained from the shared store is still there, however
      copies and version bumps of other processes interleaved with its reads.  Here the
      begins have to be protected: a page left readable is read without being recorded. */
  lemma ValidatedReadsAreCurrent(run: seq<Sys>, main: Prog, m0: Mem, k: nat, x: Pid)
    requires IsRun(run, main, m0) && k < |run| && x in run[k].procs
    requires forall i | 0 <= i < k :: Disciplined(run[i])
    requires run[k].procs[x].phase.Check? && run[k].procs[x].phase.todo == {}
    ensures Consistent(run[k].procs[x].tx, run[k].ver)
    ensures forall o | o in run[k].procs[x].tx.observed :: run[k].mem[o.page][o.off] == o.v
  {
    RunTx(run, main, m0, k);
    var s := run[k];
    OneOk(s, x);
    CheckerView(s, x);
    hide OrderInv, TxInv, TxOk, Pending, Committed;
    ValidationSound(s.procs[x], s.mem, s.ver, s.mem);
  }

  /** In every run only the first live process commits, and it holds both region locks. */
  lemma OnlyFirstCommits(run: seq<Sys>, main: Prog, m0: Mem, k: nat, x: Pid)
    requires IsRun(run, main, m0) && k < |run| && x in run[k].procs && run[k].procs[x].phase.Commit?
    ensures exists i | 0 <= i < |run[k].order| :: run[k].order[i] == x && Exited(run[k].order[..i], run[k].unlatched)
    ensures x !in run[k].unlatched && run[k].heapLock == Some(x) && run[k].globLock == Some(x)
  {
    RunOrder(run, main, m0, k);
    var i := At(run[k], x);
    SecurePast(run[k].procs[x], x, run[k].order[..i], run[k].unlatched);
    CommitterView(run[k], x);
  }
}
