/** Transactions: what the page sets, versions and private copies of one process say
    about the shared store, at every point of every run. */
module TxnProof {
  import opened Programs
  import opened Transactions
  import opened Protocol
  import opened OrderProof

  /** Phases in which the effects of the current transaction are still private. */
  ghost predicate InTxn(ph: Phase) {
    match ph
    case Run => true
    case TrapRead(_) => true
    case Wait(_) => true
    case Lock1(_) => true
    case Lock2(_) => true
    case Check(_, _) => true
    case Unlock1(why, ok) => why == ForIo || !ok
    case Unlock2(why, ok) => why == ForIo || !ok
    case _ => false
  }

  /** Every page the transaction can access, has read or has written is in its sets. */
  ghost predicate Tracked(p: Proc) {
    && p.tx.cow.Keys <= p.tx.dirtied
    && (InTxn(p.phase) ==>
          && p.tx.dirtied <= p.tx.read <= p.tx.pages
          && (forall page: nat | p.tx.prot[page] != NoAccess :: page in p.tx.pages)
          && (forall page: nat | p.tx.prot[page] == ReadWrite :: page in p.tx.dirtied)
          && (forall page | page in p.tx.pages :: page in p.tx.read || p.phase == TrapRead(page))
          && (p.phase.TrapRead? ==> p.phase.page in p.tx.pages - p.tx.read)
          && (forall o | o in p.tx.observed :: o.page in p.tx.read)
          && (p.phase.Check? ==> p.phase.todo <= p.tx.read))
    && (p.phase.Commit? ==>
          && p.tx.cow.Keys <= p.phase.todo + p.phase.stale && p.phase.todo !! p.phase.stale
          && (p.phase.copying.Copying? ==> p.phase.copying.page in p.phase.todo && p.phase.copying.next <= PAGE_WORDS))
    && (!InTxn(p.phase) && !p.phase.Commit? ==> p.tx.cow == map[])
  }

  /** Recorded versions are never ahead of the published ones, and agree with them where
      validation has already looked or a commit is about to publish. */
  ghost predicate VerOk(p: Proc, ver: Versions) {
    && (InTxn(p.phase) ==> forall page | page in p.tx.read :: p.tx.local[page] <= ver[page])
    && (p.phase.Check? ==> forall page | page in p.tx.read - p.phase.todo :: p.tx.local[page] == ver[page])
    && (p.phase.Commit? ==> forall page | page in p.phase.todo :: p.tx.local[page] == ver[page])
  }

  /** The read set is current, and no commit in progress is going to change it. */
  ghost predicate Clean(p: Proc, ver: Versions, pending: set<nat>) {
    && InTxn(p.phase)
    && forall page | page in p.tx.read :: ver[page] == p.tx.local[page] && page !in pending
  }

  ghost predicate AgreeOn(m: Mem, n: Mem, pages: set<nat>) {
    forall page | page in pages :: m[page] == n[page]
  }

  /** Rerunning the transaction from its beginning, on any store that agrees with `abs`
      on the read set, ends like continuing it with its private copies in place. */
  ghost predicate Replay(p: Proc, abs: Mem) {
    forall m: Mem, e: Env {:trigger RunTask(p.saved, e, m)} | AgreeOn(m, abs, p.tx.read) ::
      RunTask(p.saved, e, m) == RunTask(p.task, e, Overlay(m, p.tx.cow, p.tx.cow.Keys))
  }

  /** Every value obtained from the shared store is still there. */
  ghost predicate Current(p: Proc, mem: Mem) {
    forall o | o in p.tx.observed :: mem[o.page][o.off] == o.v
  }

  /** The words of the page being copied that are already in the shared store. */
  ghost predicate WordsCopied(p: Proc, mem: Mem) {
    p.phase.Commit? && p.phase.copying.Copying? ==>
      var Copying(page, n) := p.phase.copying;
      forall j: Off | j < n :: mem[page][j] == View(p.tx, mem, page)[j]
  }

  /** Pages a commit in progress has still to publish. */
  ghost function Pending(s: Sys): set<nat> {
    if s.globLock.Some? && s.globLock.value in s.procs && s.procs[s.globLock.value].phase.Commit?
    then s.procs[s.globLock.value].phase.todo else {}
  }

  /** The committed store: a commit takes effect when validation succeeds. */
  ghost function Committed(s: Sys): Mem {
    if s.globLock.Some? && s.globLock.value in s.procs && s.procs[s.globLock.value].phase.Commit?
    then Overlay(s.mem, s.procs[s.globLock.value].tx.cow, s.procs[s.globLock.value].phase.todo)
    else s.mem
  }

  ghost predicate TxOk(p: Proc, mem: Mem, ver: Versions, pending: set<nat>, abs: Mem) {
    && Tracked(p) && VerOk(p, ver) && WordsCopied(p, mem)
    && (Clean(p, ver, pending) ==> Replay(p, abs) && Current(p, mem))
  }

  ghost predicate TxInv(s: Sys) {
    forall x | x in s.procs :: TxOk(s.procs[x], s.mem, s.ver, Pending(s), Committed(s))
  }

  ghost predicate SameOutside(m: Mem, n: Mem, pages: set<nat>) {
    forall page: nat | page !in pages :: m[page] == n[page]
  }

  lemma CommittedOutside(s: Sys)
    ensures SameOutside(Committed(s), s.mem, Pending(s))
  {
  }

  // ----- the store with private copies laid over it -----

  lemma OverlayNone(m: Mem, cow: map<nat, PageData>, todo: set<nat>)
    requires cow == map[] || todo == {}
    ensures Overlay(m, cow, todo) == m
  {
    assert forall p: nat :: Overlay(m, cow, todo)[p] == m[p];
  }

  lemma OverlayView(m: Mem, mem: Mem, tx: Tx, page: nat)
    requires m[page] == mem[page]
    ensures Overlay(m, tx.cow, tx.cow.Keys)[page] == View(tx, mem, page)
  {
  }

  lemma OverlayWrite(m: Mem, mem: Mem, tx: Tx, page: nat, off: Off, v: Val)
    requires m[page] == mem[page]
    ensures
      var w := WriteWord(tx, mem, page, off, v);
      Overlay(m, w.cow, w.cow.Keys) == Store(Overlay(m, tx.cow, tx.cow.Keys), page, off, v)
  {
    var w := WriteWord(tx, mem, page, off, v);
    var a, b := Overlay(m, w.cow, w.cow.Keys), Store(Overlay(m, tx.cow, tx.cow.Keys), page, off, v);
    assert forall p: nat :: a[p] == b[p];
  }

  // ----- user moves -----

  lemma TrapTracked(p: Proc, page: nat, q: Proc)
    requires p.phase == Run && Trap(p, page, q) && Tracked(p)
    ensures Tracked(q)
  {
  }

  lemma UserTracked(p: Proc, mem: Mem, ver: Versions, q: Proc)
    requires UserMove(p, mem, ver, q) && Tracked(p)
    requires p.phase == Begin ==> AllProtected(p.tx)
    ensures Tracked(q)
  {
    if p.phase == Run {
      if (p.task.code.Read? || p.task.code.Write?) && !Allowed(p.task.code, p.tx) {
        TrapTracked(p, p.task.code.page, q);
      } else {
        RunTracked(p, mem, ver, q);
      }
    } else if p.phase == Begin {
      BeginTracked(p, q);
    } else {
      RecordTracked(p, p.phase.page, ver[p.phase.page], q);
    }
  }

  lemma BeginTracked(p: Proc, q: Proc)
    requires p.phase == Begin && Tracked(p) && AllProtected(p.tx)
    requires q == p.(phase := Run, saved := p.task, tx := BeginTx(p.tx))
    ensures Tracked(q)
  {
  }

  lemma RecordTracked(p: Proc, page: nat, version: int, q: Proc)
    requires p.phase == TrapRead(page) && Tracked(p)
    requires q == p.(phase := Run, tx := RecordRead(p.tx, page, version))
    ensures Tracked(q)
  {
  }

  lemma RunTracked(p: Proc, mem: Mem, ver: Versions, q: Proc)
    requires UserMove(p, mem, ver, q) && Tracked(p) && p.phase == Run
    requires p.task.code.Read? || p.task.code.Write? ==> Allowed(p.task.code, p.tx)
    ensures Tracked(q)
  {
    hide Trap, Tracked;
    if p.task.code.Read? {
      ReadTracked(p, mem, q);
    } else if p.task.code.Write? {
      WriteTracked(p, mem, q);
    } else {
      CodeTracked(p, q);
    }
  }

  lemma ReadTracked(p: Proc, mem: Mem, q: Proc)
    requires p.phase == Run && q.phase == Run && p.task.code.Read? && Tracked(p)
    requires q.tx == Observe(p.tx, mem, p.task.code.page, p.task.code.off) && Allowed(p.task.code, p.tx)
    ensures Tracked(q)
  {
  }

  lemma WriteTracked(p: Proc, mem: Mem, q: Proc)
    requires p.phase == Run && q.phase == Run && p.task.code.Write? && Tracked(p) && Allowed(p.task.code, p.tx)
    requires q.tx == WriteWord(p.tx, mem, p.task.code.page, p.task.code.off, p.task.code.v)
    ensures Tracked(q)
  {
  }

  lemma CodeTracked(p: Proc, q: Proc)
    requires p.phase == Run && (q.phase == Run || q.phase.Wait?) && Tracked(p) && q.tx == p.tx
    ensures Tracked(q)
  {
  }

  lemma UserVer(p: Proc, mem: Mem, ver: Versions, q: Proc)
    requires UserMove(p, mem, ver, q) && Tracked(p) && VerOk(p, ver)
    ensures VerOk(q, ver) && InTxn(q.phase)
  {
    UserSets(p, mem, ver, q);
    hide UserMove, Tracked;
  }

  /** What a user move does to the read set and the recorded versions. */
  lemma UserSets(p: Proc, mem: Mem, ver: Versions, q: Proc)
    requires UserMove(p, mem, ver, q) && Tracked(p)
    ensures InTxn(q.phase) && !q.phase.Check? && !q.phase.Commit?
    ensures forall page | page in q.tx.read ::
              || (InTxn(p.phase) && page in p.tx.read && q.tx.local[page] == p.tx.local[page])
              || q.tx.local[page] == ver[page]
  {
  }

  /** A user move only adds to the read set. */
  lemma UserClean(p: Proc, mem: Mem, ver: Versions, q: Proc, pending: set<nat>)
    requires UserMove(p, mem, ver, q) && Tracked(p) && Clean(q, ver, pending)
    ensures p.phase == Begin || Clean(p, ver, pending)
  {
  }

  lemma ReadReplay(p: Proc, mem: Mem, q: Proc, abs: Mem)
    requires p.phase == Run && p.task.code.Read? && Allowed(p.task.code, p.tx)
    requires q == p.(task := p.task.(code := Resume(p.task.code.cont, View(p.tx, mem, p.task.code.page)[p.task.code.off])),
                     tx := Observe(p.tx, mem, p.task.code.page, p.task.code.off))
    requires Tracked(p) && Replay(p, abs) && AgreeOn(mem, abs, p.tx.read)
    ensures Replay(q, abs)
  {
    var g := p.task.code;
    forall m: Mem, e: Env | AgreeOn(m, abs, q.tx.read)
      ensures RunTask(q.saved, e, m) == RunTask(q.task, e, Overlay(m, q.tx.cow, q.tx.cow.Keys))
    {
      assert g.page in p.tx.read;
      OverlayView(m, mem, p.tx, g.page);
      MeaningRead(p.task, e, Overlay(m, p.tx.cow, p.tx.cow.Keys));
    }
  }

  lemma WriteReplay(p: Proc, mem: Mem, q: Proc, abs: Mem)
    requires p.phase == Run && p.task.code.Write? && Allowed(p.task.code, p.tx)
    requires q == p.(task := p.task.(code := p.task.code.rest),
                     tx := WriteWord(p.tx, mem, p.task.code.page, p.task.code.off, p.task.code.v))
    requires Tracked(p) && Replay(p, abs) && AgreeOn(mem, abs, p.tx.read)
    ensures Replay(q, abs)
  {
    var g := p.task.code;
    forall m: Mem, e: Env | AgreeOn(m, abs, q.tx.read)
      ensures RunTask(q.saved, e, m) == RunTask(q.task, e, Overlay(m, q.tx.cow, q.tx.cow.Keys))
    {
      assert g.page in p.tx.read;
      OverlayWrite(m, mem, p.tx, g.page, g.off, g.v);
      MeaningWrite(p.task, e, Overlay(m, p.tx.cow, p.tx.cow.Keys));
    }
  }

  /** Control moves on without touching memory. */
  lemma TaskReplay(p: Proc, q: Proc, abs: Mem)
    requires Replay(p, abs) && q.saved == p.saved && q.tx.cow == p.tx.cow && p.tx.read <= q.tx.read
    requires forall e: Env, m: Mem :: RunTask(p.task, e, m) == RunTask(q.task, e, m)
    ensures Replay(q, abs)
  {
    forall m: Mem, e: Env | AgreeOn(m, abs, q.tx.read)
      ensures RunTask(q.saved, e, m) == RunTask(q.task, e, Overlay(m, q.tx.cow, q.tx.cow.Keys))
    {
      assert AgreeOn(m, abs, p.tx.read);
    }
  }

  lemma BeginReplay(p: Proc, q: Proc, abs: Mem)
    requires p.tx.cow == map[] && q == p.(phase := Run, saved := p.task, tx := BeginTx(p.tx))
    ensures Replay(q, abs)
  {
    forall m: Mem, e: Env
      ensures RunTask(q.saved, e, m) == RunTask(q.task, e, Overlay(m, q.tx.cow, q.tx.cow.Keys))
    {
      OverlayNone(m, q.tx.cow, q.tx.cow.Keys);
      assert q.tx.cow == map[];
    }
  }

  /** Moves other than reads and writes of data keep the serial meaning of the task. */
  lemma ControlMeaning(p: Proc, mem: Mem, ver: Versions, q: Proc)
    requires UserMove(p, mem, ver, q) && p.phase != Begin
    requires !(p.phase == Run && (p.task.code.Read? || p.task.code.Write?) && Allowed(p.task.code, p.tx))
    ensures forall e: Env, m: Mem :: RunTask(p.task, e, m) == RunTask(q.task, e, m)
    ensures q.saved == p.saved && q.tx.cow == p.tx.cow && p.tx.read <= q.tx.read
    ensures q.tx.observed == p.tx.observed
  {
    forall e: Env, m: Mem ensures RunTask(p.task, e, m) == RunTask(q.task, e, m) {
      if p.phase == Run {
        match p.task.code
        case Spawn(_, _) => MeaningCall(p.task, e, m);
        case Ret(_) => MeaningReturn(p.task, e, m);
        case Sync(_, _) => MeaningSync(p.task, e, m);
        case _ =>
      }
    }
  }

  lemma UserReplay(p: Proc, mem: Mem, ver: Versions, q: Proc, abs: Mem)
    requires UserMove(p, mem, ver, q) && Tracked(p)
    requires p.phase != Begin ==> Replay(p, abs) && AgreeOn(mem, abs, p.tx.read)
    ensures Replay(q, abs)
  {
    hide Replay, AgreeOn, Tracked, Allowed, RunTask;
    if p.phase == Begin {
      assert p.tx.cow == map[] by { BeginCow(p); }
      BeginReplay(p, q, abs);
    } else if p.phase == Run && p.task.code.Read? && Allowed(p.task.code, p.tx) {
      ReadReplay(p, mem, q, abs);
    } else if p.phase == Run && p.task.code.Write? && Allowed(p.task.code, p.tx) {
      WriteReplay(p, mem, q, abs);
    } else {
      ControlMeaning(p, mem, ver, q);
      TaskReplay(p, q, abs);
    }
  }

  lemma BeginCow(p: Proc)
    requires Tracked(p) && p.phase == Begin
    ensures p.tx.cow == map[]
  {
  }

  lemma UserCurrent(p: Proc, mem: Mem, ver: Versions, q: Proc)
    requires UserMove(p, mem, ver, q) && (p.phase == Begin || Current(p, mem))
    ensures Current(q, mem)
  {
  }

  lemma UserTx(p: Proc, mem: Mem, ver: Versions, q: Proc, pending: set<nat>, abs: Mem)
    requires UserMove(p, mem, ver, q) && TxOk(p, mem, ver, pending, abs)
    requires SameOutside(abs, mem, pending)
    requires p.phase == Begin ==> AllProtected(p.tx)
    ensures TxOk(q, mem, ver, pending, abs)
  {
    UserTracked(p, mem, ver, q);
    UserVer(p, mem, ver, q);
    if Clean(q, ver, pending) {
      UserClean(p, mem, ver, q, pending);
      if p.phase != Begin {
        assert Replay(p, abs) && Current(p, mem);
        assert AgreeOn(mem, abs, p.tx.read);
      }
      hide UserMove, Tracked, VerOk, Replay, Current, AgreeOn, Clean;
      UserReplay(p, mem, ver, q, abs);
      UserCurrent(p, mem, ver, q);
    }
    assert !q.phase.Commit? by { hide UserMove; }
  }

  // ----- moves that leave the transaction as it is -----

  /** The phase changes within the transaction; memory state and task do not. */
  lemma SamePlace(p: Proc, q: Proc, mem: Mem, ver: Versions, pending: set<nat>, abs: Mem)
    requires TxOk(p, mem, ver, pending, abs)
    requires InTxn(p.phase) && InTxn(q.phase) && !p.phase.TrapRead? && !q.phase.TrapRead?
    requires q.tx == p.tx && q.task == p.task && q.saved == p.saved
    requires q.phase.Check? ==> q.phase.todo <= p.tx.read
    requires q.phase.Check? ==> forall page | page in p.tx.read - q.phase.todo :: p.tx.local[page] == ver[page]
    ensures TxOk(q, mem, ver, pending, abs)
  {
    assert Clean(q, ver, pending) ==> Clean(p, ver, pending);
    hide Clean, RunTask;
  }

  /** Outside transactions there are no private copies and nothing else to keep. */
  lemma NoTxn(q: Proc, mem: Mem, ver: Versions, pending: set<nat>, abs: Mem)
    requires !InTxn(q.phase) && !q.phase.Commit? && q.tx.cow == map[]
    ensures TxOk(q, mem, ver, pending, abs)
  {
    assert !Clean(q, ver, pending);
    assert VerOk(q, ver) && WordsCopied(q, mem) && Tracked(q);
    hide Clean, Replay, Current, VerOk, WordsCopied, Tracked, InTxn;
  }

  /** Between transactions: the phase and the task change, there is nothing to track. */
  lemma QuietCow(p: Proc)
    requires Tracked(p) && !InTxn(p.phase) && !p.phase.Commit?
    ensures p.tx.cow == map[]
  {
  }

  ghost predicate WaitMove(p: Proc, unlatched: set<Pid>, retval: map<Pid, Val>, q: Proc) {
    || EndMove(p, q) || JoinMove(p, q) || BlockMove(p, unlatched, q)
    || (p.phase != ExitWait && WaitOver(p, retval, q))
  }

  lemma WaitTx(p: Proc, unlatched: set<Pid>, retval: map<Pid, Val>, q: Proc,
               mem: Mem, ver: Versions, pending: set<nat>, abs: Mem)
    requires WaitMove(p, unlatched, retval, q) && TxOk(p, mem, ver, pending, abs)
    ensures TxOk(q, mem, ver, pending, abs)
  {
    WaitKind(p, unlatched, retval, q);
    hide WaitMove;
    if InTxn(q.phase) {
      SamePlace(p, q, mem, ver, pending, abs);
    } else {
      if !InTxn(p.phase) { QuietCow(p); }
      NoTxn(q, mem, ver, pending, abs);
    }
  }

  lemma WaitKind(p: Proc, unlatched: set<Pid>, retval: map<Pid, Val>, q: Proc)
    requires WaitMove(p, unlatched, retval, q)
    ensures !p.phase.TrapRead? && !q.phase.TrapRead? && !p.phase.Commit? && !q.phase.Commit? && !q.phase.Check?
    ensures InTxn(q.phase) ==> InTxn(p.phase) && q.tx == p.tx && q.task == p.task && q.saved == p.saved
    ensures !InTxn(q.phase) && InTxn(p.phase) ==> q.tx.cow == map[]
    ensures !InTxn(q.phase) && !InTxn(p.phase) ==> q.tx == p.tx
  {
  }

  // ----- validation -----

  /** consistent() has compared one page, or has failed. */
  lemma CompareTx(p: Proc, ver: Versions, page: nat, q: Proc, mem: Mem, pending: set<nat>, abs: Mem)
    requires p.phase.Check? && p.phase.todo != {} && CheckMove(p, ver, page, q)
    requires TxOk(p, mem, ver, pending, abs)
    ensures TxOk(q, mem, ver, pending, abs)
  {
    SamePlace(p, q, mem, ver, pending, abs);
  }

  lemma CheckedIoTx(p: Proc, ver: Versions, page: nat, q: Proc, mem: Mem, pending: set<nat>, abs: Mem)
    requires p.phase == Check(ForIo, {}) && CheckMove(p, ver, page, q)
    requires TxOk(p, mem, ver, pending, abs)
    ensures TxOk(q, mem, ver, pending, abs)
  {
    SamePlace(p, q, mem, ver, pending, abs);
  }

  /** Validation under the locks is sound: when every page has been compared, the read set
      is current, every value read is still in the shared store, and rerunning the
      transaction from its beginning would end like committing it now. */
  lemma ValidationSound(p: Proc, mem: Mem, ver: Versions, abs: Mem)
    requires TxOk(p, mem, ver, {}, abs) && p.phase.Check? && p.phase.todo == {}
    ensures Consistent(p.tx, ver) && Clean(p, ver, {})
    ensures Current(p, mem) && Replay(p, abs)
  {
    hide RunTask;
    assert forall page | page in p.tx.read :: page in p.tx.read - p.phase.todo;
  }

  lemma CommitStartTx(p: Proc, ver: Versions, q: Proc, mem: Mem, abs: Mem, pending: set<nat>, abs': Mem)
    requires p.phase == Check(ForEnd, {}) && q == p.(phase := Commit(p.tx.dirtied, Idle, {}))
    requires TxOk(p, mem, ver, {}, abs)
    ensures TxOk(q, mem, ver, pending, abs')
  {
    ValidationSound(p, mem, ver, abs);
    assert Tracked(q) && VerOk(q, ver) && WordsCopied(q, mem) && !Clean(q, ver, pending);
    hide Clean, Replay, Current, VerOk, WordsCopied, Tracked;
  }

  /** A commit that starts hides its pages from every transaction that is still clean. */
  lemma CommitStartOther(p: Proc, mem: Mem, ver: Versions, cow: map<nat, PageData>, dirtied: set<nat>)
    requires TxOk(p, mem, ver, {}, mem)
    ensures TxOk(p, mem, ver, dirtied, Overlay(mem, cow, dirtied))
  {
    if Clean(p, ver, dirtied) {
      assert Clean(p, ver, {});
      ReplayAgree(p, mem, Overlay(mem, cow, dirtied));
    }
    hide RunTask, Current, Replay;
  }

  lemma ReplayAgree(p: Proc, abs: Mem, abs': Mem)
    requires Replay(p, abs) && AgreeOn(abs, abs', p.tx.read)
    ensures Replay(p, abs')
  {
    hide RunTask;
    forall m: Mem, e: Env | AgreeOn(m, abs', p.tx.read)
      ensures RunTask(p.saved, e, m) == RunTask(p.task, e, Overlay(m, p.tx.cow, p.tx.cow.Keys))
    {
      assert AgreeOn(m, abs, p.tx.read);
    }
  }

  // ----- commit -----

  lemma UpdateTracked(p: Proc, page: nat, q: Proc)
    requires p.phase.Commit? && p.phase.copying == Idle && Tracked(p) && page in p.phase.stale
    requires q == p.(phase := Commit(p.phase.todo, Idle, p.phase.stale - {page}), tx := UpdatePage(p.tx, page))
    ensures Tracked(q)
  {
  }

  lemma CommitLocalTracked(p: Proc, ver: Versions, page: nat, q: Proc)
    requires p.phase.Commit? && CheckMove(p, ver, page, q) && Tracked(p)
    ensures Tracked(q) && !InTxn(q.phase) && !q.phase.Check?
    ensures q.phase.Commit? || p.phase.todo == {}
    ensures q.phase.Commit? ==> q.phase.todo == p.phase.todo
  {
    if page in p.phase.stale && q.phase.Commit? && q.phase.stale != p.phase.stale {
      UpdateTracked(p, page, q);
    }
  }

  lemma CommitLocalCopied(p: Proc, ver: Versions, page: nat, q: Proc, mem: Mem)
    requires p.phase.Commit? && CheckMove(p, ver, page, q)
    ensures WordsCopied(q, mem)
  {
  }

  lemma CommitLocalVer(p: Proc, ver: Versions, page: nat, q: Proc)
    requires p.phase.Commit? && CheckMove(p, ver, page, q)
    ensures q.tx.local == p.tx.local
  {
  }

  lemma CommitLocalTx(p: Proc, ver: Versions, page: nat, q: Proc, mem: Mem, pending: set<nat>, abs: Mem)
    requires p.phase.Commit? && CheckMove(p, ver, page, q) && TxOk(p, mem, ver, pending, abs)
    ensures TxOk(q, mem, ver, pending, abs)
    ensures q.phase.Commit? || p.phase.todo == {}
  {
    CommitLocalTracked(p, ver, page, q);
    CommitLocalCopied(p, ver, page, q, mem);
    CommitLocalVer(p, ver, page, q);
    assert VerOk(q, ver);
    hide CheckMove, Tracked, VerOk, WordsCopied, Replay, Current;
  }

  /** A local action of a commit leaves what it has still to publish alone. */
  lemma CommitLocalView(p: Proc, ver: Versions, page: nat, q: Proc, mem: Mem)
    requires p.phase.Commit? && CheckMove(p, ver, page, q) && q.phase.Commit?
    requires p.phase.todo !! p.phase.stale
    ensures q.phase.todo == p.phase.todo
    ensures Overlay(mem, q.tx.cow, q.phase.todo) == Overlay(mem, p.tx.cow, p.phase.todo)
  {
    CommitLocalCow(p, ver, page, q);
    hide CheckMove;
    var a, b := Overlay(mem, q.tx.cow, q.phase.todo), Overlay(mem, p.tx.cow, p.phase.todo);
    assert forall z: nat :: a[z] == b[z];
  }

  lemma CommitLocalCow(p: Proc, ver: Versions, page: nat, q: Proc)
    requires p.phase.Commit? && CheckMove(p, ver, page, q) && q.phase.Commit?
    requires p.phase.todo !! p.phase.stale
    ensures q.phase.todo == p.phase.todo
    ensures forall z | z in p.phase.todo :: (z in q.tx.cow <==> z in p.tx.cow) && (z in p.tx.cow ==> q.tx.cow[z] == p.tx.cow[z])
  {
  }

  lemma PublishTracked(p: Proc)
    requires Publishing(p.phase) && Tracked(p)
    ensures Tracked(PublishNext(p)) && PublishNext(p).phase.Commit?
  {
  }

  lemma PublishVer(p: Proc, ver: Versions)
    requires Publishing(p.phase) && Tracked(p) && VerOk(p, ver)
    ensures VerOk(PublishNext(p), if Copies(p.phase) then ver else BumpVersion(p, ver))
  {
  }

  lemma PublishCopied(p: Proc, mem: Mem)
    requires Publishing(p.phase) && WordsCopied(p, mem)
    ensures WordsCopied(PublishNext(p), if Copies(p.phase) then CopyWord(p, mem) else mem)
  {
  }

  lemma PublishTx(p: Proc, mem: Mem, ver: Versions, pending: set<nat>, abs: Mem, pending': set<nat>, abs': Mem)
    requires Publishing(p.phase) && TxOk(p, mem, ver, pending, abs)
    ensures TxOk(PublishNext(p), if Copies(p.phase) then CopyWord(p, mem) else mem,
                 if Copies(p.phase) then ver else BumpVersion(p, ver), pending', abs')
  {
    PublishTracked(p);
    PublishVer(p, ver);
    PublishCopied(p, mem);
    hide PublishNext, CopyWord, BumpVersion, Tracked, VerOk, WordsCopied, Replay, Current;
  }

  /** The committed store does not change while the pages of a commit are copied. */
  lemma CopyKeepsCommitted(p: Proc, mem: Mem)
    requires Copies(p.phase) && p.phase.copying.page in p.phase.todo
    ensures Overlay(CopyWord(p, mem), p.tx.cow, p.phase.todo) == Overlay(mem, p.tx.cow, p.phase.todo)
    ensures SameOutside(CopyWord(p, mem), mem, p.phase.todo)
  {
    var page := p.phase.copying.page;
    var a, b := Overlay(CopyWord(p, mem), p.tx.cow, p.phase.todo), Overlay(mem, p.tx.cow, p.phase.todo);
    assert page !in p.tx.cow ==> CopyWord(p, mem)[page] == mem[page];
    assert forall z: nat :: a[z] == b[z];
  }

  /** Nor when the version of a copied page is published. */
  lemma BumpKeepsCommitted(p: Proc, mem: Mem)
    requires Publishing(p.phase) && !Copies(p.phase) && WordsCopied(p, mem)
    ensures Overlay(mem, p.tx.cow, PublishNext(p).phase.todo) == Overlay(mem, p.tx.cow, p.phase.todo)
  {
    var page := p.phase.copying.page;
    var todo := PublishNext(p).phase.todo;
    var a, b := Overlay(mem, p.tx.cow, todo), Overlay(mem, p.tx.cow, p.phase.todo);
    assert mem[page] == View(p.tx, mem, page) by {
      forall j | 0 <= j < PAGE_WORDS ensures mem[page][j] == View(p.tx, mem, page)[j] {
        var o: Off := j;
      }
    }
    assert forall z: nat :: a[z] == b[z];
  }

  /** Other transactions while a word is copied. */
  lemma CopyOther(p: Proc, mem: Mem, mem': Mem, ver: Versions, pending: set<nat>, abs: Mem)
    requires TxOk(p, mem, ver, pending, abs) && SameOutside(mem', mem, pending) && !p.phase.Commit?
    ensures TxOk(p, mem', ver, pending, abs)
  {
    hide RunTask, Replay;
  }

  lemma StaleVersion(p: Proc, ver: Versions, page: nat)
    requires VerOk(p, ver) && InTxn(p.phase) && page in p.tx.read
    ensures ver[page := ver[page] + 1][page] != p.tx.local[page]
  {
  }

  /** Other transactions when a page version is published: whoever has read the page is
      not clean any more. */
  lemma BumpOther(p: Proc, mem: Mem, ver: Versions, pending: set<nat>, page: nat, abs: Mem)
    requires TxOk(p, mem, ver, pending, abs) && page in pending && !p.phase.Commit? && !p.phase.Check?
    ensures TxOk(p, mem, ver[page := ver[page] + 1], pending - {page}, abs)
  {
    var ver' := ver[page := ver[page] + 1];
    if Clean(p, ver', pending - {page}) {
      if page in p.tx.read { StaleVersion(p, ver, page); }
      assert Clean(p, ver, pending);
    }
    hide RunTask, Replay, Current;
  }

  /** The last unlock of a commit: every private copy has been dropped. */
  lemma LockTx(p: Proc, heapLock: Option<Pid>, globLock: Option<Pid>,
               mem: Mem, ver: Versions, pending: set<nat>, abs: Mem)
    requires MayLock(p, heapLock, globLock) && Control(p) && TxOk(p, mem, ver, pending, abs)
    ensures TxOk(LockNext(p), mem, ver, pending, abs)
  {
    var q := LockNext(p);
    if p.phase.Unlock2? && p.phase.ok && p.phase.why == ForIo {
      IoTx(p, mem, ver, pending, abs);
    } else if InTxn(p.phase) && !p.phase.Unlock2? {
      hide Control;
      SamePlace(p, q, mem, ver, pending, abs);
    } else {
      LockCow(p, heapLock, globLock);
      hide Control, TxOk, LockNext;
      NoTxn(q, mem, ver, pending, abs);
    }
  }

  lemma LockCow(p: Proc, heapLock: Option<Pid>, globLock: Option<Pid>)
    requires MayLock(p, heapLock, globLock) && Tracked(p)
    requires !InTxn(p.phase) || (p.phase.Unlock2? && !(p.phase.ok && p.phase.why == ForIo))
    ensures var q := LockNext(p); !InTxn(q.phase) && !q.phase.Commit? && q.tx.cow == map[]
  {
  }

  lemma IoTx(p: Proc, mem: Mem, ver: Versions, pending: set<nat>, abs: Mem)
    requires p.phase == Unlock2(ForIo, true) && Control(p) && TxOk(p, mem, ver, pending, abs)
    ensures TxOk(LockNext(p), mem, ver, pending, abs)
  {
    var q := LockNext(p);
    forall e: Env, m: Mem ensures RunTask(p.task, e, m) == RunTask(q.task, e, m) {
      MeaningIrrev(p.task, e, m);
    }
    if Clean(q, ver, pending) {
      assert Clean(p, ver, pending);
      TaskReplay(p, q, abs);
    }
    hide RunTask, Replay, Current, Clean;
  }

  // ----- the whole system -----

  ghost predicate Commits(s: Sys, y: Pid) {
    y in s.procs && s.procs[y].phase.Commit?
  }

  /** Only the holder of the globals lock commits. */
  lemma CommitterView(s: Sys, y: Pid)
    requires OrderInv(s) && y in s.procs && s.procs[y].phase.Commit?
    ensures s.globLock == Some(y) && s.heapLock == Some(y)
    ensures Pending(s) == s.procs[y].phase.todo
    ensures Committed(s) == Overlay(s.mem, s.procs[y].tx.cow, s.procs[y].phase.todo)
    ensures forall z | z in s.procs && z != y :: !s.procs[z].phase.Commit? && !s.procs[z].phase.Check?
    ensures forall z | z in s.procs && z != y :: !s.procs[z].phase.Unlock1? && !s.procs[z].phase.Unlock2?
  {
    Facts(s);
    hide OrderInv, Listed, Control;
  }

  lemma NoCommitter(s: Sys)
    requires forall y :: !Commits(s, y)
    ensures Pending(s) == {} && Committed(s) == s.mem
  {
    assert s.globLock.Some? ==> !Commits(s, s.globLock.value);
  }

  /** Steps of a process that is not committing, before or after, do not touch the
      committed store. */
  lemma ViewKept(s: Sys, x: Pid, q: Proc, t: Sys)
    requires OrderInv(s) && OrderInv(t) && x in s.procs
    requires t.procs == s.procs[x := q] && t.mem == s.mem
    requires !s.procs[x].phase.Commit? && !q.phase.Commit?
    ensures Pending(t) == Pending(s) && Committed(t) == Committed(s)
  {
    hide OrderInv, Pending, Committed;
    if y :| Commits(s, y) {
      assert Commits(t, y);
      CommitterView(s, y);
      CommitterView(t, y);
    } else {
      forall y ensures !Commits(t, y) { assert !Commits(s, y); }
      NoCommitter(s);
      NoCommitter(t);
    }
  }

  lemma OneTx(s: Sys, x: Pid, q: Proc, t: Sys)
    requires TxInv(s) && x in s.procs && t.procs == s.procs[x := q]
    requires t.mem == s.mem && t.ver == s.ver && Pending(t) == Pending(s) && Committed(t) == Committed(s)
    requires TxOk(q, s.mem, s.ver, Pending(s), Committed(s))
    ensures TxInv(t)
  {
    hide TxOk, Pending, Committed;
  }

  /** What a private move does to the transaction, by the kind of move. */
  lemma PrivateTx(s: Sys, x: Pid, q: Proc, t: Sys)
    requires OrderInv(s) && TxInv(s) && Disciplined(s) && OrderInv(t)
    requires x in s.procs && Private(s, s.procs[x], q) && t == s.Put(x, q)
    requires !s.procs[x].phase.Commit? && !q.phase.Commit?
    ensures TxInv(t) && Committed(t) == Committed(s)
  {
    var p := s.procs[x];
    assert TxOk(p, s.mem, s.ver, Pending(s), Committed(s));
    assert p.phase == Begin ==> AllProtected(p.tx);
    ViewKept(s, x, q, t);
    CommittedOutside(s);
    PrivateKinds(s, p, q);
    hide OrderInv, TxInv, Disciplined, Private, TxOk, Pending, Committed;
    if UserMove(p, s.mem, s.ver, q) {
      hide UserMove;
      UserTx(p, s.mem, s.ver, q, Pending(s), Committed(s));
    } else if page :| CheckMove(p, s.ver, page, q) {
      CheckTx(p, s.ver, page, q, s.mem, Pending(s), Committed(s));
    } else {
      hide UserMove, CheckMove, WaitMove;
      WaitTx(p, s.unlatched, s.retval, q, s.mem, s.ver, Pending(s), Committed(s));
    }
    OneTx(s, x, q, t);
  }

  lemma CheckTx(p: Proc, ver: Versions, page: nat, q: Proc, mem: Mem, pending: set<nat>, abs: Mem)
    requires CheckMove(p, ver, page, q) && !p.phase.Commit? && !q.phase.Commit?
    requires TxOk(p, mem, ver, pending, abs)
    ensures TxOk(q, mem, ver, pending, abs)
  {
    hide TxOk;
    if p.phase.todo != {} {
      CompareTx(p, ver, page, q, mem, pending, abs);
    } else {
      CheckedIoTx(p, ver, page, q, mem, pending, abs);
    }
  }

  lemma PrivateKinds(s: Sys, p: Proc, q: Proc)
    requires Private(s, p, q)
    ensures UserMove(p, s.mem, s.ver, q) || WaitMove(p, s.unlatched, s.retval, q)
         || exists page :: CheckMove(p, s.ver, page, q)
  {
    hide UserMove, CheckMove, EndMove, JoinMove, BlockMove, WaitOver;
  }

  /** A private move into or inside a commit is an action of validation or commit. */
  lemma CommitKind(s: Sys, p: Proc, q: Proc) returns (page: nat)
    requires Private(s, p, q) && (p.phase.Commit? || q.phase.Commit?)
    ensures CheckMove(p, s.ver, page, q)
    ensures p.phase.Commit? || (p.phase == Check(ForEnd, {}) && q == p.(phase := Commit(p.tx.dirtied, Idle, {})))
  {
    assert !WaitMove(p, s.unlatched, s.retval, q) && !UserMove(p, s.mem, s.ver, q);
    PrivateKinds(s, p, q);
    hide Private, UserMove, WaitMove;
    page :| CheckMove(p, s.ver, page, q);
  }

  lemma OneOk(s: Sys, x: Pid)
    requires TxInv(s) && x in s.procs
    ensures TxOk(s.procs[x], s.mem, s.ver, Pending(s), Committed(s))
    ensures Tracked(s.procs[x]) && VerOk(s.procs[x], s.ver) && WordsCopied(s.procs[x], s.mem)
  {
  }

  lemma PutView(s: Sys, x: Pid, q: Proc, t: Sys)
    requires t == s.Put(x, q)
    ensures t.procs == s.procs[x := q] && t.mem == s.mem && t.ver == s.ver
    ensures t.order == s.order && t.unlatched == s.unlatched && t.retval == s.retval
    ensures t.globLock == s.globLock && t.heapLock == s.heapLock && t.tokens == s.tokens
  {
  }

  /** The commit point: validation has succeeded under both locks. */
  lemma CommitPoint(s: Sys, x: Pid, q: Proc, t: Sys)
    requires OrderInv(s) && TxInv(s) && OrderInv(t)
    requires x in s.procs && Private(s, s.procs[x], q) && t == s.Put(x, q)
    requires !s.procs[x].phase.Commit? && q.phase.Commit?
    ensures TxInv(t) && Committed(s) == s.mem
    ensures q == s.procs[x].(phase := Commit(q.tx.dirtied, Idle, {}))
    ensures Committed(t) == Overlay(s.mem, q.tx.cow, q.tx.dirtied)
    ensures Replay(s.procs[x], s.mem) && Current(s.procs[x], s.mem) && Consistent(s.procs[x].tx, s.ver)
    ensures q.tx.cow.Keys <= q.tx.dirtied
  {
    hide *;
    var p := s.procs[x];
    OneOk(s, x);
    PutView(s, x, q, t);
    var page := CommitKind(s, p, q);
    CommitterView(t, x);
    CheckerView(s, x);
    ValidationSound(p, s.mem, s.ver, s.mem);
    CommitStartTx(p, s.ver, q, s.mem, s.mem, q.tx.dirtied, Committed(t));
    CowDirtied(p);
    CommitOthers(s, x, q, t);
  }

  lemma CowDirtied(p: Proc)
    requires Tracked(p)
    ensures p.tx.cow.Keys <= p.tx.dirtied
  {
  }

  lemma CommitOthers(s: Sys, x: Pid, q: Proc, t: Sys)
    requires TxInv(s) && x in s.procs && t.procs == s.procs[x := q] && t.mem == s.mem && t.ver == s.ver
    requires Pending(s) == {} && Committed(s) == s.mem
    requires Pending(t) == q.tx.dirtied && Committed(t) == Overlay(s.mem, q.tx.cow, q.tx.dirtied)
    requires TxOk(q, s.mem, s.ver, q.tx.dirtied, Committed(t))
    ensures TxInv(t)
  {
    hide TxOk, Overlay, Pending, Committed;
    forall y | y in t.procs ensures TxOk(t.procs[y], t.mem, t.ver, Pending(t), Committed(t)) {
      if y != x { CommitStartOther(s.procs[y], s.mem, s.ver, q.tx.cow, q.tx.dirtied); }
    }
  }

  lemma CheckerView(s: Sys, x: Pid)
    requires OrderInv(s) && x in s.procs && s.procs[x].phase.Check?
    ensures Pending(s) == {} && Committed(s) == s.mem
  {
    Facts(s);
    hide OrderInv, Listed, Control;
  }

  /** Inside a commit, private moves change nothing the others can see. */
  lemma CommitPrivate(s: Sys, x: Pid, q: Proc, t: Sys)
    requires OrderInv(s) && TxInv(s) && OrderInv(t)
    requires x in s.procs && Private(s, s.procs[x], q) && t == s.Put(x, q) && s.procs[x].phase.Commit?
    ensures TxInv(t) && Committed(t) == Committed(s)
  {
    var p := s.procs[x];
    assert TxOk(p, s.mem, s.ver, Pending(s), Committed(s));
    var page := CommitKind(s, p, q);
    assert Commits(s, x);
    CommitterView(s, x);
    CommitLocalTx(p, s.ver, page, q, s.mem, Pending(s), Committed(s));
    if q.phase.Commit? {
      assert Commits(t, x);
      CommitterView(t, x);
      CommitLocalView(p, s.ver, page, q, s.mem);
    } else {
      OverlayNone(s.mem, p.tx.cow, p.phase.todo);
      forall y ensures !Commits(t, y) { }
      NoCommitter(t);
    }
    hide OrderInv, Private, TxOk, Pending, Committed, CheckMove, Commits;
    OneTx(s, x, q, t);
  }

  lemma LockView(s: Sys, x: Pid, t: Sys)
    requires x in s.procs && StepLock(s, x, t)
    ensures t.procs == s.procs[x := LockNext(s.procs[x])] && t.mem == s.mem && t.ver == s.ver
    ensures MayLock(s.procs[x], s.heapLock, s.globLock)
    ensures !s.procs[x].phase.Commit? && !LockNext(s.procs[x]).phase.Commit?
  {
  }

  lemma LockKeepsTx(s: Sys, x: Pid, t: Sys)
    requires OrderInv(s) && TxInv(s) && OrderInv(t) && x in s.procs && StepLock(s, x, t)
    ensures TxInv(t) && Committed(t) == Committed(s)
  {
    var p := s.procs[x];
    assert TxOk(p, s.mem, s.ver, Pending(s), Committed(s)) && Control(p);
    hide *;
    LockView(s, x, t);
    ViewKept(s, x, LockNext(p), t);
    LockTx(p, s.heapLock, s.globLock, s.mem, s.ver, Pending(s), Committed(s));
    OneTx(s, x, LockNext(p), t);
  }

  lemma PublishView(s: Sys, x: Pid, t: Sys)
    requires x in s.procs && StepPublish(s, x, t)
    ensures Publishing(s.procs[x].phase) && s.procs[x].phase.Commit?
    ensures t.procs == s.procs[x := PublishNext(s.procs[x])]
    ensures t.mem == if Copies(s.procs[x].phase) then CopyWord(s.procs[x], s.mem) else s.mem
    ensures t.ver == if Copies(s.procs[x].phase) then s.ver else BumpVersion(s.procs[x], s.ver)
  {
    hide PublishNext, CopyWord, BumpVersion, Copies;
  }

  lemma PublishPhase(p: Proc)
    requires Publishing(p.phase)
    ensures PublishNext(p).phase.Commit? && PublishNext(p).tx == p.tx
    ensures PublishNext(p).phase.todo ==
            if Copies(p.phase) then p.phase.todo else p.phase.todo - {p.phase.copying.page}
  {
  }

  lemma PublishKeepsTx(s: Sys, x: Pid, t: Sys)
    requires OrderInv(s) && TxInv(s) && OrderInv(t) && x in s.procs && StepPublish(s, x, t)
    ensures TxInv(t) && Committed(t) == Committed(s)
  {
    hide *;
    var p := s.procs[x];
    OneOk(s, x);
    PublishView(s, x, t);
    PublishPhase(p);
    PublishTracked(p);
    CommitterView(s, x);
    CommitterView(t, x);
    PublishTx(p, s.mem, s.ver, Pending(s), Committed(s), Pending(t), Committed(t));
    var page := CopyingPage(p);
    if Copies(p.phase) {
      CopyKeepsCommitted(p, s.mem);
      CopyOthers(s, x, t);
    } else {
      BumpKeepsCommitted(p, s.mem);
      BumpedVersion(p, s.ver);
      BumpOthers(s, x, page, t);
    }
  }

  lemma CopyingPage(p: Proc) returns (page: nat)
    requires Publishing(p.phase) && Tracked(p)
    ensures p.phase.copying.Copying? && p.phase.copying.page == page && page in p.phase.todo
  {
    page := p.phase.copying.page;
  }

  lemma BumpedVersion(p: Proc, ver: Versions)
    requires Publishing(p.phase) && Tracked(p) && VerOk(p, ver)
    ensures var page := p.phase.copying.page; BumpVersion(p, ver) == ver[page := ver[page] + 1]
  {
  }

  lemma CopyOthers(s: Sys, x: Pid, t: Sys)
    requires TxInv(s) && x in s.procs && x in t.procs && t.procs == s.procs[x := t.procs[x]]
    requires Committed(t) == Committed(s) && Pending(t) == Pending(s) && t.ver == s.ver
    requires TxOk(t.procs[x], t.mem, t.ver, Pending(t), Committed(t))
    requires SameOutside(t.mem, s.mem, Pending(s))
    requires forall z | z in s.procs && z != x :: !s.procs[z].phase.Commit?
    ensures TxInv(t)
  {
    hide TxOk, Committed, Pending, SameOutside;
    forall y | y in t.procs ensures TxOk(t.procs[y], t.mem, t.ver, Pending(t), Committed(t)) {
      if y != x { CopyOther(s.procs[y], s.mem, t.mem, s.ver, Pending(s), Committed(s)); }
    }
  }

  lemma BumpOthers(s: Sys, x: Pid, page: nat, t: Sys)
    requires TxInv(s) && x in s.procs && x in t.procs && t.procs == s.procs[x := t.procs[x]]
    requires Committed(t) == Committed(s) && t.mem == s.mem && t.ver == s.ver[page := s.ver[page] + 1]
    requires page in Pending(s) && Pending(t) == Pending(s) - {page}
    requires TxOk(t.procs[x], t.mem, t.ver, Pending(t), Committed(t))
    requires forall z | z in s.procs && z != x :: !s.procs[z].phase.Commit? && !s.procs[z].phase.Check?
    ensures TxInv(t)
  {
    hide TxOk, Committed, Pending;
    forall y | y in t.procs ensures TxOk(t.procs[y], t.mem, t.ver, Pending(t), Committed(t)) {
      if y != x { BumpOther(s.procs[y], s.mem, s.ver, Pending(s), page, Committed(s)); }
    }
  }

  /** The steps at the ends of threads keep the transaction state as it is or have none. */
  ghost predicate EndStep(s: Sys, x: Pid, q: Proc, t: Sys)
    requires x in s.procs
  {
    || (StepFinish(s, x, t) && q == s.procs[x].(phase := ExitWait))
    || (StepExit(s, x, t) && q == s.procs[x].(phase := Posting(2)))
    || (StepPost(s, x, t) && s.procs[x].phase.left > 0 && q == s.procs[x].(phase := Posting(s.procs[x].phase.left - 1)))
    || StepWake(s, x, q, t)
  }

  lemma EndView(s: Sys, x: Pid, q: Proc, t: Sys)
    requires x in s.procs && EndStep(s, x, q, t)
    ensures t.procs == s.procs[x := q] && t.mem == s.mem && t.ver == s.ver
  {
    hide WaitOver;
  }

  lemma EndKind(s: Sys, x: Pid, q: Proc, t: Sys)
    requires x in s.procs && EndStep(s, x, q, t)
    ensures !s.procs[x].phase.Commit? && !q.phase.Commit?
    ensures q.tx == s.procs[x].tx && !q.phase.Check? && !q.phase.TrapRead? && !s.procs[x].phase.TrapRead?
    ensures InTxn(q.phase) ==> InTxn(s.procs[x].phase) && q.task == s.procs[x].task && q.saved == s.procs[x].saved
    ensures !InTxn(q.phase) ==> !InTxn(s.procs[x].phase)
  {
    if StepWake(s, x, q, t) {
      OverKind(s.procs[x], s.retval, q);
      hide WaitOver;
    }
  }

  /** The end of a wait stays in the transaction, or stays outside. */
  lemma OverKind(p: Proc, retval: map<Pid, Val>, q: Proc)
    requires WaitOver(p, retval, q)
    ensures !p.phase.Commit? && !q.phase.Commit? && !q.phase.Check? && !q.phase.TrapRead? && !p.phase.TrapRead?
    ensures !q.phase.Unlock1? && !q.phase.Unlock2? && q.tx == p.tx
    ensures InTxn(q.phase) ==> p.phase.Wait? && q.phase.Lock1? && q == p.(phase := q.phase, blocked := None)
    ensures !InTxn(q.phase) ==> !InTxn(p.phase)
    ensures q.rollbacks == 0 || q.rollbacks == p.rollbacks
  {
  }

  lemma EndKeepsTx(s: Sys, x: Pid, q: Proc, t: Sys)
    requires OrderInv(s) && TxInv(s) && OrderInv(t) && x in s.procs && EndStep(s, x, q, t)
    ensures TxInv(t) && Committed(t) == Committed(s)
  {
    hide *;
    var p := s.procs[x];
    OneOk(s, x);
    EndView(s, x, q, t);
    EndKind(s, x, q, t);
    ViewKept(s, x, q, t);
    if InTxn(q.phase) {
      SamePlace(p, q, s.mem, s.ver, Pending(s), Committed(s));
    } else {
      QuietCow(p);
      NoTxn(q, s.mem, s.ver, Pending(s), Committed(s));
    }
    OneTx(s, x, q, t);
  }

  lemma ForkKeepsTx(s: Sys, x: Pid, y: Pid, t: Sys)
    requires OrderInv(s) && TxInv(s) && OrderInv(t) && x in s.procs && StepFork(s, x, y, t)
    ensures TxInv(t) && Committed(t) == Committed(s)
  {
    hide *;
    OneOk(s, x);
    ForkTx(s, x, y, t);
    ForkView(s, x, y, t);
    BeginTxOk(t.procs[x], t.mem, t.ver, Pending(t), Committed(t));
    BeginTxOk(t.procs[y], t.mem, t.ver, Pending(t), Committed(t));
    TwoTx(s, x, y, t);
  }

  lemma BeginTxOk(q: Proc, mem: Mem, ver: Versions, pending: set<nat>, abs: Mem)
    requires q.phase == Begin && q.tx.cow == map[]
    ensures TxOk(q, mem, ver, pending, abs)
  {
    NoTxn(q, mem, ver, pending, abs);
  }

  lemma TwoTx(s: Sys, x: Pid, y: Pid, t: Sys)
    requires TxInv(s) && x in t.procs && y in t.procs
    requires t.procs == s.procs[x := t.procs[x]][y := t.procs[y]]
    requires t.mem == s.mem && t.ver == s.ver && Pending(t) == Pending(s) && Committed(t) == Committed(s)
    requires TxOk(t.procs[x], t.mem, t.ver, Pending(t), Committed(t))
    requires TxOk(t.procs[y], t.mem, t.ver, Pending(t), Committed(t))
    ensures TxInv(t)
  {
    hide TxOk, Pending, Committed;
  }

  lemma ForkTx(s: Sys, x: Pid, y: Pid, t: Sys)
    requires x in s.procs && StepFork(s, x, y, t) && Tracked(s.procs[x])
    ensures x in t.procs && y in t.procs && t.mem == s.mem && t.ver == s.ver && y !in s.procs
    ensures t.procs[x].phase == Begin && t.procs[x].tx.cow == map[]
    ensures t.procs[y].phase == Begin && t.procs[y].tx.cow == map[]
    ensures t.procs == s.procs[x := t.procs[x]][y := t.procs[y]]
    ensures !s.procs[x].phase.Commit?
  {
  }

  lemma ForkPhase(s: Sys, x: Pid, y: Pid, t: Sys)
    requires x in s.procs && StepFork(s, x, y, t)
    ensures s.procs[x].phase == Ended && t.unlatched == s.unlatched && t.retval == s.retval
  {
  }

  lemma ForkView(s: Sys, x: Pid, y: Pid, t: Sys)
    requires OrderInv(s) && OrderInv(t) && x in s.procs && y !in s.procs && x in t.procs && y in t.procs
    requires t.procs == s.procs[x := t.procs[x]][y := t.procs[y]] && t.mem == s.mem
    requires t.procs[x].phase == Begin && t.procs[y].phase == Begin && !s.procs[x].phase.Commit?
    ensures Pending(t) == Pending(s) && Committed(t) == Committed(s)
  {
    hide OrderInv, Pending, Committed;
    if z :| Commits(s, z) {
      assert Commits(t, z);
      CommitterView(s, z);
      CommitterView(t, z);
    } else {
      forall z ensures !Commits(t, z) { assert !Commits(s, z); }
      NoCommitter(s);
      NoCommitter(t);
    }
  }

  /** The only step that changes the committed store. */
  ghost predicate IsCommitPoint(s: Sys, x: Pid, t: Sys) {
    x in s.procs && x in t.procs && !s.procs[x].phase.Commit? && t.procs[x].phase.Commit?
  }

  lemma PrivateKeepsTx(s: Sys, x: Pid, q: Proc, t: Sys)
    requires OrderInv(s) && TxInv(s) && Disciplined(s) && OrderInv(t)
    requires x in s.procs && Private(s, s.procs[x], q) && t == s.Put(x, q)
    ensures TxInv(t)
    ensures s.procs[x].phase.Commit? || !q.phase.Commit? ==> Committed(t) == Committed(s)
  {
    hide *;
    if s.procs[x].phase.Commit? {
      CommitPrivate(s, x, q, t);
    } else if q.phase.Commit? {
      CommitPoint(s, x, q, t);
    } else {
      PrivateTx(s, x, q, t);
    }
  }

  /** The kinds of steps, with the next state of the process. */
  lemma StepKinds(s: Sys, x: Pid, t: Sys) returns (q: Proc, y: Pid)
    requires x in s.procs && Step(s, x, t)
    ensures || (Private(s, s.procs[x], q) && t == s.Put(x, q))
            || StepLock(s, x, t) || StepPublish(s, x, t) || StepFork(s, x, y, t) || EndStep(s, x, q, t)
    ensures Private(s, s.procs[x], q) && t == s.Put(x, q) ==> x in t.procs && t.procs[x] == q
  {
    y := 0;
    q := s.procs[x];
    hide Private, StepLock, StepPublish, StepFork, StepWake;
    if r :| Private(s, s.procs[x], r) && t == s.Put(x, r) {
      q := r;
    } else if z :| StepFork(s, x, z, t) {
      y := z;
    } else if StepFinish(s, x, t) {
      q := s.procs[x].(phase := ExitWait);
    } else if StepExit(s, x, t) {
      q := s.procs[x].(phase := Posting(2));
    } else if StepPost(s, x, t) {
      q := s.procs[x].(phase := Posting(s.procs[x].phase.left - 1));
    } else if r :| StepWake(s, x, r, t) {
      q := r;
    }
  }

  lemma StepKeepsTx(s: Sys, x: Pid, t: Sys)
    requires OrderInv(s) && TxInv(s) && Disciplined(s) && x in s.procs && Step(s, x, t)
    ensures OrderInv(t) && TxInv(t)
    ensures Committed(t) == Committed(s) || IsCommitPoint(s, x, t)
  {
    hide *;
    StepKeepsOrder(s, x, t);
    var q, y := StepKinds(s, x, t);
    if Private(s, s.procs[x], q) && t == s.Put(x, q) {
      PrivateKeepsTx(s, x, q, t);
      PointIntro(s, x, q, t);
    } else if StepLock(s, x, t) {
      LockKeepsTx(s, x, t);
    } else if StepPublish(s, x, t) {
      PublishKeepsTx(s, x, t);
    } else if StepFork(s, x, y, t) {
      ForkKeepsTx(s, x, y, t);
    } else {
      EndKeepsTx(s, x, q, t);
    }
  }

  lemma PointIntro(s: Sys, x: Pid, q: Proc, t: Sys)
    requires x in s.procs && t == s.Put(x, q)
    ensures !s.procs[x].phase.Commit? && q.phase.Commit? ==> IsCommitPoint(s, x, t)
  {
  }

  lemma InitTx(s: Sys, main: Prog, m0: Mem)
    requires Init(s, main, m0)
    ensures TxInv(s) && Committed(s) == m0
  {
    NoTxn(s.procs[ROOT], s.mem, s.ver, Pending(s), Committed(s));
    hide TxOk;
  }
}
