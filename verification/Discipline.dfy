/** When does a transaction begin with every page protected?  Exactly when the last
    committed transaction of the process wrote every page it read: commit() protects the
    dirtied pages again and leaves the pages that were only read accessible. */
module Discipline {
  import opened Programs
  import opened Transactions
  import opened Protocol
  import opened OrderProof
  import opened TxnProof
  import opened SerialProof
  import opened Protection

  /** What is left readable, where transactions have begun with every page protected: nothing
      during a transaction, and then what it read without writing. */
  ghost predicate Owes(p: Proc, left: iset<nat>) {
    if InTxn(p.phase) || Decided(p.phase) || (p.phase == Begin && p.rollbacks > 0) then left == iset{}
    else forall page: nat :: page in left <==> page in p.tx.read && page !in p.tx.dirtied
  }

  /** How a step of a process passes from transaction to transaction. */
  ghost predicate Passes(p: Proc, q: Proc) {
    || (InTxn(q.phase) && (InTxn(p.phase) || p.phase == Begin))
    || (Decided(q.phase) && (InTxn(p.phase) || Decided(p.phase)))
    || (p.phase == Run && q.phase == Ended && Nop(q.tx))
    || (p.phase.Unlock2? && q.phase == Begin && q.rollbacks > 0)
    || (p.phase.Unlock2? && q.phase == Ended && Decided(p.phase) && q.tx == p.tx)
    || (Outside(p) && Outside(q) && p.phase != Begin && q.tx == p.tx && (q.phase == Begin ==> q.rollbacks == 0))
  }

  ghost predicate Outside(p: Proc) {
    !InTxn(p.phase) && !Decided(p.phase)
  }

  lemma PassesOwes(p: Proc, q: Proc, left: iset<nat>)
    requires Passes(p, q) && Owes(p, left) && (p.phase == Begin ==> left == iset{})
    ensures Owes(q, LeftAfter(left, p, q))
  {
  }

  lemma CheckPasses(p: Proc, ver: Versions, page: nat, q: Proc)
    requires CheckMove(p, ver, page, q)
    ensures Passes(p, q)
  {
  }

  lemma WaitPasses(p: Proc, unlatched: set<Pid>, retval: map<Pid, Val>, q: Proc)
    requires WaitMove(p, unlatched, retval, q)
    ensures Passes(p, q) || q == p.(blocked := q.blocked)
  {
  }

  lemma BlockedOwes(p: Proc, q: Proc, left: iset<nat>)
    requires q == p.(blocked := q.blocked) && Owes(p, left)
    ensures Owes(q, LeftAfter(left, p, q))
  {
  }

  lemma PrivatePasses(s: Sys, p: Proc, q: Proc)
    requires Private(s, p, q)
    ensures Passes(p, q) || q == p.(blocked := q.blocked)
  {
    hide *;
    PrivateKinds(s, p, q);
    if UserMove(p, s.mem, s.ver, q) {
      UserPasses(p, s.mem, s.ver, q);
    } else if page :| CheckMove(p, s.ver, page, q) {
      CheckPasses(p, s.ver, page, q);
    } else {
      WaitPasses(p, s.unlatched, s.retval, q);
    }
  }

  lemma UserPasses(p: Proc, mem: Mem, ver: Versions, q: Proc)
    requires UserMove(p, mem, ver, q)
    ensures Passes(p, q)
  {
    UserPhase(p, mem, ver, q);
    hide UserMove;
  }

  lemma LockPasses(p: Proc, heapLock: Option<Pid>, globLock: Option<Pid>)
    requires MayLock(p, heapLock, globLock)
    ensures Passes(p, LockNext(p))
  {
  }

  lemma PublishPasses(p: Proc)
    requires Publishing(p.phase)
    ensures Passes(p, PublishNext(p))
  {
    PublishPhase(p);
    hide PublishNext;
  }

  lemma EndPasses(s: Sys, x: Pid, q: Proc, t: Sys)
    requires x in s.procs && EndStep(s, x, q, t)
    ensures Passes(s.procs[x], q)
  {
    EndQuiet(s, x, q, t);
    hide EndStep;
  }

  lemma ForkPasses(s: Sys, x: Pid, y: Pid, t: Sys)
    requires x in s.procs && StepFork(s, x, y, t)
    ensures x in t.procs && y in t.procs && Passes(s.procs[x], t.procs[x])
    ensures forall left | Owes(s.procs[x], left) :: Owes(t.procs[y], left)
  {
  }

  lemma StepPasses(s: Sys, x: Pid, t: Sys) returns (y: Pid)
    requires x in s.procs && Step(s, x, t)
    ensures Protection.Moved(s, x, y, t)
    ensures forall left | Owes(s.procs[x], left) && (s.procs[x].phase == Begin ==> left == iset{}) ::
              && Owes(t.procs[x], LeftAfter(left, s.procs[x], t.procs[x]))
              && (y !in s.procs && y in t.procs ==> Owes(t.procs[y], left))
  {
    hide *;
    var q;
    q, y := MoverPasses(s, x, t);
    if StepFork(s, x, y, t) {
      ForkMoves(s, x, y, t);
      ForkPasses(s, x, y, t);
    } else {
      y := x;
    }
    forall left | Owes(s.procs[x], left) && (s.procs[x].phase == Begin ==> left == iset{})
      ensures Owes(t.procs[x], LeftAfter(left, s.procs[x], t.procs[x]))
    {
      if Passes(s.procs[x], t.procs[x]) {
        PassesOwes(s.procs[x], t.procs[x], left);
      } else {
        BlockedOwes(s.procs[x], t.procs[x], left);
      }
    }
  }

  lemma MoverPasses(s: Sys, x: Pid, t: Sys) returns (q: Proc, y: Pid)
    requires x in s.procs && Step(s, x, t)
    ensures StepFork(s, x, y, t)
         || (Protection.Moved(s, x, x, t) && x in t.procs && t.procs[x] == q
             && (Passes(s.procs[x], q) || q == s.procs[x].(blocked := q.blocked)))
  {
    hide *;
    q, y := StepKinds(s, x, t);
    if Private(s, s.procs[x], q) && t == s.Put(x, q) {
      PutView(s, x, q, t);
      PrivatePasses(s, s.procs[x], q);
    } else if StepLock(s, x, t) {
      LockView(s, x, t);
      q := LockNext(s.procs[x]);
      LockPasses(s.procs[x], s.heapLock, s.globLock);
    } else if StepPublish(s, x, t) {
      PublishView(s, x, t);
      q := PublishNext(s.procs[x]);
      PublishPasses(s.procs[x]);
    } else if StepFork(s, x, y, t) {
      return;
    } else {
      EndView(s, x, q, t);
      EndPasses(s, x, q, t);
    }
    OneMoves(s, x, q, t);
  }

  ghost predicate OwesInv(run: seq<Sys>, k: nat)
    requires k < |run|
  {
    forall x | x in run[k].procs :: Owes(run[k].procs[x], Left(run, k, x))
  }

  lemma OwesOf(run: seq<Sys>, k: nat, x: Pid)
    requires k < |run| && OwesInv(run, k) && x in run[k].procs
    ensures Owes(run[k].procs[x], Left(run, k, x))
  {
  }

  lemma OwesIntro(run: seq<Sys>, k: nat)
    requires k < |run| && forall x | x in run[k].procs :: Owes(run[k].procs[x], Left(run, k, x))
    ensures OwesInv(run, k)
  {
  }

  lemma BeginsClear(run: seq<Sys>, main: Prog, m0: Mem, k: nat, x: Pid)
    requires IsRun(run, main, m0) && k < |run| && Disciplined(run[k]) && x in run[k].procs
    ensures run[k].procs[x].phase == Begin ==> Left(run, k, x) == iset{}
  {
    ProtectedWhenNothingLeft(run, main, m0, k);
    hide Disciplined, Left;
  }

  lemma StepKeepsOwes(run: seq<Sys>, main: Prog, m0: Mem, k: nat)
    requires IsRun(run, main, m0) && k + 1 < |run| && OwesInv(run, k) && Disciplined(run[k])
    ensures OwesInv(run, k + 1)
  {
    hide *;
    RunOrder(run, main, m0, k);
    var x := Mover(run, main, m0, k);
    var y := StepPasses(run[k], x, run[k + 1]);
    OwesOf(run, k, x);
    BeginsClear(run, main, m0, k, x);
    var t := run[k + 1];
    forall z | z in t.procs ensures Owes(t.procs[z], Left(run, k + 1, z)) {
      MovedParts(run[k], x, y, t, z);
      if z in run[k].procs {
        OwesOf(run, k, z);
        LeftOld(run, k, z);
        SamePhase(Left(run, k, z), run[k].procs[z]);
      } else {
        ForkedAlone(run[k], x, y, run[k + 1]);
        LeftNew(run, k, x, y);
      }
    }
    OwesIntro(run, k + 1);
  }

  lemma InitExact(s: Sys, main: Prog, m0: Mem)
    requires Init(s, main, m0)
    ensures Disciplined(s)
  {
  }

  lemma InitOwes(run: seq<Sys>, main: Prog, m0: Mem)
    requires |run| > 0 && Init(run[0], main, m0)
    ensures OwesInv(run, 0)
  {
  }

  lemma {:induction false} RunOwes(run: seq<Sys>, main: Prog, m0: Mem, k: nat)
    requires IsRun(run, main, m0) && k < |run| && forall i | 0 <= i < k :: Disciplined(run[i])
    ensures OwesInv(run, k)
  {
    hide *;
    if k == 0 {
      Start(run, main, m0);
      InitOwes(run, main, m0);
    } else {
      RunOwes(run, main, m0, k - 1);
      StepKeepsOwes(run, main, m0, k - 1);
    }
  }

  /** The last transaction of the process rolled back, or it wrote every page it read. */
  ghost predicate WroteWhatItRead(p: Proc) {
    p.rollbacks > 0 || p.tx.read <= p.tx.dirtied
  }

  /** Where every earlier transaction began with all pages protected, the ones about to
      begin now do so if and only if their processes wrote every page that the previous
      transaction read, or are starting over after a rollback. */
  lemma DisciplineExact(run: seq<Sys>, main: Prog, m0: Mem, k: nat)
    requires IsRun(run, main, m0) && k < |run| && forall i | 0 <= i < k :: Disciplined(run[i])
    ensures Disciplined(run[k]) <==>
            forall x | x in run[k].procs && run[k].procs[x].phase == Begin :: WroteWhatItRead(run[k].procs[x])
  {
    hide *;
    RunOwes(run, main, m0, k);
    ProtectedWhenNothingLeft(run, main, m0, k);
    var s := run[k];
    forall x | x in s.procs && s.procs[x].phase == Begin
      ensures Left(run, k, x) == iset{} <==> WroteWhatItRead(s.procs[x])
    {
      OwesOf(run, k, x);
      OwesExact(s.procs[x], Left(run, k, x));
    }
  }

  lemma OwesExact(p: Proc, left: iset<nat>)
    requires p.phase == Begin && Owes(p, left)
    ensures left == iset{} <==> WroteWhatItRead(p)
  {
    if p.rollbacks == 0 && left == iset{} {
      forall page | page in p.tx.read ensures page in p.tx.dirtied { assert page !in left; }
    }
  }

  /** The transactions of a run write every page they read before their process begins
      another one. */
  ghost predicate WritesWhatItReads(run: seq<Sys>, n: nat)
    requires n <= |run|
  {
    forall i, x | 0 <= i < n && x in run[i].procs && run[i].procs[x].phase == Begin ::
      WroteWhatItRead(run[i].procs[x])
  }

  lemma {:induction false} Disciplines(run: seq<Sys>, main: Prog, m0: Mem, n: nat)
    requires IsRun(run, main, m0) && n <= |run| && WritesWhatItReads(run, n)
    ensures forall i | 0 <= i < n :: Disciplined(run[i])
  {
    if n > 0 {
      Disciplines(run, main, m0, n - 1);
      DisciplineExact(run, main, m0, n - 1);
      hide Disciplined, IsRun;
    }
  }

  /** Serial equivalence of the runs whose transactions write every page they read. */
  lemma SerialEquivalenceIfWritten(run: seq<Sys>, main: Prog, m0: Mem)
    requires IsRun(run, main, m0) && WritesWhatItReads(run, |run| - 1)
    requires Complete(run[|run| - 1])
    ensures ROOT in run[|run| - 1].retval
    ensures (run[|run| - 1].mem, run[|run| - 1].retval[ROOT]) == Eval(main, [], m0)
  {
    Disciplines(run, main, m0, |run| - 1);
    SerialEquivalence(run, main, m0);
  }

  // ----- programs that write what they read -----

  /** On every path of the program, each page that is read has been written before the next
      point at which the runtime may end a transaction: a spawn, a sync, or the end of the
      thread.  `owed` are the pages read so far without having been written, `wrote` pages
      written so far. */
  ghost predicate Pays(g: Prog, owed: set<nat>, wrote: set<nat>)
    decreases g
  {
    match g
    case Ret(_) => owed == {}
    case Read(page, _, cont) =>
      var more := if page in wrote then owed else owed + {page};
      (forall v: Val | v in cont :: Pays(cont[v], more, wrote)) && ((exists v: Val :: v !in cont) ==> more == {})
    case Write(page, _, _, rest) => Pays(rest, owed - {page}, wrote + {page})
    case Spawn(child, rest) => owed == {} && Pays(child, {}, {}) && Pays(rest, {}, {})
    case Sync(_, cont) => owed == {} && forall v: Val | v in cont :: Pays(cont[v], {}, {})
    case Irrev(rest) => Pays(rest, owed, wrote)
  }

  lemma {:induction false} PaysMore(g: Prog, owed: set<nat>, wrote: set<nat>, owed': set<nat>, wrote': set<nat>)
    requires Pays(g, owed, wrote) && owed' <= owed && wrote <= wrote'
    ensures Pays(g, owed', wrote')
    decreases g
  {
    match g
    case Read(page, _, cont) =>
      var more, more' := if page in wrote then owed else owed + {page}, if page in wrote' then owed' else owed' + {page};
      forall v: Val | v in cont ensures Pays(cont[v], more', wrote') { PaysMore(cont[v], more, wrote, more', wrote'); }
    case Write(page, _, _, rest) => PaysMore(rest, owed - {page}, wrote + {page}, owed' - {page}, wrote' + {page});
    case Irrev(rest) => PaysMore(rest, owed, wrote, owed', wrote');
    case _ =>
  }

  ghost predicate TaskPays(t: Task, owed: set<nat>, wrote: set<nat>) {
    Pays(t.code, owed, wrote) && forall i | 0 <= i < |t.stack| :: Pays(t.stack[i].rest, {}, {})
  }

  lemma TaskPaysMore(t: Task, owed: set<nat>, wrote: set<nat>, owed': set<nat>, wrote': set<nat>)
    requires TaskPays(t, owed, wrote) && owed' <= owed && wrote <= wrote'
    ensures TaskPays(t, owed', wrote')
  {
    PaysMore(t.code, owed, wrote, owed', wrote');
  }

  /** Where a transaction may end nothing is owed, and what was written no longer counts. */
  lemma EndPays(t: Task, owed: set<nat>, wrote: set<nat>)
    requires TaskPays(t, owed, wrote) && (t.code.Spawn? || t.code.Sync? || t.code.Ret?)
    ensures owed == {} && TaskPays(t, {}, {})
  {
  }

  ghost function Owed(tx: Tx): set<nat> {
    tx.read - tx.dirtied
  }

  /** The transaction is on its way to its end. */
  ghost predicate Ending(ph: Phase) {
    match ph
    case Wait(why) => why == ForEnd
    case Lock1(why) => why == ForEnd
    case Lock2(why) => why == ForEnd
    case Check(why, _) => why == ForEnd
    case Unlock1(why, _) => why == ForEnd
    case Unlock2(why, _) => why == ForEnd
    case _ => false
  }

  /** What is left of the program pays for what the current transaction has read, and so does
      what is run again after a rollback. */
  ghost predicate Settles(p: Proc) {
    if InTxn(p.phase) then
      TaskPays(p.task, Owed(p.tx), p.tx.dirtied) && TaskPays(p.saved, {}, {}) && (Ending(p.phase) ==> AtEnd(p.task))
    else
      TaskPays(p.task, {}, {}) && (if p.phase == Begin then WroteWhatItRead(p) else p.tx.read <= p.tx.dirtied)
  }

  lemma AtEndPays(p: Proc)
    requires InTxn(p.phase) && Settles(p) && AtEnd(p.task)
    ensures p.tx.read <= p.tx.dirtied && TaskPays(p.task, {}, {})
  {
    EndPays(p.task, Owed(p.tx), p.tx.dirtied);
    assert p.tx.read <= p.tx.dirtied + Owed(p.tx);
    hide TaskPays;
  }

  lemma TrapSettles(p: Proc, page: nat, q: Proc)
    requires p.phase == Run && Trap(p, page, q) && Settles(p)
    ensures Settles(q)
  {
    if page !in p.tx.pages {
      assert Owed(q.tx) == Owed(p.tx);
    } else {
      TaskPaysMore(p.task, Owed(p.tx), p.tx.dirtied, Owed(q.tx), q.tx.dirtied);
    }
    hide TaskPays;
  }

  /** Recording the read that an instruction is about to make. */
  lemma RecordSettles(p: Proc, page: nat, version: int, q: Proc)
    requires p.phase == TrapRead(page) && Settles(p) && Touches(p.task.code, page)
    requires q == p.(phase := Run, tx := RecordRead(p.tx, page, version))
    ensures Settles(q)
  {
    var owed, more := Owed(p.tx), Owed(q.tx);
    assert more == if page in p.tx.dirtied then owed else owed + {page};
    TouchPays(p.task.code, page, owed, more, p.tx.dirtied);
    hide Pays;
  }

  lemma TouchPays(g: Prog, page: nat, owed: set<nat>, more: set<nat>, wrote: set<nat>)
    requires Touches(g, page) && Pays(g, owed, wrote) && more == (if page in wrote then owed else owed + {page})
    ensures Pays(g, more, wrote)
  {
    if g.Read? {
      assert more == if page in wrote then more else more + {page};
    } else {
      assert more - {page} == owed - {page};
    }
  }

  /** A read of a page that has been recorded. */
  lemma ReadPays(g: Prog, owed: set<nat>, wrote: set<nat>, v: Val)
    requires g.Read? && Pays(g, owed, wrote) && (g.page in wrote || g.page in owed)
    ensures Pays(Resume(g.cont, v), owed, wrote)
  {
    assert owed == if g.page in wrote then owed else owed + {g.page};
  }

  lemma WritePays(g: Prog, owed: set<nat>, wrote: set<nat>)
    requires g.Write? && Pays(g, owed, wrote) && g.page in wrote && g.page !in owed
    ensures Pays(g.rest, owed, wrote)
  {
    assert owed - {g.page} == owed && wrote + {g.page} == wrote;
  }

  lemma ReadSettles(p: Proc, mem: Mem, q: Proc, v: Val)
    requires p.phase == Run && Settles(p) && Tracked(p) && p.task.code.Read? && Allowed(p.task.code, p.tx)
    requires q == p.(task := p.task.(code := Resume(p.task.code.cont, v)), tx := Observe(p.tx, mem, p.task.code.page, p.task.code.off))
    ensures Settles(q)
  {
    assert p.task.code.page in p.tx.read;
    ReadPays(p.task.code, Owed(p.tx), p.tx.dirtied, v);
    hide Pays, Tracked;
  }

  lemma WriteSettles(p: Proc, mem: Mem, q: Proc)
    requires p.phase == Run && Settles(p) && Tracked(p) && p.task.code.Write? && Allowed(p.task.code, p.tx)
    requires q == p.(task := p.task.(code := p.task.code.rest),
                     tx := WriteWord(p.tx, mem, p.task.code.page, p.task.code.off, p.task.code.v))
    ensures Settles(q)
  {
    WritePays(p.task.code, Owed(p.tx), p.tx.dirtied);
    hide Pays, Tracked;
  }

  lemma CallSettles(p: Proc, q: Proc)
    requires p.phase == Run && Settles(p) && p.task.code.Spawn? && q == p.(task := Callee(p.task))
    ensures Settles(q)
  {
    EndPays(p.task, Owed(p.tx), p.tx.dirtied);
    assert TaskPays(q.task, {}, {});
    TaskPaysMore(q.task, {}, {}, Owed(p.tx), p.tx.dirtied);
  }

  lemma ReturnSettles(p: Proc, q: Proc)
    requires p.phase == Run && Settles(p) && p.task.code.Ret? && p.task.stack != []
    requires q == p.(task := Return(p.task.stack[0], p.task.stack[1..], p.task.code.v))
    ensures Settles(q)
  {
    EndPays(p.task, Owed(p.tx), p.tx.dirtied);
    assert TaskPays(q.task, {}, {});
    TaskPaysMore(q.task, {}, {}, Owed(p.tx), p.tx.dirtied);
  }

  lemma SyncPays(t: Task, owed: set<nat>, wrote: set<nat>, v: Val)
    requires TaskPays(t, owed, wrote) && t.code.Sync?
    ensures owed == {} && TaskPays(t.(code := Resume(t.code.cont, v)), {}, {})
  {
  }

  lemma SyncSettles(p: Proc, q: Proc, v: Val)
    requires p.phase == Run && Settles(p) && p.task.code.Sync?
    requires q == p.(task := p.task.(code := Resume(p.task.code.cont, v)))
    ensures Settles(q)
  {
    SyncPays(p.task, Owed(p.tx), p.tx.dirtied, v);
    TaskPaysMore(q.task, {}, {}, Owed(p.tx), p.tx.dirtied);
    hide TaskPays;
  }

  lemma RunSettles(p: Proc, mem: Mem, ver: Versions, q: Proc)
    requires UserMove(p, mem, ver, q) && p.phase == Run && Settles(p) && Tracked(p)
    ensures Settles(q)
  {
    hide Settles, Tracked, Trap, Callee, Return, Resume, View;
    match p.task.code
    case Read(page, off, cont) =>
      if Allowed(p.task.code, p.tx) { ReadSettles(p, mem, q, View(p.tx, mem, page)[off]); } else { TrapSettles(p, page, q); }
    case Write(page, off, v, rest) =>
      if Allowed(p.task.code, p.tx) { WriteSettles(p, mem, q); } else { TrapSettles(p, page, q); }
    case Spawn(_, _) => CallSettles(p, q);
    case Ret(_) => ReturnSettles(p, q);
    case Sync(i, cont) => SyncSettles(p, q, if i < |p.task.kids| then p.task.kids[i].v else 0);
    case Irrev(_) => IrrevSettles(p, q);
  }

  lemma IrrevSettles(p: Proc, q: Proc)
    requires p.phase == Run && Settles(p) && q == p.(phase := Wait(ForIo))
    ensures Settles(q)
  {
    hide TaskPays;
  }

  lemma BeginSettles(p: Proc, q: Proc)
    requires p.phase == Begin && Settles(p) && q == p.(phase := Run, saved := p.task, tx := BeginTx(p.tx))
    ensures Settles(q)
  {
    assert Owed(q.tx) == {};
    hide TaskPays;
  }

  /** The handler is at work on the page of the current instruction. */
  ghost predicate Trapping(p: Proc) {
    p.phase.TrapRead? ==> Touches(p.task.code, p.phase.page)
  }

  lemma UserSettles(p: Proc, mem: Mem, ver: Versions, q: Proc)
    requires UserMove(p, mem, ver, q) && Settles(p) && Tracked(p) && Trapping(p)
    ensures Settles(q) && Trapping(q)
  {
    UserTraps(p, mem, ver, q);
    if p.phase == Run {
      RunSettles(p, mem, ver, q);
    } else if p.phase == Begin {
      BeginSettles(p, q);
    } else {
      RecordSettles(p, p.phase.page, ver[p.phase.page], q);
    }
    hide Settles, Tracked;
  }

  lemma UserTraps(p: Proc, mem: Mem, ver: Versions, q: Proc)
    requires UserMove(p, mem, ver, q)
    ensures Trapping(q)
  {
  }

  lemma CheckSettles(p: Proc, ver: Versions, page: nat, q: Proc)
    requires CheckMove(p, ver, page, q) && Settles(p)
    ensures Settles(q) && Trapping(q)
  {
    if p.phase.Check? && q.phase.Commit? { AtEndPays(p); }
    hide TaskPays;
  }

  lemma EndSettles(p: Proc, q: Proc)
    requires EndMove(p, q) && Settles(p)
    ensures Settles(q) && Trapping(q)
  {
    AtEndPays(p);
    hide TaskPays;
  }

  lemma WaitSettles(p: Proc, unlatched: set<Pid>, retval: map<Pid, Val>, q: Proc)
    requires Settles(p) && Trapping(p)
    requires WaitOver(p, retval, q) || JoinMove(p, q) || BlockMove(p, unlatched, q)
    ensures Settles(q) && Trapping(q)
  {
    if p.phase == Join && WaitOver(p, retval, q) {
      var c := p.task.kids[p.task.code.kid].pid;
      SyncPays(p.task, {}, {}, if c in retval then retval[c] else 0);
    }
    hide TaskPays, Resume;
  }

  lemma PrivateSettles(s: Sys, x: Pid, q: Proc)
    requires x in s.procs && Private(s, s.procs[x], q) && Settles(s.procs[x]) && Trapping(s.procs[x]) && Tracked(s.procs[x])
    ensures Settles(q) && Trapping(q)
  {
    var p := s.procs[x];
    hide Settles, Trapping, Tracked, UserMove, EndMove, JoinMove, BlockMove, WaitOver, CheckMove, Target;
    if UserMove(p, s.mem, s.ver, q) {
      UserSettles(p, s.mem, s.ver, q);
    } else if EndMove(p, q) {
      EndSettles(p, q);
    } else if page :| CheckMove(p, s.ver, page, q) {
      CheckSettles(p, s.ver, page, q);
    } else {
      WaitSettles(p, s.unlatched, s.retval, q);
    }
  }

  lemma LockSettles(p: Proc, heapLock: Option<Pid>, globLock: Option<Pid>)
    requires MayLock(p, heapLock, globLock) && Settles(p)
    ensures Settles(LockNext(p)) && Trapping(LockNext(p))
  {
    if p.phase.Unlock2? && p.phase.ok && p.phase.why == ForIo {
      AfterIoPays(p.task, Owed(p.tx), p.tx.dirtied);
    }
    hide TaskPays, AfterIo;
  }

  lemma AfterIoPays(t: Task, owed: set<nat>, wrote: set<nat>)
    requires TaskPays(t, owed, wrote)
    ensures TaskPays(AfterIo(t), owed, wrote)
  {
  }

  lemma PublishSettles(p: Proc)
    requires Publishing(p.phase) && Settles(p)
    ensures Settles(PublishNext(p)) && Trapping(PublishNext(p))
  {
    hide TaskPays;
  }

  lemma EndStepSettles(s: Sys, x: Pid, q: Proc, t: Sys)
    requires x in s.procs && EndStep(s, x, q, t) && Settles(s.procs[x]) && Trapping(s.procs[x])
    ensures Settles(q) && Trapping(q)
  {
    if StepWake(s, x, q, t) {
      WakeKind(s, x, q, t);
      hide *;
      WaitSettles(s.procs[x], s.unlatched, s.retval, q);
    } else {
      hide StepWake, TaskPays;
    }
  }

  ghost predicate SettlesInv(s: Sys) {
    forall x | x in s.procs :: Settles(s.procs[x]) && Trapping(s.procs[x])
  }

  lemma ForkPays(t: Task)
    requires TaskPays(t, {}, {}) && t.code.Spawn?
    ensures forall kids :: TaskPays(Task(t.code.child, kids, []), {}, {}) && TaskPays(Task(t.code.rest, kids, t.stack), {}, {})
  {
  }

  lemma ForkSettles(s: Sys, x: Pid, y: Pid, t: Sys)
    requires SettlesInv(s) && x in s.procs && StepFork(s, x, y, t)
    ensures SettlesInv(t)
  {
    var p := s.procs[x];
    SettlesOf(s, x);
    EndedSettles(p);
    ForkPays(p.task);
    FreshSettles(p, Some(y), Task(p.task.code.rest, p.task.kids + [Forked(y)], p.task.stack));
    FreshSettles(p, p.pred, Task(p.task.code.child, p.task.kids, []));
    hide Settles, Trapping, Pays, Insert, Fresh;
  }

  lemma EndedSettles(p: Proc)
    requires p.phase == Ended && Settles(p)
    ensures TaskPays(p.task, {}, {}) && p.tx.read <= p.tx.dirtied
  {
    hide TaskPays;
  }

  lemma FreshSettles(p: Proc, pred: Option<Pid>, task: Task)
    requires p.tx.read <= p.tx.dirtied && TaskPays(task, {}, {})
    ensures Settles(Fresh(pred, task, p)) && Trapping(Fresh(pred, task, p))
  {
    hide TaskPays;
  }

  lemma OneSettles(s: Sys, x: Pid, q: Proc, t: Sys)
    requires SettlesInv(s) && x in s.procs && t.procs == s.procs[x := q] && Settles(q) && Trapping(q)
    ensures SettlesInv(t)
  {
    hide Settles, Trapping;
  }

  lemma SettlesOf(s: Sys, x: Pid)
    requires SettlesInv(s) && x in s.procs
    ensures Settles(s.procs[x]) && Trapping(s.procs[x])
  {
    hide Settles, Trapping;
  }

  lemma StepKeepsSettles(s: Sys, x: Pid, t: Sys)
    requires TxInv(s) && SettlesInv(s) && x in s.procs && Step(s, x, t)
    ensures SettlesInv(t)
  {
    hide *;
    var q, y := StepKinds(s, x, t);
    SettlesOf(s, x);
    TrackedOf(s, x);
    if Private(s, s.procs[x], q) && t == s.Put(x, q) {
      PrivateSettles(s, x, q);
      PutView(s, x, q, t);
      OneSettles(s, x, q, t);
    } else if StepLock(s, x, t) {
      LockView(s, x, t);
      LockSettles(s.procs[x], s.heapLock, s.globLock);
      OneSettles(s, x, LockNext(s.procs[x]), t);
    } else if StepPublish(s, x, t) {
      PublishView(s, x, t);
      PublishSettles(s.procs[x]);
      OneSettles(s, x, PublishNext(s.procs[x]), t);
    } else if StepFork(s, x, y, t) {
      ForkSettles(s, x, y, t);
    } else {
      EndStepSettles(s, x, q, t);
      EndView(s, x, q, t);
      OneSettles(s, x, q, t);
    }
  }

  lemma TrackedOf(s: Sys, x: Pid)
    requires TxInv(s) && x in s.procs
    ensures Tracked(s.procs[x])
  {
    assert TxOk(s.procs[x], s.mem, s.ver, Pending(s), Committed(s));
    hide Tracked, VerOk, WordsCopied, Clean, Replay, Current;
  }

  lemma InitSettles(s: Sys, main: Prog, m0: Mem)
    requires Init(s, main, m0) && Pays(main, {}, {})
    ensures SettlesInv(s)
  {
  }

  lemma AllWrote(s: Sys)
    requires SettlesInv(s)
    ensures forall x | x in s.procs && s.procs[x].phase == Begin :: WroteWhatItRead(s.procs[x])
  {
    forall x | x in s.procs && s.procs[x].phase == Begin ensures WroteWhatItRead(s.procs[x]) {
      assert Settles(s.procs[x]);
    }
    hide TaskPays, WroteWhatItRead;
  }

  /** In every run of a program that writes what it reads, all transactions begin with every
      page protected. */
  lemma {:induction false} WritersAreDisciplined(run: seq<Sys>, main: Prog, m0: Mem, k: nat)
    requires IsRun(run, main, m0) && Pays(main, {}, {}) && k < |run|
    ensures SettlesInv(run[k]) && forall i | 0 <= i <= k :: Disciplined(run[i])
  {
    hide *;
    if k == 0 {
      Start(run, main, m0);
      InitSettles(run[0], main, m0);
      InitExact(run[0], main, m0);
    } else {
      WritersAreDisciplined(run, main, m0, k - 1);
      RunInv(run, main, m0, k - 1);
      InvParts(run[k - 1]);
      var x := Mover(run, main, m0, k - 1);
      StepKeepsSettles(run[k - 1], x, run[k]);
      AllWrote(run[k]);
      DisciplineExact(run, main, m0, k);
    }
  }

  /** Serial equivalence under a condition on the program alone. */
  lemma SerialEquivalenceOfWriters(run: seq<Sys>, main: Prog, m0: Mem)
    requires IsRun(run, main, m0) && Pays(main, {}, {}) && Complete(run[|run| - 1])
    ensures ROOT in run[|run| - 1].retval
    ensures (run[|run| - 1].mem, run[|run| - 1].retval[ROOT]) == Eval(main, [], m0)
  {
    WritersAreDisciplined(run, main, m0, |run| - 1);
    SerialEquivalence(run, main, m0);
  }
}
