/** Grace's processes as a step machine.

    Every process runs page-granularity transactions over a shared versioned store and
    commits in the order fixed by the predecessor chain.  A step is one action of one
    process; traps, version reads, data reads, single-word copies of a commit, version
    bumps and lock and latch operations are separate steps, so that they interleave. */
module Protocol {
  import opened Programs
  import opened Transactions

  /** Why the store is being validated: before I/O, or to end the transaction. */
  datatype Why = ForIo | ForEnd

  datatype Copying = Idle | Copying(page: nat, next: nat)

  datatype Phase =
    | Begin                             // about to call atomicBegin
    | Run                               // executing user code
    | TrapRead(page: nat)               // in the handler, version not recorded yet
    | Wait(why: Why)                    // waitPred
    | Lock1(why: Why)                   // about to lock the heap region
    | Lock2(why: Why)                   // about to lock the globals region
    | Check(why: Why, todo: set<nat>)   // consistent(): pages still to compare
    | Commit(todo: set<nat>, copying: Copying, stale: set<nat>)
    | Unlock1(why: Why, ok: bool)
    | Unlock2(why: Why, ok: bool)
    | Ended                             // atomicEnd returned
    | Join                              // waiting for the exit of a forked thread
    | ExitWait                          // result published, waiting to exit
    | Posting(left: nat)                // exited; semaphore posts still to do

  /** The private state of one process. */
  datatype Proc = Proc(
    pred: Option<Pid>,          // _pred
    phase: Phase,
    blocked: Option<Pid>,       // in sem_wait on the latch of this process
    task: Task,                 // what is left to execute
    saved: Task,                // the context to restore on rollback
    tx: Tx,
    rollbacks: nat,             // history: rollbacks of the current transaction
    irrevocable: bool)          // history: ensureIrrevocable has returned

  datatype Sys = Sys(
    order: seq<Pid>,            // history: all processes, in serial order
    procs: map<Pid, Proc>,
    mem: Mem,                   // _persistentMemory
    ver: Versions,              // _persistentVersions
    heapLock: Option<Pid>,
    globLock: Option<Pid>,
    unlatched: set<Pid>,        // latches that have been released
    tokens: map<Pid, nat>,      // semaphore counts of the latches
    retval: map<Pid, Val>)      // ThreadStatus::retval
  {
    ghost function Put(x: Pid, p: Proc): Sys {
      this.(procs := procs[x := p])
    }

    ghost function Tokens(q: Pid): nat {
      if q in tokens then tokens[q] else 0
    }
  }

  const ROOT: Pid := 0

  /** The state in which main starts its first transaction: initialisation has just ended
      an empty transaction, which leaves every page protected. */
  ghost predicate Init(s: Sys, main: Prog, m0: Mem) {
    && s.order == [ROOT]
    && s.procs.Keys == {ROOT}
    && s.mem == m0
    && s.heapLock == None && s.globLock == None
    && s.unlatched == {} && s.tokens == map[] && s.retval == map[]
    && var p := s.procs[ROOT];
       && p.pred == None && p.phase == Begin && p.blocked == None
       && p.task == Task(main, [], []) && p.saved == p.task
       && p.tx.cow == map[] && p.tx.read == {} && p.tx.dirtied == {} && AllProtected(p.tx)
       && p.rollbacks == 0 && !p.irrevocable
  }

  // ----- user code and the trap handler -----

  /** The page an instruction touches, and whether its protection allows the access. */
  ghost predicate Touches(g: Prog, page: nat) {
    (g.Read? || g.Write?) && g.page == page
  }

  ghost predicate Allowed(g: Prog, tx: Tx)
    requires g.Read? || g.Write?
  {
    if g.Read? then tx.prot[g.page] != NoAccess else tx.prot[g.page] == ReadWrite
  }

  /** A handle to join by waiting: neither NULL nor a thread that was called directly. */
  ghost predicate SyncsForked(t: Task) {
    t.code.Sync? && t.code.kid < |t.kids| && t.kids[t.code.kid].Forked?
  }

  ghost function Callee(t: Task): Task
    requires t.code.Spawn?
  {
    Task(t.code.child, t.kids, [Frame(t.code.rest, t.kids)] + t.stack)
  }

  /** One user-level action: an instruction, or the trap it causes. */
  ghost predicate UserMove(p: Proc, mem: Mem, ver: Versions, q: Proc) {
    var g := p.task.code;
    match p.phase
    // atomicBegin: save the context, clear the page sets
    case Begin => q == p.(phase := Run, saved := p.task, tx := BeginTx(p.tx))
    case TrapRead(page) => q == p.(phase := Run, tx := RecordRead(p.tx, page, ver[page]))
    case Run =>
      (match g
       case Read(page, off, cont) =>
         if Allowed(g, p.tx) then
           q == p.(task := p.task.(code := Resume(cont, View(p.tx, mem, page)[off])),
                   tx := Observe(p.tx, mem, page, off))
         else Trap(p, page, q)
       case Write(page, off, v, rest) =>
         if Allowed(g, p.tx) then
           q == p.(task := p.task.(code := rest), tx := WriteWord(p.tx, mem, page, off, v))
         else Trap(p, page, q)
       // spawn when dontFork() holds: the thread function is called directly
       case Spawn(_, _) => q == p.(task := Callee(p.task))
       case Ret(v) =>
         p.task.stack != [] && q == p.(task := Return(p.task.stack[0], p.task.stack[1..], v))
       // sync on the NULL handle or on a thread that was called directly
       case Sync(i, cont) =>
         && !SyncsForked(p.task)
         && q == p.(task := p.task.(code := Resume(cont, if i < |p.task.kids| then p.task.kids[i].v else 0)))
       // ensureIrrevocable starts
       case Irrev(_) => q == p.(phase := Wait(ForIo)))
    case _ => false
  }

  /** The handler: see xmemory::handle. */
  ghost predicate Trap(p: Proc, page: nat, q: Proc) {
    if page !in p.tx.pages then q == p.(phase := TrapRead(page), tx := FirstTouch(p.tx, page))
    else q == p.(tx := RecordWrite(p.tx, page))
  }

  // ----- atomicEnd, waitPred, spawn, sync, exit: private part -----

  /** The code is at a point where the runtime calls atomicEnd: a spawn that forks, a
      sync on a forked thread, or the end of the thread function. */
  ghost predicate AtEnd(t: Task) {
    t.code.Spawn? || SyncsForked(t) || (t.code.Ret? && t.stack == [])
  }

  ghost function Target(p: Proc): Option<Pid> {
    match p.phase
    case Wait(_) => p.pred
    case ExitWait => p.pred
    case Join => if SyncsForked(p.task) then Some(p.task.kids[p.task.code.kid].pid) else None
    case _ => None
  }

  ghost predicate Released(q: Option<Pid>, unlatched: set<Pid>) {
    q == None || q.value in unlatched
  }

  /** A process about to begin a transaction with the address space of p. */
  ghost function Fresh(pred: Option<Pid>, task: Task, p: Proc): Proc {
    Proc(pred, Begin, None, task, task, p.tx, 0, false)
  }

  ghost function Joined(p: Proc, retval: map<Pid, Val>): Proc
    requires SyncsForked(p.task)
  {
    var c := p.task.kids[p.task.code.kid].pid;
    Fresh(p.pred, p.task.(code := Resume(p.task.code.cont, if c in retval then retval[c] else 0)), p)
  }

  /** The process moves on once the wait of its phase is over. */
  ghost predicate WaitOver(p: Proc, retval: map<Pid, Val>, q: Proc) {
    match p.phase
    case Wait(why) => q == p.(phase := Lock1(why), blocked := None)
    case ExitWait => q == p.(phase := Posting(2), blocked := None)
    case Join => SyncsForked(p.task) && q == Joined(p, retval)
    case _ => false
  }

  /** atomicCommit starts: the null optimisation, or waitPred. */
  ghost predicate EndMove(p: Proc, q: Proc) {
    && p.phase == Run && AtEnd(p.task)
    && q == if Nop(p.tx) then p.(phase := Ended, tx := UpdateAll(p.tx)) else p.(phase := Wait(ForEnd))
  }

  ghost predicate JoinMove(p: Proc, q: Proc) {
    p.phase == Ended && SyncsForked(p.task) && q == p.(phase := Join)
  }

  /** wait() found the flag clear and enters sem_wait. */
  ghost predicate BlockMove(p: Proc, unlatched: set<Pid>, q: Proc) {
    && p.blocked == None && !Released(Target(p), unlatched)
    && q == p.(blocked := Target(p))
  }

  // ----- validation and commit: private part -----

  /** One comparison of consistent(), its end, or a local action of commit().  The order
      in which pages are taken from a set is free. */
  ghost predicate CheckMove(p: Proc, ver: Versions, page: nat, q: Proc) {
    match p.phase
    case Check(why, todo) =>
      if todo == {} then
        q == p.(phase := if why == ForIo then Unlock1(ForIo, true) else Commit(p.tx.dirtied, Idle, {}))
      else
        && page in todo
        && q == p.(phase := if ver[page] == p.tx.local[page] then Check(why, todo - {page})
                            else Unlock1(why, false))
    case Commit(todo, copying, stale) =>
      && copying == Idle
      && (|| (page in todo && q == p.(phase := Commit(todo, Copying(page, 0), stale)))
          || (page in stale && q == p.(phase := Commit(todo, Idle, stale - {page}), tx := UpdatePage(p.tx, page)))
          || (todo == {} && stale == {} && q == p.(phase := Unlock1(ForEnd, true))))
    case _ => false
  }

  ghost function AfterIo(t: Task): Task {
    if t.code.Irrev? then t.(code := t.code.rest) else t
  }

  /** What the process does once both locks are released: roll back, or go on. */
  ghost function AfterUnlock(p: Proc): Proc
    requires p.phase.Unlock2?
  {
    if !p.phase.ok then
      Proc(p.pred, Begin, None, p.saved, p.saved, UpdateAll(p.tx), p.rollbacks + 1, false)
    else if p.phase.why == ForEnd then
      p.(phase := Ended, pred := None)
    else
      p.(phase := Run, task := AfterIo(p.task), irrevocable := true)
  }

  // ----- steps of the system -----

  /** Steps that change nothing but the private state of x. */
  ghost predicate Private(s: Sys, p: Proc, q: Proc) {
    || UserMove(p, s.mem, s.ver, q)
    || EndMove(p, q) || JoinMove(p, q) || BlockMove(p, s.unlatched, q)
    || (p.phase != ExitWait && p.blocked == None && Target(p).Some? && Released(Target(p), s.unlatched)
        && WaitOver(p, s.retval, q))
    || (p.phase.Wait? && p.blocked == None && p.pred == None && WaitOver(p, s.retval, q))
    || (exists page :: CheckMove(p, s.ver, page, q))
  }

  ghost predicate StepPrivate(s: Sys, x: Pid, t: Sys)
    requires x in s.procs
  {
    exists q :: Private(s, s.procs[x], q) && t == s.Put(x, q)
  }

  /** Taking the heap lock and then the globals lock; releasing them in the same order. */
  ghost predicate MayLock(p: Proc, heapLock: Option<Pid>, globLock: Option<Pid>) {
    match p.phase
    case Lock1(_) => heapLock == None
    case Lock2(_) => globLock == None
    case Unlock1(_, _) => true
    case Unlock2(_, _) => true
    case _ => false
  }

  ghost function LockNext(p: Proc): Proc {
    match p.phase
    case Lock1(why) => p.(phase := Lock2(why))
    case Lock2(why) => p.(phase := Check(why, p.tx.read))
    case Unlock1(why, ok) => p.(phase := Unlock2(why, ok))
    case Unlock2(_, _) => AfterUnlock(p)
    case _ => p
  }

  ghost predicate StepLock(s: Sys, x: Pid, t: Sys)
    requires x in s.procs
  {
    var p := s.procs[x];
    && MayLock(p, s.heapLock, s.globLock)
    && t == s.Put(x, LockNext(p)).(
         heapLock := if p.phase.Lock1? then Some(x) else if p.phase.Unlock1? then None else s.heapLock,
         globLock := if p.phase.Lock2? then Some(x) else if p.phase.Unlock2? then None else s.globLock)
  }

  /** commit(): copy one word of a dirtied page, or publish the page's new version. */
  ghost predicate Publishing(ph: Phase) {
    ph.Commit? && ph.copying.Copying?
  }

  ghost predicate Copies(ph: Phase) {
    Publishing(ph) && ph.copying.next < PAGE_WORDS
  }

  ghost function PublishNext(p: Proc): Proc
    requires Publishing(p.phase)
  {
    var Copying(page, i) := p.phase.copying;
    if i < PAGE_WORDS then p.(phase := p.phase.(copying := Copying(page, i + 1)))
    else p.(phase := Commit(p.phase.todo - {page}, Idle, p.phase.stale + {page}))
  }

  ghost function CopyWord(p: Proc, mem: Mem): Mem
    requires Copies(p.phase)
  {
    var Copying(page, i) := p.phase.copying;
    Store(mem, page, i, View(p.tx, mem, page)[i])
  }

  ghost function BumpVersion(p: Proc, ver: Versions): Versions
    requires Publishing(p.phase)
  {
    ver[p.phase.copying.page := p.tx.local[p.phase.copying.page] + 1]
  }

  ghost predicate StepPublish(s: Sys, x: Pid, t: Sys)
    requires x in s.procs
  {
    var p := s.procs[x];
    && Publishing(p.phase)
    && t == s.Put(x, PublishNext(p)).(
         mem := if Copies(p.phase) then CopyWord(p, s.mem) else s.mem,
         ver := if Copies(p.phase) then s.ver else BumpVersion(p, s.ver))
  }

  /** The list in which a forked child stands immediately before its parent. */
  ghost function Insert(order: seq<Pid>, x: Pid, y: Pid): seq<Pid> {
    if order == [] then [y]
    else if order[0] == x then [y] + order
    else [order[0]] + Insert(order[1..], x, y)
  }

  /** An identifier no process, latch or thread status has been given yet. */
  ghost predicate Unused(s: Sys, y: Pid) {
    y !in s.procs && y !in s.order && y !in s.tokens && y !in s.retval && y !in s.unlatched
  }

  /** forkSpawn: the child inherits the address space and the parent's predecessor; the
      parent's predecessor becomes the child. */
  ghost predicate StepFork(s: Sys, x: Pid, y: Pid, t: Sys)
    requires x in s.procs
  {
    var p := s.procs[x];
    && p.phase == Ended && p.task.code.Spawn? && Unused(s, y)
    && var child := Task(p.task.code.child, p.task.kids, []);
       var rest := Task(p.task.code.rest, p.task.kids + [Forked(y)], p.task.stack);
       t == s.(order := Insert(s.order, x, y),
               procs := s.procs[x := Fresh(Some(y), rest, p)][y := Fresh(p.pred, child, p)])
  }

  /** The end of run_thread: publish the result in the thread's status object. */
  ghost predicate StepFinish(s: Sys, x: Pid, t: Sys)
    requires x in s.procs
  {
    var p := s.procs[x];
    && p.phase == Ended && p.task.code.Ret? && p.task.stack == []
    && t == s.Put(x, p.(phase := ExitWait)).(retval := s.retval[x := p.task.code.v])
  }

  /** setExited: the flag of the latch is set first; two posts follow. */
  ghost predicate StepExit(s: Sys, x: Pid, t: Sys)
    requires x in s.procs
  {
    var p := s.procs[x];
    && p.phase == ExitWait && p.blocked == None && Released(p.pred, s.unlatched)
    && t == s.Put(x, p.(phase := Posting(2))).(unlatched := s.unlatched + {x})
  }

  ghost predicate StepPost(s: Sys, x: Pid, t: Sys)
    requires x in s.procs
  {
    var p := s.procs[x];
    && p.phase.Posting? && p.phase.left > 0
    && t == s.Put(x, p.(phase := Posting(p.phase.left - 1))).(tokens := s.tokens[x := s.Tokens(x) + 1])
  }

  /** sem_wait takes a token and returns, and with it the wait. */
  ghost predicate StepWake(s: Sys, x: Pid, q: Proc, t: Sys)
    requires x in s.procs
  {
    var p := s.procs[x];
    && p.blocked.Some? && s.Tokens(p.blocked.value) > 0 && WaitOver(p, s.retval, q)
    && t == s.Put(x, q).(tokens := s.tokens[p.blocked.value := s.Tokens(p.blocked.value) - 1],
                         unlatched := if p.phase == ExitWait then s.unlatched + {x} else s.unlatched)
  }

  ghost predicate Step(s: Sys, x: Pid, t: Sys)
    requires x in s.procs
  {
    || StepPrivate(s, x, t) || StepLock(s, x, t) || StepPublish(s, x, t)
    || (exists y :: StepFork(s, x, y, t)) || StepFinish(s, x, t)
    || StepExit(s, x, t) || StepPost(s, x, t) || (exists q :: StepWake(s, x, q, t))
  }

  ghost predicate Steps(s: Sys, t: Sys) {
    exists x :: x in s.procs && Step(s, x, t)
  }

  /** A run: every two consecutive states are related by a step of some process. */
  ghost predicate IsRun(run: seq<Sys>, main: Prog, m0: Mem) {
    && |run| > 0
    && Init(run[0], main, m0)
    && forall i | 0 <= i < |run| - 1 :: Steps(run[i], run[i + 1])
  }

  /** Hypothesis of the theorems: a transaction begins with every page protected. */
  ghost predicate Disciplined(s: Sys) {
    forall x | x in s.procs && s.procs[x].phase == Begin :: AllProtected(s.procs[x].tx)
  }

  ghost predicate Complete(s: Sys) {
    ROOT in s.unlatched
  }
}
