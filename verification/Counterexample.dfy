/** Why the theorems ask that transactions begin with every page protected.  A transaction
    that only reads a page leaves it readable when it commits, and the next transaction of
    that process and the first one of a child forked from it read it without a trap.  Here
    main reads a page, forks a child that writes a 1 there, and reads it again: serially the
    second read gives 1, but a complete run exists in which it gives the old value. */
module Counterexample {
  import opened Programs
  import opened Transactions
  import opened Protocol

  ghost function Reader(): Prog {
    Read(0, 0, imap v: Val :: Ret(v))
  }

  ghost function Writer(): Prog {
    Write(0, 0, 1, Ret(0))
  }

  ghost function ForkThen(v: Val): Prog {
    Spawn(Writer(), Reader())
  }

  ghost function Program(): Prog {
    Read(0, 0, imap v: Val :: ForkThen(v))
  }

  // ----- runs built step by step -----

  ghost predicate Path(run: seq<Sys>, s: Sys, t: Sys) {
    && |run| > 0 && run[0] == s && run[|run| - 1] == t
    && forall i | 0 <= i < |run| - 1 :: Steps(run[i], run[i + 1])
  }

  ghost predicate Reaches(s: Sys, t: Sys) {
    exists run :: Path(run, s, t)
  }

  lemma Here(s: Sys)
    ensures Reaches(s, s)
  {
    assert Path([s], s, s);
  }

  lemma Go(s: Sys, t: Sys, x: Pid, u: Sys)
    requires Reaches(s, t) && x in t.procs && Step(t, x, u)
    ensures Reaches(s, u)
  {
    hide Step;
    var run :| Path(run, s, t);
    var longer := run + [u];
    assert Steps(t, u);
    forall i | 0 <= i < |longer| - 1 ensures Steps(longer[i], longer[i + 1]) {
      if i < |run| - 1 { assert Steps(run[i], run[i + 1]); }
    }
    assert Path(longer, s, u);
  }

  lemma Move(s: Sys, t: Sys, x: Pid, q: Proc)
    requires Reaches(s, t) && x in t.procs && Private(t, t.procs[x], q)
    ensures Reaches(s, t.Put(x, q))
  {
    hide Private, Reaches;
    assert StepPrivate(t, x, t.Put(x, q));
    Go(s, t, x, t.Put(x, q));
  }

  lemma Lock(s: Sys, t: Sys, x: Pid, u: Sys)
    requires Reaches(s, t) && x in t.procs && StepLock(t, x, u)
    ensures Reaches(s, u)
  {
    hide StepLock, Reaches;
    Go(s, t, x, u);
  }

  lemma Publish(s: Sys, t: Sys, x: Pid, u: Sys)
    requires Reaches(s, t) && x in t.procs && StepPublish(t, x, u)
    ensures Reaches(s, u)
  {
    hide StepPublish, Reaches;
    Go(s, t, x, u);
  }

  lemma Checked(s: Sys, t: Sys, x: Pid, page: nat, q: Proc)
    requires Reaches(s, t) && x in t.procs && CheckMove(t.procs[x], t.ver, page, q)
    ensures Reaches(s, t.Put(x, q))
  {
    hide CheckMove, Reaches;
    Move(s, t, x, q);
  }

  lemma Put2(t: Sys, x: Pid, p: Proc, q: Proc)
    ensures t.Put(x, p).Put(x, q) == t.Put(x, q)
  {
    assert t.procs[x := p][x := q] == t.procs[x := q];
  }

  // ----- validation and commit, for a process that runs alone -----

  /** The store with no lock taken and process x in the given state. */
  ghost predicate Unlocked(s: Sys, x: Pid) {
    x in s.procs && s.heapLock == None && s.globLock == None
  }

  /** From waitPred to the check, for a process that waits for nobody and has read page 0. */
  lemma Enter(s: Sys, t: Sys, x: Pid) returns (u: Sys)
    requires Reaches(s, t) && Unlocked(t, x)
    requires t.procs[x].phase == Wait(ForEnd) && t.procs[x].blocked == None && t.procs[x].pred == None
    ensures Reaches(s, u)
    ensures u == t.Put(x, t.procs[x].(phase := Check(ForEnd, t.procs[x].tx.read))).(heapLock := Some(x), globLock := Some(x))
  {
    hide Reaches;
    var p := t.procs[x];
    var q1 := p.(phase := Lock1(ForEnd), blocked := None);
    Move(s, t, x, q1);
    u := LockBoth(s, t.Put(x, q1), x);
    Put2(t, x, q1, u.procs[x]);
  }

  lemma LockBoth(s: Sys, t: Sys, x: Pid) returns (u: Sys)
    requires Reaches(s, t) && Unlocked(t, x) && t.procs[x].phase == Lock1(ForEnd)
    ensures Reaches(s, u)
    ensures u == t.Put(x, t.procs[x].(phase := Check(ForEnd, t.procs[x].tx.read))).(heapLock := Some(x), globLock := Some(x))
  {
    hide Reaches;
    var q1 := LockNext(t.procs[x]);
    var t1 := t.Put(x, q1).(heapLock := Some(x));
    Lock(s, t, x, t1);
    var q2 := LockNext(q1);
    u := t1.Put(x, q2).(globLock := Some(x));
    Lock(s, t1, x, u);
    Put2(t, x, q1, q2);
  }

  lemma Leave(s: Sys, t: Sys, x: Pid) returns (u: Sys)
    requires Reaches(s, t) && x in t.procs && t.heapLock == Some(x) && t.globLock == Some(x)
    requires t.procs[x].phase == Commit({}, Idle, {})
    ensures Reaches(s, u)
    ensures u == t.Put(x, t.procs[x].(phase := Ended, pred := None)).(heapLock := None, globLock := None)
  {
    hide Reaches;
    var q := t.procs[x].(phase := Unlock1(ForEnd, true));
    Checked(s, t, x, 0, q);
    u := UnlockBoth(s, t.Put(x, q), x);
    Put2(t, x, q, u.procs[x]);
  }

  lemma UnlockBoth(s: Sys, t: Sys, x: Pid) returns (u: Sys)
    requires Reaches(s, t) && x in t.procs && t.heapLock == Some(x) && t.globLock == Some(x)
    requires t.procs[x].phase == Unlock1(ForEnd, true)
    ensures Reaches(s, u)
    ensures u == t.Put(x, t.procs[x].(phase := Ended, pred := None)).(heapLock := None, globLock := None)
  {
    hide Reaches;
    var q1 := LockNext(t.procs[x]);
    var t1 := t.Put(x, q1).(heapLock := None);
    Lock(s, t, x, t1);
    var q2 := LockNext(q1);
    u := t1.Put(x, q2).(globLock := None);
    Lock(s, t1, x, u);
    Put2(t, x, q1, q2);
  }

  /** consistent() succeeds and commit() starts, when page 0 alone was read and is current. */
  lemma Validate(s: Sys, t: Sys, x: Pid) returns (u: Sys)
    requires Reaches(s, t) && x in t.procs
    requires t.procs[x].phase == Check(ForEnd, {0}) && t.procs[x].tx.local[0] == t.ver[0]
    ensures Reaches(s, u)
    ensures u == t.Put(x, t.procs[x].(phase := Commit(t.procs[x].tx.dirtied, Idle, {})))
  {
    hide Reaches;
    var p := t.procs[x];
    var q1 := p.(phase := Check(ForEnd, {0} - {0}));
    Checked(s, t, x, 0, q1);
    var t1 := t.Put(x, q1);
    var q2 := p.(phase := Commit(p.tx.dirtied, Idle, {}));
    Checked(s, t1, x, 0, q2);
    u := t1.Put(x, q2);
    Put2(t, x, q1, q2);
  }

  /** Copies the remaining words of page 0, one step each. */
  lemma {:induction false} CopyPage(s: Sys, t: Sys, x: Pid, i: nat) returns (u: Sys)
    requires Reaches(s, t) && x in t.procs && i <= PAGE_WORDS
    requires t.procs[x].phase == Commit({0}, Copying(0, i), {}) && 0 in t.procs[x].tx.cow
    requires i > 0 ==> t.mem[0][0] == t.procs[x].tx.cow[0][0]
    ensures Reaches(s, u) && u == t.Put(x, t.procs[x].(phase := Commit({0}, Copying(0, PAGE_WORDS), {}))).(mem := u.mem)
    ensures u.mem[0][0] == t.procs[x].tx.cow[0][0]
    decreases PAGE_WORDS - i
  {
    hide Reaches;
    var p := t.procs[x];
    if i == PAGE_WORDS {
      u := t;
      assert t.procs[x := p] == t.procs;
    } else {
      var q := p.(phase := Commit({0}, Copying(0, i + 1), {}));
      var t1 := t.Put(x, q).(mem := CopyWord(p, t.mem));
      Publish(s, t, x, t1);
      hide StepPublish;
      u := CopyPage(s, t1, x, i + 1);
      Put2(t, x, q, u.procs[x]);
    }
  }

  /** commit() of a process that dirtied page 0. */
  lemma CommitPage(s: Sys, t: Sys, x: Pid) returns (u: Sys)
    requires Reaches(s, t) && x in t.procs
    requires t.procs[x].phase == Commit({0}, Idle, {}) && 0 in t.procs[x].tx.cow
    ensures Reaches(s, u)
    ensures u == t.Put(x, t.procs[x].(phase := Commit({}, Idle, {}), tx := UpdatePage(t.procs[x].tx, 0)))
                  .(mem := u.mem, ver := u.ver)
  {
    hide Reaches;
    var p := t.procs[x];
    var q1 := p.(phase := Commit({0}, Copying(0, 0), {}));
    Checked(s, t, x, 0, q1);
    var t1 := t.Put(x, q1);
    var t2 := CopyPage(s, t1, x, 0);
    u := PublishPage(s, t2, x);
    var q2 := p.(phase := Commit({0}, Copying(0, PAGE_WORDS), {}));
    var q3 := p.(phase := Commit({}, Idle, {}), tx := UpdatePage(p.tx, 0));
    Put2(t, x, q1, q2);
    Put2(t, x, q2, q3);
  }

  lemma PublishPage(s: Sys, t: Sys, x: Pid) returns (u: Sys)
    requires Reaches(s, t) && x in t.procs && t.procs[x].phase == Commit({0}, Copying(0, PAGE_WORDS), {})
    ensures Reaches(s, u)
    ensures u == t.Put(x, t.procs[x].(phase := Commit({}, Idle, {}), tx := UpdatePage(t.procs[x].tx, 0)))
                  .(ver := u.ver)
  {
    hide Reaches;
    var p := t.procs[x];
    var q1 := PublishNext(p);
    assert {0} - {0} == {} && {} + {0} == {0};
    assert q1 == p.(phase := Commit({}, Idle, {0}));
    var t1 := t.Put(x, q1).(ver := BumpVersion(p, t.ver));
    Publish(s, t, x, t1);
    var q2 := p.(phase := Commit({}, Idle, {0} - {0}), tx := UpdatePage(p.tx, 0));
    Checked(s, t1, x, 0, q2);
    u := t1.Put(x, q2);
    Put2(t, x, q1, q2);
  }

  // ----- the run -----

  ghost function First(page: nat): int { 0 }

  ghost function NoVersions(): Versions {
    imap p: nat :: First(p)
  }

  ghost function MainProc(): Proc {
    var task := Task(Program(), [], []);
    Proc(None, Begin, None, task, task, Tx(NoPages(), map[], {}, {}, {}, NoVersions(), {}), 0, false)
  }

  ghost function Start(m0: Mem): Sys {
    Sys([ROOT], map[ROOT := MainProc()], m0, NoVersions(), None, None, {}, map[], map[])
  }

  /** The tasks after the first read, of the child, and of main after the fork. */
  ghost function AtFork(): Task { Task(Spawn(Writer(), Reader()), [], []) }

  ghost function ChildTask(): Task { Task(Writer(), [], []) }

  ghost function MainTask(): Task { Task(Reader(), [Forked(1)], []) }

  /** A transaction that read page 0, committed, and left the page readable. */
  ghost predicate LeftReadable(tx: Tx) {
    tx.prot[0] == ReadOnly && tx.read == {0} && tx.cow == map[] && tx.dirtied == {}
  }

  /** The first access to page 0: begin is over, and the handler makes the page readable
      and records its version. */
  lemma Touch(s: Sys, t: Sys, x: Pid) returns (u: Sys)
    requires Reaches(s, t) && x in t.procs && t.procs[x].phase == Run
    requires Touches(t.procs[x].task.code, 0) && !Allowed(t.procs[x].task.code, t.procs[x].tx)
    requires 0 !in t.procs[x].tx.pages
    ensures Reaches(s, u)
    ensures u == t.Put(x, t.procs[x].(tx := RecordRead(FirstTouch(t.procs[x].tx, 0), 0, t.ver[0])))
  {
    hide Reaches;
    var p := t.procs[x];
    var q1 := p.(phase := TrapRead(0), tx := FirstTouch(p.tx, 0));
    assert UserMove(p, t.mem, t.ver, q1);
    Move(s, t, x, q1);
    var t1 := t.Put(x, q1);
    var q2 := p.(tx := RecordRead(q1.tx, 0, t.ver[0]));
    assert UserMove(q1, t1.mem, t1.ver, q2);
    Move(s, t1, x, q2);
    u := t1.Put(x, q2);
    Put2(t, x, q1, q2);
  }

  lemma BeginGo(s: Sys, t: Sys, x: Pid)
    requires Reaches(s, t) && x in t.procs && t.procs[x].phase == Begin
    ensures Reaches(s, t.Put(x, Begun(t.procs[x])))
  {
    hide Reaches;
    Move(s, t, x, Begun(t.procs[x]));
  }

  ghost function Begun(p: Proc): Proc {
    p.(phase := Run, saved := p.task, tx := BeginTx(p.tx))
  }

  /** main reads page 0 under a trap and its instruction completes. */
  lemma FirstRead(m0: Mem) returns (t: Sys)
    ensures Reaches(Start(m0), t)
    ensures ROOT in t.procs
    ensures var p := t.procs[ROOT];
            p == Proc(None, Run, None, AtFork(), Task(Program(), [], []), p.tx, 0, false)
            && LeftReadable(p.tx) && p.tx.local[0] == 0 && t == Start(m0).Put(ROOT, p)
  {
    hide Reaches;
    var s := Start(m0);
    Here(s);
    BeginGo(s, s, ROOT);
    var q1 := Begun(MainProc());
    var t1 := s.Put(ROOT, q1);
    var t2 := Touch(s, t1, ROOT);
    var q2 := t2.procs[ROOT];
    var q3 := q2.(task := AtFork(), tx := Observe(q2.tx, m0, 0, 0));
    assert UserMove(q2, t2.mem, t2.ver, q3);
    Move(s, t2, ROOT, q3);
    t := t2.Put(ROOT, q3);
    Put2(s, ROOT, q1, q2);
    Put2(s, ROOT, q2, q3);
  }

  ghost function Forking(m0: Mem, tx: Tx): Sys {
    Start(m0).(procs := map[ROOT := Proc(None, Ended, None, AtFork(), Task(Program(), [], []), tx, 0, false)])
  }

  ghost function BothBegin(m0: Mem, tx: Tx): Sys {
    Start(m0).(order := [1, ROOT],
               procs := map[ROOT := Proc(Some(1), Begin, None, MainTask(), MainTask(), tx, 0, false),
                            1 := Proc(None, Begin, None, ChildTask(), ChildTask(), tx, 0, false)])
  }

  /** A process that only read page 0 ends its transaction. */
  lemma EndReader(s: Sys, t: Sys, x: Pid) returns (u: Sys)
    requires Reaches(s, t) && Unlocked(t, x)
    requires t.procs[x].phase == Run && t.procs[x].blocked == None && t.procs[x].pred == None
    requires AtEnd(t.procs[x].task) && t.procs[x].tx.read == {0} && t.procs[x].tx.dirtied == {}
    requires t.procs[x].tx.local[0] == t.ver[0]
    ensures Reaches(s, u) && u == t.Put(x, t.procs[x].(phase := Ended, pred := None))
  {
    hide Reaches, AtEnd;
    var t1 := EndThread(s, t, x);
    var t2 := Validate(s, t1, x);
    u := Leave(s, t2, x);
    Put2(t, x, t1.procs[x], t2.procs[x]);
    Put2(t, x, t2.procs[x], u.procs[x]);
  }

  /** main commits its first transaction. */
  lemma FirstCommit(m0: Mem) returns (tx: Tx)
    ensures Reaches(Start(m0), Forking(m0, tx)) && LeftReadable(tx)
  {
    hide Reaches;
    var t1 := FirstRead(m0);
    tx := t1.procs[ROOT].tx;
    var t2 := EndReader(Start(m0), t1, ROOT);
    assert t2.procs == Forking(m0, tx).procs;
  }

  lemma ForkStep(m0: Mem, tx: Tx)
    ensures ROOT in Forking(m0, tx).procs && StepFork(Forking(m0, tx), ROOT, 1, BothBegin(m0, tx))
  {
    var s, t := Forking(m0, tx), BothBegin(m0, tx);
    assert Insert(s.order, ROOT, 1) == [1, ROOT];
    assert [] + [Forked(1)] == [Forked(1)];
    var p := s.procs[ROOT];
    assert s.procs[ROOT := Fresh(Some(1), MainTask(), p)][1 := Fresh(None, ChildTask(), p)] == t.procs;
  }

  /** main forks the child. */
  lemma ForkChild(m0: Mem) returns (tx: Tx)
    ensures Reaches(Start(m0), BothBegin(m0, tx)) && LeftReadable(tx)
  {
    hide *;
    tx := FirstCommit(m0);
    ForkStep(m0, tx);
    ForkGo(Start(m0), Forking(m0, tx), ROOT, 1, BothBegin(m0, tx));
  }

  lemma ForkGo(s: Sys, t: Sys, x: Pid, y: Pid, u: Sys)
    requires Reaches(s, t) && x in t.procs && StepFork(t, x, y, u)
    ensures Reaches(s, u)
  {
    hide StepFork, Reaches;
    Go(s, t, x, u);
  }

  ghost predicate Stale(m0: Mem, t: Sys, p: Proc, tx: Tx) {
    && LeftReadable(tx)
    && p.phase == ExitWait && p.pred == Some(1) && p.blocked == None
    && t == BothBegin(m0, tx).Put(ROOT, p).(retval := map[ROOT := m0[0][0]])
  }

  /** main's second transaction reads the readable page without a trap. */
  lemma UntrappedRead(m0: Mem) returns (q: Proc, tx: Tx)
    ensures Reaches(Start(m0), BothBegin(m0, tx).Put(ROOT, q)) && LeftReadable(tx)
    ensures q.phase == Run && q.pred == Some(1) && q.blocked == None && Nop(q.tx)
    ensures q.task == Task(Ret(m0[0][0]), [Forked(1)], [])
  {
    hide Reaches;
    var s := Start(m0);
    tx := ForkChild(m0);
    var t0 := BothBegin(m0, tx);
    var q1 := Begun(t0.procs[ROOT]);
    BeginGo(s, t0, ROOT);
    var t1 := t0.Put(ROOT, q1);
    q := q1.(task := Task(Ret(m0[0][0]), [Forked(1)], []), tx := Observe(q1.tx, t1.mem, 0, 0));
    assert UserMove(q1, t1.mem, t1.ver, q);
    Move(s, t1, ROOT, q);
    Put2(t0, ROOT, q1, q);
  }

  /** That transaction is null, and the stale value is published as main's result. */
  lemma StaleRead(m0: Mem) returns (t: Sys, p: Proc, tx: Tx)
    ensures Reaches(Start(m0), t) && Stale(m0, t, p, tx)
  {
    hide Reaches;
    var s := Start(m0);
    var q;
    q, tx := UntrappedRead(m0);
    var t2 := BothBegin(m0, tx).Put(ROOT, q);
    var q3 := q.(phase := Ended, tx := UpdateAll(q.tx));
    assert EndMove(q, q3);
    Move(s, t2, ROOT, q3);
    var t3 := t2.Put(ROOT, q3);
    Put2(BothBegin(m0, tx), ROOT, q, q3);
    p := q3.(phase := ExitWait);
    t := t3.Put(ROOT, p).(retval := t3.retval[ROOT := m0[0][0]]);
    Put2(BothBegin(m0, tx), ROOT, q3, p);
    FinishGo(s, t3, ROOT, t);
    assert t.retval == map[ROOT := m0[0][0]];
  }

  lemma FinishGo(s: Sys, t: Sys, x: Pid, u: Sys)
    requires Reaches(s, t) && x in t.procs && StepFinish(t, x, u)
    ensures Reaches(s, u)
  {
    hide StepFinish, Reaches;
    Go(s, t, x, u);
  }

  lemma ExitGo(s: Sys, t: Sys, x: Pid, u: Sys)
    requires Reaches(s, t) && x in t.procs && StepExit(t, x, u)
    ensures Reaches(s, u)
  {
    hide StepExit, Reaches;
    Go(s, t, x, u);
  }

  /** The child writes page 0 under a read trap and a write trap. */
  lemma ChildWrites(s: Sys, t: Sys) returns (u: Sys)
    requires Reaches(s, t) && 1 in t.procs
    requires var p := t.procs[1];
             p == Proc(None, Begin, None, ChildTask(), ChildTask(), p.tx, 0, false) && LeftReadable(p.tx)
    ensures Reaches(s, u) && 1 in u.procs
    ensures var q := u.procs[1];
            u == t.Put(1, q) && q == Proc(None, Run, None, Task(Ret(0), [], []), ChildTask(), q.tx, 0, false)
            && q.tx.read == {0} && q.tx.dirtied == {0} && 0 in q.tx.cow && q.tx.local[0] == t.ver[0]
  {
    hide Reaches;
    var p := t.procs[1];
    BeginGo(s, t, 1);
    var q1 := Begun(p);
    var t1 := t.Put(1, q1);
    var t2 := Touch(s, t1, 1);
    u := WriteAfterRead(s, t2);
    Put2(t, 1, q1, t2.procs[1]);
    Put2(t, 1, t2.procs[1], u.procs[1]);
  }

  lemma WriteAfterRead(s: Sys, t: Sys) returns (u: Sys)
    requires Reaches(s, t) && 1 in t.procs
    requires var p := t.procs[1];
             p == Proc(None, Run, None, ChildTask(), ChildTask(), p.tx, 0, false)
             && p.tx.pages == {0} && p.tx.prot[0] == ReadOnly && p.tx.read == {0} && p.tx.dirtied == {}
    ensures Reaches(s, u) && 1 in u.procs
    ensures var q := u.procs[1];
            u == t.Put(1, q) && q == Proc(None, Run, None, Task(Ret(0), [], []), ChildTask(), q.tx, 0, false)
            && q.tx.read == {0} && q.tx.dirtied == {0} && 0 in q.tx.cow && q.tx.local[0] == t.procs[1].tx.local[0]
  {
    hide Reaches;
    var p := t.procs[1];
    var q1 := p.(tx := RecordWrite(p.tx, 0));
    assert UserMove(p, t.mem, t.ver, q1);
    Move(s, t, 1, q1);
    var t1 := t.Put(1, q1);
    var q2 := q1.(task := Task(Ret(0), [], []), tx := WriteWord(q1.tx, t1.mem, 0, 0, 1));
    assert UserMove(q1, t1.mem, t1.ver, q2);
    Move(s, t1, 1, q2);
    u := t1.Put(1, q2);
    assert u.procs == t.procs[1 := q2];
  }

  ghost function AfterCommit(p: Proc): Proc {
    p.(phase := Commit({}, Idle, {}), tx := UpdatePage(p.tx, 0))
  }

  /** A process at the end of its thread waits for nobody, locks and starts to validate. */
  lemma EndThread(s: Sys, t: Sys, x: Pid) returns (u: Sys)
    requires Reaches(s, t) && Unlocked(t, x)
    requires t.procs[x].phase == Run && t.procs[x].blocked == None && t.procs[x].pred == None
    requires AtEnd(t.procs[x].task) && !Nop(t.procs[x].tx)
    ensures Reaches(s, u)
    ensures u == t.Put(x, t.procs[x].(phase := Check(ForEnd, t.procs[x].tx.read))).(heapLock := Some(x), globLock := Some(x))
  {
    hide Reaches, AtEnd, Nop;
    var q := t.procs[x].(phase := Wait(ForEnd));
    assert EndMove(t.procs[x], q);
    Move(s, t, x, q);
    hide Private, EndMove;
    u := Enter(s, t.Put(x, q), x);
    Put2(t, x, q, u.procs[x]);
  }

  /** A process that dirtied page 0 and recorded its current version commits. */
  lemma CommitChecked(s: Sys, t: Sys, x: Pid) returns (u: Sys)
    requires Reaches(s, t) && x in t.procs && t.procs[x].phase == Check(ForEnd, {0})
    requires t.procs[x].tx.dirtied == {0} && 0 in t.procs[x].tx.cow && t.procs[x].tx.local[0] == t.ver[0]
    ensures Reaches(s, u)
    ensures u == t.Put(x, AfterCommit(t.procs[x])).(mem := u.mem, ver := u.ver)
  {
    hide Reaches, UpdatePage;
    var t1 := Validate(s, t, x);
    u := CommitPage(s, t1, x);
    Put2(t, x, t1.procs[x], u.procs[x]);
  }

  /** The child validates and commits. */
  lemma ChildCommits(s: Sys, t: Sys) returns (u: Sys)
    requires Reaches(s, t) && Unlocked(t, 1)
    requires t.procs[1].phase == Run && t.procs[1].blocked == None && t.procs[1].pred == None
    requires AtEnd(t.procs[1].task) && t.procs[1].tx.read == {0}
    requires t.procs[1].tx.dirtied == {0} && 0 in t.procs[1].tx.cow && t.procs[1].tx.local[0] == t.ver[0]
    ensures Reaches(s, u)
    ensures u == t.Put(1, AfterCommit(t.procs[1])).(mem := u.mem, ver := u.ver, heapLock := Some(1), globLock := Some(1))
  {
    hide Reaches, UpdatePage, AtEnd;
    var t1 := EndThread(s, t, 1);
    u := CommitChecked(s, t1, 1);
    Put2(t, 1, t1.procs[1], u.procs[1]);
  }

  /** The child publishes its result and exits. */
  lemma ChildExits(s: Sys, t: Sys) returns (u: Sys)
    requires Reaches(s, t) && 1 in t.procs && t.heapLock == Some(1) && t.globLock == Some(1)
    requires t.procs[1].phase == Commit({}, Idle, {}) && t.procs[1].task == Task(Ret(0), [], []) && t.procs[1].blocked == None
    ensures Reaches(s, u) && u.unlatched == t.unlatched + {1} && u.retval == t.retval[1 := 0]
    ensures 1 in u.procs && u.procs == t.procs[1 := u.procs[1]]
  {
    hide Reaches;
    var t1 := Leave(s, t, 1);
    var q1 := t1.procs[1];
    var t2 := t1.Put(1, q1.(phase := ExitWait)).(retval := t1.retval[1 := 0]);
    FinishGo(s, t1, 1, t2);
    u := t2.Put(1, t2.procs[1].(phase := Posting(2))).(unlatched := t2.unlatched + {1});
    ExitGo(s, t2, 1, u);
    assert u.procs == t.procs[1 := u.procs[1]];
  }

  /** After main's stale read, the child commits and exits. */
  lemma ChildRuns(m0: Mem) returns (t: Sys, p: Proc)
    ensures Reaches(Start(m0), t)
    ensures ROOT in t.procs && t.procs[ROOT] == p && p.phase == ExitWait && p.pred == Some(1) && p.blocked == None
    ensures 1 in t.unlatched && ROOT in t.retval && t.retval[ROOT] == m0[0][0]
  {
    hide Reaches;
    var s := Start(m0);
    var t0, tx;
    t0, p, tx := StaleRead(m0);
    assert 1 in t0.procs && t0.procs[1] == BothBegin(m0, tx).procs[1] && t0.procs[ROOT] == p;
    assert Unlocked(t0, 1) && t0.retval[ROOT] == m0[0][0];
    hide Stale, BothBegin, LeftReadable;
    var t1 := ChildWrites(s, t0);
    var t2 := ChildCommits(s, t1);
    t := ChildExits(s, t2);
  }

  lemma WholeRun(m0: Mem) returns (u: Sys)
    ensures Reaches(Start(m0), u) && Complete(u) && ROOT in u.retval && u.retval[ROOT] == m0[0][0]
  {
    hide Reaches;
    var t, p := ChildRuns(m0);
    u := t.Put(ROOT, p.(phase := Posting(2))).(unlatched := t.unlatched + {ROOT});
    ExitGo(Start(m0), t, ROOT, u);
  }

  /** Without the hypothesis, a complete run need not give the serial result. */
  lemma NotSerialWithoutProtection(m0: Mem)
    requires m0[0][0] != 1
    ensures exists run: seq<Sys>, main: Prog :: IsRun(run, main, m0) && Complete(run[|run| - 1]) && ROOT in run[|run| - 1].retval
              && run[|run| - 1].retval[ROOT] != Eval(main, [], m0).1
  {
    var u := WholeRun(m0);
    var run :| Path(run, Start(m0), u);
    assert IsRun(run, Program(), m0) by {
      hide Steps;
      assert Init(Start(m0), Program(), m0);
    }
    assert Eval(Program(), [], m0).1 == 1 by {
      assert 0 in Program().cont;
      var m1 := Store(m0, 0, 0, 1);
      assert Eval(Writer(), [], m0) == (m1, 0);
      assert Eval(Reader(), [0], m1) == (m1, 1);
      assert [] + [0] == [0];
    }
  }
}
