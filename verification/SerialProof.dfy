/** Serial equivalence: whatever the interleaving, the committed store followed by the
    remaining work of all processes, run serially, always ends in the same state. */
module SerialProof {
  import opened Programs
  import opened Transactions
  import opened Protocol
  import opened OrderProof
  import opened TxnProof

  // ----- lists of work, run serially -----

  ghost predicate AllDone(items: seq<Item>) {
    forall i | 0 <= i < |items| :: items[i].Done?
  }

  lemma {:induction false} SkipDone(items: seq<Item>, k: nat, env: Env, m: Mem)
    requires k <= |items| && AllDone(items[..k])
    ensures EvalItems(items, env, m) == EvalItems(items[k..], env, m)
    decreases k
  {
    if k == 0 {
      assert items[0..] == items;
    } else {
      assert items[..k][0].Done?;
      assert items[1..][..k - 1] == items[..k][1..] && items[1..][k - 1..] == items[k..];
      SkipDone(items[1..], k - 1, env, m);
    }
  }

  ghost predicate Extends(e: Env, env: Env) {
    forall c | c in env :: c in e && e[c] == env[c]
  }

  /** The two tasks do the same wherever the results in `env` are known. */
  ghost predicate Equivalent(a: Task, b: Task, env: Env) {
    forall e: Env, m: Mem | Extends(e, env) :: RunTask(a, e, m) == RunTask(b, e, m)
  }

  /** The processes with work left are distinct and have no recorded result. */
  ghost predicate Separate(items: seq<Item>, env: Env) {
    && (forall i | 0 <= i < |items| && items[i].Todo? :: items[i].pid !in env)
    && (forall i, j | 0 <= i < j < |items| && items[i].Todo? && items[j].Todo? :: items[i].pid != items[j].pid)
  }

  lemma SeparateTail(items: seq<Item>, env: Env, v: Val)
    requires |items| > 0 && Separate(items, env)
    ensures Separate(items[1..], env)
    ensures items[0].Todo? ==> Separate(items[1..], env[items[0].pid := v])
  {
    var rest := items[1..];
    assert forall i | 0 <= i < |rest| :: rest[i] == items[i + 1];
  }

  lemma {:induction false} ReplaceItem(items: seq<Item>, i: nat, x: Pid, a: Task, b: Task, env: Env, m: Mem)
    requires i < |items| && items[i] == Todo(x, a) && Separate(items, env) && Equivalent(a, b, env)
    ensures EvalItems(items, env, m) == EvalItems(items[i := Todo(x, b)], env, m)
    decreases i
  {
    var more := items[i := Todo(x, b)];
    if i == 0 {
      assert more[1..] == items[1..];
      assert Extends(env, env);
    } else {
      assert more[0] == items[0] && more[1..] == items[1..][i - 1 := Todo(x, b)];
      match items[0]
      case Done =>
        SeparateTail(items, env, 0);
        ReplaceItem(items[1..], i - 1, x, a, b, env, m);
      case Todo(y, t) =>
        var (m1, v) := RunTask(t, env, m);
        SeparateTail(items, env, v);
        forall e: Env, n: Mem | Extends(e, env[y := v]) ensures RunTask(a, e, n) == RunTask(b, e, n) {
          ExtendsDown(e, env, y, v);
        }
        ReplaceItem(items[1..], i - 1, x, a, b, env[y := v], m1);
    }
  }

  lemma ExtendsDown(e: Env, env: Env, y: Pid, v: Val)
    requires y !in env && Extends(e, env[y := v])
    ensures Extends(e, env)
  {
  }

  // ----- fork -----

  ghost predicate ItemsFree(items: seq<Item>, y: Pid) {
    forall i | 0 <= i < |items| && items[i].Todo? :: items[i].pid != y && ForkFree(items[i].task, y)
  }

  lemma {:induction false} EnvFreeItems(items: seq<Item>, e: Env, f: Env, y: Pid, m: Mem)
    requires ItemsFree(items, y) && SameExcept(e, f, y)
    ensures EvalItems(items, e, m).0 == EvalItems(items, f, m).0
    ensures SameExcept(EvalItems(items, e, m).1, EvalItems(items, f, m).1, y)
    decreases |items|
  {
    if items != [] {
      assert ItemsFree(items[1..], y);
      match items[0]
      case Done => EnvFreeItems(items[1..], e, f, y, m);
      case Todo(x, t) =>
        EnvFree(t, e, f, y, m);
        var (m1, v) := RunTask(t, e, m);
        EnvFreeItems(items[1..], e[x := v], f[x := v], y, m1);
    }
  }

  ghost function ForkItems(items: seq<Item>, i: nat, y: Pid): seq<Item>
    requires i < |items| && items[i].Todo? && items[i].task.code.Spawn?
  {
    var t := items[i].task;
    items[..i] + [Todo(y, Task(t.code.child, t.kids, [])),
                  Todo(items[i].pid, Task(t.code.rest, t.kids + [Forked(y)], t.stack))] + items[i + 1..]
  }

  lemma {:induction false} ForkMeaning(items: seq<Item>, i: nat, y: Pid, env: Env, m: Mem)
    requires i < |items| && items[i].Todo? && items[i].task.code.Spawn? && ItemsFree(items, y)
    ensures EvalItems(items, env, m).0 == EvalItems(ForkItems(items, i, y), env, m).0
    ensures SameExcept(EvalItems(items, env, m).1, EvalItems(ForkItems(items, i, y), env, m).1, y)
    decreases i
  {
    var more := ForkItems(items, i, y);
    assert ItemsFree(items[1..], y);
    if i == 0 {
      var t, x := items[0].task, items[0].pid;
      MeaningFork(t, env, m, y);
      var (m1, v1) := RunTask(Task(t.code.child, t.kids, []), env, m);
      var (m2, v2) := RunTask(t, env, m);
      assert more[1..][1..] == items[1..];
      EnvFreeItems(items[1..], env[x := v2], env[y := v1][x := v2], y, m2);
    } else {
      assert more[0] == items[0] && more[1..] == ForkItems(items[1..], i - 1, y);
      match items[0]
      case Done => ForkMeaning(items[1..], i - 1, y, env, m);
      case Todo(x, t) =>
        var (m1, v) := RunTask(t, env, m);
        ForkMeaning(items[1..], i - 1, y, env[x := v], m1);
    }
  }

  // ----- the serial meaning of a state -----

  /** The work process x has left: a transaction that has not committed starts over. */
  ghost function Rest(p: Proc): Task {
    if InTxn(p.phase) then p.saved else p.task
  }

  ghost function ItemOf(s: Sys, x: Pid): Item {
    if x in s.unlatched || x !in s.procs then Done else Todo(x, Rest(s.procs[x]))
  }

  ghost function Items(s: Sys): seq<Item> {
    seq(|s.order|, i requires 0 <= i < |s.order| => ItemOf(s, s.order[i]))
  }

  /** Results of the processes that have exited. */
  ghost function Finished(s: Sys): Env {
    map q | q in s.unlatched && q in s.retval :: s.retval[q]
  }

  /** Where the committed store and the remaining work lead: the final store and the
      value main returns. */
  ghost function Outcome(s: Sys): (Mem, Val) {
    var (m, e) := EvalItems(Items(s), Finished(s), Committed(s));
    (m, KidVal(Forked(ROOT), e))
  }

  /** A process publishes its result before it exits. */
  ghost predicate Results(s: Sys) {
    forall x | x in s.procs && (s.procs[x].phase == ExitWait || s.procs[x].phase.Posting?) ::
      x in s.retval && s.procs[x].task.code.Ret? && s.retval[x] == s.procs[x].task.code.v
  }

  ghost predicate Inv(s: Sys) {
    OrderInv(s) && TxInv(s) && Results(s)
  }

  lemma ItemsSeparate(s: Sys)
    requires Listed(s)
    ensures Separate(Items(s), Finished(s))
  {
    var items := Items(s);
    forall i, j | 0 <= i < j < |items| && items[i].Todo? && items[j].Todo?
      ensures items[i].pid != items[j].pid
    {
      assert s.order[i] != s.order[j];
    }
  }

  /** Everything before a process whose predecessors have all exited is done. */
  lemma DoneBefore(s: Sys, i: nat)
    requires i < |s.order| && Exited(s.order[..i], s.unlatched)
    ensures AllDone(Items(s)[..i])
  {
    forall j | 0 <= j < i ensures Items(s)[..i][j].Done? {
      assert s.order[..i][j] in s.unlatched;
    }
  }

  /** A step that gives x equivalent work keeps the outcome. */
  lemma SameWork(s: Sys, x: Pid, q: Proc, t: Sys, i: nat)
    requires Listed(s) && i < |s.order| && s.order[i] == x && x in s.procs && x !in s.unlatched
    requires t.order == s.order && t.procs == s.procs[x := q] && t.unlatched == s.unlatched
    requires Finished(t) == Finished(s) && Committed(t) == Committed(s)
    requires Equivalent(Rest(s.procs[x]), Rest(q), Finished(s))
    ensures Outcome(t) == Outcome(s)
  {
    ItemsSeparate(s);
    ItemsChange(s, x, q, t, i);
    ReplaceItem(Items(s), i, x, Rest(s.procs[x]), Rest(q), Finished(s), Committed(s));
  }

  lemma ItemsChange(s: Sys, x: Pid, q: Proc, t: Sys, i: nat)
    requires Listed(s) && i < |s.order| && s.order[i] == x && x in s.procs && x !in s.unlatched
    requires t.order == s.order && t.procs == s.procs[x := q] && t.unlatched == s.unlatched
    ensures Items(s)[i] == Todo(x, Rest(s.procs[x]))
    ensures Items(t) == Items(s)[i := Todo(x, Rest(q))]
  {
    hide Rest;
    forall j | 0 <= j < |s.order| ensures Items(t)[j] == Items(s)[i := Todo(x, Rest(q))][j] {
      if j != i { assert s.order[j] != x; }
    }
  }

  lemma SameTask(a: Task, b: Task, env: Env)
    requires a == b
    ensures Equivalent(a, b, env)
  {
  }

  // ----- private moves -----

  lemma NopEquivalent(p: Proc, q: Proc, mem: Mem, ver: Versions, pending: set<nat>, abs: Mem, env: Env)
    requires EndMove(p, q) && Nop(p.tx) && TxOk(p, mem, ver, pending, abs)
    ensures Equivalent(Rest(p), Rest(q), env)
  {
    assert Clean(p, ver, pending) && Replay(p, abs) && p.tx.cow == map[] && p.tx.read == {};
    hide TxOk;
    EmptyReplay(p, abs, env);
  }

  /** A transaction that has touched nothing means the same with or without its prefix. */
  lemma EmptyReplay(p: Proc, abs: Mem, env: Env)
    requires Replay(p, abs) && p.tx.cow == map[] && p.tx.read == {}
    ensures Equivalent(p.saved, p.task, env)
  {
    forall e: Env, m: Mem | Extends(e, env) ensures RunTask(p.saved, e, m) == RunTask(p.task, e, m) {
      OverlayNone(m, p.tx.cow, p.tx.cow.Keys);
      assert AgreeOn(m, abs, p.tx.read);
    }
  }

  lemma JoinEquivalent(p: Proc, retval: map<Pid, Val>, q: Proc, env: Env)
    requires p.phase == Join && WaitOver(p, retval, q) && SyncsForked(p.task)
    requires var c := p.task.kids[p.task.code.kid].pid; c in retval && c in env && env[c] == retval[c]
    ensures Equivalent(Rest(p), Rest(q), env)
  {
    var c := p.task.kids[p.task.code.kid].pid;
    forall e: Env, m: Mem | Extends(e, env) ensures RunTask(p.task, e, m) == RunTask(q.task, e, m) {
      MeaningSync(p.task, e, m);
      assert c in e && e[c] == retval[c];
    }
  }

  /** Moves that are not a null commit, a join or a commit point leave the work alone. */
  lemma PlainRest(s: Sys, p: Proc, q: Proc)
    requires Private(s, p, q) && (p.phase.Commit? || !q.phase.Commit?)
    requires !(EndMove(p, q) && Nop(p.tx)) && !(p.phase == Join && q.phase != Join)
    ensures Rest(q) == Rest(p)
  {
  }

  lemma PrivateKind(s: Sys, p: Proc, q: Proc)
    requires Private(s, p, q) && p.phase == Join && q.phase != Join
    ensures WaitOver(p, s.retval, q) && SyncsForked(p.task) && Released(Target(p), s.unlatched)
    ensures p.task.kids[p.task.code.kid].pid in s.unlatched
  {
  }

  lemma FinishedHas(s: Sys, c: Pid)
    requires OrderInv(s) && Results(s) && c in s.unlatched
    ensures c in s.retval && c in Finished(s) && Finished(s)[c] == s.retval[c]
  {
    var i := At(s, c);
  }

  lemma PrivateWork(s: Sys, x: Pid, q: Proc)
    requires OrderInv(s) && TxInv(s) && Results(s) && x in s.procs && Private(s, s.procs[x], q)
    requires s.procs[x].phase.Commit? || !q.phase.Commit?
    ensures Equivalent(Rest(s.procs[x]), Rest(q), Finished(s))
  {
    var p := s.procs[x];
    hide OrderInv, TxInv, Results, Private, Rest, Finished, WaitOver, Equivalent, TxOk;
    if EndMove(p, q) && Nop(p.tx) {
      OneOk(s, x);
      NopEquivalent(p, q, s.mem, s.ver, Pending(s), Committed(s), Finished(s));
    } else if p.phase == Join && q.phase != Join {
      PrivateKind(s, p, q);
      FinishedHas(s, p.task.kids[p.task.code.kid].pid);
      JoinEquivalent(p, s.retval, q, Finished(s));
    } else {
      PlainRest(s, p, q);
      SameTask(Rest(p), Rest(q), Finished(s));
    }
  }

  lemma NotExited(s: Sys, x: Pid)
    requires OrderInv(s) && x in s.procs && !s.procs[x].phase.Posting?
    ensures x !in s.unlatched
  {
    var i := At(s, x);
  }

  lemma FinishedSame(s: Sys, t: Sys)
    requires t.unlatched == s.unlatched
    requires forall q | q in s.unlatched :: (q in t.retval <==> q in s.retval) && (q in s.retval ==> t.retval[q] == s.retval[q])
    ensures Finished(t) == Finished(s)
  {
  }

  lemma PrivateAlive(s: Sys, p: Proc, q: Proc)
    requires Private(s, p, q)
    ensures !p.phase.Posting?
  {
  }

  lemma PrivateResults(s: Sys, x: Pid, q: Proc, t: Sys)
    requires Results(s) && x in s.procs && Private(s, s.procs[x], q) && t == s.Put(x, q)
    ensures Results(t)
  {
    PrivateLast(s, s.procs[x], q);
    hide Private;
  }

  lemma PrivateLast(s: Sys, p: Proc, q: Proc)
    requires Private(s, p, q)
    ensures q.phase == ExitWait || q.phase.Posting? ==> q.task == p.task && q.phase == p.phase
  {
    PrivateKinds(s, p, q);
    hide Private;
  }

  lemma PrivateOutcome(s: Sys, x: Pid, q: Proc, t: Sys)
    requires Inv(s) && Inv(t) && Disciplined(s)
    requires x in s.procs && Private(s, s.procs[x], q) && t == s.Put(x, q)
    requires s.procs[x].phase.Commit? || !q.phase.Commit?
    ensures Outcome(t) == Outcome(s)
  {
    hide *;
    InvParts(s);
    InvParts(t);
    var i := At(s, x);
    Facts(s);
    PutView(s, x, q, t);
    PrivateAlive(s, s.procs[x], q);
    NotExited(s, x);
    PrivateKeepsTx(s, x, q, t);
    PrivateWork(s, x, q);
    FinishedSame(s, t);
    SameWork(s, x, q, t, i);
  }

  lemma InvParts(s: Sys)
    requires Inv(s)
    ensures OrderInv(s) && TxInv(s) && Results(s) && Listed(s)
  {
  }

  // ----- the commit point -----

  lemma OverlayAll(mem: Mem, cow: map<nat, PageData>, dirtied: set<nat>)
    requires cow.Keys <= dirtied
    ensures Overlay(mem, cow, dirtied) == Overlay(mem, cow, cow.Keys)
  {
    var a, b := Overlay(mem, cow, dirtied), Overlay(mem, cow, cow.Keys);
    assert forall z: nat :: a[z] == b[z];
  }

  /** The first process with work left moves from store m and task a to store n and
      task b, and nothing else changes. */
  lemma FirstMoves(s: Sys, x: Pid, q: Proc, t: Sys, i: nat)
    requires Listed(s) && i < |s.order| && s.order[i] == x && x in s.procs && x !in s.unlatched
    requires t.order == s.order && t.procs == s.procs[x := q] && t.unlatched == s.unlatched
    requires Finished(t) == Finished(s) && Exited(s.order[..i], s.unlatched)
    requires RunTask(Rest(s.procs[x]), Finished(s), Committed(s)) == RunTask(Rest(q), Finished(s), Committed(t))
    ensures Outcome(t) == Outcome(s)
  {
    ItemsChange(s, x, q, t, i);
    DoneBefore(s, i);
    DoneBefore(t, i);
    SkipDone(Items(s), i, Finished(s), Committed(s));
    SkipDone(Items(t), i, Finished(t), Committed(t));
    assert Items(s)[i..][1..] == Items(t)[i..][1..];
    hide Rest, Items, Finished, Committed, RunTask, Exited;
  }

  lemma CommitOutcome(s: Sys, x: Pid, q: Proc, t: Sys)
    requires Inv(s) && Inv(t)
    requires x in s.procs && Private(s, s.procs[x], q) && t == s.Put(x, q)
    requires !s.procs[x].phase.Commit? && q.phase.Commit?
    ensures Outcome(t) == Outcome(s)
  {
    hide *;
    InvParts(s);
    InvParts(t);
    var i := At(s, x);
    Facts(s);
    PutView(s, x, q, t);
    PrivateAlive(s, s.procs[x], q);
    NotExited(s, x);
    CommitPoint(s, x, q, t);
    OverlayAll(s.mem, q.tx.cow, q.tx.dirtied);
    var page := CommitKind(s, s.procs[x], q);
    CheckFirst(s.procs[x], x, s.order[..i], s.unlatched);
    CommitRest(s.procs[x], q, s.mem, Finished(s));
    FinishedSame(s, t);
    FirstMoves(s, x, q, t, i);
  }

  lemma CheckFirst(p: Proc, x: Pid, pre: seq<Pid>, u: set<Pid>)
    requires p.phase.Check? && Behind(p, x, pre, u)
    ensures Exited(pre, u)
  {
  }

  lemma CommitRest(p: Proc, q: Proc, mem: Mem, env: Env)
    requires p.phase == Check(ForEnd, {}) && q == p.(phase := Commit(q.tx.dirtied, Idle, {})) && Replay(p, mem)
    ensures RunTask(Rest(p), env, mem) == RunTask(Rest(q), env, Overlay(mem, q.tx.cow, q.tx.cow.Keys))
  {
    assert AgreeOn(mem, mem, p.tx.read);
  }

  // ----- locks, publication, results, posts -----

  lemma LockRest(p: Proc, heapLock: Option<Pid>, globLock: Option<Pid>)
    requires MayLock(p, heapLock, globLock)
    ensures Rest(LockNext(p)) == Rest(p) || (p.phase == Unlock2(ForIo, true) && Rest(LockNext(p)) == Rest(p))
    ensures !p.phase.Posting? && !LockNext(p).phase.Posting? && LockNext(p).phase != ExitWait
  {
  }

  lemma LockOutcome(s: Sys, x: Pid, t: Sys)
    requires Inv(s) && Inv(t) && x in s.procs && StepLock(s, x, t)
    ensures Outcome(t) == Outcome(s)
  {
    hide *;
    InvParts(s);
    InvParts(t);
    var i := At(s, x);
    LockSame(s, x, t);
    LockView(s, x, t);
    LockRest(s.procs[x], s.heapLock, s.globLock);
    NotExited(s, x);
    LockKeepsTx(s, x, t);
    SharedSame(s, x, t);
    FinishedSame(s, t);
    SameTask(Rest(s.procs[x]), Rest(LockNext(s.procs[x])), Finished(s));
    SameWork(s, x, LockNext(s.procs[x]), t, i);
  }

  lemma SharedSame(s: Sys, x: Pid, t: Sys)
    requires x in s.procs && (StepLock(s, x, t) || StepPublish(s, x, t))
    ensures t.order == s.order && t.unlatched == s.unlatched && t.retval == s.retval
  {
    hide LockNext, MayLock, PublishNext, CopyWord, BumpVersion;
  }

  lemma PublishOutcome(s: Sys, x: Pid, t: Sys)
    requires Inv(s) && Inv(t) && x in s.procs && StepPublish(s, x, t)
    ensures Outcome(t) == Outcome(s)
  {
    hide *;
    InvParts(s);
    InvParts(t);
    var i := At(s, x);
    PublishView(s, x, t);
    NotExited(s, x);
    PublishKeepsTx(s, x, t);
    SharedSame(s, x, t);
    FinishedSame(s, t);
    PublishRest(s.procs[x]);
    SameTask(Rest(s.procs[x]), Rest(PublishNext(s.procs[x])), Finished(s));
    SameWork(s, x, PublishNext(s.procs[x]), t, i);
  }

  lemma PublishRest(p: Proc)
    requires Publishing(p.phase)
    ensures Rest(PublishNext(p)) == Rest(p)
  {
  }

  lemma FinishOutcome(s: Sys, x: Pid, t: Sys)
    requires Inv(s) && Inv(t) && x in s.procs && StepFinish(s, x, t)
    ensures Outcome(t) == Outcome(s)
  {
    hide *;
    InvParts(s);
    InvParts(t);
    var i := At(s, x);
    var q := s.procs[x].(phase := ExitWait);
    FinishView(s, x, q, t);
    NotExited(s, x);
    EndKeepsTx(s, x, q, t);
    EndView(s, x, q, t);
    FinishedSame(s, t);
    FinishRest(s.procs[x], q);
    SameTask(Rest(s.procs[x]), Rest(q), Finished(s));
    SameWork(s, x, q, t, i);
  }

  lemma FinishView(s: Sys, x: Pid, q: Proc, t: Sys)
    requires x in s.procs && StepFinish(s, x, t) && q == s.procs[x].(phase := ExitWait)
    ensures EndStep(s, x, q, t) && t.order == s.order && t.unlatched == s.unlatched
    ensures s.procs[x].phase == Ended && forall z | z != x :: (z in t.retval <==> z in s.retval) && (z in s.retval ==> t.retval[z] == s.retval[z])
  {
  }

  lemma FinishRest(p: Proc, q: Proc)
    requires p.phase == Ended && q == p.(phase := ExitWait)
    ensures Rest(q) == Rest(p)
  {
  }

  lemma PostOutcome(s: Sys, x: Pid, t: Sys)
    requires Inv(s) && Inv(t) && x in s.procs && StepPost(s, x, t)
    ensures Outcome(t) == Outcome(s)
  {
    hide *;
    InvParts(s);
    InvParts(t);
    var q := PostView(s, x, t);
    EndKeepsTx(s, x, q, t);
    EndView(s, x, q, t);
    var i := At(s, x);
    Departed(s.procs[x], x, s.order[..i], s.unlatched);
    FinishedSame(s, t);
    PostItems(s, x, q, t);
    SameItems(s, t);
  }

  lemma Departed(p: Proc, x: Pid, pre: seq<Pid>, u: set<Pid>)
    requires Behind(p, x, pre, u) && p.phase.Posting?
    ensures x in u
  {
  }

  lemma PostView(s: Sys, x: Pid, t: Sys) returns (q: Proc)
    requires x in s.procs && StepPost(s, x, t)
    ensures EndStep(s, x, q, t) && t.order == s.order && t.unlatched == s.unlatched && t.retval == s.retval
    ensures s.procs[x].phase.Posting?
  {
    q := s.procs[x].(phase := Posting(s.procs[x].phase.left - 1));
  }

  lemma PostItems(s: Sys, x: Pid, q: Proc, t: Sys)
    requires x in s.unlatched && x in s.procs && t.procs == s.procs[x := q]
    requires t.order == s.order && t.unlatched == s.unlatched
    ensures Items(t) == Items(s)
  {
    hide Rest;
  }

  lemma SameItems(s: Sys, t: Sys)
    requires Items(t) == Items(s) && Finished(t) == Finished(s) && Committed(t) == Committed(s)
    ensures Outcome(t) == Outcome(s)
  {
    hide Items, Finished, Committed;
  }

  // ----- exit and wake -----

  /** The first process with work left only has its result to hand over. */
  lemma ExitItems(s: Sys, x: Pid, t: Sys, i: nat)
    requires Listed(s) && i < |s.order| && s.order[i] == x && x in s.procs && x !in s.unlatched
    requires t.order == s.order && t.unlatched == s.unlatched + {x} && t.retval == s.retval
    requires forall z | z in s.procs && z != x :: z in t.procs && t.procs[z] == s.procs[z]
    requires Exited(s.order[..i], s.unlatched) && Committed(t) == Committed(s)
    requires x in s.retval && s.procs[x].phase == ExitWait
    requires s.procs[x].task.code == Ret(s.retval[x]) && s.procs[x].task.stack == []
    ensures Outcome(t) == Outcome(s)
  {
    hide *;
    ItemsLength(s);
    ItemsLength(t);
    ExitTail(s, x, t, i);
    ExitedOne(s, x, t, i);
    ExitHead(Items(s), Items(t), i, x, s.procs[x].task, Finished(s), Finished(t), Committed(s), s.retval[x]);
    OutcomeOf(s, t);
  }

  lemma OutcomeOf(s: Sys, t: Sys)
    requires EvalItems(Items(s), Finished(s), Committed(s)) == EvalItems(Items(t), Finished(t), Committed(t))
    ensures Outcome(t) == Outcome(s)
  {
  }

  lemma ExitedOne(s: Sys, x: Pid, t: Sys, i: nat)
    requires i < |s.order| && s.order[i] == x && x in s.procs && x !in s.unlatched
    requires t.order == s.order && t.unlatched == s.unlatched + {x} && t.retval == s.retval
    requires Exited(s.order[..i], s.unlatched) && x in s.retval && s.procs[x].phase == ExitWait
    ensures AllDone(Items(s)[..i]) && AllDone(Items(t)[..i])
    ensures Items(s)[i] == Todo(x, s.procs[x].task) && Items(t)[i] == Done
    ensures Finished(t) == Finished(s)[x := s.retval[x]]
  {
    ExitGrow(s.order[..i], s.unlatched, t.unlatched);
    DoneBefore(s, i);
    DoneBefore(t, i);
  }

  lemma ExitHead(a: seq<Item>, b: seq<Item>, i: nat, x: Pid, task: Task, env: Env, env': Env, m: Mem, v: Val)
    requires i < |a| == |b| && AllDone(a[..i]) && AllDone(b[..i]) && a[i + 1..] == b[i + 1..]
    requires a[i] == Todo(x, task) && b[i] == Done && task.code == Ret(v) && task.stack == []
    requires env' == env[x := v]
    ensures EvalItems(a, env, m) == EvalItems(b, env', m)
  {
    SkipDone(a, i, env, m);
    SkipDone(b, i, env', m);
    assert a[i..][0] == a[i] && a[i..][1..] == a[i + 1..];
    assert b[i..][0] == b[i] && b[i..][1..] == b[i + 1..];
    assert RunTask(task, env, m) == (m, v);
  }

  lemma ExitTail(s: Sys, x: Pid, t: Sys, i: nat)
    requires Listed(s) && i < |s.order| && s.order[i] == x
    requires t.order == s.order && t.unlatched == s.unlatched + {x}
    requires forall z | z in s.procs && z != x :: z in t.procs && t.procs[z] == s.procs[z]
    ensures Items(s)[i + 1..] == Items(t)[i + 1..]
  {
    hide Rest;
    forall j | i < j < |s.order| ensures Items(s)[j] == Items(t)[j] {
      assert s.order[j] != x && s.order[j] in s.procs;
    }
  }

  lemma ExitFacts(s: Sys, x: Pid)
    requires Inv(s) && x in s.procs && s.procs[x].phase == ExitWait
    ensures x in s.retval && s.procs[x].task.code == Ret(s.retval[x]) && s.procs[x].task.stack == []
  {
    InvParts(s);
    var i := At(s, x);
    hide OrderInv, TxInv, Behind;
  }

  lemma ExitOutcome(s: Sys, x: Pid, q: Proc, t: Sys)
    requires Inv(s) && Inv(t) && x in s.procs && EndStep(s, x, q, t) && s.procs[x].phase == ExitWait
    ensures Outcome(t) == Outcome(s)
  {
    hide *;
    InvParts(s);
    InvParts(t);
    var i := At(s, x);
    ExitFacts(s, x);
    NotExited(s, x);
    EndKeepsTx(s, x, q, t);
    EndView(s, x, q, t);
    ExitView(s, x, q, t);
    if s.procs[x].blocked.Some? {
      TokenFact(s, s.procs[x].blocked.value);
      WaitsPred(s.procs[x], s.unlatched);
    }
    ExitItems(s, x, t, i);
  }

  lemma WaitsPred(p: Proc, u: set<Pid>)
    requires Control(p) && p.phase == ExitWait && p.blocked.Some? && p.blocked.value in u
    ensures Released(p.pred, u)
  {
  }

  lemma ExitView(s: Sys, x: Pid, q: Proc, t: Sys)
    requires x in s.procs && EndStep(s, x, q, t) && s.procs[x].phase == ExitWait
    ensures t.order == s.order && t.unlatched == s.unlatched + {x} && t.retval == s.retval
    ensures s.procs[x].blocked == None ==> Released(s.procs[x].pred, s.unlatched)
    ensures s.procs[x].blocked.Some? ==> s.Tokens(s.procs[x].blocked.value) > 0
  {
  }

  lemma WakeOutcome(s: Sys, x: Pid, q: Proc, t: Sys)
    requires Inv(s) && Inv(t) && x in s.procs && StepWake(s, x, q, t) && s.procs[x].phase != ExitWait
    ensures Outcome(t) == Outcome(s)
  {
    hide *;
    InvParts(s);
    InvParts(t);
    var i := At(s, x);
    WakeView(s, x, q, t);
    NotExited(s, x);
    EndKeepsTx(s, x, q, t);
    EndView(s, x, q, t);
    FinishedSame(s, t);
    TokenFact(s, s.procs[x].blocked.value);
    WakeWork(s, x, q);
    SameWork(s, x, q, t, i);
  }

  lemma WakeView(s: Sys, x: Pid, q: Proc, t: Sys)
    requires x in s.procs && StepWake(s, x, q, t) && s.procs[x].phase != ExitWait
    ensures EndStep(s, x, q, t) && t.order == s.order && t.unlatched == s.unlatched && t.retval == s.retval
    ensures !s.procs[x].phase.Posting? && s.procs[x].blocked.Some? && s.Tokens(s.procs[x].blocked.value) > 0
    ensures WaitOver(s.procs[x], s.retval, q)
  {
  }

  lemma WakeWork(s: Sys, x: Pid, q: Proc)
    requires OrderInv(s) && Results(s) && x in s.procs && WaitOver(s.procs[x], s.retval, q)
    requires s.procs[x].phase != ExitWait && Control(s.procs[x])
    requires s.procs[x].blocked.Some? && s.procs[x].blocked.value in s.unlatched
    ensures Equivalent(Rest(s.procs[x]), Rest(q), Finished(s))
  {
    var p := s.procs[x];
    hide OrderInv, Results, Finished, Equivalent;
    if p.phase == Join {
      FinishedHas(s, p.blocked.value);
      JoinEquivalent(p, s.retval, q, Finished(s));
    } else {
      SameTask(Rest(p), Rest(q), Finished(s));
    }
  }

  // ----- fork -----

  lemma KidsFreeIn(t: Task, pre: seq<Pid>, y: Pid)
    requires TaskIn(t, pre) && y !in pre
    ensures ForkFree(t, y)
  {
  }

  lemma AllFree(s: Sys, y: Pid)
    requires OrderInv(s) && y !in s.order
    ensures ItemsFree(Items(s), y)
  {
    forall i | 0 <= i < |s.order|
      ensures Items(s)[i].Todo? ==> Items(s)[i].pid != y && ForkFree(Items(s)[i].task, y)
    {
      var x := s.order[i];
      OneFree(s, i, y);
    }
  }

  lemma OneFree(s: Sys, i: nat, y: Pid)
    requires OrderInv(s) && y !in s.order && i < |s.order| && s.order[i] in s.procs
    ensures ForkFree(Rest(s.procs[s.order[i]]), y)
  {
    var p := s.procs[s.order[i]];
    var pre := s.order[..i];
    assert Behind(p, s.order[i], pre, s.unlatched);
    KidsFreeIn(p.task, pre, y);
    KidsFreeIn(p.saved, pre, y);
    hide OrderInv, TaskIn, ForkFree, Exited;
  }

  lemma ForkedItems(s: Sys, x: Pid, y: Pid, t: Sys, i: nat)
    requires Listed(s) && x in s.procs && StepFork(s, x, y, t) && i < |s.order| && s.order[i] == x
    requires x !in s.unlatched && t.order == s.order[..i] + [y] + s.order[i..]
    ensures Items(s)[i] == Todo(x, s.procs[x].task) && s.procs[x].task.code.Spawn?
    ensures Items(t) == ForkItems(Items(s), i, y)
  {
    hide *;
    ItemsAt(s);
    ItemsAt(t);
    ForkTasks(s, x, y, t);
    ForkFrame(s, x, y, t);
    TodoItem(s, x);
    TodoItem(t, x);
    TodoItem(t, y);
    ForkItemsAt(Items(s), i, y);
    forall j | 0 <= j < |t.order| ensures Items(t)[j] == ForkItems(Items(s), i, y)[j] {
      if j != i && j != i + 1 { ItemKept(s, x, y, t, i, if j < i then j else j - 1); }
    }
  }

  lemma ItemsAt(s: Sys)
    ensures |Items(s)| == |s.order| && forall j | 0 <= j < |s.order| :: Items(s)[j] == ItemOf(s, s.order[j])
  {
  }

  lemma TodoItem(s: Sys, x: Pid)
    requires x in s.procs && x !in s.unlatched
    ensures ItemOf(s, x) == Todo(x, Rest(s.procs[x]))
  {
  }

  lemma ForkItemsAt(items: seq<Item>, i: nat, y: Pid)
    requires i < |items| && items[i].Todo? && items[i].task.code.Spawn?
    ensures |ForkItems(items, i, y)| == |items| + 1
    ensures var t := items[i].task;
            && ForkItems(items, i, y)[i] == Todo(y, Task(t.code.child, t.kids, []))
            && ForkItems(items, i, y)[i + 1] == Todo(items[i].pid, Task(t.code.rest, t.kids + [Forked(y)], t.stack))
    ensures forall j | 0 <= j <= |items| && j != i && j != i + 1 ::
              ForkItems(items, i, y)[j] == items[if j < i then j else j - 1]
  {
  }

  lemma ItemKept(s: Sys, x: Pid, y: Pid, t: Sys, i: nat, j: nat)
    requires Listed(s) && i < |s.order| && j < |s.order| && s.order[i] == x && i != j && t.unlatched == s.unlatched
    requires y !in s.order
    requires forall z | z in s.procs && z != x && z != y :: z in t.procs && t.procs[z] == s.procs[z]
    ensures ItemOf(t, s.order[j]) == ItemOf(s, s.order[j])
  {
    hide Rest;
    assert s.order[j] in s.procs && s.order[j] != y;
  }

  lemma ForkTasks(s: Sys, x: Pid, y: Pid, t: Sys)
    requires x in s.procs && StepFork(s, x, y, t)
    ensures x in t.procs && y in t.procs && x != y && y !in s.unlatched && y !in s.procs && y !in s.order
    ensures s.procs[x].task.code.Spawn? && Rest(s.procs[x]) == s.procs[x].task
    ensures var p := s.procs[x];
      Rest(t.procs[y]) == Task(p.task.code.child, p.task.kids, [])
      && Rest(t.procs[x]) == Task(p.task.code.rest, p.task.kids + [Forked(y)], p.task.stack)
  {
  }

  lemma ForkIndex(s: Sys, x: Pid, y: Pid, t: Sys) returns (i: nat)
    requires OrderInv(s) && x in s.procs && StepFork(s, x, y, t)
    ensures i < |s.order| && Items(s)[i].Todo? && Items(s)[i].task.code.Spawn?
    ensures Items(t) == ForkItems(Items(s), i, y) && y !in s.order && ItemsFree(Items(s), y)
  {
    hide *;
    i := At(s, x);
    Facts(s);
    ForkTasks(s, x, y, t);
    ForkPhase(s, x, y, t);
    NotExited(s, x);
    ForkOrder(s, x, y, t, i);
    ForkedItems(s, x, y, t, i);
    AllFree(s, y);
    ItemsLength(s);
  }

  lemma ItemsLength(s: Sys)
    ensures |Items(s)| == |s.order|
  {
  }

  lemma ForkOutcome(s: Sys, x: Pid, y: Pid, t: Sys)
    requires Inv(s) && Inv(t) && x in s.procs && StepFork(s, x, y, t)
    ensures Outcome(t) == Outcome(s)
  {
    hide *;
    InvParts(s);
    InvParts(t);
    var i := ForkIndex(s, x, y, t);
    ItemsLength(s);
    ForkPhase(s, x, y, t);
    ForkKeepsTx(s, x, y, t);
    FinishedSame(s, t);
    ForkMeaning(Items(s), i, y, Finished(s), Committed(s));
    ForkRoot(s, y, t);
  }

  lemma ForkRoot(s: Sys, y: Pid, t: Sys)
    requires Listed(s) && y !in s.order && Committed(t) == Committed(s) && Finished(t) == Finished(s)
    requires EvalItems(Items(s), Finished(s), Committed(s)).0 == EvalItems(Items(t), Finished(s), Committed(s)).0
    requires SameExcept(EvalItems(Items(s), Finished(s), Committed(s)).1, EvalItems(Items(t), Finished(s), Committed(s)).1, y)
    ensures Outcome(t) == Outcome(s)
  {
    assert s.order[|s.order| - 1] == ROOT && y != ROOT;
  }

  // ----- one step, whole runs -----

  lemma ResultsKept(s: Sys, x: Pid, q: Proc, y: Pid, t: Sys)
    requires OrderInv(s) && Results(s) && x in s.procs
    requires || (Private(s, s.procs[x], q) && t == s.Put(x, q))
             || StepLock(s, x, t) || StepPublish(s, x, t) || StepFork(s, x, y, t) || EndStep(s, x, q, t)
    ensures Results(t)
  {
    hide OrderInv, Results, Private, StepLock, StepPublish, StepFork, EndStep;
    if Private(s, s.procs[x], q) && t == s.Put(x, q) {
      PrivateResults(s, x, q, t);
    } else if StepLock(s, x, t) {
      LockSame(s, x, t);
      LockRest(s.procs[x], s.heapLock, s.globLock);
      SharedSame(s, x, t);
      OtherResults(s, x, LockNext(s.procs[x]), t);
    } else if StepPublish(s, x, t) {
      PublishView(s, x, t);
      PublishPhase(s.procs[x]);
      SharedSame(s, x, t);
      OtherResults(s, x, PublishNext(s.procs[x]), t);
    } else if StepFork(s, x, y, t) {
      ForkResults(s, x, y, t);
    } else {
      var i := At(s, x);
      EndResults(s, x, q, t);
    }
  }

  lemma OtherResults(s: Sys, x: Pid, q: Proc, t: Sys)
    requires Results(s) && x in s.procs && t.procs == s.procs[x := q] && t.retval == s.retval
    requires q.phase != ExitWait && !q.phase.Posting?
    ensures Results(t)
  {
  }

  lemma ForkResults(s: Sys, x: Pid, y: Pid, t: Sys)
    requires Results(s) && x in s.procs && StepFork(s, x, y, t)
    ensures Results(t)
  {
  }

  lemma EndResults(s: Sys, x: Pid, q: Proc, t: Sys)
    requires Results(s) && x in s.procs && EndStep(s, x, q, t)
    ensures Results(t)
  {
    EndView(s, x, q, t);
    EndLast(s, x, q, t);
    hide EndStep;
  }

  lemma EndLast(s: Sys, x: Pid, q: Proc, t: Sys)
    requires x in s.procs && EndStep(s, x, q, t)
    ensures
      || (t.retval == s.retval && (q.phase == ExitWait || q.phase.Posting? ==>
            q.task == s.procs[x].task && (s.procs[x].phase == ExitWait || s.procs[x].phase.Posting?)))
      || (q.task.code.Ret? && t.retval == s.retval[x := q.task.code.v])
  {
  }

  lemma InvIntro(s: Sys)
    requires OrderInv(s) && TxInv(s) && Results(s)
    ensures Inv(s)
  {
    hide OrderInv, TxInv, Results;
  }

  lemma StepKeepsInv(s: Sys, x: Pid, t: Sys)
    requires Inv(s) && Disciplined(s) && x in s.procs && Step(s, x, t)
    ensures Inv(t) && Outcome(t) == Outcome(s)
  {
    hide *;
    InvParts(s);
    StepKeepsTx(s, x, t);
    var q, y := StepKinds(s, x, t);
    ResultsKept(s, x, q, y, t);
    InvIntro(t);
    if Private(s, s.procs[x], q) && t == s.Put(x, q) {
      if !s.procs[x].phase.Commit? && q.phase.Commit? {
        CommitOutcome(s, x, q, t);
      } else {
        PrivateOutcome(s, x, q, t);
      }
    } else if StepLock(s, x, t) {
      LockOutcome(s, x, t);
    } else if StepPublish(s, x, t) {
      PublishOutcome(s, x, t);
    } else if StepFork(s, x, y, t) {
      ForkOutcome(s, x, y, t);
    } else if s.procs[x].phase == ExitWait {
      ExitOutcome(s, x, q, t);
    } else {
      EndOutcome(s, x, q, t);
    }
  }

  lemma EndOutcome(s: Sys, x: Pid, q: Proc, t: Sys)
    requires Inv(s) && Inv(t) && x in s.procs && EndStep(s, x, q, t) && s.procs[x].phase != ExitWait
    ensures Outcome(t) == Outcome(s)
  {
    EndSplit(s, x, q, t);
    hide *;
    if StepFinish(s, x, t) {
      FinishOutcome(s, x, t);
    } else if StepPost(s, x, t) {
      PostOutcome(s, x, t);
    } else {
      WakeOutcome(s, x, q, t);
    }
  }

  lemma EndSplit(s: Sys, x: Pid, q: Proc, t: Sys)
    requires x in s.procs && EndStep(s, x, q, t) && s.procs[x].phase != ExitWait
    ensures StepFinish(s, x, t) || StepPost(s, x, t) || StepWake(s, x, q, t)
  {
    hide StepFinish, StepPost, StepWake;
  }

  /** Initially all the work is main's, so the outcome is its serial elision. */
  lemma InitInv(s: Sys, main: Prog, m0: Mem)
    requires Init(s, main, m0)
    ensures Inv(s) && Outcome(s) == Eval(main, [], m0)
  {
    hide *;
    InitOrder(s, main, m0);
    InitTx(s, main, m0);
    InitItems(s, main, m0);
    MainMeaning(main, m0);
    InvIntro(s);
    OutcomeIs(s);
    MainValue(main, m0);
  }

  lemma OutcomeIs(s: Sys)
    ensures Outcome(s) == (EvalItems(Items(s), Finished(s), Committed(s)).0,
                           KidVal(Forked(ROOT), EvalItems(Items(s), Finished(s), Committed(s)).1))
  {
    hide EvalItems, Items, Finished, Committed;
  }

  lemma MainValue(main: Prog, m0: Mem)
    ensures KidVal(Forked(ROOT), map[ROOT := Eval(main, [], m0).1]) == Eval(main, [], m0).1
  {
    hide Eval;
  }

  lemma InitItems(s: Sys, main: Prog, m0: Mem)
    requires Init(s, main, m0)
    ensures Items(s) == [Todo(ROOT, Task(main, [], []))] && Finished(s) == map[] && Results(s)
  {
  }

  lemma MainMeaning(main: Prog, m0: Mem)
    ensures
      var (m, v) := Eval(main, [], m0);
      EvalItems([Todo(ROOT, Task(main, [], []))], map[], m0) == (m, map[ROOT := v])
  {
    var t := Task(main, [], []);
    var env: Env := map[];
    var items := [Todo(ROOT, t)];
    assert Programs.Results(t.kids, env) == [];
    assert items[1..] == [];
  }

  /** At the end no work is left: the outcome is the shared store and main's result. */
  lemma CompleteOutcome(s: Sys)
    requires Inv(s) && Complete(s)
    ensures ROOT in s.retval && Outcome(s) == (s.mem, s.retval[ROOT])
  {
    hide *;
    InvParts(s);
    AllExited(s);
    FinishedHas(s, ROOT);
    CompleteStore(s);
    CompleteItems(s);
  }

  lemma RootLast(s: Sys)
    requires OrderInv(s) && Complete(s)
    ensures |s.order| > 0 && s.order[|s.order| - 1] == ROOT && ROOT in s.unlatched
  {
    Facts(s);
    hide OrderInv, Locks;
  }

  lemma AllExited(s: Sys)
    requires OrderInv(s) && Complete(s)
    ensures ROOT in s.unlatched
    ensures forall i | 0 <= i < |s.order| :: s.order[i] in s.unlatched
  {
    hide *;
    RootLast(s);
    forall i | 0 <= i < |s.order| ensures s.order[i] in s.unlatched {
      if i < |s.order| - 1 { ExitedPrefix(s, i, |s.order| - 1); }
    }
  }

  lemma CompleteItems(s: Sys)
    requires forall i | 0 <= i < |s.order| :: s.order[i] in s.unlatched
    requires ROOT in Finished(s)
    ensures Outcome(s) == (Committed(s), Finished(s)[ROOT])
  {
    var items := Items(s);
    assert AllDone(items[..|items|]);
    SkipDone(items, |items|, Finished(s), Committed(s));
    assert items[|items|..] == [];
    hide Finished, Committed;
  }

  lemma CompleteStore(s: Sys)
    requires OrderInv(s) && (forall i | 0 <= i < |s.order| :: s.order[i] in s.unlatched)
    ensures Committed(s) == s.mem
  {
    forall y ensures !Commits(s, y) {
      if Commits(s, y) { CommitterLives(s, y); }
    }
    hide OrderInv;
    NoCommitter(s);
  }

  lemma CommitterLives(s: Sys, y: Pid)
    requires OrderInv(s) && Commits(s, y)
    ensures exists i | 0 <= i < |s.order| :: s.order[i] !in s.unlatched
  {
    var i := At(s, y);
    NotExited(s, y);
  }

  lemma {:induction false} RunInv(run: seq<Sys>, main: Prog, m0: Mem, k: nat)
    requires IsRun(run, main, m0) && k < |run|
    requires forall i | 0 <= i < k :: Disciplined(run[i])
    ensures Inv(run[k]) && Outcome(run[k]) == Eval(main, [], m0)
  {
    if k == 0 {
      InitInv(run[0], main, m0);
    } else {
      RunInv(run, main, m0, k - 1);
      var x := Mover(run, main, m0, k - 1);
      hide Inv, Outcome, Step, Disciplined;
      StepKeepsInv(run[k - 1], x, run[k]);
    }
  }

  /** Serial equivalence.  For every fork-join program and every interleaving of traps,
      reads, writes, commits, rollbacks, forks, joins and exits in which transactions
      begin with all pages protected, a complete run leaves in the shared store exactly
      what the serial elision of the program leaves there, and main returns the same
      value. */
  lemma SerialEquivalence(run: seq<Sys>, main: Prog, m0: Mem)
    requires IsRun(run, main, m0)
    requires forall i | 0 <= i < |run| - 1 :: Disciplined(run[i])
    requires Complete(run[|run| - 1])
    ensures ROOT in run[|run| - 1].retval
    ensures (run[|run| - 1].mem, run[|run| - 1].retval[ROOT]) == Eval(main, [], m0)
  {
    RunInv(run, main, m0, |run| - 1);
    CompleteOutcome(run[|run| - 1]);
  }
}
