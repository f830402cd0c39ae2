/** The ordering protocol: the predecessor chain keeps every process behind all
    processes that precede it in the serial order. */
module OrderProof {
  import opened Programs
  import opened Transactions
  import opened Protocol

  /** Phases a process reaches only after waitPred has returned and before its next
      transaction: in all of them it may touch the shared store or its locks. */
  ghost predicate Waited(ph: Phase) {
    ph.Lock1? || ph.Lock2? || ph.Check? || ph.Commit? || ph.Unlock1? || ph.Unlock2?
  }

  ghost predicate HoldsHeap(ph: Phase) {
    ph.Lock2? || ph.Check? || ph.Commit? || ph.Unlock1?
  }

  ghost predicate HoldsGlob(ph: Phase) {
    ph.Check? || ph.Commit? || ph.Unlock1? || ph.Unlock2?
  }

  /** The validation the process is engaged in, if any. */
  ghost predicate Purpose(ph: Phase, why: Why) {
    match ph
    case Wait(w) => w == why
    case Lock1(w) => w == why
    case Lock2(w) => w == why
    case Check(w, _) => w == why
    case Commit(_, _, _) => why == ForEnd
    case Unlock1(w, _) => w == why
    case Unlock2(w, _) => w == why
    case _ => false
  }

  /** Where the code is in each phase. */
  ghost predicate Control(p: Proc) {
    && (p.phase.TrapRead? ==> Touches(p.task.code, p.phase.page))
    && (Purpose(p.phase, ForIo) ==> p.task.code.Irrev?)
    && (Purpose(p.phase, ForEnd) || p.phase == Ended ==> AtEnd(p.task))
    && (p.phase == Join ==> SyncsForked(p.task))
    && (p.phase == ExitWait || p.phase.Posting? ==> p.task.code.Ret? && p.task.stack == [])
    && (p.phase.Posting? ==> p.phase.left <= 2)
    && (p.blocked.Some? ==> Target(p) == p.blocked)
  }

  ghost predicate Exited(pre: seq<Pid>, unlatched: set<Pid>) {
    forall j | 0 <= j < |pre| :: pre[j] in unlatched
  }

  ghost predicate KidsIn(kids: seq<Kid>, pre: seq<Pid>) {
    forall k | 0 <= k < |kids| && kids[k].Forked? :: kids[k].pid in pre
  }

  ghost predicate TaskIn(t: Task, pre: seq<Pid>) {
    && KidsIn(t.kids, pre)
    && forall k | 0 <= k < |t.stack| :: KidsIn(t.stack[k].kids, pre)
  }

  ghost predicate PastWait(p: Proc) {
    Waited(p.phase) || p.rollbacks > 0 || p.irrevocable || p.phase.Posting?
  }

  /** What the protocol keeps for a process x that stands behind `pre`. */
  ghost predicate Behind(p: Proc, x: Pid, pre: seq<Pid>, unlatched: set<Pid>) {
    && (p.pred == None ==> Exited(pre, unlatched))
    && (p.pred.Some? ==> |pre| > 0 && pre[|pre| - 1] == p.pred.value)
    && (PastWait(p) ==> Exited(pre, unlatched))
    && (p.phase.Posting? <==> x in unlatched)
    && TaskIn(p.task, pre) && TaskIn(p.saved, pre)
  }

  ghost predicate Listed(s: Sys) {
    && |s.order| > 0 && s.order[|s.order| - 1] == ROOT
    && (forall i, j | 0 <= i < j < |s.order| :: s.order[i] != s.order[j])
    && (forall i | 0 <= i < |s.order| :: s.order[i] in s.procs)
    && (forall x | x in s.procs :: x in s.order)
    && (forall q | q in s.unlatched :: q in s.procs)
    && (forall q | q in s.retval :: q in s.procs)
    && (forall q: Pid {:trigger s.Tokens(q)} :: s.Tokens(q) > 0 ==> q in s.unlatched)
  }

  ghost predicate Locks(s: Sys) {
    && (s.heapLock.Some? ==> s.heapLock.value in s.procs)
    && (s.globLock.Some? ==> s.globLock.value in s.procs)
    && (forall x | x in s.procs ::
          && (HoldsHeap(s.procs[x].phase) <==> s.heapLock == Some(x))
          && (HoldsGlob(s.procs[x].phase) <==> s.globLock == Some(x)))
  }

  ghost predicate OrderInv(s: Sys) {
    && Listed(s)
    && Locks(s)
    && (forall x | x in s.procs :: Control(s.procs[x]))
    && (forall i | 0 <= i < |s.order| ::
          Behind(s.procs[s.order[i]], s.order[i], s.order[..i], s.unlatched))
  }

  // ----- consequences -----

  lemma OnePlace(s: Sys, i: nat)
    requires OrderInv(s) && i < |s.order|
    ensures s.order[i] in s.procs
    ensures Behind(s.procs[s.order[i]], s.order[i], s.order[..i], s.unlatched)
  {
    hide Control, Locks, Behind;
  }

  lemma ExitedBehind(p: Proc, x: Pid, pre: seq<Pid>, u: set<Pid>)
    requires Behind(p, x, pre, u) && (x in u || p.pred == None)
    ensures Exited(pre, u)
  {
    hide TaskIn;
  }

  lemma PredLast(p: Proc, x: Pid, pre: seq<Pid>, u: set<Pid>)
    requires Behind(p, x, pre, u) && p.pred.Some?
    ensures |pre| > 0 && pre[|pre| - 1] == p.pred.value
  {
    hide TaskIn, Exited;
  }

  /** The exited processes form a prefix of the serial order. */
  lemma ExitedPrefix(s: Sys, i: nat, j: nat)
    requires OrderInv(s) && i < j < |s.order| && s.order[j] in s.unlatched
    ensures s.order[i] in s.unlatched
  {
    hide OrderInv, Behind;
    OnePlace(s, j);
    ExitedBehind(s.procs[s.order[j]], s.order[j], s.order[..j], s.unlatched);
    assert s.order[..j][i] == s.order[i];
  }

  /** Once the predecessor of the i-th process has exited, so has everyone before it. */
  lemma PredExited(s: Sys, i: nat)
    requires OrderInv(s) && i < |s.order| && s.order[i] in s.procs
    requires s.procs[s.order[i]].pred == None || s.procs[s.order[i]].pred.value in s.unlatched
    ensures Exited(s.order[..i], s.unlatched)
  {
    hide *;
    var p := s.procs[s.order[i]];
    OnePlace(s, i);
    if p.pred == None {
      ExitedBehind(p, s.order[i], s.order[..i], s.unlatched);
    } else {
      PredLast(p, s.order[i], s.order[..i], s.unlatched);
      assert s.order[i - 1] == p.pred.value;
      OnePlace(s, i - 1);
      ExitedBehind(s.procs[s.order[i - 1]], s.order[i - 1], s.order[..i - 1], s.unlatched);
      ExitedMore(s.order, i, s.unlatched);
    }
  }

  lemma ExitedMore(order: seq<Pid>, i: nat, u: set<Pid>)
    requires 0 < i <= |order| && Exited(order[..i - 1], u) && order[i - 1] in u
    ensures Exited(order[..i], u)
  {
    assert order[..i] == order[..i - 1] + [order[i - 1]];
  }

  /** Only one live process can have all its predecessors exited. */
  lemma FirstLiveUnique(s: Sys, i: nat, j: nat)
    requires i < |s.order| && j < |s.order|
    requires Exited(s.order[..i], s.unlatched) && s.order[i] !in s.unlatched
    requires Exited(s.order[..j], s.unlatched) && s.order[j] !in s.unlatched
    ensures i == j
  {
  }

  // ----- preservation -----

  /** The list of processes is unchanged; at most x is newly marked as exited. */
  ghost predicate SameList(s: Sys, x: Pid, t: Sys) {
    && x in s.procs && t.order == s.order
    && x in t.procs && t.procs == s.procs[x := t.procs[x]]
    && (t.unlatched == s.unlatched || t.unlatched == s.unlatched + {x})
    && (t.retval == s.retval || t.retval.Keys == s.retval.Keys + {x})
  }

  lemma KeepListed(s: Sys, x: Pid, t: Sys)
    requires Listed(s) && SameList(s, x, t)
    requires forall q: Pid {:trigger t.Tokens(q)} :: t.Tokens(q) > 0 ==> q in t.unlatched
    ensures Listed(t)
  {
    assert forall y | y in t.procs :: y in s.procs;
  }

  /** A step that leaves the list alone keeps the invariant if the new state of x stands
      behind its predecessors. */
  lemma KeepOrder(s: Sys, x: Pid, t: Sys, k: nat)
    requires OrderInv(s) && SameList(s, x, t)
    requires Listed(t) && Locks(t) && Control(t.procs[x])
    requires k < |s.order| && s.order[k] == x
    requires Behind(t.procs[x], x, s.order[..k], t.unlatched)
    ensures OrderInv(t)
  {
    hide Behind, Control, Locks;
    forall i | 0 <= i < |t.order|
      ensures Behind(t.procs[t.order[i]], t.order[i], t.order[..i], t.unlatched)
    {
      var y := s.order[i];
      if i != k {
        assert y != x && y in s.procs;
        ExitMono(s.procs[y], y, s.order[..i], s.unlatched, t.unlatched);
      }
    }
  }

  lemma ExitMono(p: Proc, y: Pid, pre: seq<Pid>, u: set<Pid>, v: set<Pid>)
    requires Behind(p, y, pre, u) && u <= v && (y in v ==> y in u)
    ensures Behind(p, y, pre, v)
  {
  }

  lemma Position(s: Sys, x: Pid) returns (i: nat)
    requires Listed(s) && x in s.procs
    ensures i < |s.order| && s.order[i] == x
    ensures forall j | 0 <= j < |s.order| && s.order[j] == x :: j == i
  {
    assert x in s.order;
    i :| 0 <= i < |s.order| && s.order[i] == x;
  }

  lemma KidsInCall(t: Task, pre: seq<Pid>)
    requires TaskIn(t, pre) && t.code.Spawn?
    ensures TaskIn(Callee(t), pre)
  {
  }

  lemma KidsInReturn(t: Task, pre: seq<Pid>)
    requires TaskIn(t, pre) && t.code.Ret? && t.stack != []
    ensures TaskIn(Return(t.stack[0], t.stack[1..], t.code.v), pre)
  {
    var r := Return(t.stack[0], t.stack[1..], t.code.v);
    assert KidsIn(t.stack[0].kids, pre);
    assert forall k | 0 <= k < |r.stack| :: r.stack[k] == t.stack[k + 1];
  }

  /** Lock ownership follows the phase when only x moves. */
  lemma KeepLocks(s: Sys, x: Pid, t: Sys)
    requires Locks(s) && SameList(s, x, t) && OwnLocks(s, x, t)
    ensures Locks(t)
  {
    hide HoldsHeap, HoldsGlob;
    forall y | y in t.procs
      ensures HoldsHeap(t.procs[y].phase) <==> t.heapLock == Some(y)
      ensures HoldsGlob(t.procs[y].phase) <==> t.globLock == Some(y)
    {
      assert y in t.procs.Keys && y in s.procs;
    }
    assert x in t.procs.Keys;
  }

  /** x takes a free lock, releases its own, or leaves both alone. */
  ghost predicate OwnLocks(s: Sys, x: Pid, t: Sys)
    requires x in t.procs
  {
    && (t.heapLock == s.heapLock || (s.heapLock == None && t.heapLock == Some(x))
        || (s.heapLock == Some(x) && t.heapLock == None))
    && (t.globLock == s.globLock || (s.globLock == None && t.globLock == Some(x))
        || (s.globLock == Some(x) && t.globLock == None))
    && (HoldsHeap(t.procs[x].phase) <==> t.heapLock == Some(x))
    && (HoldsGlob(t.procs[x].phase) <==> t.globLock == Some(x))
  }

  /** A latch is posted to only after its flag is set. */
  ghost predicate TokensFrom(s: Sys, t: Sys) {
    forall q: Pid {:trigger t.Tokens(q)} :: t.Tokens(q) > 0 ==> s.Tokens(q) > 0 || q in t.unlatched
  }

  /** The step of x, seen from the other processes. */
  ghost predicate Shape(s: Sys, x: Pid, q: Proc, t: Sys) {
    && SameList(s, x, t) && t.procs[x] == q
    && OwnLocks(s, x, t) && TokensFrom(s, t)
  }

  /** Everything a step that leaves the list alone has to show. */
  lemma KeepAll(s: Sys, x: Pid, q: Proc, t: Sys, i: nat)
    requires OrderInv(s) && Shape(s, x, q, t) && i < |s.order| && s.order[i] == x
    requires Control(q) && Behind(q, x, s.order[..i], t.unlatched)
    ensures OrderInv(t)
  {
    hide Behind, Control, Locks, OwnLocks;
    assert Listed(s);
    forall q: Pid ensures t.Tokens(q) > 0 ==> q in t.unlatched {
      assert s.Tokens(q) > 0 ==> q in s.unlatched;
    }
    KeepListed(s, x, t);
    KeepLocks(s, x, t);
    KeepOrder(s, x, t, i);
  }

  // ----- private moves -----

  /** What a private move does to control, locks and order. */
  ghost predicate Tame(p: Proc, q: Proc) {
    && Control(q)
    && (HoldsHeap(p.phase) <==> HoldsHeap(q.phase))
    && (HoldsGlob(p.phase) <==> HoldsGlob(q.phase))
    && !p.phase.Posting? && !q.phase.Posting? && q.pred == p.pred
  }

  lemma UserTame(p: Proc, mem: Mem, ver: Versions, q: Proc)
    requires UserMove(p, mem, ver, q) && Control(p)
    ensures Tame(p, q)
  {
    if p.phase == Run { RunTame(p, mem, ver, q); }
  }

  lemma RunTame(p: Proc, mem: Mem, ver: Versions, q: Proc)
    requires UserMove(p, mem, ver, q) && Control(p) && p.phase == Run
    ensures Tame(p, q)
  {
  }

  lemma CheckTame(p: Proc, ver: Versions, page: nat, q: Proc)
    requires CheckMove(p, ver, page, q) && Control(p)
    ensures Tame(p, q)
  {
  }

  lemma WaitTame(p: Proc, unlatched: set<Pid>, retval: map<Pid, Val>, q: Proc)
    requires Control(p)
    requires EndMove(p, q) || JoinMove(p, q) || BlockMove(p, unlatched, q)
          || (p.phase != ExitWait && p.blocked == None && WaitOver(p, retval, q))
    ensures Tame(p, q)
  {
  }

  lemma PrivateControl(s: Sys, p: Proc, q: Proc)
    requires Private(s, p, q) && Control(p)
    ensures Tame(p, q)
  {
    hide UserMove, EndMove, JoinMove, BlockMove, WaitOver, CheckMove, Tame, Control;
    if UserMove(p, s.mem, s.ver, q) {
      UserTame(p, s.mem, s.ver, q);
    } else if page :| CheckMove(p, s.ver, page, q) {
      CheckTame(p, s.ver, page, q);
    } else {
      WaitTame(p, s.unlatched, s.retval, q);
    }
  }

  /** A process gets past its wait only when the one it waits for has exited. */
  lemma PrivatePast(s: Sys, p: Proc, q: Proc)
    requires Private(s, p, q) && PastWait(q)
    ensures PastWait(p) || p.pred == None || p.pred.value in s.unlatched
  {
  }

  lemma PrivateTask(s: Sys, p: Proc, q: Proc, pre: seq<Pid>)
    requires Private(s, p, q) && TaskIn(p.task, pre) && TaskIn(p.saved, pre)
    ensures TaskIn(q.task, pre) && TaskIn(q.saved, pre)
  {
    if p.phase == Run && p.task.code.Spawn? { KidsInCall(p.task, pre); }
    if p.phase == Run && p.task.code.Ret? && p.task.stack != [] { KidsInReturn(p.task, pre); }
  }

  lemma PrivateBehind(s: Sys, x: Pid, p: Proc, q: Proc, pre: seq<Pid>)
    requires Private(s, p, q) && Control(p) && Behind(p, x, pre, s.unlatched)
    requires Released(p.pred, s.unlatched) ==> Exited(pre, s.unlatched)
    ensures Behind(q, x, pre, s.unlatched)
  {
    PrivateControl(s, p, q);
    PrivateTask(s, p, q, pre);
    if PastWait(q) { PrivatePast(s, p, q); }
    hide Private, Exited, Control, TaskIn;
  }

  lemma PrivateShape(s: Sys, x: Pid, q: Proc, t: Sys)
    requires x in s.procs && t == s.Put(x, q) && Tame(s.procs[x], q)
    requires HoldsHeap(s.procs[x].phase) <==> s.heapLock == Some(x)
    requires HoldsGlob(s.procs[x].phase) <==> s.globLock == Some(x)
    ensures Shape(s, x, q, t) && t.unlatched == s.unlatched && Control(q)
  {
    hide HoldsHeap, HoldsGlob, Control;
    assert forall z: Pid :: t.Tokens(z) == s.Tokens(z);
  }

  lemma PrivateKeepsOrder(s: Sys, x: Pid, q: Proc, t: Sys)
    requires OrderInv(s) && x in s.procs && Private(s, s.procs[x], q) && t == s.Put(x, q)
    ensures OrderInv(t)
  {
    hide *;
    var i := At(s, x);
    PrivateControl(s, s.procs[x], q);
    PrivateShape(s, x, q, t);
    PrivateBehind(s, x, s.procs[x], q, s.order[..i]);
    KeepAll(s, x, q, t, i);
  }

  // ----- locks, publication -----

  lemma LockControl(p: Proc, heapLock: Option<Pid>, globLock: Option<Pid>)
    requires MayLock(p, heapLock, globLock) && Control(p)
    ensures Control(LockNext(p))
  {
  }

  lemma LockBehind(p: Proc, x: Pid, pre: seq<Pid>, u: set<Pid>, heapLock: Option<Pid>, globLock: Option<Pid>)
    requires MayLock(p, heapLock, globLock) && Behind(p, x, pre, u)
    ensures Behind(LockNext(p), x, pre, u)
  {
    hide Exited, KidsIn;
  }

  lemma LockSame(s: Sys, x: Pid, t: Sys)
    requires x in s.procs && StepLock(s, x, t)
    ensures SameList(s, x, t) && t.procs[x] == LockNext(s.procs[x])
    ensures t.unlatched == s.unlatched && t.tokens == s.tokens
    ensures MayLock(s.procs[x], s.heapLock, s.globLock)
  {
    hide LockNext, MayLock;
  }

  lemma LockPhases(p: Proc, heapLock: Option<Pid>, globLock: Option<Pid>)
    requires MayLock(p, heapLock, globLock)
    ensures
      var ph := LockNext(p).phase;
      match p.phase
      case Lock1(_) => ph.Lock2?
      case Lock2(_) => ph.Check?
      case Unlock1(_, _) => ph.Unlock2?
      case Unlock2(_, _) => ph == Begin || ph == Ended || ph == Run
      case _ => false
  {
  }

  lemma LockShape(s: Sys, x: Pid, t: Sys)
    requires x in s.procs && StepLock(s, x, t)
    requires HoldsHeap(s.procs[x].phase) <==> s.heapLock == Some(x)
    requires HoldsGlob(s.procs[x].phase) <==> s.globLock == Some(x)
    ensures Shape(s, x, LockNext(s.procs[x]), t) && t.unlatched == s.unlatched
    ensures MayLock(s.procs[x], s.heapLock, s.globLock)
  {
    LockSame(s, x, t);
    LockPhases(s.procs[x], s.heapLock, s.globLock);
    hide LockNext;
    assert forall z: Pid :: t.Tokens(z) == s.Tokens(z);
  }

  lemma LockKeepsOrder(s: Sys, x: Pid, t: Sys)
    requires OrderInv(s) && x in s.procs && StepLock(s, x, t)
    ensures OrderInv(t)
  {
    hide *;
    var i := At(s, x);
    var p := s.procs[x];
    LockShape(s, x, t);
    LockControl(p, s.heapLock, s.globLock);
    LockBehind(p, x, s.order[..i], s.unlatched, s.heapLock, s.globLock);
    KeepAll(s, x, LockNext(p), t, i);
  }

  lemma PublishControl(p: Proc)
    requires Publishing(p.phase) && Control(p)
    ensures Control(PublishNext(p))
  {
  }

  lemma PublishBehind(p: Proc, x: Pid, pre: seq<Pid>, u: set<Pid>)
    requires Publishing(p.phase) && Behind(p, x, pre, u)
    ensures Behind(PublishNext(p), x, pre, u)
  {
    hide Exited, TaskIn;
  }

  lemma PublishShape(s: Sys, x: Pid, t: Sys)
    requires x in s.procs && StepPublish(s, x, t)
    requires HoldsHeap(s.procs[x].phase) <==> s.heapLock == Some(x)
    requires HoldsGlob(s.procs[x].phase) <==> s.globLock == Some(x)
    ensures Publishing(s.procs[x].phase) && t.unlatched == s.unlatched
    ensures Shape(s, x, PublishNext(s.procs[x]), t)
  {
    assert PublishNext(s.procs[x]).phase.Commit?;
    hide PublishNext, CopyWord, BumpVersion;
    assert forall z: Pid :: t.Tokens(z) == s.Tokens(z);
  }

  lemma PublishKeepsOrder(s: Sys, x: Pid, t: Sys)
    requires OrderInv(s) && x in s.procs && StepPublish(s, x, t)
    ensures OrderInv(t)
  {
    hide *;
    var i := At(s, x);
    PublishShape(s, x, t);
    PublishControl(s.procs[x]);
    PublishBehind(s.procs[x], x, s.order[..i], s.unlatched);
    KeepAll(s, x, PublishNext(s.procs[x]), t, i);
  }

  // ----- finish, exit, latches -----

  /** What the invariant says about one process. */
  lemma At(s: Sys, x: Pid) returns (i: nat)
    requires OrderInv(s) && x in s.procs
    ensures i < |s.order| && s.order[i] == x
    ensures Behind(s.procs[x], x, s.order[..i], s.unlatched) && Control(s.procs[x])
    ensures HoldsHeap(s.procs[x].phase) <==> s.heapLock == Some(x)
    ensures HoldsGlob(s.procs[x].phase) <==> s.globLock == Some(x)
    ensures Released(s.procs[x].pred, s.unlatched) ==> Exited(s.order[..i], s.unlatched)
  {
    i := Position(s, x);
    assert Locks(s);
    if Released(s.procs[x].pred, s.unlatched) { PredExited(s, i); }
  }

  lemma ExitGrow(pre: seq<Pid>, u: set<Pid>, v: set<Pid>)
    requires u <= v
    ensures Exited(pre, u) ==> Exited(pre, v)
  {
  }

  /** The end of a wait, with or without blocking. */
  lemma WokenControl(p: Proc, retval: map<Pid, Val>, q: Proc)
    requires WaitOver(p, retval, q) && Control(p)
    ensures Control(q)
    ensures !HoldsHeap(p.phase) && !HoldsHeap(q.phase) && !HoldsGlob(p.phase) && !HoldsGlob(q.phase)
    ensures !p.phase.Posting? && (p.phase == ExitWait <==> q.phase.Posting?) && q.pred == p.pred
    ensures p.blocked.Some? && p.phase != Join ==> p.blocked == p.pred
    ensures PastWait(q) ==> PastWait(p) || p.phase != Join
  {
  }

  lemma WokenTask(p: Proc, retval: map<Pid, Val>, q: Proc, pre: seq<Pid>)
    requires WaitOver(p, retval, q) && TaskIn(p.task, pre) && TaskIn(p.saved, pre)
    ensures TaskIn(q.task, pre) && TaskIn(q.saved, pre)
  {
  }

  lemma WokenBehind(p: Proc, x: Pid, pre: seq<Pid>, retval: map<Pid, Val>, q: Proc, u: set<Pid>, v: set<Pid>)
    requires WaitOver(p, retval, q) && Control(p) && Behind(p, x, pre, u)
    requires v == if p.phase == ExitWait then u + {x} else u
    requires p.phase != Join ==> Exited(pre, u)
    ensures Behind(q, x, pre, v) && Control(q)
  {
    WokenControl(p, retval, q);
    WokenTask(p, retval, q, pre);
    ExitGrow(pre, u, v);
    hide WaitOver, Control, TaskIn, HoldsHeap, HoldsGlob, Exited;
  }

  lemma WakeShape(s: Sys, x: Pid, q: Proc, t: Sys)
    requires x in s.procs && StepWake(s, x, q, t) && Control(s.procs[x])
    requires HoldsHeap(s.procs[x].phase) <==> s.heapLock == Some(x)
    requires HoldsGlob(s.procs[x].phase) <==> s.globLock == Some(x)
    ensures Shape(s, x, q, t)
    ensures WaitOver(s.procs[x], s.retval, q) && s.procs[x].blocked.Some?
    ensures s.Tokens(s.procs[x].blocked.value) > 0
    ensures t.unlatched == if s.procs[x].phase == ExitWait then s.unlatched + {x} else s.unlatched
  {
    WokenControl(s.procs[x], s.retval, q);
    hide WaitOver, Control, HoldsHeap, HoldsGlob;
  }

  lemma TokenFact(s: Sys, q: Pid)
    requires OrderInv(s) && s.Tokens(q) > 0
    ensures q in s.unlatched
  {
  }

  lemma WakeKeepsOrder(s: Sys, x: Pid, q: Proc, t: Sys)
    requires OrderInv(s) && x in s.procs && StepWake(s, x, q, t)
    ensures OrderInv(t)
  {
    hide *;
    var i := At(s, x);
    WakeShape(s, x, q, t);
    TokenFact(s, s.procs[x].blocked.value);
    WokenControl(s.procs[x], s.retval, q);
    WakeRelease(s.procs[x], s.unlatched);
    WokenBehind(s.procs[x], x, s.order[..i], s.retval, q, s.unlatched, t.unlatched);
    KeepAll(s, x, q, t, i);
  }

  lemma WakeRelease(p: Proc, u: set<Pid>)
    requires p.blocked.Some? && p.blocked.value in u
    ensures p.blocked == p.pred ==> Released(p.pred, u)
  {
  }

  /** A process at the end of its thread moves to another phase of that kind. */
  lemma LastPhases(p: Proc, ph: Phase, x: Pid, pre: seq<Pid>, u: set<Pid>, v: set<Pid>)
    requires Behind(p, x, pre, u) && Control(p) && p.blocked == None
    requires p.task.code.Ret? && p.task.stack == []
    requires u <= v && (ph.Posting? <==> x in v) && (ph.Posting? ==> Exited(pre, v) && ph.left <= 2)
    requires ph == ExitWait || ph.Posting?
    ensures Behind(p.(phase := ph), x, pre, v) && Control(p.(phase := ph))
  {
    ExitGrow(pre, u, v);
    hide Exited, TaskIn;
  }

  lemma FinishBehind(s: Sys, x: Pid, t: Sys, pre: seq<Pid>)
    requires x in s.procs && StepFinish(s, x, t) && Control(s.procs[x])
    requires Behind(s.procs[x], x, pre, s.unlatched)
    ensures var q := s.procs[x].(phase := ExitWait); Behind(q, x, pre, s.unlatched) && Control(q)
  {
    LastPhases(s.procs[x], ExitWait, x, pre, s.unlatched, s.unlatched);
  }

  lemma FinishShape(s: Sys, x: Pid, t: Sys)
    requires x in s.procs && StepFinish(s, x, t)
    requires HoldsHeap(s.procs[x].phase) <==> s.heapLock == Some(x)
    requires HoldsGlob(s.procs[x].phase) <==> s.globLock == Some(x)
    ensures Shape(s, x, s.procs[x].(phase := ExitWait), t) && t.unlatched == s.unlatched
  {
    assert forall z: Pid :: t.Tokens(z) == s.Tokens(z);
  }

  lemma FinishKeepsOrder(s: Sys, x: Pid, t: Sys)
    requires OrderInv(s) && x in s.procs && StepFinish(s, x, t)
    ensures OrderInv(t)
  {
    hide *;
    var i := At(s, x);
    FinishShape(s, x, t);
    FinishBehind(s, x, t, s.order[..i]);
    KeepAll(s, x, s.procs[x].(phase := ExitWait), t, i);
  }

  lemma ExitBehind(s: Sys, x: Pid, t: Sys, pre: seq<Pid>)
    requires x in s.procs && StepExit(s, x, t) && Control(s.procs[x])
    requires Behind(s.procs[x], x, pre, s.unlatched)
    requires Released(s.procs[x].pred, s.unlatched) ==> Exited(pre, s.unlatched)
    ensures var q := s.procs[x].(phase := Posting(2)); Behind(q, x, pre, t.unlatched) && Control(q)
  {
    ExitGrow(pre, s.unlatched, t.unlatched);
    LastPhases(s.procs[x], Posting(2), x, pre, s.unlatched, t.unlatched);
    hide Behind, Control;
  }

  lemma ExitShape(s: Sys, x: Pid, t: Sys)
    requires x in s.procs && StepExit(s, x, t)
    requires HoldsHeap(s.procs[x].phase) <==> s.heapLock == Some(x)
    requires HoldsGlob(s.procs[x].phase) <==> s.globLock == Some(x)
    ensures Shape(s, x, s.procs[x].(phase := Posting(2)), t)
  {
    assert forall z: Pid :: t.Tokens(z) == s.Tokens(z);
  }

  lemma ExitKeepsOrder(s: Sys, x: Pid, t: Sys)
    requires OrderInv(s) && x in s.procs && StepExit(s, x, t)
    ensures OrderInv(t)
  {
    hide *;
    var i := At(s, x);
    ExitShape(s, x, t);
    ExitBehind(s, x, t, s.order[..i]);
    KeepAll(s, x, s.procs[x].(phase := Posting(2)), t, i);
  }

  lemma PostBehind(s: Sys, x: Pid, t: Sys, pre: seq<Pid>)
    requires x in s.procs && StepPost(s, x, t) && Control(s.procs[x])
    requires Behind(s.procs[x], x, pre, s.unlatched)
    ensures s.procs[x].phase.Posting? && s.procs[x].phase.left > 0 && x in s.unlatched
    ensures
      var q := s.procs[x].(phase := Posting(s.procs[x].phase.left - 1));
      Behind(q, x, pre, s.unlatched) && Control(q)
  {
    LastPhases(s.procs[x], Posting(s.procs[x].phase.left - 1), x, pre, s.unlatched, s.unlatched);
  }

  lemma PostShape(s: Sys, x: Pid, t: Sys)
    requires x in s.procs && StepPost(s, x, t) && x in s.unlatched
    requires HoldsHeap(s.procs[x].phase) <==> s.heapLock == Some(x)
    requires HoldsGlob(s.procs[x].phase) <==> s.globLock == Some(x)
    requires s.procs[x].phase.Posting? && s.procs[x].phase.left > 0
    ensures Shape(s, x, s.procs[x].(phase := Posting(s.procs[x].phase.left - 1)), t)
    ensures t.unlatched == s.unlatched
  {
    assert forall z: Pid :: z != x ==> t.Tokens(z) == s.Tokens(z);
  }

  lemma PostKeepsOrder(s: Sys, x: Pid, t: Sys)
    requires OrderInv(s) && x in s.procs && StepPost(s, x, t)
    ensures OrderInv(t)
  {
    hide *;
    var i := At(s, x);
    PostBehind(s, x, t, s.order[..i]);
    PostShape(s, x, t);
    KeepAll(s, x, s.procs[x].(phase := Posting(s.procs[x].phase.left - 1)), t, i);
  }

  // ----- fork -----

  lemma {:induction false} InsertAt(order: seq<Pid>, x: Pid, y: Pid, i: nat)
    requires i < |order| && order[i] == x
    requires forall j | 0 <= j < i :: order[j] != x
    ensures Insert(order, x, y) == order[..i] + [y] + order[i..]
  {
    if i == 0 {
      assert order[..0] + [y] + order[0..] == [y] + order;
    } else {
      InsertAt(order[1..], x, y, i - 1);
      assert order[1..][..i - 1] == order[1..i] && order[1..][i - 1..] == order[i..];
      assert [order[0]] + order[1..i] == order[..i];
    }
  }

  lemma KidsInMono(t: Task, pre: seq<Pid>, more: seq<Pid>)
    requires TaskIn(t, pre) && forall c :: c in pre ==> c in more
    ensures TaskIn(t, more)
  {
    forall k | 0 <= k < |t.stack| ensures KidsIn(t.stack[k].kids, more) {
      assert KidsIn(t.stack[k].kids, pre);
    }
  }

  lemma InsertedList(order: seq<Pid>, y: Pid, i: nat, more: seq<Pid>)
    requires i < |order| && y !in order && more == order[..i] + [y] + order[i..]
    requires forall a, b | 0 <= a < b < |order| :: order[a] != order[b]
    ensures more[|more| - 1] == order[|order| - 1]
    ensures forall k | 0 <= k < |more| ::
              more[k] == (if k < i then order[k] else if k == i then y else order[k - 1])
    ensures forall a, b | 0 <= a < b < |more| :: more[a] != more[b]
    ensures y in more && forall z | z in order :: z in more
  {
    assert order == order[..i] + order[i..];
    assert more[i] == y;
  }

  lemma ForkOrder(s: Sys, x: Pid, y: Pid, t: Sys, i: nat)
    requires Listed(s) && x in s.procs && StepFork(s, x, y, t)
    requires i < |s.order| && s.order[i] == x
    ensures t.order == s.order[..i] + [y] + s.order[i..]
  {
    InsertAt(s.order, x, y, i);
    hide Insert, Listed;
  }

  lemma ListedAfter(s: Sys, y: Pid, t: Sys, i: nat)
    requires Listed(s) && i < |s.order| && y !in s.order
    requires t.order == s.order[..i] + [y] + s.order[i..]
    requires y in t.procs && forall z | z in t.procs :: z in s.procs || z == y
    requires forall z | z in s.procs :: z in t.procs
    requires t.unlatched == s.unlatched && t.retval == s.retval
    requires forall q: Pid {:trigger t.Tokens(q)} :: t.Tokens(q) == s.Tokens(q)
    ensures Listed(t)
  {
    InsertedList(s.order, y, i, t.order);
    OrderInProcs(s, y, t, i);
    forall x | x in t.procs ensures x in t.order {
      assert x in s.procs || x == y;
    }
    assert t.order[|t.order| - 1] == ROOT;
    assert forall q: Pid {:trigger t.Tokens(q)} :: t.Tokens(q) > 0 ==> q in t.unlatched by {
      assert forall q: Pid {:trigger s.Tokens(q)} :: s.Tokens(q) > 0 ==> q in s.unlatched;
    }
  }

  lemma OrderInProcs(s: Sys, y: Pid, t: Sys, i: nat)
    requires forall k | 0 <= k < |s.order| :: s.order[k] in s.procs
    requires i < |s.order| && t.order == s.order[..i] + [y] + s.order[i..]
    requires y in t.procs && forall z | z in s.procs :: z in t.procs
    ensures forall k | 0 <= k < |t.order| :: t.order[k] in t.procs
  {
    forall k | 0 <= k < |t.order| ensures t.order[k] in t.procs {
      if k < i { assert s.order[k] in s.procs; } else if k > i { assert s.order[k - 1] in s.procs; }
    }
  }

  lemma ForkParts(s: Sys, x: Pid, y: Pid, t: Sys, i: nat)
    requires Listed(s) && x in s.procs && StepFork(s, x, y, t)
    requires i < |s.order| && s.order[i] == x
    ensures t.order == s.order[..i] + [y] + s.order[i..]
    ensures Listed(t)
  {
    hide *;
    ForkOrder(s, x, y, t, i);
    ForkFrame(s, x, y, t);
    ForkShared(s, x, y, t);
    ListedAfter(s, y, t, i);
  }

  lemma ForkShared(s: Sys, x: Pid, y: Pid, t: Sys)
    requires x in s.procs && StepFork(s, x, y, t)
    ensures t.unlatched == s.unlatched && t.retval == s.retval
    ensures forall q: Pid :: t.Tokens(q) == s.Tokens(q)
    ensures forall z | z in t.procs :: z in s.procs || z == y
  {
  }

  lemma ForkLocks(s: Sys, x: Pid, y: Pid, t: Sys)
    requires Locks(s) && x in s.procs && StepFork(s, x, y, t)
    ensures Locks(t)
  {
    assert y !in s.procs;
  }

  lemma ForkControl(s: Sys, x: Pid, y: Pid, t: Sys)
    requires x in s.procs && StepFork(s, x, y, t)
    requires forall z | z in s.procs :: Control(s.procs[z])
    ensures forall z | z in t.procs :: Control(t.procs[z])
  {
    assert Control(t.procs[x]) && Control(t.procs[y]);
    hide Control;
  }

  lemma ForkPair(s: Sys, x: Pid, y: Pid, t: Sys, pre: seq<Pid>)
    requires x in s.procs && StepFork(s, x, y, t) && x !in s.unlatched
    requires Behind(s.procs[x], x, pre, s.unlatched)
    ensures y in t.procs && x in t.procs
    ensures Behind(t.procs[y], y, pre, t.unlatched)
    ensures Behind(t.procs[x], x, pre + [y], t.unlatched)
  {
    var p := s.procs[x];
    assert t.procs[y] == Fresh(p.pred, Task(p.task.code.child, p.task.kids, []), p);
    KidsInMono(p.task, pre, pre + [y]);
    hide Exited;
  }

  /** Processes behind the forking one: it is still live, so they were not past their
      wait, and they keep their predecessor. */
  lemma ForkLater(z: Pid, q: Proc, order: seq<Pid>, i: nat, y: Pid, j: nat, u: set<Pid>)
    requires i + 1 < j <= |order| && order[i] !in u
    requires Behind(q, z, order[..j - 1], u)
    ensures Behind(q, z, (order[..i] + [y] + order[i..])[..j], u)
  {
    var pre := order[..j - 1];
    var more := (order[..i] + [y] + order[i..])[..j];
    assert pre[i] == order[i];
    assert !Exited(pre, u);
    assert more == order[..i] + [y] + order[i..j - 1];
    assert more[j - 1] == pre[j - 2];
    assert pre == order[..i] + order[i..j - 1];
    KidsInMono(q.task, pre, more);
    KidsInMono(q.saved, pre, more);
    hide Exited, TaskIn;
  }

  lemma ForkAt(s: Sys, x: Pid, y: Pid, t: Sys, i: nat, j: nat)
    requires i < |s.order| && s.order[i] == x && x in s.procs && j < |t.order|
    requires t.order == s.order[..i] + [y] + s.order[i..]
    requires forall k | 0 <= k < |s.order| ::
               s.order[k] in s.procs && Behind(s.procs[s.order[k]], s.order[k], s.order[..k], s.unlatched)
    requires forall k | 0 <= k < |s.order| && k != i :: s.order[k] != x && s.order[k] != y
    requires x !in s.unlatched && t.unlatched == s.unlatched && x in t.procs && y in t.procs
    requires forall z | z in s.procs && z != x && z != y :: z in t.procs && t.procs[z] == s.procs[z]
    requires Behind(t.procs[y], y, s.order[..i], t.unlatched)
    requires Behind(t.procs[x], x, s.order[..i] + [y], t.unlatched)
    ensures t.order[j] in t.procs
    ensures Behind(t.procs[t.order[j]], t.order[j], t.order[..j], t.unlatched)
  {
    hide Behind;
    if j < i {
      assert t.order[j] == s.order[j] && t.order[..j] == s.order[..j];
    } else if j == i {
      assert t.order[j] == y && t.order[..j] == s.order[..i];
    } else if j == i + 1 {
      assert t.order[j] == x && t.order[..j] == s.order[..i] + [y];
    } else {
      var z := s.order[j - 1];
      assert t.order[j] == z && z != x;
      ForkLater(z, s.procs[z], s.order, i, y, j, s.unlatched);
    }
  }

  lemma ForkFrame(s: Sys, x: Pid, y: Pid, t: Sys)
    requires x in s.procs && StepFork(s, x, y, t)
    ensures t.unlatched == s.unlatched && y !in s.order && s.procs[x].phase == Ended
    ensures x in t.procs && y in t.procs && forall z | z in s.procs :: z in t.procs
    ensures forall z | z in s.procs && z != x && z != y :: t.procs[z] == s.procs[z]
  {
  }

  lemma ForkBehind(s: Sys, x: Pid, y: Pid, t: Sys, i: nat)
    requires OrderInv(s) && x in s.procs && StepFork(s, x, y, t)
    requires i < |s.order| && s.order[i] == x && x !in s.unlatched && y !in s.order
    requires t.order == s.order[..i] + [y] + s.order[i..]
    requires y in t.procs && x in t.procs
    requires Behind(t.procs[y], y, s.order[..i], t.unlatched)
    requires Behind(t.procs[x], x, s.order[..i] + [y], t.unlatched)
    ensures forall j | 0 <= j < |t.order| ::
              t.order[j] in t.procs && Behind(t.procs[t.order[j]], t.order[j], t.order[..j], t.unlatched)
  {
    hide StepFork, Behind, Control, Locks;
    ForkFrame(s, x, y, t);
    forall j | 0 <= j < |t.order|
      ensures t.order[j] in t.procs && Behind(t.procs[t.order[j]], t.order[j], t.order[..j], t.unlatched)
    {
      ForkAt(s, x, y, t, i, j);
    }
  }

  lemma Live(s: Sys, x: Pid, i: nat)
    requires x in s.procs && s.procs[x].phase == Ended && i < |s.order|
    requires Behind(s.procs[x], x, s.order[..i], s.unlatched)
    ensures x !in s.unlatched
  {
  }

  lemma Facts(s: Sys)
    requires OrderInv(s)
    ensures Listed(s) && Locks(s) && forall z | z in s.procs :: Control(s.procs[z])
  {
  }

  lemma ForkKeepsOrder(s: Sys, x: Pid, y: Pid, t: Sys)
    requires OrderInv(s) && x in s.procs && StepFork(s, x, y, t)
    ensures OrderInv(t)
  {
    hide *;
    var i := At(s, x);
    Facts(s);
    ForkFrame(s, x, y, t);
    Live(s, x, i);
    ForkParts(s, x, y, t, i);
    ForkLocks(s, x, y, t);
    ForkControl(s, x, y, t);
    ForkPair(s, x, y, t, s.order[..i]);
    ForkBehind(s, x, y, t, i);
    Assemble(t);
  }

  lemma Assemble(t: Sys)
    requires Listed(t) && Locks(t) && forall z | z in t.procs :: Control(t.procs[z])
    requires forall j | 0 <= j < |t.order| ::
               t.order[j] in t.procs && Behind(t.procs[t.order[j]], t.order[j], t.order[..j], t.unlatched)
    ensures OrderInv(t)
  {
    hide Behind, Control, Locks;
  }

  lemma StepKeepsOrder(s: Sys, x: Pid, t: Sys)
    requires OrderInv(s) && x in s.procs && Step(s, x, t)
    ensures OrderInv(t)
  {
    hide OrderInv, Private, StepLock, StepPublish, StepFork, StepFinish, StepExit, StepPost, StepWake;
    if q :| Private(s, s.procs[x], q) && t == s.Put(x, q) {
      PrivateKeepsOrder(s, x, q, t);
    } else if StepLock(s, x, t) {
      LockKeepsOrder(s, x, t);
    } else if StepPublish(s, x, t) {
      PublishKeepsOrder(s, x, t);
    } else if y :| StepFork(s, x, y, t) {
      ForkKeepsOrder(s, x, y, t);
    } else if q :| StepWake(s, x, q, t) {
      WakeKeepsOrder(s, x, q, t);
    } else if StepFinish(s, x, t) {
      FinishKeepsOrder(s, x, t);
    } else if StepExit(s, x, t) {
      ExitKeepsOrder(s, x, t);
    } else {
      PostKeepsOrder(s, x, t);
    }
  }

  lemma InitOrder(s: Sys, main: Prog, m0: Mem)
    requires Init(s, main, m0)
    ensures OrderInv(s)
  {
  }

  /** The process that takes the k-th step of a run. */
  lemma Mover(run: seq<Sys>, main: Prog, m0: Mem, k: nat) returns (x: Pid)
    requires IsRun(run, main, m0) && k + 1 < |run|
    ensures x in run[k].procs && Step(run[k], x, run[k + 1])
  {
    hide Step, Init;
    assert Steps(run[k], run[k + 1]);
    x :| x in run[k].procs && Step(run[k], x, run[k + 1]);
  }

  lemma Start(run: seq<Sys>, main: Prog, m0: Mem)
    requires IsRun(run, main, m0)
    ensures |run| > 0 && Init(run[0], main, m0)
  {
    hide Init, Steps;
  }

  /** The ordering protocol is kept in every run, whatever transactions read and write. */
  lemma {:induction false} RunOrder(run: seq<Sys>, main: Prog, m0: Mem, k: nat)
    requires IsRun(run, main, m0) && k < |run|
    ensures OrderInv(run[k])
  {
    hide *;
    if k == 0 {
      Start(run, main, m0);
      InitOrder(run[0], main, m0);
    } else {
      RunOrder(run, main, m0, k - 1);
      var x := Mover(run, main, m0, k - 1);
      StepKeepsOrder(run[k - 1], x, run[k]);
    }
  }
}
