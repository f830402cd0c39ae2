/** Latches and progress: two posts wake every process that blocks on an exit, and the
    system never deadlocks. */
module Progress {
  import opened Programs
  import opened Transactions
  import opened Protocol
  import opened OrderProof
  import opened TxnProof

  /** The processes in sem_wait on the latch of q. */
  ghost function Blocked(s: Sys, q: Pid): set<Pid> {
    set x | x in s.procs && s.procs[x].blocked == Some(q)
  }

  ghost predicate Joins(p: Proc, q: Pid) {
    p.phase == Join && Target(p) == Some(q)
  }

  /** Each handle is joined by at most one process at a time. */
  ghost predicate SingleJoin(s: Sys) {
    forall q: Pid, x, y | x in s.procs && y in s.procs && Joins(s.procs[x], q) && Joins(s.procs[y], q) :: x == y
  }

  /** Enough posts are available or still to come for everyone who is blocked. */
  ghost predicate LatchInv(s: Sys) {
    forall q | q in s.unlatched :: q in s.procs && s.procs[q].phase.Posting?
      && |Blocked(s, q)| <= s.Tokens(q) + s.procs[q].phase.left
  }

  /** Those who wait for q by the predecessor chain are one process. */
  lemma ChainWaiters(s: Sys, q: Pid, x: Pid, y: Pid)
    requires OrderInv(s) && x in s.procs && y in s.procs
    requires s.procs[x].pred == Some(q) && s.procs[y].pred == Some(q)
    ensures x == y
  {
    var i := At(s, x);
    var j := At(s, y);
    Facts(s);
    hide OrderInv, Control, Locks, Exited, TaskIn, PastWait;
    SameSuccessor(s.order, i, j, q);
  }

  lemma SameSuccessor(order: seq<Pid>, i: nat, j: nat, q: Pid)
    requires 0 < i < |order| && 0 < j < |order|
    requires order[..i][i - 1] == q && order[..j][j - 1] == q
    requires forall a, b | 0 <= a < b < |order| :: order[a] != order[b]
    ensures i == j
  {
  }

  lemma BlockedKind(s: Sys, q: Pid, x: Pid)
    requires OrderInv(s) && x in Blocked(s, q)
    ensures x in s.procs && (s.procs[x].pred == Some(q) || Joins(s.procs[x], q))
  {
    var i := At(s, x);
  }

  /** At most two processes are ever blocked on one latch: its successor in the chain and
      the one that joins it. */
  lemma AtMostTwo(s: Sys, q: Pid)
    requires OrderInv(s) && SingleJoin(s)
    ensures |Blocked(s, q)| <= 2
  {
    var all := Blocked(s, q);
    forall x | x in all ensures x in s.procs && (s.procs[x].pred == Some(q) || Joins(s.procs[x], q)) {
      BlockedKind(s, q, x);
    }
    hide Blocked, Joins, OrderInv;
    if x :| x in all && s.procs[x].pred == Some(q) {
      forall y | y in all && s.procs[y].pred == Some(q) ensures y == x { ChainWaiters(s, q, x, y); }
      Pair(s, q, all, x);
    } else {
      assert forall y | y in all :: Joins(s.procs[y], q);
      JoinersOne(s, q, all);
    }
  }

  lemma JoinersOne(s: Sys, q: Pid, some: set<Pid>)
    requires SingleJoin(s) && forall y | y in some :: y in s.procs && Joins(s.procs[y], q)
    ensures |some| <= 1
  {
    if some != {} {
      var y :| y in some;
      assert some == {y} by {
        forall z | z in some ensures z == y {}
      }
    }
  }

  lemma Pair(s: Sys, q: Pid, all: set<Pid>, x: Pid)
    requires SingleJoin(s) && x in all
    requires forall y | y in all && y != x :: y in s.procs && Joins(s.procs[y], q)
    ensures |all| <= 2
  {
    var others := all - {x};
    JoinersOne(s, q, others);
    assert all == others + {x};
  }

  // ----- the latch invariant -----

  /** Processes block only on latches that are not released. */
  lemma PrivateBlocked(s: Sys, p: Proc, q: Proc)
    requires Private(s, p, q) && Control(p)
    ensures q.blocked == p.blocked || (q.blocked.Some? && q.blocked.value !in s.unlatched) || q.blocked == None
    ensures !p.phase.Posting? && !q.phase.Posting?
  {
    PrivateKinds(s, p, q);
    hide Private;
  }

  lemma FewerBlocked(s: Sys, x: Pid, b: Option<Pid>, t: Sys, q: Pid)
    requires x in s.procs && x in t.procs && t.procs[x].blocked == b
    requires t.procs.Keys == s.procs.Keys
    requires forall z | z in s.procs && z != x :: t.procs[z].blocked == s.procs[z].blocked
    requires b != Some(q) || s.procs[x].blocked == Some(q)
    ensures Blocked(t, q) <= Blocked(s, q)
    ensures |Blocked(t, q)| <= |Blocked(s, q)|
    ensures s.procs[x].blocked == Some(q) && b != Some(q) ==> |Blocked(t, q)| < |Blocked(s, q)|
  {
    assert Blocked(t, q) <= Blocked(s, q);
    if s.procs[x].blocked == Some(q) && b != Some(q) {
      assert Blocked(t, q) <= Blocked(s, q) - {x} && x in Blocked(s, q);
      Smaller(Blocked(t, q), Blocked(s, q) - {x});
    } else {
      Smaller(Blocked(t, q), Blocked(s, q));
    }
  }

  lemma Smaller(a: set<Pid>, b: set<Pid>)
    requires a <= b
    ensures |a| <= |b|
  {
    assert b == a + (b - a);
  }

  lemma PrivateLatch(s: Sys, x: Pid, q: Proc, t: Sys)
    requires LatchInv(s) && x in s.procs && Private(s, s.procs[x], q) && Control(s.procs[x]) && t == s.Put(x, q)
    ensures LatchInv(t)
  {
    PrivateBlocked(s, s.procs[x], q);
    PutView(s, x, q, t);
    hide Private, Control, Blocked;
    forall c | c in t.unlatched
      ensures c in t.procs && t.procs[c].phase.Posting? && |Blocked(t, c)| <= t.Tokens(c) + t.procs[c].phase.left
    {
      FewerBlocked(s, x, q.blocked, t, c);
    }
  }

  lemma SharedLatch(s: Sys, x: Pid, q: Proc, t: Sys)
    requires LatchInv(s) && x in s.procs && t.procs == s.procs[x := q]
    requires t.unlatched == s.unlatched && t.tokens == s.tokens
    requires q.blocked == s.procs[x].blocked || q.blocked == None
    requires !s.procs[x].phase.Posting?
    ensures LatchInv(t)
  {
    hide Blocked;
    forall c | c in t.unlatched
      ensures c in t.procs && t.procs[c].phase.Posting? && |Blocked(t, c)| <= t.Tokens(c) + t.procs[c].phase.left
    {
      FewerBlocked(s, x, q.blocked, t, c);
    }
  }

  lemma LockBlocked(p: Proc, heapLock: Option<Pid>, globLock: Option<Pid>)
    requires MayLock(p, heapLock, globLock)
    ensures LockNext(p).blocked == p.blocked || LockNext(p).blocked == None
    ensures !p.phase.Posting?
  {
  }

  lemma PublishBlocked(p: Proc)
    requires Publishing(p.phase)
    ensures PublishNext(p).blocked == p.blocked && !p.phase.Posting?
  {
  }

  lemma ForkLatch(s: Sys, x: Pid, y: Pid, t: Sys)
    requires LatchInv(s) && x in s.procs && StepFork(s, x, y, t)
    ensures LatchInv(t)
  {
    ForkFrame(s, x, y, t);
    ForkShared(s, x, y, t);
    ForkUnblocked(s, x, y, t);
    hide StepFork;
    forall c | c in t.unlatched
      ensures c in t.procs && t.procs[c].phase.Posting? && |Blocked(t, c)| <= t.Tokens(c) + t.procs[c].phase.left
    {
      assert c in s.procs && c != x && c != y;
      assert Blocked(t, c) <= Blocked(s, c);
      Smaller(Blocked(t, c), Blocked(s, c));
    }
  }

  lemma ForkUnblocked(s: Sys, x: Pid, y: Pid, t: Sys)
    requires x in s.procs && StepFork(s, x, y, t)
    ensures x in t.procs && t.procs[x].blocked == None && y in t.procs && t.procs[y].blocked == None
    ensures y !in s.unlatched && s.procs[x].phase == Ended
  {
  }

  lemma FinishLatch(s: Sys, x: Pid, t: Sys)
    requires LatchInv(s) && x in s.procs && StepFinish(s, x, t)
    ensures LatchInv(t)
  {
    var q := s.procs[x].(phase := ExitWait);
    assert t.procs == s.procs[x := q] && t.unlatched == s.unlatched && t.tokens == s.tokens;
    hide StepFinish, LatchInv;
    SharedLatch(s, x, q, t);
  }

  lemma ExitLatch(s: Sys, x: Pid, t: Sys)
    requires OrderInv(t) && SingleJoin(t) && LatchInv(s) && x in s.procs && StepExit(s, x, t)
    ensures LatchInv(t)
  {
    var q := s.procs[x].(phase := Posting(2));
    assert t.procs == s.procs[x := q] && t.unlatched == s.unlatched + {x} && t.tokens == s.tokens;
    assert q.blocked == s.procs[x].blocked && !s.procs[x].phase.Posting?;
    hide StepExit;
    AtMostTwo(t, x);
    hide OrderInv, SingleJoin;
    ReleaseLatch(s, x, q, t);
  }

  /** x exits; nobody else changes, and at most two processes are blocked on it. */
  lemma ReleaseLatch(s: Sys, x: Pid, q: Proc, t: Sys)
    requires LatchInv(s) && x in s.procs && t.procs == s.procs[x := q] && q.phase == Posting(2)
    requires t.unlatched == s.unlatched + {x} && !s.procs[x].phase.Posting? && |Blocked(t, x)| <= 2
    requires q.blocked == s.procs[x].blocked || q.blocked == None
    requires forall c | c in s.unlatched :: t.Tokens(c) >= s.Tokens(c) - (if s.procs[x].blocked == Some(c) && q.blocked == None then 1 else 0)
    ensures LatchInv(t)
  {
    hide Blocked;
    forall c | c in t.unlatched
      ensures c in t.procs && t.procs[c].phase.Posting? && |Blocked(t, c)| <= t.Tokens(c) + t.procs[c].phase.left
    {
      if c != x { FewerBlocked(s, x, q.blocked, t, c); }
    }
  }

  lemma PostLatch(s: Sys, x: Pid, t: Sys)
    requires LatchInv(s) && x in s.procs && StepPost(s, x, t)
    ensures LatchInv(t)
  {
    var q := s.procs[x].(phase := Posting(s.procs[x].phase.left - 1));
    assert t.procs == s.procs[x := q] && t.unlatched == s.unlatched;
    assert forall z: Pid {:trigger t.Tokens(z)} :: t.Tokens(z) == if z == x then s.Tokens(z) + 1 else s.Tokens(z);
    hide StepPost, Blocked;
    forall c | c in t.unlatched
      ensures c in t.procs && t.procs[c].phase.Posting? && |Blocked(t, c)| <= t.Tokens(c) + t.procs[c].phase.left
    {
      FewerBlocked(s, x, q.blocked, t, c);
    }
  }

  lemma WakeLatchView(s: Sys, x: Pid, q: Proc, t: Sys)
    requires x in s.procs && StepWake(s, x, q, t)
    ensures t.procs == s.procs[x := q] && s.procs[x].blocked.Some? && q.blocked == None
    ensures t.unlatched == if s.procs[x].phase == ExitWait then s.unlatched + {x} else s.unlatched
    ensures s.procs[x].phase == ExitWait ==> q.phase == Posting(2)
    ensures !s.procs[x].phase.Posting?
    ensures forall z: Pid {:trigger t.Tokens(z)} ::
              t.Tokens(z) == if Some(z) == s.procs[x].blocked then s.Tokens(z) - 1 else s.Tokens(z)
  {
  }

  lemma WakeLatch(s: Sys, x: Pid, q: Proc, t: Sys)
    requires OrderInv(t) && SingleJoin(t) && LatchInv(s) && x in s.procs && StepWake(s, x, q, t)
    ensures LatchInv(t)
  {
    WakeLatchView(s, x, q, t);
    hide StepWake;
    AtMostTwo(t, x);
    hide OrderInv, SingleJoin;
    hide LatchInv, Blocked;
    if s.procs[x].phase == ExitWait {
      ReleaseLatch(s, x, q, t);
    } else {
      TakeToken(s, x, q, t);
    }
  }

  /** x takes a token and is not blocked any more. */
  lemma TakeToken(s: Sys, x: Pid, q: Proc, t: Sys)
    requires LatchInv(s) && x in s.procs && t.procs == s.procs[x := q] && t.unlatched == s.unlatched
    requires s.procs[x].blocked.Some? && q.blocked == None && !s.procs[x].phase.Posting?
    requires forall z: Pid {:trigger t.Tokens(z)} ::
               t.Tokens(z) == if Some(z) == s.procs[x].blocked then s.Tokens(z) - 1 else s.Tokens(z)
    ensures LatchInv(t)
  {
    hide Blocked;
    forall c | c in t.unlatched
      ensures c in t.procs && t.procs[c].phase.Posting? && |Blocked(t, c)| <= t.Tokens(c) + t.procs[c].phase.left
    {
      FewerBlocked(s, x, q.blocked, t, c);
    }
  }

  lemma StepKeepsLatch(s: Sys, x: Pid, t: Sys)
    requires OrderInv(s) && LatchInv(s) && SingleJoin(t) && x in s.procs && Step(s, x, t)
    ensures OrderInv(t) && LatchInv(t)
  {
    hide *;
    StepKeepsOrder(s, x, t);
    var q, y := StepKinds(s, x, t);
    var i := At(s, x);
    if Private(s, s.procs[x], q) && t == s.Put(x, q) {
      PrivateLatch(s, x, q, t);
    } else if StepLock(s, x, t) {
      LockSame(s, x, t);
      LockView(s, x, t);
      LockBlocked(s.procs[x], s.heapLock, s.globLock);
      SharedLatch(s, x, LockNext(s.procs[x]), t);
    } else if StepPublish(s, x, t) {
      PublishView(s, x, t);
      PublishQuiet(s, x, t);
      PublishBlocked(s.procs[x]);
      SharedLatch(s, x, PublishNext(s.procs[x]), t);
    } else if StepFork(s, x, y, t) {
      ForkLatch(s, x, y, t);
    } else {
      EndLatch(s, x, q, t);
    }
  }

  lemma PublishQuiet(s: Sys, x: Pid, t: Sys)
    requires x in s.procs && StepPublish(s, x, t)
    ensures t.unlatched == s.unlatched && t.tokens == s.tokens
  {
    hide PublishNext, CopyWord, BumpVersion, Copies;
  }

  lemma EndLatch(s: Sys, x: Pid, q: Proc, t: Sys)
    requires OrderInv(t) && SingleJoin(t) && LatchInv(s) && x in s.procs && EndStep(s, x, q, t)
    ensures LatchInv(t)
  {
    hide OrderInv, SingleJoin, LatchInv, StepFinish, StepExit, StepPost, StepWake;
    if StepFinish(s, x, t) {
      FinishLatch(s, x, t);
    } else if StepExit(s, x, t) {
      ExitLatch(s, x, t);
    } else if StepPost(s, x, t) {
      PostLatch(s, x, t);
    } else {
      WakeLatch(s, x, q, t);
    }
  }

  // ----- some process can always move -----

  ghost predicate CanStep(s: Sys) {
    exists t :: Steps(s, t)
  }

  lemma Moves(s: Sys, x: Pid, q: Proc)
    requires x in s.procs && Private(s, s.procs[x], q)
    ensures CanStep(s)
  {
    hide Private;
    assert StepPrivate(s, x, s.Put(x, q));
    assert Steps(s, s.Put(x, q));
  }

  lemma DoStep(s: Sys, x: Pid, t: Sys)
    requires x in s.procs && Step(s, x, t)
    ensures CanStep(s)
  {
    hide Step;
    assert Steps(s, t);
  }

  /** The first process that has not exited. */
  lemma FirstLive(s: Sys) returns (i: nat)
    requires OrderInv(s) && !Complete(s)
    ensures i < |s.order| && s.order[i] in s.procs && s.order[i] !in s.unlatched
    ensures Exited(s.order[..i], s.unlatched)
  {
    Facts(s);
    hide OrderInv, Locks, Control, Exited;
    i := FirstOutside(s.order, s.unlatched);
    ExitedBefore(s.order, i, s.unlatched);
  }

  lemma FirstOutside(order: seq<Pid>, u: set<Pid>) returns (i: nat)
    requires |order| > 0 && order[|order| - 1] !in u
    ensures i < |order| && order[i] !in u && forall j | 0 <= j < i :: order[j] in u
  {
    i := 0;
    while order[i] in u
      invariant i < |order| && forall j | 0 <= j < i :: order[j] in u
      decreases |order| - i
    {
      i := i + 1;
    }
  }

  lemma ExitedBefore(order: seq<Pid>, i: nat, u: set<Pid>)
    requires i < |order| && forall j | 0 <= j < i :: order[j] in u
    ensures Exited(order[..i], u)
  {
  }

  lemma RunMoves(p: Proc, s: Sys) returns (q: Proc)
    requires p.phase == Run || p.phase == Begin || p.phase.TrapRead?
    ensures Private(s, p, q)
  {
    var g := p.task.code;
    if p.phase == Begin {
      q := p.(phase := Run, saved := p.task, tx := BeginTx(p.tx));
    } else if p.phase.TrapRead? {
      q := p.(phase := Run, tx := RecordRead(p.tx, p.phase.page, s.ver[p.phase.page]));
    } else if (g.Read? || g.Write?) && !Allowed(g, p.tx) {
      q := if g.page !in p.tx.pages then p.(phase := TrapRead(g.page), tx := FirstTouch(p.tx, g.page))
           else p.(tx := RecordWrite(p.tx, g.page));
      assert Trap(p, g.page, q);
    } else {
      q := RunNext(p, s.mem);
    }
  }

  lemma RunNext(p: Proc, mem: Mem) returns (q: Proc)
    requires p.phase == Run
    requires p.task.code.Read? || p.task.code.Write? ==> Allowed(p.task.code, p.tx)
    ensures forall ver: Versions :: UserMove(p, mem, ver, q) || EndMove(p, q)
  {
    var g := p.task.code;
    match g
    case Read(page, off, cont) =>
      q := p.(task := p.task.(code := Resume(cont, View(p.tx, mem, page)[off])), tx := Observe(p.tx, mem, page, off));
    case Write(page, off, v, rest) =>
      q := p.(task := p.task.(code := rest), tx := WriteWord(p.tx, mem, page, off, v));
    case Spawn(_, _) => q := p.(task := Callee(p.task));
    case Irrev(_) => q := p.(phase := Wait(ForIo));
    case Ret(v) =>
      if p.task.stack != [] {
        q := p.(task := Return(p.task.stack[0], p.task.stack[1..], v));
      } else {
        q := if Nop(p.tx) then p.(phase := Ended, tx := UpdateAll(p.tx)) else p.(phase := Wait(ForEnd));
      }
    case Sync(i, cont) =>
      if SyncsForked(p.task) {
        q := if Nop(p.tx) then p.(phase := Ended, tx := UpdateAll(p.tx)) else p.(phase := Wait(ForEnd));
      } else {
        q := p.(task := p.task.(code := Resume(cont, if i < |p.task.kids| then p.task.kids[i].v else 0)));
      }
  }

  lemma CheckMoves(p: Proc, s: Sys) returns (q: Proc)
    requires p.phase.Check? || (p.phase.Commit? && p.phase.copying == Idle)
    ensures Private(s, p, q)
  {
    var page: nat := 0;
    if p.phase.Check? {
      if p.phase.todo == {} {
        q := p.(phase := if p.phase.why == ForIo then Unlock1(ForIo, true) else Commit(p.tx.dirtied, Idle, {}));
      } else {
        page :| page in p.phase.todo;
        q := p.(phase := if s.ver[page] == p.tx.local[page] then Check(p.phase.why, p.phase.todo - {page})
                         else Unlock1(p.phase.why, false));
      }
    } else if p.phase.todo != {} {
      page :| page in p.phase.todo;
      q := p.(phase := Commit(p.phase.todo, Copying(page, 0), p.phase.stale));
    } else if p.phase.stale != {} {
      page :| page in p.phase.stale;
      q := p.(phase := Commit(p.phase.todo, Idle, p.phase.stale - {page}), tx := UpdatePage(p.tx, page));
    } else {
      q := p.(phase := Unlock1(ForEnd, true));
    }
    assert CheckMove(p, s.ver, page, q);
  }

  lemma WokenMoves(p: Proc, retval: map<Pid, Val>) returns (q: Proc)
    requires p.phase.Wait? || p.phase == ExitWait || (p.phase == Join && SyncsForked(p.task))
    ensures WaitOver(p, retval, q)
  {
    match p.phase
    case Wait(why) => q := p.(phase := Lock1(why), blocked := None);
    case ExitWait => q := p.(phase := Posting(2), blocked := None);
    case Join => q := Joined(p, retval);
  }

  /** A process that waits for an exited process can go on, after a post at most. */
  lemma WaitMoves(s: Sys, x: Pid)
    requires OrderInv(s) && LatchInv(s) && x in s.procs
    requires var p := s.procs[x]; p.phase.Wait? || p.phase == ExitWait || p.phase == Join
    requires Released(Target(s.procs[x]), s.unlatched)
    ensures CanStep(s)
  {
    var p := s.procs[x];
    var i := At(s, x);
    var q := WokenMoves(p, s.retval);
    if p.blocked.Some? {
      var c := p.blocked.value;
      assert Target(p) == p.blocked && c in s.unlatched;
      assert x in Blocked(s, c) && |Blocked(s, c)| > 0;
      assert c in s.procs && s.procs[c].phase.Posting? && |Blocked(s, c)| <= s.Tokens(c) + s.procs[c].phase.left;
      hide OrderInv, LatchInv, Blocked, Control, WaitOver, Behind;
      if s.Tokens(c) > 0 {
        WakeUp(s, x, q);
      } else {
        PostUp(s, c);
      }
    } else {
      hide OrderInv, LatchInv, Control, Behind;
      GoOn(s, x, q);
    }
  }

  lemma WakeUp(s: Sys, x: Pid, q: Proc)
    requires x in s.procs && s.procs[x].blocked.Some? && s.Tokens(s.procs[x].blocked.value) > 0
    requires WaitOver(s.procs[x], s.retval, q)
    ensures CanStep(s)
  {
    var p := s.procs[x];
    var t := s.Put(x, q).(tokens := s.tokens[p.blocked.value := s.Tokens(p.blocked.value) - 1],
                          unlatched := if p.phase == ExitWait then s.unlatched + {x} else s.unlatched);
    assert StepWake(s, x, q, t);
    hide StepWake, WaitOver;
    DoStep(s, x, t);
  }

  lemma PostUp(s: Sys, c: Pid)
    requires c in s.procs && s.procs[c].phase.Posting? && s.procs[c].phase.left > 0
    ensures CanStep(s)
  {
    var p := s.procs[c];
    var t := s.Put(c, p.(phase := Posting(p.phase.left - 1))).(tokens := s.tokens[c := s.Tokens(c) + 1]);
    assert StepPost(s, c, t);
    hide StepPost;
    DoStep(s, c, t);
  }

  lemma GoOn(s: Sys, x: Pid, q: Proc)
    requires x in s.procs && WaitOver(s.procs[x], s.retval, q) && s.procs[x].blocked == None
    requires Released(Target(s.procs[x]), s.unlatched)
    ensures CanStep(s)
  {
    var p := s.procs[x];
    if p.phase == ExitWait {
      var t := s.Put(x, p.(phase := Posting(2))).(unlatched := s.unlatched + {x});
      assert StepExit(s, x, t);
      hide StepExit, WaitOver;
      DoStep(s, x, t);
    } else {
      assert Private(s, p, q);
      Moves(s, x, q);
    }
  }

  /** The locks are free for the first live process, or its own. */
  lemma LocksFree(s: Sys, x: Pid, i: nat)
    requires OrderInv(s) && i < |s.order| && s.order[i] == x && x in s.procs && x !in s.unlatched
    requires Exited(s.order[..i], s.unlatched)
    ensures s.heapLock == None || s.heapLock == Some(x)
    ensures s.globLock == None || s.globLock == Some(x)
  {
    Facts(s);
    if s.heapLock.Some? { HolderFirst(s, s.heapLock.value, i); }
    if s.globLock.Some? { HolderFirst(s, s.globLock.value, i); }
  }

  lemma HolderFirst(s: Sys, y: Pid, i: nat)
    requires OrderInv(s) && y in s.procs && (s.heapLock == Some(y) || s.globLock == Some(y))
    requires i < |s.order| && s.order[i] !in s.unlatched && Exited(s.order[..i], s.unlatched)
    ensures y == s.order[i]
  {
    var j := At(s, y);
    HolderPast(s.procs[y], y, s.order[..j], s.unlatched);
    hide OrderInv, Behind, Control, HoldsHeap, HoldsGlob, Exited;
    FirstLiveUnique(s, i, j);
  }

  lemma HolderPast(p: Proc, y: Pid, pre: seq<Pid>, u: set<Pid>)
    requires Behind(p, y, pre, u) && (HoldsHeap(p.phase) || HoldsGlob(p.phase))
    ensures Exited(pre, u) && y !in u
  {
  }

  lemma LockMoves(s: Sys, x: Pid)
    requires x in s.procs && MayLock(s.procs[x], s.heapLock, s.globLock)
    ensures CanStep(s)
  {
    var p := s.procs[x];
    var t := s.Put(x, LockNext(p)).(
      heapLock := if p.phase.Lock1? then Some(x) else if p.phase.Unlock1? then None else s.heapLock,
      globLock := if p.phase.Lock2? then Some(x) else if p.phase.Unlock2? then None else s.globLock);
    assert StepLock(s, x, t);
    hide StepLock;
    DoStep(s, x, t);
  }

  lemma PublishMoves(s: Sys, x: Pid)
    requires x in s.procs && Publishing(s.procs[x].phase)
    ensures CanStep(s)
  {
    var p := s.procs[x];
    var t := s.Put(x, PublishNext(p)).(
      mem := if Copies(p.phase) then CopyWord(p, s.mem) else s.mem,
      ver := if Copies(p.phase) then s.ver else BumpVersion(p, s.ver));
    assert StepPublish(s, x, t);
    hide StepPublish;
    DoStep(s, x, t);
  }

  lemma Bound(a: set<Pid>) returns (n: Pid)
    ensures forall z | z in a :: z < n
  {
    if a == {} {
      n := 0;
    } else {
      var y :| y in a;
      var b := a - {y};
      var k := Bound(b);
      n := if k > y then k else y + 1;
      assert forall z | z in a :: z in b || z == y;
    }
  }

  lemma FreshPid(s: Sys) returns (y: Pid)
    ensures Unused(s, y)
  {
    var all := s.procs.Keys + (set i | 0 <= i < |s.order| :: s.order[i]) + s.tokens.Keys + s.retval.Keys + s.unlatched;
    y := Bound(all);
    assert y !in all;
    assert forall i | 0 <= i < |s.order| :: s.order[i] in all;
  }

  lemma EndedMoves(s: Sys, x: Pid)
    requires x in s.procs && s.procs[x].phase == Ended && AtEnd(s.procs[x].task)
    ensures CanStep(s)
  {
    var p := s.procs[x];
    if p.task.code.Spawn? {
      var y := FreshPid(s);
      var child := Task(p.task.code.child, p.task.kids, []);
      var rest := Task(p.task.code.rest, p.task.kids + [Forked(y)], p.task.stack);
      var t := s.(order := Insert(s.order, x, y),
                  procs := s.procs[x := Fresh(Some(y), rest, p)][y := Fresh(p.pred, child, p)]);
      assert StepFork(s, x, y, t);
      hide StepFork;
      DoStep(s, x, t);
    } else if SyncsForked(p.task) {
      assert Private(s, p, p.(phase := Join));
      Moves(s, x, p.(phase := Join));
    } else {
      var t := s.Put(x, p.(phase := ExitWait)).(retval := s.retval[x := p.task.code.v]);
      assert StepFinish(s, x, t);
      hide StepFinish;
      DoStep(s, x, t);
    }
  }

  /** Everything the first live process can wait for has exited. */
  lemma TargetExited(p: Proc, x: Pid, pre: seq<Pid>, u: set<Pid>)
    requires Behind(p, x, pre, u) && Exited(pre, u)
    ensures Released(Target(p), u)
  {
    if p.phase == Join && SyncsForked(p.task) {
      assert p.task.kids[p.task.code.kid].pid in pre;
    }
  }

  lemma FirstMoves(s: Sys, x: Pid, i: nat)
    requires OrderInv(s) && LatchInv(s) && i < |s.order| && s.order[i] == x && x in s.procs
    requires x !in s.unlatched && Exited(s.order[..i], s.unlatched)
    requires Behind(s.procs[x], x, s.order[..i], s.unlatched) && Control(s.procs[x])
    requires (HoldsHeap(s.procs[x].phase) <==> s.heapLock == Some(x)) && (HoldsGlob(s.procs[x].phase) <==> s.globLock == Some(x))
    ensures CanStep(s)
  {
    hide *;
    var p := s.procs[x];
    LocksFree(s, x, i);
    LocksMine(s, x);
    EndOf(p);
    NotPosting(p, x, s.order[..i], s.unlatched);
    match p.phase
    case Lock1(_) => LockMoves(s, x);
    case Lock2(_) => LockMoves(s, x);
    case Unlock1(_, _) => LockMoves(s, x);
    case Unlock2(_, _) => LockMoves(s, x);
    case Ended => EndedMoves(s, x);
    case Posting(_) =>
    case Commit(_, copying, _) =>
      if copying.Copying? {
        PublishIntro(p);
        PublishMoves(s, x);
      } else {
        var q := CheckMoves(p, s);
        Moves(s, x, q);
      }
    case Check(_, _) =>
      var q := CheckMoves(p, s);
      Moves(s, x, q);
    case Begin =>
      var q := RunMoves(p, s);
      Moves(s, x, q);
    case Run =>
      var q := RunMoves(p, s);
      Moves(s, x, q);
    case TrapRead(_) =>
      var q := RunMoves(p, s);
      Moves(s, x, q);
    case _ =>
      TargetExited(p, x, s.order[..i], s.unlatched);
      WaitMoves(s, x);
  }

  lemma LocksMine(s: Sys, x: Pid)
    requires x in s.procs
    requires (HoldsHeap(s.procs[x].phase) <==> s.heapLock == Some(x)) && (HoldsGlob(s.procs[x].phase) <==> s.globLock == Some(x))
    requires (s.heapLock == None || s.heapLock == Some(x)) && (s.globLock == None || s.globLock == Some(x))
    ensures var ph := s.procs[x].phase; ph.Lock1? || ph.Lock2? || ph.Unlock1? || ph.Unlock2? ==>
      MayLock(s.procs[x], s.heapLock, s.globLock)
  {
  }

  lemma EndOf(p: Proc)
    requires Control(p)
    ensures p.phase == Ended ==> AtEnd(p.task)
  {
  }

  lemma NotPosting(p: Proc, x: Pid, pre: seq<Pid>, u: set<Pid>)
    requires Behind(p, x, pre, u) && x !in u
    ensures !p.phase.Posting?
  {
  }

  lemma PublishIntro(p: Proc)
    requires p.phase.Commit? && p.phase.copying.Copying?
    ensures Publishing(p.phase)
  {
  }

  lemma InitLatch(s: Sys, main: Prog, m0: Mem)
    requires Init(s, main, m0)
    ensures OrderInv(s) && LatchInv(s)
  {
    InitOrder(s, main, m0);
  }

  lemma {:induction false} RunLatch(run: seq<Sys>, main: Prog, m0: Mem, k: nat)
    requires IsRun(run, main, m0) && k < |run| && forall i | 0 <= i <= k :: SingleJoin(run[i])
    ensures OrderInv(run[k]) && LatchInv(run[k])
  {
    hide *;
    if k == 0 {
      Start(run, main, m0);
      InitLatch(run[0], main, m0);
    } else {
      RunLatch(run, main, m0, k - 1);
      var x := Mover(run, main, m0, k - 1);
      StepKeepsLatch(run[k - 1], x, run[k]);
    }
  }

  /** No lost wake-up: at every point of every run in which no two processes join the same
      thread at once, everyone blocked on the latch of an exited process has a token or a
      post to come, and no more than two processes block on one latch. */
  lemma NoLostWakeUp(run: seq<Sys>, main: Prog, m0: Mem, k: nat, q: Pid)
    requires IsRun(run, main, m0) && k < |run| && forall i | 0 <= i <= k :: SingleJoin(run[i])
    ensures |Blocked(run[k], q)| <= 2
    ensures q in run[k].unlatched ==> (
              && q in run[k].procs && run[k].procs[q].phase.Posting?
              && |Blocked(run[k], q)| <= run[k].Tokens(q) + run[k].procs[q].phase.left)
  {
    RunLatch(run, main, m0, k);
    AtMostTwo(run[k], q);
    hide Blocked, OrderInv, SingleJoin;
  }

  /** No deadlock: as long as main has not exited, some process can take a step. */
  lemma NoDeadlock(run: seq<Sys>, main: Prog, m0: Mem, k: nat)
    requires IsRun(run, main, m0) && k < |run| && forall i | 0 <= i <= k :: SingleJoin(run[i])
    requires !Complete(run[k])
    ensures exists t :: Steps(run[k], t)
  {
    RunLatch(run, main, m0, k);
    var i := FirstLive(run[k]);
    var j := At(run[k], run[k].order[i]);
    Facts(run[k]);
    hide OrderInv, LatchInv, Behind, Control, Locks;
    FirstMoves(run[k], run[k].order[i], i);
  }
}
