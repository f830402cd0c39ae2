/** Fork-join programs, the paged store they run on, and their serial meaning.

    A thread function is a deterministic program whose next action may depend on every
    value it has read so far.  The serial elision of a program replaces each spawn by a
    call: that is the function `Eval`. */
module Programs {

  type Val = int
  type Pid = nat

  /** A page of 4096 bytes holds 1024 four-byte words. */
  const PAGE_WORDS: nat := 1024

  type Off = o: nat | o < PAGE_WORDS
  type PageData = d: seq<Val> | |d| == PAGE_WORDS ghost witness seq(PAGE_WORDS, _ => 0)

  ghost function ZeroPage(): PageData {
    seq(PAGE_WORDS, _ => 0)
  }

  /** A store assigns contents to every page. */
  type Mem = m: imap<nat, PageData> | forall p: nat :: p in m
    ghost witness imap p: nat :: ZeroPage()

  datatype Option<+T> = None | Some(value: T)

  /** Continuations are maps from the value received to the rest of the program; a value
      without an entry ends the thread with result 0. */
  datatype Prog =
    | Ret(v: Val)
    | Read(page: nat, off: Off, cont: imap<Val, Prog>)
    | Write(page: nat, off: Off, v: Val, rest: Prog)
    | Spawn(child: Prog, rest: Prog)
    | Sync(kid: nat, cont: imap<Val, Prog>)
    | Irrev(rest: Prog)

  ghost function Resume(cont: imap<Val, Prog>, v: Val): Prog {
    if v in cont then cont[v] else Ret(0)
  }

  ghost function Store(m: Mem, p: nat, o: Off, v: Val): Mem {
    var d: PageData := m[p][o := v];
    m[p := d]
  }

  /** The serial elision.  `res` holds the results of the threads whose handles the
      running code knows; a handle outside it is the NULL handle. */
  ghost function Eval(g: Prog, res: seq<Val>, m: Mem): (Mem, Val)
    decreases g
  {
    match g
    case Ret(v) => (m, v)
    case Read(p, o, cont) =>
      var v := m[p][o];
      if v in cont then Eval(cont[v], res, m) else (m, 0)
    case Write(p, o, v, rest) => Eval(rest, res, Store(m, p, o, v))
    case Spawn(child, rest) =>
      var (m1, v1) := Eval(child, res, m);
      Eval(rest, res + [v1], m1)
    case Sync(i, cont) =>
      var v := if i < |res| then res[i] else 0;
      if v in cont then Eval(cont[v], res, m) else (m, 0)
    case Irrev(rest) => Eval(rest, res, m)
  }

  /** A thread handle: the thread was either run as a direct call or forked. */
  datatype Kid = Inline(v: Val) | Forked(pid: Pid)

  datatype Frame = Frame(rest: Prog, kids: seq<Kid>)

  /** What is left of one process: current code, its handles, and the callers that
      directly executed spawns will return to (innermost first). */
  datatype Task = Task(code: Prog, kids: seq<Kid>, stack: seq<Frame>)

  /** Results of forked threads, by process. */
  type Env = map<Pid, Val>

  ghost function KidVal(k: Kid, env: Env): Val {
    match k
    case Inline(v) => v
    case Forked(c) => if c in env then env[c] else 0
  }

  ghost function Results(kids: seq<Kid>, env: Env): (r: seq<Val>)
    ensures |r| == |kids|
    ensures forall i | 0 <= i < |kids| :: r[i] == KidVal(kids[i], env)
  {
    seq(|kids|, i requires 0 <= i < |kids| => KidVal(kids[i], env))
  }

  ghost function Return(f: Frame, stack: seq<Frame>, v: Val): Task {
    Task(f.rest, f.kids + [Inline(v)], stack)
  }

  /** Runs a task to its end, serially. */
  ghost function RunTask(t: Task, env: Env, m: Mem): (Mem, Val)
    decreases |t.stack|
  {
    var (m1, v) := Eval(t.code, Results(t.kids, env), m);
    if t.stack == [] then (m1, v)
    else RunTask(Return(t.stack[0], t.stack[1..], v), env, m1)
  }

  /** One process as seen by the serial machine. */
  datatype Item = Done | Todo(pid: Pid, task: Task)

  /** Runs the remaining work of a list of processes one after the other. */
  ghost function EvalItems(items: seq<Item>, env: Env, m: Mem): (Mem, Env)
    decreases |items|
  {
    if items == [] then (m, env)
    else
      match items[0]
      case Done => EvalItems(items[1..], env, m)
      case Todo(x, t) =>
        var (m1, v) := RunTask(t, env, m);
        EvalItems(items[1..], env[x := v], m1)
  }

  // ----- one step of a task and the serial meaning -----

  lemma MeaningRead(t: Task, env: Env, m: Mem)
    requires t.code.Read?
    ensures RunTask(t, env, m)
         == RunTask(t.(code := Resume(t.code.cont, m[t.code.page][t.code.off])), env, m)
  {
  }

  lemma MeaningWrite(t: Task, env: Env, m: Mem)
    requires t.code.Write?
    ensures RunTask(t, env, m)
         == RunTask(t.(code := t.code.rest), env, Store(m, t.code.page, t.code.off, t.code.v))
  {
  }

  lemma MeaningIrrev(t: Task, env: Env, m: Mem)
    requires t.code.Irrev?
    ensures RunTask(t, env, m) == RunTask(t.(code := t.code.rest), env, m)
  {
  }

  /** Joining a thread whose result is known: a direct call, the NULL handle, or a
      forked thread that is recorded in the environment. */
  lemma MeaningSync(t: Task, env: Env, m: Mem)
    requires t.code.Sync?
    ensures RunTask(t, env, m)
         == RunTask(t.(code := Resume(t.code.cont,
              if t.code.kid < |t.kids| then KidVal(t.kids[t.code.kid], env) else 0)), env, m)
  {
  }

  /** Executing a spawn as a direct call pushes a frame and keeps the serial meaning. */
  lemma MeaningCall(t: Task, env: Env, m: Mem)
    requires t.code.Spawn?
    ensures RunTask(t, env, m)
         == RunTask(Task(t.code.child, t.kids, [Frame(t.code.rest, t.kids)] + t.stack), env, m)
  {
    var u := Task(t.code.child, t.kids, [Frame(t.code.rest, t.kids)] + t.stack);
    var (m1, v1) := Eval(t.code.child, Results(t.kids, env), m);
    var w := Return(u.stack[0], u.stack[1..], v1);
    assert u.stack[1..] == t.stack;
    assert Results(w.kids, env) == Results(t.kids, env) + [v1];
  }

  lemma MeaningReturn(t: Task, env: Env, m: Mem)
    requires t.code.Ret? && t.stack != []
    ensures RunTask(t, env, m) == RunTask(Return(t.stack[0], t.stack[1..], t.code.v), env, m)
  {
  }

  /** A fork splits the serial work of the parent into that of the child followed by
      that of the parent, which then knows the child's handle. */
  lemma MeaningFork(t: Task, env: Env, m: Mem, y: Pid)
    requires t.code.Spawn?
    requires ForkFree(t, y)
    ensures
      var (m1, v1) := RunTask(Task(t.code.child, t.kids, []), env, m);
      RunTask(t, env, m) == RunTask(Task(t.code.rest, t.kids + [Forked(y)], t.stack), env[y := v1], m1)
  {
    var child := Task(t.code.child, t.kids, []);
    var (m1, v1) := RunTask(child, env, m);
    var r := Task(t.code.rest, t.kids + [Forked(y)], t.stack);
    assert Results(r.kids, env[y := v1]) == Results(t.kids, env) + [v1];
    var (m2, v2) := Eval(r.code, Results(r.kids, env[y := v1]), m1);
    if t.stack != [] {
      var w := Return(t.stack[0], t.stack[1..], v2);
      EnvFree(w, env, env[y := v1], y, m2);
    }
  }

  // ----- a process identifier that a task does not mention does not matter to it -----

  ghost predicate KidsFree(kids: seq<Kid>, y: Pid) {
    forall i | 0 <= i < |kids| :: kids[i] != Forked(y)
  }

  ghost predicate ForkFree(t: Task, y: Pid) {
    && KidsFree(t.kids, y)
    && forall i | 0 <= i < |t.stack| :: KidsFree(t.stack[i].kids, y)
  }

  ghost predicate SameExcept(e: Env, f: Env, y: Pid) {
    forall c: Pid | c != y :: (c in e <==> c in f) && (c in e ==> e[c] == f[c])
  }

  lemma {:induction false} EnvFree(t: Task, e: Env, f: Env, y: Pid, m: Mem)
    requires ForkFree(t, y) && SameExcept(e, f, y)
    ensures RunTask(t, e, m) == RunTask(t, f, m)
    decreases |t.stack|
  {
    assert Results(t.kids, e) == Results(t.kids, f);
    if t.stack != [] {
      var (m1, v) := Eval(t.code, Results(t.kids, e), m);
      var w := Return(t.stack[0], t.stack[1..], v);
      assert forall i | 0 <= i < |w.stack| :: w.stack[i] == t.stack[i + 1];
      assert KidsFree(t.stack[0].kids, y);
      EnvFree(w, e, f, y, m1);
    }
  }
}
