/** The layered contexts of worker/context.go, the provider that holds one
    (worker/base_provider.go), and the hooks that push and pop layers around an
    attempt (worker/loglimit_hook.go, worker/docker.go, worker/job.go). */
module Contexts {
  import opened Bytes
  import opened Options

  datatype CtxKey = WorkingDir | LogDir | LogFile | Volumes

  datatype Value = Str(s: Bytes) | Strs(ss: seq<Bytes>)

  type Layer = map<CtxKey, Value>

  /** The layers from the base to the top. */
  type Stack = seq<Layer>

  /** The value of a key is the one in the topmost layer that has it. */
  function TopValue(s: Stack, key: CtxKey): Option<Value> {
    if s == [] then None
    else if key in s[|s| - 1] then Some(s[|s| - 1][key])
    else TopValue(s[..|s| - 1], key)
  }

  // ---------------------------------------------------------------- contexts

  class Context {
    const parent: Context?
    var store: Layer
    ghost const repr: set<Context>
    ghost const depth: nat

    /** The chain of parents is finite and never meets itself. */
    ghost predicate Valid()
      decreases depth
    {
      && this in repr
      && (parent == null ==> repr == {this})
      && (parent != null ==>
            parent.depth < depth && repr == {this} + parent.repr && this !in parent.repr && parent.Valid())
    }

    ghost function Layers(): (s: Stack)
      requires Valid()
      reads repr
      ensures |s| >= 1 && s[|s| - 1] == store
      decreases depth
    {
      (if parent == null then [] else parent.Layers()) + [store]
    }

    constructor ()
      ensures Valid() && fresh(repr) && Layers() == [map[]] && parent == null
    {
      parent, store, repr, depth := null, map[], {this}, 0;
    }

    constructor Above(below: Context)
      requires below.Valid()
      ensures Valid() && parent == below && fresh(this) && repr == {this} + below.repr && store == map[]
    {
      parent, store, repr, depth := below, map[], {this} + below.repr, below.depth + 1;
    }

    method Enter() returns (c: Context)
      requires Valid()
      ensures c.Valid() && fresh(c) && c.repr == {c} + repr && c.parent == this
      ensures c.Layers() == Layers() + [map[]]
    {
      c := new Context.Above(this);
    }

    /** Fails on the bottom layer. */
    method Exit() returns (c: Context?)
      requires Valid()
      ensures c == parent
      ensures c == null <==> |Layers()| == 1
      ensures c != null ==> c.Valid() && c.repr <= repr && c.Layers() == Layers()[..|Layers()| - 1]
    {
      return parent;
    }

    function Get(key: CtxKey): (v: Option<Value>)
      requires Valid()
      reads repr
      ensures v == TopValue(Layers(), key)
      decreases depth
    {
      assert parent != null ==> Layers()[..|Layers()| - 1] == parent.Layers();
      assert parent == null ==> Layers()[..|Layers()| - 1] == [];
      if parent == null then
        if key in store then Some(store[key]) else None
      else if key in store then Some(store[key])
      else parent.Get(key)
    }

    method Set(key: CtxKey, value: Value)
      requires Valid()
      modifies this
      ensures store == old(store)[key := value]
      ensures Layers() == old(Layers())[|old(Layers())| - 1 := old(store)[key := value]]
    {
      store := store[key := value];
    }
  }

  // ---------------------------------------------------------------- stacks

  predicate HasStr(s: Stack, key: CtxKey) {
    TopValue(s, key).Some? && TopValue(s, key).value.Str?
  }

  /** The accessors panic when the value is missing; `Usable` says that they do not. */
  predicate Usable(s: Stack) {
    s != [] && HasStr(s, WorkingDir) && HasStr(s, LogDir) && HasStr(s, LogFile)
  }

  function StrOf(s: Stack, key: CtxKey): Bytes
    requires HasStr(s, key)
  {
    TopValue(s, key).value.s
  }

  /** Leaving a context; on the base layer there is nothing left. */
  function Popped(s: Stack): Stack {
    if s == [] then [] else s[..|s| - 1]
  }

  // ---------------------------------------------------------------- hooks

  datatype Hook = LogLimiter | Zfs | Btrfs | Docker | Cgroup | ExecPost(onSuccess: bool)

  datatype HookPhase = PreExec | PostExec | PostSuccess | PostFail

  /** Which hooks have an error return in which phase. */
  predicate CanFail(h: Hook, phase: HookPhase) {
    match phase
    case PreExec => h.LogLimiter? || h.Docker? || h.Cgroup?
    case PostExec => h.Cgroup?
    case PostSuccess => h.Btrfs? || h == ExecPost(true)
    case PostFail => h == ExecPost(false)
  }

  /** What the world decides in one attempt: which hooks fail, how the sync ended,
      and the name of the log file that this attempt would create. */
  datatype World = World(fails: (HookPhase, nat) -> bool, termError: bool, syncOk: bool, logName: Bytes)

  predicate Fails(w: World, phase: HookPhase, h: Hook, i: nat) {
    CanFail(h, phase) && w.fails(phase, i)
  }

  const COLON: byte := 58

  const DEV_NULL: Bytes := [47, 100, 101, 118, 47, 110, 117, 108, 108]

  const LOG_SUFFIX: Bytes := [46, 108, 111, 103]

  lemma Spelled()
    ensures DEV_NULL == Ascii("/dev/null") && LOG_SUFFIX == Ascii(".log")
    ensures [SLASH] == Ascii("/") && [COLON] == Ascii(":")
  {
  }

  predicate IsLogName(f: Bytes) {
    |f| >= 4 && f[|f| - 4..] == LOG_SUFFIX
  }

  function JoinPath(dir: Bytes, name: Bytes): Bytes {
    dir + [SLASH] + name
  }

  /** "a:a" */
  function Volume(a: Bytes): Bytes {
    a + [COLON] + a
  }

  function LogLayer(s: Stack, w: World): Layer
    requires Usable(s)
  {
    map[LogFile := Str(JoinPath(StrOf(s, LogDir), w.logName))]
  }

  function DockerLayer(s: Stack): Layer
    requires Usable(s)
  {
    map[Volumes := Strs([Volume(StrOf(s, LogDir)), Volume(StrOf(s, LogFile)), Volume(StrOf(s, WorkingDir))])]
  }

  /** The log limiter does nothing when there is no log file. */
  predicate Skips(s: Stack, h: Hook, phase: HookPhase)
    requires Usable(s)
  {
    phase.PreExec? && h.LogLimiter? && StrOf(s, LogFile) == DEV_NULL
  }

  /** What a hook that does not fail does to the stack. */
  function Effect(s: Stack, h: Hook, phase: HookPhase, w: World): Stack
    requires Usable(s)
  {
    match (phase, h)
    case (PreExec, LogLimiter) => s + [LogLayer(s, w)]
    case (PreExec, Docker) => s + [DockerLayer(s)]
    case (PostExec, Docker) => Popped(s)
    case (PostSuccess, LogLimiter) => Popped(s)
    case (PostFail, LogLimiter) => Popped(s)
    case _ => s
  }

  /** Where a phase ends: the stack, whether every hook passed, and the log file that
      each hook saw when it was called. A stack that is not usable means a panic. */
  datatype PhaseEnd = PhaseEnd(stack: Stack, ok: bool, seen: seq<Bytes>) | Panic

  /** One hook in one phase: the stack it leaves, and whether it passed. */
  function Call(s: Stack, h: Hook, phase: HookPhase, w: World, i: nat): (Stack, bool)
    requires Usable(s)
  {
    if Skips(s, h, phase) then (s, true)
    else if Fails(w, phase, h, i) then (s, false)
    else (Effect(s, h, phase, w), true)
  }

  /** `runHooks` from the `i`-th hook on. */
  function Phases(s: Stack, hooks: seq<Hook>, phase: HookPhase, w: World, i: nat): PhaseEnd
    decreases |hooks| - i
  {
    if i >= |hooks| then PhaseEnd(s, true, [])
    else if !Usable(s) then Panic
    else
      var (s', ok) := Call(s, hooks[i], phase, w, i);
      if ok then Seeing(StrOf(s, LogFile), Phases(s', hooks, phase, w, i + 1))
      else PhaseEnd(s', false, [StrOf(s, LogFile)])
  }

  function Seeing(f: Bytes, e: PhaseEnd): PhaseEnd {
    if e.Panic? then Panic else e.(seen := [f] + e.seen)
  }

  function Prefixed(seen: seq<Bytes>, e: PhaseEnd): PhaseEnd {
    if e.Panic? then Panic else e.(seen := seen + e.seen)
  }

  /** What the call of the `i`-th hook adds to a run of the phase that ends in `whole`. */
  lemma PhasesStep(whole: PhaseEnd, seen: seq<Bytes>, s: Stack, hooks: seq<Hook>, phase: HookPhase, w: World, i: nat)
    requires i < |hooks| && !whole.Panic? && whole == Prefixed(seen, Phases(s, hooks, phase, w, i))
    ensures Usable(s)
    ensures var (s', ok) := Call(s, hooks[i], phase, w, i);
            var more := seen + [StrOf(s, LogFile)];
            whole == if ok then Prefixed(more, Phases(s', hooks, phase, w, i + 1)) else PhaseEnd(s', false, more)
  {
    var (s', ok) := Call(s, hooks[i], phase, w, i);
    var rest := Phases(s', hooks, phase, w, i + 1);
    if ok && rest.PhaseEnd? {
      assert seen + ([StrOf(s, LogFile)] + rest.seen) == seen + [StrOf(s, LogFile)] + rest.seen;
    }
  }

  /** A run of the phase that ends in `whole` has called `i` hooks; after a failure it is over. */
  ghost predicate RunsTo(
    whole: PhaseEnd, ok: bool, seen: seq<Bytes>, s: Stack, hooks: seq<Hook>, phase: HookPhase, w: World, i: nat)
  {
    && whole.PhaseEnd?
    && whole == if ok then Prefixed(seen, Phases(s, hooks, phase, w, i)) else PhaseEnd(s, false, seen)
  }

  lemma RunsFromStart(s: Stack, hooks: seq<Hook>, phase: HookPhase, w: World)
    requires !Phases(s, hooks, phase, w, 0).Panic?
    ensures RunsTo(Phases(s, hooks, phase, w, 0), true, [], s, hooks, phase, w, 0)
  {
    var e := Phases(s, hooks, phase, w, 0);
    assert [] + e.seen == e.seen;
  }

  lemma RunsToEnd(
    whole: PhaseEnd, ok: bool, seen: seq<Bytes>, s: Stack, hooks: seq<Hook>, phase: HookPhase, w: World, i: nat)
    requires RunsTo(whole, ok, seen, s, hooks, phase, w, i) && (ok ==> i >= |hooks|)
    ensures whole == PhaseEnd(s, ok, seen)
  {
    assert seen + [] == seen;
  }

  function Reversed(hooks: seq<Hook>): (r: seq<Hook>)
    ensures |r| == |hooks| && forall i :: 0 <= i < |r| ==> r[i] == hooks[|hooks| - 1 - i]
  {
    if hooks == [] then [] else Reversed(hooks[1..]) + [hooks[0]]
  }

  /** One attempt of the retry loop, as far as contexts go. `ok` says that no hook and
      no termination failed; `seen` is what the post hooks saw. */
  function AfterAttempt(s: Stack, hooks: seq<Hook>, w: World): PhaseEnd {
    var pre := Phases(s, hooks, PreExec, w, 0);
    if pre.Panic? || !pre.ok then NothingSeen(pre)
    else if w.termError then PhaseEnd(pre.stack, false, [])
    else
      var post := Phases(pre.stack, Reversed(hooks), PostExec, w, 0);
      if post.Panic? || !post.ok then post
      else
        var last := Phases(post.stack, Reversed(hooks), if w.syncOk then PostSuccess else PostFail, w, 0);
        if last.Panic? then Panic else last.(seen := post.seen + last.seen)
  }

  function NothingSeen(e: PhaseEnd): PhaseEnd {
    if e.Panic? then Panic else e.(seen := [])
  }

  // ---------------------------------------------------------------- the provider

  class BaseProvider {
    var ctx: Context?
    var hooks: seq<Hook>
    ghost var stack: Stack  // the layers of `ctx`

    /** Having left the base layer, the provider has no context at all. */
    ghost predicate Valid()
      reads this, if ctx == null then {} else ctx.repr
    {
      if ctx == null then stack == [] else ctx.Valid() && ctx.Layers() == stack
    }

    constructor (workingDir: Bytes, logDir: Bytes, logFile: Bytes)
      ensures Valid() && hooks == []
      ensures stack == [map[WorkingDir := Str(workingDir), LogDir := Str(logDir), LogFile := Str(logFile)]]
    {
      var c := BaseContext(workingDir, logDir, logFile);
      ctx, hooks, stack := c, [], [map[WorkingDir := Str(workingDir), LogDir := Str(logDir), LogFile := Str(logFile)]];
    }

    static method BaseContext(workingDir: Bytes, logDir: Bytes, logFile: Bytes) returns (c: Context)
      ensures c.Valid() && fresh(c.repr)
      ensures c.Layers() == [map[WorkingDir := Str(workingDir), LogDir := Str(logDir), LogFile := Str(logFile)]]
    {
      c := new Context();
      c.Set(WorkingDir, Str(workingDir));
      c.Set(LogDir, Str(logDir));
      c.Set(LogFile, Str(logFile));
      assert c.store == map[WorkingDir := Str(workingDir), LogDir := Str(logDir), LogFile := Str(logFile)];
    }

    method AddHook(h: Hook)
      modifies this`hooks
      ensures hooks == old(hooks) + [h]
    {
      hooks := hooks + [h];
    }

    method AddFixedHooks(zfs: bool, btrfs: bool, docker: bool, cgroup: bool)
      modifies this`hooks
      ensures hooks == old(hooks) + FixedHooks(zfs, btrfs, docker, cgroup)
    {
      AddHook(LogLimiter);
      if zfs {
        AddHook(Zfs);
      }
      if btrfs {
        AddHook(Btrfs);
      }
      if docker {
        AddHook(Docker);
      } else if cgroup {
        AddHook(Cgroup);
      }
    }

    /** The hooks in the order `newMirrorProvider` adds them. */
    method AddHooks(zfs: bool, btrfs: bool, docker: bool, cgroup: bool, onSuccess: nat, onFailure: nat)
      modifies this`hooks
      ensures hooks == old(hooks) + HookList(zfs, btrfs, docker, cgroup, onSuccess, onFailure)
      ensures old(hooks) == [] ==> BuiltAs(hooks, zfs, btrfs, docker, cgroup, onSuccess, onFailure)
    {
      AddFixedHooks(zfs, btrfs, docker, cgroup);
      AddHookFromCmdList(onSuccess, true);
      AddHookFromCmdList(onFailure, false);
      Regroup(old(hooks), FixedHooks(zfs, btrfs, docker, cgroup),
        Repeated(ExecPost(true), onSuccess), Repeated(ExecPost(false), onFailure));
      HookListMeans(zfs, btrfs, docker, cgroup, onSuccess, onFailure);
    }

    method AddHookFromCmdList(n: nat, onSuccess: bool)
      modifies this`hooks
      ensures hooks == old(hooks) + Repeated(ExecPost(onSuccess), n)
    {
      var i := 0;
      while i < n
        invariant 0 <= i <= n && hooks == old(hooks) + Repeated(ExecPost(onSuccess), i)
      {
        AddHook(ExecPost(onSuccess));
        i := i + 1;
      }
    }

    /** The string under a key; the accessors panic unless it is there. */
    method ReadStr(key: CtxKey) returns (s: Bytes)
      requires Valid() && HasStr(stack, key)
      ensures s == StrOf(stack, key)
    {
      s := ctx.Get(key).value.s;
    }

    /** Makes `c` the provider's context. */
    method SetContext(c: Context?, ghost layers: Stack)
      requires if c == null then layers == [] else c.Valid() && c.Layers() == layers
      modifies this`ctx, this`stack
      ensures Valid() && ctx == c && stack == layers
      ensures c != null ==> c.Valid() && c.Layers() == layers
    {
      label moved:
      ctx, stack := c, layers;
      assert c != null ==> c.Layers() == old@moved(c.Layers());
    }

    method EnterContext() returns (c: Context)
      requires Valid() && stack != []
      modifies this`ctx, this`stack
      ensures Valid() && ctx == c && fresh(c) && stack == old(stack) + [map[]]
    {
      c := ctx.Enter();
      SetContext(c, stack + [map[]]);
    }

    method ExitContext()
      requires Valid() && stack != []
      modifies this`ctx, this`stack
      ensures Valid() && stack == Popped(old(stack))
    {
      var c := ctx.Exit();
      SetContext(c, Popped(stack));
    }

    /** Enters a context and sets one key in it. */
    method PushLayer(key: CtxKey, value: Value)
      requires Valid() && stack != []
      modifies this`ctx, this`stack
      ensures Valid() && stack == old(stack) + [map[key := value]]
    {
      var c := EnterContext();
      c.Set(key, value);
      assert map[][key := value] == map[key := value];
      ghost var layers := c.Layers();
      assert layers == old(stack) + [map[key := value]];
      SetContext(c, layers);
    }

    method LogLimiterPreExec(w: World, i: nat) returns (ok: bool)
      requires Valid() && Usable(stack)
      modifies this`ctx, this`stack
      ensures Valid()
      ensures StrOf(old(stack), LogFile) == DEV_NULL ==> ok && stack == old(stack)
      ensures StrOf(old(stack), LogFile) != DEV_NULL ==>
                ok == !w.fails(PreExec, i) && stack == if ok then old(stack) + [LogLayer(old(stack), w)] else old(stack)
      ensures ok && StrOf(old(stack), LogFile) != DEV_NULL ==>
                TopValue(stack, LogFile) == Some(Str(StrOf(old(stack), LogDir) + [SLASH] + w.logName))
    {
      var logFile := ReadStr(LogFile);
      if logFile == DEV_NULL {
        return true;
      }
      var logDir := ReadStr(LogDir);
      if w.fails(PreExec, i) {
        return false;
      }
      PushLayer(LogFile, Str(JoinPath(logDir, w.logName)));
      TopValuePush(old(stack), LogLayer(old(stack), w), LogFile);
      return true;
    }

    method DockerPreExec(w: World, i: nat) returns (ok: bool)
      requires Valid() && Usable(stack)
      modifies this`ctx, this`stack
      ensures Valid() && ok == !w.fails(PreExec, i)
      ensures stack == if ok then old(stack) + [DockerLayer(old(stack))] else old(stack)
      ensures ok ==>
                var d, f, wd := StrOf(old(stack), LogDir), StrOf(old(stack), LogFile), StrOf(old(stack), WorkingDir);
                TopValue(stack, Volumes) == Some(Strs([d + [COLON] + d, f + [COLON] + f, wd + [COLON] + wd]))
    {
      var logDir := ReadStr(LogDir);
      var logFile := ReadStr(LogFile);
      var workingDir := ReadStr(WorkingDir);
      if w.fails(PreExec, i) {
        return false;
      }
      PushLayer(Volumes, Strs([Volume(logDir), Volume(logFile), Volume(workingDir)]));
      TopValuePush(old(stack), DockerLayer(old(stack)), Volumes);
      return true;
    }

    /** One hook in one phase. */
    method CallHook(h: Hook, phase: HookPhase, w: World, i: nat) returns (ok: bool)
      requires Valid() && Usable(stack)
      modifies this`ctx, this`stack
      ensures Valid() && (stack, ok) == Call(old(stack), h, phase, w, i)
    {
      match phase
      case PreExec =>
        if h.LogLimiter? {
          ok := LogLimiterPreExec(w, i);
        } else if h.Docker? {
          ok := DockerPreExec(w, i);
        } else {
          ok := !Fails(w, phase, h, i);
        }
      case PostExec =>
        if h.Docker? {
          ExitContext();
          ok := true;
        } else {
          ok := !Fails(w, phase, h, i);
        }
      case _ =>
        if h.LogLimiter? {
          ExitContext();
          ok := true;
        } else {
          ok := !Fails(w, phase, h, i);
        }
    }

    method RunHooks(hs: seq<Hook>, phase: HookPhase, w: World) returns (ok: bool, seen: seq<Bytes>)
      requires Valid() && !Phases(stack, hs, phase, w, 0).Panic?
      modifies this`ctx, this`stack
      ensures Valid()
      ensures var e := Phases(old(stack), hs, phase, w, 0);
              stack == e.stack && ok == e.ok && seen == e.seen
    {
      ghost var whole := Phases(stack, hs, phase, w, 0);
      RunsFromStart(stack, hs, phase, w);
      ok, seen := true, [];
      var i := 0;
      while i < |hs| && ok
        invariant 0 <= i <= |hs| && Valid()
        invariant RunsTo(whole, ok, seen, stack, hs, phase, w, i)
      {
        PhasesStep(whole, seen, stack, hs, phase, w, i);
        var logFile := ReadStr(LogFile);
        ok := CallHook(hs[i], phase, w, i);
        seen := seen + [logFile];
        i := i + 1;
      }
      RunsToEnd(whole, ok, seen, stack, hs, phase, w, i);
    }

    /** The body of the retry loop around one sync. */
    method RunAttempt(w: World) returns (ok: bool, seen: seq<Bytes>)
      requires Valid() && !AfterAttempt(stack, hooks, w).Panic?
      modifies this`ctx, this`stack
      ensures Valid() && PhaseEnd(stack, ok, seen) == AfterAttempt(old(stack), hooks, w)
    {
      var rHooks := Reversed(hooks);
      ok, seen := RunHooks(hooks, PreExec, w);
      seen := [];
      if !ok {
        return;
      }
      if w.termError {
        ok := false;
        return;
      }
      ok, seen := RunHooks(rHooks, PostExec, w);
      if !ok {
        return;
      }
      var more;
      if w.syncOk {
        ok, more := RunHooks(rHooks, PostSuccess, w);
      } else {
        ok, more := RunHooks(rHooks, PostFail, w);
      }
      seen := seen + more;
    }
  }

  function Repeated(h: Hook, n: nat): (r: seq<Hook>)
    ensures |r| == n && forall i :: 0 <= i < n ==> r[i] == h
  {
    seq(n, i => h)
  }

  function FixedHooks(zfs: bool, btrfs: bool, docker: bool, cgroup: bool): seq<Hook> {
    [LogLimiter]
    + (if zfs then [Zfs] else [])
    + (if btrfs then [Btrfs] else [])
    + (if docker then [Docker] else if cgroup then [Cgroup] else [])
  }

  function HookList(zfs: bool, btrfs: bool, docker: bool, cgroup: bool, onSuccess: nat, onFailure: nat): seq<Hook> {
    FixedHooks(zfs, btrfs, docker, cgroup) + Repeated(ExecPost(true), onSuccess) + Repeated(ExecPost(false), onFailure)
  }

  // ---------------------------------------------------------------- the discipline

  /** The log limiter comes first and only there; docker at most once. */
  ghost predicate WellBuilt(hooks: seq<Hook>) {
    && hooks != []
    && (forall i :: 0 <= i < |hooks| ==> (hooks[i].LogLimiter? <==> i == 0))
    && OneDocker(hooks)
  }

  ghost predicate OneDocker(hooks: seq<Hook>) {
    forall i, j :: 0 <= i < |hooks| && 0 <= j < |hooks| && hooks[i].Docker? && hooks[j].Docker? ==> i == j
  }

  lemma Regroup(a: seq<Hook>, b: seq<Hook>, c: seq<Hook>, d: seq<Hook>)
    ensures a + b + c + d == a + (b + c + d)
    ensures a == [] ==> a + (b + c + d) == b + c + d
  {
  }

  /** The place of a hook among the others. */
  function Place(h: Hook): nat {
    match h
    case LogLimiter => 0
    case Zfs => 1
    case Btrfs => 2
    case Docker => 3
    case Cgroup => 3
    case ExecPost(true) => 4
    case ExecPost(false) => 5
  }

  ghost predicate InOrder(hooks: seq<Hook>) {
    forall i, j :: 0 <= i < j < |hooks| ==> Place(hooks[i]) <= Place(hooks[j])
  }

  function Occurs(hooks: seq<Hook>, h: Hook): nat {
    multiset(hooks)[h]
  }

  /** Each configured hook once, the commands as often as they are listed, in this order:
      log limiter, zfs, btrfs, docker or else cgroup, success commands, failure commands. */
  ghost predicate BuiltAs(
    hooks: seq<Hook>, zfs: bool, btrfs: bool, docker: bool, cgroup: bool, onSuccess: nat, onFailure: nat)
  {
    && InOrder(hooks) && Occurs(hooks, LogLimiter) == 1
    && Occurs(hooks, Zfs) == (if zfs then 1 else 0) && Occurs(hooks, Btrfs) == (if btrfs then 1 else 0)
    && Occurs(hooks, Docker) == (if docker then 1 else 0)
    && Occurs(hooks, Cgroup) == (if cgroup && !docker then 1 else 0)
    && Occurs(hooks, ExecPost(true)) == onSuccess && Occurs(hooks, ExecPost(false)) == onFailure
  }

  lemma {:induction false} RepeatedOccurs(h: Hook, n: nat, g: Hook)
    ensures Occurs(Repeated(h, n), g) == if g == h then n else 0
  {
    if n > 0 {
      RepeatedOccurs(h, n - 1, g);
      assert Repeated(h, n) == Repeated(h, n - 1) + [h];
    }
  }

  lemma OccursJoin(a: seq<Hook>, b: seq<Hook>, g: Hook)
    ensures Occurs(a + b, g) == Occurs(a, g) + Occurs(b, g)
  {
  }

  function One(c: bool): nat {
    if c then 1 else 0
  }

  lemma OnceIf(c: bool, h: Hook, g: Hook)
    ensures Occurs(if c then [h] else [], g) == One(c && g == h)
  {
  }

  lemma EitherOnce(docker: bool, cgroup: bool, g: Hook)
    ensures Occurs(if docker then [Docker] else if cgroup then [Cgroup] else [], g)
         == One(docker && g == Docker) + One(cgroup && !docker && g == Cgroup)
  {
    OnceIf(docker, Docker, g);
    OnceIf(cgroup, Cgroup, g);
  }

  lemma FixedOccurs(zfs: bool, btrfs: bool, docker: bool, cgroup: bool, g: Hook)
    ensures Occurs(FixedHooks(zfs, btrfs, docker, cgroup), g)
         == One(g == LogLimiter) + One(zfs && g == Zfs) + One(btrfs && g == Btrfs)
            + One(docker && g == Docker) + One(cgroup && !docker && g == Cgroup)
  {
    var z, b := if zfs then [Zfs] else [], if btrfs then [Btrfs] else [];
    FourOccur([LogLimiter], z, b, if docker then [Docker] else if cgroup then [Cgroup] else [], g);
    OnceIf(true, LogLimiter, g);
    OnceIf(zfs, Zfs, g);
    OnceIf(btrfs, Btrfs, g);
    EitherOnce(docker, cgroup, g);
  }

  lemma FourOccur(a: seq<Hook>, b: seq<Hook>, c: seq<Hook>, d: seq<Hook>, g: Hook)
    ensures Occurs(a + b + c + d, g) == Occurs(a, g) + Occurs(b, g) + Occurs(c, g) + Occurs(d, g)
  {
    OccursJoin(a, b, g);
    OccursJoin(a + b, c, g);
    OccursJoin(a + b + c, d, g);
  }

  lemma FixedInOrder(zfs: bool, btrfs: bool, docker: bool, cgroup: bool)
    ensures InOrder(FixedHooks(zfs, btrfs, docker, cgroup))
    ensures forall h :: h in FixedHooks(zfs, btrfs, docker, cgroup) ==> Place(h) <= 3
  {
    var z, b := if zfs then [Zfs] else [], if btrfs then [Btrfs] else [];
    JoinInOrder([LogLimiter], z, 0, 1);
    JoinInOrder([LogLimiter] + z, b, 1, 2);
    JoinInOrder([LogLimiter] + z + b, if docker then [Docker] else if cgroup then [Cgroup] else [], 2, 3);
  }

  lemma HookOccurs(
    zfs: bool, btrfs: bool, docker: bool, cgroup: bool, onSuccess: nat, onFailure: nat, g: Hook)
    ensures Occurs(HookList(zfs, btrfs, docker, cgroup, onSuccess, onFailure), g)
         == One(g == LogLimiter) + One(zfs && g == Zfs) + One(btrfs && g == Btrfs)
            + One(docker && g == Docker) + One(cgroup && !docker && g == Cgroup)
            + (if g == ExecPost(true) then onSuccess else 0) + (if g == ExecPost(false) then onFailure else 0)
  {
    var a, b := FixedHooks(zfs, btrfs, docker, cgroup), Repeated(ExecPost(true), onSuccess);
    FixedOccurs(zfs, btrfs, docker, cgroup, g);
    OccursJoin(a, b, g);
    OccursJoin(a + b, Repeated(ExecPost(false), onFailure), g);
    RepeatedOccurs(ExecPost(true), onSuccess, g);
    RepeatedOccurs(ExecPost(false), onFailure, g);
  }

  lemma HookListMeans(zfs: bool, btrfs: bool, docker: bool, cgroup: bool, onSuccess: nat, onFailure: nat)
    ensures BuiltAs(HookList(zfs, btrfs, docker, cgroup, onSuccess, onFailure),
              zfs, btrfs, docker, cgroup, onSuccess, onFailure)
  {
    HookListInOrder(zfs, btrfs, docker, cgroup, onSuccess, onFailure);
    HookOccurs(zfs, btrfs, docker, cgroup, onSuccess, onFailure, LogLimiter);
    HookOccurs(zfs, btrfs, docker, cgroup, onSuccess, onFailure, Zfs);
    HookOccurs(zfs, btrfs, docker, cgroup, onSuccess, onFailure, Btrfs);
    HookOccurs(zfs, btrfs, docker, cgroup, onSuccess, onFailure, Docker);
    HookOccurs(zfs, btrfs, docker, cgroup, onSuccess, onFailure, Cgroup);
    HookOccurs(zfs, btrfs, docker, cgroup, onSuccess, onFailure, ExecPost(true));
    HookOccurs(zfs, btrfs, docker, cgroup, onSuccess, onFailure, ExecPost(false));
  }

  lemma HookListInOrder(zfs: bool, btrfs: bool, docker: bool, cgroup: bool, onSuccess: nat, onFailure: nat)
    ensures InOrder(HookList(zfs, btrfs, docker, cgroup, onSuccess, onFailure))
  {
    var a, b := FixedHooks(zfs, btrfs, docker, cgroup), Repeated(ExecPost(true), onSuccess);
    FixedInOrder(zfs, btrfs, docker, cgroup);
    JoinInOrder(a, b, 3, 4);
    JoinInOrder(a + b, Repeated(ExecPost(false), onFailure), 4, 5);
  }

  lemma JoinInOrder(a: seq<Hook>, b: seq<Hook>, low: nat, high: nat)
    requires InOrder(a) && InOrder(b) && low <= high
    requires (forall h :: h in a ==> Place(h) <= low) && (forall h :: h in b ==> Place(h) >= high)
    ensures InOrder(a + b)
  {
    var all := a + b;
    forall i, j | 0 <= i < j < |all|
      ensures Place(all[i]) <= Place(all[j])
    {
      assert if i < |a| then all[i] in a else all[i] == b[i - |a|];
      assert if j < |a| then all[j] == a[j] else all[j] in b && all[j] == b[j - |a|];
      assert i < |a| ==> all[i] == a[i];
    }
  }

  lemma BuiltHooks(zfs: bool, btrfs: bool, docker: bool, cgroup: bool, onSuccess: nat, onFailure: nat)
    ensures WellBuilt(HookList(zfs, btrfs, docker, cgroup, onSuccess, onFailure))
  {
    var front := FixedHooks(zfs, btrfs, docker, cgroup);
    var all := HookList(zfs, btrfs, docker, cgroup, onSuccess, onFailure);
    forall i | 0 <= i < |all|
      ensures i < |front| ==> all[i] == front[i]
      ensures i >= |front| ==> all[i].ExecPost?
    {
    }
  }

  ghost predicate DockerAhead(hooks: seq<Hook>, i: nat) {
    exists j :: i <= j < |hooks| && hooks[j].Docker?
  }

  lemma DockerAheadStep(hooks: seq<Hook>, i: nat)
    requires OneDocker(hooks) && i < |hooks|
    ensures DockerAhead(hooks, i) <==> hooks[i].Docker? || DockerAhead(hooks, i + 1)
    ensures hooks[i].Docker? ==> !DockerAhead(hooks, i + 1)
  {
  }

  lemma TopValuePush(s: Stack, layer: Layer, key: CtxKey)
    ensures TopValue(s + [layer], key) == if key in layer then Some(layer[key]) else TopValue(s, key)
  {
    assert (s + [layer])[..|s|] == s;
  }

  /** A layer that sets no string leaves all of them as they were. */
  lemma PushVolumes(s: Stack, layer: Layer)
    requires Usable(s) && layer.Keys == {Volumes}
    ensures Usable(s + [layer])
    ensures forall key :: key in {WorkingDir, LogDir, LogFile} ==> StrOf(s + [layer], key) == StrOf(s, key)
  {
    forall key | key in {WorkingDir, LogDir, LogFile}
      ensures TopValue(s + [layer], key) == TopValue(s, key)
    {
      TopValuePush(s, layer, key);
    }
  }

  lemma PushLog(s: Stack, f: Bytes)
    requires Usable(s)
    ensures var t := s + [map[LogFile := Str(f)]];
            && Usable(t) && StrOf(t, LogFile) == f
            && StrOf(t, WorkingDir) == StrOf(s, WorkingDir) && StrOf(t, LogDir) == StrOf(s, LogDir)
  {
    TopValuePush(s, map[LogFile := Str(f)], LogFile);
    TopValuePush(s, map[LogFile := Str(f)], WorkingDir);
    TopValuePush(s, map[LogFile := Str(f)], LogDir);
  }

  lemma {:induction false} PreExecRest(t: Stack, hooks: seq<Hook>, w: World, i: nat)
    requires Usable(t) && OneDocker(hooks) && i <= |hooks|
    requires forall j :: i <= j < |hooks| ==> !hooks[j].LogLimiter?
    ensures var e := Phases(t, hooks, PreExec, w, i);
            && e.PhaseEnd?
            && (e.stack == t || (DockerAhead(hooks, i) && e.stack == t + [DockerLayer(t)]))
            && (e.ok && DockerAhead(hooks, i) ==> e.stack != t)
    decreases |hooks| - i
  {
    if i < |hooks| {
      PushVolumes(t, DockerLayer(t));
      DockerAheadStep(hooks, i);
      if hooks[i].Docker? {
        PreExecRest(t + [DockerLayer(t)], hooks, w, i + 1);
      } else {
        PreExecRest(t, hooks, w, i + 1);
      }
    }
  }

  lemma {:induction false} PostExecRun(t: Stack, base: Stack, hooks: seq<Hook>, w: World, i: nat)
    requires Usable(base) && OneDocker(hooks) && i <= |hooks|
    requires t == if DockerAhead(hooks, i) then base + [DockerLayer(base)] else base
    ensures var e := Phases(t, hooks, PostExec, w, i);
            && e.PhaseEnd?
            && (e.stack == t || e.stack == base) && (e.ok ==> e.stack == base)
            && forall f :: f in e.seen ==> f == StrOf(base, LogFile)
    decreases |hooks| - i
  {
    PushVolumes(base, DockerLayer(base));
    if i < |hooks| {
      DockerAheadStep(hooks, i);
      if hooks[i].Docker? {
        assert Popped(base + [DockerLayer(base)]) == base;
        PostExecRun(base, base, hooks, w, i + 1);
      } else {
        PostExecRun(t, base, hooks, w, i + 1);
      }
    }
  }

  lemma {:induction false} PostLastRun(t: Stack, hooks: seq<Hook>, phase: HookPhase, w: World, i: nat)
    requires Usable(t) && i < |hooks| && (phase.PostSuccess? || phase.PostFail?)
    requires forall j :: 0 <= j < |hooks| ==> (hooks[j].LogLimiter? <==> j == |hooks| - 1)
    ensures var e := Phases(t, hooks, phase, w, i);
            && e.PhaseEnd?
            && e.stack == (if e.ok then Popped(t) else t)
            && forall f :: f in e.seen ==> f == StrOf(t, LogFile)
    decreases |hooks| - i
  {
    if i < |hooks| - 1 {
      PostLastRun(t, hooks, phase, w, i + 1);
    }
  }

  /** The pre-exec phase: the log layer is on top of `s`, or the phase failed before
      it; above it there is at most the docker layer, and there is one if there is a
      docker hook and the phase passed. */
  lemma PreExecRun(s: Stack, hooks: seq<Hook>, w: World)
    requires WellBuilt(hooks) && Usable(s) && StrOf(s, LogFile) != DEV_NULL
    ensures Usable(s + [LogLayer(s, w)])
    ensures var t, e := s + [LogLayer(s, w)], Phases(s, hooks, PreExec, w, 0);
            && e.PhaseEnd?
            && (e.stack == s || e.stack == t || e.stack == t + [DockerLayer(t)])
            && (e.ok ==> e.stack == if DockerAhead(hooks, 1) then t + [DockerLayer(t)] else t)
  {
    PushLog(s, JoinPath(StrOf(s, LogDir), w.logName));
    PreExecRest(s + [LogLayer(s, w)], hooks, w, 1);
  }

  /** The two phases after the sync, from the stack of a passed pre-exec phase. */
  lemma PostRun(s: Stack, layer: Layer, hooks: seq<Hook>, w: World, from: Stack)
    requires WellBuilt(hooks) && Usable(s + [layer])
    requires from == if DockerAhead(hooks, 1) then s + [layer, DockerLayer(s + [layer])] else s + [layer]
    ensures var t, rHooks, post := s + [layer], Reversed(hooks), Phases(from, Reversed(hooks), PostExec, w, 0);
            && post.PhaseEnd? && (post.stack == from || post.stack == t) && (post.ok ==> post.stack == t)
            && (forall f :: f in post.seen ==> f == StrOf(t, LogFile))
            && var last := Phases(t, rHooks, if w.syncOk then PostSuccess else PostFail, w, 0);
               && last.PhaseEnd? && last.stack == (if last.ok then s else t)
               && (forall f :: f in last.seen ==> f == StrOf(t, LogFile))
  {
    var t, rHooks := s + [layer], Reversed(hooks);
    SameDocker(hooks);
    assert s + [layer, DockerLayer(t)] == t + [DockerLayer(t)];
    assert Popped(t) == s;
    PostExecRun(from, t, rHooks, w, 0);
    PostLastRun(t, rHooks, if w.syncOk then PostSuccess else PostFail, w, 0);
  }

  /** Every stack an attempt can leave keeps the layers below, and the directories. */
  lemma LayersAbove(s: Stack, w: World)
    requires Usable(s) && IsLogName(StrOf(s, LogFile)) && IsLogName(w.logName)
    ensures Kept(s, s)
    ensures var t := s + [LogLayer(s, w)];
            Kept(s, t) && Kept(s, t + [DockerLayer(t)]) && StrOf(t, LogFile) == JoinPath(StrOf(s, LogDir), w.logName)
  {
    var path := JoinPath(StrOf(s, LogDir), w.logName);
    assert IsLogName(path) by {
      assert path[|path| - 4..] == w.logName[|w.logName| - 4..];
    }
    PushLog(s, path);
    var t := s + [LogLayer(s, w)];
    PushVolumes(t, DockerLayer(t));
  }

  /** `s'` has at most two layers more than `s`; its directories are those of `s`. */
  predicate Kept(s: Stack, s': Stack)
    requires Usable(s)
  {
    && s <= s' && |s'| <= |s| + 2
    && Usable(s') && IsLogName(StrOf(s', LogFile))
    && StrOf(s', WorkingDir) == StrOf(s, WorkingDir) && StrOf(s', LogDir) == StrOf(s, LogDir)
  }

  /** One attempt, with any hooks failing and any end of the sync: no accessor panics;
      the layers below stay as they are, with at most two on top of them; working
      directory and log directory do not change; an attempt without a hook or
      termination failure restores the stack exactly; and every post hook saw the log
      file that the attempt's own pre-exec set. */
  lemma AttemptDisciplined(s: Stack, hooks: seq<Hook>, w: World)
    requires WellBuilt(hooks) && Usable(s) && IsLogName(StrOf(s, LogFile)) && IsLogName(w.logName)
    ensures var e := AfterAttempt(s, hooks, w);
            && e.PhaseEnd? && Kept(s, e.stack)
            && (e.ok ==> e.stack == s)
            && forall f :: f in e.seen ==> f == StrOf(s, LogDir) + [SLASH] + w.logName
  {
    assert StrOf(s, LogFile) != DEV_NULL by {
      assert DEV_NULL[8] == 108;
    }
    LayersAbove(s, w);
    PreExecRun(s, hooks, w);
    var pre := Phases(s, hooks, PreExec, w, 0);
    if pre.ok {
      var t := s + [LogLayer(s, w)];
      assert s + [LogLayer(s, w), DockerLayer(t)] == t + [DockerLayer(t)];
      PostRun(s, LogLayer(s, w), hooks, w, pre.stack);
    }
  }

  /** A phase passes when none of its hooks fails. */
  lemma {:induction false} PhasePasses(s: Stack, hooks: seq<Hook>, phase: HookPhase, w: World, i: nat)
    requires !Phases(s, hooks, phase, w, i).Panic?
    requires phase.PreExec? ==> forall j :: i <= j < |hooks| ==> !hooks[j].LogLimiter?
    ensures Phases(s, hooks, phase, w, i).ok <==> forall j :: i <= j < |hooks| ==> !Fails(w, phase, hooks[j], j)
    decreases |hooks| - i
  {
    if i < |hooks| && !Fails(w, phase, hooks[i], i) {
      PhasePasses(Call(s, hooks[i], phase, w, i).0, hooks, phase, w, i + 1);
    }
  }

  /** Which failures make an attempt fail, hook by hook: before the sync those of the log
      limiter, docker and cgroup; a termination; then, in reverse order, those of
      cgroup; and of btrfs and the success commands after a success, of the failure
      commands after a failure. */
  lemma AttemptPassesIff(s: Stack, hooks: seq<Hook>, w: World)
    requires WellBuilt(hooks) && Usable(s) && IsLogName(StrOf(s, LogFile)) && IsLogName(w.logName)
    ensures AfterAttempt(s, hooks, w).PhaseEnd?
    ensures AfterAttempt(s, hooks, w).ok <==>
              && (forall i :: 0 <= i < |hooks| && (hooks[i].LogLimiter? || hooks[i].Docker? || hooks[i].Cgroup?) ==>
                    !w.fails(PreExec, i))
              && !w.termError
              && (forall i :: 0 <= i < |hooks| && Reversed(hooks)[i].Cgroup? ==> !w.fails(PostExec, i))
              && (w.syncOk ==>
                    forall i :: 0 <= i < |hooks| && Reversed(hooks)[i] in {Btrfs, ExecPost(true)} ==>
                      !w.fails(PostSuccess, i))
              && (!w.syncOk ==>
                    forall i :: 0 <= i < |hooks| && Reversed(hooks)[i] == ExecPost(false) ==> !w.fails(PostFail, i))
  {
    AttemptDisciplined(s, hooks, w);
    assert StrOf(s, LogFile) != DEV_NULL by {
      assert DEV_NULL[8] == 108;
    }
    PreExecPassesIff(s, hooks, w);
    var pre := Phases(s, hooks, PreExec, w, 0);
    if pre.ok && !w.termError {
      PostPassesIff(pre.stack, Reversed(hooks), w);
    }
  }

  lemma PreExecPassesIff(s: Stack, hooks: seq<Hook>, w: World)
    requires WellBuilt(hooks) && Usable(s) && StrOf(s, LogFile) != DEV_NULL
    ensures var pre := Phases(s, hooks, PreExec, w, 0);
            && pre.PhaseEnd?
            && (pre.ok <==>
                  forall i :: 0 <= i < |hooks| && (hooks[i].LogLimiter? || hooks[i].Docker? || hooks[i].Cgroup?) ==>
                    !w.fails(PreExec, i))
  {
    PreExecRun(s, hooks, w);
    if !w.fails(PreExec, 0) {
      PhasePasses(s + [LogLayer(s, w)], hooks, PreExec, w, 1);
    }
  }

  /** The two phases after the sync. */
  lemma PostPassesIff(s: Stack, hooks: seq<Hook>, w: World)
    requires var post := Phases(s, hooks, PostExec, w, 0);
             && post.PhaseEnd?
             && (post.ok ==> !Phases(post.stack, hooks, if w.syncOk then PostSuccess else PostFail, w, 0).Panic?)
    ensures var post := Phases(s, hooks, PostExec, w, 0);
            && (post.ok && Phases(post.stack, hooks, if w.syncOk then PostSuccess else PostFail, w, 0).ok <==>
                 && (forall i :: 0 <= i < |hooks| && hooks[i].Cgroup? ==> !w.fails(PostExec, i))
                 && (w.syncOk ==>
                       forall i :: 0 <= i < |hooks| && (hooks[i].Btrfs? || hooks[i] == ExecPost(true)) ==>
                         !w.fails(PostSuccess, i))
                 && (!w.syncOk ==>
                       forall i :: 0 <= i < |hooks| && hooks[i] == ExecPost(false) ==> !w.fails(PostFail, i)))
  {
    PhasePasses(s, hooks, PostExec, w, 0);
    var post := Phases(s, hooks, PostExec, w, 0);
    if post.ok {
      PhasePasses(post.stack, hooks, if w.syncOk then PostSuccess else PostFail, w, 0);
    }
  }

  /** After a failed termination no post hook is called, and the layers of the pre-exec
      phase stay: the new log file, and the volumes if there is docker. */
  lemma UnterminatedLeavesLayers(s: Stack, hooks: seq<Hook>, w: World)
    requires WellBuilt(hooks) && Usable(s) && IsLogName(StrOf(s, LogFile)) && IsLogName(w.logName)
    requires w.termError && Phases(s, hooks, PreExec, w, 0).PhaseEnd? && Phases(s, hooks, PreExec, w, 0).ok
    ensures var e := AfterAttempt(s, hooks, w);
            && e.PhaseEnd? && !e.ok && e.seen == [] && Kept(s, e.stack)
            && |e.stack| == |s| + (if exists h :: h in hooks && h.Docker? then 2 else 1)
            && StrOf(e.stack, LogFile) == StrOf(s, LogDir) + [SLASH] + w.logName
  {
    AttemptDisciplined(s, hooks, w);
    assert StrOf(s, LogFile) != DEV_NULL by {
      assert DEV_NULL[8] == 108;
    }
    LayersAbove(s, w);
    PreExecRun(s, hooks, w);
    var t := s + [LogLayer(s, w)];
    PushVolumes(t, DockerLayer(t));
    assert DockerAhead(hooks, 1) <==> exists h :: h in hooks && h.Docker?;
  }

  lemma SameDocker(hooks: seq<Hook>)
    requires WellBuilt(hooks)
    ensures OneDocker(Reversed(hooks))
    ensures DockerAhead(Reversed(hooks), 0) <==> DockerAhead(hooks, 1)
    ensures forall j :: 0 <= j < |hooks| ==> (Reversed(hooks)[j].LogLimiter? <==> j == |hooks| - 1)
  {
    var r := Reversed(hooks);
    if j :| 0 <= j < |r| && r[j].Docker? {
      assert hooks[|hooks| - 1 - j].Docker?;
    }
    if j :| 1 <= j < |hooks| && hooks[j].Docker? {
      assert r[|hooks| - 1 - j].Docker?;
    }
  }

  /** Attempts one after the other, over any number of runs. */
  function AfterAttempts(s: Stack, hooks: seq<Hook>, ws: seq<World>): PhaseEnd {
    if ws == [] then PhaseEnd(s, true, [])
    else
      var e := AfterAttempts(s, hooks, ws[..|ws| - 1]);
      if e.Panic? then Panic else AfterAttempt(e.stack, hooks, ws[|ws| - 1])
  }

  /** The base layer is never left, and the directories never change, on any
      sequence of attempts with any failures, for the hooks of any configuration. */
  lemma {:induction false} AttemptsDisciplined(
    s: Stack, zfs: bool, btrfs: bool, docker: bool, cgroup: bool, onSuccess: nat, onFailure: nat, ws: seq<World>)
    requires Usable(s) && IsLogName(StrOf(s, LogFile))
    requires forall w :: w in ws ==> IsLogName(w.logName)
    ensures var e := AfterAttempts(s, HookList(zfs, btrfs, docker, cgroup, onSuccess, onFailure), ws);
            && e.PhaseEnd? && s <= e.stack && |e.stack| <= |s| + 2 * |ws|
            && Usable(e.stack) && IsLogName(StrOf(e.stack, LogFile))
            && StrOf(e.stack, WorkingDir) == StrOf(s, WorkingDir) && StrOf(e.stack, LogDir) == StrOf(s, LogDir)
  {
    if ws != [] {
      var n, hooks := |ws| - 1, HookList(zfs, btrfs, docker, cgroup, onSuccess, onFailure);
      AttemptsDisciplined(s, zfs, btrfs, docker, cgroup, onSuccess, onFailure, ws[..n]);
      BuiltHooks(zfs, btrfs, docker, cgroup, onSuccess, onFailure);
      AttemptDisciplined(AfterAttempts(s, hooks, ws[..n]).stack, hooks, ws[n]);
    }
  }
}
