/** The job engine of worker/job.go: any number of jobs, each with one controller
    (`Run`), and the runner goroutines (`runJob`) that the controllers spawn.

    A state holds every channel the goroutines share: the control channel of each
    job, its bypass channel, the `kill` and `jobDone` channels of each runner and the
    semaphore of the worker. An event is one atomic step of one goroutine or of the
    worker. The invariants hold after any sequence of events.
 */
module JobEngine {
  import opened JobStates
  import R = RunJob

  datatype Action = Start | Stop | Disable | Restart | Ping | Halt | ForceStart

  /** Where a runner stands: in its select, inside `runJobWrapper`, sending on
      `jobDone` after a kill, about to give its token back, or gone. */
  datatype RunnerPc = Selecting | Wrapping(local: R.Local) | SendingDone | Releasing | Gone

  datatype Mode = NotAdmitted | ByToken | ByBypass

  /** `kills` and `dones` count the operations on the two channels: closing `kill`
      twice or `jobDone` twice would panic. `doneClosed` tells a close from a send. */
  datatype Runner = Runner(
    job: nat, params: R.Params, pc: RunnerPc, mode: Mode,
    kills: nat, dones: nat, doneClosed: bool, log: seq<R.Message>)

  /** Where a controller stands. `Off`: `Run` is not active. `KillNext` and `Joining`
      remember the action that stopped runner `k`. */
  datatype Ctl =
    | Off
    | TopOfLoop
    | Watching(k: nat)                 // the select of _wait_for_job
    | KillNext(k: nat, why: Action)    // the state is set, kill is about to be closed
    | Joining(k: nat, why: Action)     // receiving from jobDone
    | Sleeping                         // the pause after a restart
    | Idle                             // receiving the next action
    | Leaving                          // the deferred close of `disabled`

  datatype Job = Job(
    ctl: Ctl, state: JobState, inbox: seq<Action>, bypass: bool, exited: bool,
    forced: nat, params: R.Params)

  datatype System = System(jobs: seq<Job>, runners: seq<Runner>, tokens: nat)

  datatype Event =
    | NewJob(params: R.Params)
    | Reconfigure(j: nat, state: JobState, params: R.Params)
    | StartRun(j: nat)
    | Send(j: nat, a: Action)
    | Check(j: nat)
    | Receive(j: nat)
    | SeeDone(j: nat)
    | CloseKill(j: nat)
    | Join(j: nat)
    | Wake(j: nat)
    | Leave(j: nat)
    | TakeToken(k: nat)
    | TakeBypass(k: nat)
    | SeeKill(k: nat)
    | Advance(k: nat, c: R.Choice)
    | CloseDone(k: nat)
    | GiveBack(k: nat)

  const EMPTY := System([], [], 0)

  function NewRunner(j: nat, params: R.Params): Runner {
    Runner(j, params, Selecting, NotAdmitted, 0, 0, false, [])
  }

  /** The runner a controller watches or joins. */
  predicate Attached(ctl: Ctl) {
    ctl.Watching? || ctl.KillNext? || ctl.Joining?
  }

  predicate Current(s: System, k: nat)
    requires k < |s.runners|
  {
    var j := s.runners[k].job;
    j < |s.jobs| && Attached(s.jobs[j].ctl) && s.jobs[j].ctl.k == k
  }

  /** `jobDone` can be received: it is closed, or the runner is sending on it. */
  predicate CanJoin(r: Runner) {
    r.doneClosed || r.pc.SendingDone?
  }

  predicate Enabled(concurrent: nat, s: System, e: Event) {
    match e
    case NewJob(_) => true
    case Reconfigure(j, _, _) => j < |s.jobs| && s.jobs[j].ctl.Off?
    case StartRun(j) => j < |s.jobs| && s.jobs[j].ctl.Off?
    // the control channel holds one action, and no part of the worker sends jobPing
    case Send(j, a) => j < |s.jobs| && s.jobs[j].inbox == [] && a != Ping
    case Check(j) => j < |s.jobs| && s.jobs[j].ctl.TopOfLoop?
    case Receive(j) => j < |s.jobs| && (s.jobs[j].ctl.Watching? || s.jobs[j].ctl.Idle?) && s.jobs[j].inbox != []
    case SeeDone(j) =>
      j < |s.jobs| && s.jobs[j].ctl.Watching? && s.jobs[j].ctl.k < |s.runners| && CanJoin(s.runners[s.jobs[j].ctl.k])
    case CloseKill(j) => j < |s.jobs| && s.jobs[j].ctl.KillNext? && s.jobs[j].ctl.k < |s.runners|
    case Join(j) =>
      j < |s.jobs| && s.jobs[j].ctl.Joining? && s.jobs[j].ctl.k < |s.runners| && CanJoin(s.runners[s.jobs[j].ctl.k])
    case Wake(j) => j < |s.jobs| && s.jobs[j].ctl.Sleeping?
    case Leave(j) => j < |s.jobs| && s.jobs[j].ctl.Leaving?
    case TakeToken(k) => k < |s.runners| && s.runners[k].pc.Selecting? && s.tokens < concurrent
    case TakeBypass(k) =>
      k < |s.runners| && s.runners[k].pc.Selecting? && s.runners[k].job < |s.jobs| && s.jobs[s.runners[k].job].bypass
    case SeeKill(k) => k < |s.runners| && s.runners[k].pc.Selecting? && s.runners[k].kills > 0
    case Advance(k, c) =>
      && k < |s.runners| && s.runners[k].pc.Wrapping? && s.runners[k].job < |s.jobs|
      && R.CanStep(s.runners[k].params, s.runners[k].pc.local.pc, c, s.runners[k].kills > 0)
    case CloseDone(k) => k < |s.runners| && s.runners[k].pc.Wrapping? && s.runners[k].pc.local.pc.Returned?
    case GiveBack(k) => k < |s.runners| && s.runners[k].pc.Releasing? && s.tokens > 0
  }

  /** The job after taking action `a` out of its inbox, at the select or when idle. */
  function Handle(job: Job, a: Action): Job
    requires job.inbox != []
  {
    var rest := job.(inbox := job.inbox[1..]);
    var forced := if a.ForceStart? then rest.(bypass := true, forced := job.forced + 1) else rest;
    match job.ctl
    case Watching(k) =>
      (match a
       case Stop => rest.(state := Paused, ctl := KillNext(k, a))
       case Disable => rest.(state := Disabled, ctl := KillNext(k, a))
       case Restart => rest.(state := Ready, ctl := KillNext(k, a))
       case Halt => rest.(state := Halting, ctl := KillNext(k, a))
       case Start => rest.(state := Ready)
       case ForceStart => forced.(state := Ready)
       case Ping => rest.(ctl := KillNext(k, a)))
    case Idle =>
      (match a
       case Stop => rest.(state := Paused, ctl := TopOfLoop)
       case Disable => rest.(state := Disabled, ctl := Leaving)
       case ForceStart => forced.(state := Ready, ctl := TopOfLoop)
       case Restart => rest.(state := Ready, ctl := TopOfLoop)
       case Start => rest.(state := Ready, ctl := TopOfLoop)
       case _ => rest.(ctl := Leaving))
    case _ => job
  }

  /** Where a controller goes once the runner it stopped has signalled. */
  function AfterJoin(why: Action): Ctl {
    match why
    case Disable => Leaving
    case Halt => Leaving
    case Restart => Sleeping
    case _ => Idle
  }

  /** The runner after its `jobDone` was received: a pending send completes with it. */
  function Received(r: Runner): Runner {
    if r.pc.SendingDone? then r.(pc := Gone, dones := r.dones + 1) else r
  }

  function Fire(concurrent: nat, s: System, e: Event): System
    requires Enabled(concurrent, s, e)
  {
    match e
    case NewJob(params) =>
      s.(jobs := s.jobs + [Job(Off, StateNone, [], false, false, 0, params)])
    case Reconfigure(j, state, params) =>
      s.(jobs := s.jobs[j := s.jobs[j].(state := state, params := params)])
    case StartRun(j) =>
      s.(jobs := s.jobs[j := s.jobs[j].(ctl := TopOfLoop, bypass := false, exited := false)])
    case Send(j, a) =>
      s.(jobs := s.jobs[j := s.jobs[j].(inbox := [a])])
    case Check(j) =>
      if s.jobs[j].state.Ready? then
        s.(jobs := s.jobs[j := s.jobs[j].(ctl := Watching(|s.runners|))],
           runners := s.runners + [NewRunner(j, s.jobs[j].params)])
      else
        s.(jobs := s.jobs[j := s.jobs[j].(ctl := Idle)])
    case Receive(j) =>
      s.(jobs := s.jobs[j := Handle(s.jobs[j], s.jobs[j].inbox[0])])
    case SeeDone(j) =>
      var k := s.jobs[j].ctl.k;
      s.(jobs := s.jobs[j := s.jobs[j].(ctl := Idle)],
         runners := s.runners[k := Received(s.runners[k])])
    case CloseKill(j) =>
      var k, why := s.jobs[j].ctl.k, s.jobs[j].ctl.why;
      // the catch-all arm returns without joining
      s.(jobs := s.jobs[j := s.jobs[j].(ctl := if why.Ping? then Leaving else Joining(k, why))],
         runners := s.runners[k := s.runners[k].(kills := s.runners[k].kills + 1)])
    case Join(j) =>
      var k := s.jobs[j].ctl.k;
      s.(jobs := s.jobs[j := s.jobs[j].(ctl := AfterJoin(s.jobs[j].ctl.why))],
         runners := s.runners[k := Received(s.runners[k])])
    case Wake(j) =>
      s.(jobs := s.jobs[j := s.jobs[j].(ctl := TopOfLoop)])
    case Leave(j) =>
      s.(jobs := s.jobs[j := s.jobs[j].(ctl := Off, exited := true)])
    case TakeToken(k) =>
      s.(runners := s.runners[k := s.runners[k].(pc := Wrapping(R.START), mode := ByToken)], tokens := s.tokens + 1)
    case TakeBypass(k) =>
      var j := s.runners[k].job;
      s.(jobs := s.jobs[j := s.jobs[j].(bypass := false)],
         runners := s.runners[k := s.runners[k].(pc := Wrapping(R.START), mode := ByBypass)])
    case SeeKill(k) =>
      s.(runners := s.runners[k := s.runners[k].(pc := SendingDone)])
    case Advance(k, c) =>
      var r := s.runners[k];
      var local := R.Step(r.params, r.pc.local, c, s.jobs[r.job].state.Ready?, r.kills > 0);
      s.(runners := s.runners[k := r.(pc := Wrapping(local), log := local.log)])
    case CloseDone(k) =>
      var r := s.runners[k];
      var pc := if r.mode.ByToken? then Releasing else Gone;
      s.(runners := s.runners[k := r.(pc := pc, dones := r.dones + 1, doneClosed := true)])
    case GiveBack(k) =>
      s.(runners := s.runners[k := s.runners[k].(pc := Gone)], tokens := s.tokens - 1)
  }

  /** `s'` is reached from `s` by the events of `trace`, in order. */
  ghost predicate Reaches(concurrent: nat, s: System, trace: seq<Event>, s': System)
    decreases |trace|
  {
    if trace == [] then s == s'
    else Enabled(concurrent, s, trace[0]) && Reaches(concurrent, Fire(concurrent, s, trace[0]), trace[1..], s')
  }

  lemma {:induction false} ReachesNext(concurrent: nat, s: System, trace: seq<Event>, s': System, e: Event)
    requires Reaches(concurrent, s, trace, s') && Enabled(concurrent, s', e)
    ensures Reaches(concurrent, s, trace + [e], Fire(concurrent, s', e))
    decreases |trace|
  {
    var longer := trace + [e];
    if trace == [] {
      assert longer[1..] == [];
    } else {
      assert longer[0] == trace[0] && longer[1..] == trace[1..] + [e];
      ReachesNext(concurrent, Fire(concurrent, s, trace[0]), trace[1..], s', e);
    }
  }

  // ---------------------------------------------------------------- counting

  /** A runner that has put a token into the semaphore and not yet taken it back. */
  predicate Holds(r: Runner) {
    r.mode.ByToken? && (r.pc.Wrapping? || r.pc.Releasing?)
  }

  function Holders(rs: seq<Runner>): nat {
    if rs == [] then 0 else Holders(rs[..|rs| - 1]) + (if Holds(rs[|rs| - 1]) then 1 else 0)
  }

  /** Runners of job `j` that were admitted through the bypass channel. */
  function BypassRuns(rs: seq<Runner>, j: nat): nat {
    if rs == [] then 0
    else BypassRuns(rs[..|rs| - 1], j) + (if rs[|rs| - 1].job == j && rs[|rs| - 1].mode.ByBypass? then 1 else 0)
  }

  lemma {:induction false} HoldersUpdate(rs: seq<Runner>, k: nat, r: Runner)
    requires k < |rs|
    ensures Holders(rs[k := r]) - (if Holds(r) then 1 else 0) == Holders(rs) - (if Holds(rs[k]) then 1 else 0)
    ensures Holds(rs[k]) ==> Holders(rs) > 0
  {
    var n := |rs| - 1;
    if k < n {
      HoldersUpdate(rs[..n], k, r);
      assert rs[k := r][..n] == rs[..n][k := r];
    } else {
      assert rs[k := r][..n] == rs[..n];
    }
  }

  lemma {:induction false} BypassUpdate(rs: seq<Runner>, k: nat, r: Runner, j: nat)
    requires k < |rs| && r.job == rs[k].job
    ensures r.mode.ByBypass? == rs[k].mode.ByBypass? || j != r.job ==> BypassRuns(rs[k := r], j) == BypassRuns(rs, j)
    ensures r.mode.ByBypass? && !rs[k].mode.ByBypass? && j == r.job ==>
              BypassRuns(rs[k := r], j) == BypassRuns(rs, j) + 1
  {
    var n := |rs| - 1;
    if k < n {
      BypassUpdate(rs[..n], k, r, j);
      assert rs[k := r][..n] == rs[..n][k := r];
    } else {
      assert rs[k := r][..n] == rs[..n];
    }
  }

  lemma Appended(rs: seq<Runner>, r: Runner, j: nat)
    requires r.mode.NotAdmitted?
    ensures Holders(rs + [r]) == Holders(rs) && BypassRuns(rs + [r], j) == BypassRuns(rs, j)
  {
    assert (rs + [r])[..|rs|] == rs;
  }

  // ---------------------------------------------------------------- invariant

  ghost predicate RunnerOk(s: System, k: nat)
    requires k < |s.runners|
  {
    var r := s.runners[k];
    && r.job < |s.jobs|
    && r.dones == (if r.pc.Releasing? || r.pc.Gone? then 1 else 0)
    && (r.doneClosed ==> r.dones == 1)
    && (r.pc.Releasing? ==> r.doneClosed)
    && (Current(s, k) && r.dones == 1 ==> r.doneClosed)
    && (!Current(s, k) ==> r.dones == 1)
    && r.kills <= 1
    && (Current(s, k) && !s.jobs[r.job].ctl.Joining? ==> r.kills == 0)
    && (Current(s, k) && s.jobs[r.job].ctl.Joining? ==> r.kills == 1)
    && (r.pc.SendingDone? ==> r.kills == 1)
    && (r.pc.Selecting? || r.pc.SendingDone? ==> r.mode.NotAdmitted?)
    && (r.pc.Wrapping? ==> !r.mode.NotAdmitted?)
    && (r.pc.Releasing? ==> r.mode.ByToken?)
    && (r.pc.Wrapping? ==> r.log == r.pc.local.log && R.Shape(r.params, r.pc.local))
    && (r.mode.NotAdmitted? ==> r.log == [])
    && (r.dones == 1 && !r.mode.NotAdmitted? ==> R.Stream(r.params, r.log))
  }

  ghost predicate JobOk(s: System, j: nat)
    requires j < |s.jobs|
  {
    var job := s.jobs[j];
    && |job.inbox| <= 1
    && Ping !in job.inbox
    && (Attached(job.ctl) ==> job.ctl.k < |s.runners| && s.runners[job.ctl.k].job == j
                              && s.runners[job.ctl.k].params == job.params)
    && (job.ctl.KillNext? || job.ctl.Joining? ==> job.ctl.why in {Stop, Disable, Restart, Halt})
    && BypassRuns(s.runners, j) + (if job.bypass then 1 else 0) <= job.forced
  }

  ghost predicate Inv(concurrent: nat, s: System) {
    && (forall k: nat :: k < |s.runners| ==> RunnerOk(s, k))
    && (forall j: nat :: j < |s.jobs| ==> JobOk(s, j))
    && s.tokens == Holders(s.runners) <= concurrent
  }

  /** What is left to show when an event changed one job and no runner. */
  lemma JobChangeKeepsInv(concurrent: nat, s: System, s': System, j: nat)
    requires Inv(concurrent, s) && j < |s.jobs| && |s'.jobs| == |s.jobs|
    requires s' == s.(jobs := s.jobs[j := s'.jobs[j]])
    requires Attached(s'.jobs[j].ctl) == Attached(s.jobs[j].ctl)
    requires Attached(s'.jobs[j].ctl) ==>
               s'.jobs[j].ctl.k == s.jobs[j].ctl.k && s'.jobs[j].ctl.Joining? == s.jobs[j].ctl.Joining?
    requires JobOk(s', j)
    ensures Inv(concurrent, s')
  {
    forall k: nat | k < |s'.runners|
      ensures RunnerOk(s', k)
    {
      assert RunnerOk(s, k);
    }
    forall i: nat | i < |s'.jobs|
      ensures JobOk(s', i)
    {
      assert JobOk(s, i);
    }
  }

  lemma JobEventKeepsInv(concurrent: nat, s: System, e: Event)
    requires Inv(concurrent, s) && Enabled(concurrent, s, e)
    requires e.Reconfigure? || e.StartRun? || e.Send? || e.Wake? || e.Leave?
    ensures Inv(concurrent, Fire(concurrent, s, e))
  {
    assert JobOk(s, e.j);
    JobChangeKeepsInv(concurrent, s, Fire(concurrent, s, e), e.j);
  }

  lemma HandleFacts(job: Job)
    requires |job.inbox| == 1 && Ping !in job.inbox && (job.ctl.Watching? || job.ctl.Idle?)
    ensures var job' := Handle(job, job.inbox[0]);
            && job'.inbox == [] && job'.params == job.params
            && Attached(job'.ctl) == Attached(job.ctl)
            && (Attached(job.ctl) ==> job'.ctl.k == job.ctl.k && !job'.ctl.Joining?)
            && (job'.ctl.KillNext? ==> job'.ctl.why in {Stop, Disable, Restart, Halt})
            && (job'.bypass && !job.bypass ==> job'.forced == job.forced + 1)
            && (job.bypass ==> job'.bypass) && job.forced <= job'.forced
  {
    assert job.inbox[0] in job.inbox;
  }

  lemma ReceiveKeepsInv(concurrent: nat, s: System, j: nat)
    requires Inv(concurrent, s) && Enabled(concurrent, s, Receive(j))
    ensures Inv(concurrent, Fire(concurrent, s, Receive(j)))
  {
    assert JobOk(s, j);
    HandleFacts(s.jobs[j]);
    JobChangeKeepsInv(concurrent, s, Fire(concurrent, s, Receive(j)), j);
  }

  lemma NewJobKeepsInv(concurrent: nat, s: System, params: R.Params)
    requires Inv(concurrent, s)
    ensures Inv(concurrent, Fire(concurrent, s, NewJob(params)))
  {
    var s' := Fire(concurrent, s, NewJob(params));
    forall k: nat | k < |s'.runners|
      ensures RunnerOk(s', k)
    {
      assert RunnerOk(s, k);
    }
    forall j: nat | j < |s'.jobs|
      ensures JobOk(s', j)
    {
      if j < |s.jobs| {
        assert JobOk(s, j);
      } else {
        NoBypassYet(concurrent, s, s.runners, j);
      }
    }
  }

  lemma {:induction false} NoBypassYet(concurrent: nat, s: System, rs: seq<Runner>, j: nat)
    requires Inv(concurrent, s) && rs <= s.runners && j >= |s.jobs|
    ensures BypassRuns(rs, j) == 0
  {
    if rs != [] {
      NoBypassYet(concurrent, s, rs[..|rs| - 1], j);
      assert RunnerOk(s, |rs| - 1);
    }
  }

  lemma CheckKeepsInv(concurrent: nat, s: System, j: nat)
    requires Inv(concurrent, s) && Enabled(concurrent, s, Check(j))
    ensures Inv(concurrent, Fire(concurrent, s, Check(j)))
  {
    var s' := Fire(concurrent, s, Check(j));
    forall k: nat | k < |s'.runners|
      ensures RunnerOk(s', k)
    {
      if k < |s.runners| {
        assert RunnerOk(s, k);
      }
    }
    Appended(s.runners, NewRunner(j, s.jobs[j].params), j);
    forall i: nat | i < |s'.jobs|
      ensures JobOk(s', i)
    {
      assert JobOk(s, i);
      Appended(s.runners, NewRunner(j, s.jobs[j].params), i);
    }
  }

  /** What is left to show when a controller event also changed the runner it is attached to. */
  lemma AttachedChangeKeepsInv(concurrent: nat, s: System, s': System, j: nat, k: nat)
    requires Inv(concurrent, s) && j < |s.jobs| && |s'.jobs| == |s.jobs| && |s'.runners| == |s.runners|
    requires Attached(s.jobs[j].ctl) && s.jobs[j].ctl.k == k < |s.runners| && s.runners[k].job == j
    requires s' == s.(jobs := s.jobs[j := s'.jobs[j]], runners := s.runners[k := s'.runners[k]])
    requires s'.runners[k].job == j && s'.runners[k].params == s.runners[k].params
    requires s'.runners[k].mode == s.runners[k].mode && Holds(s'.runners[k]) == Holds(s.runners[k])
    requires Attached(s'.jobs[j].ctl) ==> s.jobs[j].ctl.KillNext? && s'.jobs[j].ctl == Joining(k, s.jobs[j].ctl.why)
    requires s'.jobs[j] == s.jobs[j].(ctl := s'.jobs[j].ctl)
    requires Attached(s'.jobs[j].ctl) ==> s'.jobs[j].ctl.why in {Stop, Disable, Restart, Halt}
    requires RunnerOk(s', k)
    ensures Inv(concurrent, s')
  {
    assert JobOk(s, j);
    forall i: nat | i < |s'.runners|
      ensures RunnerOk(s', i)
    {
      assert RunnerOk(s, i);
    }
    HoldersUpdate(s.runners, k, s'.runners[k]);
    forall i: nat | i < |s'.jobs|
      ensures JobOk(s', i)
    {
      assert JobOk(s, i);
      BypassUpdate(s.runners, k, s'.runners[k], i);
    }
  }

  lemma CloseKillKeepsInv(concurrent: nat, s: System, j: nat)
    requires Inv(concurrent, s) && Enabled(concurrent, s, CloseKill(j))
    ensures Inv(concurrent, Fire(concurrent, s, CloseKill(j)))
  {
    var s', k := Fire(concurrent, s, CloseKill(j)), s.jobs[j].ctl.k;
    assert JobOk(s, j) && RunnerOk(s, k);
    assert Current(s, k) && Current(s', k);
    AttachedChangeKeepsInv(concurrent, s, s', j, k);
  }

  lemma JoinKeepsInv(concurrent: nat, s: System, e: Event)
    requires Inv(concurrent, s) && Enabled(concurrent, s, e)
    requires e.SeeDone? || e.Join?
    ensures Inv(concurrent, Fire(concurrent, s, e))
  {
    var s', k := Fire(concurrent, s, e), s.jobs[e.j].ctl.k;
    assert JobOk(s, e.j) && RunnerOk(s, k);
    assert Current(s, k) && !Current(s', k);
    AttachedChangeKeepsInv(concurrent, s, s', e.j, k);
  }

  /** What is left to show when an event changed one runner and no job but its bypass channel. */
  lemma RunnerChangeKeepsInv(concurrent: nat, s: System, s': System, k: nat)
    requires Inv(concurrent, s) && k < |s.runners| && |s'.runners| == |s.runners| && |s'.jobs| == |s.jobs|
    requires s'.runners == s.runners[k := s'.runners[k]]
    requires s'.runners[k].job == s.runners[k].job && s'.runners[k].params == s.runners[k].params
    requires forall j: nat :: j < |s.jobs| ==> s'.jobs[j] == s.jobs[j].(bypass := s'.jobs[j].bypass)
    requires RunnerOk(s', k)
    requires forall j: nat :: j < |s.jobs| && s'.jobs[j].bypass != s.jobs[j].bypass ==>
               j == s.runners[k].job && s.jobs[j].bypass
    requires s'.runners[k].mode.ByBypass? != s.runners[k].mode.ByBypass? ==>
               s'.runners[k].mode.ByBypass? && s'.jobs[s.runners[k].job].bypass != s.jobs[s.runners[k].job].bypass
    requires s'.tokens - (if Holds(s'.runners[k]) then 1 else 0) == s.tokens - (if Holds(s.runners[k]) then 1 else 0)
    requires s'.tokens <= concurrent
    ensures Inv(concurrent, s')
  {
    forall i: nat | i < |s'.runners|
      ensures RunnerOk(s', i)
    {
      assert RunnerOk(s, i);
    }
    HoldersUpdate(s.runners, k, s'.runners[k]);
    forall i: nat | i < |s'.jobs|
      ensures JobOk(s', i)
    {
      assert JobOk(s, i);
      BypassUpdate(s.runners, k, s'.runners[k], i);
    }
  }

  /** Events of a runner at its select or on its way out. */
  lemma RunnerEventKeepsInv(concurrent: nat, s: System, e: Event)
    requires Inv(concurrent, s) && Enabled(concurrent, s, e)
    requires e.TakeToken? || e.TakeBypass? || e.SeeKill? || e.CloseDone? || e.GiveBack?
    ensures Inv(concurrent, Fire(concurrent, s, e))
  {
    var s', k := Fire(concurrent, s, e), e.k;
    assert RunnerOk(s, k);
    assert Current(s', k) == Current(s, k);
    assert RunnerOk(s', k);
    RunnerChangeKeepsInv(concurrent, s, s', k);
  }

  lemma AdvanceKeepsInv(concurrent: nat, s: System, k: nat, c: R.Choice)
    requires Inv(concurrent, s) && Enabled(concurrent, s, Advance(k, c))
    ensures Inv(concurrent, Fire(concurrent, s, Advance(k, c)))
  {
    var s', r := Fire(concurrent, s, Advance(k, c)), s.runners[k];
    assert RunnerOk(s, k);
    R.StepKeepsShape(r.params, r.pc.local, c, s.jobs[r.job].state.Ready?, r.kills > 0);
    assert RunnerOk(s', k);
    RunnerChangeKeepsInv(concurrent, s, s', k);
  }

  lemma EventKeepsInv(concurrent: nat, s: System, e: Event)
    requires Inv(concurrent, s) && Enabled(concurrent, s, e)
    ensures Inv(concurrent, Fire(concurrent, s, e))
  {
    match e
    case Check(j) => CheckKeepsInv(concurrent, s, j);
    case SeeDone(_) => JoinKeepsInv(concurrent, s, e);
    case CloseKill(j) => CloseKillKeepsInv(concurrent, s, j);
    case Join(_) => JoinKeepsInv(concurrent, s, e);
    case NewJob(params) => NewJobKeepsInv(concurrent, s, params);
    case Advance(k, c) => AdvanceKeepsInv(concurrent, s, k, c);
    case Reconfigure(_, _, _) => JobEventKeepsInv(concurrent, s, e);
    case StartRun(_) => JobEventKeepsInv(concurrent, s, e);
    case Send(_, _) => JobEventKeepsInv(concurrent, s, e);
    case Receive(j) => ReceiveKeepsInv(concurrent, s, j);
    case Wake(_) => JobEventKeepsInv(concurrent, s, e);
    case Leave(_) => JobEventKeepsInv(concurrent, s, e);
    case _ => RunnerEventKeepsInv(concurrent, s, e);
  }

  lemma {:induction false} ReachableInv(concurrent: nat, s: System, trace: seq<Event>, s': System)
    requires Inv(concurrent, s) && Reaches(concurrent, s, trace, s')
    ensures Inv(concurrent, s')
    decreases |trace|
  {
    if trace != [] {
      EventKeepsInv(concurrent, s, trace[0]);
      ReachableInv(concurrent, Fire(concurrent, s, trace[0]), trace[1..], s');
    }
  }

  // ---------------------------------------------------------------- safety

  /** At most one run of `runJobWrapper` per job is active at any time; each `kill`
      is closed at most once; each `jobDone` is signalled at most once, and exactly
      once by every runner that left. */
  lemma OneRunPerJob(concurrent: nat, trace: seq<Event>, s: System)
    requires Reaches(concurrent, EMPTY, trace, s)
    ensures forall k: nat, k': nat :: k < |s.runners| && k' < |s.runners|
              && s.runners[k].pc.Wrapping? && s.runners[k'].pc.Wrapping? && s.runners[k].job == s.runners[k'].job
              ==> k == k'
    ensures forall k: nat :: k < |s.runners| ==> s.runners[k].kills <= 1 && s.runners[k].dones <= 1
    ensures forall k: nat :: k < |s.runners| && (s.runners[k].pc.Gone? || s.runners[k].pc.Releasing?) ==>
              s.runners[k].dones == 1
  {
    ReachableInv(concurrent, EMPTY, trace, s);
    forall k: nat | k < |s.runners|
      ensures s.runners[k].kills <= 1 && s.runners[k].dones <= 1
      ensures s.runners[k].pc.Gone? || s.runners[k].pc.Releasing? ==> s.runners[k].dones == 1
      ensures s.runners[k].pc.Wrapping? ==> Current(s, k)
    {
      assert RunnerOk(s, k);
    }
  }

  /** Whenever a controller spawns a runner, every earlier runner of the job has signalled. */
  lemma SpawnAfterDone(concurrent: nat, trace: seq<Event>, s: System, j: nat)
    requires Reaches(concurrent, EMPTY, trace, s)
    requires Enabled(concurrent, s, Check(j))
    ensures forall k: nat :: k < |s.runners| && s.runners[k].job == j ==> s.runners[k].dones == 1
  {
    ReachableInv(concurrent, EMPTY, trace, s);
    forall k: nat | k < |s.runners| && s.runners[k].job == j
      ensures s.runners[k].dones == 1
    {
      assert RunnerOk(s, k);
    }
  }

  /** The semaphore holds exactly one token per runner that was admitted by it and
      has not given it back, never more than the limit; the runs that went round the
      limit never exceed the force-starts the controller consumed. */
  lemma TokensMatchHolders(concurrent: nat, trace: seq<Event>, s: System)
    requires Reaches(concurrent, EMPTY, trace, s)
    ensures s.tokens == Holders(s.runners) && s.tokens <= concurrent
    ensures forall k: nat :: k < |s.runners| && s.runners[k].pc.Releasing? ==> s.tokens > 0
    ensures forall j: nat :: j < |s.jobs| ==> BypassRuns(s.runners, j) <= s.jobs[j].forced
  {
    ReachableInv(concurrent, EMPTY, trace, s);
    forall k: nat | k < |s.runners| && s.runners[k].pc.Releasing?
      ensures s.tokens > 0
    {
      assert RunnerOk(s, k);
      HoldersUpdate(s.runners, k, s.runners[k]);
    }
    forall j: nat | j < |s.jobs|
      ensures BypassRuns(s.runners, j) <= s.jobs[j].forced
    {
      assert JobOk(s, j);
    }
  }

  predicate IsRunnerEvent(e: Event) {
    e.TakeToken? || e.TakeBypass? || e.SeeKill? || e.Advance? || e.CloseDone? || e.GiveBack?
  }

  /** No step of a bypass run, from its admission to its end, puts a token into the
      semaphore or takes one out. */
  lemma BypassKeepsTokens(concurrent: nat, trace: seq<Event>, s: System, e: Event)
    requires Reaches(concurrent, EMPTY, trace, s)
    requires Enabled(concurrent, s, e) && IsRunnerEvent(e) && Fire(concurrent, s, e).runners[e.k].mode.ByBypass?
    ensures Fire(concurrent, s, e).tokens == s.tokens
  {
    ReachableInv(concurrent, EMPTY, trace, s);
    assert RunnerOk(s, e.k);
  }

  /** Whatever interleaving a run went through, and whichever states its job took
      meanwhile, the messages of a finished run form a complete stream; a runner
      that was never admitted sent nothing. */
  lemma FinishedRunsAreStreams(concurrent: nat, trace: seq<Event>, s: System)
    requires Reaches(concurrent, EMPTY, trace, s)
    ensures forall k: nat :: k < |s.runners| && s.runners[k].dones == 1 && !s.runners[k].mode.NotAdmitted?
              ==> R.Stream(s.runners[k].params, s.runners[k].log)
    ensures forall k: nat :: k < |s.runners| && s.runners[k].mode.NotAdmitted? ==> s.runners[k].log == []
  {
    ReachableInv(concurrent, EMPTY, trace, s);
    forall k: nat | k < |s.runners|
      ensures s.runners[k].dones == 1 && !s.runners[k].mode.NotAdmitted? ==>
                R.Stream(s.runners[k].params, s.runners[k].log)
      ensures s.runners[k].mode.NotAdmitted? ==> s.runners[k].log == []
    {
      assert RunnerOk(s, k);
    }
  }

  /** The arm of the select that returns without joining the runner is never taken. */
  lemma CatchAllUnreached(concurrent: nat, trace: seq<Event>, s: System, j: nat)
    requires Reaches(concurrent, EMPTY, trace, s)
    requires Enabled(concurrent, s, CloseKill(j))
    ensures !s.jobs[j].ctl.why.Ping? && Fire(concurrent, s, CloseKill(j)).jobs[j].ctl.Joining?
  {
    ReachableInv(concurrent, EMPTY, trace, s);
    assert JobOk(s, j);
  }
}
