/** One sync run of a mirror job: the closure `runJobWrapper` of worker/job.go.

    The closure is modelled twice. `Wrapper.Run` is the loop itself, proved against a
    specification function of everything the environment decides. `Step` is the
    same control flow cut at every point where another goroutine may interleave;
    the job engine runs it beside the controller. Both are tied to one grammar,
    `Stream`, of complete message streams.
 */
module RunJob {

  datatype SyncStatus = None | Failed | Success | Syncing | PreSyncing | Paused | Disabled

  /** A message to the worker. Its text is reduced to whether a failed hook wrote it. */
  datatype Message = Message(status: SyncStatus, hookError: bool, schedule: bool)

  const PRE_SYNCING := Message(PreSyncing, false, false)
  const SYNCING := Message(Syncing, false, false)
  const HOOK_FAILED := Message(Failed, true, true)

  function Succeeded(schedule: bool): Message {
    Message(Success, false, schedule)
  }

  function SyncFailed(schedule: bool): Message {
    Message(Failed, false, schedule)
  }

  datatype Phase = PreJob | PreExec | PostExec | PostSuccess | PostFail

  /** How the second select of an attempt ended; all but SyncOk leave an error. */
  datatype SyncResult = SyncOk | SyncErr | TimedOut | Killed

  /** What a provider fixes for a run: `Retry()` and the number of hooks. */
  datatype Params = Params(retries: int, hooks: nat)

  // ---------------------------------------------------------------- grammar

  /** The messages of `r` attempts that failed and were retried, after the announcement. */
  function Retried(r: nat): (log: seq<Message>)
    ensures |log| == 1 + 2 * r
    ensures log[0] == PRE_SYNCING
    ensures forall i :: 0 < i < |log| ==> log[i] == if i % 2 == 1 then SYNCING else SyncFailed(false)
  {
    if r == 0 then [PRE_SYNCING] else Retried(r - 1) + [SYNCING, SyncFailed(false)]
  }

  /** What may follow `Retried(r)` and end the run. */
  datatype Ending =
    | HookBeforeSync                 // a pre-job or pre-exec hook failed
    | TerminateFailed                // no message: the provider could not be terminated
    | HookAfterSync                  // a post-exec, post-success or post-fail hook failed
    | SyncSucceeded(ready: bool)
    | SyncStopped                    // killed before the last attempt
    | SyncGaveUp(ready: bool)        // the last attempt failed
    | NoAttempt                      // `Retry()` is not positive

  function EndingLog(e: Ending): seq<Message> {
    match e
    case HookBeforeSync => [HOOK_FAILED]
    case TerminateFailed => [SYNCING]
    case HookAfterSync => [SYNCING, HOOK_FAILED]
    case SyncSucceeded(ready) => [SYNCING, Succeeded(ready)]
    case SyncStopped => [SYNCING, SyncFailed(false)]
    case SyncGaveUp(ready) => [SYNCING, SyncFailed(ready)]
    case NoAttempt => []
  }

  predicate EndingAllowed(p: Params, r: nat, e: Ending) {
    match e
    case HookBeforeSync => (r == 0 || r < p.retries) && p.hooks > 0
    case TerminateFailed => r < p.retries
    case HookAfterSync => r < p.retries && p.hooks > 0
    case SyncSucceeded(_) => r < p.retries
    case SyncStopped => r < p.retries - 1
    case SyncGaveUp(_) => r == p.retries - 1
    case NoAttempt => r == 0 && p.retries <= 0
  }

  /** `log` is a complete stream: attempts that failed and were retried, then one ending. */
  ghost predicate Stream(p: Params, log: seq<Message>) {
    exists r: nat, e: Ending :: EndingAllowed(p, r, e) && log == Retried(r) + EndingLog(e)
  }

  /** One message of a complete stream, by its place. */
  lemma StreamAt(p: Params, log: seq<Message>, r: nat, e: Ending, i: int)
    requires EndingAllowed(p, r, e) && log == Retried(r) + EndingLog(e)
    requires 0 < i < |log|
    ensures log[i].status != PreSyncing
    ensures i % 2 == 1 ==> log[i] == SYNCING || (log[i] == HOOK_FAILED && i == |log| - 1)
    ensures i % 2 == 0 ==> log[i].status == Failed || log[i].status == Success
    ensures log[i].status == Success || log[i].hookError || log[i].schedule ==> i == |log| - 1
  {
    var base := Retried(r);
    if i < |base| {
      assert log[i] == base[i];
    } else {
      assert log[i] == EndingLog(e)[i - |base|];
      if i == |base| {
        assert i == 2 * r + 1;
      } else {
        assert i == 2 * (r + 1);
      }
    }
  }

  /** What every complete stream promises its readers. */
  lemma StreamFacts(p: Params, log: seq<Message>)
    requires Stream(p, log)
    ensures 1 <= |log| && log[0] == PRE_SYNCING
    ensures forall i :: 0 < i < |log| ==> log[i].status != PreSyncing
    ensures p.retries >= 1 ==> 2 <= |log| <= 1 + 2 * p.retries
    ensures p.retries <= 0 ==> |log| <= 2
    ensures forall i :: 0 < i < |log| && i % 2 == 1 ==> log[i] == SYNCING || (log[i] == HOOK_FAILED && i == |log| - 1)
    ensures forall i :: 0 < i < |log| && i % 2 == 0 ==> log[i].status == Failed || log[i].status == Success
    ensures forall i :: 0 <= i < |log| && (log[i].status == Success || log[i].hookError || log[i].schedule) ==>
              i == |log| - 1
  {
    var r: nat, e: Ending :| EndingAllowed(p, r, e) && log == Retried(r) + EndingLog(e);
    assert log[0] == Retried(r)[0];
    forall i | 0 < i < |log|
      ensures log[i].status != PreSyncing
      ensures i % 2 == 1 ==> log[i] == SYNCING || (log[i] == HOOK_FAILED && i == |log| - 1)
      ensures i % 2 == 0 ==> log[i].status == Failed || log[i].status == Success
      ensures log[i].status == Success || log[i].hookError || log[i].schedule ==> i == |log| - 1
    {
      StreamAt(p, log, r, e, i);
    }
  }

  // ---------------------------------------------------------------- the loop

  /** Everything outside the closure decides: hook results by phase, attempt and
      index; whether the provider failed to start; how the attempt ended; whether
      `Terminate` failed; and whether the job state was Ready at the report. */
  datatype Env = Env(
    hookOk: (Phase, nat, nat) -> bool,
    startError: nat -> bool,
    sync: nat -> SyncResult,
    termError: nat -> bool,
    ready: nat -> bool)

  /** A provider that failed to start cannot be reported as a success later. */
  function ResultOf(env: Env, r: nat): SyncResult {
    if env.startError(r) && env.sync(r).SyncOk? then SyncErr else env.sync(r)
  }

  ghost predicate AllPass(p: Params, env: Env, phase: Phase, r: nat) {
    forall i: nat :: i < p.hooks ==> env.hookOk(phase, r, i)
  }

  predicate NeedsTerminate(res: SyncResult) {
    res.TimedOut? || res.Killed?
  }

  function Closing(res: SyncResult): Phase {
    if res.SyncOk? then PostSuccess else PostFail
  }

  /** The messages of attempt `r` alone. */
  ghost function Attempt(p: Params, env: Env, r: nat): seq<Message> {
    var res := ResultOf(env, r);
    if !AllPass(p, env, PreExec, r) then [HOOK_FAILED]
    else if NeedsTerminate(res) && env.termError(r) then [SYNCING]
    else if !AllPass(p, env, PostExec, r) || !AllPass(p, env, Closing(res), r) then [SYNCING, HOOK_FAILED]
    else if res.SyncOk? then [SYNCING, Succeeded(env.ready(r))]
    else [SYNCING, SyncFailed(r == p.retries - 1 && env.ready(r))]
  }

  /** Whether the loop goes on after attempt `r`: only after a failed sync that nobody killed. */
  ghost predicate Continues(p: Params, env: Env, r: nat) {
    var res := ResultOf(env, r);
    && (res.SyncErr? || (res.TimedOut? && !env.termError(r)))
    && AllPass(p, env, PreExec, r) && AllPass(p, env, PostExec, r) && AllPass(p, env, PostFail, r)
  }

  /** The messages from the start of attempt `r` on. */
  ghost function Attempts(p: Params, env: Env, r: nat): seq<Message>
    decreases p.retries - r
  {
    if r >= p.retries then []
    else if Continues(p, env, r) then Attempt(p, env, r) + Attempts(p, env, r + 1)
    else Attempt(p, env, r)
  }

  ghost function StreamOf(p: Params, env: Env): seq<Message> {
    [PRE_SYNCING] + (if AllPass(p, env, PreJob, 0) then Attempts(p, env, 0) else [HOOK_FAILED])
  }

  /** When an attempt is a success: the provider started, its sync went well, and every
      hook of the three phases passed. A provider that failed to start never is. */
  lemma AttemptSucceedsIff(p: Params, env: Env, r: nat)
    ensures (exists m :: m in Attempt(p, env, r) && m.status.Success?)
            <==> && !env.startError(r) && env.sync(r).SyncOk?
                 && (forall i: nat :: i < p.hooks ==> env.hookOk(PreExec, r, i))
                 && (forall i: nat :: i < p.hooks ==> env.hookOk(PostExec, r, i))
                 && (forall i: nat :: i < p.hooks ==> env.hookOk(PostSuccess, r, i))
  {
    var log := Attempt(p, env, r);
    if AllPass(p, env, PreExec, r) && AllPass(p, env, PostExec, r) && AllPass(p, env, PostSuccess, r)
       && !env.startError(r) && env.sync(r).SyncOk? {
      assert log[1] in log;
    }
  }

  /** After which attempts another follows: those whose hooks all passed, and whose sync
      failed, or timed out and was terminated. */
  lemma GoesOnIff(p: Params, env: Env, r: nat)
    ensures Continues(p, env, r)
            <==> && (|| env.sync(r).SyncErr? || (env.sync(r).SyncOk? && env.startError(r))
                     || (env.sync(r).TimedOut? && !env.termError(r)))
                 && (forall i: nat :: i < p.hooks ==>
                       env.hookOk(PreExec, r, i) && env.hookOk(PostExec, r, i) && env.hookOk(PostFail, r, i))
  {
  }

  class Wrapper {
    /** What has been sent to the worker's channel. */
    var sent: seq<Message>

    constructor ()
      ensures sent == []
    {
      sent := [];
    }

    /** `runHooks`: stops at the first hook that fails and reports it. */
    method RunHooks(p: Params, env: Env, phase: Phase, r: nat) returns (ok: bool)
      modifies this
      ensures ok == AllPass(p, env, phase, r)
      ensures sent == if ok then old(sent) else old(sent) + [HOOK_FAILED]
    {
      var i := 0;
      while i < p.hooks
        invariant 0 <= i <= p.hooks
        invariant forall k: nat :: k < i ==> env.hookOk(phase, r, k)
        invariant sent == old(sent)
      {
        if !env.hookOk(phase, r, i) {
          sent := sent + [HOOK_FAILED];
          return false;
        }
        i := i + 1;
      }
      return true;
    }

    /** The body of the retry loop. */
    method RunAttempt(p: Params, env: Env, retry: nat) returns (again: bool)
      modifies this
      ensures sent == old(sent) + Attempt(p, env, retry)
      ensures again == Continues(p, env, retry)
    {
      var stopASAP := false;
      var ok := RunHooks(p, env, PreExec, retry);
      if !ok {
        return false;
      }
      sent := sent + [SYNCING];
      var res := ResultOf(env, retry);
      if res.TimedOut? {
        if env.termError(retry) {
          return false;
        }
      } else if res.Killed? {
        stopASAP := true;
        if env.termError(retry) {
          return false;
        }
      }
      ok := RunHooks(p, env, PostExec, retry);
      if !ok {
        return false;
      }
      if res.SyncOk? {
        ok := RunHooks(p, env, PostSuccess, retry);
      } else {
        ok := RunHooks(p, env, PostFail, retry);
      }
      if !ok {
        return false;
      }
      if res.SyncOk? {
        sent := sent + [Succeeded(env.ready(retry))];
        return false;
      }
      sent := sent + [SyncFailed(retry == p.retries - 1 && env.ready(retry))];
      return !stopASAP;
    }

    method Run(p: Params, env: Env)
      modifies this
      ensures sent == old(sent) + StreamOf(p, env)
    {
      sent := sent + [PRE_SYNCING];
      var ok := RunHooks(p, env, PreJob, 0);
      if !ok {
        assert sent == old(sent) + ([PRE_SYNCING] + [HOOK_FAILED]);
        return;
      }
      ghost var done := [PRE_SYNCING];
      var retry := 0;
      while retry < p.retries
        invariant 0 <= retry
        invariant sent == old(sent) + done
        invariant done + Attempts(p, env, retry) == StreamOf(p, env)
        decreases p.retries - retry
      {
        ghost var more := Attempt(p, env, retry);
        var again := RunAttempt(p, env, retry);
        Reassociate(old(sent), done, more);
        if !again {
          return;
        }
        Reassociate(done, more, Attempts(p, env, retry + 1));
        done := done + more;
        retry := retry + 1;
      }
      assert done + [] == done;
    }
  }

  lemma Reassociate(a: seq<Message>, b: seq<Message>, c: seq<Message>)
    ensures (a + b) + c == a + (b + c)
  {
  }

  /** How a run ends that reaches attempt `r` and goes no further. */
  ghost function EndingOf(p: Params, env: Env, r: nat): Ending {
    var res := ResultOf(env, r);
    if !AllPass(p, env, PreExec, r) then HookBeforeSync
    else if NeedsTerminate(res) && env.termError(r) then TerminateFailed
    else if !AllPass(p, env, PostExec, r) || !AllPass(p, env, Closing(res), r) then HookAfterSync
    else if res.SyncOk? then SyncSucceeded(env.ready(r))
    else if r == p.retries - 1 then SyncGaveUp(env.ready(r))
    else SyncStopped
  }

  lemma {:induction false} AttemptsMatch(p: Params, env: Env, r: nat)
    requires r < p.retries
    ensures Stream(p, Retried(r) + Attempts(p, env, r))
    decreases p.retries - r
  {
    if Continues(p, env, r) && r < p.retries - 1 {
      AttemptsMatch(p, env, r + 1);
      RetriedNext(r, Attempts(p, env, r + 1));
    } else {
      var e := EndingOf(p, env, r);
      assert Attempts(p, env, r) == EndingLog(e) by {
        assert Continues(p, env, r) ==> Attempts(p, env, r + 1) == [];
      }
      EndsAs(p, Retried(r) + Attempts(p, env, r), r, e);
    }
  }

  /** Every run emits a stream of the grammar. */
  lemma StreamOfMatches(p: Params, env: Env)
    ensures Stream(p, StreamOf(p, env))
  {
    assert Retried(0) == [PRE_SYNCING];
    if !AllPass(p, env, PreJob, 0) {
      assert EndingAllowed(p, 0, HookBeforeSync);
      assert StreamOf(p, env) == Retried(0) + EndingLog(HookBeforeSync);
    } else if p.retries <= 0 {
      assert EndingAllowed(p, 0, NoAttempt);
      assert StreamOf(p, env) == Retried(0) + EndingLog(NoAttempt);
    } else {
      AttemptsMatch(p, env, 0);
    }
  }

  /** An environment in which the first `r` attempts fail and the next one ends as `e` says. */
  function Witness(r: nat, e: Ending): Env {
    Env(
      (phase: Phase, k: nat, i: nat) =>
        !(e.HookBeforeSync? && phase.PreExec? && k == r)
        && !(e.HookBeforeSync? && phase.PreJob? && r == 0)
        && !(e.HookAfterSync? && phase.PostExec? && k == r),
      (k: nat) => false,
      (k: nat) =>
        if k < r then SyncErr
        else if e.TerminateFailed? || e.SyncStopped? then Killed
        else if e.SyncSucceeded? then SyncOk
        else SyncErr,
      (k: nat) => e.TerminateFailed?,
      (k: nat) => (e.SyncSucceeded? && e.ready) || (e.SyncGaveUp? && e.ready))
  }

  lemma WitnessEnds(p: Params, r: nat, e: Ending)
    requires EndingAllowed(p, r, e) && !(e.HookBeforeSync? && r == 0)
    ensures Attempts(p, Witness(r, e), r) == EndingLog(e)
  {
    var env := Witness(r, e);
    if e.HookBeforeSync? {
      assert !env.hookOk(PreExec, r, 0);
    } else {
      assert AllPass(p, env, PreExec, r);
      if e.HookAfterSync? {
        assert !env.hookOk(PostExec, r, 0);
      } else if e.SyncGaveUp? {
        assert Attempts(p, env, r + 1) == [];
      }
    }
  }

  lemma WitnessContinues(p: Params, r: nat, e: Ending, k: nat)
    requires EndingAllowed(p, r, e) && k < r
    requires !(e.HookBeforeSync? && r == 0)
    ensures Continues(p, Witness(r, e), k) && Attempt(p, Witness(r, e), k) == [SYNCING, SyncFailed(false)]
  {
  }

  lemma RetriedNext(k: nat, tail: seq<Message>)
    ensures Retried(k) + ([SYNCING, SyncFailed(false)] + tail) == Retried(k + 1) + tail
  {
  }

  lemma {:induction false} WitnessAttempts(p: Params, r: nat, e: Ending, k: nat)
    requires EndingAllowed(p, r, e) && k <= r
    requires !(e.HookBeforeSync? && r == 0)
    ensures Retried(k) + Attempts(p, Witness(r, e), k) == Retried(r) + EndingLog(e)
    decreases r - k
  {
    if k == r {
      WitnessEnds(p, r, e);
    } else {
      WitnessContinues(p, r, e, k);
      WitnessAttempts(p, r, e, k + 1);
      RetriedNext(k, Attempts(p, Witness(r, e), k + 1));
    }
  }

  /** The grammar is exact: a stream is in it if and only if some environment makes a run emit it. */
  lemma StreamIff(p: Params, log: seq<Message>)
    ensures Stream(p, log) <==> exists env: Env :: StreamOf(p, env) == log
  {
    if Stream(p, log) {
      var r: nat, e: Ending :| EndingAllowed(p, r, e) && log == Retried(r) + EndingLog(e);
      var env := Witness(r, e);
      if e.HookBeforeSync? && r == 0 {
        assert !env.hookOk(PreJob, 0, 0);
      } else {
        assert AllPass(p, env, PreJob, 0);
        WitnessAttempts(p, r, e, 0);
      }
      assert StreamOf(p, env) == log;
    }
    if exists env: Env :: StreamOf(p, env) == log {
      var env: Env :| StreamOf(p, env) == log;
      StreamOfMatches(p, env);
    }
  }

  /** The attempt in which a run stops that has reached attempt `r`. */
  ghost function LastAttempt(p: Params, env: Env, r: nat): nat
    decreases p.retries - r
  {
    if r < p.retries - 1 && Continues(p, env, r) then LastAttempt(p, env, r + 1) else r
  }

  predicate EndingSchedules(e: Ending) {
    match e
    case HookBeforeSync => true
    case HookAfterSync => true
    case SyncSucceeded(ready) => ready
    case SyncGaveUp(ready) => ready
    case _ => false
  }

  lemma {:induction false} AttemptsEnd(p: Params, env: Env, r: nat)
    requires r < p.retries
    ensures var log := Attempts(p, env, r);
            log != [] && (log[|log| - 1].schedule <==> EndingSchedules(EndingOf(p, env, LastAttempt(p, env, r))))
    ensures LastAttempt(p, env, r) < p.retries
    ensures LastAttempt(p, env, r) < p.retries - 1 ==> !Continues(p, env, LastAttempt(p, env, r))
    decreases p.retries - r
  {
    if Continues(p, env, r) {
      if r < p.retries - 1 {
        AttemptsEnd(p, env, r + 1);
      } else {
        assert Attempts(p, env, r + 1) == [];
      }
    }
  }

  /** When the last message of a run schedules the next run, exactly; a run whose
      last attempt was not killed, did not fail to terminate and found the job Ready
      always does so. By `StreamFacts` it is the only such message and nothing follows it. */
  lemma RunSchedules(p: Params, env: Env)
    requires p.retries >= 1
    ensures var log, r := StreamOf(p, env), LastAttempt(p, env, 0);
            && (log[|log| - 1].schedule <==> !AllPass(p, env, PreJob, 0) || EndingSchedules(EndingOf(p, env, r)))
            && (!ResultOf(env, r).Killed? && !(ResultOf(env, r).TimedOut? && env.termError(r)) && env.ready(r)
                ==> log[|log| - 1].schedule)
  {
    AttemptsEnd(p, env, 0);
    OnlyKillsStop(p, env, LastAttempt(p, env, 0));
  }

  /** An attempt before the last one that stops the run without a word was killed. */
  lemma OnlyKillsStop(p: Params, env: Env, r: nat)
    ensures EndingOf(p, env, r).SyncStopped? ==> ResultOf(env, r).Killed? || Continues(p, env, r)
  {
    if EndingOf(p, env, r).SyncStopped? {
      assert Closing(ResultOf(env, r)) == PostFail;
    }
  }

  // ---------------------------------------------------------------- the steps

  /** Where the closure stands between two interleaving points. */
  datatype Pc =
    | Announce
    | Hooks(phase: Phase, retry: nat, next: nat, res: SyncResult)
    | LoopTest(retry: nat)
    | SendSyncing(retry: nat)
    | AwaitStart(retry: nat)
    | AwaitSync(retry: nat, startFailed: bool)
    | Terminating(retry: nat, res: SyncResult)
    | Report(retry: nat, res: SyncResult)
    | Returned

  /** What the environment decides at one step. */
  datatype Choice =
    | Go | HookOk | HookFails
    | StartSeen | StartFails
    | SyncDone(ok: bool) | Timeout | KillSeen
    | TermOk | TermFails

  datatype Local = Local(pc: Pc, log: seq<Message>)

  const START := Local(Announce, [])

  function AfterHooks(pc: Pc): Pc
    requires pc.Hooks?
  {
    match pc.phase
    case PreJob => LoopTest(0)
    case PreExec => SendSyncing(pc.retry)
    case PostExec => Hooks(Closing(pc.res), pc.retry, 0, pc.res)
    case PostSuccess => Report(pc.retry, pc.res)
    case PostFail => Report(pc.retry, pc.res)
  }

  /** Which choices the code offers; `killed` says that the kill channel is closed. */
  predicate CanStep(p: Params, pc: Pc, c: Choice, killed: bool) {
    match pc
    case Announce => c.Go?
    case Hooks(_, _, next, _) => if next < p.hooks then c.HookOk? || c.HookFails? else c.Go?
    case LoopTest(_) => c.Go?
    case SendSyncing(_) => c.Go?
    case AwaitStart(_) => c.StartSeen? || c.StartFails?
    case AwaitSync(_, startFailed) =>
      (c.SyncDone? && (startFailed ==> !c.ok)) || c.Timeout? || (c.KillSeen? && killed)
    case Terminating(_, _) => c.TermOk? || c.TermFails?
    case Report(_, _) => c.Go?
    case Returned => false
  }

  /** One step; `ready` is the job state as the step reads it. */
  function Step(p: Params, l: Local, c: Choice, ready: bool, killed: bool): (l': Local)
    requires CanStep(p, l.pc, c, killed)
    ensures l.log <= l'.log && |l'.log| <= |l.log| + 1
  {
    match l.pc
    case Announce => Local(Hooks(PreJob, 0, 0, SyncOk), l.log + [PRE_SYNCING])
    case Hooks(phase, r, next, res) =>
      if c.Go? then l.(pc := AfterHooks(l.pc))
      else if c.HookOk? then l.(pc := Hooks(phase, r, next + 1, res))
      else Local(Returned, l.log + [HOOK_FAILED])
    case LoopTest(r) => l.(pc := if r < p.retries then Hooks(PreExec, r, 0, SyncOk) else Returned)
    case SendSyncing(r) => Local(AwaitStart(r), l.log + [SYNCING])
    case AwaitStart(r) => l.(pc := AwaitSync(r, c.StartFails?))
    case AwaitSync(r, _) =>
      if c.Timeout? then l.(pc := Terminating(r, TimedOut))
      else if c.KillSeen? then l.(pc := Terminating(r, Killed))
      else l.(pc := Hooks(PostExec, r, 0, if c.ok then SyncOk else SyncErr))
    case Terminating(r, res) => l.(pc := if c.TermFails? then Returned else Hooks(PostExec, r, 0, res))
    case Report(r, res) =>
      if res.SyncOk? then Local(Returned, l.log + [Succeeded(ready)])
      else
        Local(if res.Killed? then Returned else LoopTest(r + 1),
              l.log + [SyncFailed(r == p.retries - 1 && ready)])
    case Returned => assert false; l
  }

  /** What the log looks like at each point of a run. */
  ghost predicate Shape(p: Params, l: Local) {
    match l.pc
    case Announce => l.log == []
    case Hooks(phase, r, next, res) =>
      && next <= p.hooks
      && (phase.PreJob? ==> r == 0 && l.log == Retried(0))
      && (phase.PreExec? ==> r < p.retries && l.log == Retried(r))
      && (phase.PostExec? || phase.PostSuccess? || phase.PostFail? ==> r < p.retries && l.log == Retried(r) + [SYNCING])
      && (phase.PostSuccess? ==> res.SyncOk?)
      && (phase.PostFail? ==> !res.SyncOk?)
    case LoopTest(r) =>
      || (l.log == Retried(r) && (r < p.retries || (r == 0 && p.retries <= 0)))
      || (r == p.retries && r > 0 && exists ready :: l.log == Retried(r - 1) + EndingLog(SyncGaveUp(ready)))
    case SendSyncing(r) => r < p.retries && l.log == Retried(r)
    case AwaitStart(r) => r < p.retries && l.log == Retried(r) + [SYNCING]
    case AwaitSync(r, _) => r < p.retries && l.log == Retried(r) + [SYNCING]
    case Terminating(r, res) => r < p.retries && l.log == Retried(r) + [SYNCING] && NeedsTerminate(res)
    case Report(r, _) => r < p.retries && l.log == Retried(r) + [SYNCING]
    case Returned => Stream(p, l.log)
  }

  lemma EndsAs(p: Params, log: seq<Message>, r: nat, e: Ending)
    requires EndingAllowed(p, r, e) && log == Retried(r) + EndingLog(e)
    ensures Stream(p, log)
  {
  }

  lemma HookFailureKeepsShape(p: Params, l: Local)
    requires Shape(p, l) && l.pc.Hooks? && l.pc.next < p.hooks
    ensures Stream(p, l.log + [HOOK_FAILED])
  {
    var r, log := l.pc.retry, l.log + [HOOK_FAILED];
    if l.pc.phase.PreJob? || l.pc.phase.PreExec? {
      EndsAs(p, log, r, HookBeforeSync);
    } else {
      assert log == Retried(r) + EndingLog(HookAfterSync);
      EndsAs(p, log, r, HookAfterSync);
    }
  }

  lemma ReportKeepsShape(p: Params, l: Local, ready: bool)
    requires Shape(p, l) && l.pc.Report?
    ensures Shape(p, Step(p, l, Go, ready, false))
  {
    var r, l' := l.pc.retry, Step(p, l, Go, ready, false);
    Ends(Retried(r), if l.pc.res.SyncOk? then Succeeded(ready) else SyncFailed(r == p.retries - 1 && ready));
    if l.pc.res.SyncOk? {
      EndsAs(p, l'.log, r, SyncSucceeded(ready));
    } else if r == p.retries - 1 {
      EndsAs(p, l'.log, r, SyncGaveUp(ready));
    } else {
      EndsAs(p, l'.log, r, SyncStopped);
      RetriedNext(r, []);
      assert l'.log + [] == l'.log && Retried(r + 1) + [] == Retried(r + 1);
    }
  }

  lemma Ends(front: seq<Message>, last: Message)
    ensures front + [SYNCING] + [last] == front + [SYNCING, last]
  {
  }

  lemma LoopTestKeepsShape(p: Params, l: Local)
    requires Shape(p, l) && l.pc.LoopTest? && l.pc.retry >= p.retries
    ensures Stream(p, l.log)
  {
    var r := l.pc.retry;
    if r == 0 {
      EndsAs(p, l.log, 0, NoAttempt);
    } else {
      var ready :| l.log == Retried(r - 1) + EndingLog(SyncGaveUp(ready));
      EndsAs(p, l.log, r - 1, SyncGaveUp(ready));
    }
  }

  /** Every step keeps the shape, so a run cut at any interleaving ends in the grammar. */
  lemma StepKeepsShape(p: Params, l: Local, c: Choice, ready: bool, killed: bool)
    requires Shape(p, l) && CanStep(p, l.pc, c, killed)
    ensures Shape(p, Step(p, l, c, ready, killed))
  {
    match l.pc
    case Hooks(_, _, next, _) =>
      if c.HookFails? {
        HookFailureKeepsShape(p, l);
      }
    case LoopTest(r) =>
      if r >= p.retries {
        LoopTestKeepsShape(p, l);
      }
    case Terminating(r, _) =>
      EndsAs(p, l.log, r, TerminateFailed);
    case Report(_, _) =>
      ReportKeepsShape(p, l, ready);
    case _ =>
  }

  // ---------------------------------------------------------------- steps and loop

  ghost predicate PassFrom(p: Params, env: Env, phase: Phase, r: nat, next: nat) {
    forall i: nat :: next <= i < p.hooks ==> env.hookOk(phase, r, i)
  }

  /** What the loop still sends when the hooks after the sync have passed. */
  ghost function RestOfReport(p: Params, env: Env, r: nat, res: SyncResult): seq<Message> {
    if res.SyncOk? then [Succeeded(env.ready(r))]
    else [SyncFailed(r == p.retries - 1 && env.ready(r))] + (if res.Killed? then [] else Attempts(p, env, r + 1))
  }

  ghost function RestOfClosing(p: Params, env: Env, r: nat, res: SyncResult, next: nat): seq<Message> {
    if PassFrom(p, env, Closing(res), r, next) then RestOfReport(p, env, r, res) else [HOOK_FAILED]
  }

  ghost function RestOfPost(p: Params, env: Env, r: nat, res: SyncResult, next: nat): seq<Message> {
    if PassFrom(p, env, PostExec, r, next) then RestOfClosing(p, env, r, res, 0) else [HOOK_FAILED]
  }

  ghost function RestOfSync(p: Params, env: Env, r: nat): seq<Message> {
    var res := ResultOf(env, r);
    if NeedsTerminate(res) && env.termError(r) then [] else RestOfPost(p, env, r, res, 0)
  }

  ghost function RestOfPreExec(p: Params, env: Env, r: nat, next: nat): seq<Message> {
    if PassFrom(p, env, PreExec, r, next) then [SYNCING] + RestOfSync(p, env, r) else [HOOK_FAILED]
  }

  /** What the loop still sends, in the environment `env`, when it stands at `pc`. */
  ghost function Rest(p: Params, env: Env, pc: Pc): seq<Message> {
    match pc
    case Announce => StreamOf(p, env)
    case Hooks(PreJob, _, next, _) => if PassFrom(p, env, PreJob, 0, next) then Attempts(p, env, 0) else [HOOK_FAILED]
    case LoopTest(r) => Attempts(p, env, r)
    case Hooks(PreExec, r, next, _) => RestOfPreExec(p, env, r, next)
    case SendSyncing(r) => [SYNCING] + RestOfSync(p, env, r)
    case AwaitStart(r) => RestOfSync(p, env, r)
    case AwaitSync(r, _) => RestOfSync(p, env, r)
    case Terminating(r, res) => if env.termError(r) then [] else RestOfPost(p, env, r, res, 0)
    case Hooks(PostExec, r, next, res) => RestOfPost(p, env, r, res, next)
    case Hooks(_, r, next, res) => RestOfClosing(p, env, r, res, next)
    case Report(r, res) => RestOfReport(p, env, r, res)
    case Returned => []
  }

  /** The choice is what the environment says at this point. */
  predicate Follows(env: Env, p: Params, pc: Pc, c: Choice, ready: bool) {
    match pc
    case Hooks(phase, r, next, _) =>
      next < p.hooks ==> (c.HookOk? <==> env.hookOk(phase, if phase.PreJob? then 0 else r, next))
    case AwaitStart(r) => c.StartFails? <==> env.startError(r)
    case AwaitSync(r, _) =>
      (match env.sync(r)
       case SyncOk => c == SyncDone(!env.startError(r))
       case SyncErr => c == SyncDone(false)
       case TimedOut => c.Timeout?
       case Killed => c.KillSeen?)
    case Terminating(r, _) => c.TermFails? <==> env.termError(r)
    case Report(r, _) => ready == env.ready(r)
    case _ => true
  }

  /** The point remembers how the sync ended. */
  predicate Remembers(env: Env, pc: Pc) {
    match pc
    case Hooks(phase, r, _, res) =>
      phase.PreJob? || phase.PreExec? ||
      (res == ResultOf(env, r) && (phase.PostExec? || phase == Closing(res)))
    case AwaitSync(r, startFailed) => startFailed == env.startError(r)
    case Terminating(r, res) => res == ResultOf(env, r) && NeedsTerminate(res)
    case Report(r, res) => res == ResultOf(env, r)
    case _ => true
  }

  /** An attempt of the loop, from its pre-exec hooks on. */
  lemma AttemptsFromHooks(p: Params, env: Env, r: nat)
    requires r < p.retries
    ensures Attempts(p, env, r) == RestOfPreExec(p, env, r, 0)
  {
    var res := ResultOf(env, r);
    assert AllPass(p, env, PreExec, r) <==> PassFrom(p, env, PreExec, r, 0);
    assert AllPass(p, env, PostExec, r) <==> PassFrom(p, env, PostExec, r, 0);
    assert AllPass(p, env, Closing(res), r) <==> PassFrom(p, env, Closing(res), r, 0);
    if Continues(p, env, r) {
      var failed := SyncFailed(r == p.retries - 1 && env.ready(r));
      assert [SYNCING, failed] + Attempts(p, env, r + 1) == [SYNCING] + ([failed] + Attempts(p, env, r + 1));
    }
  }

  lemma PassNext(p: Params, env: Env, phase: Phase, r: nat, next: nat)
    ensures PassFrom(p, env, phase, r, next)
            <==> next >= p.hooks || (env.hookOk(phase, r, next) && PassFrom(p, env, phase, r, next + 1))
  {
  }

  /** Each step sends what the loop sends next. */
  lemma StepFollowsLoop(p: Params, env: Env, l: Local, c: Choice, ready: bool, killed: bool)
    requires CanStep(p, l.pc, c, killed) && Follows(env, p, l.pc, c, ready) && Remembers(env, l.pc)
    ensures var l' := Step(p, l, c, ready, killed);
            Remembers(env, l'.pc) && l.log + Rest(p, env, l.pc) == l'.log + Rest(p, env, l'.pc)
  {
    var l' := Step(p, l, c, ready, killed);
    match l.pc
    case Announce =>
      assert AllPass(p, env, PreJob, 0) <==> PassFrom(p, env, PreJob, 0, 0);
      Reassociate(l.log, [PRE_SYNCING], Rest(p, env, l'.pc));
    case Hooks(phase, r, next, res) =>
      PassNext(p, env, phase, if phase.PreJob? then 0 else r, next);
      if c.HookFails? {
        assert l'.log + [] == l'.log;
      }
    case LoopTest(r) =>
      if r < p.retries {
        AttemptsFromHooks(p, env, r);
      }
    case SendSyncing(r) => Reassociate(l.log, [SYNCING], RestOfSync(p, env, r));
    case Report(r, res) =>
      if !res.SyncOk? {
        Reassociate(l.log, [SyncFailed(r == p.retries - 1 && ready)], Rest(p, env, l'.pc));
      }
    case _ =>
  }

  /** One step of a run: the choice, the job state as it is read, and whether kill is closed. */
  datatype StepTaken = StepTaken(c: Choice, ready: bool, killed: bool)

  /** `l'` is reached from `l` by these steps, all as the environment says. */
  ghost predicate StepsTo(p: Params, env: Env, l: Local, steps: seq<StepTaken>, l': Local)
    decreases |steps|
  {
    if steps == [] then l == l'
    else
      var step := steps[0];
      && CanStep(p, l.pc, step.c, step.killed) && Follows(env, p, l.pc, step.c, step.ready)
      && StepsTo(p, env, Step(p, l, step.c, step.ready, step.killed), steps[1..], l')
  }

  lemma {:induction false} StepsFollow(p: Params, env: Env, l: Local, steps: seq<StepTaken>, l': Local)
    requires StepsTo(p, env, l, steps, l') && Remembers(env, l.pc)
    ensures l.log + Rest(p, env, l.pc) == l'.log + Rest(p, env, l'.pc)
    decreases |steps|
  {
    if steps != [] {
      var step := steps[0];
      StepFollowsLoop(p, env, l, step.c, step.ready, step.killed);
      StepsFollow(p, env, Step(p, l, step.c, step.ready, step.killed), steps[1..], l');
    }
  }

  /** Steps and loop agree: whenever its choices are those of an environment, a run that
      has returned has sent exactly what the loop sends in it, and one that has not is
      on the way there. */
  lemma StepsRefineLoop(p: Params, env: Env, steps: seq<StepTaken>, l: Local)
    requires StepsTo(p, env, START, steps, l)
    ensures l.log <= StreamOf(p, env)
    ensures l.pc.Returned? ==> l.log == StreamOf(p, env)
  {
    StepsFollow(p, env, START, steps, l);
    assert START.log + StreamOf(p, env) == StreamOf(p, env);
    if l.pc.Returned? {
      assert l.log + [] == l.log;
    }
  }

  // ---------------------------------------------------------------- scheduling

  /** The report after which no attempt follows. */
  predicate FinalReport(p: Params, pc: Pc) {
    pc.Report? && (pc.res.SyncOk? || pc.retry == p.retries - 1)
  }

  /** The steps that keep an unkilled run from scheduling the next one. */
  predicate Spoils(p: Params, pc: Pc, c: Choice, ready: bool) {
    c.TermFails? || (FinalReport(p, pc) && !ready)
  }

  predicate EndsScheduled(log: seq<Message>) {
    log != [] && log[|log| - 1].schedule
  }

  /** What an unkilled run knows of its schedule; `spoiled` says that one of its steps spoiled it. */
  predicate Undecided(p: Params, l: Local, spoiled: bool) {
    match l.pc
    case Returned => EndsScheduled(l.log) <==> !spoiled
    case LoopTest(r) => if r < p.retries then !spoiled else EndsScheduled(l.log) <==> !spoiled
    case Hooks(_, _, _, res) => !spoiled && !res.Killed?
    case Terminating(_, res) => !spoiled && !res.Killed?
    case Report(_, res) => !spoiled && !res.Killed?
    case _ => !spoiled
  }

  lemma StepKeepsUndecided(p: Params, l: Local, c: Choice, ready: bool, spoiled: bool)
    requires p.retries >= 1 && Shape(p, l) && Undecided(p, l, spoiled) && CanStep(p, l.pc, c, false)
    ensures Undecided(p, Step(p, l, c, ready, false), spoiled || Spoils(p, l.pc, c, ready))
  {
    if l.pc.Terminating? && c.TermFails? {
      assert l.log == Retried(l.pc.retry) + [SYNCING];
    }
  }

  /** The points from which a run sends no more. */
  predicate SaysNothing(p: Params, pc: Pc) {
    pc.Returned? || (pc.LoopTest? && pc.retry >= p.retries)
  }

  /** A run that has sent a scheduling message is at its end. */
  lemma ScheduledIsOver(p: Params, l: Local)
    requires Shape(p, l) && EndsScheduled(l.log)
    ensures SaysNothing(p, l.pc)
  {
  }

  // ---------------------------------------------------------------- termination

  /** Steps one attempt can take: three hook phases and the points between them. */
  function AttemptWidth(p: Params): nat {
    3 * (p.hooks + 1) + 8
  }

  /** Steps that `n` attempts can take. */
  function Budget(p: Params, n: int): nat
    decreases n
  {
    if n <= 0 then 0 else AttemptWidth(p) + Budget(p, n - 1)
  }

  function HooksLeft(p: Params, next: nat): nat {
    if next <= p.hooks then p.hooks - next else 0
  }

  /** A bound on the steps that remain. */
  function Rank(p: Params, pc: Pc): nat {
    match pc
    case Announce => p.hooks + 4 + Budget(p, p.retries)
    case Hooks(PreJob, _, next, _) => HooksLeft(p, next) + 3 + Budget(p, p.retries)
    case LoopTest(r) => 1 + Budget(p, p.retries - r)
    case Hooks(PreExec, r, next, _) => HooksLeft(p, next) + 2 * (p.hooks + 1) + 8 + Budget(p, p.retries - r - 1)
    case SendSyncing(r) => 2 * (p.hooks + 1) + 7 + Budget(p, p.retries - r - 1)
    case AwaitStart(r) => 2 * (p.hooks + 1) + 6 + Budget(p, p.retries - r - 1)
    case AwaitSync(r, _) => 2 * (p.hooks + 1) + 5 + Budget(p, p.retries - r - 1)
    case Terminating(r, _) => 2 * (p.hooks + 1) + 4 + Budget(p, p.retries - r - 1)
    case Hooks(PostExec, r, next, _) => HooksLeft(p, next) + (p.hooks + 1) + 4 + Budget(p, p.retries - r - 1)
    case Hooks(_, r, next, _) => HooksLeft(p, next) + 4 + Budget(p, p.retries - r - 1)
    case Report(r, _) => 3 + Budget(p, p.retries - r - 1)
    case Returned => 0
  }

  /** Every step of a run, whatever the environment chooses, uses up some of the bound. */
  lemma StepDecreasesRank(p: Params, l: Local, c: Choice, ready: bool, killed: bool)
    requires Shape(p, l) && CanStep(p, l.pc, c, killed)
    ensures Rank(p, Step(p, l, c, ready, killed).pc) < Rank(p, l.pc)
  {
  }

  lemma {:induction false} BudgetGrows(p: Params, n: int, m: int)
    requires n <= m
    ensures Budget(p, n) <= Budget(p, m)
    decreases m - n
  {
    if n < m {
      BudgetGrows(p, n, m - 1);
    }
  }

  /** No point of a run has more steps ahead than its beginning. */
  lemma RankBounded(p: Params, l: Local)
    requires Shape(p, l)
    ensures Rank(p, l.pc) <= Rank(p, Announce)
  {
    if !l.pc.Announce? && !l.pc.Returned? && !(l.pc.Hooks? && l.pc.phase.PreJob?) {
      BudgetGrows(p, p.retries - l.pc.retry, p.retries);
    }
  }

  /** A choice that the code offers as soon as kill is closed. */
  function KilledChoice(p: Params, pc: Pc): Choice {
    match pc
    case Hooks(_, _, next, _) => if next < p.hooks then HookOk else Go
    case AwaitStart(_) => StartSeen
    case AwaitSync(_, _) => KillSeen
    case Terminating(_, _) => TermOk
    case _ => Go
  }

  /** With kill closed the run is never stuck before it returns. */
  lemma KilledRunMoves(p: Params, pc: Pc)
    requires !pc.Returned?
    ensures CanStep(p, pc, KilledChoice(p, pc), true)
  {
  }
}
