/** A wait under the worker's lock (worker/worker.go). `disableJob` waits for `Run` to
    return while its caller holds the lock. Jobs send their messages into a channel of
    bounded capacity, and the worker's loop, once it has taken a message, needs the lock
    before it takes the next. The module says exactly from which states such a wait can
    still end. */
module LockedWait {
  import opened Options
  import opened JobStates
  import opened JobEngine
  import opened JobLiveness
  import opened JobStreams
  import R = RunJob

  /** What the channel to the worker holds. */
  const CAPACITY: nat := 32

  /** The loop is about to take a message, or has one and waits for the lock. */
  datatype Loop = Free | Locking

  /** The engine, the number of messages in the channel, and the job for whose return the
      holder of the lock waits, if it does. */
  datatype Hub = Hub(s: System, queued: nat, loop: Loop, waitsFor: Option<nat>)

  const NEW := Hub(EMPTY, 0, Free, None)

  datatype Move =
    | Act(e: Event)
    | LoopTakes
    | LoopLocks      // and handles its message
    | Begin(j: nat)  // takes the lock and sends disable
    | End

  /** The event puts a message into the channel. */
  predicate Emits(concurrent: nat, s: System, e: Event)
    requires Enabled(concurrent, s, e)
  {
    e.Advance? && e.k < |s.runners| && Emitted(concurrent, s, e, s.runners[e.k].job) != []
  }

  /** While somebody else holds the lock no command, start-up or reload touches a job; but
      the loop, between two messages, may start one. */
  predicate Allowed(h: Hub, e: Event) {
    || h.waitsFor.None?
    || (!e.Send? && !e.NewJob? && !e.Reconfigure? && !e.StartRun?)
    || (e.Send? && e.a.Start? && h.loop.Free?)
  }

  predicate Possible(concurrent: nat, h: Hub, move: Move) {
    match move
    case Act(e) => Enabled(concurrent, h.s, e) && Allowed(h, e) && (Emits(concurrent, h.s, e) ==> h.queued < CAPACITY)
    case LoopTakes => h.loop.Free? && h.queued > 0
    case LoopLocks => h.loop.Locking? && h.waitsFor.None?
    case Begin(j) =>
      && h.waitsFor.None? && Enabled(concurrent, h.s, Send(j, Disable))
      && !h.s.jobs[j].ctl.Off? && !Exiting(h.s.jobs[j])
    case End => h.waitsFor.Some? && HasReturned(h.s, h.waitsFor.value)
  }

  function Do(concurrent: nat, h: Hub, move: Move): Hub
    requires Possible(concurrent, h, move)
  {
    match move
    case Act(e) =>
      h.(s := Fire(concurrent, h.s, e), queued := h.queued + (if Emits(concurrent, h.s, e) then 1 else 0))
    case LoopTakes => h.(queued := h.queued - 1, loop := Locking)
    case LoopLocks => h.(loop := Free)
    case Begin(j) => h.(s := Fire(concurrent, h.s, Send(j, Disable)), waitsFor := Some(j))
    case End => h.(waitsFor := None)
  }

  /** `h'` is reached from `h` by these moves, in order. */
  ghost predicate Runs(concurrent: nat, h: Hub, moves: seq<Move>, h': Hub)
    decreases |moves|
  {
    if moves == [] then h == h'
    else Possible(concurrent, h, moves[0]) && Runs(concurrent, Do(concurrent, h, moves[0]), moves[1..], h')
  }

  // ---------------------------------------------------------------- what a run must still send

  /** How many messages a report and what follows it need at the least. */
  function ReportNeeds(p: R.Params, r: nat, res: R.SyncResult): nat {
    if res.SyncOk? || res.Killed? || r + 1 >= p.retries then 1 else 2
  }

  /** How many messages a run must send before it can return, if everything goes so as to
      spare them: a hook that fails ends it with one, a failed termination with none. */
  function Needs(p: R.Params, pc: R.Pc): nat {
    match pc
    case Announce => if p.retries <= 0 then 1 else 2
    case Hooks(PreJob, _, _, _) => if p.retries <= 0 then 0 else 1
    case Hooks(PreExec, _, _, _) => 1
    case Hooks(PostExec, r, _, res) => if p.hooks > 0 then 1 else ReportNeeds(p, r, res)
    case Hooks(_, r, next, res) => if next < p.hooks then 1 else ReportNeeds(p, r, res)
    case LoopTest(r) => if r < p.retries then 1 else 0
    case SendSyncing(_) => 1
    case AwaitStart(_) => 0
    case AwaitSync(_, _) => 0
    case Terminating(_, _) => 0
    case Report(r, res) => ReportNeeds(p, r, res)
    case Returned => 0
  }

  /** No step spares a message. */
  lemma NoStepSpares(p: R.Params, l: R.Local, c: R.Choice, ready: bool, killed: bool)
    requires R.Shape(p, l) && R.CanStep(p, l.pc, c, killed)
    ensures var l' := R.Step(p, l, c, ready, killed);
            Needs(p, l'.pc) + |l'.log| - |l.log| >= Needs(p, l.pc)
  {
  }

  /** The choice that spares most. */
  function Sparing(p: R.Params, pc: R.Pc): R.Choice {
    match pc
    case Hooks(phase, _, next, _) =>
      if next >= p.hooks then R.Go else if phase.PreJob? || phase.PreExec? then R.HookOk else R.HookFails
    case AwaitStart(_) => R.StartSeen
    case AwaitSync(_, _) => R.Timeout
    case Terminating(_, _) => R.TermFails
    case _ => R.Go
  }

  lemma SparingSpares(p: R.Params, l: R.Local, ready: bool, killed: bool)
    requires R.Shape(p, l) && !l.pc.Returned?
    ensures R.CanStep(p, l.pc, Sparing(p, l.pc), killed)
    ensures var l' := R.Step(p, l, Sparing(p, l.pc), ready, killed);
            Needs(p, l'.pc) + |l'.log| - |l.log| <= Needs(p, l.pc)
  {
  }

  /** What the run that job `j` is attached to must still send. */
  function JobNeeds(s: System, j: nat): nat
    requires j < |s.jobs|
  {
    var ctl := s.jobs[j].ctl;
    if Attached(ctl) && ctl.k < |s.runners| && s.runners[ctl.k].pc.Wrapping? then
      Needs(s.runners[ctl.k].params, s.runners[ctl.k].pc.local.pc)
    else 0
  }

  lemma NeverMoreThanTwo(s: System, j: nat)
    requires j < |s.jobs|
    ensures JobNeeds(s, j) <= 2
  {
  }

  /** How many messages can still be sent while the lock is held: the loop takes one more
      at the most. */
  function Room(h: Hub): int {
    CAPACITY - h.queued + (if h.loop.Free? then 1 else 0)
  }

  // ---------------------------------------------------------------- a wait that cannot end

  lemma AdvanceNeeds(concurrent: nat, s: System, e: Event, j: nat)
    requires Inv(concurrent, s) && j < |s.jobs| && Enabled(concurrent, s, e) && e.Advance?
    ensures var s' := Fire(concurrent, s, e);
            JobNeeds(s', j) + (if Emits(concurrent, s, e) then 1 else 0) >= JobNeeds(s, j)
  {
    var r := s.runners[e.k];
    assert RunnerOk(s, e.k) && JobOk(s, j);
    NoStepSpares(r.params, r.pc.local, e.c, s.jobs[r.job].state.Ready?, r.kills > 0);
  }

  lemma OtherNeeds(concurrent: nat, s: System, e: Event, j: nat)
    requires Inv(concurrent, s) && j < |s.jobs| && Enabled(concurrent, s, e) && !e.Advance? && JobNeeds(s, j) > 0
    ensures JobNeeds(Fire(concurrent, s, e), j) == JobNeeds(s, j)
  {
    if IsRunnerEvent(e) {
      assert JobOk(s, j) && RunnerOk(s, s.jobs[j].ctl.k);
    } else {
      ControllerNeeds(concurrent, s, e, j);
    }
  }

  /** A controller stays attached to a run that still needs to send. */
  lemma ControllerNeeds(concurrent: nat, s: System, e: Event, j: nat)
    requires Inv(concurrent, s) && j < |s.jobs| && Enabled(concurrent, s, e) && JobNeeds(s, j) > 0
    requires !IsRunnerEvent(e)
    ensures JobNeeds(Fire(concurrent, s, e), j) == JobNeeds(s, j)
  {
    assert JobOk(s, j) && RunnerOk(s, s.jobs[j].ctl.k);
  }

  /** The holder of the lock waits for a job that needs to send more than there is room for. */
  ghost predicate Stuck(concurrent: nat, h: Hub) {
    && Inv(concurrent, h.s) && h.waitsFor.Some?
    && Disabling(h.s, h.waitsFor.value) && JobNeeds(h.s, h.waitsFor.value) > Room(h)
  }

  lemma StuckStays(concurrent: nat, h: Hub, move: Move)
    requires Stuck(concurrent, h) && h.queued <= CAPACITY && Possible(concurrent, h, move)
    ensures Stuck(concurrent, Do(concurrent, h, move)) && Do(concurrent, h, move).waitsFor == h.waitsFor
    ensures Do(concurrent, h, move).queued <= CAPACITY
  {
    var j := h.waitsFor.value;
    if move.Act? {
      EventKeepsInv(concurrent, h.s, move.e);
      EventKeepsDisabling(concurrent, h.s, move.e, j);
      if move.e.Advance? {
        AdvanceNeeds(concurrent, h.s, move.e, j);
      } else {
        OtherNeeds(concurrent, h.s, move.e, j);
      }
    }
  }

  lemma {:induction false} StuckForGood(concurrent: nat, h: Hub, moves: seq<Move>, h': Hub)
    requires Stuck(concurrent, h) && h.queued <= CAPACITY && Runs(concurrent, h, moves, h')
    ensures Stuck(concurrent, h') && h'.waitsFor == h.waitsFor && !HasReturned(h'.s, h.waitsFor.value)
    decreases |moves|
  {
    if moves != [] {
      StuckStays(concurrent, h, moves[0]);
      StuckForGood(concurrent, Do(concurrent, h, moves[0]), moves[1..], h');
    }
  }

  // ---------------------------------------------------------------- a wait that can end

  /** An event of the job's own that brings it nearer to its return and spares messages. */
  function NextSparing(s: System, j: nat): Event
    requires j < |s.jobs|
  {
    match s.jobs[j].ctl
    case Joining(k, _) =>
      if k < |s.runners| && s.runners[k].pc.Wrapping? && !s.runners[k].pc.local.pc.Returned? then
        Advance(k, Sparing(s.runners[k].params, s.runners[k].pc.local.pc))
      else NextOwn(s, j)
    case _ => NextOwn(s, j)
  }

  lemma NextSparingMoves(concurrent: nat, s: System, j: nat)
    requires Inv(concurrent, s) && Disabling(s, j)
    ensures Enabled(concurrent, s, NextSparing(s, j)) && Own(s, NextSparing(s, j), j)
    ensures var e := NextSparing(s, j); !e.Send? && !e.NewJob? && !e.Reconfigure? && !e.StartRun?
  {
    DoomedJobMoves(concurrent, s, j);
    assert JobOk(s, j);
    if s.jobs[j].ctl.Joining? {
      var k := s.jobs[j].ctl.k;
      assert RunnerOk(s, k) && Current(s, k);
      if s.runners[k].pc.Wrapping? && !s.runners[k].pc.local.pc.Returned? {
        SparingSpares(s.runners[k].params, s.runners[k].pc.local, s.jobs[j].state.Ready?, s.runners[k].kills > 0);
      }
    }
  }

  lemma NextSparingNeeds(concurrent: nat, s: System, j: nat)
    requires Inv(concurrent, s) && Disabling(s, j) && Enabled(concurrent, s, NextSparing(s, j))
    ensures var e := NextSparing(s, j);
            && j < |Fire(concurrent, s, e).jobs|
            && JobNeeds(Fire(concurrent, s, e), j) + (if Emits(concurrent, s, e) then 1 else 0) <= JobNeeds(s, j)
  {
    if NextSparing(s, j).Advance? {
      AdvanceSpares(concurrent, s, j);
    } else if JobNeeds(s, j) > 0 {
      OtherNeeds(concurrent, s, NextSparing(s, j), j);
    } else {
      NothingNeeded(concurrent, s, j);
    }
  }

  lemma NothingNeeded(concurrent: nat, s: System, j: nat)
    requires Inv(concurrent, s) && Disabling(s, j) && Enabled(concurrent, s, NextSparing(s, j))
    requires !NextSparing(s, j).Advance? && JobNeeds(s, j) == 0
    ensures JobNeeds(Fire(concurrent, s, NextSparing(s, j)), j) == 0
  {
    assert JobOk(s, j);
  }

  lemma AdvanceSpares(concurrent: nat, s: System, j: nat)
    requires Inv(concurrent, s) && Disabling(s, j) && Enabled(concurrent, s, NextSparing(s, j))
    requires NextSparing(s, j).Advance?
    ensures var e := NextSparing(s, j);
            JobNeeds(Fire(concurrent, s, e), j) + (if Emits(concurrent, s, e) then 1 else 0) <= JobNeeds(s, j)
  {
    var k := s.jobs[j].ctl.k;
    assert JobOk(s, j) && RunnerOk(s, k);
    SparingSpares(s.runners[k].params, s.runners[k].pc.local, s.jobs[j].state.Ready?, s.runners[k].kills > 0);
  }

  /** The event brings the job nearer to its return. */
  lemma NextSparingCounts(concurrent: nat, s: System, j: nat)
    requires Inv(concurrent, s) && Disabling(s, j) && Enabled(concurrent, s, NextSparing(s, j))
    requires Own(s, NextSparing(s, j), j)
    ensures var t := Fire(concurrent, s, NextSparing(s, j));
            && Inv(concurrent, t) && j < |t.jobs| && JobRank(t, j) < JobRank(s, j)
            && (Disabling(t, j) || HasReturned(t, j))
  {
    var e := NextSparing(s, j);
    EventKeepsInv(concurrent, s, e);
    EventKeepsDisabling(concurrent, s, e, j);
    if IsRunnerEvent(e) {
      RunnerEventCounts(concurrent, s, e, j);
    } else {
      ControllerEventCounts(concurrent, s, e, j);
    }
  }

  /** The wait ends by some moves, while everybody else is silent. */
  ghost predicate CanEnd(concurrent: nat, h: Hub, j: nat) {
    exists moves, h' :: Runs(concurrent, h, moves, h') && h'.waitsFor == Some(j) && HasReturned(h'.s, j)
  }

  lemma CanEndAfter(concurrent: nat, h: Hub, move: Move, j: nat)
    requires Possible(concurrent, h, move) && CanEnd(concurrent, Do(concurrent, h, move), j)
    ensures CanEnd(concurrent, h, j)
  {
    var t := Do(concurrent, h, move);
    var moves, h' :| Runs(concurrent, t, moves, h') && h'.waitsFor == Some(j) && HasReturned(h'.s, j);
    assert ([move] + moves)[1..] == moves;
    assert Runs(concurrent, h, [move] + moves, h');
  }

  lemma {:induction false} EnoughRoom(concurrent: nat, h: Hub, j: nat)
    requires Inv(concurrent, h.s) && h.waitsFor == Some(j) && h.queued <= CAPACITY
    requires Disabling(h.s, j) && JobNeeds(h.s, j) <= Room(h)
    ensures CanEnd(concurrent, h, j)
    decreases JobRank(h.s, j), if h.loop.Free? then 1 else 0
  {
    var e := NextSparing(h.s, j);
    NextSparingMoves(concurrent, h.s, j);
    NextSparingNeeds(concurrent, h.s, j);
    if Emits(concurrent, h.s, e) && h.queued == CAPACITY {
      EnoughRoom(concurrent, Do(concurrent, h, LoopTakes), j);
      CanEndAfter(concurrent, h, LoopTakes, j);
    } else {
      var h' := Do(concurrent, h, Act(e));
      NextSparingCounts(concurrent, h.s, j);
      if Disabling(h'.s, j) {
        EnoughRoom(concurrent, h', j);
      } else {
        assert Runs(concurrent, h', [], h');
      }
      CanEndAfter(concurrent, h, Act(e), j);
    }
  }

  // ---------------------------------------------------------------- results

  ghost predicate Sound(concurrent: nat, h: Hub) {
    && Inv(concurrent, h.s) && h.queued <= CAPACITY
    && (h.waitsFor.Some? ==> Disabling(h.s, h.waitsFor.value) || ReturnedDisabled(h.s, h.waitsFor.value))
  }

  lemma MoveKeepsSound(concurrent: nat, h: Hub, move: Move)
    requires Sound(concurrent, h) && Possible(concurrent, h, move)
    ensures Sound(concurrent, Do(concurrent, h, move))
  {
    match move
    case Act(e) =>
      EventKeepsInv(concurrent, h.s, e);
      if h.waitsFor.Some? {
        WaitKeeps(concurrent, h, e);
      }
    case Begin(j) =>
      EventKeepsInv(concurrent, h.s, Send(j, Disable));
      SendDisables(concurrent, h.s, j);
    case _ =>
  }

  lemma WaitKeeps(concurrent: nat, h: Hub, e: Event)
    requires Sound(concurrent, h) && h.waitsFor.Some? && Enabled(concurrent, h.s, e) && Allowed(h, e)
    ensures var s', j := Fire(concurrent, h.s, e), h.waitsFor.value; Disabling(s', j) || ReturnedDisabled(s', j)
  {
    if Disabling(h.s, h.waitsFor.value) {
      EventKeepsDisabling(concurrent, h.s, e, h.waitsFor.value);
    }
  }

  lemma {:induction false} RunsKeepSound(concurrent: nat, h: Hub, moves: seq<Move>, h': Hub)
    requires Sound(concurrent, h) && Runs(concurrent, h, moves, h')
    ensures Sound(concurrent, h')
    decreases |moves|
  {
    if moves != [] {
      MoveKeepsSound(concurrent, h, moves[0]);
      RunsKeepSound(concurrent, Do(concurrent, h, moves[0]), moves[1..], h');
    }
  }

  /** In every reachable state in which the lock is held by a wait for job `j`: the wait
      can still end if and only if the job needs to send no more messages than there is
      room for. Otherwise it is blocked for good, and with it the worker's loop. */
  lemma WaitCanEndIff(concurrent: nat, before: seq<Move>, h: Hub, j: nat)
    requires Runs(concurrent, NEW, before, h) && h.waitsFor == Some(j) && !HasReturned(h.s, j)
    ensures Disabling(h.s, j)
    ensures CanEnd(concurrent, h, j) <==> JobNeeds(h.s, j) <= Room(h)
  {
    RunsKeepSound(concurrent, NEW, before, h);
    if JobNeeds(h.s, j) <= Room(h) {
      EnoughRoom(concurrent, h, j);
    } else {
      forall moves, h' | Runs(concurrent, h, moves, h')
        ensures !HasReturned(h'.s, j)
      {
        StuckForGood(concurrent, h, moves, h');
      }
    }
  }

  // ---------------------------------------------------------------- a run that blocks

  /** What holds of everything that one job can bring about, with one token in all. */
  ghost predicate Closed(holds: Hub -> bool) {
    forall h, move :: holds(h) && Possible(1, h, move) ==> holds(Do(1, h, move))
  }

  lemma Moved(holds: Hub -> bool, h: Hub, move: Move, h': Hub)
    requires Closed(holds) && holds(h) && Possible(1, h, move) && Do(1, h, move) == h'
    ensures holds(h')
  {
  }

  /** A step of the engine that sends nothing. */
  lemma Quiet(holds: Hub -> bool, h: Hub, e: Event, s': System)
    requires Closed(holds) && holds(h) && h.waitsFor.None?
    requires Enabled(1, h.s, e) && Fire(1, h.s, e) == s' && !Emits(1, h.s, e)
    ensures holds(h.(s := s'))
  {
    Moved(holds, h, Act(e), h.(s := s'));
  }

  /** A step of the engine that sends one message. */
  lemma Sends(holds: Hub -> bool, h: Hub, e: Event, s': System)
    requires Closed(holds) && holds(h) && h.waitsFor.None? && h.queued < CAPACITY
    requires Enabled(1, h.s, e) && Fire(1, h.s, e) == s' && Emits(1, h.s, e)
    ensures holds(h.(s := s', queued := h.queued + 1))
  {
    Moved(holds, h, Act(e), h.(s := s', queued := h.queued + 1));
  }

  /** Seventeen attempts and no hooks. */
  const PARAMS := R.Params(17, 0)

  function With(ctl: Ctl, state: JobState, inbox: seq<Action>, rs: seq<Runner>, tokens: nat): System {
    System([Job(ctl, state, inbox, false, false, 0, PARAMS)], rs, tokens)
  }

  /** The job's runner is in its run. */
  function Running(inbox: seq<Action>, pc: R.Pc, log: seq<R.Message>): System {
    With(Watching(0), Ready, inbox, [Runner(0, PARAMS, Wrapping(R.Local(pc, log)), ByToken, 0, 0, false, log)], 1)
  }

  /** After `r` attempts that failed; the loop has taken one message and not got further. */
  function Retrying(r: nat): Hub {
    Hub(Running([], R.LoopTest(r), R.Retried(r)), 2 * r, Locking, None)
  }

  lemma IsStarted(holds: Hub -> bool)
    requires Closed(holds) && holds(NEW)
    ensures holds(NEW.(s := With(TopOfLoop, Ready, [], [], 0)))
  {
    var s0, s1 := With(Off, StateNone, [], [], 0), With(TopOfLoop, StateNone, [], [], 0);
    var s2, s3 := With(Idle, StateNone, [], [], 0), With(Idle, StateNone, [Start], [], 0);
    assert holds(NEW.(s := s0)) by { Quiet(holds, NEW, NewJob(PARAMS), s0); }
    assert holds(NEW.(s := s1)) by { Quiet(holds, NEW.(s := s0), StartRun(0), s1); }
    assert holds(NEW.(s := s2)) by { Quiet(holds, NEW.(s := s1), Check(0), s2); }
    assert holds(NEW.(s := s3)) by { Quiet(holds, NEW.(s := s2), Send(0, Start), s3); }
    assert [Start][1..] == [];
    Quiet(holds, NEW.(s := s3), Receive(0), With(TopOfLoop, Ready, [], [], 0));
  }

  lemma IsAnnounced(holds: Hub -> bool)
    requires Closed(holds) && holds(NEW.(s := With(TopOfLoop, Ready, [], [], 0)))
    ensures holds(Retrying(0))
  {
    var s0, s1 := With(TopOfLoop, Ready, [], [], 0), With(Watching(0), Ready, [], [NewRunner(0, PARAMS)], 0);
    var log := R.Retried(0);
    var s2, s3 := Running([], R.Announce, []), Running([], R.Hooks(R.PreJob, 0, 0, R.SyncOk), log);
    assert [] + [R.PRE_SYNCING] == log;
    assert holds(NEW.(s := s1)) by { Quiet(holds, NEW.(s := s0), Check(0), s1); }
    assert holds(NEW.(s := s2)) by { Quiet(holds, NEW.(s := s1), TakeToken(0), s2); }
    assert holds(NEW.(s := s3, queued := 1)) by { Sends(holds, NEW.(s := s2), Advance(0, R.Go), s3); }
    assert holds(Hub(s3, 0, Locking, None)) by {
      Moved(holds, NEW.(s := s3, queued := 1), LoopTakes, Hub(s3, 0, Locking, None));
    }
    Quiet(holds, Hub(s3, 0, Locking, None), Advance(0, R.Go), Running([], R.LoopTest(0), log));
  }

  /** One more attempt, up to its sync. */
  lemma IsSyncing(holds: Hub -> bool, r: nat)
    requires Closed(holds) && r < 16 && holds(Retrying(r))
    ensures var s := Running([], R.AwaitStart(r), R.Retried(r) + [R.SYNCING]);
            holds(Hub(s, 2 * r + 1, Locking, None))
  {
    var h, log := Retrying(r), R.Retried(r);
    var s1, s2 := Running([], R.Hooks(R.PreExec, r, 0, R.SyncOk), log), Running([], R.SendSyncing(r), log);
    assert holds(h.(s := s1)) by { Quiet(holds, h, Advance(0, R.Go), s1); }
    assert holds(h.(s := s2)) by { Quiet(holds, h.(s := s1), Advance(0, R.Go), s2); }
    Sends(holds, h.(s := s2), Advance(0, R.Go), Running([], R.AwaitStart(r), log + [R.SYNCING]));
  }

  /** The sync fails. */
  lemma HasFailed(holds: Hub -> bool, r: nat)
    requires Closed(holds) && r < 16
    requires holds(Hub(Running([], R.AwaitStart(r), R.Retried(r) + [R.SYNCING]), 2 * r + 1, Locking, None))
    ensures holds(Hub(Running([], R.Report(r, R.SyncErr), R.Retried(r) + [R.SYNCING]), 2 * r + 1, Locking, None))
  {
    var log := R.Retried(r) + [R.SYNCING];
    var h := Hub(Running([], R.AwaitStart(r), log), 2 * r + 1, Locking, None);
    var s1, s2 := Running([], R.AwaitSync(r, false), log), Running([], R.Hooks(R.PostExec, r, 0, R.SyncErr), log);
    var s3 := Running([], R.Hooks(R.PostFail, r, 0, R.SyncErr), log);
    assert holds(h.(s := s1)) by { Quiet(holds, h, Advance(0, R.StartSeen), s1); }
    assert holds(h.(s := s2)) by { Quiet(holds, h.(s := s1), Advance(0, R.SyncDone(false)), s2); }
    assert holds(h.(s := s3)) by { Quiet(holds, h.(s := s2), Advance(0, R.Go), s3); }
    Quiet(holds, h.(s := s3), Advance(0, R.Go), Running([], R.Report(r, R.SyncErr), log));
  }

  /** The failure is reported, and the next attempt is due. */
  lemma IsReported(holds: Hub -> bool, r: nat)
    requires Closed(holds) && r < 16
    requires holds(Hub(Running([], R.Report(r, R.SyncErr), R.Retried(r) + [R.SYNCING]), 2 * r + 1, Locking, None))
    ensures holds(Retrying(r + 1))
  {
    var log := R.Retried(r) + [R.SYNCING];
    assert log + [R.SyncFailed(false)] == R.Retried(r + 1);
    Sends(holds, Hub(Running([], R.Report(r, R.SyncErr), log), 2 * r + 1, Locking, None), Advance(0, R.Go),
      Running([], R.LoopTest(r + 1), R.Retried(r + 1)));
  }

  lemma {:induction false} KeepsRetrying(holds: Hub -> bool, r: nat)
    requires Closed(holds) && r <= 16 && holds(Retrying(0))
    ensures holds(Retrying(r))
  {
    if r > 0 {
      KeepsRetrying(holds, r - 1);
      IsSyncing(holds, r - 1);
      HasFailed(holds, r - 1);
      IsReported(holds, r - 1);
    }
  }

  /** The lock is taken and disable is sent. */
  function Blocked(): Hub {
    Hub(Running([Disable], R.LoopTest(16), R.Retried(16)), CAPACITY, Locking, Some(0))
  }

  lemma IsBlocked(holds: Hub -> bool)
    requires Closed(holds) && holds(NEW)
    ensures holds(Blocked())
  {
    IsStarted(holds);
    IsAnnounced(holds);
    KeepsRetrying(holds, 16);
    Moved(holds, Retrying(16), Begin(0), Blocked());
  }

  ghost predicate Reachable(h: Hub) {
    exists moves :: Runs(1, NEW, moves, h)
  }

  lemma {:induction false} RunsNext(h: Hub, moves: seq<Move>, h': Hub, move: Move)
    requires Runs(1, h, moves, h') && Possible(1, h', move)
    ensures Runs(1, h, moves + [move], Do(1, h', move))
    decreases |moves|
  {
    var longer := moves + [move];
    if moves == [] {
      assert longer[1..] == [];
    } else {
      assert longer[0] == moves[0] && longer[1..] == moves[1..] + [move];
      RunsNext(Do(1, h, moves[0]), moves[1..], h', move);
    }
  }

  lemma ReachableClosed()
    ensures Closed(h => Reachable(h)) && Reachable(NEW)
  {
    assert Runs(1, NEW, [], NEW);
    forall h, move | Reachable(h) && Possible(1, h, move)
      ensures Reachable(Do(1, h, move))
    {
      var moves :| Runs(1, NEW, moves, h);
      RunsNext(NEW, moves, h, move);
    }
  }

  /** From the beginning: a job that retries fills the channel while the loop, with one
      message in its hand, has not yet taken the lock; then somebody takes the lock and
      disables the job. From there `Run` never returns, and the lock is never released. */
  lemma DisableBlocks() returns (moves: seq<Move>, h: Hub)
    ensures Runs(1, NEW, moves, h) && h.waitsFor == Some(0)
    ensures forall more, h' :: Runs(1, h, more, h') ==> h'.waitsFor == Some(0) && !HasReturned(h'.s, 0)
  {
    ReachableClosed();
    IsBlocked(h => Reachable(h));
    h := Blocked();
    moves :| Runs(1, NEW, moves, h);
    RunsKeepSound(1, NEW, moves, h);
    forall more, h' | Runs(1, h, more, h')
      ensures h'.waitsFor == Some(0) && !HasReturned(h'.s, 0)
    {
      StuckForGood(1, h, more, h');
    }
  }
}
