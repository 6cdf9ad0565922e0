/** Disable and halt always end `Run`: a bound on the events of one job's own
    goroutines, whatever every other job does in between. */
module JobLiveness {
  import R = RunJob
  import opened JobEngine

  predicate Ends(a: Action) {
    a.Disable? || a.Halt?
  }

  /** The controller is on its way out of `Run`. */
  predicate Exiting(job: Job) {
    job.ctl.Leaving? || ((job.ctl.KillNext? || job.ctl.Joining?) && Ends(job.ctl.why))
  }

  /** A disable or halt waits in the inbox of an active controller, or was received. */
  predicate Doomed(s: System, j: nat) {
    && j < |s.jobs|
    && (Exiting(s.jobs[j])
        || (!s.jobs[j].ctl.Off? && |s.jobs[j].inbox| == 1 && Ends(s.jobs[j].inbox[0])))
  }

  predicate HasReturned(s: System, j: nat) {
    j < |s.jobs| && s.jobs[j].ctl.Off? && s.jobs[j].exited
  }

  /** The events of job `j`'s controller and of the runner it is attached to. */
  predicate Own(s: System, e: Event, j: nat) {
    match e
    case Check(i) => i == j
    case Receive(i) => i == j
    case SeeDone(i) => i == j
    case CloseKill(i) => i == j
    case Join(i) => i == j
    case Wake(i) => i == j
    case Leave(i) => i == j
    case TakeToken(k) => k < |s.runners| && s.runners[k].job == j && Current(s, k)
    case TakeBypass(k) => k < |s.runners| && s.runners[k].job == j && Current(s, k)
    case SeeKill(k) => k < |s.runners| && s.runners[k].job == j && Current(s, k)
    case Advance(k, _) => k < |s.runners| && s.runners[k].job == j && Current(s, k)
    case CloseDone(k) => k < |s.runners| && s.runners[k].job == j && Current(s, k)
    case GiveBack(k) => k < |s.runners| && s.runners[k].job == j && Current(s, k)
    case _ => false
  }

  function RunnerRank(r: Runner): nat {
    match r.pc
    case Selecting => 3 + R.Rank(r.params, R.Announce)
    case Wrapping(local) => 2 + R.Rank(r.params, local.pc)
    case SendingDone => 0
    case Releasing => 1
    case Gone => 0
  }

  /** The events a freshly spawned runner can take. */
  function Full(params: R.Params): nat {
    3 + R.Rank(params, R.Announce)
  }

  function AttachedRank(s: System, j: nat): nat
    requires j < |s.jobs|
  {
    var ctl := s.jobs[j].ctl;
    if Attached(ctl) && ctl.k < |s.runners| then RunnerRank(s.runners[ctl.k]) else 0
  }

  /** A bound on the own events that remain until `Run` has returned. */
  function JobRank(s: System, j: nat): nat
    requires j < |s.jobs|
  {
    var job, rest := s.jobs[j], AttachedRank(s, j);
    match job.ctl
    case Off => 0
    case Leaving => 1
    case Idle => 2
    case Joining(_, why) =>
      if Ends(why) then 2 + rest else if why.Restart? then 7 + Full(job.params) + rest else 3 + rest
    case KillNext(_, why) =>
      if Ends(why) then 3 + rest else if why.Restart? then 8 + Full(job.params) + rest else 4 + rest
    case Watching(_) => 4 + rest
    case TopOfLoop => 5 + Full(job.params)
    case Sleeping => 6 + Full(job.params)
  }

  /** Every own event brings a doomed job nearer to its return. */
  lemma ReceiveCounts(concurrent: nat, s: System, j: nat)
    requires Inv(concurrent, s) && Doomed(s, j) && Enabled(concurrent, s, Receive(j))
    ensures var s' := Fire(concurrent, s, Receive(j));
            j < |s'.jobs| && JobRank(s', j) < JobRank(s, j) && Doomed(s', j)
  {
    assert JobOk(s, j);
  }

  lemma ControllerEventCounts(concurrent: nat, s: System, e: Event, j: nat)
    requires Inv(concurrent, s) && Doomed(s, j) && Enabled(concurrent, s, e) && Own(s, e, j)
    requires !IsRunnerEvent(e)
    ensures var s' := Fire(concurrent, s, e);
            j < |s'.jobs| && JobRank(s', j) < JobRank(s, j) && (Doomed(s', j) || HasReturned(s', j))
  {
    assert JobOk(s, j);
    if e.Receive? {
      ReceiveCounts(concurrent, s, j);
    } else if Attached(s.jobs[j].ctl) {
      assert RunnerOk(s, s.jobs[j].ctl.k);
    }
  }

  lemma {:induction false} RunnerEventCounts(concurrent: nat, s: System, e: Event, j: nat)
    requires Inv(concurrent, s) && Doomed(s, j) && Enabled(concurrent, s, e) && Own(s, e, j)
    requires IsRunnerEvent(e)
    ensures var s' := Fire(concurrent, s, e);
            j < |s'.jobs| && JobRank(s', j) < JobRank(s, j) && Doomed(s', j)
  {
    assert JobOk(s, j) && RunnerOk(s, e.k);
    AttachedRunnerFalls(concurrent, s, e, j);
  }

  lemma {:induction false} AttachedRunnerFalls(concurrent: nat, s: System, e: Event, j: nat)
    requires Inv(concurrent, s) && j < |s.jobs| && Enabled(concurrent, s, e) && Own(s, e, j) && IsRunnerEvent(e)
    ensures var s' := Fire(concurrent, s, e);
            && |s'.runners| == |s.runners| && RunnerRank(s'.runners[e.k]) < RunnerRank(s.runners[e.k])
            && |s'.jobs| == |s.jobs| && s'.jobs[j] == s.jobs[j].(bypass := s'.jobs[j].bypass)
  {
    assert RunnerOk(s, e.k);
    if e.Advance? {
      AdvanceFalls(concurrent, s, e, e.k);
    }
  }

  /** The rank looks only at the job and at the runner it is attached to. */
  lemma SameRank(s: System, s': System, j: nat)
    requires Doomed(s, j) && j < |s'.jobs| && |s.runners| <= |s'.runners|
    requires s'.jobs[j] == s.jobs[j].(inbox := s'.jobs[j].inbox, bypass := s'.jobs[j].bypass)
    requires s'.jobs[j].inbox == s.jobs[j].inbox || s.jobs[j].inbox == []
    requires Attached(s.jobs[j].ctl) && s.jobs[j].ctl.k < |s.runners| ==>
               s'.runners[s.jobs[j].ctl.k] == s.runners[s.jobs[j].ctl.k]
    requires Attached(s.jobs[j].ctl) ==> s.jobs[j].ctl.k < |s.runners|
    ensures JobRank(s', j) == JobRank(s, j) && Doomed(s', j)
  {
  }

  /** No event of another goroutine sets it back. */
  lemma OtherRunnerKeeps(concurrent: nat, s: System, e: Event, j: nat)
    requires Inv(concurrent, s) && Doomed(s, j) && Enabled(concurrent, s, e) && !Own(s, e, j)
    requires IsRunnerEvent(e)
    ensures var s' := Fire(concurrent, s, e);
            j < |s'.jobs| && JobRank(s', j) == JobRank(s, j) && Doomed(s', j)
  {
    assert JobOk(s, j) && RunnerOk(s, e.k);
    SameRank(s, Fire(concurrent, s, e), j);
  }

  lemma OtherEventKeeps(concurrent: nat, s: System, e: Event, j: nat)
    requires Inv(concurrent, s) && Doomed(s, j) && Enabled(concurrent, s, e) && !Own(s, e, j)
    ensures var s' := Fire(concurrent, s, e);
            j < |s'.jobs| && JobRank(s', j) == JobRank(s, j) && Doomed(s', j)
  {
    if IsRunnerEvent(e) {
      OtherRunnerKeeps(concurrent, s, e, j);
    } else if e.SeeDone? || e.CloseKill? || e.Join? {
      OtherJoinKeeps(concurrent, s, e, j);
    } else {
      assert JobOk(s, j);
      SameRank(s, Fire(concurrent, s, e), j);
    }
  }

  /** Another controller touches only its own runner. */
  lemma OtherJoinKeeps(concurrent: nat, s: System, e: Event, j: nat)
    requires Inv(concurrent, s) && Doomed(s, j) && Enabled(concurrent, s, e) && !Own(s, e, j)
    requires e.SeeDone? || e.CloseKill? || e.Join?
    ensures var s' := Fire(concurrent, s, e);
            j < |s'.jobs| && JobRank(s', j) == JobRank(s, j) && Doomed(s', j)
  {
    assert JobOk(s, j) && JobOk(s, e.j);
    SameRank(s, Fire(concurrent, s, e), j);
  }

  /** An own event that is enabled. */
  function NextOwn(s: System, j: nat): Event
    requires j < |s.jobs|
  {
    var job := s.jobs[j];
    match job.ctl
    case Off => StartRun(j)
    case Leaving => Leave(j)
    case Idle => Receive(j)
    case Watching(_) => Receive(j)
    case KillNext(_, _) => CloseKill(j)
    case TopOfLoop => Check(j)
    case Sleeping => Wake(j)
    case Joining(k, _) =>
      if k >= |s.runners| || CanJoin(s.runners[k]) then Join(j)
      else if s.runners[k].pc.Selecting? then SeeKill(k)
      else if !s.runners[k].pc.Wrapping? || s.runners[k].pc.local.pc.Returned? then CloseDone(k)
      else Advance(k, R.KilledChoice(s.runners[k].params, s.runners[k].pc.local.pc))
  }

  /** A doomed job is never stuck, whatever the other jobs hold. */
  lemma DoomedJobMoves(concurrent: nat, s: System, j: nat)
    requires Inv(concurrent, s) && Doomed(s, j)
    ensures Enabled(concurrent, s, NextOwn(s, j)) && Own(s, NextOwn(s, j), j)
  {
    assert JobOk(s, j);
    if s.jobs[j].ctl.Joining? {
      var k := s.jobs[j].ctl.k;
      assert RunnerOk(s, k) && Current(s, k);
      if s.runners[k].pc.Wrapping? && !s.runners[k].pc.local.pc.Returned? {
        R.KilledRunMoves(s.runners[k].params, s.runners[k].pc.local.pc);
      }
    }
  }

  /** How many of the events of `trace` are job `j`'s own. */
  ghost function OwnEvents(concurrent: nat, s: System, trace: seq<Event>, j: nat): nat
    decreases |trace|
  {
    if trace == [] || !Enabled(concurrent, s, trace[0]) then 0
    else (if Own(s, trace[0], j) then 1 else 0) + OwnEvents(concurrent, Fire(concurrent, s, trace[0]), trace[1..], j)
  }

  /** Job `j` has returned from `Run` at some point of `trace`. */
  ghost predicate ReturnsAlong(concurrent: nat, s: System, trace: seq<Event>, j: nat)
    decreases |trace|
  {
    || HasReturned(s, j)
    || (&& trace != [] && Enabled(concurrent, s, trace[0])
        && ReturnsAlong(concurrent, Fire(concurrent, s, trace[0]), trace[1..], j))
  }

  lemma {:induction false} RankPaysForEvents(concurrent: nat, s: System, trace: seq<Event>, s': System, j: nat)
    requires Inv(concurrent, s) && Doomed(s, j) && Reaches(concurrent, s, trace, s')
    ensures ReturnsAlong(concurrent, s, trace, j)
            || (Doomed(s', j) && OwnEvents(concurrent, s, trace, j) + JobRank(s', j) <= JobRank(s, j))
    decreases |trace|
  {
    if trace != [] {
      var e, t := trace[0], Fire(concurrent, s, trace[0]);
      EventKeepsInv(concurrent, s, e);
      if !Own(s, e, j) {
        OtherEventKeeps(concurrent, s, e, j);
      } else if IsRunnerEvent(e) {
        RunnerEventCounts(concurrent, s, e, j);
      } else {
        ControllerEventCounts(concurrent, s, e, j);
      }
      if Doomed(t, j) {
        RankPaysForEvents(concurrent, t, trace[1..], s', j);
      } else {
        assert ReturnsAlong(concurrent, t, trace[1..], j);
      }
    }
  }

  /** The bound depends only on the retries and hooks of the job. */
  function Bound(params: R.Params): nat {
    8 + 2 * Full(params)
  }

  lemma JobRankBounded(concurrent: nat, s: System, j: nat)
    requires Inv(concurrent, s) && j < |s.jobs|
    ensures JobRank(s, j) <= Bound(s.jobs[j].params)
  {
    assert JobOk(s, j);
    var ctl := s.jobs[j].ctl;
    if Attached(ctl) {
      var r := s.runners[ctl.k];
      assert RunnerOk(s, ctl.k);
      if r.pc.Wrapping? {
        R.RankBounded(r.params, r.pc.local);
      }
    }
  }

  /** In every reachable state in which a job was sent disable or halt, or has
      received it: (1) its goroutines can move; (2) in any continuation in which they
      have moved `Bound` times, `Run` has returned and closed `disabled`. */
  lemma DisableAlwaysReturns(concurrent: nat, before: seq<Event>, s: System, j: nat, after: seq<Event>, s': System)
    requires Reaches(concurrent, EMPTY, before, s) && Doomed(s, j)
    requires Reaches(concurrent, s, after, s')
    ensures Enabled(concurrent, s, NextOwn(s, j)) && Own(s, NextOwn(s, j), j)
    ensures OwnEvents(concurrent, s, after, j) >= Bound(s.jobs[j].params) ==> ReturnsAlong(concurrent, s, after, j)
  {
    ReachableInv(concurrent, EMPTY, before, s);
    DoomedJobMoves(concurrent, s, j);
    JobRankBounded(concurrent, s, j);
    RankPaysForEvents(concurrent, s, after, s', j);
    if Doomed(s', j) {
      assert JobRank(s', j) > 0;
    }
  }

  // ---------------------------------------------------------------- the state after a disable

  /** A disable waits in the inbox of a controller that is not yet on its way out, or was received. */
  predicate Disabling(s: System, j: nat) {
    && j < |s.jobs|
    && (if Exiting(s.jobs[j]) then s.jobs[j].state.Disabled?
        else !s.jobs[j].ctl.Off? && s.jobs[j].inbox == [Disable])
  }

  predicate ReturnedDisabled(s: System, j: nat) {
    HasReturned(s, j) && s.jobs[j].state.Disabled?
  }

  /** Whatever event comes next, the disable is not lost and no other action takes its place. */
  lemma EventKeepsDisabling(concurrent: nat, s: System, e: Event, j: nat)
    requires Inv(concurrent, s) && Disabling(s, j) && Enabled(concurrent, s, e)
    ensures var s' := Fire(concurrent, s, e);
            Disabling(s', j) || (ReturnedDisabled(s', j) && e == Leave(j))
  {
    assert JobOk(s, j);
  }

  /** When job `j` returns from `Run` for the first time on `trace`, it is disabled. */
  ghost predicate ReturnsDisabled(concurrent: nat, s: System, trace: seq<Event>, j: nat)
    decreases |trace|
  {
    if HasReturned(s, j) then s.jobs[j].state.Disabled?
    else
      && trace != [] && Enabled(concurrent, s, trace[0])
      && ReturnsDisabled(concurrent, Fire(concurrent, s, trace[0]), trace[1..], j)
  }

  lemma {:induction false} DisablingHolds(concurrent: nat, s: System, trace: seq<Event>, s': System, j: nat)
    requires Inv(concurrent, s) && Disabling(s, j) && Reaches(concurrent, s, trace, s')
    ensures ReturnsAlong(concurrent, s, trace, j) ==> ReturnsDisabled(concurrent, s, trace, j)
    ensures !ReturnsAlong(concurrent, s, trace, j) ==> Disabling(s', j)
    decreases |trace|
  {
    if trace != [] {
      var t := Fire(concurrent, s, trace[0]);
      EventKeepsInv(concurrent, s, trace[0]);
      EventKeepsDisabling(concurrent, s, trace[0], j);
      if Disabling(t, j) {
        DisablingHolds(concurrent, t, trace[1..], s', j);
      } else {
        assert ReturnsAlong(concurrent, t, trace[1..], j);
      }
    }
  }

  /** What `disableJob` of worker/worker.go waits for. In every reachable state in
      which a disable was sent, and in every continuation: the disable stays in force
      until `Run` returns; `Run` returns within `Bound` own events; and then the job is
      disabled, so that its provider may be switched. */
  lemma {:induction false} DisableEndsDisabled(
    concurrent: nat, before: seq<Event>, s: System, j: nat, after: seq<Event>, s': System)
    requires Reaches(concurrent, EMPTY, before, s) && Disabling(s, j)
    requires Reaches(concurrent, s, after, s')
    ensures Disabling(s', j) || ReturnsDisabled(concurrent, s, after, j)
    ensures OwnEvents(concurrent, s, after, j) >= Bound(s.jobs[j].params) ==> ReturnsDisabled(concurrent, s, after, j)
  {
    ReachableInv(concurrent, EMPTY, before, s);
    DisablingHolds(concurrent, s, after, s', j);
    DisableAlwaysReturns(concurrent, before, s, j, after, s');
  }

  lemma SendDisables(concurrent: nat, s: System, j: nat)
    requires Enabled(concurrent, s, Send(j, Disable)) && !s.jobs[j].ctl.Off? && !Exiting(s.jobs[j])
    ensures Disabling(Fire(concurrent, s, Send(j, Disable)), j)
  {
  }

  /** From the moment the worker sends it, to any active controller that is not already
      on its way out of `Run`. */
  lemma {:induction false} SentDisableEndsDisabled(
    concurrent: nat, before: seq<Event>, s: System, j: nat, after: seq<Event>, s': System)
    requires Reaches(concurrent, EMPTY, before, s) && Enabled(concurrent, s, Send(j, Disable))
    requires !s.jobs[j].ctl.Off? && !Exiting(s.jobs[j])
    requires Reaches(concurrent, Fire(concurrent, s, Send(j, Disable)), after, s')
    ensures var t := Fire(concurrent, s, Send(j, Disable));
            && Inv(concurrent, s') && (Disabling(s', j) || ReturnsDisabled(concurrent, t, after, j))
            && (ReturnsAlong(concurrent, t, after, j) <==> ReturnsDisabled(concurrent, t, after, j))
            && (OwnEvents(concurrent, t, after, j) >= Bound(t.jobs[j].params) ==>
                  ReturnsDisabled(concurrent, t, after, j))
  {
    var t := Fire(concurrent, s, Send(j, Disable));
    ReachesNext(concurrent, EMPTY, before, s, Send(j, Disable));
    SendDisables(concurrent, s, j);
    DisableEndsDisabled(concurrent, before + [Send(j, Disable)], t, j, after, s');
    ReachableInv(concurrent, EMPTY, before + [Send(j, Disable)], t);
    ReachableInv(concurrent, t, after, s');
    DisablingHolds(concurrent, t, after, s', j);
    if ReturnsDisabled(concurrent, t, after, j) {
      ReturnedAlong(concurrent, t, after, j);
    }
  }

  lemma {:induction false} ReturnedAlong(concurrent: nat, s: System, trace: seq<Event>, j: nat)
    requires ReturnsDisabled(concurrent, s, trace, j)
    ensures ReturnsAlong(concurrent, s, trace, j)
    decreases |trace|
  {
    if !HasReturned(s, j) {
      ReturnedAlong(concurrent, Fire(concurrent, s, trace[0]), trace[1..], j);
    }
  }

  // ---------------------------------------------------------------- killed runners

  /** What a runner has left: its own events use it up, no other event adds to it. */
  lemma {:induction false} RunnerRankFalls(concurrent: nat, s: System, e: Event, k: nat)
    requires Inv(concurrent, s) && Enabled(concurrent, s, e) && k < |s.runners|
    ensures var s' := Fire(concurrent, s, e);
            && k < |s'.runners| && s'.runners[k].job == s.runners[k].job
            && s'.runners[k].kills >= s.runners[k].kills
            && RunnerRank(s'.runners[k]) + (if IsRunnerEvent(e) && e.k == k then 1 else 0) <= RunnerRank(s.runners[k])
  {
    if IsRunnerEvent(e) && e.k == k {
      OwnEventFalls(concurrent, s, e, k);
    } else {
      assert RunnerOk(s, k);
    }
  }

  lemma {:induction false} OwnEventFalls(concurrent: nat, s: System, e: Event, k: nat)
    requires Inv(concurrent, s) && Enabled(concurrent, s, e) && IsRunnerEvent(e) && e.k == k
    ensures var s' := Fire(concurrent, s, e);
            && k < |s'.runners| && s'.runners[k].job == s.runners[k].job && s'.runners[k].kills == s.runners[k].kills
            && RunnerRank(s'.runners[k]) < RunnerRank(s.runners[k])
  {
    assert RunnerOk(s, k);
    if e.Advance? {
      AdvanceFalls(concurrent, s, e, k);
    }
  }

  lemma {:induction false} AdvanceFalls(concurrent: nat, s: System, e: Event, k: nat)
    requires Inv(concurrent, s) && Enabled(concurrent, s, e) && e.Advance? && e.k == k
    ensures RunnerRank(Fire(concurrent, s, e).runners[k]) < RunnerRank(s.runners[k])
  {
    var r := s.runners[k];
    assert RunnerOk(s, k);
    R.StepDecreasesRank(r.params, r.pc.local, e.c, s.jobs[r.job].state.Ready?, r.kills > 0);
  }

  /** How many of the events of `trace` are taken by runner `k`. */
  ghost function RunnerEvents(concurrent: nat, s: System, trace: seq<Event>, k: nat): nat
    decreases |trace|
  {
    if trace == [] || !Enabled(concurrent, s, trace[0]) then 0
    else
      (if IsRunnerEvent(trace[0]) && trace[0].k == k then 1 else 0)
      + RunnerEvents(concurrent, Fire(concurrent, s, trace[0]), trace[1..], k)
  }

  lemma {:induction false} RunnerRankPays(concurrent: nat, s: System, trace: seq<Event>, s': System, k: nat)
    requires Inv(concurrent, s) && Reaches(concurrent, s, trace, s') && k < |s.runners|
    ensures k < |s'.runners| && s'.runners[k].job == s.runners[k].job && s'.runners[k].kills >= s.runners[k].kills
    ensures RunnerEvents(concurrent, s, trace, k) + RunnerRank(s'.runners[k]) <= RunnerRank(s.runners[k])
    decreases |trace|
  {
    if trace != [] {
      EventKeepsInv(concurrent, s, trace[0]);
      RunnerRankFalls(concurrent, s, trace[0], k);
      RunnerRankPays(concurrent, Fire(concurrent, s, trace[0]), trace[1..], s', k);
    }
  }

  lemma RunnerRankBounded(concurrent: nat, s: System, k: nat)
    requires Inv(concurrent, s) && k < |s.runners|
    ensures RunnerRank(s.runners[k]) <= Full(s.runners[k].params)
  {
    var r := s.runners[k];
    assert RunnerOk(s, k);
    if r.pc.Wrapping? {
      R.RankBounded(r.params, r.pc.local);
    }
  }

  /** While a killed runner has not signalled, its controller waits for it, and one of
      the two can move. */
  lemma KilledRunnerMoves(concurrent: nat, s: System, k: nat)
    requires Inv(concurrent, s) && k < |s.runners| && s.runners[k].kills > 0 && s.runners[k].dones == 0
    ensures var j := s.runners[k].job;
            && j < |s.jobs| && s.jobs[j].ctl.Joining? && s.jobs[j].ctl.k == k
            && Enabled(concurrent, s, NextOwn(s, j)) && Own(s, NextOwn(s, j), j)
            && (RunnerRank(s.runners[k]) == 0 ==> NextOwn(s, j) == Join(j))
  {
    var r := s.runners[k];
    assert RunnerOk(s, k);
    assert JobOk(s, r.job);
    if r.pc.Wrapping? && !r.pc.local.pc.Returned? {
      R.KilledRunMoves(r.params, r.pc.local.pc);
    }
  }

  /** Once `kill` is closed, for whatever action: the runner and its controller are
      never stuck before the signal, and after at most `Full` events of the runner the
      signal was given or the controller is about to receive it. */
  lemma KilledRunnerSignals(concurrent: nat, before: seq<Event>, s: System, k: nat, after: seq<Event>, s': System)
    requires Reaches(concurrent, EMPTY, before, s) && Reaches(concurrent, s, after, s')
    requires k < |s.runners| && s.runners[k].kills > 0
    ensures k < |s'.runners| && RunnerEvents(concurrent, s, after, k) <= Full(s.runners[k].params)
    ensures s'.runners[k].dones == 0 ==>
              var j := s'.runners[k].job;
              && j < |s'.jobs| && s'.jobs[j].ctl.Joining? && s'.jobs[j].ctl.k == k
              && Enabled(concurrent, s', NextOwn(s', j)) && Own(s', NextOwn(s', j), j)
              && (RunnerEvents(concurrent, s, after, k) == Full(s.runners[k].params) ==> NextOwn(s', j) == Join(j))
  {
    ReachableInv(concurrent, EMPTY, before, s);
    ReachableInv(concurrent, s, after, s');
    RunnerRankBounded(concurrent, s, k);
    RunnerRankPays(concurrent, s, after, s', k);
    if s'.runners[k].dones == 0 {
      KilledRunnerMoves(concurrent, s', k);
    }
  }
}
