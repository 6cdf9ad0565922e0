/** What each action of the worker brings about, from the moment a controller receives it
    and over every continuation in which the worker sends that job nothing else
    (worker/job.go). */
module Actions {
  import opened JobStates
  import opened JobEngine
  import R = RunJob
  import S = JobStreams

  /** The worker leaves job `j` alone. */
  ghost predicate Unbidden(trace: seq<Event>, j: nat) {
    forall e :: e in trace ==> !Bids(e, j)
  }

  predicate Bids(e: Event, j: nat) {
    (e.Send? || e.Reconfigure? || e.StartRun?) && e.j == j
  }

  /** Job `j` has spawned no runner since there were `n`. */
  ghost predicate NoNewRun(s: System, j: nat, n: nat) {
    forall k: nat :: n <= k < |s.runners| ==> s.runners[k].job != j
  }

  // ---------------------------------------------------------------- actions that lead to a run

  /** The controller is on its way to its next run. */
  predicate Due(job: Job) {
    && job.state.Ready? && job.inbox == []
    && (job.ctl.TopOfLoop? || job.ctl.Sleeping? || ((job.ctl.KillNext? || job.ctl.Joining?) && job.ctl.why.Restart?))
  }

  lemma DueStays(concurrent: nat, s: System, e: Event, j: nat, n: nat)
    requires Inv(concurrent, s) && Enabled(concurrent, s, e) && j < |s.jobs| && n <= |s.runners|
    requires Due(s.jobs[j]) && NoNewRun(s, j, n) && !Bids(e, j) && e != Check(j)
    ensures var s' := Fire(concurrent, s, e);
            j < |s'.jobs| && n <= |s'.runners| && Due(s'.jobs[j]) && NoNewRun(s', j, n)
  {
    assert JobOk(s, j);
    if !e.Check? {
      S.SameRunners(concurrent, s, e);
    }
  }

  lemma {:induction false} DueAlong(concurrent: nat, s: System, trace: seq<Event>, s': System, j: nat, n: nat)
    requires Inv(concurrent, s) && Reaches(concurrent, s, trace, s') && j < |s.jobs| && n <= |s.runners|
    requires Due(s.jobs[j]) && NoNewRun(s, j, n) && Unbidden(trace, j) && Check(j) !in trace
    ensures j < |s'.jobs| && n <= |s'.runners| && Due(s'.jobs[j]) && NoNewRun(s', j, n)
    decreases |trace|
  {
    if trace != [] {
      assert trace[0] in trace;
      EventKeepsInv(concurrent, s, trace[0]);
      DueStays(concurrent, s, trace[0], j, n);
      DueAlong(concurrent, Fire(concurrent, s, trace[0]), trace[1..], s', j, n);
    }
  }

  /** The actions that make a controller run its job next: while it watches a run, only a
      restart, which stops that run first; while it rests, any start. */
  predicate LeadsToRun(ctl: Ctl, a: Action) {
    (ctl.Watching? && a.Restart?) || (ctl.Idle? && (a.Start? || a.Restart? || a.ForceStart?))
  }

  /** A restart, or a start of a resting job, is carried out: whatever happens in between,
      the controller's next look at the state finds the job ready and spawns a run of
      it, the first since the action was received. */
  lemma {:induction false} StartIsCarriedOut(
    concurrent: nat, before: seq<Event>, s: System, j: nat, after: seq<Event>, s': System)
    requires Reaches(concurrent, EMPTY, before, s) && Enabled(concurrent, s, Receive(j))
    requires LeadsToRun(s.jobs[j].ctl, s.jobs[j].inbox[0])
    requires Reaches(concurrent, Fire(concurrent, s, Receive(j)), after, s')
    requires Unbidden(after, j) && Check(j) !in after
    ensures j < |s'.jobs| && s'.jobs[j].state.Ready? && NoNewRun(s', j, |s.runners|)
    ensures Enabled(concurrent, s', Check(j)) ==>
              var t := Fire(concurrent, s', Check(j));
              && |t.runners| == |s'.runners| + 1 && t.runners[..|s'.runners|] == s'.runners
              && t.runners[|s'.runners|].job == j && t.runners[|s'.runners|].pc.Selecting?
              && t.jobs[j].ctl == Watching(|s'.runners|)
  {
    ReachableInv(concurrent, EMPTY, before, s);
    EventKeepsInv(concurrent, s, Receive(j));
    assert JobOk(s, j);
    DueAlong(concurrent, Fire(concurrent, s, Receive(j)), after, s', j, |s.runners|);
  }

  // ---------------------------------------------------------------- actions that end runs

  /** The controller runs its job no more: it is to pause, or it is to leave `Run`. */
  predicate Ceasing(job: Job, state: JobState, leave: bool) {
    && job.state == state && job.inbox == []
    && if leave then
         || job.ctl.Leaving? || job.ctl.Off?
         || ((job.ctl.KillNext? || job.ctl.Joining?) && (job.ctl.why.Disable? || job.ctl.why.Halt?))
       else
         && !state.Ready?
         && (job.ctl.TopOfLoop? || job.ctl.Idle? || ((job.ctl.KillNext? || job.ctl.Joining?) && job.ctl.why.Stop?))
  }

  lemma CeasingStays(concurrent: nat, s: System, e: Event, j: nat, n: nat, state: JobState, leave: bool)
    requires Inv(concurrent, s) && Enabled(concurrent, s, e) && j < |s.jobs| && n <= |s.runners|
    requires Ceasing(s.jobs[j], state, leave) && NoNewRun(s, j, n) && !Bids(e, j)
    ensures var s' := Fire(concurrent, s, e);
            j < |s'.jobs| && n <= |s'.runners| && Ceasing(s'.jobs[j], state, leave) && NoNewRun(s', j, n)
  {
    assert JobOk(s, j);
    if !e.Check? {
      S.SameRunners(concurrent, s, e);
    }
  }

  lemma {:induction false} CeasingAlong(
    concurrent: nat, s: System, trace: seq<Event>, s': System, j: nat, n: nat, state: JobState, leave: bool)
    requires Inv(concurrent, s) && Reaches(concurrent, s, trace, s') && j < |s.jobs| && n <= |s.runners|
    requires Ceasing(s.jobs[j], state, leave) && NoNewRun(s, j, n) && Unbidden(trace, j)
    ensures Inv(concurrent, s') && j < |s'.jobs| && n <= |s'.runners|
    ensures Ceasing(s'.jobs[j], state, leave) && NoNewRun(s', j, n)
    decreases |trace|
  {
    if trace != [] {
      assert trace[0] in trace;
      EventKeepsInv(concurrent, s, trace[0]);
      CeasingStays(concurrent, s, trace[0], j, n, state, leave);
      CeasingAlong(concurrent, Fire(concurrent, s, trace[0]), trace[1..], s', j, n, state, leave);
    }
  }

  /** Runner `k` of job `j` is still awaited, or it was killed and has signalled. */
  predicate Dealt(s: System, j: nat, k: nat) {
    && j < |s.jobs| && k < |s.runners|
    && (((s.jobs[j].ctl.KillNext? || s.jobs[j].ctl.Joining?) && s.jobs[j].ctl.k == k)
        || (s.runners[k].kills == 1 && s.runners[k].dones == 1))
  }

  lemma DealtStays(concurrent: nat, s: System, e: Event, j: nat, k: nat)
    requires Inv(concurrent, s) && Enabled(concurrent, s, e) && Dealt(s, j, k)
    ensures Dealt(Fire(concurrent, s, e), j, k)
  {
    assert JobOk(s, j) && RunnerOk(s, k);
    if e.CloseKill? {
      assert JobOk(s, e.j);
    }
  }

  lemma {:induction false} DealtAlong(concurrent: nat, s: System, trace: seq<Event>, s': System, j: nat, k: nat)
    requires Inv(concurrent, s) && Reaches(concurrent, s, trace, s') && Dealt(s, j, k)
    ensures Dealt(s', j, k)
    decreases |trace|
  {
    if trace != [] {
      EventKeepsInv(concurrent, s, trace[0]);
      DealtStays(concurrent, s, trace[0], j, k);
      DealtAlong(concurrent, Fire(concurrent, s, trace[0]), trace[1..], s', j, k);
    }
  }

  /** What the controller's next state is, once it has received an action that ends runs. */
  lemma EndIsReceived(concurrent: nat, s: System, j: nat)
    requires Inv(concurrent, s) && Enabled(concurrent, s, Receive(j))
    requires s.jobs[j].inbox[0] in {Stop, Disable, Halt}
    ensures var a, t := s.jobs[j].inbox[0], Fire(concurrent, s, Receive(j));
            && |t.jobs| == |s.jobs| && t.runners == s.runners
            && Ceasing(t.jobs[j], t.jobs[j].state, !a.Stop?)
            && (a.Stop? ==> t.jobs[j].state.Paused?)
            && (a.Disable? ==> t.jobs[j].state.Disabled?)
            && (a.Halt? ==> t.jobs[j].state == if s.jobs[j].ctl.Watching? then Halting else s.jobs[j].state)
            && (s.jobs[j].ctl.Watching? ==> Dealt(t, j, s.jobs[j].ctl.k))
  {
    assert JobOk(s, j);
  }

  /** A stop, disable or halt is carried out, whatever happens afterwards: the job is and
      stays paused, disabled or halting (a halt that finds it at rest leaves the state
      alone); it spawns no run any more; the run that was watched is killed and
      awaited; and a stopped controller never leaves `Run`, while a disabled or halted
      one never again watches, rests or looks at the state. */
  lemma {:induction false} EndIsCarriedOut(
    concurrent: nat, before: seq<Event>, s: System, j: nat, after: seq<Event>, s': System)
    requires Reaches(concurrent, EMPTY, before, s) && Enabled(concurrent, s, Receive(j))
    requires s.jobs[j].inbox[0] in {Stop, Disable, Halt}
    requires Reaches(concurrent, Fire(concurrent, s, Receive(j)), after, s') && Unbidden(after, j)
    ensures j < |s'.jobs| && NoNewRun(s', j, |s.runners|)
    ensures var a, state := s.jobs[j].inbox[0], s'.jobs[j].state;
            && (a.Stop? ==> state.Paused?) && (a.Disable? ==> state.Disabled?)
            && (a.Halt? && s.jobs[j].ctl.Watching? ==> state.Halting?)
            && (a.Halt? && s.jobs[j].ctl.Idle? ==> state == s.jobs[j].state)
    ensures s.jobs[j].inbox[0].Stop? ==> !s'.jobs[j].ctl.Off? && !s'.jobs[j].ctl.Leaving? && !s'.jobs[j].ctl.Watching?
    ensures !s.jobs[j].inbox[0].Stop? ==>
              var ctl := s'.jobs[j].ctl; !ctl.Watching? && !ctl.Idle? && !ctl.TopOfLoop? && !ctl.Sleeping?
    ensures s.jobs[j].ctl.Watching? ==> Dealt(s', j, s.jobs[j].ctl.k)
  {
    var t, leave := Fire(concurrent, s, Receive(j)), !s.jobs[j].inbox[0].Stop?;
    ReachableInv(concurrent, EMPTY, before, s);
    EventKeepsInv(concurrent, s, Receive(j));
    EndIsReceived(concurrent, s, j);
    CeasingAlong(concurrent, t, after, s', j, |s.runners|, t.jobs[j].state, leave);
    if s.jobs[j].ctl.Watching? {
      DealtAlong(concurrent, t, after, s', j, s.jobs[j].ctl.k);
    }
  }

  // ---------------------------------------------------------------- starts of a running job

  /** A start of a job that runs leaves the run alone; a forced one leaves a permit. */
  lemma StartWhileRunning(concurrent: nat, s: System, j: nat)
    requires Inv(concurrent, s) && Enabled(concurrent, s, Receive(j)) && s.jobs[j].ctl.Watching?
    requires s.jobs[j].inbox[0] in {Start, ForceStart}
    ensures var job, t := s.jobs[j], Fire(concurrent, s, Receive(j));
            && t.runners == s.runners && t.tokens == s.tokens && |t.jobs| == |s.jobs|
            && t.jobs[j].ctl == job.ctl && t.jobs[j].state.Ready? && t.jobs[j].inbox == []
            && (t.jobs[j].bypass <==> job.bypass || job.inbox[0].ForceStart?)
  {
    assert JobOk(s, j);
  }

  /** Nobody takes the permit of job `j`: no runner of it goes round the limit, and `Run`
      does not begin anew, with a new channel. */
  ghost predicate PermitUntaken(concurrent: nat, s: System, trace: seq<Event>, j: nat)
    decreases |trace|
  {
    trace != [] && Enabled(concurrent, s, trace[0]) ==>
      && !(trace[0].TakeBypass? && s.runners[trace[0].k].job == j) && trace[0] != StartRun(j)
      && PermitUntaken(concurrent, Fire(concurrent, s, trace[0]), trace[1..], j)
  }

  lemma {:induction false} PermitStays(concurrent: nat, s: System, trace: seq<Event>, s': System, j: nat)
    requires Inv(concurrent, s) && Reaches(concurrent, s, trace, s') && j < |s.jobs| && s.jobs[j].bypass
    requires PermitUntaken(concurrent, s, trace, j)
    ensures j < |s'.jobs| && s'.jobs[j].bypass
    decreases |trace|
  {
    if trace != [] {
      EventKeepsInv(concurrent, s, trace[0]);
      PermitKept(concurrent, s, trace[0], j);
      PermitStays(concurrent, Fire(concurrent, s, trace[0]), trace[1..], s', j);
    }
  }

  lemma PermitKept(concurrent: nat, s: System, e: Event, j: nat)
    requires Inv(concurrent, s) && Enabled(concurrent, s, e) && j < |s.jobs| && s.jobs[j].bypass
    requires !(e.TakeBypass? && s.runners[e.k].job == j) && e != StartRun(j)
    ensures j < |Fire(concurrent, s, e).jobs| && Fire(concurrent, s, e).jobs[j].bypass
  {
    assert JobOk(s, j);
  }

  /** A forced start is not lost: its permit waits until a runner of the job takes it, in
      whatever state the controller received it. */
  lemma {:induction false} ForceIsKept(
    concurrent: nat, before: seq<Event>, s: System, j: nat, after: seq<Event>, s': System)
    requires Reaches(concurrent, EMPTY, before, s) && Enabled(concurrent, s, Receive(j))
    requires s.jobs[j].inbox[0].ForceStart?
    requires Reaches(concurrent, Fire(concurrent, s, Receive(j)), after, s')
    requires PermitUntaken(concurrent, Fire(concurrent, s, Receive(j)), after, j)
    ensures j < |s'.jobs| && s'.jobs[j].bypass
    ensures forall k: nat :: k < |s'.runners| && s'.runners[k].job == j && s'.runners[k].pc.Selecting?
              ==> Enabled(concurrent, s', TakeBypass(k))
  {
    ReachableInv(concurrent, EMPTY, before, s);
    EventKeepsInv(concurrent, s, Receive(j));
    ForceIsReceived(concurrent, s, j);
    PermitStays(concurrent, Fire(concurrent, s, Receive(j)), after, s', j);
  }

  lemma ForceIsReceived(concurrent: nat, s: System, j: nat)
    requires Inv(concurrent, s) && Enabled(concurrent, s, Receive(j)) && s.jobs[j].inbox[0].ForceStart?
    ensures j < |Fire(concurrent, s, Receive(j)).jobs| && Fire(concurrent, s, Receive(j)).jobs[j].bypass
  {
  }

  /** A permit is good for one run, and none survives into a new `Run`. */
  lemma PermitIsUsed(concurrent: nat, s: System, e: Event)
    requires Enabled(concurrent, s, e) && (e.TakeBypass? || e.StartRun?)
    ensures var j := if e.TakeBypass? then s.runners[e.k].job else e.j;
            j < |Fire(concurrent, s, e).jobs| && !Fire(concurrent, s, e).jobs[j].bypass
  {
  }
}
