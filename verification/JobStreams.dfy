/** From the job engine to the manager: what one job sends over a whole run of the
    worker, and the times that the manager keeps when it is delivered. */
module JobStreams {
  import R = RunJob
  import M = ManagerStatus
  import opened JobEngine

  // ---------------------------------------------------------------- what a job sends

  /** The messages that event `e` puts on the worker's channel for job `j`. */
  function Emitted(concurrent: nat, s: System, e: Event, j: nat): seq<R.Message>
    requires Enabled(concurrent, s, e)
  {
    if e.Advance? && s.runners[e.k].job == j then
      var r := s.runners[e.k];
      R.Step(r.params, r.pc.local, e.c, s.jobs[j].state.Ready?, r.kills > 0).log[|r.pc.local.log|..]
    else []
  }

  /** The messages of job `j` in the order in which `trace` sends them. */
  ghost function Sent(concurrent: nat, s: System, trace: seq<Event>, j: nat): seq<R.Message>
    decreases |trace|
  {
    if trace == [] || !Enabled(concurrent, s, trace[0]) then []
    else Emitted(concurrent, s, trace[0], j) + Sent(concurrent, Fire(concurrent, s, trace[0]), trace[1..], j)
  }

  /** The logs of the runners of job `j`, in the order in which they were spawned. */
  function JobLog(rs: seq<Runner>, j: nat): seq<R.Message> {
    if rs == [] then []
    else if rs[|rs| - 1].job == j then JobLog(rs[..|rs| - 1], j) + rs[|rs| - 1].log
    else JobLog(rs[..|rs| - 1], j)
  }

  /** The runner a controller is attached to is the last one of its job. */
  ghost predicate Latest(s: System) {
    forall j: nat, k: nat :: j < |s.jobs| && k < |s.runners| && Attached(s.jobs[j].ctl) && s.runners[k].job == j
      ==> k <= s.jobs[j].ctl.k
  }

  lemma {:induction false} SameLogs(rs: seq<Runner>, rs': seq<Runner>, j: nat)
    requires |rs| == |rs'|
    requires forall k :: 0 <= k < |rs| ==> rs'[k].job == rs[k].job && rs'[k].log == rs[k].log
    ensures JobLog(rs', j) == JobLog(rs, j)
  {
    if rs != [] {
      SameLogs(rs[..|rs| - 1], rs'[..|rs| - 1], j);
    }
  }

  /** The last runner of a job adds to the end of the log. */
  lemma {:induction false} LastLogGrows(rs: seq<Runner>, k: nat, r: Runner, more: seq<R.Message>, j: nat)
    requires k < |rs| && r.job == rs[k].job && r.log == rs[k].log + more
    requires forall i :: k < i < |rs| ==> rs[i].job != r.job
    ensures JobLog(rs[k := r], j) == JobLog(rs, j) + (if r.job == j then more else [])
  {
    var n := |rs| - 1;
    if k < n {
      LastLogGrows(rs[..n], k, r, more, j);
      assert rs[k := r][..n] == rs[..n][k := r];
    } else {
      assert rs[k := r][..n] == rs[..n];
    }
  }

  lemma SpawnKeepsLatest(concurrent: nat, s: System, i: nat)
    requires Inv(concurrent, s) && Latest(s) && Enabled(concurrent, s, Check(i))
    ensures Latest(Fire(concurrent, s, Check(i)))
  {
  }

  /** Every other event leaves the jobs of the runners alone and attaches no controller. */
  lemma EventKeepsLatest(concurrent: nat, s: System, e: Event)
    requires Inv(concurrent, s) && Latest(s) && Enabled(concurrent, s, e)
    ensures Latest(Fire(concurrent, s, e))
  {
    if e.Check? {
      SpawnKeepsLatest(concurrent, s, e.j);
    } else {
      var s' := Fire(concurrent, s, e);
      SameRunners(concurrent, s, e);
      forall j: nat | j < |s'.jobs| && Attached(s'.jobs[j].ctl)
        ensures j < |s.jobs| && Attached(s.jobs[j].ctl) && s'.jobs[j].ctl.k == s.jobs[j].ctl.k
      {
        StaysAttached(concurrent, s, e, j);
      }
    }
  }

  lemma SameRunners(concurrent: nat, s: System, e: Event)
    requires Enabled(concurrent, s, e) && !e.Check?
    ensures var s' := Fire(concurrent, s, e);
            |s'.runners| == |s.runners| && forall k: nat :: k < |s.runners| ==> s'.runners[k].job == s.runners[k].job
  {
  }

  lemma StaysAttached(concurrent: nat, s: System, e: Event, j: nat)
    requires Inv(concurrent, s) && Enabled(concurrent, s, e) && !e.Check?
    requires j < |Fire(concurrent, s, e).jobs| && Attached(Fire(concurrent, s, e).jobs[j].ctl)
    ensures j < |s.jobs| && Attached(s.jobs[j].ctl) && Fire(concurrent, s, e).jobs[j].ctl.k == s.jobs[j].ctl.k
  {
    if j < |s.jobs| {
      assert JobOk(s, j);
    }
  }

  lemma AdvanceEmits(concurrent: nat, s: System, e: Event, j: nat)
    requires Inv(concurrent, s) && Latest(s) && Enabled(concurrent, s, e) && e.Advance?
    ensures JobLog(Fire(concurrent, s, e).runners, j) == JobLog(s.runners, j) + Emitted(concurrent, s, e, j)
  {
    var r, r' := s.runners[e.k], Fire(concurrent, s, e).runners[e.k];
    assert RunnerOk(s, e.k);
    assert Current(s, e.k);
    LastLogGrows(s.runners, e.k, r', r'.log[|r.log|..], j);
  }

  lemma EventEmits(concurrent: nat, s: System, e: Event, j: nat)
    requires Inv(concurrent, s) && Latest(s) && Enabled(concurrent, s, e)
    ensures JobLog(Fire(concurrent, s, e).runners, j) == JobLog(s.runners, j) + Emitted(concurrent, s, e, j)
  {
    var s' := Fire(concurrent, s, e);
    if e.Advance? {
      AdvanceEmits(concurrent, s, e, j);
    } else if |s'.runners| > |s.runners| {
      assert s'.runners[..|s.runners|] == s.runners;
    } else {
      SameLogs(s.runners, s'.runners, j);
    }
  }

  lemma {:induction false} LogIsSent(concurrent: nat, s: System, trace: seq<Event>, s': System, j: nat)
    requires Inv(concurrent, s) && Latest(s) && Reaches(concurrent, s, trace, s')
    ensures Latest(s') && JobLog(s'.runners, j) == JobLog(s.runners, j) + Sent(concurrent, s, trace, j)
    decreases |trace|
  {
    if trace != [] {
      var t := LogStep(concurrent, s, trace, j);
      LogIsSent(concurrent, t, trace[1..], s', j);
      R.Reassociate(JobLog(s.runners, j), Emitted(concurrent, s, trace[0], j), Sent(concurrent, t, trace[1..], j));
    }
  }

  /** The first step of a trace. */
  lemma LogStep(concurrent: nat, s: System, trace: seq<Event>, j: nat) returns (t: System)
    requires Inv(concurrent, s) && Latest(s) && trace != [] && Enabled(concurrent, s, trace[0])
    ensures t == Fire(concurrent, s, trace[0]) && Inv(concurrent, t) && Latest(t)
    ensures JobLog(t.runners, j) == JobLog(s.runners, j) + Emitted(concurrent, s, trace[0], j)
    ensures Sent(concurrent, s, trace, j) == Emitted(concurrent, s, trace[0], j) + Sent(concurrent, t, trace[1..], j)
  {
    t := Fire(concurrent, s, trace[0]);
    EventKeepsInv(concurrent, s, trace[0]);
    EventKeepsLatest(concurrent, s, trace[0]);
    EventEmits(concurrent, s, trace[0], j);
  }

  lemma {:induction false} FromEmpty(concurrent: nat, trace: seq<Event>, s: System, j: nat)
    requires Reaches(concurrent, EMPTY, trace, s)
    ensures Inv(concurrent, s) && Latest(s) && JobLog(s.runners, j) == Sent(concurrent, EMPTY, trace, j)
  {
    ReachableInv(concurrent, EMPTY, trace, s);
    LogIsSent(concurrent, EMPTY, trace, s, j);
    assert JobLog(EMPTY.runners, j) + Sent(concurrent, EMPTY, trace, j) == Sent(concurrent, EMPTY, trace, j);
  }

  /** Messages of different runs of one job never mix: what the job has sent, in any
      interleaving, is the logs of its runs one after the other, each of them a
      complete stream or that of the run still active, which is the last. */
  lemma RunsAreSentInTurn(concurrent: nat, trace: seq<Event>, s: System, j: nat)
    requires Reaches(concurrent, EMPTY, trace, s)
    ensures Sent(concurrent, EMPTY, trace, j) == JobLog(s.runners, j)
    ensures forall k: nat :: k < |s.runners| && s.runners[k].job == j && s.runners[k].log != [] ==>
              || R.Stream(s.runners[k].params, s.runners[k].log)
              || (s.runners[k].pc.Wrapping? && forall i :: k < i < |s.runners| ==> s.runners[i].job != j)
  {
    FromEmpty(concurrent, trace, s, j);
    forall k: nat | k < |s.runners| && s.runners[k].job == j && s.runners[k].log != []
      ensures || R.Stream(s.runners[k].params, s.runners[k].log)
              || (s.runners[k].pc.Wrapping? && forall i :: k < i < |s.runners| ==> s.runners[i].job != j)
    {
      assert RunnerOk(s, k);
    }
  }

  // ---------------------------------------------------------------- the next run

  /** Some step of runner `k` on the trace was a failed termination, or a final report
      that did not find the job ready. */
  ghost predicate Spoiled(concurrent: nat, s: System, trace: seq<Event>, k: nat)
    decreases |trace|
  {
    && trace != [] && Enabled(concurrent, s, trace[0])
    && (SpoilsAt(concurrent, s, trace[0], k) || Spoiled(concurrent, Fire(concurrent, s, trace[0]), trace[1..], k))
  }

  predicate SpoilsAt(concurrent: nat, s: System, e: Event, k: nat)
    requires Enabled(concurrent, s, e)
  {
    && e.Advance? && e.k == k
    && R.Spoils(s.runners[k].params, s.runners[k].pc.local.pc, e.c, s.jobs[s.runners[k].job].state.Ready?)
  }

  /** What an unkilled runner knows of its schedule. */
  ghost predicate Unkilled(s: System, k: nat, spoiled: bool) {
    if k >= |s.runners| then !spoiled
    else
      var r := s.runners[k];
      r.kills == 0 && r.params.retries >= 1 ==>
        && (r.mode.NotAdmitted? ==> !spoiled)
        && (r.pc.Wrapping? ==> R.Undecided(r.params, r.pc.local, spoiled))
        && (r.dones == 1 && !r.mode.NotAdmitted? ==> (R.EndsScheduled(r.log) <==> !spoiled))
  }

  lemma AdvanceKeepsUnkilled(concurrent: nat, s: System, e: Event, k: nat, spoiled: bool)
    requires Inv(concurrent, s) && Enabled(concurrent, s, e) && Unkilled(s, k, spoiled) && e.Advance? && e.k == k
    ensures Unkilled(Fire(concurrent, s, e), k, spoiled || SpoilsAt(concurrent, s, e, k))
  {
    var r := s.runners[k];
    assert RunnerOk(s, k);
    if r.kills == 0 && r.params.retries >= 1 {
      R.StepKeepsUndecided(r.params, r.pc.local, e.c, s.jobs[r.job].state.Ready?, spoiled);
    }
  }

  lemma EventKeepsUnkilled(concurrent: nat, s: System, e: Event, k: nat, spoiled: bool)
    requires Inv(concurrent, s) && Enabled(concurrent, s, e) && Unkilled(s, k, spoiled)
    ensures Unkilled(Fire(concurrent, s, e), k, spoiled || SpoilsAt(concurrent, s, e, k))
  {
    if e.Advance? && e.k == k {
      AdvanceKeepsUnkilled(concurrent, s, e, k, spoiled);
    } else if k < |s.runners| {
      assert RunnerOk(s, k);
    }
  }

  lemma {:induction false} UnkilledAlong(
    concurrent: nat, s: System, trace: seq<Event>, s': System, k: nat, spoiled: bool)
    requires Inv(concurrent, s) && Reaches(concurrent, s, trace, s') && Unkilled(s, k, spoiled)
    ensures Unkilled(s', k, spoiled || Spoiled(concurrent, s, trace, k))
    decreases |trace|
  {
    if trace != [] {
      EventKeepsInv(concurrent, s, trace[0]);
      EventKeepsUnkilled(concurrent, s, trace[0], k, spoiled);
      UnkilledAlong(concurrent, Fire(concurrent, s, trace[0]), trace[1..], s', k,
        spoiled || SpoilsAt(concurrent, s, trace[0], k));
    }
  }

  /** In every interleaving, a run that was admitted, was never killed and has signalled
      ends with a message that schedules the next run if and only if no termination
      failed and its final report, if it came to one, found the job ready. */
  lemma UnkilledRunsSchedule(concurrent: nat, trace: seq<Event>, s: System, k: nat)
    requires Reaches(concurrent, EMPTY, trace, s) && k < |s.runners|
    requires s.runners[k].kills == 0 && s.runners[k].dones == 1 && !s.runners[k].mode.NotAdmitted?
    requires s.runners[k].params.retries >= 1
    ensures R.EndsScheduled(s.runners[k].log) <==> !Spoiled(concurrent, EMPTY, trace, k)
  {
    UnkilledAlong(concurrent, EMPTY, trace, s, k, false);
  }

  // ---------------------------------------------------------------- providers that fail to start

  /** The messages that runner `k` sends along the trace. */
  ghost function SaidBy(concurrent: nat, s: System, trace: seq<Event>, k: nat): seq<R.Message>
    decreases |trace|
  {
    if trace == [] || !Enabled(concurrent, s, trace[0]) then []
    else SaidAt(concurrent, s, trace[0], k) + SaidBy(concurrent, Fire(concurrent, s, trace[0]), trace[1..], k)
  }

  function SaidAt(concurrent: nat, s: System, e: Event, k: nat): seq<R.Message>
    requires Enabled(concurrent, s, e)
  {
    if e.Advance? && e.k == k then Emitted(concurrent, s, e, s.runners[k].job) else []
  }

  /** The runner's provider failed to start, and it has not begun another sync since. */
  predicate Unstarted(s: System, k: nat) {
    k < |s.runners| && (s.runners[k].pc.Wrapping? ==> NoSuccessAhead(s.runners[k].pc.local.pc))
    && !s.runners[k].pc.Selecting?
  }

  predicate NoSuccessAhead(pc: R.Pc) {
    match pc
    case Announce => false
    case Hooks(phase, _, _, res) => phase.PreExec? || (!phase.PreJob? && !res.SyncOk?)
    case AwaitStart(_) => false
    case AwaitSync(_, startFailed) => startFailed
    case Terminating(_, res) => !res.SyncOk?
    case Report(_, res) => !res.SyncOk?
    case _ => true
  }

  lemma StepWithoutSync(p: R.Params, l: R.Local, c: R.Choice, ready: bool, killed: bool)
    requires R.CanStep(p, l.pc, c, killed) && NoSuccessAhead(l.pc)
    ensures var l' := R.Step(p, l, c, ready, killed);
            && (l'.log == l.log || exists m: R.Message :: !m.status.Success? && l'.log == l.log + [m])
            && (NoSuccessAhead(l'.pc) || l'.log == l.log + [R.SYNCING])
  {
    var l' := R.Step(p, l, c, ready, killed);
    if l'.log != l.log {
      var m := l'.log[|l.log|];
      assert l'.log == l.log + [m];
    }
  }

  lemma UnstartedStays(concurrent: nat, s: System, e: Event, k: nat)
    requires Inv(concurrent, s) && Enabled(concurrent, s, e) && Unstarted(s, k)
    requires R.SYNCING !in SaidAt(concurrent, s, e, k)
    ensures Unstarted(Fire(concurrent, s, e), k)
    ensures forall m :: m in SaidAt(concurrent, s, e, k) ==> !m.status.Success?
  {
    var r := s.runners[k];
    if e.Advance? && e.k == k {
      StepWithoutSync(r.params, r.pc.local, e.c, s.jobs[r.job].state.Ready?, r.kills > 0);
    }
  }

  lemma {:induction false} UnstartedAlong(concurrent: nat, s: System, trace: seq<Event>, s': System, k: nat)
    requires Inv(concurrent, s) && Reaches(concurrent, s, trace, s') && Unstarted(s, k)
    requires R.SYNCING !in SaidBy(concurrent, s, trace, k)
    ensures forall m :: m in SaidBy(concurrent, s, trace, k) ==> !m.status.Success?
    decreases |trace|
  {
    if trace != [] {
      var t := Fire(concurrent, s, trace[0]);
      var now, later := SaidAt(concurrent, s, trace[0], k), SaidBy(concurrent, t, trace[1..], k);
      assert SaidBy(concurrent, s, trace, k) == now + later;
      assert forall m :: m in now || m in later ==> m in now + later;
      EventKeepsInv(concurrent, s, trace[0]);
      UnstartedStays(concurrent, s, trace[0], k);
      UnstartedAlong(concurrent, t, trace[1..], s', k);
    }
  }

  /** In every interleaving: a runner whose provider failed to start sends no Success
      before it has begun another sync. */
  lemma FailedStartIsNoSuccess(
    concurrent: nat, before: seq<Event>, s: System, k: nat, after: seq<Event>, s': System)
    requires Reaches(concurrent, EMPTY, before, s) && Enabled(concurrent, s, Advance(k, R.StartFails))
    requires Reaches(concurrent, Fire(concurrent, s, Advance(k, R.StartFails)), after, s')
    requires R.SYNCING !in SaidBy(concurrent, Fire(concurrent, s, Advance(k, R.StartFails)), after, k)
    ensures forall m :: m in SaidBy(concurrent, Fire(concurrent, s, Advance(k, R.StartFails)), after, k)
              ==> !m.status.Success?
  {
    ReachableInv(concurrent, EMPTY, before, s);
    EventKeepsInv(concurrent, s, Advance(k, R.StartFails));
    UnstartedAlong(concurrent, Fire(concurrent, s, Advance(k, R.StartFails)), after, s', k);
  }

  // ---------------------------------------------------------------- announcements

  predicate Announcement(log: seq<R.Message>, i: int) {
    0 <= i < |log| && log[i].status.PreSyncing?
  }

  ghost predicate Apart(log: seq<R.Message>) {
    forall i, k :: Announcement(log, i) && Announcement(log, k) ==> k != i + 1
  }

  /** A log that is announced by its first message only follows one that does not end
      in an announcement. */
  lemma ApartJoins(front: seq<R.Message>, tail: seq<R.Message>)
    requires Apart(front) && !Announcement(front, |front| - 1)
    requires forall i :: 0 < i < |tail| ==> !Announcement(tail, i)
    ensures Apart(front + tail)
    ensures |tail| != 1 ==> !Announcement(front + tail, |front + tail| - 1)
  {
    var log := front + tail;
    assert forall i :: 0 <= i < |front| ==> Announcement(log, i) == Announcement(front, i);
    assert forall i :: |front| <= i < |log| ==> Announcement(log, i) == Announcement(tail, i - |front|);
    if |tail| == 0 {
      assert log == front;
    }
  }

  /** Every log is announced by its first message only, and a finished one has more. */
  lemma RunnerAnnouncesOnce(s: System, k: nat)
    requires k < |s.runners| && RunnerOk(s, k) && s.runners[k].params.retries >= 1
    ensures var r := s.runners[k];
            && (forall i :: 0 < i < |r.log| ==> !Announcement(r.log, i))
            && (r.dones == 1 && r.log != [] ==> |r.log| >= 2)
  {
    var r := s.runners[k];
    if r.dones == 1 && r.log != [] {
      R.StreamFacts(r.params, r.log);
    } else if r.pc.Wrapping? {
      if r.pc.local.pc.Returned? {
        R.StreamFacts(r.params, r.log);
      }
    }
  }

  /** No two announcements of a job follow each other. */
  lemma {:induction false} AnnouncementsApart(concurrent: nat, s: System, m: nat, j: nat)
    requires Inv(concurrent, s) && Latest(s) && m <= |s.runners|
    requires forall k: nat :: k < |s.runners| ==> s.runners[k].params.retries >= 1
    ensures var log := JobLog(s.runners[..m], j);
            && Apart(log)
            && ((forall k: nat :: k < m && s.runners[k].job == j ==> s.runners[k].dones == 1) ==>
                  !Announcement(log, |log| - 1))
  {
    if m > 0 {
      var rs, r := s.runners[..m], s.runners[m - 1];
      assert rs[..m - 1] == s.runners[..m - 1];
      var front := JobLog(rs[..m - 1], j);
      AnnouncementsApart(concurrent, s, m - 1, j);
      if r.job == j {
        assert RunnerOk(s, m - 1);
        RunnerAnnouncesOnce(s, m - 1);
        forall k: nat | k < m - 1 && s.runners[k].job == j
          ensures s.runners[k].dones == 1
        {
          assert RunnerOk(s, k);
        }
        ApartJoins(front, r.log);
      }
    }
  }

  lemma {:induction false} SentApart(concurrent: nat, trace: seq<Event>, s: System, j: nat)
    requires Reaches(concurrent, EMPTY, trace, s)
    requires forall k: nat :: k < |s.runners| ==> s.runners[k].params.retries >= 1
    ensures Apart(Sent(concurrent, EMPTY, trace, j))
  {
    FromEmpty(concurrent, trace, s, j);
    AnnouncementsApart(concurrent, s, |s.runners|, j);
    assert s.runners[..|s.runners|] == s.runners;
  }

  /** The messages of a log, delivered in order. */
  ghost predicate Delivers(ds: seq<M.Delivery>, log: seq<R.Message>) {
    |ds| == |log| && forall i :: 0 <= i < |ds| ==> ds[i].status == log[i].status
  }

  lemma {:induction false} RecordFollowsLog(log: seq<R.Message>, r: M.MirrorStatus, ds: seq<M.Delivery>)
    requires Apart(log) && Delivers(ds, log)
    requires !r.status.PreSyncing?
    ensures M.LatestOf(ds, {R.PreSyncing}, r.lastStarted, M.Feed(r, ds).lastStarted)
  {
    forall i | 0 < i < |ds| && ds[i].status.PreSyncing?
      ensures !ds[i - 1].status.PreSyncing?
    {
      assert Announcement(log, i) && (Announcement(log, i - 1) || !log[i - 1].status.PreSyncing?);
    }
    M.FeedStarted(r, ds);
  }

  /** From any interleaving of the worker to the manager's record: deliver what a job
      has sent, in order. Then `lastStarted` is the time of the latest announcement,
      `lastUpdate` that of the latest success and `lastEnded` that of the latest
      success or failure, also in the middle of a run. */
  lemma {:induction false} RecordFollowsJob(
    concurrent: nat, trace: seq<Event>, s: System, j: nat, r: M.MirrorStatus, ds: seq<M.Delivery>)
    requires Reaches(concurrent, EMPTY, trace, s)
    requires forall k: nat :: k < |s.runners| ==> s.runners[k].params.retries >= 1
    requires !r.status.PreSyncing?
    requires Delivers(ds, Sent(concurrent, EMPTY, trace, j))
    ensures var f := M.Feed(r, ds);
            && M.LatestOf(ds, {R.PreSyncing}, r.lastStarted, f.lastStarted)
            && M.LatestOf(ds, {R.Success}, r.lastUpdate, f.lastUpdate)
            && M.LatestOf(ds, {R.Success, R.Failed}, r.lastEnded, f.lastEnded)
  {
    SentApart(concurrent, trace, s, j);
    RecordFollowsLog(Sent(concurrent, EMPTY, trace, j), r, ds);
    M.FeedTimes(r, ds);
  }
}
