/** Hot reload of worker/worker.go: `ReloadMirrorConfig` replays the difference of two
    configurations on the live jobs and on the schedule. */
module Reload {
  import opened Bytes
  import opened MirrorConf
  import opened ConfigDiff
  import opened JobStates
  import opened Options
  import S = Schedule
  import R = RunJob
  import E = JobEngine
  import L = JobLiveness

  /** A job as the worker sees it; `running` says that its `Run` is active. */
  datatype JobView = JobView(config: MirrorConfig, state: JobState, running: bool)

  // ---------------------------------------------------------------- the worker as a value

  datatype World = World(view: map<Bytes, JobView>, queue: S.Queue)

  /** The job after its provider was replaced, by the state it was in before. */
  function Replaced(config: MirrorConfig, before: JobState): JobView {
    match before
    case Disabled => JobView(config, Disabled, false)
    case Paused => JobView(config, Paused, true)
    case _ => JobView(config, StateNone, true)
  }

  /** The job after a disable was sent and `Run` has returned; a disabled job is left alone. */
  function AfterDisable(v: JobView): JobView {
    if v.state.Disabled? then v else JobView(v.config, Disabled, false)
  }

  /** A job of the engine, as the worker sees it. */
  function Seen(config: MirrorConfig, job: E.Job): JobView {
    JobView(config, job.state, !job.ctl.Off?)
  }

  /** In the engine: from any reachable state in which the worker sends disable to a job
      that is not yet on its way out, through any events up to the first return of `Run`,
      the job is left as `AfterDisable` says. */
  lemma {:induction false} DisableMatchesEngine(
    concurrent: nat, before: seq<E.Event>, s: E.System, j: nat, after: seq<E.Event>, u: E.System, e: E.Event,
    config: MirrorConfig)
    requires E.Reaches(concurrent, E.EMPTY, before, s) && E.Enabled(concurrent, s, E.Send(j, E.Disable))
    requires !s.jobs[j].ctl.Off? && !L.Exiting(s.jobs[j]) && !s.jobs[j].state.Disabled?
    requires var t := E.Fire(concurrent, s, E.Send(j, E.Disable));
             E.Reaches(concurrent, t, after, u) && !L.ReturnsAlong(concurrent, t, after, j)
    requires E.Enabled(concurrent, u, e) && L.HasReturned(E.Fire(concurrent, u, e), j)
    ensures Seen(config, E.Fire(concurrent, u, e).jobs[j]) == AfterDisable(Seen(config, s.jobs[j]))
  {
    L.SentDisableEndsDisabled(concurrent, before, s, j, after, u);
    L.EventKeepsDisabling(concurrent, u, e, j);
  }

  /** One operation of the first loop; `now` is its reading of the clock. */
  function Step1(w: World, t: Trans, now: int): World {
    var name := t.mirCfg.name;
    if t.diffOp.DiffAdd? || name !in w.view then w
    else if t.diffOp.DiffDelete? then World(w.view - {name}, S.Removed(w.queue, name))
    else
      var state, q := w.view[name].state, S.Removed(w.queue, name);
      World(w.view[name := Replaced(t.mirCfg, state)],
            if state.Disabled? || state.Paused? then q else S.Added(q, now, name))
  }

  /** One operation of the second loop. */
  function Step2(w: World, t: Trans, now: int): World {
    var name := t.mirCfg.name;
    if !t.diffOp.DiffAdd? then w
    else World(w.view[name := JobView(t.mirCfg, StateNone, true)], S.Added(w.queue, now, name))
  }

  /** The loops; `clock(i)` is the `i`-th reading of the clock. */
  function Loop1(w: World, ops: seq<Trans>, clock: nat -> int, k: nat): World
    decreases |ops|
  {
    if ops == [] then w else Loop1(Step1(w, ops[0], clock(k)), ops[1..], clock, k + 1)
  }

  function Loop2(w: World, ops: seq<Trans>, clock: nat -> int, k: nat): World
    decreases |ops|
  {
    if ops == [] then w else Loop2(Step2(w, ops[0], clock(k)), ops[1..], clock, k + 1)
  }

  function Reloaded(w: World, ops: seq<Trans>, clock: nat -> int): World {
    Loop2(Loop1(w, ops, clock, 0), ops, clock, |ops|)
  }

  // ---------------------------------------------------------------- start-up

  /** What the manager has stored for a mirror; `next` is its last update plus its interval. */
  datatype Report = Report(name: Bytes, status: R.SyncStatus, next: int)

  /** No known mirror is reported twice; what is reported under other names does not matter. */
  ghost predicate UniqueReports(known: set<Bytes>, reports: seq<Report>) {
    forall i, j :: 0 <= i < j < |reports| && reports[i].name == reports[j].name ==> reports[i].name !in known
  }

  function ReportedNames(reports: seq<Report>): set<Bytes> {
    set r | r in reports :: r.name
  }

  lemma NextReport(known: set<Bytes>, reports: seq<Report>, i: nat)
    requires UniqueReports(known, reports) && i < |reports|
    ensures reports[i].name in known ==> reports[i].name !in ReportedNames(reports[..i])
    ensures ReportedNames(reports[..i + 1]) == ReportedNames(reports[..i]) + {reports[i].name}
  {
    assert reports[..i + 1] == reports[..i] + [reports[i]];
  }

  /** The state in which a mirror starts. */
  function StateFor(reports: seq<Report>, name: Bytes): JobState {
    if reports == [] then StateNone
    else if reports[0].name == name then StateOf(reports[0].status)
    else StateFor(reports[1..], name)
  }

  function StateOf(status: R.SyncStatus): JobState {
    if status.Disabled? then Disabled else if status.Paused? then Paused else StateNone
  }

  function Launched(config: MirrorConfig, state: JobState): JobView {
    JobView(config, state, !state.Disabled?)
  }

  function Initial(mirrors: seq<MirrorConfig>): map<Bytes, JobView>
  {
    if mirrors == [] then map[]
    else
      var last := mirrors[|mirrors| - 1];
      Initial(mirrors[..|mirrors| - 1])[last.name := JobView(last, StateNone, false)]
  }

  lemma InitialNext(mirrors: seq<MirrorConfig>, i: nat)
    requires i < |mirrors|
    ensures Initial(mirrors[..i + 1]) == Initial(mirrors[..i])[mirrors[i].name := JobView(mirrors[i], StateNone, false)]
  {
    assert mirrors[..i + 1][..i] == mirrors[..i];
  }

  /** The job table after start-up. */
  function Started(view: map<Bytes, JobView>, reports: seq<Report>): map<Bytes, JobView> {
    map n | n in view :: Launched(view[n].config, StateFor(reports, n))
  }

  /** What the reports schedule: every known mirror that is neither disabled nor paused. */
  function Scheduled(known: set<Bytes>, reports: seq<Report>): seq<S.Entry> {
    if reports == [] then []
    else
      var r := reports[|reports| - 1];
      Scheduled(known, reports[..|reports| - 1])
      + (if r.name in known && StateOf(r.status).StateNone? then [S.Entry(r.next, r.name)] else [])
  }

  /** The mirrors without a report, in the order in which they are started. */
  function Unreported(order: seq<Bytes>, clock: nat -> int): (es: seq<S.Entry>)
    ensures |es| == |order| && forall i :: 0 <= i < |es| ==> es[i] == S.Entry(clock(i), order[i])
  {
    seq(|order|, i requires 0 <= i < |order| => S.Entry(clock(i), order[i]))
  }

  /** `order` lists each of the names once. */
  ghost predicate IsOrderOf(order: seq<Bytes>, names: set<Bytes>) {
    && (forall n :: n in order <==> n in names)
    && (forall i, j :: 0 <= i < j < |order| ==> order[i] != order[j])
  }

  lemma OrderNext(order: seq<Bytes>, names: set<Bytes>, unset: set<Bytes>, name: Bytes)
    requires IsOrderOf(order, names - unset) && name in unset && unset <= names
    ensures IsOrderOf(order + [name], names - (unset - {name}))
  {
  }

  lemma ScheduledNext(known: set<Bytes>, reports: seq<Report>, i: nat, q: S.Queue)
    requires i < |reports|
    ensures var r, now := reports[i], S.AddAll(q, Scheduled(known, reports[..i]));
            S.AddAll(q, Scheduled(known, reports[..i + 1]))
            == if r.name in known && StateOf(r.status).StateNone? then S.Added(now, r.next, r.name) else now
  {
    var r := reports[i];
    assert reports[..i + 1][..i] == reports[..i];
    S.AddAllNext(q, Scheduled(known, reports[..i]), S.Entry(r.next, r.name));
    assert Scheduled(known, reports[..i]) + [] == Scheduled(known, reports[..i]);
  }

  lemma UnreportedNext(order: seq<Bytes>, name: Bytes, clock: nat -> int, q: S.Queue)
    ensures S.AddAll(q, Unreported(order + [name], clock))
         == S.Added(S.AddAll(q, Unreported(order, clock)), clock(|order|), name)
  {
    S.AddAllNext(q, Unreported(order, clock), S.Entry(clock(|order|), name));
    assert Unreported(order + [name], clock) == Unreported(order, clock) + [S.Entry(clock(|order|), name)];
  }

  /** The table when the jobs in `unset` have not been started yet. */
  ghost function Partly(start: map<Bytes, JobView>, goal: map<Bytes, JobView>, unset: set<Bytes>): map<Bytes, JobView>
    requires start.Keys == goal.Keys
  {
    map n | n in start :: if n in unset then start[n] else goal[n]
  }

  lemma PartlyNext(start: map<Bytes, JobView>, goal: map<Bytes, JobView>, unset: set<Bytes>, x: Bytes)
    requires start.Keys == goal.Keys && x in start
    ensures Partly(start, goal, unset - {x}) == Partly(start, goal, unset)[x := goal[x]]
  {
  }

  lemma PartlyAll(start: map<Bytes, JobView>, goal: map<Bytes, JobView>)
    requires start.Keys == goal.Keys
    ensures Partly(start, goal, start.Keys) == start && Partly(start, goal, {}) == goal
  {
  }

  lemma {:induction false} StateForReport(known: set<Bytes>, reports: seq<Report>, i: nat)
    requires UniqueReports(known, reports) && i < |reports| && reports[i].name in known
    ensures StateFor(reports, reports[i].name) == StateOf(reports[i].status)
  {
    if i > 0 {
      StateForReport(known, reports[1..], i - 1);
    }
  }

  lemma {:induction false} StateForNone(reports: seq<Report>, name: Bytes)
    requires name !in ReportedNames(reports)
    ensures StateFor(reports, name) == StateNone
  {
    if reports != [] {
      assert reports[0].name in ReportedNames(reports);
      StateForNone(reports[1..], name);
    }
  }

  // ---------------------------------------------------------------- the worker as an object

  class MirrorJob {
    var config: MirrorConfig
    var state: JobState
    var running: bool

    constructor (config: MirrorConfig)
      ensures this.config == config && state == StateNone && !running
    {
      this.config, state, running := config, StateNone, false;
    }

    /** Switches the provider, unless the job may be using it. */
    method SetProvider(config: MirrorConfig) returns (ok: bool)
      modifies this`config
      ensures ok <==> state.StateNone? || state.Disabled?
      ensures this.config == if ok then config else old(this.config)
    {
      if !state.StateNone? && !state.Disabled? {
        return false;
      }
      this.config := config;
      return true;
    }
  }

  class Worker {
    var jobs: map<Bytes, MirrorJob>
    const schedule: S.ScheduleQueue
    var mirrors: seq<MirrorConfig>

    /** Each job is entered under its own name; so no two entries share a job. */
    ghost predicate Valid()
      reads this`jobs, jobs.Values
    {
      forall n :: n in jobs ==> jobs[n].config.name == n
    }

    ghost function View(): map<Bytes, JobView>
      reads this`jobs, jobs.Values
    {
      map n | n in jobs :: JobView(jobs[n].config, jobs[n].state, jobs[n].running)
    }

    ghost function Now(): World
      reads this`jobs, jobs.Values, schedule
    {
      World(View(), schedule.State())
    }

    constructor (mirrors: seq<MirrorConfig>)
      ensures Valid() && fresh(schedule) && schedule.State() == S.EMPTY
      ensures this.mirrors == mirrors && jobs == map[]
    {
      jobs, this.mirrors := map[], mirrors;
      schedule := new S.ScheduleQueue();
    }

    method EnterJob(config: MirrorConfig)
      requires Valid()
      modifies this`jobs
      ensures Valid() && jobs.Keys == old(jobs).Keys + {config.name} && fresh(jobs[config.name])
      ensures forall n :: n in jobs && n != config.name ==> jobs[n] == old(jobs)[n]
      ensures View() == old(View())[config.name := JobView(config, StateNone, false)]
    {
      var job := new MirrorJob(config);
      jobs := jobs[config.name := job];
    }

    /** One job per configured mirror; none is running yet. */
    method InitJobs()
      requires Valid() && jobs == map[]
      modifies this`jobs
      ensures Valid() && forall n :: n in jobs ==> fresh(jobs[n])
      ensures View() == Initial(mirrors)
    {
      var i := 0;
      assert Initial(mirrors[..0]) == map[];
      while i < |mirrors|
        invariant 0 <= i <= |mirrors| && Valid()
        invariant forall n :: n in jobs ==> fresh(jobs[n])
        invariant View() == Initial(mirrors[..i])
      {
        InitialNext(mirrors, i);
        EnterJob(mirrors[i]);
        i := i + 1;
      }
      assert mirrors[..i] == mirrors;
    }

    method Launch(name: Bytes, state: JobState)
      requires Valid() && name in jobs && !View()[name].running
      modifies jobs[name]
      ensures Valid() && View() == old(View())[name := Launched(old(View())[name].config, state)]
    {
      jobs[name].state := state;
      if !state.Disabled? {
        jobs[name].running := true;
      }
    }

    /** Starts one job in the state the manager reports. */
    method StartOne(name: Bytes, status: R.SyncStatus, next: int)
      requires Valid() && name in jobs && !View()[name].running
      modifies jobs[name], schedule
      ensures Valid()
      ensures View() == old(View())[name := Launched(old(View())[name].config, StateOf(status))]
      ensures schedule.State()
           == if StateOf(status).StateNone? then S.Added(old(schedule.State()), next, name) else old(schedule.State())
    {
      Launch(name, StateOf(status));
      if !status.Disabled? && !status.Paused? {
        schedule.AddJob(next, name);
      }
    }

    /** The start-up part of `runSchedule`: every job takes up the status that the manager
        has stored for it, and a job the manager does not know starts at once. `clock(i)`
        is the reading of the clock at the `i`-th of these, and `order` the order in
        which the map of unknown names is walked. */
    method StartUp(reports: seq<Report>, clock: nat -> int) returns (ghost order: seq<Bytes>)
      requires Valid() && S.Valid(schedule.State()) && UniqueReports(jobs.Keys, reports)
      requires forall n :: n in View() ==> !View()[n].running
      modifies jobs.Values, schedule
      ensures Valid() && S.Valid(schedule.State())
      ensures View() == Started(old(View()), reports)
      ensures IsOrderOf(order, jobs.Keys - ReportedNames(reports))
      ensures schedule.State()
           == S.AddAll(S.AddAll(old(schedule.State()), Scheduled(jobs.Keys, reports)), Unreported(order, clock))
    {
      ghost var q := schedule.State();
      var unset := StartReported(reports);
      order := StartUnset(reports, unset, clock, old(View()));
      S.AddAllValid(q, Scheduled(jobs.Keys, reports));
      S.AddAllValid(S.AddAll(q, Scheduled(jobs.Keys, reports)), Unreported(order, clock));
    }

    /** The body of the loop over the reports. */
    method StartReport(
      reports: seq<Report>, i: nat, unset: set<Bytes>, ghost start: map<Bytes, JobView>, ghost q: S.Queue)
      returns (unset': set<Bytes>)
      requires Valid() && UniqueReports(jobs.Keys, reports) && i < |reports|
      requires start.Keys == jobs.Keys && forall n :: n in start ==> !start[n].running
      requires unset == start.Keys - ReportedNames(reports[..i])
      requires View() == Partly(start, Started(start, reports), unset)
      requires schedule.State() == S.AddAll(q, Scheduled(start.Keys, reports[..i]))
      modifies jobs.Values, schedule
      ensures Valid() && unset' == start.Keys - ReportedNames(reports[..i + 1])
      ensures View() == Partly(start, Started(start, reports), unset')
      ensures schedule.State() == S.AddAll(q, Scheduled(start.Keys, reports[..i + 1]))
    {
      var m := reports[i];
      ScheduledNext(start.Keys, reports, i, q);
      unset' := unset;
      NextReport(jobs.Keys, reports, i);
      if m.name in jobs {
        StateForReport(jobs.Keys, reports, i);
        StartOne(m.name, m.status, m.next);
        PartlyNext(start, Started(start, reports), unset, m.name);
        unset' := unset - {m.name};
      }
    }

    /** The jobs the manager knows; the names of the others are left. */
    method StartReported(reports: seq<Report>) returns (unset: set<Bytes>)
      requires Valid() && UniqueReports(jobs.Keys, reports)
      requires forall n :: n in View() ==> !View()[n].running
      modifies jobs.Values, schedule
      ensures Valid() && unset == jobs.Keys - ReportedNames(reports)
      ensures View() == Partly(old(View()), Started(old(View()), reports), unset)
      ensures schedule.State() == S.AddAll(old(schedule.State()), Scheduled(jobs.Keys, reports))
    {
      unset := jobs.Keys;
      ghost var start, q := View(), schedule.State();
      PartlyAll(start, Started(start, reports));
      var i := 0;
      while i < |reports|
        invariant 0 <= i <= |reports| && Valid()
        invariant unset == start.Keys - ReportedNames(reports[..i])
        invariant View() == Partly(start, Started(start, reports), unset)
        invariant schedule.State() == S.AddAll(q, Scheduled(start.Keys, reports[..i]))
      {
        unset := StartReport(reports, i, unset, start, q);
        i := i + 1;
      }
      assert reports[..i] == reports;
    }

    /** The body of the loop over the names without a report. */
    method StartUnreported(
      reports: seq<Report>, unset: set<Bytes>, name: Bytes, now: int, ghost start: map<Bytes, JobView>)
      requires Valid() && unset <= jobs.Keys && name in unset && unset !! ReportedNames(reports)
      requires start.Keys == jobs.Keys && forall n :: n in start ==> !start[n].running
      requires View() == Partly(start, Started(start, reports), unset)
      modifies jobs.Values, schedule
      ensures Valid() && View() == Partly(start, Started(start, reports), unset - {name})
      ensures schedule.State() == S.Added(old(schedule.State()), now, name)
    {
      StateForNone(reports, name);
      StartOne(name, R.None, now);
      PartlyNext(start, Started(start, reports), unset, name);
    }

    /** The jobs the manager does not know. */
    method StartUnset(reports: seq<Report>, names: set<Bytes>, clock: nat -> int, ghost start: map<Bytes, JobView>)
      returns (ghost order: seq<Bytes>)
      requires Valid() && names <= jobs.Keys && names !! ReportedNames(reports)
      requires start.Keys == jobs.Keys && forall n :: n in start ==> !start[n].running
      requires View() == Partly(start, Started(start, reports), names)
      modifies jobs.Values, schedule
      ensures Valid() && View() == Started(start, reports)
      ensures IsOrderOf(order, names)
      ensures schedule.State() == S.AddAll(old(schedule.State()), Unreported(order, clock))
    {
      var unset := names;
      order := [];
      var i := 0;
      ghost var q := schedule.State();
      while unset != {}
        invariant unset <= names && Valid() && i == |order|
        invariant View() == Partly(start, Started(start, reports), unset)
        invariant IsOrderOf(order, names - unset)
        invariant schedule.State() == S.AddAll(q, Unreported(order, clock))
        decreases unset
      {
        var name :| name in unset;
        UnreportedNext(order, name, clock, q);
        StartUnreported(reports, unset, name, clock(i), start);
        OrderNext(order, names, unset, name);
        unset := unset - {name};
        order := order + [name];
        i := i + 1;
      }
      assert names - {} == names;
      PartlyAll(start, Started(start, reports));
    }

    /** `Run` is active for exactly the jobs that are not disabled. */
    ghost predicate Alive()
      reads this`jobs, jobs.Values
    {
      forall n :: n in jobs ==> (jobs[n].running <==> !jobs[n].state.Disabled?)
    }

    /** Sends disable and waits for `Run` to return. The two assignments stand for what the
        controller does meanwhile, which `DisableMatchesEngine` derives. */
    method DisableJob(job: MirrorJob)
      requires !job.state.Disabled? ==> job.running
      modifies job`state, job`running, schedule
      ensures job.state == Disabled
      ensures JobView(job.config, job.state, job.running)
           == AfterDisable(old(JobView(job.config, job.state, job.running)))
      ensures schedule.State() == S.Removed(old(schedule.State()), job.config.name)
    {
      var found := schedule.Remove(job.config.name);
      if !job.state.Disabled? {
        job.state := Disabled;
        job.running := false;
      }
    }

    /** The delete arm of the first loop. */
    method DeleteJob(config: MirrorConfig)
      requires Valid() && Alive() && config.name in jobs
      modifies this`jobs, jobs[config.name], schedule
      ensures Valid() && Alive() && jobs == old(jobs) - {config.name}
      ensures View() == old(View()) - {config.name}
      ensures schedule.State() == S.Removed(old(schedule.State()), config.name)
    {
      DisableJob(jobs[config.name]);
      jobs := jobs - {config.name};
    }

    /** Disables the job and gives it its new provider, whose error branch is never taken. */
    method ReplaceProvider(name: Bytes, config: MirrorConfig)
      requires Valid() && Alive() && name in jobs && config.name == name
      modifies jobs[name], schedule
      ensures Valid() && Alive()
      ensures jobs[name].state == Disabled && View() == old(View())[name := JobView(config, Disabled, false)]
      ensures schedule.State() == S.Removed(old(schedule.State()), name)
    {
      var job := jobs[name];
      DisableJob(job);
      var ok := job.SetProvider(config);
      assert ok;
    }

    /** Brings the job back as its previous state asks. */
    method Relaunch(name: Bytes, jobState: JobState)
      requires Valid() && Alive() && name in jobs && jobs[name].state.Disabled?
      modifies jobs[name]
      ensures Valid() && Alive()
      ensures View() == old(View())[name := Replaced(old(jobs[name].config), jobState)]
    {
      var job := jobs[name];
      if jobState.Disabled? {
        job.state := Disabled;
      } else if jobState.Paused? {
        job.state := Paused;
        job.running := true;
      } else {
        job.state := StateNone;
        job.running := true;
      }
    }

    /** The modify arm of the first loop. */
    method ModifyJob(config: MirrorConfig, now: int)
      requires Valid() && Alive() && config.name in jobs
      modifies jobs[config.name], schedule
      ensures Valid() && Alive()
      ensures View() == old(View())[config.name := Replaced(config, old(jobs[config.name].state))]
      ensures var state, v := old(jobs[config.name].state), View()[config.name];
              && (state.Disabled? ==> v == JobView(config, Disabled, false))
              && (state.Paused? ==> v == JobView(config, Paused, true))
              && (!state.Disabled? && !state.Paused? ==> v == JobView(config, StateNone, true))
      ensures schedule.State() ==
              var state, q := old(jobs[config.name].state), S.Removed(old(schedule.State()), config.name);
              if state.Disabled? || state.Paused? then q else S.Added(q, now, config.name)
    {
      var jobState := SwitchProvider(config);
      Reschedule(config.name, jobState, now);
    }

    /** Replaces the provider and brings the job back; returns its state before. */
    method SwitchProvider(config: MirrorConfig) returns (jobState: JobState)
      requires Valid() && Alive() && config.name in jobs
      modifies jobs[config.name], schedule
      ensures Valid() && Alive() && jobState == old(jobs[config.name].state)
      ensures View() == old(View())[config.name := Replaced(config, jobState)]
      ensures schedule.State() == S.Removed(old(schedule.State()), config.name)
    {
      jobState := jobs[config.name].state;
      ReplaceProvider(config.name, config);
      Relaunch(config.name, jobState);
    }

    /** Re-schedules the job as its previous state asks. */
    method Reschedule(name: Bytes, jobState: JobState, now: int)
      requires Valid() && Alive()
      modifies schedule
      ensures Valid() && Alive() && View() == old(View())
      ensures schedule.State()
           == if jobState.Disabled? || jobState.Paused? then old(schedule.State())
              else S.Added(old(schedule.State()), now, name)
    {
      if !jobState.Disabled? && !jobState.Paused? {
        schedule.AddJob(now, name);
      }
    }

    /** The body of the second loop. */
    method AddJob(config: MirrorConfig, now: int)
      requires Valid() && Alive()
      modifies this`jobs, schedule
      ensures Valid() && Alive()
      ensures View() == old(View())[config.name := JobView(config, StateNone, true)]
      ensures schedule.State() == S.Added(old(schedule.State()), now, config.name)
    {
      var job := new MirrorJob(config);
      job.running := true;
      jobs := jobs[config.name := job];
      schedule.AddJob(now, config.name);
    }

    /** The body of the first loop. */
    method DeleteOrModify(op: Trans, now: int)
      requires Valid() && Alive()
      modifies this`jobs, schedule, jobs.Values
      ensures Valid() && Alive()
      ensures forall n :: n in jobs ==> n in old(jobs) && jobs[n] == old(jobs)[n]
      ensures Now() == Step1(old(Now()), op, now)
    {
      if op.diffOp.DiffAdd? || op.mirCfg.name !in jobs {
        return;
      }
      if op.diffOp.DiffDelete? {
        DeleteJob(op.mirCfg);
      } else {
        ModifyJob(op.mirCfg, now);
      }
    }

    /** First the deletions and modifications. */
    method DeleteAndModify(difference: seq<Trans>, clock: nat -> int)
      requires Valid() && Alive()
      modifies this`jobs, schedule, jobs.Values
      ensures Valid() && Alive()
      ensures Now() == Loop1(old(Now()), difference, clock, 0)
    {
      assert difference[0..] == difference;
      var i := 0;
      while i < |difference|
        invariant 0 <= i <= |difference|
        invariant Valid() && Alive()
        invariant forall n :: n in jobs ==> n in old(jobs) && jobs[n] == old(jobs)[n]
        invariant Loop1(Now(), difference[i..], clock, i) == Loop1(old(Now()), difference, clock, 0)
      {
        assert difference[i..][0] == difference[i] && difference[i..][1..] == difference[i + 1..];
        DeleteOrModify(difference[i], clock(i));
        i := i + 1;
      }
    }

    /** Then the new jobs. */
    method AddNew(difference: seq<Trans>, clock: nat -> int)
      requires Valid() && Alive()
      modifies this`jobs, schedule
      ensures Valid() && Alive()
      ensures Now() == Loop2(old(Now()), difference, clock, |difference|)
    {
      assert difference[0..] == difference;
      var i := 0;
      while i < |difference|
        invariant 0 <= i <= |difference|
        invariant Valid() && Alive()
        invariant Loop2(Now(), difference[i..], clock, |difference| + i)
               == Loop2(old(Now()), difference, clock, |difference|)
      {
        var op := difference[i];
        assert difference[i..][0] == op && difference[i..][1..] == difference[i + 1..];
        ghost var before := Now();
        if op.diffOp.DiffAdd? {
          AddJob(op.mirCfg, clock(|difference| + i));
        }
        assert Now() == Step2(before, op, clock(|difference| + i));
        i := i + 1;
      }
    }

    /** `clock(i)` is the reading of the clock at the `i`-th operation, over both loops. */
    method ReloadMirrorConfig(newMirrors: seq<MirrorConfig>, clock: nat -> int) returns (panics: bool)
      requires Valid() && Alive()
      modifies this`jobs, this`mirrors, schedule, jobs.Values
      ensures panics <==> SentinelFails(old(mirrors), newMirrors)
      ensures panics ==> mirrors == old(mirrors) && Now() == old(Now())
      ensures !panics ==> Valid() && Alive() && mirrors == newMirrors
      ensures !panics ==> Now() == Reloaded(old(Now()), Operations(old(mirrors), newMirrors), clock)
    {
      var r := DiffMirrorConfig(mirrors, newMirrors);
      if r.SentinelPanic? {
        return true;
      }
      ghost var before := Now();
      DeleteAndModify(r.operations, clock);
      AddNew(r.operations, clock);
      ghost var after := Now();
      assert after == Reloaded(before, r.operations, clock);
      mirrors := newMirrors;
      assert Now() == after;
      return false;
    }
  }

  // ---------------------------------------------------------------- the schedule after start-up

  lemma {:induction false} ScheduledNames(known: set<Bytes>, reports: seq<Report>, n: Bytes)
    requires UniqueReports(known, reports)
    ensures S.DistinctNames(Scheduled(known, reports))
    ensures S.Mentions(Scheduled(known, reports), n)
            <==> n in known && n in ReportedNames(reports) && StateFor(reports, n).StateNone?
  {
    if reports != [] {
      var k := |reports| - 1;
      var r, front := reports[k], Scheduled(known, reports[..k]);
      ScheduledNames(known, reports[..k], n);
      ScheduledNames(known, reports[..k], r.name);
      NextReport(known, reports, k);
      assert reports[..k + 1] == reports;
      assert forall e :: e in front ==> e.name != r.name;
      if n in known && n == r.name {
        StateForReport(known, reports, k);
        if StateOf(r.status).StateNone? {
          assert S.Entry(r.next, n) in Scheduled(known, reports);
        }
      } else if n in known && n in ReportedNames(reports[..k]) {
        var i :| 0 <= i < k && reports[..k][i].name == n;
        StateForReport(known, reports, i);
        StateForReport(known, reports[..k], i);
      }
    }
  }

  /** The schedule that a start-up of the worker leaves: it lists only jobs that are
      neither disabled nor paused, each at the time its report gives, or at the reading
      of the clock at which it was found to have none; and it lists all of these if and
      only if no two of the times are equal. */
  lemma StartUpSchedules(view: map<Bytes, JobView>, reports: seq<Report>, order: seq<Bytes>, clock: nat -> int)
    requires UniqueReports(view.Keys, reports) && IsOrderOf(order, view.Keys - ReportedNames(reports))
    ensures var es := Scheduled(view.Keys, reports) + Unreported(order, clock);
            var q := S.AddAll(S.AddAll(S.EMPTY, Scheduled(view.Keys, reports)), Unreported(order, clock));
            && S.Valid(q) && (forall e :: e in q.list ==> e in es)
            && (forall e :: e in es ==> OwnTime(reports, order, clock, e))
            && (forall n :: S.Mentions(es, n) <==> n in view && Started(view, reports)[n].state.StateNone?)
            && ((forall e :: e in es ==> e in q.list) <==> S.DistinctTimes(es))
  {
    var a, b := Scheduled(view.Keys, reports), Unreported(order, clock);
    S.AddAllJoins(S.EMPTY, a, b);
    forall n: Bytes
      ensures S.Mentions(a + b, n) <==> n in view && StateFor(reports, n).StateNone?
    {
      StartEntries(view.Keys, reports, order, clock, n);
    }
    forall i | 0 <= i < |a|
      ensures a[i].name in ReportedNames(reports)
    {
      ScheduledNames(view.Keys, reports, a[i].name);
      assert a[i] in a;
    }
    forall i | 0 <= i < |b|
      ensures b[i].name !in ReportedNames(reports)
    {
      assert order[i] in order;
    }
    ScheduledNames(view.Keys, reports, []);
    UnreportedNames(order, view.Keys - ReportedNames(reports), clock, []);
    S.AddAllKeepsIff(a + b);
    OwnTimes(view.Keys, reports, order, clock);
  }

  lemma OwnTimes(known: set<Bytes>, reports: seq<Report>, order: seq<Bytes>, clock: nat -> int)
    ensures forall e :: e in Scheduled(known, reports) + Unreported(order, clock) ==> OwnTime(reports, order, clock, e)
  {
    var a, b := Scheduled(known, reports), Unreported(order, clock);
    forall e | e in a + b
      ensures OwnTime(reports, order, clock, e)
    {
      if e in a {
        ScheduledTimes(known, reports, e);
      } else {
        var i :| 0 <= i < |b| && b[i] == e;
        assert order[i] == e.name;
      }
    }
  }

  /** The entry has the time that a report gives the mirror, or the one at which it was
      found to have none. */
  ghost predicate OwnTime(reports: seq<Report>, order: seq<Bytes>, clock: nat -> int, e: S.Entry) {
    || (exists r :: r in reports && r.name == e.name && r.next == e.time && !r.status.Disabled? && !r.status.Paused?)
    || (exists i: nat :: i < |order| && order[i] == e.name && clock(i) == e.time)
  }

  lemma {:induction false} ScheduledTimes(known: set<Bytes>, reports: seq<Report>, e: S.Entry)
    requires e in Scheduled(known, reports)
    ensures exists r ::
              r in reports && r.name == e.name && r.next == e.time && !r.status.Disabled? && !r.status.Paused?
  {
    var k := |reports| - 1;
    if e in Scheduled(known, reports[..k]) {
      ScheduledTimes(known, reports[..k], e);
    } else {
      assert reports[k] in reports;
    }
  }

  lemma UnreportedNames(order: seq<Bytes>, names: set<Bytes>, clock: nat -> int, n: Bytes)
    requires IsOrderOf(order, names)
    ensures S.DistinctNames(Unreported(order, clock))
    ensures S.Mentions(Unreported(order, clock), n) <==> n in names
  {
    var es := Unreported(order, clock);
    if n in names {
      assert n in order;
      var i :| 0 <= i < |order| && order[i] == n;
      assert es[i] in es;
    }
    forall e | e in es
      ensures e.name in names
    {
      var i :| 0 <= i < |es| && es[i] == e;
      assert order[i] in order;
    }
  }

  lemma StartEntries(known: set<Bytes>, reports: seq<Report>, order: seq<Bytes>, clock: nat -> int, n: Bytes)
    requires UniqueReports(known, reports) && IsOrderOf(order, known - ReportedNames(reports))
    ensures S.Mentions(Scheduled(known, reports) + Unreported(order, clock), n)
            <==> n in known && StateFor(reports, n).StateNone?
  {
    var a, b := Scheduled(known, reports), Unreported(order, clock);
    ScheduledNames(known, reports, n);
    UnreportedNames(order, known - ReportedNames(reports), clock, n);
    S.MentionsJoin(a, b, n);
    if n !in ReportedNames(reports) {
      StateForNone(reports, n);
    }
  }

  // ---------------------------------------------------------------- what a reload does to one name

  /** What the worker holds for one name: its job and its next start. */
  datatype Slot = Slot(job: Option<JobView>, start: Option<int>)

  function StartOf(q: S.Queue, x: Bytes): Option<int> {
    match S.Find(q.list, x) case None => None case Some(e) => Some(e.time)
  }

  lemma StartIsTime(q: S.Queue, x: Bytes)
    requires S.Valid(q)
    ensures StartOf(q, x) == if x in S.Times(q) then Some(S.Times(q)[x]) else None
  {
    if x in S.Times(q) {
      S.TimesAt(q, S.Entry(S.Times(q)[x], x));
    }
  }

  function At(w: World, x: Bytes): Slot {
    Slot(if x in w.view then Some(w.view[x]) else None, StartOf(w.queue, x))
  }

  /** What the first loop does to the slot it names. */
  function Slot1(s: Slot, t: Trans, now: int): Slot {
    if t.diffOp.DiffAdd? || s.job.None? then s
    else if t.diffOp.DiffDelete? then Slot(None, None)
    else
      var state := s.job.value.state;
      Slot(Some(Replaced(t.mirCfg, state)), if state.Disabled? || state.Paused? then None else Some(now))
  }

  function Slot2(s: Slot, t: Trans, now: int): Slot {
    if t.diffOp.DiffAdd? then Slot(Some(JobView(t.mirCfg, StateNone, true)), Some(now)) else s
  }

  /** The clock does not show `time` from reading `k` on. */
  ghost predicate NotAhead(time: int, clock: nat -> int, k: nat) {
    forall i: nat :: k <= i ==> time != clock(i)
  }

  ghost predicate Ticks(clock: nat -> int) {
    forall i: nat, j: nat :: i < j ==> clock(i) < clock(j)
  }

  /** The clock increases, and from reading `k` on shows no time that is in the queue. */
  ghost predicate Fresh(q: S.Queue, clock: nat -> int, k: nat) {
    Ticks(clock) && forall e :: e in q.list ==> NotAhead(e.time, clock, k)
  }

  lemma RemoveStep(q: S.Queue, clock: nat -> int, k: nat, name: Bytes, x: Bytes)
    requires S.Valid(q) && Fresh(q, clock, k)
    ensures var q' := S.Removed(q, name);
            && S.Valid(q') && Fresh(q', clock, k) && Fresh(q', clock, k + 1)
            && StartOf(q', x) == if x == name then None else StartOf(q, x)
  {
    S.RemovedMeans(q, name);
    FreshLater(S.Removed(q, name), clock, k);
  }

  lemma FreshLater(q: S.Queue, clock: nat -> int, k: nat)
    requires Fresh(q, clock, k)
    ensures Fresh(q, clock, k + 1)
  {
    assert forall e :: e in q.list ==> NotAhead(e.time, clock, k + 1);
  }

  lemma AddStep(q: S.Queue, clock: nat -> int, k: nat, name: Bytes, x: Bytes)
    requires S.Valid(q) && Fresh(q, clock, k)
    ensures var q' := S.Added(q, clock(k), name);
            && S.Valid(q') && Fresh(q', clock, k + 1)
            && StartOf(q', x) == if x == name then Some(clock(k)) else StartOf(q, x)
  {
    S.AddedMeans(q, clock(k), name);
    FreshLater(q, clock, k);
    assert NotAhead(clock(k), clock, k + 1);
    assert S.Entry(clock(k), name) in S.Added(q, clock(k), name).list;
  }

  lemma Step1At(w: World, t: Trans, clock: nat -> int, k: nat, x: Bytes)
    requires S.Valid(w.queue) && Fresh(w.queue, clock, k)
    ensures var w' := Step1(w, t, clock(k));
            && S.Valid(w'.queue) && Fresh(w'.queue, clock, k + 1)
            && At(w', x) == if t.mirCfg.name == x then Slot1(At(w, x), t, clock(k)) else At(w, x)
  {
    var name := t.mirCfg.name;
    if t.diffOp.DiffAdd? || name !in w.view {
      FreshLater(w.queue, clock, k);
    } else {
      RemoveStep(w.queue, clock, k, name, x);
      if t.diffOp.DiffModify? && !w.view[name].state.Disabled? && !w.view[name].state.Paused? {
        AddStep(S.Removed(w.queue, name), clock, k, name, x);
      }
    }
  }

  lemma Step2At(w: World, t: Trans, clock: nat -> int, k: nat, x: Bytes)
    requires S.Valid(w.queue) && Fresh(w.queue, clock, k)
    ensures var w' := Step2(w, t, clock(k));
            && S.Valid(w'.queue) && Fresh(w'.queue, clock, k + 1)
            && At(w', x) == if t.mirCfg.name == x then Slot2(At(w, x), t, clock(k)) else At(w, x)
  {
    AddStep(w.queue, clock, k, t.mirCfg.name, x);
  }

  /** The place of the operation on `x`; names increase, so there is at most one. */
  function Index(ops: seq<Trans>, x: Bytes): (r: Option<nat>)
    ensures r.Some? ==> r.value < |ops| && ops[r.value].mirCfg.name == x
    ensures r.None? ==> forall t :: t in ops ==> t.mirCfg.name != x
  {
    if ops == [] then None
    else if ops[0].mirCfg.name == x then Some(0)
    else match Index(ops[1..], x) case None => None case Some(i) => Some(i + 1)
  }

  lemma OneIndex(ops: seq<Trans>, x: Bytes)
    requires Increasing(ops) && ops != []
    ensures Increasing(ops[1..])
    ensures ops[0].mirCfg.name == x ==> Index(ops[1..], x) == None
  {
    LessIrreflexive(x);
  }

  /** All operations on one name are the same. */
  lemma SameName(ops: seq<Trans>, t: Trans, u: Trans)
    requires Increasing(ops) && t in ops && u in ops && t.mirCfg.name == u.mirCfg.name
    ensures t == u
  {
    LessIrreflexive(t.mirCfg.name);
  }

  /** The two loops as one slot sees them. */
  function SlotLoop1(s: Slot, ops: seq<Trans>, clock: nat -> int, k: nat, x: Bytes): Slot
    decreases |ops|
  {
    if ops == [] then s
    else SlotLoop1(if ops[0].mirCfg.name == x then Slot1(s, ops[0], clock(k)) else s, ops[1..], clock, k + 1, x)
  }

  function SlotLoop2(s: Slot, ops: seq<Trans>, clock: nat -> int, k: nat, x: Bytes): Slot
    decreases |ops|
  {
    if ops == [] then s
    else SlotLoop2(if ops[0].mirCfg.name == x then Slot2(s, ops[0], clock(k)) else s, ops[1..], clock, k + 1, x)
  }

  lemma {:induction false} Loop1At(w: World, ops: seq<Trans>, clock: nat -> int, k: nat, x: Bytes)
    requires S.Valid(w.queue) && Fresh(w.queue, clock, k)
    ensures var w' := Loop1(w, ops, clock, k);
            && S.Valid(w'.queue) && Fresh(w'.queue, clock, k + |ops|)
            && At(w', x) == SlotLoop1(At(w, x), ops, clock, k, x)
    decreases |ops|
  {
    if ops != [] {
      Step1At(w, ops[0], clock, k, x);
      Loop1At(Step1(w, ops[0], clock(k)), ops[1..], clock, k + 1, x);
    }
  }

  lemma {:induction false} Loop2At(w: World, ops: seq<Trans>, clock: nat -> int, k: nat, x: Bytes)
    requires S.Valid(w.queue) && Fresh(w.queue, clock, k)
    ensures var w' := Loop2(w, ops, clock, k);
            S.Valid(w'.queue) && At(w', x) == SlotLoop2(At(w, x), ops, clock, k, x)
    decreases |ops|
  {
    if ops != [] {
      Step2At(w, ops[0], clock, k, x);
      Loop2At(Step2(w, ops[0], clock(k)), ops[1..], clock, k + 1, x);
    }
  }

  /** A slot changes only at the one operation on its name. */
  lemma {:induction false} SlotLoop1Once(s: Slot, ops: seq<Trans>, clock: nat -> int, k: nat, x: Bytes)
    requires Increasing(ops)
    ensures SlotLoop1(s, ops, clock, k, x)
         == match Index(ops, x) case None => s case Some(i) => Slot1(s, ops[i], clock(k + i))
    decreases |ops|
  {
    if ops != [] {
      OneIndex(ops, x);
      SlotLoop1Once(if ops[0].mirCfg.name == x then Slot1(s, ops[0], clock(k)) else s, ops[1..], clock, k + 1, x);
    }
  }

  lemma {:induction false} SlotLoop2Once(s: Slot, ops: seq<Trans>, clock: nat -> int, k: nat, x: Bytes)
    requires Increasing(ops)
    ensures SlotLoop2(s, ops, clock, k, x)
         == match Index(ops, x) case None => s case Some(i) => Slot2(s, ops[i], clock(k + i))
    decreases |ops|
  {
    if ops != [] {
      OneIndex(ops, x);
      SlotLoop2Once(if ops[0].mirCfg.name == x then Slot2(s, ops[0], clock(k)) else s, ops[1..], clock, k + 1, x);
    }
  }

  // ---------------------------------------------------------------- what a reload achieves

  /** The job table and the configuration agree, and `Run` is active for exactly
      the jobs that are not disabled. */
  ghost predicate Consistent(view: map<Bytes, JobView>, mirrors: seq<MirrorConfig>) {
    && (forall n :: n in view <==> HasName(mirrors, n))
    && (forall c :: c in mirrors ==> c.name in view && view[c.name].config == c)
    && (forall n :: n in view ==> (view[n].running <==> !view[n].state.Disabled?))
  }

  lemma {:induction false} InitialMeans(mirrors: seq<MirrorConfig>)
    requires UniqueNames(mirrors)
    ensures forall n :: n in Initial(mirrors) <==> HasName(mirrors, n)
    ensures forall c :: c in mirrors ==>
              c.name in Initial(mirrors) && Initial(mirrors)[c.name] == JobView(c, StateNone, false)
  {
    if mirrors != [] {
      var k := |mirrors| - 1;
      assert mirrors == mirrors[..k] + [mirrors[k]];
      InitialMeans(mirrors[..k]);
    }
  }

  /** What start-up makes of each configured job: a disabled one is disabled and does not
      run, a paused one is paused, and every other, reported or not, waits for its start. */
  lemma StartUpStates(mirrors: seq<MirrorConfig>, reports: seq<Report>, c: MirrorConfig)
    requires UniqueNames(mirrors) && UniqueReports(ReportedNames(reports), reports) && c in mirrors
    ensures c.name in Started(Initial(mirrors), reports)
    ensures var v := Started(Initial(mirrors), reports)[c.name];
            && (forall r :: r in reports && r.name == c.name ==>
                  && (r.status.Disabled? ==> v == JobView(c, Disabled, false))
                  && (r.status.Paused? ==> v == JobView(c, Paused, true))
                  && (!r.status.Disabled? && !r.status.Paused? ==> v == JobView(c, StateNone, true)))
            && (c.name !in ReportedNames(reports) ==> v == JobView(c, StateNone, true))
  {
    InitialMeans(mirrors);
    forall r | r in reports && r.name == c.name
      ensures StateFor(reports, c.name) == StateOf(r.status)
    {
      var i :| 0 <= i < |reports| && reports[i] == r;
      StateForReport(ReportedNames(reports), reports, i);
    }
    if c.name !in ReportedNames(reports) {
      StateForNone(reports, c.name);
    }
  }

  /** `initJobs` and start-up leave the worker consistent with its configuration. */
  lemma StartUpConsistent(mirrors: seq<MirrorConfig>, reports: seq<Report>)
    requires UniqueNames(mirrors)
    ensures Consistent(Started(Initial(mirrors), reports), mirrors)
  {
    InitialMeans(mirrors);
  }

  /** A name that was given up: no job, and nothing scheduled. */
  ghost predicate GivenUp(after: Slot, x: Bytes, oldMirrors: seq<MirrorConfig>, newMirrors: seq<MirrorConfig>) {
    HasName(oldMirrors, x) && !HasName(newMirrors, x) ==> after == Slot(None, None)
  }

  /** A new name: started, and scheduled for the moment it was added. The clock is read once
      at each operation of each loop. */
  ghost predicate TakenUp(
    after: Slot, x: Bytes, oldMirrors: seq<MirrorConfig>, newMirrors: seq<MirrorConfig>, clock: nat -> int)
  {
    forall n :: n in newMirrors && n.name == x && !HasName(oldMirrors, x) ==>
      var ops := Operations(oldMirrors, newMirrors);
      && Index(ops, x).Some?
      && after == Slot(Some(JobView(n, StateNone, true)), Some(clock(|ops| + Index(ops, x).value)))
  }

  /** An unchanged entry: the job and its schedule are what they were. */
  ghost predicate LeftAlone(
    before: Slot, after: Slot, x: Bytes, oldMirrors: seq<MirrorConfig>, newMirrors: seq<MirrorConfig>)
  {
    forall n :: n in newMirrors && n in oldMirrors && n.name == x ==> after == before
  }

  /** A changed entry: a disabled or paused job stays so, any other starts over the moment it was changed. */
  ghost predicate Changed(
    before: Slot, after: Slot, x: Bytes,
    oldMirrors: seq<MirrorConfig>, newMirrors: seq<MirrorConfig>, clock: nat -> int)
  {
    forall o, n :: o in oldMirrors && n in newMirrors && o.name == n.name == x && o != n && before.job.Some? ==>
      var place, state := Index(Operations(oldMirrors, newMirrors), x), before.job.value.state;
      && place.Some?
      && (state.Disabled? ==> after == Slot(Some(JobView(n, Disabled, false)), None))
      && (state.Paused? ==> after == Slot(Some(JobView(n, Paused, true)), None))
      && (!state.Disabled? && !state.Paused? ==>
            after == Slot(Some(JobView(n, StateNone, true)), Some(clock(place.value))))
  }

  /** Where one name ends up, by where it stood in the two configurations. */
  ghost predicate Achieved(
    before: Slot, after: Slot, x: Bytes,
    oldMirrors: seq<MirrorConfig>, newMirrors: seq<MirrorConfig>, clock: nat -> int)
  {
    && GivenUp(after, x, oldMirrors, newMirrors)
    && TakenUp(after, x, oldMirrors, newMirrors, clock)
    && LeftAlone(before, after, x, oldMirrors, newMirrors)
    && Changed(before, after, x, oldMirrors, newMirrors, clock)
  }

  /** Both loops on one slot. */
  ghost function SlotAfter(s: Slot, ops: seq<Trans>, clock: nat -> int, x: Bytes): Slot {
    match Index(ops, x)
    case None => s
    case Some(i) => Slot2(Slot1(s, ops[i], clock(i)), ops[i], clock(|ops| + i))
  }

  lemma SlotLoops(s: Slot, ops: seq<Trans>, clock: nat -> int, x: Bytes)
    requires Increasing(ops)
    ensures SlotLoop2(SlotLoop1(s, ops, clock, 0, x), ops, clock, |ops|, x) == SlotAfter(s, ops, clock, x)
  {
    SlotLoop1Once(s, ops, clock, 0, x);
    SlotLoop2Once(SlotLoop1(s, ops, clock, 0, x), ops, clock, |ops|, x);
  }

  lemma {:induction false} ReloadedAt(w: World, ops: seq<Trans>, clock: nat -> int, x: Bytes)
    requires S.Valid(w.queue) && Fresh(w.queue, clock, 0) && Increasing(ops)
    ensures S.Valid(Reloaded(w, ops, clock).queue)
    ensures At(Reloaded(w, ops, clock), x) == SlotAfter(At(w, x), ops, clock, x)
  {
    var w' := Loop1(w, ops, clock, 0);
    Loop1At(w, ops, clock, 0, x);
    Loop2At(w', ops, clock, |ops|, x);
    SlotLoops(At(w, x), ops, clock, x);
  }

  /** The operation on a name that was given up, is new, or changed. */
  lemma {:induction false} OperationOn(oldMirrors: seq<MirrorConfig>, newMirrors: seq<MirrorConfig>, t: Trans)
    requires UniqueNames(oldMirrors) && UniqueNames(newMirrors) && Wanted(oldMirrors, newMirrors, t)
    ensures var ops := Operations(oldMirrors, newMirrors);
            && Increasing(ops) && Index(ops, t.mirCfg.name).Some? && ops[Index(ops, t.mirCfg.name).value] == t
  {
    var ops := Operations(oldMirrors, newMirrors);
    DifferenceExact(oldMirrors, newMirrors, t);
    SameName(ops, ops[Index(ops, t.mirCfg.name).value], t);
  }

  lemma NoOperationOn(oldMirrors: seq<MirrorConfig>, newMirrors: seq<MirrorConfig>, x: Bytes)
    requires UniqueNames(oldMirrors) && UniqueNames(newMirrors)
    requires HasName(oldMirrors, x) <==> HasName(newMirrors, x)
    requires HasName(oldMirrors, x) ==> exists c :: c in oldMirrors && c in newMirrors && c.name == x
    ensures var ops := Operations(oldMirrors, newMirrors);
            Increasing(ops) && Index(ops, x).None?
  {
    var ops := Operations(oldMirrors, newMirrors);
    DifferenceExact(oldMirrors, newMirrors, Trans(DiffAdd, MirrorConfig(x, map[])));
    if Index(ops, x).Some? {
      Untouched(oldMirrors, newMirrors, x, ops[Index(ops, x).value]);
    }
  }

  lemma {:induction false} SlotAchieved(
    s: Slot, oldMirrors: seq<MirrorConfig>, newMirrors: seq<MirrorConfig>, clock: nat -> int, x: Bytes)
    requires UniqueNames(oldMirrors) && UniqueNames(newMirrors)
    requires s.job.Some? <==> HasName(oldMirrors, x)
    ensures var ops := Operations(oldMirrors, newMirrors);
            && Increasing(ops)
            && Achieved(s, SlotAfter(s, ops, clock, x), x, oldMirrors, newMirrors, clock)
            && (SlotAfter(s, ops, clock, x).job.Some? <==> HasName(newMirrors, x))
  {
    if HasName(newMirrors, x) {
      var n :| n in newMirrors && n.name == x;
      OnlyOne(newMirrors, n);
      if HasName(oldMirrors, x) {
        var o :| o in oldMirrors && o.name == x;
        OnlyOne(oldMirrors, o);
        if o == n {
          NoOperationOn(oldMirrors, newMirrors, x);
        } else {
          OperationOn(oldMirrors, newMirrors, Trans(DiffModify, n));
        }
      } else {
        OperationOn(oldMirrors, newMirrors, Trans(DiffAdd, n));
      }
    } else if HasName(oldMirrors, x) {
      var o :| o in oldMirrors && o.name == x;
      OperationOn(oldMirrors, newMirrors, Trans(DiffDelete, o));
    } else {
      NoOperationOn(oldMirrors, newMirrors, x);
    }
  }

  lemma OnlyOne(l: seq<MirrorConfig>, c: MirrorConfig)
    requires UniqueNames(l) && c in l
    ensures forall d :: d in l && d.name == c.name ==> d == c
  {
    forall d | d in l && d.name == c.name
      ensures d == c
    {
      var i :| 0 <= i < |l| && l[i] == c;
      var j :| 0 <= j < |l| && l[j] == d;
      assert !(i < j) && !(j < i);
    }
  }

  /** A reload, name by name, for unique names, a consistent worker and fresh times. */
  lemma {:induction false} ReloadAt(
    w: World, oldMirrors: seq<MirrorConfig>, newMirrors: seq<MirrorConfig>, clock: nat -> int, x: Bytes)
    requires UniqueNames(oldMirrors) && UniqueNames(newMirrors) && Consistent(w.view, oldMirrors)
    requires S.Valid(w.queue) && Fresh(w.queue, clock, 0)
    ensures var w' := Reloaded(w, Operations(oldMirrors, newMirrors), clock);
            && S.Valid(w'.queue)
            && Achieved(At(w, x), At(w', x), x, oldMirrors, newMirrors, clock)
            && (x in w'.view <==> HasName(newMirrors, x))
  {
    SlotAchieved(At(w, x), oldMirrors, newMirrors, clock, x);
    ReloadedAt(w, Operations(oldMirrors, newMirrors), clock, x);
  }

  lemma {:induction false} ChangedIsConsistent(
    before: Slot, after: Slot, x: Bytes, oldMirrors: seq<MirrorConfig>,
    newMirrors: seq<MirrorConfig>, clock: nat -> int, o: MirrorConfig, n: MirrorConfig)
    requires Changed(before, after, x, oldMirrors, newMirrors, clock)
    requires o in oldMirrors && n in newMirrors && o.name == n.name == x && o != n && before.job.Some?
    ensures after.job.Some? && after.job.value.config == n
    ensures after.job.value.running <==> !after.job.value.state.Disabled?
  {
  }

  lemma {:induction false} AchievedIsConsistent(
    before: Slot, after: Slot, x: Bytes, oldMirrors: seq<MirrorConfig>,
    newMirrors: seq<MirrorConfig>, clock: nat -> int, n: MirrorConfig)
    requires UniqueNames(oldMirrors) && UniqueNames(newMirrors) && n in newMirrors && n.name == x
    requires Achieved(before, after, x, oldMirrors, newMirrors, clock)
    requires HasName(oldMirrors, x) <==> before.job.Some?
    requires before.job.Some? ==> before.job.value.config in oldMirrors && before.job.value.config.name == x
    requires before.job.Some? ==> (before.job.value.running <==> !before.job.value.state.Disabled?)
    ensures after.job.Some? && after.job.value.config == n
    ensures after.job.value.running <==> !after.job.value.state.Disabled?
  {
    if before.job.Some? && before.job.value.config != n {
      ChangedIsConsistent(before, after, x, oldMirrors, newMirrors, clock, before.job.value.config, n);
    } else if before.job.Some? {
      assert LeftAlone(before, after, x, oldMirrors, newMirrors) && after == before;
    }
  }

  lemma ConsistentAt(
    w: World, oldMirrors: seq<MirrorConfig>, newMirrors: seq<MirrorConfig>, clock: nat -> int, n: MirrorConfig)
    requires UniqueNames(oldMirrors) && UniqueNames(newMirrors) && Consistent(w.view, oldMirrors)
    requires S.Valid(w.queue) && Fresh(w.queue, clock, 0) && n in newMirrors
    ensures var w' := Reloaded(w, Operations(oldMirrors, newMirrors), clock);
            && n.name in w'.view && w'.view[n.name].config == n
            && (w'.view[n.name].running <==> !w'.view[n.name].state.Disabled?)
  {
    var w' := Reloaded(w, Operations(oldMirrors, newMirrors), clock);
    ReloadAt(w, oldMirrors, newMirrors, clock, n.name);
    if n.name in w.view {
      var o :| o in oldMirrors && o.name == n.name;
      assert At(w, n.name).job == Some(w.view[n.name]);
    }
    AchievedIsConsistent(At(w, n.name), At(w', n.name), n.name, oldMirrors, newMirrors, clock, n);
  }

  /** A reload leaves the worker consistent with the new configuration: the job
      table holds exactly the new names, each job under its new configuration. So
      reloads can be repeated. */
  lemma ReloadConsistent(w: World, oldMirrors: seq<MirrorConfig>, newMirrors: seq<MirrorConfig>, clock: nat -> int)
    requires UniqueNames(oldMirrors) && UniqueNames(newMirrors) && Consistent(w.view, oldMirrors)
    requires S.Valid(w.queue) && Fresh(w.queue, clock, 0)
    ensures Consistent(Reloaded(w, Operations(oldMirrors, newMirrors), clock).view, newMirrors)
  {
    var w' := Reloaded(w, Operations(oldMirrors, newMirrors), clock);
    forall x: Bytes
      ensures x in w'.view <==> HasName(newMirrors, x)
    {
      ReloadAt(w, oldMirrors, newMirrors, clock, x);
    }
    forall n | n in newMirrors
      ensures n.name in w'.view && w'.view[n.name].config == n
      ensures w'.view[n.name].running <==> !w'.view[n.name].state.Disabled?
    {
      ConsistentAt(w, oldMirrors, newMirrors, clock, n);
    }
    forall x | x in w'.view
      ensures w'.view[x].running <==> !w'.view[x].state.Disabled?
    {
      var n :| n in newMirrors && n.name == x;
    }
  }
}
