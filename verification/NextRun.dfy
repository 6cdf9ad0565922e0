/** The next run of a job: the engine, the worker's loop and the schedule queue together
    (worker/job.go, worker/worker.go, worker/schedule.go). A run that is over asks to
    be scheduled; the worker puts the job into the queue; at its time the job is taken
    out and started. The module says exactly when a job falls out of this circle. */
module NextRun {
  import opened Bytes
  import opened Options
  import opened JobStates
  import opened JobEngine
  import opened JobStreams
  import R = RunJob
  import S = Schedule
  import F = StatusFilter

  /** The engine and the queue; and for one job the messages that wait, whether the
      worker's loop is about to start it, and the action that a command handler is about
      to send. The last four fields keep a history: the latest runner of the job; whether
      that failed to terminate its provider; whether the job was placed since it was last
      set up; and whether, since then and since its latest run began, the last thing that
      was to start it has gone: its entry left the queue, or its run failed to terminate,
      when there was nothing else. */
  datatype Keeper = Keeper(
    s: System, queue: S.Queue, pending: seq<R.Message>, starting: bool, owed: Option<Action>,
    last: nat, unterminated: bool, placed: bool, stranded: bool)

  const NEW := Keeper(EMPTY, S.EMPTY, [], false, None, 0, false, false, false)

  datatype Move =
    | Act(e: Event)                      // a step of the engine
    | Take(next: int)                    // the worker's loop takes a message; `next` is now plus the interval
    | Tick(now: int)                     // the loop pops the queue
    | SendStart                          // and starts the job it popped
    | Command(action: Option<Action>)    // a handler flushes the job's schedule; not every command has an action
    | SendOwed                           // and sends the action
    | Place(time: int)                   // start-up or a reload schedules the job
    | PlaceOther(time: int, other: Bytes)
    | RemoveOther(other: Bytes)

  predicate Listed(q: S.Queue, name: Bytes) {
    S.Find(q.list, name).Some?
  }

  /** A message that asks for the next run waits. */
  predicate Waiting(pending: seq<R.Message>) {
    exists i :: 0 <= i < |pending| && pending[i].schedule
  }

  /** The latest run has asked for the next one, and the worker has taken all such messages. */
  predicate Asked(k: Keeper) {
    k.last < |k.s.runners| && R.EndsScheduled(k.s.runners[k.last].log) && !Waiting(k.pending)
  }

  /** Only an entry in the queue can start the job: it has not run since it was set up; or
      its latest run has asked for the next one, or could not be terminated, and no
      message waits. */
  predicate OnlyQueued(k: Keeper, j: nat) {
    || (j < |k.s.jobs| && k.s.jobs[j].state.StateNone?)
    || Asked(k)
    || (k.unterminated && !Waiting(k.pending))
  }

  predicate Possible(concurrent: nat, k: Keeper, j: nat, name: Bytes, move: Move) {
    match move
    // the worker's own sends are the moves below
    case Act(e) => Enabled(concurrent, k.s, e) && !(e.Send? && e.j == j)
    // while the loop is about to send, it does nothing else
    case Take(_) => k.pending != [] && !k.starting && j < |k.s.jobs|
    case Tick(_) => !k.starting
    case SendStart => k.starting && Enabled(concurrent, k.s, Send(j, Start))
    case Command(action) => k.owed.None?
    case SendOwed => k.owed.Some? && Enabled(concurrent, k.s, Send(j, k.owed.value))
    case Place(_) => true
    case PlaceOther(_, other) => other != name
    case RemoveOther(other) => other != name
  }

  /** The queue has become `q`. */
  function Requeued(k: Keeper, j: nat, name: Bytes, q: S.Queue): Keeper {
    k.(queue := q, stranded := !Listed(q, name) && (k.stranded || (Listed(k.queue, name) && OnlyQueued(k, j))))
  }

  predicate Spawns(k: Keeper, j: nat, e: Event)
    requires e.Check? ==> e.j < |k.s.jobs|
  {
    e == Check(j) && k.s.jobs[j].state.Ready?
  }

  /** The job is set up, at start-up or by a reload. */
  predicate SetsUp(k: Keeper, j: nat, e: Event) {
    (e.NewJob? && |k.s.jobs| == j) || (e.Reconfigure? && e.j == j)
  }

  /** The latest run of the job fails to terminate its provider. */
  predicate FailsToEnd(k: Keeper, j: nat, e: Event) {
    e.Advance? && e.k == k.last < |k.s.runners| && k.s.runners[k.last].job == j && e.c.TermFails?
  }

  function AfterAct(concurrent: nat, k: Keeper, j: nat, name: Bytes, e: Event): Keeper
    requires Enabled(concurrent, k.s, e)
  {
    var k' := k.(s := Fire(concurrent, k.s, e), pending := k.pending + Emitted(concurrent, k.s, e, j));
    if Spawns(k, j, e) then k'.(last := |k.s.runners|, unterminated := false, stranded := false)
    else if SetsUp(k, j, e) then k'.(placed := false, stranded := false)
    else if FailsToEnd(k, j, e) then
      k'.(unterminated := true, stranded := k.stranded || (!Listed(k.queue, name) && !Waiting(k.pending)))
    else k'
  }

  /** The loop of the worker, for one message. */
  function AfterTake(k: Keeper, j: nat, name: Bytes, next: int): Keeper
    requires k.pending != [] && j < |k.s.jobs|
  {
    var rest := k.(pending := k.pending[1..]);
    if F.Passes(k.s.jobs[j].state) && k.pending[0].schedule then Requeued(rest, j, name, S.Added(k.queue, next, name))
    else rest
  }

  function Do(concurrent: nat, k: Keeper, j: nat, name: Bytes, move: Move): Keeper
    requires Possible(concurrent, k, j, name, move)
  {
    match move
    case Act(e) => AfterAct(concurrent, k, j, name, e)
    case Take(next) => AfterTake(k, j, name, next)
    case Tick(now) =>
      var (q, popped) := S.Popped(k.queue, now);
      Requeued(k, j, name, q).(starting := popped == Some(name))
    case SendStart => k.(s := Fire(concurrent, k.s, Send(j, Start)), starting := false)
    case Command(action) => Requeued(k, j, name, S.Removed(k.queue, name)).(owed := action)
    case SendOwed => k.(s := Fire(concurrent, k.s, Send(j, k.owed.value)), owed := None)
    case Place(time) => Requeued(k, j, name, S.Added(k.queue, time, name)).(placed := true)
    case PlaceOther(time, other) => Requeued(k, j, name, S.Added(k.queue, time, other))
    case RemoveOther(other) => Requeued(k, j, name, S.Removed(k.queue, other))
  }

  /** `k'` is reached from `k` by these moves, in order. */
  ghost predicate Moves(concurrent: nat, k: Keeper, j: nat, name: Bytes, moves: seq<Move>, k': Keeper)
    decreases |moves|
  {
    if moves == [] then k == k'
    else
      && Possible(concurrent, k, j, name, moves[0])
      && Moves(concurrent, Do(concurrent, k, j, name, moves[0]), j, name, moves[1..], k')
  }

  // ---------------------------------------------------------------- invariant

  /** The controller watches its run, or has found that it is over and rests with the job ready. */
  predicate Settled(job: Job) {
    job.ctl.Watching? || (job.ctl.Idle? && job.state.Ready?)
  }

  /** The latest run of a settled job was not killed, and what became of its message is known. */
  ghost predicate RunTracked(k: Keeper, j: nat, name: Bytes)
    requires j < |k.s.jobs|
  {
    && k.last < |k.s.runners| && k.s.runners[k.last].job == j && k.s.runners[k.last].kills == 0
    && (k.s.runners[k.last].mode.NotAdmitted? ==> k.s.runners[k.last].pc.Selecting?)
    && Unkilled(k.s, k.last, k.unterminated)
    && (k.unterminated ==> k.s.runners[k.last].params.retries >= 1)
    && (OnlyQueued(k, j) ==> Listed(k.queue, name) || k.stranded)
    && (k.stranded ==> OnlyQueued(k, j) && !Listed(k.queue, name))
  }

  ghost predicate JobTracked(k: Keeper, j: nat, name: Bytes)
    requires j < |k.s.jobs|
  {
    var job := k.s.jobs[j];
    && (job.ctl.Watching? ==> job.state.Ready? && job.ctl.k == k.last)
    && ((job.ctl.KillNext? || job.ctl.Joining?) && job.ctl.why.Stop? ==> job.state.Paused?)
    && (Settled(job) ==> RunTracked(k, j, name))
    && (job.ctl.Idle? && job.state.Ready? ==> k.s.runners[k.last].dones == 1)
    && (job.state.StateNone? && k.placed ==> (k.stranded <==> !Listed(k.queue, name)))
    && (job.state.StateNone? && k.stranded ==> !Listed(k.queue, name))
  }

  ghost predicate Accounted(k: Keeper, j: nat, name: Bytes) {
    S.Valid(k.queue) && (j < |k.s.jobs| ==> JobTracked(k, j, name))
  }

  ghost predicate Tracked(concurrent: nat, k: Keeper, j: nat, name: Bytes) {
    Inv(concurrent, k.s) && Accounted(k, j, name)
  }

  /** Any change of the queue keeps the account. */
  lemma RequeuedTracked(k: Keeper, j: nat, name: Bytes, q: S.Queue)
    requires Accounted(k, j, name) && S.Valid(q)
    ensures Accounted(Requeued(k, j, name, q), j, name)
  {
    assert OnlyQueued(Requeued(k, j, name, q), j) == OnlyQueued(k, j);
  }

  lemma WaitingTail(pending: seq<R.Message>)
    requires pending != []
    ensures Waiting(pending) <==> pending[0].schedule || Waiting(pending[1..])
  {
    if i :| 0 <= i < |pending| && pending[i].schedule {
      if i > 0 {
        assert pending[1..][i - 1].schedule;
      }
    }
    if i :| 0 <= i < |pending| - 1 && pending[1..][i].schedule {
      assert pending[i + 1].schedule;
    }
  }

  lemma TakenTracked(concurrent: nat, k: Keeper, j: nat, name: Bytes, next: int)
    requires Tracked(concurrent, k, j, name) && k.pending != [] && j < |k.s.jobs|
    ensures Accounted(AfterTake(k, j, name, next), j, name)
  {
    if F.Passes(k.s.jobs[j].state) && k.pending[0].schedule {
      BackInQueue(k, k.(pending := k.pending[1..]), j, name, next);
    } else {
      WaitingTail(k.pending);
      NothingTaken(k, k.(pending := k.pending[1..]), j, name);
    }
  }

  lemma BackInQueue(k: Keeper, rest: Keeper, j: nat, name: Bytes, next: int)
    requires Accounted(k, j, name) && rest == k.(pending := rest.pending)
    requires Waiting(k.pending) && j < |k.s.jobs| && F.Passes(k.s.jobs[j].state)
    ensures Accounted(Requeued(rest, j, name, S.Added(k.queue, next, name)), j, name)
  {
    S.AddedMeans(k.queue, next, name);
    assert S.Entry(next, name) in S.Added(k.queue, next, name).list;
  }

  lemma NothingTaken(k: Keeper, rest: Keeper, j: nat, name: Bytes)
    requires Accounted(k, j, name) && rest == k.(pending := rest.pending) && j < |k.s.jobs|
    requires Settled(k.s.jobs[j]) ==> Waiting(rest.pending) == Waiting(k.pending)
    ensures Accounted(rest, j, name)
  {
    assert Settled(k.s.jobs[j]) ==> OnlyQueued(rest, j) == OnlyQueued(k, j);
  }

  /** What the worker's loop does with a message of the job: if that asks for the next run
      and finds the job ready or halting, the job is in the queue at the time given, and
      at no other; any other message leaves the queue alone. */
  lemma TakeSchedules(concurrent: nat, k: Keeper, j: nat, name: Bytes, next: int)
    requires S.Valid(k.queue) && Possible(concurrent, k, j, name, Take(next))
    ensures var k', state := Do(concurrent, k, j, name, Take(next)), k.s.jobs[j].state;
            && k'.s == k.s && k'.pending == k.pending[1..]
            && (k.pending[0].schedule && (state == Ready || state == Halting) ==>
                  && S.Valid(k'.queue) && S.Entry(next, name) in k'.queue.list
                  && forall e :: e in k'.queue.list && e.name == name ==> e.time == next)
            && (!k.pending[0].schedule || (state != Ready && state != Halting) ==> k'.queue == k.queue)
  {
    S.AddedMeans(k.queue, next, name);
    assert S.Entry(next, name) in S.Added(k.queue, next, name).list;
  }

  /** What the loop does at a tick: when the job is the first in the queue and its time has
      passed, it takes the job out and sends it a start. */
  lemma TickStarts(concurrent: nat, k: Keeper, j: nat, name: Bytes, now: int)
    requires S.Valid(k.queue) && Possible(concurrent, k, j, name, Tick(now)) && k.queue.list != []
    requires k.queue.list[0].name == name && k.queue.list[0].time < now
    requires Enabled(concurrent, k.s, Send(j, Start))
    ensures var k1 := Do(concurrent, k, j, name, Tick(now));
            && k1.s == k.s && !Listed(k1.queue, name)
            && Possible(concurrent, k1, j, name, SendStart)
            && var k2 := Do(concurrent, k1, j, name, SendStart);
               && k2.queue == k1.queue && !k2.starting && |k2.s.jobs| == |k.s.jobs|
               && k2.s.jobs[j] == k.s.jobs[j].(inbox := [Start])
  {
    S.PopTakesHead(k.queue, now);
  }

  /** A run that has asked for the next one says nothing more. */
  lemma AskedIsLast(s: System, k: nat)
    requires k < |s.runners| && RunnerOk(s, k) && s.runners[k].pc.Wrapping? && R.EndsScheduled(s.runners[k].log)
    ensures R.SaysNothing(s.runners[k].params, s.runners[k].pc.local.pc)
  {
    R.ScheduledIsOver(s.runners[k].params, s.runners[k].pc.local);
  }

  /** A step that spawns no run makes no job settled. */
  lemma StaysSettled(concurrent: nat, k: Keeper, j: nat, name: Bytes, e: Event)
    requires Tracked(concurrent, k, j, name) && Enabled(concurrent, k.s, e) && j < |k.s.jobs|
    requires !Spawns(k, j, e)
    ensures var job, job' := k.s.jobs[j], Fire(concurrent, k.s, e).jobs[j];
            && (Settled(job') ==> Settled(job))
            && (job'.ctl.Watching? ==> job.ctl.Watching? && job'.ctl.k == job.ctl.k && job'.state.Ready?)
            && ((job'.ctl.KillNext? || job'.ctl.Joining?) && job'.ctl.why.Stop? ==> job'.state.Paused?)
            && (Settled(job') && job'.ctl.Idle? && !job.ctl.Idle? ==> e == SeeDone(j))
  {
    assert JobOk(k.s, j);
  }

  /** What a step of the engine does to the latest runner of a job that stays settled. */
  lemma LatestRunner(concurrent: nat, k: Keeper, j: nat, name: Bytes, e: Event)
    requires Tracked(concurrent, k, j, name) && Enabled(concurrent, k.s, e) && j < |k.s.jobs|
    requires Settled(k.s.jobs[j]) && Settled(Fire(concurrent, k.s, e).jobs[j]) && !Spawns(k, j, e)
    ensures var r, r' := k.s.runners[k.last], Fire(concurrent, k.s, e).runners[k.last];
            && r'.job == j && r'.kills == 0
            && (r'.mode.NotAdmitted? ==> r'.pc.Selecting?)
            && (e == SeeDone(j) || r.dones == 1 ==> r'.dones == 1)
            && (!(e.Advance? && e.k == k.last) ==> r'.log == r.log)
            && r'.params == r.params
  {
    assert JobOk(k.s, j) && RunnerOk(k.s, k.last);
    if e.CloseKill? {
      assert JobOk(k.s, e.j);
    }
  }

  /** Only the latest runner of a settled job sends, and nothing after it has asked for the next run. */
  lemma OnlyLatestSends(concurrent: nat, k: Keeper, j: nat, name: Bytes, e: Event)
    requires Tracked(concurrent, k, j, name) && Enabled(concurrent, k.s, e) && j < |k.s.jobs|
    requires Settled(k.s.jobs[j])
    ensures Emitted(concurrent, k.s, e, j) != [] ==>
              && e.Advance? && e.k == k.last && !R.EndsScheduled(k.s.runners[k.last].log)
              && Fire(concurrent, k.s, e).runners[k.last].log
                 == k.s.runners[k.last].log + Emitted(concurrent, k.s, e, j)
    ensures Emitted(concurrent, k.s, e, j) == [] ==>
              Fire(concurrent, k.s, e).runners[k.last].log == k.s.runners[k.last].log
  {
    assert JobOk(k.s, j) && RunnerOk(k.s, k.last);
    if e.Advance? {
      if k.s.runners[e.k].job == j {
        AdvanceIsLatest(concurrent, k, j, name, e);
      }
    } else if e.CloseKill? {
      assert JobOk(k.s, e.j);
    }
  }

  lemma AdvanceIsLatest(concurrent: nat, k: Keeper, j: nat, name: Bytes, e: Event)
    requires Tracked(concurrent, k, j, name) && Enabled(concurrent, k.s, e) && j < |k.s.jobs|
    requires Settled(k.s.jobs[j]) && e.Advance? && k.s.runners[e.k].job == j
    ensures e.k == k.last && k.s.runners[k.last].log == k.s.runners[k.last].pc.local.log
    ensures R.EndsScheduled(k.s.runners[k.last].log) ==> Emitted(concurrent, k.s, e, j) == []
  {
    assert JobOk(k.s, j) && RunnerOk(k.s, k.last) && RunnerOk(k.s, e.k);
    assert Current(k.s, e.k);
    if R.EndsScheduled(k.s.runners[k.last].log) {
      AskedIsLast(k.s, k.last);
    }
  }

  lemma WaitingMore(pending: seq<R.Message>, more: seq<R.Message>)
    ensures Waiting(pending + more) <==> Waiting(pending) || Waiting(more)
  {
    if i :| 0 <= i < |pending| && pending[i].schedule {
      assert (pending + more)[i].schedule;
    }
    if i :| 0 <= i < |more| && more[i].schedule {
      assert (pending + more)[|pending| + i].schedule;
    }
    if i :| 0 <= i < |pending + more| && (pending + more)[i].schedule {
      assert if i < |pending| then pending[i].schedule else more[i - |pending|].schedule;
    }
  }

  /** What becomes of the account when the latest runner sends `more`. */
  lemma AskedAfter(k: Keeper, k': Keeper, more: seq<R.Message>)
    requires k.last < |k.s.runners| && k'.last == k.last < |k'.s.runners|
    requires k'.s.runners[k.last].log == k.s.runners[k.last].log + more && k'.pending == k.pending + more
    ensures more == [] ==> Asked(k') == Asked(k)
    ensures more != [] ==> !Asked(k')
  {
    WaitingMore(k.pending, more);
    var log := k'.s.runners[k.last].log;
    if more == [] {
      assert log == k.s.runners[k.last].log && k'.pending == k.pending;
    } else if R.EndsScheduled(log) {
      assert more[|more| - 1] == log[|log| - 1];
    }
  }

  /** A settled job's step spoils its schedule only by a failed termination. */
  lemma OnlyTermSpoils(concurrent: nat, k: Keeper, j: nat, name: Bytes, e: Event)
    requires Tracked(concurrent, k, j, name) && Enabled(concurrent, k.s, e) && j < |k.s.jobs| && Settled(k.s.jobs[j])
    ensures SpoilsAt(concurrent, k.s, e, k.last) <==> FailsToEnd(k, j, e)
  {
  }

  /** A termination fails only in an attempt, and without a word. */
  lemma FailedEndIsSilent(concurrent: nat, k: Keeper, j: nat, name: Bytes, e: Event)
    requires Tracked(concurrent, k, j, name) && Enabled(concurrent, k.s, e) && FailsToEnd(k, j, e)
    ensures Emitted(concurrent, k.s, e, j) == [] && k.s.runners[k.last].params.retries >= 1
  {
    assert RunnerOk(k.s, k.last);
  }

  /** After a failed termination the run says nothing more. */
  lemma UnterminatedIsSilent(concurrent: nat, k: Keeper, j: nat, name: Bytes, e: Event)
    requires Tracked(concurrent, k, j, name) && Enabled(concurrent, k.s, e) && j < |k.s.jobs|
    requires Settled(k.s.jobs[j]) && k.unterminated
    ensures Emitted(concurrent, k.s, e, j) == []
  {
    assert RunnerOk(k.s, k.last);
    if e.Advance? && k.s.runners[e.k].job == j {
      AdvanceIsLatest(concurrent, k, j, name, e);
    }
  }

  /** What the account is after the latest runner has sent `more`, or `fails` to terminate. */
  lemma AccountStep(k: Keeper, k': Keeper, j: nat, listed: bool, more: seq<R.Message>, fails: bool)
    requires j < |k.s.jobs| && !k.s.jobs[j].state.StateNone? && j < |k'.s.jobs| && !k'.s.jobs[j].state.StateNone?
    requires k.last < |k.s.runners| && k'.last == k.last < |k'.s.runners|
    requires k'.s.runners[k.last].log == k.s.runners[k.last].log + more && k'.pending == k.pending + more
    requires k'.unterminated == (k.unterminated || fails)
    requires k'.stranded == (k.stranded || (fails && !listed && !Waiting(k.pending)))
    requires OnlyQueued(k, j) ==> listed || k.stranded
    requires k.stranded ==> OnlyQueued(k, j) && !listed
    requires fails || k.unterminated || R.EndsScheduled(k.s.runners[k.last].log) ==> more == []
    ensures OnlyQueued(k', j) ==> listed || k'.stranded
    ensures k'.stranded ==> OnlyQueued(k', j) && !listed
  {
    AskedAfter(k, k', more);
    if more == [] {
      assert k.pending + more == k.pending;
    }
  }

  /** What a step of the engine sends for a settled job. */
  lemma SettledSends(concurrent: nat, k: Keeper, j: nat, name: Bytes, e: Event)
    requires Tracked(concurrent, k, j, name) && Enabled(concurrent, k.s, e) && j < |k.s.jobs|
    requires Settled(k.s.jobs[j])
    ensures var r, more := k.s.runners[k.last], Emitted(concurrent, k.s, e, j);
            && Fire(concurrent, k.s, e).runners[k.last].log == r.log + more
            && (FailsToEnd(k, j, e) || k.unterminated || R.EndsScheduled(r.log) ==> more == [])
  {
    OnlyLatestSends(concurrent, k, j, name, e);
    var r, more := k.s.runners[k.last], Emitted(concurrent, k.s, e, j);
    assert r.log + [] == r.log;
    if FailsToEnd(k, j, e) {
      FailedEndIsSilent(concurrent, k, j, name, e);
    } else if k.unterminated {
      UnterminatedIsSilent(concurrent, k, j, name, e);
    }
  }

  /** A step of a run makes no difference to the job but through the latest runner. */
  lemma RunStepTracked(concurrent: nat, k: Keeper, j: nat, name: Bytes, e: Event)
    requires Tracked(concurrent, k, j, name) && Enabled(concurrent, k.s, e) && e.Advance?
    ensures Accounted(AfterAct(concurrent, k, j, name, e), j, name)
  {
    if j < |k.s.jobs| {
      if Settled(k.s.jobs[j]) {
        RunStepSettled(concurrent, k, j, name, e);
        if k.s.jobs[j].ctl.Idle? {
          DoneIsKept(concurrent, k, j, name, e);
        }
      } else {
        RunStepUnsettled(concurrent, k, j, name, e);
      }
    }
  }

  lemma RunStepUnsettled(concurrent: nat, k: Keeper, j: nat, name: Bytes, e: Event)
    requires Tracked(concurrent, k, j, name) && Enabled(concurrent, k.s, e) && j < |k.s.jobs| && e.Advance?
    requires !Settled(k.s.jobs[j])
    ensures JobTracked(AfterAct(concurrent, k, j, name, e), j, name)
  {
  }

  lemma DoneIsKept(concurrent: nat, k: Keeper, j: nat, name: Bytes, e: Event)
    requires Tracked(concurrent, k, j, name) && Enabled(concurrent, k.s, e) && j < |k.s.jobs| && e.Advance?
    requires Settled(k.s.jobs[j]) && k.s.runners[k.last].dones == 1
    ensures AfterAct(concurrent, k, j, name, e).s.runners[k.last].dones == 1
  {
  }

  lemma RunStepSettled(concurrent: nat, k: Keeper, j: nat, name: Bytes, e: Event)
    requires Tracked(concurrent, k, j, name) && Enabled(concurrent, k.s, e) && j < |k.s.jobs| && e.Advance?
    requires Settled(k.s.jobs[j])
    ensures RunTracked(AfterAct(concurrent, k, j, name, e), j, name)
  {
    var k', more := AfterAct(concurrent, k, j, name, e), Emitted(concurrent, k.s, e, j);
    SettledSends(concurrent, k, j, name, e);
    AccountStep(k, k', j, Listed(k.queue, name), more, FailsToEnd(k, j, e));
    EventKeepsUnkilled(concurrent, k.s, e, k.last, k.unterminated);
    OnlyTermSpoils(concurrent, k, j, name, e);
    if FailsToEnd(k, j, e) {
      FailedEndIsSilent(concurrent, k, j, name, e);
    }
  }

  /** Every other step sends nothing. */
  lemma OtherStepSettled(concurrent: nat, k: Keeper, j: nat, name: Bytes, e: Event)
    requires Tracked(concurrent, k, j, name) && Enabled(concurrent, k.s, e) && j < |k.s.jobs| && !e.Advance?
    requires Settled(k.s.jobs[j]) && Settled(Fire(concurrent, k.s, e).jobs[j]) && !Spawns(k, j, e)
    ensures RunTracked(k.(s := Fire(concurrent, k.s, e)), j, name)
  {
    LatestRunner(concurrent, k, j, name, e);
    EventKeepsUnkilled(concurrent, k.s, e, k.last, k.unterminated);
    StaysSettled(concurrent, k, j, name, e);
    var k' := k.(s := Fire(concurrent, k.s, e));
    assert k'.s.runners[k.last].log == k.s.runners[k.last].log;
    assert OnlyQueued(k', j) == OnlyQueued(k, j);
  }

  lemma SilentAct(concurrent: nat, k: Keeper, j: nat, name: Bytes, e: Event)
    requires Enabled(concurrent, k.s, e) && !e.Advance? && !Spawns(k, j, e) && !SetsUp(k, j, e)
    ensures AfterAct(concurrent, k, j, name, e) == k.(s := Fire(concurrent, k.s, e))
  {
    assert k.pending + [] == k.pending;
  }

  lemma SpawnTracked(concurrent: nat, k: Keeper, j: nat, name: Bytes, e: Event)
    requires Tracked(concurrent, k, j, name) && Enabled(concurrent, k.s, e) && Spawns(k, j, e)
    ensures Accounted(AfterAct(concurrent, k, j, name, e), j, name)
  {
  }

  lemma ActedTracked(concurrent: nat, k: Keeper, j: nat, name: Bytes, e: Event)
    requires Tracked(concurrent, k, j, name) && Enabled(concurrent, k.s, e)
    ensures Accounted(AfterAct(concurrent, k, j, name, e), j, name)
  {
    if Spawns(k, j, e) {
      SpawnTracked(concurrent, k, j, name, e);
    } else if SetsUp(k, j, e) {
      SetUpTracked(concurrent, k, j, name, e);
    } else if e.Advance? {
      RunStepTracked(concurrent, k, j, name, e);
    } else {
      OtherStepTracked(concurrent, k, j, name, e);
    }
  }

  lemma SetUpTracked(concurrent: nat, k: Keeper, j: nat, name: Bytes, e: Event)
    requires Tracked(concurrent, k, j, name) && Enabled(concurrent, k.s, e) && SetsUp(k, j, e)
    ensures Accounted(AfterAct(concurrent, k, j, name, e), j, name)
  {
  }

  lemma LaterJob(concurrent: nat, s: System, e: Event, j: nat)
    requires Enabled(concurrent, s, e) && j >= |s.jobs|
    ensures j < |Fire(concurrent, s, e).jobs| ==> Fire(concurrent, s, e).jobs[j].ctl.Off?
  {
  }

  lemma OtherStepTracked(concurrent: nat, k: Keeper, j: nat, name: Bytes, e: Event)
    requires Tracked(concurrent, k, j, name) && Enabled(concurrent, k.s, e)
    requires !e.Advance? && !Spawns(k, j, e) && !SetsUp(k, j, e)
    ensures Accounted(AfterAct(concurrent, k, j, name, e), j, name)
  {
    SilentAct(concurrent, k, j, name, e);
    if j >= |k.s.jobs| {
      LaterJob(concurrent, k.s, e, j);
    } else {
      OtherStepJob(concurrent, k, j, name, e);
    }
  }

  lemma OtherStepJob(concurrent: nat, k: Keeper, j: nat, name: Bytes, e: Event)
    requires Tracked(concurrent, k, j, name) && Enabled(concurrent, k.s, e) && j < |k.s.jobs|
    requires !e.Advance? && !Spawns(k, j, e) && !SetsUp(k, j, e)
    ensures JobTracked(k.(s := Fire(concurrent, k.s, e)), j, name)
  {
    StaysSettled(concurrent, k, j, name, e);
    StateNoneStays(concurrent, k.s, e, j);
    if Settled(Fire(concurrent, k.s, e).jobs[j]) {
      LatestRunner(concurrent, k, j, name, e);
      OtherStepSettled(concurrent, k, j, name, e);
    }
  }

  lemma StateNoneStays(concurrent: nat, s: System, e: Event, j: nat)
    requires Enabled(concurrent, s, e) && j < |s.jobs| && !(e.Reconfigure? && e.j == j)
    ensures Fire(concurrent, s, e).jobs[j].state.StateNone? ==> s.jobs[j].state.StateNone?
  {
  }

  lemma MoveTracked(concurrent: nat, k: Keeper, j: nat, name: Bytes, move: Move)
    requires Tracked(concurrent, k, j, name) && Possible(concurrent, k, j, name, move)
    ensures Accounted(Do(concurrent, k, j, name, move), j, name)
  {
    match move
    case Act(e) => ActedTracked(concurrent, k, j, name, e);
    case Take(next) => TakenTracked(concurrent, k, j, name, next);
    case Tick(now) =>
      S.PoppedMeans(k.queue, now);
      RequeuedTracked(k, j, name, S.Popped(k.queue, now).0);
      HistoryOnly(Requeued(k, j, name, S.Popped(k.queue, now).0), Do(concurrent, k, j, name, move), j, name);
    case SendStart => SentTracked(concurrent, k, Do(concurrent, k, j, name, move), j, name, Start);
    case SendOwed => SentTracked(concurrent, k, Do(concurrent, k, j, name, move), j, name, k.owed.value);
    case Command(action) =>
      S.RemovedMeans(k.queue, name);
      RequeuedTracked(k, j, name, S.Removed(k.queue, name));
      HistoryOnly(Requeued(k, j, name, S.Removed(k.queue, name)), Do(concurrent, k, j, name, move), j, name);
    case Place(time) =>
      S.AddedMeans(k.queue, time, name);
      assert S.Entry(time, name) in S.Added(k.queue, time, name).list;
      RequeuedTracked(k, j, name, S.Added(k.queue, time, name));
      PlacedTracked(Requeued(k, j, name, S.Added(k.queue, time, name)), j, name);
    case PlaceOther(time, other) =>
      S.AddedMeans(k.queue, time, other);
      RequeuedTracked(k, j, name, S.Added(k.queue, time, other));
    case RemoveOther(other) =>
      S.RemovedMeans(k.queue, other);
      RequeuedTracked(k, j, name, S.Removed(k.queue, other));
  }

  lemma HistoryOnly(k: Keeper, k': Keeper, j: nat, name: Bytes)
    requires Accounted(k, j, name) && k' == k.(starting := k'.starting, owed := k'.owed)
    ensures Accounted(k', j, name)
  {
    assert OnlyQueued(k', j) == OnlyQueued(k, j);
  }

  lemma PlacedTracked(k: Keeper, j: nat, name: Bytes)
    requires Accounted(k, j, name) && Listed(k.queue, name) && !k.stranded
    ensures Accounted(k.(placed := true), j, name)
  {
    assert OnlyQueued(k.(placed := true), j) == OnlyQueued(k, j);
  }

  lemma SentTracked(concurrent: nat, k: Keeper, k': Keeper, j: nat, name: Bytes, a: Action)
    requires Tracked(concurrent, k, j, name) && Enabled(concurrent, k.s, Send(j, a))
    requires k' == k.(s := Fire(concurrent, k.s, Send(j, a)), starting := k'.starting, owed := k'.owed)
    ensures Accounted(k', j, name)
  {
    ActedTracked(concurrent, k, j, name, Send(j, a));
    assert k.pending + [] == k.pending;
    HistoryOnly(AfterAct(concurrent, k, j, name, Send(j, a)), k', j, name);
  }

  lemma MoveKeepsInv(concurrent: nat, k: Keeper, j: nat, name: Bytes, move: Move)
    requires Inv(concurrent, k.s) && Possible(concurrent, k, j, name, move)
    ensures Inv(concurrent, Do(concurrent, k, j, name, move).s)
  {
    match move
    case Act(e) => EventKeepsInv(concurrent, k.s, e);
    case SendStart => EventKeepsInv(concurrent, k.s, Send(j, Start));
    case SendOwed => EventKeepsInv(concurrent, k.s, Send(j, k.owed.value));
    case _ =>
  }

  lemma {:induction false} MovesTracked(concurrent: nat, k: Keeper, j: nat, name: Bytes, moves: seq<Move>, k': Keeper)
    requires Tracked(concurrent, k, j, name) && Moves(concurrent, k, j, name, moves, k')
    ensures Tracked(concurrent, k', j, name)
    decreases |moves|
  {
    if moves != [] {
      MoveTracked(concurrent, k, j, name, moves[0]);
      MoveKeepsInv(concurrent, k, j, name, moves[0]);
      MovesTracked(concurrent, Do(concurrent, k, j, name, moves[0]), j, name, moves[1..], k');
    }
  }

  // ---------------------------------------------------------------- results

  /** The job is ready and its run is over, or it was placed and has not run since it was
      set up; and nobody is about to send it anything. */
  predicate Resting(k: Keeper, j: nat) {
    && j < |k.s.jobs| && k.s.jobs[j].ctl.Idle? && k.s.jobs[j].inbox == []
    && (k.s.jobs[j].state.Ready? || (k.s.jobs[j].state.StateNone? && k.placed))
    && !k.starting && k.owed.None?
  }

  /** A message that waits would put the job into the queue again; of a job that is not
      ready it is dropped. */
  predicate Returning(k: Keeper, j: nat)
    requires j < |k.s.jobs|
  {
    k.s.jobs[j].state.Ready? && Waiting(k.pending)
  }

  /** Nothing will start the job again: it is not in the queue, and no message asks for it. */
  predicate Forgotten(k: Keeper, j: nat, name: Bytes) {
    Resting(k, j) && !Listed(k.queue, name) && !Returning(k, j)
  }

  /** In every interleaving of job, worker and command handlers: a job that rests is
      forgotten if and only if the last thing that was to start it went, at some step
      since its latest run began or it was set up: its entry left the queue, or its run
      failed to terminate, when there was nothing else. */
  lemma ForgottenIff(concurrent: nat, j: nat, name: Bytes, moves: seq<Move>, k: Keeper)
    requires Moves(concurrent, NEW, j, name, moves, k) && Resting(k, j)
    requires k.last < |k.s.runners| ==> k.s.runners[k.last].params.retries >= 1
    ensures Forgotten(k, j, name) <==> k.stranded
  {
    MovesTracked(concurrent, NEW, j, name, moves, k);
    if k.s.jobs[j].state.Ready? {
      assert RunnerOk(k.s, k.last);
    }
  }

  /** In particular: a run that could not be terminated forgets its job, unless the job
      is still in the queue or a message still waits. */
  lemma UnterminatedForgetsIff(concurrent: nat, j: nat, name: Bytes, moves: seq<Move>, k: Keeper, e: Event)
    requires Moves(concurrent, NEW, j, name, moves, k) && j < |k.s.jobs| && Settled(k.s.jobs[j])
    requires Enabled(concurrent, k.s, e) && FailsToEnd(k, j, e)
    ensures AfterAct(concurrent, k, j, name, e).stranded <==> !Listed(k.queue, name) && !Waiting(k.pending)
  {
    MovesTracked(concurrent, NEW, j, name, moves, k);
    assert RunnerOk(k.s, k.last);
    if k.stranded {
      NotOverYet(k.s, k.last, k.unterminated);
    }
  }

  /** A run whose termination is under way has not asked for the next one, and is not over. */
  lemma NotOverYet(s: System, k: nat, spoiled: bool)
    requires k < |s.runners| && RunnerOk(s, k) && s.runners[k].pc.Wrapping? && s.runners[k].pc.local.pc.Terminating?
    requires Unkilled(s, k, spoiled) && s.runners[k].kills == 0
    ensures !R.EndsScheduled(s.runners[k].log) && !spoiled
  {
    if R.EndsScheduled(s.runners[k].log) {
      AskedIsLast(s, k);
    }
  }

  /** The job of a resting controller stays as it is, and its runners send nothing. */
  lemma ActKeepsForgotten(concurrent: nat, k: Keeper, j: nat, name: Bytes, e: Event)
    requires Tracked(concurrent, k, j, name) && Forgotten(k, j, name) && Possible(concurrent, k, j, name, Act(e))
    ensures Forgotten(AfterAct(concurrent, k, j, name, e), j, name)
  {
    RestingStays(concurrent, k, j, name, e);
    assert k.pending + [] == k.pending;
  }

  lemma RestingStays(concurrent: nat, k: Keeper, j: nat, name: Bytes, e: Event)
    requires Tracked(concurrent, k, j, name) && Resting(k, j) && Possible(concurrent, k, j, name, Act(e))
    ensures Emitted(concurrent, k.s, e, j) == [] && !Spawns(k, j, e) && !SetsUp(k, j, e)
    ensures var job, job' := k.s.jobs[j], Fire(concurrent, k.s, e).jobs[j];
            job'.ctl == job.ctl && job'.state == job.state && job'.inbox == job.inbox
  {
    assert JobOk(k.s, j);
    DetachedIsSilent(concurrent, k.s, e, j);
  }

  /** A job whose controller is attached to no runner sends nothing. */
  lemma DetachedIsSilent(concurrent: nat, s: System, e: Event, j: nat)
    requires Inv(concurrent, s) && Enabled(concurrent, s, e) && j < |s.jobs| && !Attached(s.jobs[j].ctl)
    ensures Emitted(concurrent, s, e, j) == []
  {
    if e.Advance? {
      assert RunnerOk(s, e.k);
    }
  }

  /** Only a command, a start-up or a reload gets a forgotten job out of this state. */
  lemma ForgottenStays(concurrent: nat, k: Keeper, j: nat, name: Bytes, move: Move)
    requires Tracked(concurrent, k, j, name) && Forgotten(k, j, name) && Possible(concurrent, k, j, name, move)
    requires !move.Command? && !move.Place?
    ensures Forgotten(Do(concurrent, k, j, name, move), j, name)
  {
    match move
    case Act(e) => ActKeepsForgotten(concurrent, k, j, name, e);
    case Take(_) => WaitingTail(k.pending);
    case Tick(now) => S.PoppedMeans(k.queue, now);
    case PlaceOther(time, other) => S.AddedMeans(k.queue, time, other);
    case RemoveOther(other) => S.RemovedMeans(k.queue, other);
    case _ =>
  }

  /** A command without an action, such as a ping, makes a resting job forgotten if and
      only if no message is about to schedule it again. */
  lemma PingForgetsIff(concurrent: nat, k: Keeper, j: nat, name: Bytes)
    requires Tracked(concurrent, k, j, name) && Resting(k, j)
    ensures Forgotten(Do(concurrent, k, j, name, Command(None)), j, name) <==> !Returning(k, j)
  {
    S.RemovedMeans(k.queue, name);
  }

  /** So does another job that is given the time at which the resting one is scheduled. */
  lemma EvictionForgetsIff(concurrent: nat, k: Keeper, j: nat, name: Bytes, time: int, other: Bytes)
    requires Tracked(concurrent, k, j, name) && Resting(k, j) && other != name && S.Entry(time, name) in k.queue.list
    ensures Forgotten(Do(concurrent, k, j, name, PlaceOther(time, other)), j, name) <==> !Returning(k, j)
  {
    S.AddedMeans(k.queue, time, other);
  }

  /** Five moves in a row. */
  lemma FiveMoves(
    concurrent: nat, j: nat, name: Bytes, k0: Keeper, m1: Move, k1: Keeper, m2: Move, k2: Keeper,
    m3: Move, k3: Keeper, m4: Move, k4: Keeper, m5: Move, k5: Keeper)
    requires Steps(concurrent, k0, k1, j, name, m1) && Steps(concurrent, k1, k2, j, name, m2)
    requires Steps(concurrent, k2, k3, j, name, m3) && Steps(concurrent, k3, k4, j, name, m4)
    requires Steps(concurrent, k4, k5, j, name, m5)
    ensures Moves(concurrent, k0, j, name, [m1, m2, m3, m4, m5], k5)
  {
    var moves := [m1, m2, m3, m4, m5];
    assert moves[1..][1..] == moves[2..] && moves[2..][1..] == moves[3..] && moves[3..][1..] == moves[4..];
    assert moves[4..][1..] == [];
    assert Moves(concurrent, k4, j, name, moves[4..], k5);
    assert Moves(concurrent, k3, j, name, moves[3..], k5);
    assert Moves(concurrent, k2, j, name, moves[2..], k5);
    assert Moves(concurrent, k1, j, name, moves[1..], k5);
  }

  predicate Steps(concurrent: nat, k: Keeper, k': Keeper, j: nat, name: Bytes, move: Move) {
    Possible(concurrent, k, j, name, move) && Do(concurrent, k, j, name, move) == k'
  }

  /** The run is over and its message was taken, but its controller still watches it. */
  predicate AlmostOver(k: Keeper, j: nat) {
    && j < |k.s.jobs| && k.s.jobs[j].ctl == Watching(k.last) && k.last < |k.s.runners|
    && k.s.runners[k.last].pc.Wrapping? && k.s.runners[k.last].pc.local.pc.Returned?
    && Asked(k)
  }

  /** A start command flushes the job's schedule and is sent. */
  lemma StartIsSent(concurrent: nat, k: Keeper, j: nat, name: Bytes) returns (k1: Keeper, k2: Keeper)
    requires Tracked(concurrent, k, j, name) && AlmostOver(k, j)
    requires k.s.jobs[j].inbox == [] && !k.starting && k.owed.None?
    ensures Steps(concurrent, k, k1, j, name, Command(Some(Start))) && Steps(concurrent, k1, k2, j, name, SendOwed)
    ensures Tracked(concurrent, k2, j, name) && AlmostOver(k2, j) && k2.s.jobs[j].inbox == [Start]
    ensures !Listed(k2.queue, name) && !k2.starting && k2.owed.None? && k2.last == k.last
  {
    k1 := ScheduleIsFlushed(concurrent, k, j, name);
    k2 := Do(concurrent, k1, j, name, SendOwed);
    MoveTracked(concurrent, k1, j, name, SendOwed);
    MoveKeepsInv(concurrent, k1, j, name, SendOwed);
  }

  lemma ScheduleIsFlushed(concurrent: nat, k: Keeper, j: nat, name: Bytes) returns (k1: Keeper)
    requires Tracked(concurrent, k, j, name) && AlmostOver(k, j) && k.owed.None?
    ensures Steps(concurrent, k, k1, j, name, Command(Some(Start)))
    ensures Tracked(concurrent, k1, j, name) && !Listed(k1.queue, name)
    ensures k1 == k.(queue := k1.queue, stranded := k1.stranded, owed := Some(Start))
  {
    S.RemovedMeans(k.queue, name);
    k1 := Do(concurrent, k, j, name, Command(Some(Start)));
    MoveTracked(concurrent, k, j, name, Command(Some(Start)));
    MoveKeepsInv(concurrent, k, j, name, Command(Some(Start)));
  }

  /** At this point the controller takes it for a start of the run that is over. */
  lemma StartIsSwallowed(concurrent: nat, k: Keeper, j: nat, name: Bytes) returns (k': Keeper)
    requires Tracked(concurrent, k, j, name) && AlmostOver(k, j) && k.s.jobs[j].inbox == [Start]
    ensures Steps(concurrent, k, k', j, name, Act(Receive(j)))
    ensures Tracked(concurrent, k', j, name) && AlmostOver(k', j) && k'.s.jobs[j].inbox == []
    ensures k'.queue == k.queue && k'.starting == k.starting && k'.owed == k.owed && k'.last == k.last
  {
    assert [Start][1..] == [];
    assert k.pending + [] == k.pending;
    k' := Do(concurrent, k, j, name, Act(Receive(j)));
    MoveTracked(concurrent, k, j, name, Act(Receive(j)));
    MoveKeepsInv(concurrent, k, j, name, Act(Receive(j)));
  }

  lemma RunnerIsDone(concurrent: nat, k: Keeper, j: nat, name: Bytes) returns (k': Keeper)
    requires Tracked(concurrent, k, j, name) && AlmostOver(k, j) && k.s.jobs[j].inbox == []
    ensures Steps(concurrent, k, k', j, name, Act(CloseDone(k.last)))
    ensures k'.s.jobs == k.s.jobs && |k'.s.runners| == |k.s.runners| && k'.s.runners[k.last].doneClosed
    ensures k' == k.(s := k'.s)
  {
    assert JobOk(k.s, j) && RunnerOk(k.s, k.last);
    assert k.pending + [] == k.pending;
    k' := Do(concurrent, k, j, name, Act(CloseDone(k.last)));
  }

  lemma DoneIsSeen(concurrent: nat, k: Keeper, j: nat, name: Bytes) returns (k': Keeper)
    requires j < |k.s.jobs| && k.s.jobs[j].ctl == Watching(k.last) && k.last < |k.s.runners|
    requires k.s.jobs[j].state.Ready? && k.s.jobs[j].inbox == [] && k.s.runners[k.last].doneClosed
    ensures Steps(concurrent, k, k', j, name, Act(SeeDone(j)))
    ensures !k.starting && k.owed.None? ==> Resting(k', j)
    ensures k'.pending == k.pending && k'.queue == k.queue
  {
    assert k.pending + [] == k.pending;
    k' := Do(concurrent, k, j, name, Act(SeeDone(j)));
  }

  /** A start command that comes too early: it flushes the schedule of the run that is just
      over, is swallowed by that run's controller, and the job is forgotten. */
  lemma EarlyStartForgets(concurrent: nat, k: Keeper, j: nat, name: Bytes) returns (moves: seq<Move>, k': Keeper)
    requires Tracked(concurrent, k, j, name) && AlmostOver(k, j)
    requires k.s.jobs[j].inbox == [] && !k.starting && k.owed.None?
    ensures moves == [Command(Some(Start)), SendOwed, Act(Receive(j)), Act(CloseDone(k.last)), Act(SeeDone(j))]
    ensures Moves(concurrent, k, j, name, moves, k') && Forgotten(k', j, name)
  {
    var k1, k2 := StartIsSent(concurrent, k, j, name);
    var k3 := StartIsSwallowed(concurrent, k2, j, name);
    var k4 := RunnerIsDone(concurrent, k3, j, name);
    k' := DoneIsSeen(concurrent, k4, j, name);
    FiveMoves(concurrent, j, name, k, Command(Some(Start)), k1, SendOwed, k2, Act(Receive(j)), k3,
      Act(CloseDone(k.last)), k4, Act(SeeDone(j)), k');
    moves := [Command(Some(Start)), SendOwed, Act(Receive(j)), Act(CloseDone(k.last)), Act(SeeDone(j))];
  }

  // ---------------------------------------------------------------- a run that forgets its job

  /** What holds of every keeper that one job can bring about, with one token in all. */
  ghost predicate Closed(holds: Keeper -> bool, name: Bytes) {
    forall k, move :: holds(k) && Possible(1, k, 0, name, move) ==> holds(Do(1, k, 0, name, move))
  }

  lemma Moved(holds: Keeper -> bool, name: Bytes, k: Keeper, move: Move, k': Keeper)
    requires Closed(holds, name) && holds(k) && Steps(1, k, k', 0, name, move)
    ensures holds(k')
  {
  }

  /** A step of the engine that sends `more` and has no other effect on the account. */
  lemma Sends(holds: Keeper -> bool, name: Bytes, k: Keeper, e: Event, s': System, more: seq<R.Message>)
    requires Closed(holds, name) && holds(k) && !(e.Send? && e.j == 0)
    requires Enabled(1, k.s, e) && Fire(1, k.s, e) == s' && Emitted(1, k.s, e, 0) == more
    requires !Spawns(k, 0, e) && !SetsUp(k, 0, e) && !FailsToEnd(k, 0, e)
    ensures holds(k.(s := s', pending := k.pending + more))
  {
    Moved(holds, name, k, Act(e), AfterAct(1, k, 0, name, e));
  }

  lemma Silent(holds: Keeper -> bool, name: Bytes, k: Keeper, e: Event, s': System)
    requires Closed(holds, name) && holds(k) && !(e.Send? && e.j == 0)
    requires Enabled(1, k.s, e) && Fire(1, k.s, e) == s' && Emitted(1, k.s, e, 0) == []
    requires !Spawns(k, 0, e) && !SetsUp(k, 0, e) && !FailsToEnd(k, 0, e)
    ensures holds(k.(s := s'))
  {
    Sends(holds, name, k, e, s', []);
    assert k.pending + [] == k.pending;
  }

  /** One attempt and no hooks. */
  const PARAMS := R.Params(1, 0)

  function With(ctl: Ctl, state: JobState, inbox: seq<Action>, rs: seq<Runner>, tokens: nat): System {
    System([Job(ctl, state, inbox, false, false, 0, PARAMS)], rs, tokens)
  }

  /** The job's runner is in its run. */
  function Running(pc: R.Pc, log: seq<R.Message>): System {
    With(Watching(0), Ready, [], [Runner(0, PARAMS, Wrapping(R.Local(pc, log)), ByToken, 0, 0, false, log)], 1)
  }

  /** A command starts the job. */
  lemma IsStarted(holds: Keeper -> bool, name: Bytes)
    requires Closed(holds, name) && holds(NEW)
    ensures holds(NEW.(s := With(TopOfLoop, Ready, [], [], 0)))
  {
    var s0, s1 := With(Off, StateNone, [], [], 0), With(TopOfLoop, StateNone, [], [], 0);
    var s2, s3 := With(Idle, StateNone, [], [], 0), With(Idle, StateNone, [Start], [], 0);
    assert holds(NEW.(s := s0)) by {
      assert NEW.pending + [] == NEW.pending;
      Moved(holds, name, NEW, Act(NewJob(PARAMS)), NEW.(s := s0));
    }
    assert holds(NEW.(s := s1)) by { Silent(holds, name, NEW.(s := s0), StartRun(0), s1); }
    assert holds(NEW.(s := s2)) by { Silent(holds, name, NEW.(s := s1), Check(0), s2); }
    assert holds(NEW.(s := s2, owed := Some(Start))) by {
      Moved(holds, name, NEW.(s := s2), Command(Some(Start)), NEW.(s := s2, owed := Some(Start)));
    }
    assert holds(NEW.(s := s3)) by {
      Moved(holds, name, NEW.(s := s2, owed := Some(Start)), SendOwed, NEW.(s := s3));
    }
    assert [Start][1..] == [];
    Silent(holds, name, NEW.(s := s3), Receive(0), With(TopOfLoop, Ready, [], [], 0));
  }

  /** The run is announced. */
  lemma IsAnnounced(holds: Keeper -> bool, name: Bytes)
    requires Closed(holds, name) && holds(NEW.(s := With(TopOfLoop, Ready, [], [], 0)))
    ensures holds(NEW.(s := Running(R.LoopTest(0), [R.PRE_SYNCING]), pending := [R.PRE_SYNCING]))
  {
    var s0, s1 := With(TopOfLoop, Ready, [], [], 0), With(Watching(0), Ready, [], [NewRunner(0, PARAMS)], 0);
    var s2, s3 := Running(R.Announce, []), Running(R.Hooks(R.PreJob, 0, 0, R.SyncOk), [R.PRE_SYNCING]);
    assert holds(NEW.(s := s1)) by {
      assert NEW.pending + [] == NEW.pending;
      Moved(holds, name, NEW.(s := s0), Act(Check(0)), NEW.(s := s1));
    }
    assert holds(NEW.(s := s2)) by { Silent(holds, name, NEW.(s := s1), TakeToken(0), s2); }
    assert [] + [R.PRE_SYNCING] == [R.PRE_SYNCING];
    assert holds(NEW.(s := s3, pending := [R.PRE_SYNCING])) by {
      Sends(holds, name, NEW.(s := s2), Advance(0, R.Go), s3, [R.PRE_SYNCING]);
    }
    Silent(holds, name, NEW.(s := s3, pending := [R.PRE_SYNCING]), Advance(0, R.Go),
      Running(R.LoopTest(0), [R.PRE_SYNCING]));
  }

  /** The provider is started. */
  lemma IsSyncing(holds: Keeper -> bool, name: Bytes)
    requires Closed(holds, name)
    requires holds(NEW.(s := Running(R.LoopTest(0), [R.PRE_SYNCING]), pending := [R.PRE_SYNCING]))
    ensures var log := [R.PRE_SYNCING, R.SYNCING]; holds(NEW.(s := Running(R.AwaitStart(0), log), pending := log))
  {
    var k := NEW.(pending := [R.PRE_SYNCING]);
    var s0, s1 := Running(R.LoopTest(0), k.pending), Running(R.Hooks(R.PreExec, 0, 0, R.SyncOk), k.pending);
    var s2 := Running(R.SendSyncing(0), k.pending);
    var log := [R.PRE_SYNCING, R.SYNCING];
    assert holds(k.(s := s1)) by { Silent(holds, name, k.(s := s0), Advance(0, R.Go), s1); }
    assert holds(k.(s := s2)) by { Silent(holds, name, k.(s := s1), Advance(0, R.Go), s2); }
    assert [R.PRE_SYNCING] + [R.SYNCING] == log;
    Sends(holds, name, k.(s := s2), Advance(0, R.Go), Running(R.AwaitStart(0), log), [R.SYNCING]);
  }

  /** It times out and cannot be terminated. */
  lemma IsNotTerminated(holds: Keeper -> bool, name: Bytes)
    requires Closed(holds, name)
    requires var log := [R.PRE_SYNCING, R.SYNCING]; holds(NEW.(s := Running(R.AwaitStart(0), log), pending := log))
    ensures var log := [R.PRE_SYNCING, R.SYNCING];
            holds(NEW.(s := Running(R.Returned, log), pending := log, unterminated := true, stranded := true))
  {
    var log := [R.PRE_SYNCING, R.SYNCING];
    var k := NEW.(pending := log);
    var s0, s1 := Running(R.AwaitStart(0), log), Running(R.AwaitSync(0, false), log);
    var s2, s3 := Running(R.Terminating(0, R.TimedOut), log), Running(R.Returned, log);
    assert holds(k.(s := s1)) by { Silent(holds, name, k.(s := s0), Advance(0, R.StartSeen), s1); }
    assert holds(k.(s := s2)) by { Silent(holds, name, k.(s := s1), Advance(0, R.Timeout), s2); }
    assert log + [] == log && !Waiting(log);
    Moved(holds, name, k.(s := s2), Act(Advance(0, R.TermFails)),
      k.(s := s3, unterminated := true, stranded := true));
  }

  /** The controller finds the run over, and the job rests. */
  lemma IsOver(holds: Keeper -> bool, name: Bytes, k: Keeper)
    requires Closed(holds, name) && holds(k)
    requires k.s == Running(R.Returned, [R.PRE_SYNCING, R.SYNCING])
    requires !Waiting(k.pending) && k.queue == S.EMPTY && !k.starting && k.owed.None?
    ensures exists k' ::
              && holds(k') && Forgotten(k', 0, name)
              && k'.unterminated == k.unterminated && k'.s.jobs[0].state.Ready?
  {
    var log := [R.PRE_SYNCING, R.SYNCING];
    var r := Runner(0, PARAMS, Releasing, ByToken, 0, 1, true, log);
    var s1, s2 := With(Watching(0), Ready, [], [r], 1), With(Idle, Ready, [], [r], 1);
    assert holds(k.(s := s1)) by { Silent(holds, name, k, CloseDone(0), s1); }
    Silent(holds, name, k.(s := s1), SeeDone(0), s2);
    assert Forgotten(k.(s := s2), 0, name);
  }

  ghost predicate Reachable(name: Bytes, k: Keeper) {
    exists moves :: Moves(1, NEW, 0, name, moves, k)
  }

  lemma {:induction false} MovesNext(
    concurrent: nat, k: Keeper, j: nat, name: Bytes, moves: seq<Move>, k': Keeper, move: Move)
    requires Moves(concurrent, k, j, name, moves, k') && Possible(concurrent, k', j, name, move)
    ensures Moves(concurrent, k, j, name, moves + [move], Do(concurrent, k', j, name, move))
    decreases |moves|
  {
    var longer := moves + [move];
    if moves == [] {
      assert longer[1..] == [];
    } else {
      assert longer[0] == moves[0] && longer[1..] == moves[1..] + [move];
      MovesNext(concurrent, Do(concurrent, k, j, name, moves[0]), j, name, moves[1..], k', move);
    }
  }

  lemma ReachableClosed(name: Bytes)
    ensures Closed(k => Reachable(name, k), name) && Reachable(name, NEW)
  {
    assert Moves(1, NEW, 0, name, [], NEW);
    forall k, move | Reachable(name, k) && Possible(1, k, 0, name, move)
      ensures Reachable(name, Do(1, k, 0, name, move))
    {
      var moves :| Moves(1, NEW, 0, name, moves, k);
      MovesNext(1, NEW, 0, name, moves, k, move);
    }
  }

  lemma SomeRunForgets(holds: Keeper -> bool, name: Bytes)
    requires Closed(holds, name) && holds(NEW)
    ensures exists k :: holds(k) && Forgotten(k, 0, name) && k.unterminated && k.s.jobs[0].state.Ready?
  {
    IsStarted(holds, name);
    IsAnnounced(holds, name);
    IsSyncing(holds, name);
    IsNotTerminated(holds, name);
    var log := [R.PRE_SYNCING, R.SYNCING];
    assert !Waiting(log);
    IsOver(holds, name, NEW.(s := Running(R.Returned, log), pending := log, unterminated := true, stranded := true));
  }

  /** From the beginning: a job is set up, started by a command, announced and started to
      sync; its provider times out and cannot be terminated; its run is over, and the
      job, though ready, is forgotten. */
  lemma UnterminatedRunForgets(name: Bytes) returns (moves: seq<Move>, k: Keeper)
    ensures Moves(1, NEW, 0, name, moves, k) && Forgotten(k, 0, name) && k.s.jobs[0].state.Ready? && k.unterminated
  {
    ReachableClosed(name);
    SomeRunForgets(k => Reachable(name, k), name);
    k :| Reachable(name, k) && Forgotten(k, 0, name) && k.unterminated && k.s.jobs[0].state.Ready?;
    moves :| Moves(1, NEW, 0, name, moves, k);
  }
}
