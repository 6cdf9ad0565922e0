/** The worker between its jobs and the manager: `runSchedule` takes the messages of a
    job one after the other and drops those that find the job neither ready nor
    halting (worker/worker.go). */
module StatusFilter {
  import opened JobEngine
  import opened JobStates
  import opened JobStreams
  import R = RunJob
  import M = ManagerStatus
  import A = Actions

  /** The engine, and for one job the messages that wait, those that were forwarded, how
      many were dropped, and how often a job was given a provider. */
  datatype Relay = Relay(
    s: System, pending: seq<R.Message>, forwarded: seq<R.Message>, dropped: nat, reloads: nat)

  const NEW := Relay(EMPTY, [], [], 0, 0)

  /** A step of the engine, or the worker takes the next message of the job. */
  datatype Move = Act(e: Event) | Take

  predicate Passes(state: JobState) {
    state.Ready? || state.Halting?
  }

  predicate Possible(concurrent: nat, w: Relay, j: nat, move: Move) {
    match move
    case Act(e) => Enabled(concurrent, w.s, e)
    case Take => w.pending != [] && j < |w.s.jobs|
  }

  function Do(concurrent: nat, w: Relay, j: nat, move: Move): Relay
    requires Possible(concurrent, w, j, move)
  {
    match move
    case Act(e) =>
      w.(s := Fire(concurrent, w.s, e), pending := w.pending + Emitted(concurrent, w.s, e, j),
         reloads := w.reloads + (if e.Reconfigure? then 1 else 0))
    case Take =>
      var rest := w.(pending := w.pending[1..]);
      if Passes(w.s.jobs[j].state) then rest.(forwarded := w.forwarded + [w.pending[0]])
      else rest.(dropped := w.dropped + 1)
  }

  /** `w'` is reached from `w` by these moves, in order. */
  ghost predicate Relays(concurrent: nat, w: Relay, j: nat, moves: seq<Move>, w': Relay)
    decreases |moves|
  {
    if moves == [] then w == w'
    else
      && Possible(concurrent, w, j, moves[0])
      && Relays(concurrent, Do(concurrent, w, j, moves[0]), j, moves[1..], w')
  }

  /** The steps of the engine alone. */
  function Acts(moves: seq<Move>): seq<Event> {
    if moves == [] then []
    else if moves[0].Act? then [moves[0].e] + Acts(moves[1..])
    else Acts(moves[1..])
  }

  /** Which messages pass: those that find the job ready or halting. */
  lemma TakeForwardsIff(concurrent: nat, w: Relay, j: nat)
    requires Possible(concurrent, w, j, Take)
    ensures var w', state := Do(concurrent, w, j, Take), w.s.jobs[j].state;
            && w'.s == w.s && w'.pending == w.pending[1..]
            && w'.forwarded
               == (if state == Ready || state == Halting then w.forwarded + [w.pending[0]] else w.forwarded)
            && (w'.dropped == w.dropped <==> state == Ready || state == Halting)
  {
  }

  /** The last messages of a run that is halted pass, until `Run` has returned and after. */
  lemma {:induction false} HaltedMessagesPass(
    concurrent: nat, before: seq<Event>, s: System, j: nat, after: seq<Event>, w: Relay)
    requires Reaches(concurrent, EMPTY, before, s) && Enabled(concurrent, s, Receive(j))
    requires s.jobs[j].ctl.Watching? && s.jobs[j].inbox[0].Halt?
    requires Reaches(concurrent, Fire(concurrent, s, Receive(j)), after, w.s) && A.Unbidden(after, j)
    requires Possible(concurrent, w, j, Take)
    ensures Do(concurrent, w, j, Take).forwarded == w.forwarded + [w.pending[0]]
  {
    A.EndIsCarriedOut(concurrent, before, s, j, after, w.s);
    TakeForwardsIff(concurrent, w, j);
  }

  // ---------------------------------------------------------------- nothing dropped

  lemma RegroupSent(f: seq<R.Message>, p: seq<R.Message>, more: seq<R.Message>, rest: seq<R.Message>)
    ensures f + (p + more) + rest == f + p + (more + rest)
  {
  }

  /** A message that is taken and passes moves from the ones that wait to the ones forwarded. */
  lemma TakeMoves(concurrent: nat, w: Relay, j: nat)
    requires Possible(concurrent, w, j, Take) && Do(concurrent, w, j, Take).dropped == w.dropped
    ensures var v := Do(concurrent, w, j, Take); v.forwarded + v.pending == w.forwarded + w.pending
  {
    assert w.pending == [w.pending[0]] + w.pending[1..];
  }

  /** As long as nothing is dropped, whatever was sent was forwarded or waits. */
  lemma {:induction false} RelayedIsSent(concurrent: nat, w: Relay, j: nat, moves: seq<Move>, w': Relay)
    requires Relays(concurrent, w, j, moves, w')
    ensures Reaches(concurrent, w.s, Acts(moves), w'.s) && w.dropped <= w'.dropped
    ensures w'.dropped == w.dropped ==>
              w'.forwarded + w'.pending == w.forwarded + w.pending + Sent(concurrent, w.s, Acts(moves), j)
    decreases |moves|, 1
  {
    if moves == [] {
      assert w.forwarded + w.pending + [] == w.forwarded + w.pending;
    } else if moves[0].Act? {
      RelayedAfterAct(concurrent, w, j, moves, w');
    } else {
      RelayedIsSent(concurrent, Do(concurrent, w, j, Take), j, moves[1..], w');
      if Do(concurrent, w, j, Take).dropped == w.dropped {
        TakeMoves(concurrent, w, j);
      }
    }
  }

  lemma {:induction false} RelayedAfterAct(concurrent: nat, w: Relay, j: nat, moves: seq<Move>, w': Relay)
    requires Relays(concurrent, w, j, moves, w') && moves != [] && moves[0].Act?
    ensures Reaches(concurrent, w.s, Acts(moves), w'.s) && w.dropped <= w'.dropped
    ensures w'.dropped == w.dropped ==>
              w'.forwarded + w'.pending == w.forwarded + w.pending + Sent(concurrent, w.s, Acts(moves), j)
    decreases |moves|, 0
  {
    var e, rest := moves[0].e, Acts(moves[1..]);
    RelayedIsSent(concurrent, Do(concurrent, w, j, moves[0]), j, moves[1..], w');
    assert Acts(moves)[0] == e && Acts(moves)[1..] == rest;
    var later := Sent(concurrent, Fire(concurrent, w.s, e), rest, j);
    RegroupSent(w.forwarded, w.pending, Emitted(concurrent, w.s, e, j), later);
  }

  lemma ApartPrefix(a: seq<R.Message>, b: seq<R.Message>)
    requires Apart(a + b)
    ensures Apart(a)
  {
    forall i | Announcement(a, i)
      ensures Announcement(a + b, i)
    {
    }
  }

  lemma ForwardedApart(concurrent: nat, moves: seq<Move>, w: Relay, j: nat)
    requires Relays(concurrent, NEW, j, moves, w) && w.dropped == 0
    requires forall k: nat :: k < |w.s.runners| ==> w.s.runners[k].params.retries >= 1
    ensures Apart(w.forwarded)
  {
    RelayedIsSent(concurrent, NEW, j, moves, w);
    SentApart(concurrent, Acts(moves), w.s, j);
    assert w.forwarded + w.pending == Sent(concurrent, EMPTY, Acts(moves), j);
    ApartPrefix(w.forwarded, w.pending);
  }

  /** In every interleaving of engine and worker in which no message was dropped, the
      record follows the job as far as its messages were taken. */
  lemma UndroppedRecord(concurrent: nat, moves: seq<Move>, w: Relay, j: nat, r: M.MirrorStatus, ds: seq<M.Delivery>)
    requires Relays(concurrent, NEW, j, moves, w) && w.dropped == 0
    requires forall k: nat :: k < |w.s.runners| ==> w.s.runners[k].params.retries >= 1
    requires !r.status.PreSyncing?
    requires Delivers(ds, w.forwarded)
    ensures M.LatestOf(ds, {R.PreSyncing}, r.lastStarted, M.Feed(r, ds).lastStarted)
  {
    ForwardedApart(concurrent, moves, w, j);
    RecordFollowsLog(w.forwarded, r, ds);
  }

  // ---------------------------------------------------------------- a reload between two announcements

  lemma {:induction false} RelaysNext(concurrent: nat, w: Relay, j: nat, moves: seq<Move>, w': Relay, move: Move)
    requires Relays(concurrent, w, j, moves, w') && Possible(concurrent, w', j, move)
    ensures Relays(concurrent, w, j, moves + [move], Do(concurrent, w', j, move))
    decreases |moves|
  {
    var longer := moves + [move];
    if moves == [] {
      assert longer[1..] == [];
    } else {
      assert longer[0] == moves[0] && longer[1..] == moves[1..] + [move];
      RelaysNext(concurrent, Do(concurrent, w, j, moves[0]), j, moves[1..], w', move);
    }
  }

  /** What holds of every relay that one job can bring about, with one token in all. */
  ghost predicate Closed(holds: Relay -> bool) {
    forall w, move :: holds(w) && Possible(1, w, 0, move) ==> holds(Do(1, w, 0, move))
  }

  /** An event of the engine that sends `more`. */
  lemma Acted(holds: Relay -> bool, w: Relay, e: Event, s': System, more: seq<R.Message>)
    requires Closed(holds) && holds(w) && !e.Reconfigure?
    requires Enabled(1, w.s, e) && Fire(1, w.s, e) == s' && Emitted(1, w.s, e, 0) == more
    ensures holds(w.(s := s', pending := w.pending + more))
  {
    assert Possible(1, w, 0, Act(e));
    assert holds(Do(1, w, 0, Act(e)));
  }

  lemma Silent(holds: Relay -> bool, w: Relay, e: Event, s': System)
    requires Closed(holds) && holds(w) && !e.Reconfigure?
    requires Enabled(1, w.s, e) && Fire(1, w.s, e) == s' && Emitted(1, w.s, e, 0) == []
    ensures holds(w.(s := s'))
  {
    Acted(holds, w, e, s', []);
    assert w.pending + [] == w.pending;
  }

  lemma Reloads(holds: Relay -> bool, w: Relay, e: Event, s': System)
    requires Closed(holds) && holds(w) && e.Reconfigure? && Enabled(1, w.s, e) && Fire(1, w.s, e) == s'
    ensures holds(w.(s := s', reloads := w.reloads + 1))
  {
    assert Possible(1, w, 0, Act(e));
    assert holds(Do(1, w, 0, Act(e)));
    assert w.pending + [] == w.pending;
  }

  lemma Taken(holds: Relay -> bool, w: Relay)
    requires Closed(holds) && holds(w) && |w.pending| == 1 && |w.s.jobs| > 0
    ensures holds(if Passes(w.s.jobs[0].state) then w.(pending := [], forwarded := w.forwarded + w.pending)
                  else w.(pending := [], dropped := w.dropped + 1))
  {
    assert Possible(1, w, 0, Take);
    assert holds(Do(1, w, 0, Take));
    assert w.pending[1..] == [] && [w.pending[0]] == w.pending;
  }

  /** One attempt and two hooks: the log limiter and one whose pre-job part can fail. */
  const PARAMS := R.Params(1, 2)

  /** The only job. */
  function Only(ctl: Ctl, state: JobState, inbox: seq<Action>, exited: bool): Job {
    Job(ctl, state, inbox, false, exited, 0, PARAMS)
  }

  function With(ctl: Ctl, state: JobState, inbox: seq<Action>, rs: seq<Runner>, tokens: nat): System {
    System([Only(ctl, state, inbox, false)], rs, tokens)
  }

  /** A runner of the job in its run. */
  function Running(pc: R.Pc, kills: nat, log: seq<R.Message>): Runner {
    Runner(0, PARAMS, Wrapping(R.Local(pc, log)), ByToken, kills, 0, false, log)
  }

  /** A runner of the job after its run: announced, killed in its second pre-job hook. */
  function Ended(pc: RunnerPc): Runner {
    Runner(0, PARAMS, pc, ByToken, 1, 1, true, [R.PRE_SYNCING, R.HOOK_FAILED])
  }

  /** About to call one of the pre-job hooks. */
  function PreJob(next: nat): R.Pc {
    R.Hooks(R.PreJob, 0, next, R.SyncOk)
  }

  lemma StartsFirst(holds: Relay -> bool)
    requires Closed(holds) && holds(NEW)
    ensures holds(NEW.(s := With(TopOfLoop, Ready, [], [], 0)))
  {
    var s0, s1 := With(Off, StateNone, [], [], 0), With(TopOfLoop, StateNone, [], [], 0);
    var s2, s3 := With(Idle, StateNone, [], [], 0), With(Idle, StateNone, [Start], [], 0);
    assert holds(NEW.(s := s0)) by { Silent(holds, NEW, NewJob(PARAMS), s0); }
    assert holds(NEW.(s := s1)) by { Silent(holds, NEW.(s := s0), StartRun(0), s1); }
    assert holds(NEW.(s := s2)) by { Silent(holds, NEW.(s := s1), Check(0), s2); }
    assert holds(NEW.(s := s3)) by { Silent(holds, NEW.(s := s2), Send(0, Start), s3); }
    assert [Start][1..] == [];
    Silent(holds, NEW.(s := s3), Receive(0), With(TopOfLoop, Ready, [], [], 0));
  }

  /** The first announcement is sent and forwarded. */
  lemma Announces(holds: Relay -> bool)
    requires Closed(holds) && holds(NEW.(s := With(TopOfLoop, Ready, [], [], 0)))
    ensures var s := With(Watching(0), Ready, [], [Running(PreJob(0), 0, [R.PRE_SYNCING])], 1);
            holds(NEW.(s := s, forwarded := [R.PRE_SYNCING]))
  {
    var s0, s1 := With(TopOfLoop, Ready, [], [], 0), With(Watching(0), Ready, [], [NewRunner(0, PARAMS)], 0);
    var s2 := With(Watching(0), Ready, [], [Running(R.Announce, 0, [])], 1);
    var s3 := With(Watching(0), Ready, [], [Running(PreJob(0), 0, [R.PRE_SYNCING])], 1);
    assert holds(NEW.(s := s1)) by { Silent(holds, NEW.(s := s0), Check(0), s1); }
    assert holds(NEW.(s := s2)) by { Silent(holds, NEW.(s := s1), TakeToken(0), s2); }
    assert [] + [R.PRE_SYNCING] == [R.PRE_SYNCING];
    assert holds(NEW.(s := s3, pending := [R.PRE_SYNCING])) by {
      Acted(holds, NEW.(s := s2), Advance(0, R.Go), s3, [R.PRE_SYNCING]);
    }
    Taken(holds, NEW.(s := s3, pending := [R.PRE_SYNCING]));
  }

  /** A disable arrives while the second pre-job hook runs. */
  lemma IsKilled(holds: Relay -> bool, w: Relay)
    requires Closed(holds) && holds(w)
    requires w.s == With(Watching(0), Ready, [], [Running(PreJob(0), 0, [R.PRE_SYNCING])], 1)
    ensures holds(w.(s := With(Joining(0, Disable), Disabled, [], [Running(PreJob(1), 1, [R.PRE_SYNCING])], 1)))
  {
    var r := Running(PreJob(1), 0, [R.PRE_SYNCING]);
    var s0 := With(Watching(0), Ready, [], [r], 1);
    var s1, s2 := With(Watching(0), Ready, [Disable], [r], 1), With(KillNext(0, Disable), Disabled, [], [r], 1);
    var s3 := With(Joining(0, Disable), Disabled, [], [Running(PreJob(1), 1, [R.PRE_SYNCING])], 1);
    assert holds(w.(s := s0)) by { Silent(holds, w, Advance(0, R.HookOk), s0); }
    assert holds(w.(s := s1)) by { Silent(holds, w.(s := s0), Send(0, Disable), s1); }
    assert [Disable][1..] == [];
    assert holds(w.(s := s2)) by { Silent(holds, w.(s := s1), Receive(0), s2); }
    Silent(holds, w.(s := s2), CloseKill(0), s3);
  }

  /** The hook fails, the run signals, and `Run` returns; the failure waits to be taken. */
  lemma FailsKilled(holds: Relay -> bool, w: Relay)
    requires Closed(holds) && holds(w) && w.pending == []
    requires w.s == With(Joining(0, Disable), Disabled, [], [Running(PreJob(1), 1, [R.PRE_SYNCING])], 1)
    ensures holds(w.(s := System([Only(Off, Disabled, [], true)], [Ended(Releasing)], 1), pending := [R.HOOK_FAILED]))
  {
    var v := w.(pending := [R.HOOK_FAILED]);
    var s1 := With(Joining(0, Disable), Disabled, [], [Running(R.Returned, 1, [R.PRE_SYNCING, R.HOOK_FAILED])], 1);
    var s2 := With(Joining(0, Disable), Disabled, [], [Ended(Releasing)], 1);
    var s3 := With(Leaving, Disabled, [], [Ended(Releasing)], 1);
    assert [R.PRE_SYNCING] + [R.HOOK_FAILED] == [R.PRE_SYNCING, R.HOOK_FAILED];
    assert w.pending + [R.HOOK_FAILED] == [R.HOOK_FAILED];
    assert holds(v.(s := s1)) by { Acted(holds, w, Advance(0, R.HookFails), s1, [R.HOOK_FAILED]); }
    assert holds(v.(s := s2)) by { Silent(holds, v.(s := s1), CloseDone(0), s2); }
    assert holds(v.(s := s3)) by { Silent(holds, v.(s := s2), Join(0), s3); }
    Silent(holds, v.(s := s3), Leave(0), System([Only(Off, Disabled, [], true)], [Ended(Releasing)], 1));
  }

  /** The reload brings the job back; only now the worker takes the failure, and drops it. */
  lemma ComesBack(holds: Relay -> bool, w: Relay)
    requires Closed(holds) && holds(w) && w.pending == [R.HOOK_FAILED] && w.dropped == 0 && w.reloads == 0
    requires w.s == System([Only(Off, Disabled, [], true)], [Ended(Releasing)], 1)
    ensures holds(Relay(With(TopOfLoop, StateNone, [], [Ended(Gone)], 0), [], w.forwarded, 1, 1))
  {
    var s1 := System([Only(Off, StateNone, [], true)], [Ended(Releasing)], 1);
    var s2 := With(TopOfLoop, StateNone, [], [Ended(Releasing)], 1);
    var v := w.(reloads := 1);
    assert holds(v.(s := s1)) by { Reloads(holds, w, Reconfigure(0, StateNone, PARAMS), s1); }
    assert holds(v.(s := s2)) by { Silent(holds, v.(s := s1), StartRun(0), s2); }
    assert holds(Relay(s2, [], w.forwarded, 1, 1)) by { Taken(holds, v.(s := s2)); }
    Silent(holds, Relay(s2, [], w.forwarded, 1, 1), GiveBack(0), With(TopOfLoop, StateNone, [], [Ended(Gone)], 0));
  }

  lemma StartsAgain(holds: Relay -> bool, w: Relay)
    requires Closed(holds) && holds(w) && w.s == With(TopOfLoop, StateNone, [], [Ended(Gone)], 0)
    ensures holds(w.(s := With(Watching(1), Ready, [], [Ended(Gone), NewRunner(0, PARAMS)], 0)))
  {
    var s1, s2 := With(Idle, StateNone, [], [Ended(Gone)], 0), With(Idle, StateNone, [Start], [Ended(Gone)], 0);
    var s3 := With(TopOfLoop, Ready, [], [Ended(Gone)], 0);
    assert holds(w.(s := s1)) by { Silent(holds, w, Check(0), s1); }
    assert holds(w.(s := s2)) by { Silent(holds, w.(s := s1), Send(0, Start), s2); }
    assert [Start][1..] == [];
    assert holds(w.(s := s3)) by { Silent(holds, w.(s := s2), Receive(0), s3); }
    Silent(holds, w.(s := s3), Check(0), With(Watching(1), Ready, [], [Ended(Gone), NewRunner(0, PARAMS)], 0));
  }

  lemma AnnouncesAgain(holds: Relay -> bool, w: Relay)
    requires Closed(holds) && holds(w) && w.pending == []
    requires w.s == With(Watching(1), Ready, [], [Ended(Gone), NewRunner(0, PARAMS)], 0)
    ensures var s := With(Watching(1), Ready, [], [Ended(Gone), Running(PreJob(0), 0, [R.PRE_SYNCING])], 1);
            holds(w.(s := s, forwarded := w.forwarded + [R.PRE_SYNCING]))
  {
    var s1 := With(Watching(1), Ready, [], [Ended(Gone), Running(R.Announce, 0, [])], 1);
    var s2 := With(Watching(1), Ready, [], [Ended(Gone), Running(PreJob(0), 0, [R.PRE_SYNCING])], 1);
    assert [] + [R.PRE_SYNCING] == [R.PRE_SYNCING];
    assert holds(w.(s := s1)) by { Silent(holds, w, TakeToken(1), s1); }
    assert holds(w.(s := s2, pending := [R.PRE_SYNCING])) by {
      Acted(holds, w.(s := s1), Advance(1, R.Go), s2, [R.PRE_SYNCING]);
    }
    Taken(holds, w.(s := s2, pending := [R.PRE_SYNCING]));
  }

  ghost predicate Reachable(w: Relay) {
    exists moves :: Relays(1, NEW, 0, moves, w)
  }

  lemma ReachableClosed()
    ensures Closed(w => Reachable(w)) && Reachable(NEW)
  {
    assert Relays(1, NEW, 0, [], NEW);
    forall w, move | Reachable(w) && Possible(1, w, 0, move)
      ensures Reachable(Do(1, w, 0, move))
    {
      var moves :| Relays(1, NEW, 0, moves, w);
      RelaysNext(1, NEW, 0, moves, w, move);
    }
  }

  lemma TwoAnnouncementsHold(holds: Relay -> bool)
    requires Closed(holds) && holds(NEW)
    ensures exists w ::
              holds(w) && w.forwarded == [R.PRE_SYNCING, R.PRE_SYNCING] && w.dropped == 1 && w.reloads == 1
  {
    StartsFirst(holds);
    Announces(holds);
    var s1 := With(Watching(0), Ready, [], [Running(PreJob(0), 0, [R.PRE_SYNCING])], 1);
    var w1 := NEW.(s := s1, forwarded := [R.PRE_SYNCING]);
    IsKilled(holds, w1);
    var w2 := w1.(s := With(Joining(0, Disable), Disabled, [], [Running(PreJob(1), 1, [R.PRE_SYNCING])], 1));
    FailsKilled(holds, w2);
    var w3 := w2.(s := System([Only(Off, Disabled, [], true)], [Ended(Releasing)], 1), pending := [R.HOOK_FAILED]);
    ComesBack(holds, w3);
    var w4 := Relay(With(TopOfLoop, StateNone, [], [Ended(Gone)], 0), [], [R.PRE_SYNCING], 1, 1);
    StartsAgain(holds, w4);
    AnnouncesAgain(holds, w4.(s := With(Watching(1), Ready, [], [Ended(Gone), NewRunner(0, PARAMS)], 0)));
  }

  ghost predicate Reconfigures(moves: seq<Move>) {
    exists move :: move in moves && move.Act? && move.e.Reconfigure?
  }

  lemma {:induction false} ReloadsCounted(concurrent: nat, w: Relay, j: nat, moves: seq<Move>, w': Relay)
    requires Relays(concurrent, w, j, moves, w') && w'.reloads > w.reloads
    ensures Reconfigures(moves)
    decreases |moves|
  {
    if !(moves[0].Act? && moves[0].e.Reconfigure?) {
      ReloadsCounted(concurrent, Do(concurrent, w, j, moves[0]), j, moves[1..], w');
      var move :| move in moves[1..] && move.Act? && move.e.Reconfigure?;
      assert move in moves;
    }
  }

  /** The start of the second of two announcements in a row is not recorded. */
  lemma SecondIsHidden(r: M.MirrorStatus, ds: seq<M.Delivery>)
    requires Delivers(ds, [R.PRE_SYNCING, R.PRE_SYNCING])
    requires !r.status.PreSyncing? && r.lastStarted < ds[0].time < ds[1].time
    ensures M.Feed(r, ds).lastStarted == ds[0].time
  {
    assert ds[..1] == [ds[0]] && ds[..1][..0] == [];
    assert M.Feed(r, []) == r && M.Feed(r, ds[..1]).lastStarted == ds[0].time;
    assert M.Feed(r, ds[..1]).status == R.PreSyncing;
  }

  /** A job that is reloaded during its second pre-job hook: the worker drops the failure
      of its first run, which waited during the reload; it forwards two announcements in
      a row; and at whatever times these are delivered, the start of the second run is
      not recorded. */
  lemma ReloadHidesStart(r: M.MirrorStatus) returns (moves: seq<Move>, w: Relay)
    requires !r.status.PreSyncing?
    ensures Relays(1, NEW, 0, moves, w) && Reconfigures(moves) && w.dropped == 1 && |w.forwarded| == 2
    ensures forall ds: seq<M.Delivery> :: Delivers(ds, w.forwarded) && r.lastStarted < ds[0].time < ds[1].time ==>
              M.Feed(r, ds).lastStarted == ds[0].time
  {
    ReachableClosed();
    TwoAnnouncementsHold(w => Reachable(w));
    w :| Reachable(w) && w.forwarded == [R.PRE_SYNCING, R.PRE_SYNCING] && w.dropped == 1 && w.reloads == 1;
    moves :| Relays(1, NEW, 0, moves, w);
    ReloadsCounted(1, NEW, 0, moves, w);
    forall ds: seq<M.Delivery> | Delivers(ds, w.forwarded) && r.lastStarted < ds[0].time < ds[1].time
      ensures M.Feed(r, ds).lastStarted == ds[0].time
    {
      SecondIsHidden(r, ds);
    }
  }
}
