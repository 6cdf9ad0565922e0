/** The running-flag protocol of the command and rsync providers: any number of `Run`
    and `Terminate` calls on one provider, in any interleaving
    (worker/cmd_provider.go, worker/rsync_provider.go, worker/base_provider.go). */
module Processes {
  import opened Options

  /** Where a call stands. A `Run` remembers the child it started. */
  datatype Call =
    | RunBegin                      // about to lock, in Start
    | RunLocked                     // about to test the running flag
    | RunStarting                   // has made its cmdJob, not yet a process
    | RunStarted(p: nat)            // has a process, flag not yet set
    | RunUnlock(p: nat)             // flag set, about to unlock
    | RunFailed                     // about to unlock and return an error
    | RunWaiting(p: nat)            // about to call Wait on the provider's cmdJob
    | RunWaitOn(p: nat)             // waits for the process of the cmdJob it read
    | RunReaped(p: nat)             // the process is gone, flag not yet cleared
    | TermBegin
    | TermLocked                    // about to test the running flag
    | TermSignal                    // about to signal the process of the cmdJob
    | TermUnlock
    | Returned

  /** The provider's cmdJob: none yet, made but without a process, or with one. */
  datatype Cmd = NoCmd | NotStarted | Child(p: nat)

  /** `alive` has an entry per process ever started. */
  datatype System = System(calls: seq<Call>, lock: Option<nat>, running: bool, cmd: Cmd, alive: seq<bool>)

  const EMPTY := System([], None, false, NoCmd, [])

  datatype Event =
    | CallRun
    | CallTerminate
    | Lock(i: nat)
    | TestFlag(i: nat)
    | StartFails(i: nat)
    | StartSucceeds(i: nat)
    | SetFlag(i: nat)
    | Unlock(i: nat)
    | EnterWait(i: nat)
    | Reap(i: nat)
    | ClearFlag(i: nat)
    | Signal(i: nat)
    | Exit(p: nat)

  predicate Enabled(s: System, e: Event) {
    match e
    case CallRun => true
    case CallTerminate => true
    case Lock(i) => i < |s.calls| && (s.calls[i].RunBegin? || s.calls[i].TermBegin?) && s.lock.None?
    case TestFlag(i) => i < |s.calls| && (s.calls[i].RunLocked? || s.calls[i].TermLocked?)
    case StartFails(i) => i < |s.calls| && s.calls[i].RunStarting?
    case StartSucceeds(i) => i < |s.calls| && s.calls[i].RunStarting?
    case SetFlag(i) => i < |s.calls| && s.calls[i].RunStarted?
    case Unlock(i) => i < |s.calls| && (s.calls[i].RunUnlock? || s.calls[i].RunFailed? || s.calls[i].TermUnlock?)
    case EnterWait(i) => i < |s.calls| && s.calls[i].RunWaiting?
    case Reap(i) => i < |s.calls| && s.calls[i].RunWaitOn? && (s.calls[i].p < |s.alive| ==> !s.alive[s.calls[i].p])
    case ClearFlag(i) => i < |s.calls| && s.calls[i].RunReaped?
    case Signal(i) => i < |s.calls| && s.calls[i].TermSignal?
    case Exit(p) => p < |s.alive| && s.alive[p]
  }

  function Fire(s: System, e: Event): System
    requires Enabled(s, e)
  {
    match e
    case CallRun => s.(calls := s.calls + [RunBegin])
    case CallTerminate => s.(calls := s.calls + [TermBegin])
    case Lock(i) =>
      s.(calls := s.calls[i := if s.calls[i].RunBegin? then RunLocked else TermLocked], lock := Some(i))
    case TestFlag(i) =>
      if s.calls[i].RunLocked? then
        if s.running then s.(calls := s.calls[i := RunFailed])
        else s.(calls := s.calls[i := RunStarting], cmd := NotStarted)
      else s.(calls := s.calls[i := if s.running then TermSignal else TermUnlock])
    case StartFails(i) => s.(calls := s.calls[i := RunFailed])
    case StartSucceeds(i) =>
      s.(calls := s.calls[i := RunStarted(|s.alive|)], cmd := Child(|s.alive|), alive := s.alive + [true])
    case SetFlag(i) => s.(calls := s.calls[i := RunUnlock(s.calls[i].p)], running := true)
    case Unlock(i) =>
      s.(calls := s.calls[i := if s.calls[i].RunUnlock? then RunWaiting(s.calls[i].p) else Returned], lock := None)
    case EnterWait(i) =>
      // the field is read without the lock
      s.(calls := s.calls[i := if s.cmd.Child? then RunWaitOn(s.cmd.p) else Returned])
    case Reap(i) => s.(calls := s.calls[i := RunReaped(s.calls[i].p)])
    case ClearFlag(i) => s.(calls := s.calls[i := Returned], running := false)
    // the process may exit at once, later, or only after the second signal: see Exit
    case Signal(i) => s.(calls := s.calls[i := TermUnlock])
    case Exit(p) => s.(alive := s.alive[p := false])
  }

  ghost predicate Reaches(s: System, trace: seq<Event>, s': System)
    decreases |trace|
  {
    if trace == [] then s == s'
    else Enabled(s, trace[0]) && Reaches(Fire(s, trace[0]), trace[1..], s')
  }

  // ---------------------------------------------------------------- invariant

  predicate HoldsLock(c: Call) {
    || c.RunLocked? || c.RunStarting? || c.RunStarted? || c.RunUnlock? || c.RunFailed?
    || c.TermLocked? || c.TermSignal? || c.TermUnlock?
  }

  /** A `Run` from the start of its process until it has cleared the flag. */
  predicate Owns(c: Call) {
    c.RunStarted? || c.RunUnlock? || c.RunWaiting? || c.RunWaitOn? || c.RunReaped?
  }

  /** `owner` is the one call that owns the process, if there is one. */
  ghost predicate OwnedBy(s: System, owner: Option<nat>) {
    && (s.lock.Some? ==> s.lock.value < |s.calls|)
    && (forall i :: 0 <= i < |s.calls| ==> (HoldsLock(s.calls[i]) <==> s.lock == Some(i)))
    && (owner.Some? ==> owner.value < |s.calls|)
    && (forall i :: 0 <= i < |s.calls| ==> (Owns(s.calls[i]) <==> owner == Some(i)))
    && (forall i :: 0 <= i < |s.calls| && s.calls[i].RunStarting? ==> owner.None?)
    && (forall i :: 0 <= i < |s.calls| && s.calls[i].TermSignal? ==> s.cmd.Child?)
    && (owner.None? ==> !s.running && forall p :: 0 <= p < |s.alive| ==> !s.alive[p])
    && (owner.Some? ==>
          var c := s.calls[owner.value];
          && c.p < |s.alive| && s.cmd == Child(c.p)
          && (s.running <==> !c.RunStarted?)
          && (forall p :: 0 <= p < |s.alive| && s.alive[p] ==> p == c.p && !c.RunReaped?))
  }

  function NextOwner(s: System, owner: Option<nat>, e: Event): Option<nat> {
    if e.StartSucceeds? then Some(e.i) else if e.ClearFlag? then None else owner
  }

  lemma LockEventKeepsOwner(s: System, owner: Option<nat>, e: Event)
    requires OwnedBy(s, owner) && Enabled(s, e) && (e.Lock? || e.TestFlag? || e.Unlock?)
    ensures OwnedBy(Fire(s, e), owner)
  {
  }

  lemma StartEventKeepsOwner(s: System, owner: Option<nat>, e: Event)
    requires OwnedBy(s, owner) && Enabled(s, e) && (e.StartFails? || e.StartSucceeds? || e.SetFlag?)
    ensures OwnedBy(Fire(s, e), NextOwner(s, owner, e))
  {
  }

  lemma WaitEventKeepsOwner(s: System, owner: Option<nat>, e: Event)
    requires OwnedBy(s, owner) && Enabled(s, e) && (e.EnterWait? || e.Reap? || e.ClearFlag? || e.Signal?)
    ensures OwnedBy(Fire(s, e), NextOwner(s, owner, e))
  {
  }

  lemma EventKeepsOwner(s: System, owner: Option<nat>, e: Event)
    requires OwnedBy(s, owner) && Enabled(s, e)
    ensures OwnedBy(Fire(s, e), NextOwner(s, owner, e))
  {
    if e.Lock? || e.TestFlag? || e.Unlock? {
      LockEventKeepsOwner(s, owner, e);
    } else if e.StartFails? || e.StartSucceeds? || e.SetFlag? {
      StartEventKeepsOwner(s, owner, e);
    } else if e.EnterWait? || e.Reap? || e.ClearFlag? || e.Signal? {
      WaitEventKeepsOwner(s, owner, e);
    }
  }

  lemma {:induction false} ReachableOwner(s: System, owner: Option<nat>, trace: seq<Event>, s': System)
    returns (owner': Option<nat>)
    requires OwnedBy(s, owner) && Reaches(s, trace, s')
    ensures OwnedBy(s', owner')
    decreases |trace|
  {
    owner' := owner;
    if trace != [] {
      EventKeepsOwner(s, owner, trace[0]);
      owner' := ReachableOwner(Fire(s, trace[0]), NextOwner(s, owner, trace[0]), trace[1..], s');
    }
  }

  // ---------------------------------------------------------------- safety

  /** In every interleaving at most one child process is alive, and none is when the
      lock is free and the flag is false. */
  lemma OneProcess(trace: seq<Event>, s: System)
    requires Reaches(EMPTY, trace, s)
    ensures forall p, q :: 0 <= p < |s.alive| && 0 <= q < |s.alive| && s.alive[p] && s.alive[q] ==> p == q
    ensures s.lock.None? && !s.running ==> forall p :: 0 <= p < |s.alive| ==> !s.alive[p]
  {
    var owner := ReachableOwner(EMPTY, None, trace, s);
  }

  /** What the test of the flag decides: a `Run` goes on to start a process exactly when the
      flag is false, and fails otherwise; a `Terminate` signals exactly when it is true. */
  lemma FlagDecides(s: System, i: nat)
    requires Enabled(s, TestFlag(i))
    ensures var call := Fire(s, TestFlag(i)).calls[i];
            && (s.calls[i].RunLocked? ==> call == if s.running then RunFailed else RunStarting)
            && (s.calls[i].TermLocked? ==> call == if s.running then TermSignal else TermUnlock)
  {
  }

  /** `Wait` finds the process that its own call started, though it reads the field
      without the lock; `Terminate` finds a started process, even when the flag was
      cleared after it tested it. */
  lemma CmdIsTheChild(trace: seq<Event>, s: System, i: nat)
    requires Reaches(EMPTY, trace, s) && i < |s.calls|
    ensures s.calls[i].RunWaiting? ==> s.cmd == Child(s.calls[i].p)
    ensures s.calls[i].TermSignal? ==> s.cmd.Child?
  {
    var owner := ReachableOwner(EMPTY, None, trace, s);
  }
}
