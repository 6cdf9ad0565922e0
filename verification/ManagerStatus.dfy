/** The status protocol of manager/server.go: handlers that read a record under one
    lock section and write it back under another.

    Each handler is a method on the manager's store, proved against a function of the
    record it read. The same function then drives a system with any number of requests
    in flight, where reads and writes of different requests interleave. The zero time
    is 0 and the clock is never negative.
 */
module ManagerStatus {
  import opened Bytes
  import opened Options
  import R = RunJob

  datatype MirrorStatus = MirrorStatus(
    name: Bytes, status: R.SyncStatus,
    lastUpdate: int, lastStarted: int, lastEnded: int,
    scheduled: int, size: Bytes)

  /** The record that a failed lookup leaves in the variable. */
  const ZERO := MirrorStatus([], R.None, 0, 0, 0, 0, [])

  const UNKNOWN: Bytes := [117, 110, 107, 110, 111, 119, 110]

  lemma Spelled()
    ensures UNKNOWN == Ascii("unknown")
  {
  }

  datatype Key = Key(worker: Bytes, mirror: Bytes)

  datatype CmdVerb = CmdStart | CmdStop | CmdDisable | CmdRestart | CmdPing | CmdReload

  datatype Request =
    | PostStatus(worker: Bytes, msg: MirrorStatus)
    | PostSchedule(worker: Bytes, mirror: Bytes, next: int)
    | PostSize(worker: Bytes, mirror: Bytes, size: Bytes)
    | Command(worker: Bytes, mirror: Bytes, cmd: CmdVerb)

  function KeyOf(req: Request): Key {
    if req.PostStatus? then Key(req.worker, req.msg.name) else Key(req.worker, req.mirror)
  }

  predicate Meaningful(size: Bytes) {
    size != [] && size != UNKNOWN
  }

  /** The record a status message leaves, given the one it found. */
  function StatusAfter(msg: MirrorStatus, cur: MirrorStatus, now: int): MirrorStatus {
    msg.(
      lastStarted := if msg.status.PreSyncing? && !cur.status.PreSyncing? then now else cur.lastStarted,
      lastUpdate := if msg.status.Success? then now else cur.lastUpdate,
      lastEnded := if msg.status.Success? || msg.status.Failed? then now else cur.lastEnded,
      size := if Meaningful(cur.size) && !Meaningful(msg.size) then cur.size else msg.size)
  }

  /** The record a handler goes on with when its lookup failed is the zero one. */
  function Found(read: Option<MirrorStatus>): MirrorStatus {
    if read.Some? then read.value else ZERO
  }

  /** What a request writes, given what it read; nothing if it does not write. */
  function Outcome(req: Request, read: Option<MirrorStatus>, now: int): Option<MirrorStatus> {
    var cur := Found(read);
    match req
    case PostStatus(_, msg) => Some(StatusAfter(msg, cur, now))
    case PostSchedule(_, _, next) =>
      if read.None? || cur.scheduled == next then None else Some(cur.(scheduled := next))
    case PostSize(_, _, size) => if read.None? then None else Some(cur.(size := size))
    case Command(_, _, cmd) =>
      if cmd.CmdDisable? then Some(cur.(status := R.Disabled))
      else if cmd.CmdStop? then Some(cur.(status := R.Paused))
      else None
  }

  type Store = map<Key, MirrorStatus>

  function Lookup(store: Store, key: Key): Option<MirrorStatus> {
    if key in store then Some(store[key]) else None
  }

  function Written(store: Store, key: Key, record: Option<MirrorStatus>): Store {
    match record case None => store case Some(r) => store[key := r]
  }

  /** A request whose read and write nobody separates. */
  function Served(store: Store, req: Request, now: int): Store {
    Written(store, KeyOf(req), Outcome(req, Lookup(store, KeyOf(req)), now))
  }

  function ServedAll(store: Store, worker: Bytes, schedules: seq<(Bytes, int)>, now: int): Store {
    if schedules == [] then store
    else
      var n := |schedules| - 1;
      Served(ServedAll(store, worker, schedules[..n], now), PostSchedule(worker, schedules[n].0, schedules[n].1), now)
  }

  /** Outside of `keys` the stores are the same. */
  ghost predicate Unchanged(store: Store, store': Store, keys: set<Key>) {
    forall k :: k !in keys ==> (k in store' <==> k in store) && (k in store ==> store'[k] == store[k])
  }

  ghost predicate Mentioned(schedules: seq<(Bytes, int)>, mirror: Bytes) {
    exists i :: 0 <= i < |schedules| && schedules[i].0 == mirror
  }

  /** The last time that the list gives for the mirror is `next`. */
  ghost predicate LastNext(schedules: seq<(Bytes, int)>, mirror: Bytes, next: int) {
    exists i :: 0 <= i < |schedules| && schedules[i] == (mirror, next)
                && forall j :: i < j < |schedules| ==> schedules[j].0 != mirror
  }

  lemma NextMention(schedules: seq<(Bytes, int)>, mirror: Bytes)
    requires schedules != []
    ensures var n := |schedules| - 1;
            Mentioned(schedules, mirror) <==> schedules[n].0 == mirror || Mentioned(schedules[..n], mirror)
  {
    var n := |schedules| - 1;
    assert forall i :: 0 <= i < n ==> schedules[..n][i] == schedules[i];
  }

  lemma NextIsLast(schedules: seq<(Bytes, int)>, mirror: Bytes, next: int)
    requires schedules != []
    ensures var n := |schedules| - 1;
            && (schedules[n].0 == mirror ==> LastNext(schedules, mirror, schedules[n].1))
            && (schedules[n].0 != mirror && LastNext(schedules[..n], mirror, next) ==>
                  LastNext(schedules, mirror, next))
  {
    var n := |schedules| - 1;
    if schedules[n].0 == mirror {
      assert schedules[n] == (mirror, schedules[n].1);
    } else if LastNext(schedules[..n], mirror, next) {
      var i :| && 0 <= i < n && schedules[..n][i] == (mirror, next)
               && forall j :: i < j < n ==> schedules[..n][j].0 != mirror;
      assert schedules[i] == (mirror, next);
      assert forall j :: i < j < n ==> schedules[j].0 == schedules[..n][j].0;
    }
  }

  /** A list of schedules changes the times of the mirrors that it mentions and that are
      known, to the last one that it gives for each, and nothing else. */
  lemma {:induction false} ServedAllMeans(store: Store, worker: Bytes, schedules: seq<(Bytes, int)>, now: int)
    ensures var store' := ServedAll(store, worker, schedules, now);
            && store'.Keys == store.Keys
            && (forall k :: k in store && (k.worker != worker || !Mentioned(schedules, k.mirror)) ==>
                  store'[k] == store[k])
            && (forall k :: k in store && k.worker == worker && Mentioned(schedules, k.mirror) ==>
                  && LastNext(schedules, k.mirror, store'[k].scheduled)
                  && store'[k] == store[k].(scheduled := store'[k].scheduled))
  {
    if schedules != [] {
      var n := |schedules| - 1;
      ServedAllMeans(store, worker, schedules[..n], now);
      var front, store' := ServedAll(store, worker, schedules[..n], now), ServedAll(store, worker, schedules, now);
      forall k | k in store
        ensures k.worker != worker || !Mentioned(schedules, k.mirror) ==> store'[k] == store[k]
        ensures k.worker == worker && Mentioned(schedules, k.mirror) ==>
                  && LastNext(schedules, k.mirror, store'[k].scheduled)
                  && store'[k] == store[k].(scheduled := store'[k].scheduled)
      {
        NextMention(schedules, k.mirror);
        NextIsLast(schedules, k.mirror, front[k].scheduled);
      }
    }
  }

  // ---------------------------------------------------------------- the handlers

  class Manager {
    var store: Store
    var workers: set<Bytes>  // the registered ones

    method GetMirrorStatus(key: Key) returns (status: MirrorStatus, found: bool)
      ensures found <==> key in store
      ensures status == if found then store[key] else ZERO
    {
      if key in store {
        return store[key], true;
      }
      return ZERO, false;
    }

    method UpdateMirrorStatus(key: Key, status: MirrorStatus)
      modifies this`store
      ensures store == old(store)[key := status]
    {
      store := store[key := status];
    }

    method UpdateJobOfWorker(worker: Bytes, msg: MirrorStatus, now: int)
      modifies this`store
      ensures store == Served(old(store), PostStatus(worker, msg), now)
      ensures var key := Key(worker, msg.name);
              && store.Keys == old(store).Keys + {key} && Unchanged(old(store), store, {key})
              && store[key].name == msg.name && store[key].status == msg.status && store[key].scheduled == msg.scheduled
    {
      var status := msg;
      var curStatus, found := GetMirrorStatus(Key(worker, msg.name));
      if status.status.PreSyncing? && !curStatus.status.PreSyncing? {
        status := status.(lastStarted := now);
      } else {
        status := status.(lastStarted := curStatus.lastStarted);
      }
      if status.status.Success? {
        status := status.(lastUpdate := now);
      } else {
        status := status.(lastUpdate := curStatus.lastUpdate);
      }
      if status.status.Success? || status.status.Failed? {
        status := status.(lastEnded := now);
      } else {
        status := status.(lastEnded := curStatus.lastEnded);
      }
      if |curStatus.size| > 0 && curStatus.size != UNKNOWN {
        if |status.size| == 0 || status.size == UNKNOWN {
          status := status.(size := curStatus.size);
        }
      }
      UpdateMirrorStatus(Key(worker, msg.name), status);
    }

    method UpdateSchedulesOfWorker(worker: Bytes, schedules: seq<(Bytes, int)>, now: int)
      modifies this`store
      ensures store == ServedAll(old(store), worker, schedules, now)
      ensures store.Keys == old(store).Keys
      ensures forall k :: k in store && (k.worker != worker || !Mentioned(schedules, k.mirror)) ==>
                store[k] == old(store)[k]
      ensures forall k :: k in store && k.worker == worker && Mentioned(schedules, k.mirror) ==>
                && LastNext(schedules, k.mirror, store[k].scheduled)
                && store[k] == old(store)[k].(scheduled := store[k].scheduled)
    {
      var i := 0;
      while i < |schedules|
        invariant 0 <= i <= |schedules|
        invariant store == ServedAll(old(store), worker, schedules[..i], now)
      {
        var (mirror, next) := schedules[i];
        assert schedules[..i + 1][..i] == schedules[..i];
        var curStatus, found := GetMirrorStatus(Key(worker, mirror));
        if found && curStatus.scheduled != next {
          curStatus := curStatus.(scheduled := next);
          UpdateMirrorStatus(Key(worker, mirror), curStatus);
        }
        i := i + 1;
      }
      assert schedules[..i] == schedules;
      ServedAllMeans(old(store), worker, schedules, now);
    }

    method UpdateMirrorSize(worker: Bytes, mirror: Bytes, size: Bytes, now: int)
      modifies this`store
      ensures store == Served(old(store), PostSize(worker, mirror, size), now)
      ensures var key := Key(worker, mirror);
              && store.Keys == old(store).Keys && Unchanged(old(store), store, {key})
              && (key in store ==> store[key] == old(store)[key].(size := size))
    {
      var status, found := GetMirrorStatus(Key(worker, mirror));
      if !found {
        return;
      }
      // the guard as written is true of every size
      if |size| > 0 || size != UNKNOWN {
        status := status.(size := size);
      }
      UpdateMirrorStatus(Key(worker, mirror), status);
    }

    method HandleClientCmd(worker: Bytes, mirror: Bytes, cmd: CmdVerb, now: int)
      modifies this`store
      ensures store ==
              if worker != [] && worker in workers then Served(old(store), Command(worker, mirror, cmd), now)
              else old(store)
      ensures var key := Key(worker, mirror);
              && Unchanged(old(store), store, {key})
              && (worker == [] || worker !in workers || (!cmd.CmdStop? && !cmd.CmdDisable?) ==> store == old(store))
              && (worker != [] && worker in workers && (cmd.CmdStop? || cmd.CmdDisable?) ==>
                    && key in store && (cmd.CmdStop? ==> store[key].status == R.Paused)
                    && (cmd.CmdDisable? ==> store[key].status == R.Disabled)
                    && store[key]
                       == (if key in old(store) then old(store)[key] else ZERO).(status := store[key].status))
    {
      if worker == [] || worker !in workers {
        return;
      }
      var curStat, found := GetMirrorStatus(Key(worker, mirror));
      var changed := false;
      match cmd {
        case CmdDisable =>
          curStat := curStat.(status := R.Disabled);
          changed := true;
        case CmdStop =>
          curStat := curStat.(status := R.Paused);
          changed := true;
        case _ =>
      }
      if changed {
        UpdateMirrorStatus(Key(worker, mirror), curStat);
      }
    }
  }

  // ---------------------------------------------------------------- requests in flight

  datatype Pending =
    | Arrived(req: Request)
    | HasRead(req: Request, read: Option<MirrorStatus>)
    | Computed(req: Request, read: Option<MirrorStatus>, at: int)
    | Answered

  datatype System = System(now: int, store: Store, requests: seq<Pending>)

  datatype Event =
    | Tick(to: int)
    | Arrive(req: Request)
    | Read(i: nat)
    | Compute(i: nat)
    | Write(i: nat)
    | Flush

  predicate Enabled(s: System, e: Event) {
    match e
    case Tick(to) => to >= s.now
    case Arrive(_) => true
    case Read(i) => i < |s.requests| && s.requests[i].Arrived?
    case Compute(i) => i < |s.requests| && s.requests[i].HasRead?
    case Write(i) => i < |s.requests| && s.requests[i].Computed?
    case Flush => true
  }

  function Fire(s: System, e: Event): System
    requires Enabled(s, e)
  {
    match e
    case Tick(to) => s.(now := to)
    case Arrive(req) => s.(requests := s.requests + [Arrived(req)])
    case Read(i) =>
      var req := s.requests[i].req;
      s.(requests := s.requests[i := HasRead(req, Lookup(s.store, KeyOf(req)))])
    case Compute(i) =>
      var p := s.requests[i];
      s.(requests := s.requests[i := Computed(p.req, p.read, s.now)])
    case Write(i) =>
      var p := s.requests[i];
      s.(store := Written(s.store, KeyOf(p.req), Outcome(p.req, p.read, p.at)), requests := s.requests[i := Answered])
    case Flush =>
      s.(store := map k | k in s.store && !s.store[k].status.Disabled? && s.store[k].name != [] :: s.store[k])
  }

  ghost predicate Reaches(s: System, trace: seq<Event>, s': System)
    decreases |trace|
  {
    if trace == [] then s == s'
    else Enabled(s, trace[0]) && Reaches(Fire(s, trace[0]), trace[1..], s')
  }

  /** What readers may rely on in every stored record. */
  predicate TimesOk(r: MirrorStatus, now: int) {
    && r.lastUpdate <= r.lastEnded <= now
    && r.lastStarted <= now
    && (r.status.Success? ==> r.lastUpdate == r.lastEnded)
    && (r.status.Success? || r.status.Failed? ==> r.lastStarted <= r.lastEnded)
  }

  predicate MaybeOk(r: Option<MirrorStatus>, now: int) {
    r.Some? ==> TimesOk(r.value, now)
  }

  ghost predicate Inv(s: System) {
    && 0 <= s.now
    && (forall k :: k in s.store ==> TimesOk(s.store[k], s.now))
    && (forall p :: p in s.requests && p.HasRead? ==> MaybeOk(p.read, s.now))
    && (forall p :: p in s.requests && p.Computed? ==> 0 <= p.at <= s.now && MaybeOk(p.read, p.at))
  }

  lemma OutcomeOk(req: Request, read: Option<MirrorStatus>, now: int)
    requires MaybeOk(read, now) && 0 <= now
    ensures MaybeOk(Outcome(req, read, now), now)
  {
  }

  lemma {:induction false} EventKeepsInv(s: System, e: Event)
    requires Inv(s) && Enabled(s, e)
    ensures Inv(Fire(s, e))
  {
    if e.Compute? {
      assert s.requests[e.i] in s.requests;
    } else if e.Write? {
      var p := s.requests[e.i];
      assert p in s.requests;
      OutcomeOk(p.req, p.read, p.at);
    }
  }

  /** With any number of requests in flight, in any interleaving of their reads and
      writes, every stored record keeps its times in order. */
  lemma {:induction false} StoredTimesOk(s: System, trace: seq<Event>, s': System)
    requires Inv(s) && Reaches(s, trace, s')
    ensures Inv(s') && forall k :: k in s'.store ==> TimesOk(s'.store[k], s'.now)
    decreases |trace|
  {
    if trace != [] {
      EventKeepsInv(s, trace[0]);
      StoredTimesOk(Fire(s, trace[0]), trace[1..], s');
    }
  }

  // ---------------------------------------------------------------- streams of one worker

  datatype Delivery = Delivery(status: R.SyncStatus, time: int, size: Bytes)

  /** Status messages handled one after the other. */
  function Feed(r: MirrorStatus, ds: seq<Delivery>): MirrorStatus {
    if ds == [] then r
    else
      var d := ds[|ds| - 1];
      StatusAfter(r.(status := d.status, size := d.size), Feed(r, ds[..|ds| - 1]), d.time)
  }

  lemma {:induction false} FeedAppend(r: MirrorStatus, a: seq<Delivery>, b: seq<Delivery>)
    ensures Feed(r, a + b).status == Feed(Feed(r, a), b).status
    ensures Feed(r, a + b).lastStarted == Feed(Feed(r, a), b).lastStarted
  {
    if b == [] {
      assert a + b == a;
    } else {
      var n := |b| - 1;
      assert (a + b)[..|a + b| - 1] == a + b[..n];
      FeedAppend(r, a, b[..n]);
    }
  }

  /** `t` is the time of the last delivery whose status is in `which`, or `before` if there is none. */
  ghost predicate LatestOf(ds: seq<Delivery>, which: set<R.SyncStatus>, before: int, t: int) {
    || (t == before && forall d :: d in ds ==> d.status !in which)
    || (exists i :: 0 <= i < |ds| && ds[i].status in which && ds[i].time == t
                    && forall j :: i < j < |ds| ==> ds[j].status !in which)
  }

  lemma LatestOfNext(ds: seq<Delivery>, d: Delivery, which: set<R.SyncStatus>, before: int, t: int)
    requires LatestOf(ds, which, before, t)
    ensures LatestOf(ds + [d], which, before, if d.status in which then d.time else t)
  {
    var all := ds + [d];
    if d.status in which {
      assert all[|ds|] == d;
    } else if i :| 0 <= i < |ds| && ds[i].status in which && ds[i].time == t
                   && forall j :: i < j < |ds| ==> ds[j].status !in which {
      assert all[i] == ds[i];
    }
  }

  /** Whatever is delivered, `lastUpdate` is the time of the latest Success and
      `lastEnded` that of the latest Success or Failed. */
  lemma {:induction false} FeedTimes(r: MirrorStatus, ds: seq<Delivery>)
    ensures LatestOf(ds, {R.Success}, r.lastUpdate, Feed(r, ds).lastUpdate)
    ensures LatestOf(ds, {R.Success, R.Failed}, r.lastEnded, Feed(r, ds).lastEnded)
  {
    if ds != [] {
      var n := |ds| - 1;
      var front := Feed(r, ds[..n]);
      FeedTimes(r, ds[..n]);
      assert ds == ds[..n] + [ds[n]];
      LatestOfNext(ds[..n], ds[n], {R.Success}, r.lastUpdate, front.lastUpdate);
      LatestOfNext(ds[..n], ds[n], {R.Success, R.Failed}, r.lastEnded, front.lastEnded);
    }
  }

  /** The messages of one finished run, in order. */
  ghost predicate RunDelivered(ds: seq<Delivery>) {
    exists p: R.Params, log: seq<R.Message> ::
      && p.retries >= 1 && R.Stream(p, log) && |log| == |ds|
      && forall i :: 0 <= i < |ds| ==> ds[i].status == log[i].status
  }

  function Flatten(runs: seq<seq<Delivery>>): seq<Delivery> {
    if runs == [] then [] else Flatten(runs[..|runs| - 1]) + runs[|runs| - 1]
  }

  /** What the grammar gives: a run is announced by its first message only. */
  lemma AnnouncedOnce(ds: seq<Delivery>)
    requires RunDelivered(ds)
    ensures |ds| >= 2 && forall i :: 0 <= i < |ds| ==> (ds[i].status.PreSyncing? <==> i == 0)
  {
    var p: R.Params, log: seq<R.Message> :|
      && p.retries >= 1 && R.Stream(p, log) && |log| == |ds|
      && forall i :: 0 <= i < |ds| ==> ds[i].status == log[i].status;
    R.StreamFacts(p, log);
  }

  lemma {:induction false} FeedRun(r: MirrorStatus, ds: seq<Delivery>, n: nat)
    requires !r.status.PreSyncing? && 1 <= n <= |ds|
    requires forall i :: 0 <= i < |ds| ==> (ds[i].status.PreSyncing? <==> i == 0)
    ensures Feed(r, ds[..n]).lastStarted == ds[0].time
    ensures Feed(r, ds[..n]).status == ds[n - 1].status
  {
    assert ds[..n][..n - 1] == ds[..n - 1];
    if n > 1 {
      FeedRun(r, ds, n - 1);
    } else {
      assert ds[..0] == [];
    }
  }

  lemma {:induction false} FeedRunsStatus(r: MirrorStatus, runs: seq<seq<Delivery>>)
    requires !r.status.PreSyncing? && forall run :: run in runs ==> RunDelivered(run)
    ensures !Feed(r, Flatten(runs)).status.PreSyncing?
    ensures runs != [] ==> |runs[|runs| - 1]| >= 2 && Feed(r, Flatten(runs)).lastStarted == runs[|runs| - 1][0].time
  {
    if runs != [] {
      var n := |runs| - 1;
      var front, last := Flatten(runs[..n]), runs[n];
      assert last in runs;
      FeedRunsStatus(r, runs[..n]);
      FeedAppend(r, front, last);
      AnnouncedOnce(last);
      FeedRun(Feed(r, front), last, |last|);
      assert last[..|last|] == last;
    }
  }

  /** Any number of complete runs, delivered in order, leave `lastStarted` at the start
      of the latest run, `lastUpdate` at the latest Success and `lastEnded` at the
      latest Success or Failed. */
  lemma {:induction false} FeedRuns(r: MirrorStatus, runs: seq<seq<Delivery>>)
    requires !r.status.PreSyncing? && runs != [] && forall run :: run in runs ==> RunDelivered(run)
    ensures runs[|runs| - 1] != []
    ensures var f, ds := Feed(r, Flatten(runs)), Flatten(runs);
            && f.lastStarted == runs[|runs| - 1][0].time
            && LatestOf(ds, {R.Success}, r.lastUpdate, f.lastUpdate)
            && LatestOf(ds, {R.Success, R.Failed}, r.lastEnded, f.lastEnded)
  {
    FeedRunsStatus(r, runs);
    FeedTimes(r, Flatten(runs));
  }

  /** Two announcements never follow each other directly; then `lastStarted` is the
      time of the latest one. */
  lemma {:induction false} FeedStarted(r: MirrorStatus, ds: seq<Delivery>)
    requires !r.status.PreSyncing?
    requires forall i :: 0 < i < |ds| && ds[i].status.PreSyncing? ==> !ds[i - 1].status.PreSyncing?
    ensures LatestOf(ds, {R.PreSyncing}, r.lastStarted, Feed(r, ds).lastStarted)
  {
    if ds != [] {
      var n := |ds| - 1;
      var front := Feed(r, ds[..n]);
      FeedStarted(r, ds[..n]);
      FeedStatus(r, ds[..n]);
      assert ds == ds[..n] + [ds[n]];
      LatestOfNext(ds[..n], ds[n], {R.PreSyncing}, r.lastStarted, front.lastStarted);
    }
  }

  /** The status is that of the last delivery. */
  lemma FeedStatus(r: MirrorStatus, ds: seq<Delivery>)
    ensures Feed(r, ds).status == if ds == [] then r.status else ds[|ds| - 1].status
  {
  }

  lemma {:induction false} StartedIsOld(r: MirrorStatus, ds: seq<Delivery>)
    ensures Feed(r, ds).lastStarted == r.lastStarted || exists d :: d in ds && d.time == Feed(r, ds).lastStarted
  {
    if ds != [] {
      StartedIsOld(r, ds[..|ds| - 1]);
    }
  }

  lemma {:induction false} StartedStays(r: MirrorStatus, ds: seq<Delivery>, i: nat)
    requires i <= |ds| && forall k :: i <= k < |ds| ==> !ds[k].status.PreSyncing?
    ensures Feed(r, ds).lastStarted == Feed(r, ds[..i]).lastStarted
  {
    if i == |ds| {
      assert ds[..i] == ds;
    } else {
      StartedStays(r, ds[..|ds| - 1], i);
      assert ds[..|ds| - 1][..i] == ds[..i];
    }
  }

  /** In any sequence of deliveries, as when the worker dropped some messages of a
      job that was paused meanwhile: the latest announcement sets `lastStarted` if and
      only if the record was not still in PreSyncing when it came. */
  lemma StartedIff(r: MirrorStatus, ds: seq<Delivery>, i: nat)
    requires i < |ds| && ds[i].status.PreSyncing?
    requires forall k :: i < k < |ds| ==> !ds[k].status.PreSyncing?
    requires r.lastStarted != ds[i].time && forall k :: 0 <= k < i ==> ds[k].time != ds[i].time
    ensures Feed(r, ds).lastStarted == ds[i].time <==> !(if i == 0 then r.status else ds[i - 1].status).PreSyncing?
  {
    StartedStays(r, ds, i + 1);
    StartedIsOld(r, ds[..i]);
    assert ds[..i + 1][..i] == ds[..i];
    if i > 0 {
      assert ds[..i][i - 1] == ds[i - 1];
    }
  }

  /** The latest known size among the deliveries, or the one known before them. */
  ghost predicate LatestSize(ds: seq<Delivery>, before: Bytes, size: Bytes) {
    || (Meaningful(before) && size == before && forall d :: d in ds ==> !Meaningful(d.size))
    || (exists i :: 0 <= i < |ds| && Meaningful(ds[i].size) && ds[i].size == size
                    && forall j :: i < j < |ds| ==> !Meaningful(ds[j].size))
  }

  lemma LatestSizeNext(ds: seq<Delivery>, d: Delivery, before: Bytes, size: Bytes)
    requires LatestSize(ds, before, size)
    ensures LatestSize(ds + [d], before, if Meaningful(d.size) then d.size else size)
  {
    var all := ds + [d];
    if Meaningful(d.size) {
      assert all[|ds|] == d;
    } else if i :| 0 <= i < |ds| && Meaningful(ds[i].size) && ds[i].size == size
                   && forall j :: i < j < |ds| ==> !Meaningful(ds[j].size) {
      assert all[i] == ds[i];
    }
  }

  /** A known size is never lost to deliveries that do not know it: the record has the
      latest known size, and none if and only if it was never known. */
  lemma {:induction false} FeedSize(r: MirrorStatus, ds: seq<Delivery>)
    ensures Meaningful(Feed(r, ds).size) <==> Meaningful(r.size) || exists d :: d in ds && Meaningful(d.size)
    ensures Meaningful(Feed(r, ds).size) ==> LatestSize(ds, r.size, Feed(r, ds).size)
  {
    if ds != [] {
      var n := |ds| - 1;
      var front := Feed(r, ds[..n]);
      FeedSize(r, ds[..n]);
      assert ds == ds[..n] + [ds[n]];
      if Meaningful(front.size) {
        LatestSizeNext(ds[..n], ds[n], r.size, front.size);
      } else if Meaningful(ds[n].size) {
        assert ds[n] in ds;
      }
    }
  }
}
