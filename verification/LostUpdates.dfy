/** What interleaved requests do to each other's writes (manager/server.go): exactly when
    a write puts back a field that it only copied, when a run is the same as one that
    serves its requests one after the other, and when no stored time moves back. */
module LostUpdates {
  import opened Bytes
  import opened Options
  import opened ManagerStatus
  import R = RunJob

  // ---------------------------------------------------------------- fields

  datatype Field = TheName | TheStatus | LastUpdate | LastStarted | LastEnded | Scheduled | Size

  /** Two records agree on a field. Sizes that say nothing count as the same. */
  predicate Same(a: MirrorStatus, b: MirrorStatus, f: Field) {
    match f
    case TheName => a.name == b.name
    case TheStatus => a.status == b.status
    case LastUpdate => a.lastUpdate == b.lastUpdate
    case LastStarted => a.lastStarted == b.lastStarted
    case LastEnded => a.lastEnded == b.lastEnded
    case Scheduled => a.scheduled == b.scheduled
    case Size => a.size == b.size || (!Meaningful(a.size) && !Meaningful(b.size))
  }

  /** The times that a request sets to its own reading of the clock. */
  predicate Starts(req: Request, read: Option<MirrorStatus>) {
    req.PostStatus? && req.msg.status.PreSyncing? && !Found(read).status.PreSyncing?
  }

  predicate Succeeds(req: Request) {
    req.PostStatus? && req.msg.status.Success?
  }

  predicate Ends(req: Request) {
    req.PostStatus? && (req.msg.status.Success? || req.msg.status.Failed?)
  }

  /** The fields that a request has no value for, and leaves to the record it read. */
  predicate Copies(req: Request, read: Option<MirrorStatus>, f: Field) {
    match req
    case PostStatus(_, msg) =>
      || (f.LastStarted? && !Starts(req, read))
      || (f.LastUpdate? && !Succeeds(req))
      || (f.LastEnded? && !Ends(req))
      || (f.Size? && !Meaningful(msg.size))
    case PostSchedule(_, _, _) => !f.Scheduled?
    case PostSize(_, _, _) => !f.Size?
    case Command(_, _, _) => !f.TheStatus?
  }

  /** The write of request `i` has a record to replace. */
  predicate Replaces(s: System, i: nat) {
    && Enabled(s, Write(i))
    && Outcome(s.requests[i].req, s.requests[i].read, s.requests[i].at).Some?
    && KeyOf(s.requests[i].req) in s.store
  }

  /** The record that the write of request `i` replaces. */
  function Stored(s: System, i: nat): MirrorStatus
    requires Replaces(s, i)
  {
    s.store[KeyOf(s.requests[i].req)]
  }

  /** The write undoes nothing: it does not store again a record that was deleted since
      the request read it, and each field that the request copied is stored as before. */
  ghost predicate LosesNothing(s: System, i: nat)
    requires Enabled(s, Write(i))
  {
    var p := s.requests[i];
    && (p.read.Some? && KeyOf(p.req) !in s.store ==> KeyOf(p.req) !in Fire(s, Write(i)).store)
    && (Replaces(s, i) ==>
          forall f :: Copies(p.req, p.read, f) ==> Same(Stored(s, i), Fire(s, Write(i)).store[KeyOf(p.req)], f))
  }

  /** What the request read is current: a record that it found and is to write is still
      there, and each field that the request copied is still as it was read. */
  ghost predicate ReadIsCurrent(s: System, i: nat)
    requires Enabled(s, Write(i))
  {
    var p := s.requests[i];
    && (p.read.Some? && Outcome(p.req, p.read, p.at).Some? ==> KeyOf(p.req) in s.store)
    && (Replaces(s, i) ==> forall f :: Copies(p.req, p.read, f) ==> Same(Stored(s, i), Found(p.read), f))
  }

  /** Exactly when a write loses an update, field by field and in any state. */
  lemma LosesNothingIff(s: System, i: nat)
    requires Enabled(s, Write(i))
    ensures LosesNothing(s, i) <==> ReadIsCurrent(s, i)
  {
    if Replaces(s, i) {
      var p := s.requests[i];
      var written := Fire(s, Write(i)).store[KeyOf(p.req)];
      forall f | Copies(p.req, p.read, f)
        ensures Same(written, Found(p.read), f)
      {
      }
    }
  }

  ghost predicate NothingLost(s: System, trace: seq<Event>)
    decreases |trace|
  {
    trace != [] && Enabled(s, trace[0]) ==>
      && (trace[0].Write? ==> LosesNothing(s, trace[0].i))
      && NothingLost(Fire(s, trace[0]), trace[1..])
  }

  ghost predicate ReadsAreCurrent(s: System, trace: seq<Event>)
    decreases |trace|
  {
    trace != [] && Enabled(s, trace[0]) ==>
      && (trace[0].Write? ==> ReadIsCurrent(s, trace[0].i))
      && ReadsAreCurrent(Fire(s, trace[0]), trace[1..])
  }

  /** On every run, flushes included: no update of any field is lost, and no deletion, if
      and only if every write finds the record that its request read, and in it the
      fields that the request copied as they were read. */
  lemma {:induction false} NothingLostIff(s: System, trace: seq<Event>)
    ensures NothingLost(s, trace) <==> ReadsAreCurrent(s, trace)
    decreases |trace|
  {
    if trace != [] && Enabled(s, trace[0]) {
      if trace[0].Write? {
        LosesNothingIff(s, trace[0].i);
      }
      NothingLostIff(Fire(s, trace[0]), trace[1..]);
    }
  }

  // ---------------------------------------------------------------- serial runs

  /** What a request decided by looking at its record, it would decide again. */
  predicate DecidesAlike(req: Request, read: Option<MirrorStatus>, cur: Option<MirrorStatus>) {
    match req
    case PostStatus(_, msg) => msg.status.PreSyncing? ==> Starts(req, read) == Starts(req, cur)
    case PostSchedule(_, _, next) =>
      read.Some? == cur.Some? && (Found(read).scheduled == next) == (Found(cur).scheduled == next)
    case PostSize(_, _, _) => read.Some? == cur.Some?
    case Command(_, _, _) => true
  }

  /** At its write, a request would find what it found at its read, as far as it looks. */
  ghost predicate SeesTheSame(s: System, i: nat)
    requires Enabled(s, Write(i))
  {
    var p := s.requests[i];
    var cur := Lookup(s.store, KeyOf(p.req));
    && DecidesAlike(p.req, p.read, cur)
    && forall f :: Copies(p.req, p.read, f) ==> Agree(Found(p.read), Found(cur), f)
  }

  /** The two records have the very same value in the field. */
  predicate Agree(a: MirrorStatus, b: MirrorStatus, f: Field) {
    Same(a, b, f) && (f.Size? ==> a.size == b.size)
  }

  lemma CopiesAgree(req: Request, read: Option<MirrorStatus>, cur: Option<MirrorStatus>, now: int)
    requires DecidesAlike(req, read, cur)
    requires forall f :: Copies(req, read, f) ==> Agree(Found(read), Found(cur), f)
    ensures Outcome(req, read, now) == Outcome(req, cur, now)
  {
    var a, b := Found(read), Found(cur);
    assert Copies(req, read, TheName) ==> Agree(a, b, TheName);
    assert Copies(req, read, TheStatus) ==> Agree(a, b, TheStatus);
    assert Copies(req, read, LastUpdate) ==> Agree(a, b, LastUpdate);
    assert Copies(req, read, LastStarted) ==> Agree(a, b, LastStarted);
    assert Copies(req, read, LastEnded) ==> Agree(a, b, LastEnded);
    assert Copies(req, read, Scheduled) ==> Agree(a, b, Scheduled);
    assert Copies(req, read, Size) ==> Agree(a, b, Size);
  }

  /** A request served at once, at its reading of the clock; or a flush. */
  datatype Service = Serve(req: Request, at: int) | FlushAll

  /** The services of a run, in the order of their writes. */
  function ServicesOf(s: System, trace: seq<Event>): seq<Service>
    decreases |trace|
  {
    if trace == [] || !Enabled(s, trace[0]) then []
    else
      (match trace[0]
       case Write(i) => [Serve(s.requests[i].req, s.requests[i].at)]
       case Flush => [FlushAll]
       case _ => [])
      + ServicesOf(Fire(s, trace[0]), trace[1..])
  }

  function AfterService(store: Store, service: Service): Store {
    match service
    case Serve(req, at) => Served(store, req, at)
    case FlushAll => map k | k in store && !store[k].status.Disabled? && store[k].name != [] :: store[k]
  }

  /** The store after the services, one after the other. */
  function AfterServices(store: Store, services: seq<Service>): Store
    decreases |services|
  {
    if services == [] then store else AfterServices(AfterService(store, services[0]), services[1..])
  }

  /** Every write of the trace sees the same as its read. */
  ghost predicate ReadsHold(s: System, trace: seq<Event>)
    decreases |trace|
  {
    trace != [] && Enabled(s, trace[0]) ==>
      && (trace[0].Write? ==> SeesTheSame(s, trace[0].i))
      && ReadsHold(Fire(s, trace[0]), trace[1..])
  }

  lemma WriteIsServed(s: System, i: nat)
    requires Enabled(s, Write(i)) && SeesTheSame(s, i)
    ensures Fire(s, Write(i)).store == Served(s.store, s.requests[i].req, s.requests[i].at)
  {
    var p := s.requests[i];
    CopiesAgree(p.req, p.read, Lookup(s.store, KeyOf(p.req)), p.at);
  }

  /** Interleaving does not show: when every write sees what its request read, the store
      is at the end the one of serving the requests whole, in the order of their writes. */
  lemma {:induction false} InterleavedIsSerial(s: System, trace: seq<Event>, s': System)
    requires Reaches(s, trace, s') && ReadsHold(s, trace)
    ensures s'.store == AfterServices(s.store, ServicesOf(s, trace))
    decreases |trace|
  {
    if trace != [] {
      var e, t := trace[0], Fire(s, trace[0]);
      InterleavedIsSerial(t, trace[1..], s');
      var rest := ServicesOf(t, trace[1..]);
      match e
      case Write(i) =>
        WriteIsServed(s, i);
        assert ServicesOf(s, trace) == [Serve(s.requests[i].req, s.requests[i].at)] + rest;
      case Flush =>
        assert ServicesOf(s, trace) == [FlushAll] + rest;
      case _ =>
        assert ServicesOf(s, trace) == [] + rest == rest;
    }
  }

  // ---------------------------------------------------------------- times

  predicate NotEarlier(r: MirrorStatus, r': MirrorStatus) {
    r.lastUpdate <= r'.lastUpdate && r.lastStarted <= r'.lastStarted && r.lastEnded <= r'.lastEnded
  }

  /** No time of a record that is stored before and after is moved back. */
  ghost predicate TimesKept(s: System, s': System) {
    forall k :: k in s.store && k in s'.store ==> NotEarlier(s.store[k], s'.store[k])
  }

  /** Since the request read its record nobody stored a later time that the request
      does not set; and the times it does set were not stored from a later reading. */
  predicate Timely(p: Pending, cur: MirrorStatus)
    requires p.Computed?
  {
    var was := Found(p.read);
    && cur.lastStarted <= (if Starts(p.req, p.read) then p.at else was.lastStarted)
    && cur.lastUpdate <= (if Succeeds(p.req) then p.at else was.lastUpdate)
    && cur.lastEnded <= (if Ends(p.req) then p.at else was.lastEnded)
  }

  /** The same for a record that was not moved back meanwhile: the times that the
      request does not set are still the ones it read. */
  predicate Untouched(p: Pending, cur: MirrorStatus)
    requires p.Computed?
  {
    var was := Found(p.read);
    && (if Starts(p.req, p.read) then cur.lastStarted <= p.at else cur.lastStarted == was.lastStarted)
    && (if Succeeds(p.req) then cur.lastUpdate <= p.at else cur.lastUpdate == was.lastUpdate)
    && (if Ends(p.req) then cur.lastEnded <= p.at else cur.lastEnded == was.lastEnded)
  }

  /** A write moves no stored time back exactly when the record it replaces is timely. */
  lemma WriteKeepsTimesIff(s: System, i: nat)
    requires Enabled(s, Write(i))
    ensures TimesKept(s, Fire(s, Write(i)))
            <==> (Replaces(s, i) ==> Timely(s.requests[i], s.store[KeyOf(s.requests[i].req)]))
  {
    var s', key := Fire(s, Write(i)), KeyOf(s.requests[i].req);
    if Replaces(s, i) && TimesKept(s, s') {
      assert NotEarlier(s.store[key], s'.store[key]);
    }
  }

  /** In particular, in every state that is reached, when the record is still the one that was read. */
  lemma UndisturbedWrite(s: System, i: nat)
    requires Inv(s) && Enabled(s, Write(i))
    requires Lookup(s.store, KeyOf(s.requests[i].req)) == s.requests[i].read
    ensures TimesKept(s, Fire(s, Write(i)))
  {
    assert s.requests[i] in s.requests;
    WriteKeepsTimesIff(s, i);
  }

  /** No step of the trace moves a stored time back. */
  ghost predicate NeverBack(s: System, trace: seq<Event>)
    decreases |trace|
  {
    trace != [] && Enabled(s, trace[0]) ==> TimesKept(s, Fire(s, trace[0])) && NeverBack(Fire(s, trace[0]), trace[1..])
  }

  /** Every write of the trace that replaces a record is timely. */
  ghost predicate WritesTimely(s: System, trace: seq<Event>)
    decreases |trace|
  {
    trace != [] && Enabled(s, trace[0]) ==>
      && (trace[0].Write? && Replaces(s, trace[0].i) ==>
            Timely(s.requests[trace[0].i], s.store[KeyOf(s.requests[trace[0].i].req)]))
      && WritesTimely(Fire(s, trace[0]), trace[1..])
  }

  /** On every run, flushes included: no stored time ever moves back if and only if
      every write is timely. */
  lemma {:induction false} NeverBackIff(s: System, trace: seq<Event>)
    ensures NeverBack(s, trace) <==> WritesTimely(s, trace)
    decreases |trace|
  {
    if trace != [] && Enabled(s, trace[0]) {
      if trace[0].Write? {
        WriteKeepsTimesIff(s, trace[0].i);
      }
      NeverBackIff(Fire(s, trace[0]), trace[1..]);
    }
  }

  /** Every write of the trace finds the times it does not set as they were read. */
  ghost predicate WritesUntouched(s: System, trace: seq<Event>)
    decreases |trace|
  {
    trace != [] && Enabled(s, trace[0]) ==>
      && (trace[0].Write? && Replaces(s, trace[0].i) ==>
            Untouched(s.requests[trace[0].i], s.store[KeyOf(s.requests[trace[0].i].req)]))
      && WritesUntouched(Fire(s, trace[0]), trace[1..])
  }

  /** No stored record is behind the zero one, and none behind what a request in flight has read of it. */
  ghost predicate Ahead(s: System) {
    && 0 <= s.now
    && (forall k :: k in s.store ==> NotEarlier(ZERO, s.store[k]))
    && (forall p :: p in s.requests && p.Computed? ==> 0 <= p.at)
    && (forall p :: p in s.requests && (p.HasRead? || p.Computed?) ==>
          && NotEarlier(ZERO, Found(p.read))
          && NotEarlier(Found(p.read), Found(Lookup(s.store, KeyOf(p.req)))))
  }

  lemma WriteKeepsAhead(s: System, i: nat)
    requires Ahead(s) && Enabled(s, Write(i)) && TimesKept(s, Fire(s, Write(i)))
    ensures Ahead(Fire(s, Write(i)))
  {
    var s', p := Fire(s, Write(i)), s.requests[i];
    assert p in s.requests;
    forall k | k in s'.store
      ensures NotEarlier(ZERO, s'.store[k])
    {
    }
    forall q | q in s'.requests && (q.HasRead? || q.Computed?)
      ensures q in s.requests
      ensures NotEarlier(Found(q.read), Found(Lookup(s'.store, KeyOf(q.req))))
    {
      var k := KeyOf(q.req);
      if k in s.store {
        assert NotEarlier(s.store[k], s'.store[k]);
      }
    }
  }

  lemma EventKeepsAhead(s: System, e: Event)
    requires Ahead(s) && Enabled(s, e) && !e.Flush? && TimesKept(s, Fire(s, e))
    ensures Ahead(Fire(s, e)) && forall k :: k in s.store ==> k in Fire(s, e).store
  {
    if e.Write? {
      WriteKeepsAhead(s, e.i);
    } else if e.Read? {
      var s' := Fire(s, e);
      assert s'.requests[e.i] in s'.requests;
    } else if e.Compute? {
      assert s.requests[e.i] in s.requests;
    }
  }

  /** Between two flushes: no stored time ever moves back if and only if every write
      finds the times that its request does not set just as the request read them;
      and then every record is at the end where it was at the start, or later. */
  lemma {:induction false} MonotoneRunsIff(s: System, trace: seq<Event>, s': System)
    requires Ahead(s) && Reaches(s, trace, s') && Flush !in trace
    ensures NeverBack(s, trace) <==> WritesUntouched(s, trace)
    ensures NeverBack(s, trace) ==> forall k :: k in s.store ==> k in s'.store && NotEarlier(s.store[k], s'.store[k])
    decreases |trace|
  {
    if trace != [] {
      var e, t := trace[0], Fire(s, trace[0]);
      if e.Write? {
        assert s.requests[e.i] in s.requests;
        WriteKeepsTimesIff(s, e.i);
      }
      if TimesKept(s, t) {
        EventKeepsAhead(s, e);
        MonotoneRunsIff(t, trace[1..], s');
      }
    }
  }

  // ---------------------------------------------------------------- runs that lose an update

  lemma {:induction false} ReachesNext(s: System, trace: seq<Event>, s': System, e: Event)
    requires Reaches(s, trace, s') && Enabled(s', e)
    ensures Reaches(s, trace + [e], Fire(s', e))
    decreases |trace|
  {
    var longer := trace + [e];
    if trace == [] {
      assert longer[1..] == [];
    } else {
      assert longer[0] == trace[0] && longer[1..] == trace[1..] + [e];
      ReachesNext(Fire(s, trace[0]), trace[1..], s', e);
    }
  }

  /** Two requests for the same record, of which the second overtakes the first. */
  function Overtaken(slow: Request, quick: Request, now: int): seq<Event> {
    [Arrive(slow), Arrive(quick), Read(0), Compute(0), Tick(now), Read(1), Compute(1), Write(1)]
  }

  /** The store when the slow request is about to write. */
  lemma OvertakenRun(r0: MirrorStatus, slow: Request, quick: Request, now: int)
    requires KeyOf(slow) == KeyOf(quick) && 0 <= now
    ensures var s0, key := System(0, map[KeyOf(slow) := r0], []), KeyOf(slow);
            Reaches(s0, Overtaken(slow, quick, now),
              System(now, Written(map[key := r0], key, Outcome(quick, Some(r0), now)),
                [Computed(slow, Some(r0), 0), Answered]))
  {
    var key, store := KeyOf(slow), map[KeyOf(slow) := r0];
    var s0, s1 := System(0, store, []), System(0, store, [Arrived(slow)]);
    assert [] + [Arrived(slow)] == [Arrived(slow)];
    assert Reaches(s0, [], s0);
    Extends(s0, [], s0, Arrive(slow), s1);
    var t1 := [] + [Arrive(slow)];
    var s2 := System(0, store, [Arrived(slow), Arrived(quick)]);
    Extends(s0, t1, s1, Arrive(quick), s2);
    var t2 := t1 + [Arrive(quick)];
    var s3 := System(0, store, [HasRead(slow, Some(r0)), Arrived(quick)]);
    Extends(s0, t2, s2, Read(0), s3);
    var t3 := t2 + [Read(0)];
    var s4 := System(0, store, [Computed(slow, Some(r0), 0), Arrived(quick)]);
    Extends(s0, t3, s3, Compute(0), s4);
    var t4 := t3 + [Compute(0)];
    QuickWrites(s0, t4, s4, r0, slow, quick, now);
    assert t4 + [Tick(now), Read(1), Compute(1), Write(1)] == Overtaken(slow, quick, now);
  }

  lemma Extends(s0: System, trace: seq<Event>, s: System, e: Event, s': System)
    requires Reaches(s0, trace, s) && Enabled(s, e) && Fire(s, e) == s'
    ensures Reaches(s0, trace + [e], s')
  {
    ReachesNext(s0, trace, s, e);
  }

  lemma QuickWrites(
    s0: System, trace: seq<Event>, s: System, r0: MirrorStatus, slow: Request, quick: Request, now: int)
    requires KeyOf(slow) == KeyOf(quick) && 0 <= now && Reaches(s0, trace, s)
    requires s == System(0, map[KeyOf(slow) := r0], [Computed(slow, Some(r0), 0), Arrived(quick)])
    ensures Reaches(s0, trace + [Tick(now), Read(1), Compute(1), Write(1)],
              System(now, Written(s.store, KeyOf(slow), Outcome(quick, Some(r0), now)),
                [Computed(slow, Some(r0), 0), Answered]))
  {
    var first := Computed(slow, Some(r0), 0);
    var s1, s2 := s.(now := now), System(now, s.store, [first, HasRead(quick, Some(r0))]);
    var s3 := System(now, s.store, [first, Computed(quick, Some(r0), now)]);
    var s4 := System(now, Written(s.store, KeyOf(slow), Outcome(quick, Some(r0), now)), [first, Answered]);
    Extends(s0, trace, s, Tick(now), s1);
    Extends(s0, trace + [Tick(now)], s1, Read(1), s2);
    Extends(s0, trace + [Tick(now)] + [Read(1)], s2, Compute(1), s3);
    Extends(s0, trace + [Tick(now)] + [Read(1)] + [Compute(1)], s3, Write(1), s4);
    assert trace + [Tick(now)] + [Read(1)] + [Compute(1)] + [Write(1)]
        == trace + [Tick(now), Read(1), Compute(1), Write(1)];
  }

  /** A schedule update that read the record before a success was written puts the old
      times back. */
  lemma LostUpdate(w: Bytes, m: Bytes) returns (trace: seq<Event>, s: System)
    ensures Reaches(System(0, map[Key(w, m) := ZERO.(name := m)], []), trace, s)
    ensures Key(w, m) in s.store && s.store[Key(w, m)].lastUpdate == 7
    ensures Enabled(s, Write(0)) && Fire(s, Write(0)).store[Key(w, m)].lastUpdate == 0
  {
    var r0 := ZERO.(name := m);
    var slow, success := PostSchedule(w, m, 9), PostStatus(w, r0.(status := R.Success));
    OvertakenRun(r0, slow, success, 7);
    trace := Overtaken(slow, success, 7);
    var store := map[Key(w, m) := r0][Key(w, m) := StatusAfter(success.msg, r0, 7)];
    s := System(7, store, [Computed(slow, Some(r0), 0), Answered]);
  }

  /** One that read the record before an operator disabled the mirror undoes the disable,
      so that a flush of disabled mirrors leaves it there; no time moves back. */
  lemma LostDisable(w: Bytes, m: Bytes) returns (trace: seq<Event>, s: System)
    requires m != []
    ensures Reaches(System(0, map[Key(w, m) := ZERO.(name := m)], []), trace, s)
    ensures Key(w, m) in s.store && s.store[Key(w, m)].status.Disabled? && Key(w, m) !in Fire(s, Flush).store
    ensures Enabled(s, Write(0)) && TimesKept(s, Fire(s, Write(0))) && !LosesNothing(s, 0)
    ensures Key(w, m) in Fire(Fire(s, Write(0)), Flush).store
  {
    var r0 := ZERO.(name := m);
    var slow, disable := PostSchedule(w, m, 9), Command(w, m, CmdDisable);
    OvertakenRun(r0, slow, disable, 0);
    trace := Overtaken(slow, disable, 0);
    var store := map[Key(w, m) := r0][Key(w, m) := r0.(status := R.Disabled)];
    s := System(0, store, [Computed(slow, Some(r0), 0), Answered]);
    assert Copies(slow, Some(r0), TheStatus) && Replaces(s, 0);
    assert !Same(Stored(s, 0), Fire(s, Write(0)).store[Key(w, m)], TheStatus);
  }

  /** A set-size request and a disable that both read the same record. */
  function BothRead(w: Bytes, m: Bytes, size: Bytes): seq<Event> {
    [Arrive(PostSize(w, m, size)), Arrive(Command(w, m, CmdDisable)), Read(0), Compute(0), Read(1), Compute(1)]
  }

  function AboutToWrite(r0: MirrorStatus, w: Bytes, m: Bytes, size: Bytes): System {
    System(0, map[Key(w, m) := r0],
      [Computed(PostSize(w, m, size), Some(r0), 0), Computed(Command(w, m, CmdDisable), Some(r0), 0)])
  }

  lemma BothReadRun(r0: MirrorStatus, w: Bytes, m: Bytes, size: Bytes)
    ensures Reaches(System(0, map[Key(w, m) := r0], []), BothRead(w, m, size), AboutToWrite(r0, w, m, size))
  {
    var store, sized, disable := map[Key(w, m) := r0], PostSize(w, m, size), Command(w, m, CmdDisable);
    var s0, s1 := System(0, store, []), System(0, store, [Arrived(sized)]);
    assert [] + [Arrived(sized)] == [Arrived(sized)];
    assert Reaches(s0, [], s0);
    Extends(s0, [], s0, Arrive(sized), s1);
    var s2 := System(0, store, [Arrived(sized), Arrived(disable)]);
    Extends(s0, [] + [Arrive(sized)], s1, Arrive(disable), s2);
    var t2 := [] + [Arrive(sized)] + [Arrive(disable)];
    var s3 := System(0, store, [HasRead(sized, Some(r0)), Arrived(disable)]);
    Extends(s0, t2, s2, Read(0), s3);
    var s4 := System(0, store, [Computed(sized, Some(r0), 0), Arrived(disable)]);
    Extends(s0, t2 + [Read(0)], s3, Compute(0), s4);
    var s5 := System(0, store, [Computed(sized, Some(r0), 0), HasRead(disable, Some(r0))]);
    Extends(s0, t2 + [Read(0)] + [Compute(0)], s4, Read(1), s5);
    Extends(s0, t2 + [Read(0)] + [Compute(0)] + [Read(1)], s5, Compute(1), AboutToWrite(r0, w, m, size));
    assert t2 + [Read(0)] + [Compute(0)] + [Read(1)] + [Compute(1)] == BothRead(w, m, size);
  }

  /** A set-size request that read the record before an operator disabled the mirror, and
      writes it after the disabled mirrors were flushed, brings the mirror back, enabled. */
  lemma UndoneFlush(r0: MirrorStatus, w: Bytes, m: Bytes, size: Bytes) returns (trace: seq<Event>, s: System)
    requires !r0.status.Disabled?
    ensures Reaches(System(0, map[Key(w, m) := r0], []), trace, s)
    ensures trace == BothRead(w, m, size) + [Write(1), Flush] && Key(w, m) !in s.store
    ensures Enabled(s, Write(0)) && !LosesNothing(s, 0)
    ensures var t := Fire(s, Write(0)); Key(w, m) in t.store && t.store[Key(w, m)] == r0.(size := size)
  {
    var s0, s1 := System(0, map[Key(w, m) := r0], []), AboutToWrite(r0, w, m, size);
    BothReadRun(r0, w, m, size);
    var s2 := Fire(s1, Write(1));
    s := Fire(s2, Flush);
    Extends(s0, BothRead(w, m, size), s1, Write(1), s2);
    Extends(s0, BothRead(w, m, size) + [Write(1)], s2, Flush, s);
    trace := BothRead(w, m, size) + [Write(1)] + [Flush];
    assert Key(w, m) in Fire(s, Write(0)).store;
  }
}
