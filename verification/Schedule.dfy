/** The schedule queue of worker/schedule.go: an index by time plus a set of names.
    An entry stands for a job by its name; times are integers. */
module Schedule {
  import opened Bytes
  import opened Options

  datatype Entry = Entry(time: int, name: Bytes)

  // ---------------------------------------------------------------- the skip list

  /** The contract of the skip list: strictly increasing keys. */
  ghost predicate Ordered(l: seq<Entry>) {
    forall i, j :: 0 <= i < j < |l| ==> l[i].time < l[j].time
  }

  /** `Set`: a value at an occupied key replaces the old one. */
  function SetAt(l: seq<Entry>, e: Entry): seq<Entry> {
    if l == [] || e.time < l[0].time then [e] + l
    else if e.time == l[0].time then [e] + l[1..]
    else [l[0]] + SetAt(l[1..], e)
  }

  function DeleteAt(l: seq<Entry>, time: int): seq<Entry> {
    if l == [] then []
    else if l[0].time == time then l[1..]
    else [l[0]] + DeleteAt(l[1..], time)
  }

  lemma Cons(e: Entry, l: seq<Entry>)
    requires Ordered(l) && forall x :: x in l ==> e.time < x.time
    ensures Ordered([e] + l)
    ensures forall x :: x in [e] + l <==> x == e || x in l
  {
  }

  lemma Uncons(l: seq<Entry>)
    requires Ordered(l) && l != []
    ensures Ordered(l[1..]) && forall x :: x in l[1..] ==> l[0].time < x.time
    ensures forall x :: x in l <==> x == l[0] || x in l[1..]
  {
    assert l == [l[0]] + l[1..];
  }

  lemma {:induction false} SetAtMeans(l: seq<Entry>, e: Entry)
    requires Ordered(l)
    ensures Ordered(SetAt(l, e))
    ensures forall x :: x in SetAt(l, e) <==> x == e || (x in l && x.time != e.time)
  {
    if l == [] {
    } else {
      Uncons(l);
      if e.time < l[0].time {
        Cons(e, l);
      } else if e.time == l[0].time {
        Cons(e, l[1..]);
      } else {
        SetAtMeans(l[1..], e);
        Cons(l[0], SetAt(l[1..], e));
      }
    }
  }

  lemma {:induction false} DeleteAtMeans(l: seq<Entry>, time: int)
    requires Ordered(l)
    ensures Ordered(DeleteAt(l, time))
    ensures forall x :: x in DeleteAt(l, time) <==> x in l && x.time != time
  {
    if l != [] {
      Uncons(l);
      if l[0].time != time {
        DeleteAtMeans(l[1..], time);
        Cons(l[0], DeleteAt(l[1..], time));
      }
    }
  }

  // ---------------------------------------------------------------- the queue as a value

  datatype Queue = Queue(list: seq<Entry>, jobs: set<Bytes>)

  const EMPTY := Queue([], {})

  /** What every operation keeps, whatever times it is given: keys in order, each
      name at most once in the list, and every listed name in the set. The set may
      hold more names: an evicted job leaves its name there. */
  ghost predicate Valid(q: Queue) {
    && Ordered(q.list)
    && (forall e, f :: e in q.list && f in q.list && e.name == f.name ==> e == f)
    && (forall e :: e in q.list ==> e.name in q.jobs)
  }

  /** The first entry with that name. */
  function Find(l: seq<Entry>, name: Bytes): (r: Option<Entry>)
    ensures r.Some? ==> r.value in l && r.value.name == name
    ensures r.None? ==> forall e :: e in l ==> e.name != name
  {
    if l == [] then None
    else if l[0].name == name then Some(l[0])
    else Find(l[1..], name)
  }

  function Removed(q: Queue, name: Bytes): Queue {
    match Find(q.list, name)
    case None => q
    case Some(e) => Queue(DeleteAt(q.list, e.time), q.jobs - {name})
  }

  function Added(q: Queue, time: int, name: Bytes): Queue {
    var q' := if name in q.jobs then Removed(q, name) else q;
    Queue(SetAt(q'.list, Entry(time, name)), q'.jobs + {name})
  }

  function Popped(q: Queue, now: int): (Queue, Option<Bytes>) {
    if q.list == [] || q.list[0].time >= now then (q, None)
    else (Queue(DeleteAt(q.list, q.list[0].time), q.jobs - {q.list[0].name}), Some(q.list[0].name))
  }

  // ---------------------------------------------------------------- the queue as an object

  class ScheduleQueue {
    var list: seq<Entry>
    var jobs: set<Bytes>

    ghost function State(): Queue
      reads this
    {
      Queue(list, jobs)
    }

    constructor ()
      ensures State() == EMPTY
    {
      list, jobs := [], {};
    }

    /** Walks the list with a cursor. */
    method GetJobs() returns (infos: seq<Entry>)
      ensures infos == list
    {
      infos := [];
      var cur := 0;
      while cur < |list|
        invariant 0 <= cur <= |list| && infos == list[..cur]
      {
        infos := infos + [list[cur]];
        cur := cur + 1;
      }
    }

    method AddJob(schedTime: int, name: Bytes)
      modifies this
      ensures State() == Added(old(State()), schedTime, name)
      ensures jobs == old(jobs) + {name}
    {
      if name in jobs {
        var found := UnsafeRemove(name);
      }
      jobs := jobs + {name};
      list := SetAt(list, Entry(schedTime, name));
    }

    method Pop(now: int) returns (job: Option<Bytes>)
      modifies this
      ensures (State(), job) == Popped(old(State()), now)
      ensures jobs == if job.Some? then old(jobs) - {job.value} else old(jobs)
    {
      if list == [] {
        return None;
      }
      var first := list[0];
      if first.time < now {
        list := DeleteAt(list, first.time);
        jobs := jobs - {first.name};
        return Some(first.name);
      }
      return None;
    }

    method Remove(name: Bytes) returns (found: bool)
      modifies this
      ensures jobs == if found then old(jobs) - {name} else old(jobs)
      ensures State() == Removed(old(State()), name)
      ensures found == Find(old(list), name).Some?
    {
      found := UnsafeRemove(name);
    }

    method UnsafeRemove(name: Bytes) returns (found: bool)
      modifies this
      ensures jobs == if found then old(jobs) - {name} else old(jobs)
      ensures State() == Removed(old(State()), name)
      ensures found == Find(old(list), name).Some?
    {
      var cur := 0;
      assert list[0..] == list;
      while cur < |list|
        invariant 0 <= cur <= |list| && State() == old(State())
        invariant Find(list, name) == Find(list[cur..], name)
      {
        assert list[cur..][1..] == list[cur + 1..];
        if list[cur].name == name {
          list := DeleteAt(list, list[cur].time);
          jobs := jobs - {name};
          return true;
        }
        cur := cur + 1;
      }
      return false;
    }
  }

  // ---------------------------------------------------------------- invariants of every run

  lemma RemovedMeans(q: Queue, name: Bytes)
    requires Valid(q)
    ensures Valid(Removed(q, name))
    ensures forall e :: e in Removed(q, name).list <==> e in q.list && e.name != name
  {
    if Find(q.list, name).Some? {
      var t := Find(q.list, name).value;
      DeleteAtMeans(q.list, t.time);
      forall e | e in q.list
        ensures e.time == t.time <==> e.name == name
      {
        SameTime(q.list, e, t);
      }
    }
  }

  lemma SameTime(l: seq<Entry>, e: Entry, f: Entry)
    requires Ordered(l) && e in l && f in l
    ensures e.time == f.time ==> e == f
  {
    var i :| 0 <= i < |l| && l[i] == e;
    var j :| 0 <= j < |l| && l[j] == f;
    if i < j {
    } else if j < i {
    }
  }

  lemma AddedMeans(q: Queue, time: int, name: Bytes)
    requires Valid(q)
    ensures Valid(Added(q, time, name))
    ensures forall e :: e in Added(q, time, name).list <==>
              e == Entry(time, name) || (e in q.list && e.name != name && e.time != time)
  {
    var q' := if name in q.jobs then Removed(q, name) else q;
    RemovedMeans(q, name);
    SetAtMeans(q'.list, Entry(time, name));
  }

  lemma PoppedMeans(q: Queue, now: int)
    requires Valid(q)
    ensures Valid(Popped(q, now).0)
    ensures Popped(q, now).1.None? ==> Popped(q, now).0 == q && forall e :: e in q.list ==> e.time >= now
    ensures Popped(q, now).1.Some? ==>
              exists m :: m in q.list && m.name == Popped(q, now).1.value && m.time < now
                          && (forall e :: e in q.list ==> m.time <= e.time)
                          && (forall e :: e in Popped(q, now).0.list <==> e in q.list && e != m)
  {
    if q.list != [] {
      var m := q.list[0];
      DeleteAtMeans(q.list, m.time);
      forall e | e in q.list
        ensures e.time == m.time <==> e == m
        ensures m.time <= e.time
      {
        SameTime(q.list, e, m);
      }
    }
  }

  datatype Op = Add(time: int, name: Bytes) | Take(now: int) | Drop(name: Bytes)

  function Do(q: Queue, op: Op): Queue {
    match op
    case Add(time, name) => Added(q, time, name)
    case Take(now) => Popped(q, now).0
    case Drop(name) => Removed(q, name)
  }

  function DoAll(q: Queue, ops: seq<Op>): Queue {
    if ops == [] then q else Do(DoAll(q, ops[..|ops| - 1]), ops[|ops| - 1])
  }

  /** On every run of the queue, with no assumption on the times. */
  lemma {:induction false} EveryRunValid(ops: seq<Op>)
    ensures Valid(DoAll(EMPTY, ops))
  {
    if ops != [] {
      EveryRunValid(ops[..|ops| - 1]);
      var q := DoAll(EMPTY, ops[..|ops| - 1]);
      match ops[|ops| - 1]
      case Add(time, name) => AddedMeans(q, time, name);
      case Take(now) => PoppedMeans(q, now);
      case Drop(name) => RemovedMeans(q, name);
    }
  }

  /** An eviction leaves a name behind: the set is not the set of listed names. */
  lemma EvictionLeavesName(x: Bytes, y: Bytes, time: int)
    requires x != y
    ensures var q := DoAll(EMPTY, [Add(time, x), Add(time, y)]);
            q.list == [Entry(time, y)] && q.jobs == {x, y}
  {
    var ops := [Add(time, x), Add(time, y)];
    assert ops[..1] == [Add(time, x)] && ops[..1][..0] == [];
    assert DoAll(EMPTY, []) == EMPTY;
    assert DoAll(EMPTY, ops[..1]) == Queue([Entry(time, x)], {x});
  }

  // ---------------------------------------------------------------- refinement of a map

  /** The queue as a map from names to times. */
  ghost function Times(q: Queue): map<Bytes, int>
    requires Valid(q)
  {
    map e | e in q.list :: e.name := e.time
  }

  lemma TimesAt(q: Queue, e: Entry)
    requires Valid(q)
    ensures e in q.list <==> e.name in Times(q) && Times(q)[e.name] == e.time
  {
  }

  lemma TimesIs(q: Queue, m: map<Bytes, int>)
    requires Valid(q)
    requires forall e :: e in q.list <==> e.name in m && m[e.name] == e.time
    ensures Times(q) == m
  {
    forall x: Bytes
      ensures x in Times(q) <==> x in m
      ensures x in m ==> Times(q)[x] == m[x]
    {
      if x in m {
        assert Entry(m[x], x) in q.list;
        TimesAt(q, Entry(m[x], x));
      }
    }
  }

  /** The map after `AddJob`: the job's old time is forgotten, and so is whoever held the new one. */
  ghost function Reassigned(m: map<Bytes, int>, time: int, name: Bytes): map<Bytes, int> {
    (map x | x in m && m[x] != time :: m[x])[name := time]
  }

  lemma ReassignedIsUpdate(m: map<Bytes, int>, time: int, name: Bytes)
    ensures Reassigned(m, time, name) == m[name := time] <==> forall x :: x in m && x != name ==> m[x] != time
  {
    if x :| x in m && x != name && m[x] == time {
      assert x in m[name := time] && x !in Reassigned(m, time, name);
    }
  }

  /** What `AddJob` does to the map, exactly; it is a plain update of the map if and
      only if no other job holds that time. */
  lemma {:induction false} AddJobRefines(q: Queue, time: int, name: Bytes)
    requires Valid(q)
    ensures Valid(Added(q, time, name))
    ensures Times(Added(q, time, name)) == Reassigned(Times(q), time, name)
    ensures Times(Added(q, time, name)) == Times(q)[name := time]
            <==> forall x :: x in Times(q) && x != name ==> Times(q)[x] != time
  {
    AddedMeans(q, time, name);
    var q', m := Added(q, time, name), Reassigned(Times(q), time, name);
    forall e: Entry
      ensures e in q'.list <==> e.name in m && m[e.name] == e.time
    {
      TimesAt(q, e);
    }
    TimesIs(q', m);
    ReassignedIsUpdate(Times(q), time, name);
  }

  /** `Remove` is deletion, and says whether the name was scheduled. */
  lemma {:induction false} RemoveRefines(q: Queue, name: Bytes)
    requires Valid(q)
    ensures Valid(Removed(q, name)) && Times(Removed(q, name)) == Times(q) - {name}
    ensures Find(q.list, name).Some? <==> name in Times(q)
  {
    RemovedMeans(q, name);
    forall e: Entry
      ensures e in Removed(q, name).list <==> e.name in Times(q) - {name} && (Times(q) - {name})[e.name] == e.time
    {
      TimesAt(q, e);
    }
    TimesIs(Removed(q, name), Times(q) - {name});
  }

  /** `Pop` takes the job with the least time, exactly when that time is before `now`. */
  lemma {:induction false} PopRefines(q: Queue, now: int)
    requires Valid(q)
    ensures Valid(Popped(q, now).0)
    ensures Popped(q, now).1.Some? <==> exists x :: x in Times(q) && Times(q)[x] < now
    ensures match Popped(q, now).1
            case None => Popped(q, now).0 == q
            case Some(x) =>
              && x in Times(q) && (forall y :: y in Times(q) ==> Times(q)[x] <= Times(q)[y])
              && Times(Popped(q, now).0) == Times(q) - {x}
  {
    PoppedMeans(q, now);
    if Popped(q, now).1.Some? {
      PopTakesLeast(q, now);
    } else {
      forall x | x in Times(q)
        ensures Times(q)[x] >= now
      {
        TimesAt(q, Entry(Times(q)[x], x));
      }
    }
  }

  lemma PopTakesLeast(q: Queue, now: int)
    requires Valid(q) && Popped(q, now).1.Some? && Valid(Popped(q, now).0)
    ensures var x := Popped(q, now).1.value;
            && x in Times(q) && Times(q)[x] < now && (forall y :: y in Times(q) ==> Times(q)[x] <= Times(q)[y])
            && Times(Popped(q, now).0) == Times(q) - {x}
  {
    PoppedMeans(q, now);
    var q', x := Popped(q, now).0, Popped(q, now).1.value;
    var m :| m in q.list && m.name == x && m.time < now
             && (forall e :: e in q.list ==> m.time <= e.time)
             && (forall e :: e in q'.list <==> e in q.list && e != m);
    TimesAt(q, m);
    forall y | y in Times(q)
      ensures Times(q)[x] <= Times(q)[y]
    {
      TimesAt(q, Entry(Times(q)[y], y));
    }
    forall e: Entry
      ensures e in q'.list <==> e.name in Times(q) - {x} && (Times(q) - {x})[e.name] == e.time
    {
      TimesAt(q, e);
    }
    TimesIs(q', Times(q) - {x});
  }

  /** `GetJobs` lists the map, once each, in strictly increasing time order. */
  lemma GetJobsRefines(q: Queue)
    requires Valid(q)
    ensures Ordered(q.list)
    ensures forall e :: e in q.list <==> e.name in Times(q) && Times(q)[e.name] == e.time
    ensures forall i, j :: 0 <= i < j < |q.list| ==> q.list[i].name != q.list[j].name
  {
  }

  // ---------------------------------------------------------------- batches

  /** One `AddJob` per entry. */
  function AddAll(q: Queue, es: seq<Entry>): Queue {
    if es == [] then q
    else Added(AddAll(q, es[..|es| - 1]), es[|es| - 1].time, es[|es| - 1].name)
  }

  lemma AddAllNext(q: Queue, es: seq<Entry>, e: Entry)
    ensures AddAll(q, es + [e]) == Added(AddAll(q, es), e.time, e.name)
  {
    assert (es + [e])[..|es|] == es;
  }

  lemma {:induction false} AddAllJoins(q: Queue, a: seq<Entry>, b: seq<Entry>)
    ensures AddAll(q, a + b) == AddAll(AddAll(q, a), b)
  {
    if b == [] {
      assert a + b == a;
    } else {
      var n := |b| - 1;
      AddAllJoins(q, a, b[..n]);
      assert b == b[..n] + [b[n]] && a + b == (a + b[..n]) + [b[n]];
      AddAllNext(q, a + b[..n], b[n]);
    }
  }

  ghost predicate Mentions(es: seq<Entry>, name: Bytes) {
    exists e :: e in es && e.name == name
  }

  lemma MentionsJoin(a: seq<Entry>, b: seq<Entry>, name: Bytes)
    ensures Mentions(a + b, name) <==> Mentions(a, name) || Mentions(b, name)
  {
    if Mentions(a, name) || Mentions(b, name) {
      var e :| (e in a || e in b) && e.name == name;
      assert e in a + b;
    }
  }

  ghost predicate DistinctNames(es: seq<Entry>) {
    forall i, j :: 0 <= i < j < |es| ==> es[i].name != es[j].name
  }

  ghost predicate DistinctTimes(es: seq<Entry>) {
    forall i, j :: 0 <= i < j < |es| ==> es[i].time != es[j].time
  }

  lemma {:induction false} AddAllValid(q: Queue, es: seq<Entry>)
    requires Valid(q)
    ensures Valid(AddAll(q, es))
    ensures forall e :: e in AddAll(q, es).list ==> e in es || e in q.list
  {
    if es != [] {
      var n := |es| - 1;
      AddAllValid(q, es[..n]);
      AddedMeans(AddAll(q, es[..n]), es[n].time, es[n].name);
    }
  }

  lemma DistinctFront(es: seq<Entry>, n: nat)
    requires DistinctNames(es) && DistinctTimes(es) && n == |es| - 1
    ensures DistinctNames(es[..n]) && DistinctTimes(es[..n])
    ensures forall e :: e in es ==> e == es[n] || (e in es[..n] && e.name != es[n].name && e.time != es[n].time)
  {
    assert es == es[..n] + [es[n]];
  }

  lemma {:induction false} DistinctTimesStay(es: seq<Entry>)
    requires DistinctNames(es) && DistinctTimes(es)
    ensures forall e :: e in es ==> e in AddAll(EMPTY, es).list
  {
    if es != [] {
      var n := |es| - 1;
      DistinctFront(es, n);
      DistinctTimesStay(es[..n]);
      AddAllValid(EMPTY, es[..n]);
      AddedMeans(AddAll(EMPTY, es[..n]), es[n].time, es[n].name);
    }
  }

  /** Jobs with different names, scheduled one after the other: nothing else is in the
      queue, and every job stays in it if and only if all times are different. */
  lemma AddAllKeepsIff(es: seq<Entry>)
    requires DistinctNames(es)
    ensures Valid(AddAll(EMPTY, es))
    ensures forall e :: e in AddAll(EMPTY, es).list ==> e in es
    ensures (forall e :: e in es ==> e in AddAll(EMPTY, es).list) <==> DistinctTimes(es)
  {
    var q := AddAll(EMPTY, es);
    AddAllValid(EMPTY, es);
    if DistinctTimes(es) {
      DistinctTimesStay(es);
    } else if forall e :: e in es ==> e in q.list {
      var i, j :| 0 <= i < j < |es| && es[i].time == es[j].time;
      SameTime(q.list, es[i], es[j]);
      assert false;
    }
  }

  // ---------------------------------------------------------------- draining

  /** The results of `n` calls of `Pop` at the same instant. */
  function Pops(q: Queue, now: int, n: nat): (Queue, seq<Option<Bytes>>)
    decreases n
  {
    if n == 0 then (q, [])
    else
      var (q', r) := Popped(q, now);
      var (q'', rs) := Pops(q', now, n - 1);
      (q'', [r] + rs)
  }

  /** The entries before `now`: a prefix of the list. */
  function Due(l: seq<Entry>, now: int): nat {
    if l == [] || l[0].time >= now then 0 else 1 + Due(l[1..], now)
  }

  lemma {:induction false} DueIsPrefix(l: seq<Entry>, now: int)
    requires Ordered(l)
    ensures Due(l, now) <= |l|
    ensures forall i :: 0 <= i < |l| ==> (i < Due(l, now) <==> l[i].time < now)
  {
    if l != [] && l[0].time < now {
      DueIsPrefix(l[1..], now);
    }
  }

  lemma PopTakesHead(q: Queue, now: int)
    requires Valid(q) && q.list != [] && q.list[0].time < now
    ensures var q' := Popped(q, now).0;
            q'.list == q.list[1..] && Valid(q') && Popped(q, now).1 == Some(q.list[0].name)
  {
    PoppedMeans(q, now);
  }

  function NamesOf(l: seq<Entry>): (names: seq<Option<Bytes>>)
    ensures |names| == |l| && forall i :: 0 <= i < |l| ==> names[i] == Some(l[i].name)
  {
    seq(|l|, i requires 0 <= i < |l| => Some(l[i].name))
  }

  lemma PrefixNext(l: seq<Entry>, d: nat)
    requires 0 < d <= |l|
    ensures l[1..][d - 1..] == l[d..]
    ensures [Some(l[0].name)] + NamesOf(l[1..][..d - 1]) == NamesOf(l[..d])
  {
  }

  /** Popping as often as there are entries before `now` returns exactly these, in
      increasing order of time, and keeps the rest; one more `Pop` returns nothing. */
  lemma {:induction false} PopsDrain(q: Queue, now: int)
    requires Valid(q)
    ensures var d := Due(q.list, now);
            && d <= |q.list|
            && (forall i :: 0 <= i < |q.list| ==> (i < d <==> q.list[i].time < now))
            && Pops(q, now, d).0.list == q.list[d..]
            && Pops(q, now, d).1 == NamesOf(q.list[..d])
            && Popped(Pops(q, now, d).0, now).1 == None
    decreases |q.list|
  {
    DueIsPrefix(q.list, now);
    var d := Due(q.list, now);
    if d > 0 {
      var q' := Popped(q, now).0;
      PopTakesHead(q, now);
      PopsDrain(q', now);
      PrefixNext(q.list, d);
    }
  }
}
