/** The key-value backends of manager/: a flat store that prefixes each key with the
    name of its bucket (db_badger.go, db_leveldb.go) against nested buckets
    (db_bolt.go), and the status table that manager/db.go keeps on top of them. */
module KvStore {
  import opened Bytes
  import opened Options
  import M = ManagerStatus

  // ---------------------------------------------------------------- prefixes and order

  /** What a bucket holds in a flat store. */
  ghost predicate IsBucketOf<V>(m: map<Bytes, V>, db: map<Bytes, V>, bucket: Bytes) {
    forall k: Bytes :: (k in m <==> bucket + k in db) && (k in m ==> m[k] == db[bucket + k])
  }

  ghost predicate IncreasingKeys(keys: seq<Bytes>) {
    forall i, j :: 0 <= i < j < |keys| ==> Less(keys[i], keys[j])
  }

  lemma {:induction false} PrefixNotLess(p: Bytes, k: Bytes)
    requires p <= k
    ensures !Less(k, p)
  {
    if p != [] {
      assert p[1..] <= k[1..];
      PrefixNotLess(p[1..], k[1..]);
    }
  }

  lemma ConsPrefix(p: Bytes, k: Bytes)
    requires p != [] && k != [] && p[0] == k[0]
    ensures p <= k <==> p[1..] <= k[1..]
  {
    assert p == [p[0]] + p[1..] && k == [k[0]] + k[1..];
  }

  /** In byte order the keys with a common prefix stand together. */
  lemma {:induction false} PrefixesTogether(p: Bytes, k: Bytes, k': Bytes)
    requires !Less(k, p) && !(p <= k) && Less(k, k')
    ensures !(p <= k')
  {
    if p != [] && k != [] && p[0] == k[0] && k' != [] && k[0] == k'[0] {
      ConsPrefix(p, k);
      ConsPrefix(p, k');
      PrefixesTogether(p[1..], k[1..], k'[1..]);
    }
  }

  // ---------------------------------------------------------------- the flat store

  class FlatStore<V> {
    var db: map<Bytes, V>

    constructor ()
      ensures db == map[]
    {
      db := map[];
    }

    method Get(bucket: Bytes, key: Bytes) returns (v: Option<V>)
      ensures v == if bucket + key in db then Some(db[bucket + key]) else None
      ensures (db, Value(v)) == FlatDo(db, Op.Get(bucket, key))
    {
      var k := bucket + key;
      v := if k in db then Some(db[k]) else None;
    }

    method Put(bucket: Bytes, key: Bytes, value: V)
      modifies this
      ensures db == old(db)[bucket + key := value]
      ensures (db, Done) == FlatDo(old(db), Op.Put(bucket, key, value))
    {
      db := db[bucket + key := value];
    }

    method Delete(bucket: Bytes, key: Bytes)
      modifies this
      ensures db == old(db) - {bucket + key}
      ensures (db, Done) == FlatDo(old(db), Op.Delete(bucket, key))
    {
      db := db - {bucket + key};
    }

    /** Seeks to the first key that is not below the bucket name and walks as long as
        the keys have it as a prefix. `keys` is the engine's iterator: all keys, in
        increasing order. */
    method GetAll(bucket: Bytes, keys: seq<Bytes>) returns (m: map<Bytes, V>)
      requires IncreasingKeys(keys) && forall k :: k in keys <==> k in db
      ensures IsBucketOf(m, db, bucket)
      ensures (db, Values(m)) == FlatDo(db, Op.GetAll(bucket))
    {
      m := map[];
      var it := Seek(keys, bucket);
      while it < |keys| && bucket <= keys[it]
        invariant 0 <= it <= |keys|
        invariant it < |keys| ==> !Less(keys[it], bucket)
        invariant forall k :: k in m <==> bucket + k in keys[..it]
        invariant forall k :: k in m ==> bucket + k in db && m[k] == db[bucket + k]
      {
        var k := keys[it];
        var actualKey := k[|bucket|..];
        SuffixIs(bucket, k);
        m := m[actualKey := db[k]];
        assert keys[..it + 1] == keys[..it] + [k];
        if it + 1 < |keys| && Less(keys[it + 1], bucket) {
          LessTransitive(k, keys[it + 1], bucket);
          PrefixNotLess(bucket, k);
        }
        it := it + 1;
      }
      forall k: Bytes | bucket + k in db
        ensures k in m
      {
        PrefixedAreRead(keys, bucket, it, k);
      }
      BucketUnique(m, db, bucket);
    }

    /** Moves the iterator to the first key that is not below the prefix. */
    method Seek(keys: seq<Bytes>, prefix: Bytes) returns (it: nat)
      ensures it <= |keys|
      ensures it < |keys| ==> !Less(keys[it], prefix)
      ensures forall i :: 0 <= i < it ==> !(prefix <= keys[i])
    {
      it := 0;
      while it < |keys| && Less(keys[it], prefix)
        invariant 0 <= it <= |keys|
        invariant forall i :: 0 <= i < it ==> !(prefix <= keys[i])
      {
        if prefix <= keys[it] {
          PrefixNotLess(prefix, keys[it]);
        }
        it := it + 1;
      }
    }
  }

  lemma SuffixIs(bucket: Bytes, f: Bytes)
    requires bucket <= f
    ensures forall x: Bytes :: bucket + x == f <==> x == f[|bucket|..]
  {
    forall x: Bytes | bucket + x == f
      ensures x == f[|bucket|..]
    {
      assert (bucket + x)[|bucket|..] == x;
    }
    assert bucket + f[|bucket|..] == f;
  }

  /** An iterator at a key without the prefix, and not below it, is past all keys with it. */
  lemma PrefixedAreRead(keys: seq<Bytes>, bucket: Bytes, it: nat, k: Bytes)
    requires IncreasingKeys(keys) && it <= |keys| && bucket + k in keys
    requires it < |keys| ==> !Less(keys[it], bucket) && !(bucket <= keys[it])
    ensures bucket + k in keys[..it]
  {
    var i :| 0 <= i < |keys| && keys[i] == bucket + k;
    Reprefix(bucket, k);
    if i > it {
      PrefixesTogether(bucket, keys[it], keys[i]);
    }
    assert i < it;
    assert keys[i] == keys[..it][i];
  }

  // ---------------------------------------------------------------- simulation

  type Buckets<V> = map<Bytes, map<Bytes, V>>

  datatype Op<V> =
    | Get(bucket: Bytes, key: Bytes)
    | GetAll(bucket: Bytes)
    | Put(bucket: Bytes, key: Bytes, value: V)
    | Delete(bucket: Bytes, key: Bytes)

  datatype Answer<V> = Value(v: Option<V>) | Values(m: map<Bytes, V>) | Done

  lemma Unprefix(bucket: Bytes, f: Bytes)
    requires bucket <= f
    ensures f == bucket + f[|bucket|..]
  {
  }

  lemma Reprefix(bucket: Bytes, k: Bytes)
    ensures bucket <= bucket + k && (bucket + k)[|bucket|..] == k
  {
  }

  /** The contents of a bucket in a flat store. */
  ghost function BucketOf<V>(db: map<Bytes, V>, bucket: Bytes): (m: map<Bytes, V>)
    ensures IsBucketOf(m, db, bucket)
  {
    assert forall f: Bytes :: bucket <= f ==> f == bucket + f[|bucket|..] by {
      forall f: Bytes | bucket <= f ensures f == bucket + f[|bucket|..] { Unprefix(bucket, f); }
    }
    var m := map f | f in db && bucket <= f :: f[|bucket|..] := db[f];
    assert IsBucketOf(m, db, bucket) by {
      forall k: Bytes
        ensures k in m <==> bucket + k in db
      {
        Reprefix(bucket, k);
        if bucket + k in db {
          assert (bucket + k)[|bucket|..] in m;
        }
      }
    }
    m
  }

  lemma BucketUnique<V>(m: map<Bytes, V>, db: map<Bytes, V>, bucket: Bytes)
    requires IsBucketOf(m, db, bucket)
    ensures m == BucketOf(db, bucket)
  {
  }

  ghost function FlatDo<V>(db: map<Bytes, V>, op: Op<V>): (map<Bytes, V>, Answer<V>) {
    match op
    case Get(b, k) => (db, Value(if b + k in db then Some(db[b + k]) else None))
    case GetAll(b) => (db, Values(BucketOf(db, b)))
    case Put(b, k, v) => (db[b + k := v], Done)
    case Delete(b, k) => (db - {b + k}, Done)
  }

  function BucketIn<V>(bs: Buckets<V>, b: Bytes): map<Bytes, V> {
    if b in bs then bs[b] else map[]
  }

  function NestedDo<V>(bs: Buckets<V>, op: Op<V>): (Buckets<V>, Answer<V>) {
    var m := BucketIn(bs, op.bucket);
    match op
    case Get(b, k) => (bs, Value(if k in m then Some(m[k]) else None))
    case GetAll(b) => (bs, Values(m))
    case Put(b, k, v) => (bs[b := m[k := v]], Done)
    case Delete(b, k) => (bs[b := m - {k}], Done)
  }

  ghost function FlatAnswers<V>(db: map<Bytes, V>, ops: seq<Op<V>>): seq<Answer<V>>
    decreases |ops|
  {
    if ops == [] then [] else [FlatDo(db, ops[0]).1] + FlatAnswers(FlatDo(db, ops[0]).0, ops[1..])
  }

  function NestedAnswers<V>(bs: Buckets<V>, ops: seq<Op<V>>): seq<Answer<V>>
    decreases |ops|
  {
    if ops == [] then [] else [NestedDo(bs, ops[0]).1] + NestedAnswers(NestedDo(bs, ops[0]).0, ops[1..])
  }

  /** The nested store; a bucket must have been initialised before it is used. */
  class NestedStore<V> {
    var buckets: Buckets<V>

    constructor ()
      ensures buckets == map[]
    {
      buckets := map[];
    }

    method InitBucket(bucket: Bytes)
      modifies this
      ensures buckets == if bucket in old(buckets) then old(buckets) else old(buckets)[bucket := map[]]
    {
      if bucket !in buckets {
        buckets := buckets[bucket := map[]];
      }
    }

    method Get(bucket: Bytes, key: Bytes) returns (v: Option<V>)
      requires bucket in buckets
      ensures (buckets, Value(v)) == NestedDo(buckets, Op.Get(bucket, key))
    {
      v := if key in buckets[bucket] then Some(buckets[bucket][key]) else None;
    }

    /** Walks the bucket with a cursor; the order does not show. */
    method GetAll(bucket: Bytes) returns (m: map<Bytes, V>)
      requires bucket in buckets
      ensures (buckets, Values(m)) == NestedDo(buckets, Op.GetAll(bucket))
      ensures m == buckets[bucket]
    {
      m := map[];
      var left := buckets[bucket].Keys;
      while left != {}
        invariant left <= buckets[bucket].Keys
        invariant m == map k | k in buckets[bucket] && k !in left :: buckets[bucket][k]
        decreases left
      {
        var k :| k in left;
        left := left - {k};
        m := m[k := buckets[bucket][k]];
      }
      assert m == buckets[bucket];
    }

    method Put(bucket: Bytes, key: Bytes, value: V)
      requires bucket in buckets
      modifies this
      ensures (buckets, Done) == NestedDo(old(buckets), Op.Put(bucket, key, value))
      ensures buckets == old(buckets)[bucket := old(buckets)[bucket][key := value]]
    {
      buckets := buckets[bucket := buckets[bucket][key := value]];
    }

    method Delete(bucket: Bytes, key: Bytes)
      requires bucket in buckets
      modifies this
      ensures (buckets, Done) == NestedDo(old(buckets), Op.Delete(bucket, key))
      ensures buckets == old(buckets)[bucket := old(buckets)[bucket] - {key}]
    {
      buckets := buckets[bucket := buckets[bucket] - {key}];
    }
  }

  /** No bucket name is a proper prefix of another. */
  ghost predicate PrefixFree(names: set<Bytes>) {
    forall a, b :: a in names && b in names && a <= b ==> a == b
  }

  ghost predicate Agree<V>(db: map<Bytes, V>, bs: Buckets<V>, names: set<Bytes>) {
    forall b :: b in names ==> IsBucketOf(BucketIn(bs, b), db, b)
  }

  ghost predicate Within<V>(ops: seq<Op<V>>, names: set<Bytes>) {
    forall op :: op in ops ==> op.bucket in names
  }

  /** With prefix-free names a flat key belongs to one bucket and one key only. */
  lemma FlatKeyUnique(names: set<Bytes>, b: Bytes, k: Bytes, b': Bytes, k': Bytes)
    requires PrefixFree(names) && b in names && b' in names && b + k == b' + k'
    ensures b == b' && k == k'
  {
    var f := b + k;
    assert b == f[..|b|] && b' == f[..|b'|];
    assert b <= b' || b' <= b;
    Reprefix(b, k);
    Reprefix(b, k');
  }

  lemma {:induction false} StepAgrees<V>(db: map<Bytes, V>, bs: Buckets<V>, names: set<Bytes>, op: Op<V>)
    requires PrefixFree(names) && Agree(db, bs, names) && op.bucket in names
    ensures FlatDo(db, op).1 == NestedDo(bs, op).1
    ensures Agree(FlatDo(db, op).0, NestedDo(bs, op).0, names)
  {
    assert IsBucketOf(BucketIn(bs, op.bucket), db, op.bucket);
    if op.GetAll? {
      BucketUnique(BucketIn(bs, op.bucket), db, op.bucket);
    }
    var db', bs' := FlatDo(db, op).0, NestedDo(bs, op).0;
    forall b | b in names
      ensures IsBucketOf(BucketIn(bs', b), db', b)
    {
      assert IsBucketOf(BucketIn(bs, b), db, b);
      if op.Put? || op.Delete? {
        forall k: Bytes | b + k == op.bucket + op.key
          ensures b == op.bucket && k == op.key
        {
          FlatKeyUnique(names, b, k, op.bucket, op.key);
        }
      }
    }
  }

  lemma {:induction false} Simulates<V>(db: map<Bytes, V>, bs: Buckets<V>, names: set<Bytes>, ops: seq<Op<V>>)
    requires PrefixFree(names) && Agree(db, bs, names) && Within(ops, names)
    ensures FlatAnswers(db, ops) == NestedAnswers(bs, ops)
    decreases |ops|
  {
    if ops != [] {
      StepAgrees(db, bs, names, ops[0]);
      Simulates(FlatDo(db, ops[0]).0, NestedDo(bs, ops[0]).0, names, ops[1..]);
    }
  }

  /** A value entered under the longer of two names shows up under the shorter one. */
  lemma PrefixConfuses<V>(a: Bytes, b: Bytes, v: V)
    requires a <= b && a != b
    ensures var ops := [Put(b, [SLASH], v), Get(a, b[|a|..] + [SLASH])];
            FlatAnswers(map[], ops) != NestedAnswers(map[], ops)
  {
    var key := b[|a|..] + [SLASH];
    var put, get: Op<V> := Op.Put(b, [SLASH], v), Op.Get(a, key);
    var flat: map<Bytes, V>, nested: Buckets<V> := map[], map[];
    var db, bs := FlatDo(flat, put).0, NestedDo(nested, put).0;
    assert a + key == b + [SLASH];
    assert [put, get][1..] == [get] && [get][1..] == [];
    assert FlatAnswers(flat, [put, get]) == [FlatDo(flat, put).1] + FlatAnswers(db, [get]);
    assert FlatAnswers(db, [get]) == [Answer.Value(Some(v))];
    assert NestedAnswers(nested, [put, get]) == [NestedDo(nested, put).1] + NestedAnswers(bs, [get]);
    assert NestedAnswers(bs, [get]) == [Answer<V>.Value(None)];
    assert FlatAnswers(flat, [put, get])[1] != NestedAnswers(nested, [put, get])[1];
  }

  /** Operations that every engine accepts: bolt refuses to put a value under an empty key. */
  ghost predicate Accepted<V>(ops: seq<Op<V>>) {
    forall op :: op in ops && op.Put? ==> op.key != []
  }

  ghost predicate SameAnswers(names: set<Bytes>) {
    forall ops: seq<Op<Bytes>> :: Within(ops, names) && Accepted(ops) ==>
      FlatAnswers(map[], ops) == NestedAnswers(map[], ops)
  }

  /** The flat store gives the answers of the nested one, on every sequence of
      operations over a set of buckets, if and only if the names are prefix-free. */
  lemma FlatIffPrefixFree(names: set<Bytes>)
    ensures SameAnswers(names) <==> PrefixFree(names)
  {
    if PrefixFree(names) {
      forall ops: seq<Op<Bytes>> | Within(ops, names) && Accepted(ops)
        ensures FlatAnswers(map[], ops) == NestedAnswers(map[], ops)
      {
        Simulates(map[], map[], names, ops);
      }
    } else {
      var a, b :| a in names && b in names && a <= b && a != b;
      PrefixConfuses<Bytes>(a, b, []);
      var ops: seq<Op<Bytes>> := [Op.Put(b, [SLASH], []), Op.Get(a, b[|a|..] + [SLASH])];
      assert Within(ops, names) && Accepted(ops);
    }
  }

  const WORKER_BUCKET: Bytes := [119, 111, 114, 107, 101, 114, 115]
  const STATUS_BUCKET: Bytes := [109, 105, 114, 114, 111, 114, 95, 115, 116, 97, 116, 117, 115]

  /** The two buckets the manager uses are prefix-free. */
  lemma ManagerBuckets()
    ensures WORKER_BUCKET == Ascii("workers") && STATUS_BUCKET == Ascii("mirror_status")
    ensures SameAnswers({WORKER_BUCKET, STATUS_BUCKET})
  {
    assert WORKER_BUCKET[0] != STATUS_BUCKET[0];
    FlatIffPrefixFree({WORKER_BUCKET, STATUS_BUCKET});
  }

  // ---------------------------------------------------------------- status keys

  predicate NoSlash(id: Bytes) {
    SLASH !in id
  }

  function StatusKey(worker: Bytes, mirror: Bytes): Bytes {
    mirror + [SLASH] + worker
  }

  /** `strings.Split(k, "/")` */
  function Split(k: Bytes): (parts: seq<Bytes>)
    ensures |parts| >= 1
    ensures |parts| == 1 <==> NoSlash(k)
  {
    if k == [] then [[]]
    else if k[0] == SLASH then [[]] + Split(k[1..])
    else
      assert k == [k[0]] + k[1..];
      var rest := Split(k[1..]);
      [[k[0]] + rest[0]] + rest[1..]
  }

  lemma {:induction false} SplitPlain(k: Bytes)
    requires NoSlash(k)
    ensures Split(k) == [k]
  {
    if k != [] {
      assert k == [k[0]] + k[1..];
      SplitPlain(k[1..]);
    }
  }

  lemma {:induction false} SplitAt(a: Bytes, rest: Bytes)
    requires NoSlash(a)
    ensures Split(a + [SLASH] + rest) == [a] + Split(rest)
  {
    var k := a + [SLASH] + rest;
    if a == [] {
      assert k[1..] == rest;
    } else {
      assert a == [a[0]] + a[1..];
      assert k[1..] == a[1..] + [SLASH] + rest;
      SplitAt(a[1..], rest);
    }
  }

  lemma {:induction false} FirstPartIsPrefix(k: Bytes)
    ensures NoSlash(Split(k)[0]) && |Split(k)[0]| <= |k| && (Split(k)[0] == k ==> NoSlash(k))
  {
    if k != [] && k[0] != SLASH {
      FirstPartIsPrefix(k[1..]);
      assert k == [k[0]] + k[1..];
    }
  }

  /** With no slash in the mirror name, the worker read back from a key is the one
      it was made for if and only if that has no slash either; and then the key
      determines both. */
  lemma KeyReadsBack(worker: Bytes, mirror: Bytes)
    requires NoSlash(mirror)
    ensures |Split(StatusKey(worker, mirror))| >= 2
    ensures Split(StatusKey(worker, mirror))[1] == worker <==> NoSlash(worker)
    ensures Split(StatusKey(worker, mirror))[0] == mirror
  {
    SplitAt(mirror, worker);
    FirstPartIsPrefix(worker);
    if NoSlash(worker) {
      SplitPlain(worker);
    }
  }

  lemma KeysInjective(worker: Bytes, mirror: Bytes, worker': Bytes, mirror': Bytes)
    requires NoSlash(mirror) && NoSlash(mirror')
    requires StatusKey(worker, mirror) == StatusKey(worker', mirror')
    ensures worker == worker' && mirror == mirror'
  {
    KeyReadsBack(worker, mirror);
    KeyReadsBack(worker', mirror');
    var k := StatusKey(worker, mirror);
    assert k[|mirror| + 1..] == worker;
    assert StatusKey(worker', mirror')[|mirror'| + 1..] == worker';
  }

  // ---------------------------------------------------------------- the status table

  /** The status bucket holds the table `t`, whose names have no slash. */
  ghost predicate HoldsTable(vals: map<Bytes, M.MirrorStatus>, t: M.Store) {
    && (forall key :: key in t ==> NoSlash(key.worker) && NoSlash(key.mirror))
    && (forall k :: k in vals ==> exists key :: key in t && k == StatusKey(key.worker, key.mirror))
    && (forall key :: key in t ==>
          StatusKey(key.worker, key.mirror) in vals && vals[StatusKey(key.worker, key.mirror)] == t[key])
  }

  /** Which mirror of which worker an entry of the bucket belongs to. */
  lemma KeyOfEntry(vals: map<Bytes, M.MirrorStatus>, t: M.Store, k: Bytes, worker: Bytes) returns (key: M.Key)
    requires HoldsTable(vals, t) && k in vals
    ensures key in t && k == StatusKey(key.worker, key.mirror) && vals[k] == t[key]
    ensures |Split(k)| >= 2 && (Split(k)[1] == worker <==> key.worker == worker)
    ensures forall m :: M.Key(worker, m) in t && StatusKey(worker, m) == k <==> M.Key(worker, m) == key
  {
    key :| key in t && k == StatusKey(key.worker, key.mirror);
    KeyReadsBack(key.worker, key.mirror);
    forall m: Bytes | M.Key(worker, m) in t && StatusKey(worker, m) == k
      ensures m == key.mirror && worker == key.worker
    {
      KeysInjective(worker, m, key.worker, key.mirror);
    }
  }

  lemma ListedByKey(t: M.Store, worker: Bytes, ids: seq<Bytes>, ms: seq<M.MirrorStatus>)
    requires |ids| == |ms| && forall m :: m in ids <==> M.Key(worker, m) in t
    requires forall i :: 0 <= i < |ids| ==> ms[i] == t[M.Key(worker, ids[i])]
    ensures forall r :: r in ms <==> exists key :: key in t && key.worker == worker && t[key] == r
  {
    forall key | key in t && key.worker == worker
      ensures t[key] in ms
    {
      var i :| 0 <= i < |ids| && ids[i] == key.mirror;
      assert ms[i] == t[key];
    }
    forall i | 0 <= i < |ms|
      ensures exists key :: key in t && key.worker == worker && t[key] == ms[i]
    {
      assert ids[i] in ids;
    }
  }

  /** The adapter over one backend; by the simulation it does not matter which. */
  class KvAdapter {
    var vals: map<Bytes, M.MirrorStatus>

    method UpdateMirrorStatus(worker: Bytes, mirror: Bytes, status: M.MirrorStatus)
      modifies this
      ensures vals == old(vals)[StatusKey(worker, mirror) := status]
    {
      vals := vals[StatusKey(worker, mirror) := status];
    }

    method GetMirrorStatus(worker: Bytes, mirror: Bytes) returns (status: M.MirrorStatus, found: bool)
      ensures found <==> StatusKey(worker, mirror) in vals
      ensures status == if found then vals[StatusKey(worker, mirror)] else M.ZERO
    {
      var id := StatusKey(worker, mirror);
      if id in vals {
        return vals[id], true;
      }
      return M.ZERO, false;
    }

    /** Walks the bucket in any order and keeps the entries whose key names `worker`. */
    method ListMirrorStatus(worker: Bytes, ghost t: M.Store) returns (ms: seq<M.MirrorStatus>, ghost ids: seq<Bytes>)
      requires HoldsTable(vals, t)
      ensures |ids| == |ms| && (forall i, j :: 0 <= i < j < |ids| ==> ids[i] != ids[j])
      ensures forall m :: m in ids <==> M.Key(worker, m) in t
      ensures forall i :: 0 <= i < |ids| ==> ms[i] == t[M.Key(worker, ids[i])]
      ensures forall r :: r in ms <==> exists key :: key in t && key.worker == worker && t[key] == r
    {
      ms, ids := [], [];
      var left := vals.Keys;
      while left != {}
        invariant left <= vals.Keys && |ids| == |ms|
        invariant forall i, j :: 0 <= i < j < |ids| ==> ids[i] != ids[j]
        invariant forall m :: m in ids <==> M.Key(worker, m) in t && StatusKey(worker, m) !in left
        invariant forall i :: 0 <= i < |ids| ==> M.Key(worker, ids[i]) in t && ms[i] == t[M.Key(worker, ids[i])]
        decreases left
      {
        var k :| k in left;
        left := left - {k};
        ghost var key := KeyOfEntry(vals, t, k, worker);
        if Split(k)[1] == worker {
          ms := ms + [vals[k]];
          ids := ids + [key.mirror];
        }
      }
      ListedByKey(t, worker, ids, ms);
    }

    /** Deletes exactly the disabled and the nameless records. */
    method FlushDisabledJobs()
      modifies this
      ensures vals == map k | k in old(vals) && !Flushed(old(vals)[k]) :: old(vals)[k]
      ensures forall k :: k in vals <==>
                k in old(vals) && old(vals)[k].status != M.R.Disabled && |old(vals)[k].name| > 0
      ensures forall k :: k in vals ==> vals[k] == old(vals)[k]
    {
      var all := vals;
      var left := all.Keys;
      while left != {}
        invariant left <= all.Keys
        invariant vals == map k | k in all && (k in left || !Flushed(all[k])) :: all[k]
        decreases left
      {
        var k :| k in left;
        left := left - {k};
        if all[k].status.Disabled? || |all[k].name| == 0 {
          vals := vals - {k};
        }
      }
    }
  }

  /** Writing a record keeps the table readable, and changes just that entry. */
  lemma UpdateHolds(vals: map<Bytes, M.MirrorStatus>, t: M.Store, key: M.Key, status: M.MirrorStatus)
    requires HoldsTable(vals, t) && NoSlash(key.worker) && NoSlash(key.mirror)
    ensures HoldsTable(vals[StatusKey(key.worker, key.mirror) := status], t[key := status])
    ensures StatusKey(key.worker, key.mirror) in vals <==> key in t
  {
    forall key' | key' in t && StatusKey(key.worker, key.mirror) == StatusKey(key'.worker, key'.mirror)
      ensures key == key'
    {
      KeysInjective(key.worker, key.mirror, key'.worker, key'.mirror);
    }
  }

  predicate Flushed(r: M.MirrorStatus) {
    r.status.Disabled? || r.name == []
  }

  /** Flushing the bucket flushes the table: the same mirrors of every worker are left. */
  lemma FlushHolds(vals: map<Bytes, M.MirrorStatus>, t: M.Store)
    requires HoldsTable(vals, t)
    ensures HoldsTable(
              map k | k in vals && !Flushed(vals[k]) :: vals[k],
              map key | key in t && !Flushed(t[key]) :: t[key])
  {
    forall k | k in vals && !Flushed(vals[k])
      ensures exists key :: key in t && !Flushed(t[key]) && k == StatusKey(key.worker, key.mirror)
    {
      var key :| key in t && k == StatusKey(key.worker, key.mirror);
      assert vals[k] == t[key];
    }
  }
}
