/** Inheritance in the mirror tree of worker/config.go: `recursiveMirrors` flattens a
    forest of configurations, and what it gives each leaf. */
module Inherit {
  import opened Bytes
  import opened Options
  import opened MirrorConf

  /** An entry of the configuration file: without a list of children, or with one,
      which may be empty. */
  datatype Node = Leaf(own: MirrorConfig) | Inner(own: MirrorConfig, children: seq<Node>)

  /** An option of a configuration; the empty value if it is not set. The name is one. */
  datatype Field = TheName | Setting(key: Bytes)

  function Get(c: MirrorConfig, f: Field): Bytes {
    match f
    case TheName => c.name
    case Setting(key) => if key in c.settings then c.settings[key] else []
  }

  const EMPTY := MirrorConfig([], map[])

  /** The contract of `mergo.Merge` with override: a non-empty value of `src` wins. */
  function Merge(dst: MirrorConfig, src: MirrorConfig): (r: MirrorConfig)
    ensures forall f :: Get(r, f) == if Get(src, f) != [] then Get(src, f) else Get(dst, f)
  {
    MirrorConfig(
      if src.name != [] then src.name else dst.name,
      map k | k in dst.settings.Keys + src.settings.Keys ::
        if k in src.settings && src.settings[k] != [] then src.settings[k]
        else if k in dst.settings then dst.settings[k] else [])
  }

  // ---------------------------------------------------------------- the recursion

  /** The configurations that one entry contributes below `parent`. */
  function Flatten(parent: MirrorConfig, n: Node): seq<MirrorConfig>
    decreases n, 0
  {
    var cur := Merge(parent, n.own);
    match n
    case Leaf(_) => [cur]
    case Inner(_, ns) => FlattenAll(cur, ns)
  }

  function FlattenAll(parent: MirrorConfig, ns: seq<Node>): seq<MirrorConfig>
    decreases ns, |ns|
  {
    if ns == [] then [] else FlattenAll(parent, ns[..|ns| - 1]) + Flatten(parent, ns[|ns| - 1])
  }

  class Config {
    var mirrors: seq<MirrorConfig>

    constructor ()
      ensures mirrors == []
    {
      mirrors := [];
    }

    method RecursiveMirrors(parent: Option<MirrorConfig>, mirror: Node)
      modifies this
      ensures mirrors == old(mirrors) + Flatten(if parent.Some? then parent.value else EMPTY, mirror)
      decreases mirror
    {
      var curMir := EMPTY;
      if parent.Some? {
        curMir := parent.value;
      }
      curMir := Merge(curMir, mirror.own);
      if mirror.Leaf? {
        mirrors := mirrors + [curMir];
      } else {
        var ns := mirror.children;
        var i := 0;
        while i < |ns|
          invariant 0 <= i <= |ns|
          invariant mirrors == old(mirrors) + FlattenAll(curMir, ns[..i])
        {
          assert ns[..i + 1][..i] == ns[..i];
          RecursiveMirrors(Some(curMir), ns[i]);
          i := i + 1;
        }
        assert ns[..i] == ns;
      }
    }

    /** The loop of `LoadConfig` over the top-level entries. */
    method LoadMirrors(conf: seq<Node>)
      modifies this
      ensures mirrors == old(mirrors) + FlattenAll(EMPTY, conf)
    {
      var i := 0;
      while i < |conf|
        invariant 0 <= i <= |conf|
        invariant mirrors == old(mirrors) + FlattenAll(EMPTY, conf[..i])
      {
        assert conf[..i + 1][..i] == conf[..i];
        RecursiveMirrors(None, conf[i]);
        i := i + 1;
      }
      assert conf[..i] == conf;
    }
  }

  // ---------------------------------------------------------------- leaves by address

  /** An address is the list of child positions from the top of the forest. */
  type Address = seq<nat>

  /** `a` leads to an entry without a list of children. */
  predicate IsLeaf(ns: seq<Node>, a: Address)
    decreases |a|
  {
    a != [] && a[0] < |ns| &&
    match ns[a[0]]
    case Leaf(_) => |a| == 1
    case Inner(_, cs) => IsLeaf(cs, a[1..])
  }

  /** The configurations on the way to a leaf, from the top. */
  function PathTo(ns: seq<Node>, a: Address): (path: seq<MirrorConfig>)
    requires IsLeaf(ns, a)
    ensures |path| == |a|
    decreases |a|
  {
    [ns[a[0]].own] +
    match ns[a[0]]
    case Leaf(_) => []
    case Inner(_, cs) => PathTo(cs, a[1..])
  }

  /** The last value on a path that is not empty. */
  function Nearest(path: seq<MirrorConfig>, f: Field): Bytes {
    if path == [] then []
    else if Get(path[|path| - 1], f) != [] then Get(path[|path| - 1], f)
    else Nearest(path[..|path| - 1], f)
  }

  /** Depth-first order. */
  predicate Precedes(a: Address, b: Address)
    decreases |a|
  {
    a != [] && b != [] && (a[0] < b[0] || (a[0] == b[0] && Precedes(a[1..], b[1..])))
  }

  ghost predicate InOrder(addrs: seq<Address>) {
    forall i, j :: 0 <= i < j < |addrs| ==> Precedes(addrs[i], addrs[j])
  }

  /** The addresses of the leaves, in the order the recursion meets them. */
  function Leaves(ns: seq<Node>): seq<Address>
    decreases ns, |ns|
  {
    if ns == [] then []
    else
      var n := |ns| - 1;
      Leaves(ns[..n]) +
      match ns[n]
      case Leaf(_) => [[n]]
      case Inner(_, cs) => Below(n, Leaves(cs))
  }

  /** Addresses one level down. */
  function Below(n: nat, addrs: seq<Address>): (r: seq<Address>)
    ensures |r| == |addrs| && forall i :: 0 <= i < |r| ==> r[i] == [n] + addrs[i]
  {
    seq(|addrs|, i requires 0 <= i < |addrs| => [n] + addrs[i])
  }

  // ---------------------------------------------------------------- results

  /** A leaf keeps its address when entries are added behind. */
  lemma LeafOfFront(ns: seq<Node>, k: nat, a: Address)
    requires k <= |ns|
    ensures IsLeaf(ns[..k], a) <==> IsLeaf(ns, a) && a[0] < k
    ensures IsLeaf(ns[..k], a) ==> PathTo(ns[..k], a) == PathTo(ns, a)
  {
  }

  lemma LeafBelow(ns: seq<Node>, k: nat, a: Address)
    requires k < |ns| && ns[k].Inner? && IsLeaf(ns[k].children, a)
    ensures IsLeaf(ns, [k] + a) && PathTo(ns, [k] + a) == [ns[k].own] + PathTo(ns[k].children, a)
  {
    assert ([k] + a)[1..] == a;
  }

  lemma BelowMembers(n: nat, addrs: seq<Address>, a: Address)
    ensures a in Below(n, addrs) <==> a != [] && a[0] == n && a[1..] in addrs
  {
    var below := Below(n, addrs);
    if a in below {
      var i :| 0 <= i < |below| && below[i] == a;
      assert a[1..] == addrs[i];
    }
    if a != [] && a[0] == n && a[1..] in addrs {
      var i :| 0 <= i < |addrs| && addrs[i] == a[1..];
      assert below[i] == a;
    }
  }

  lemma {:induction false} LastLeaves(ns: seq<Node>, a: Address)
    requires ns != []
    ensures var n := |ns| - 1;
            a in Leaves(ns) <==>
              || a in Leaves(ns[..n])
              || (if ns[n].Leaf? then a == [n] else a != [] && a[0] == n && a[1..] in Leaves(ns[n].children))
  {
    var n := |ns| - 1;
    if ns[n].Inner? {
      BelowMembers(n, Leaves(ns[n].children), a);
    }
  }

  /** The recursion meets exactly the leaves of the forest, in depth-first order. */
  lemma {:induction false} LeavesExact(ns: seq<Node>, a: Address)
    ensures a in Leaves(ns) <==> IsLeaf(ns, a)
    decreases ns, |ns|
  {
    if ns != [] {
      var n := |ns| - 1;
      LastLeaves(ns, a);
      LeavesExact(ns[..n], a);
      LeafOfFront(ns, n, a);
      if a != [] && a[0] == n {
        if ns[n].Inner? {
          LeavesExact(ns[n].children, a[1..]);
        } else if |a| == 1 {
          assert a == [n];
        }
      }
    }
  }

  lemma {:induction false} LeavesInOrder(ns: seq<Node>)
    ensures InOrder(Leaves(ns))
    decreases ns, |ns|
  {
    if ns != [] {
      var n := |ns| - 1;
      LeavesInOrder(ns[..n]);
      forall a | a in Leaves(ns[..n])
        ensures a != [] && a[0] < n
      {
        LeavesExact(ns[..n], a);
      }
      if ns[n].Inner? {
        LeavesInOrder(ns[n].children);
        BelowInOrder(n, Leaves(ns[n].children));
      }
    }
  }

  lemma BelowInOrder(n: nat, addrs: seq<Address>)
    requires InOrder(addrs)
    ensures InOrder(Below(n, addrs))
  {
    var r := Below(n, addrs);
    forall i, j | 0 <= i < j < |r|
      ensures Precedes(r[i], r[j])
    {
      assert r[i][1..] == addrs[i] && r[j][1..] == addrs[j];
    }
  }

  lemma {:induction false} NearestFrom(c: MirrorConfig, path: seq<MirrorConfig>, f: Field)
    ensures Nearest([c] + path, f) == if Nearest(path, f) != [] then Nearest(path, f) else Get(c, f)
  {
    var n := |path| - 1;
    if path == [] {
      assert [c] + path == [c] && [c][..0] == [];
    } else {
      assert ([c] + path)[..|path|] == [c] + path[..n];
      NearestFrom(c, path[..n], f);
    }
  }

  /** What a leaf at the end of `path` gets below `parent`. */
  function Inherited(parent: MirrorConfig, path: seq<MirrorConfig>, f: Field): Bytes {
    if Nearest(path, f) != [] then Nearest(path, f) else Get(parent, f)
  }

  lemma InheritedStep(parent: MirrorConfig, own: MirrorConfig, path: seq<MirrorConfig>, f: Field)
    ensures Inherited(Merge(parent, own), path, f) == Inherited(parent, [own] + path, f)
  {
    NearestFrom(own, path, f);
  }

  lemma {:induction false} FlattenMatchesLeaves(parent: MirrorConfig, ns: seq<Node>)
    ensures |FlattenAll(parent, ns)| == |Leaves(ns)|
    decreases ns, |ns|
  {
    if ns != [] {
      var n := |ns| - 1;
      FlattenMatchesLeaves(parent, ns[..n]);
      if ns[n].Inner? {
        FlattenMatchesLeaves(Merge(parent, ns[n].own), ns[n].children);
      }
    }
  }

  lemma {:induction false} FlattenInherits(parent: MirrorConfig, ns: seq<Node>, i: nat, f: Field)
    requires |FlattenAll(parent, ns)| == |Leaves(ns)| && i < |Leaves(ns)|
    ensures IsLeaf(ns, Leaves(ns)[i])
    ensures Get(FlattenAll(parent, ns)[i], f) == Inherited(parent, PathTo(ns, Leaves(ns)[i]), f)
    decreases ns, |ns|
  {
    var n := |ns| - 1;
    var front := Leaves(ns[..n]);
    FlattenMatchesLeaves(parent, ns[..n]);
    if i < |front| {
      FlattenInherits(parent, ns[..n], i, f);
      LeafOfFront(ns, n, front[i]);
    } else {
      var cur := Merge(parent, ns[n].own);
      if ns[n].Inner? {
        var k, cs := i - |front|, ns[n].children;
        FlattenMatchesLeaves(cur, cs);
        FlattenInherits(cur, cs, k, f);
        LeafBelow(ns, n, Leaves(cs)[k]);
        InheritedStep(parent, ns[n].own, PathTo(cs, Leaves(cs)[k]), f);
      } else {
        assert PathTo(ns, [n]) == [ns[n].own] + [];
        InheritedStep(parent, ns[n].own, [], f);
      }
    }
  }

  /** Loading a configuration appends one entry per leaf of the forest and no others,
      in depth-first order; and every option of it is the last value on the way to the
      leaf that is not empty. */
  lemma LoadedMirrors(conf: seq<Node>)
    ensures |FlattenAll(EMPTY, conf)| == |Leaves(conf)| && InOrder(Leaves(conf))
    ensures forall a: Address :: a in Leaves(conf) <==> IsLeaf(conf, a)
    ensures forall i, f :: 0 <= i < |Leaves(conf)| ==>
              IsLeaf(conf, Leaves(conf)[i])
              && Get(FlattenAll(EMPTY, conf)[i], f) == Nearest(PathTo(conf, Leaves(conf)[i]), f)
  {
    FlattenMatchesLeaves(EMPTY, conf);
    LeavesInOrder(conf);
    forall a: Address
      ensures a in Leaves(conf) <==> IsLeaf(conf, a)
    {
      LeavesExact(conf, a);
    }
    forall i, f | 0 <= i < |Leaves(conf)|
      ensures IsLeaf(conf, Leaves(conf)[i])
      ensures Get(FlattenAll(EMPTY, conf)[i], f) == Nearest(PathTo(conf, Leaves(conf)[i]), f)
    {
      FlattenInherits(EMPTY, conf, i, f);
    }
  }
}
