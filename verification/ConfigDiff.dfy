/** `diffMirrorConfig` of worker/config_diff.go: a merge of two sorted lists that are
    closed by a sentinel, and the meaning of the operations it returns. */
module ConfigDiff {
  import opened Bytes
  import opened MirrorConf

  datatype DiffOp = DiffDelete | DiffAdd | DiffModify

  datatype Trans = Trans(diffOp: DiffOp, mirCfg: MirrorConfig)

  /** The panic of the sentinel check, or the operations. */
  datatype DiffResult = SentinelPanic | Difference(operations: seq<Trans>)

  // ---------------------------------------------------------------- sorting

  ghost predicate Sorted(l: seq<MirrorConfig>) {
    forall i, j :: 0 <= i < j < |l| ==> !Less(l[j].name, l[i].name)
  }

  /** Sorted with no name twice. */
  ghost predicate StrictlySorted(l: seq<MirrorConfig>) {
    forall i, j :: 0 <= i < j < |l| ==> Less(l[i].name, l[j].name)
  }

  function Insert(c: MirrorConfig, l: seq<MirrorConfig>): (r: seq<MirrorConfig>)
    ensures multiset(r) == multiset(l) + multiset{c}
  {
    if l == [] || Less(c.name, l[0].name) then [c] + l
    else
      assert l == [l[0]] + l[1..];
      [l[0]] + Insert(c, l[1..])
  }

  /** The contract of `sort.Sort`: a sorted permutation. */
  function SortByName(l: seq<MirrorConfig>): (r: seq<MirrorConfig>)
    ensures multiset(r) == multiset(l)
    ensures |r| == |l|
  {
    if l == [] then []
    else
      assert l == [l[0]] + l[1..];
      var r := Insert(l[0], SortByName(l[1..]));
      assert |multiset(r)| == |r| && |multiset(l)| == |l|;
      r
  }

  lemma {:induction false} InsertSorted(c: MirrorConfig, l: seq<MirrorConfig>)
    requires Sorted(l)
    ensures Sorted(Insert(c, l))
  {
    if l == [] {
    } else if Less(c.name, l[0].name) {
      forall j | 0 <= j < |l|
        ensures !Less(l[j].name, c.name)
      {
        if Less(l[j].name, c.name) {
          LessTransitive(l[j].name, c.name, l[0].name);
          LessIrreflexive(l[0].name);
        }
      }
    } else {
      InsertSorted(c, l[1..]);
      var r := Insert(c, l[1..]);
      forall j | 0 <= j < |r|
        ensures !Less(r[j].name, l[0].name)
      {
        assert r[j] in multiset(r);
        assert r[j] == c || r[j] in l[1..];
      }
    }
  }

  lemma {:induction false} SortSorts(l: seq<MirrorConfig>)
    ensures Sorted(SortByName(l))
  {
    if l != [] {
      SortSorts(l[1..]);
      InsertSorted(l[0], SortByName(l[1..]));
    }
  }

  lemma SameMembers(l: seq<MirrorConfig>, c: MirrorConfig)
    ensures c in SortByName(l) <==> c in l
  {
    assert c in SortByName(l) <==> c in multiset(SortByName(l));
  }

  lemma UniqueFromCounts(l: seq<MirrorConfig>, r: seq<MirrorConfig>)
    requires UniqueNames(l) && multiset(r) == multiset(l)
    ensures UniqueNames(r)
  {
    forall i, j | 0 <= i < j < |r|
      ensures r[i].name != r[j].name
    {
      assert r[i] in multiset(l) && r[j] in multiset(l);
      if r[i] == r[j] {
        assert r == r[..i] + [r[i]] + r[i + 1..j] + [r[j]] + r[j + 1..];
        assert multiset(r)[r[i]] >= 2;
        OnceInUnique(l, r[i]);
      }
    }
  }

  lemma {:induction false} OnceInUnique(l: seq<MirrorConfig>, c: MirrorConfig)
    requires UniqueNames(l)
    ensures multiset(l)[c] <= 1
  {
    if l != [] {
      assert l == [l[0]] + l[1..];
      OnceInUnique(l[1..], c);
    }
  }

  lemma StrictFromUnique(l: seq<MirrorConfig>)
    requires Sorted(l) && UniqueNames(l)
    ensures StrictlySorted(l)
  {
    forall i, j | 0 <= i < j < |l|
      ensures Less(l[i].name, l[j].name)
    {
      LessConnected(l[i].name, l[j].name);
    }
  }

  lemma SameHead(r: seq<MirrorConfig>, t: seq<MirrorConfig>)
    requires StrictlySorted(r) && StrictlySorted(t) && r != [] && t != []
    requires r[0] in t && t[0] in r
    ensures r[0] == t[0]
  {
    if r[0] != t[0] {
      assert Less(t[0].name, r[0].name) && Less(r[0].name, t[0].name);
      LessAsymmetric(t[0].name, r[0].name);
    }
  }

  lemma {:induction false} StrictUnique(r: seq<MirrorConfig>, t: seq<MirrorConfig>)
    requires StrictlySorted(r) && StrictlySorted(t) && multiset(r) == multiset(t)
    ensures r == t
    decreases |r|
  {
    SameCounts(r, t);
    if r != [] {
      SameHead(r, t);
      TailCounts(r);
      TailCounts(t);
      StrictUnique(r[1..], t[1..]);
      assert r == [r[0]] + r[1..] && t == [t[0]] + t[1..];
    }
  }

  lemma SameCounts(r: seq<MirrorConfig>, t: seq<MirrorConfig>)
    requires multiset(r) == multiset(t)
    ensures |r| == |t| && (r != [] ==> r[0] in t && t[0] in r)
  {
    assert |multiset(r)| == |r| && |multiset(t)| == |t|;
    if r != [] {
      assert r[0] in multiset(t) && t[0] in multiset(r);
    }
  }

  lemma TailCounts(r: seq<MirrorConfig>)
    requires r != []
    ensures multiset(r[1..]) == multiset(r) - multiset{r[0]}
  {
    assert r == [r[0]] + r[1..];
  }

  /** With unique names every sorted permutation is the one used here, so nothing
      depends on which sort the library uses. */
  lemma SortUnique(l: seq<MirrorConfig>, t: seq<MirrorConfig>)
    requires UniqueNames(l) && multiset(t) == multiset(l) && Sorted(t)
    ensures t == SortByName(l)
  {
    SortSorts(l);
    UniqueFromCounts(l, SortByName(l));
    UniqueFromCounts(l, t);
    StrictFromUnique(SortByName(l));
    StrictFromUnique(t);
    StrictUnique(t, SortByName(l));
  }

  // ---------------------------------------------------------------- merging

  /** The merge without a sentinel. */
  function DiffSorted(o: seq<MirrorConfig>, n: seq<MirrorConfig>): seq<Trans>
    decreases |o| + |n|
  {
    if o == [] && n == [] then []
    else if o == [] || (n != [] && Less(n[0].name, o[0].name)) then
      [Trans(DiffAdd, n[0])] + DiffSorted(o, n[1..])
    else if n == [] || Less(o[0].name, n[0].name) then
      [Trans(DiffDelete, o[0])] + DiffSorted(o[1..], n)
    else
      (if o[0] != n[0] then [Trans(DiffModify, n[0])] else []) + DiffSorted(o[1..], n[1..])
  }

  /** What the difference of two lists must contain. */
  ghost predicate Wanted(o: seq<MirrorConfig>, n: seq<MirrorConfig>, t: Trans) {
    match t.diffOp
    case DiffDelete => t.mirCfg in o && !HasName(n, t.mirCfg.name)
    case DiffAdd => t.mirCfg in n && !HasName(o, t.mirCfg.name)
    case DiffModify => t.mirCfg in n && exists c :: c in o && c.name == t.mirCfg.name && c != t.mirCfg
  }

  ghost predicate Increasing(ops: seq<Trans>) {
    forall i, j :: 0 <= i < j < |ops| ==> Less(ops[i].mirCfg.name, ops[j].mirCfg.name)
  }

  /** `x` comes before every name of the list. */
  ghost predicate Before(x: Bytes, l: seq<MirrorConfig>) {
    forall c :: c in l ==> Less(x, c.name)
  }

  lemma HeadBefore(l: seq<MirrorConfig>, x: Bytes)
    requires StrictlySorted(l) && l != []
    ensures StrictlySorted(l[1..]) && Before(l[0].name, l[1..])
    ensures Less(x, l[0].name) ==> Before(x, l)
  {
    if Less(x, l[0].name) {
      forall c | c in l
        ensures Less(x, c.name)
      {
        if c != l[0] {
          LessTransitive(x, l[0].name, c.name);
        }
      }
    }
  }

  lemma BeforeExcludes(x: Bytes, l: seq<MirrorConfig>)
    requires Before(x, l)
    ensures !HasName(l, x)
  {
    LessIrreflexive(x);
  }

  lemma {:induction false} DiffAfter(o: seq<MirrorConfig>, n: seq<MirrorConfig>, x: Bytes)
    requires Before(x, o) && Before(x, n)
    ensures forall t :: t in DiffSorted(o, n) ==> Less(x, t.mirCfg.name)
    decreases |o| + |n|
  {
    if o == [] && n == [] {
    } else if o == [] || (n != [] && Less(n[0].name, o[0].name)) {
      DiffAfter(o, n[1..], x);
    } else if n == [] || Less(o[0].name, n[0].name) {
      DiffAfter(o[1..], n, x);
    } else {
      DiffAfter(o[1..], n[1..], x);
    }
  }

  lemma {:induction false} DiffIncreasing(o: seq<MirrorConfig>, n: seq<MirrorConfig>)
    requires StrictlySorted(o) && StrictlySorted(n)
    ensures Increasing(DiffSorted(o, n))
    decreases |o| + |n|
  {
    if o == [] && n == [] {
    } else if o == [] || (n != [] && Less(n[0].name, o[0].name)) {
      HeadBefore(n, n[0].name);
      if o != [] {
        HeadBefore(o, n[0].name);
      }
      DiffAfter(o, n[1..], n[0].name);
      DiffIncreasing(o, n[1..]);
    } else if n == [] || Less(o[0].name, n[0].name) {
      HeadBefore(o, o[0].name);
      if n != [] {
        HeadBefore(n, o[0].name);
      }
      DiffAfter(o[1..], n, o[0].name);
      DiffIncreasing(o[1..], n);
    } else {
      LessConnected(o[0].name, n[0].name);
      HeadBefore(o, o[0].name);
      HeadBefore(n, n[0].name);
      DiffAfter(o[1..], n[1..], n[0].name);
      DiffIncreasing(o[1..], n[1..]);
    }
  }

  /** Taking the heads off changes what is wanted by exactly the operation on them. */
  lemma WantedAdd(o: seq<MirrorConfig>, n: seq<MirrorConfig>, t: Trans)
    requires n != [] && !HasName(o, n[0].name) && !HasName(n[1..], n[0].name)
    ensures Wanted(o, n, t) <==> t == Trans(DiffAdd, n[0]) || Wanted(o, n[1..], t)
  {
    assert n == [n[0]] + n[1..];
    assert HasName(n, t.mirCfg.name) <==> t.mirCfg.name == n[0].name || HasName(n[1..], t.mirCfg.name);
  }

  lemma WantedDelete(o: seq<MirrorConfig>, n: seq<MirrorConfig>, t: Trans)
    requires o != [] && !HasName(n, o[0].name) && !HasName(o[1..], o[0].name)
    ensures Wanted(o, n, t) <==> t == Trans(DiffDelete, o[0]) || Wanted(o[1..], n, t)
  {
    assert o == [o[0]] + o[1..];
    assert HasName(o, t.mirCfg.name) <==> t.mirCfg.name == o[0].name || HasName(o[1..], t.mirCfg.name);
  }

  lemma WantedBoth(o: seq<MirrorConfig>, n: seq<MirrorConfig>, t: Trans)
    requires o != [] && n != [] && o[0].name == n[0].name
    requires !HasName(o[1..], o[0].name) && !HasName(n[1..], n[0].name)
    ensures Wanted(o, n, t) <==> (t == Trans(DiffModify, n[0]) && o[0] != n[0]) || Wanted(o[1..], n[1..], t)
  {
    assert o == [o[0]] + o[1..] && n == [n[0]] + n[1..];
    assert HasName(o, t.mirCfg.name) <==> t.mirCfg.name == o[0].name || HasName(o[1..], t.mirCfg.name);
    assert HasName(n, t.mirCfg.name) <==> t.mirCfg.name == n[0].name || HasName(n[1..], t.mirCfg.name);
  }

  lemma {:induction false} DiffExact(o: seq<MirrorConfig>, n: seq<MirrorConfig>, t: Trans)
    requires StrictlySorted(o) && StrictlySorted(n)
    ensures t in DiffSorted(o, n) <==> Wanted(o, n, t)
    decreases |o| + |n|
  {
    if o == [] && n == [] {
    } else if o == [] || (n != [] && Less(n[0].name, o[0].name)) {
      HeadBefore(n, n[0].name);
      if o != [] {
        HeadBefore(o, n[0].name);
      }
      BeforeExcludes(n[0].name, o);
      BeforeExcludes(n[0].name, n[1..]);
      DiffExact(o, n[1..], t);
      WantedAdd(o, n, t);
    } else if n == [] || Less(o[0].name, n[0].name) {
      HeadBefore(o, o[0].name);
      if n != [] {
        HeadBefore(n, o[0].name);
      }
      BeforeExcludes(o[0].name, o[1..]);
      BeforeExcludes(o[0].name, n);
      DiffExact(o[1..], n, t);
      WantedDelete(o, n, t);
    } else {
      LessConnected(o[0].name, n[0].name);
      HeadBefore(o, o[0].name);
      HeadBefore(n, n[0].name);
      BeforeExcludes(o[0].name, o[1..]);
      BeforeExcludes(n[0].name, n[1..]);
      DiffExact(o[1..], n[1..], t);
      WantedBoth(o, n, t);
    }
  }

  // ---------------------------------------------------------------- sentinel

  /** The first byte that is not `~` is below `~`, or there is none. */
  predicate SentinelOk(s: Bytes) {
    s == [] || s[0] < TILDE || (s[0] == TILDE && SentinelOk(s[1..]))
  }

  /** `"~" + s` is greater than `s` exactly for these names. */
  lemma {:induction false} SentinelIff(s: Bytes)
    ensures [TILDE] == Ascii("~")
    ensures Less(s, [TILDE] + s) <==> SentinelOk(s)
  {
    if s != [] && s[0] == TILDE {
      SentinelIff(s[1..]);
      assert ([TILDE] + s)[1..] == s == [TILDE] + s[1..];
    }
  }

  /** A sentinel above every name leaves the difference as it is. */
  lemma {:induction false} SentinelNeutral(o: seq<MirrorConfig>, n: seq<MirrorConfig>, nil: MirrorConfig)
    requires forall c :: c in o || c in n ==> Less(c.name, nil.name)
    ensures DiffSorted(o + [nil], n + [nil]) == DiffSorted(o, n)
    decreases |o| + |n|
  {
    LessIrreflexive(nil.name);
    forall c | c in o || c in n
      ensures !Less(nil.name, c.name)
    {
      LessAsymmetric(c.name, nil.name);
    }
    var o', n' := o + [nil], n + [nil];
    if o == [] && n == [] {
      assert o'[1..] == [] && n'[1..] == [];
    } else if o == [] || (n != [] && Less(n[0].name, o[0].name)) {
      assert n'[0] == n[0] && n'[1..] == n[1..] + [nil];
      SentinelNeutral(o, n[1..], nil);
    } else if n == [] || Less(o[0].name, n[0].name) {
      assert o'[0] == o[0] && o'[1..] == o[1..] + [nil];
      SentinelNeutral(o[1..], n, nil);
    } else {
      assert o'[0] == o[0] && o'[1..] == o[1..] + [nil];
      assert n'[0] == n[0] && n'[1..] == n[1..] + [nil];
      SentinelNeutral(o[1..], n[1..], nil);
    }
  }

  function MaxName(oList: seq<MirrorConfig>, nList: seq<MirrorConfig>): Bytes
    requires oList != [] && nList != []
  {
    var lastOld, lastNew := oList[|oList| - 1].name, nList[|nList| - 1].name;
    if Less(lastOld, lastNew) then lastNew else lastOld
  }

  /** When the sentinel check panics. */
  predicate SentinelFails(oldList: seq<MirrorConfig>, newList: seq<MirrorConfig>) {
    oldList != [] && newList != [] && !SentinelOk(MaxName(SortByName(oldList), SortByName(newList)))
  }

  /** The difference of two unsorted lists. */
  function Operations(oldList: seq<MirrorConfig>, newList: seq<MirrorConfig>): seq<Trans> {
    DiffSorted(SortByName(oldList), SortByName(newList))
  }

  /** Any two lists that are not empty and whose largest name starts with a byte above `~`
      make the check panic. */
  lemma ByteAboveTildePanics(oldList: seq<MirrorConfig>, newList: seq<MirrorConfig>)
    requires oldList != [] && newList != []
    requires var name := MaxName(SortByName(oldList), SortByName(newList)); name != [] && name[0] > TILDE
    ensures SentinelFails(oldList, newList)
  {
  }

  /** For instance the letter e with an acute accent, in UTF-8, as the only mirror of both. */
  lemma AccentPanics(settings: map<Bytes, Bytes>, settings': map<Bytes, Bytes>)
    ensures SentinelFails([MirrorConfig([195, 169], settings)], [MirrorConfig([195, 169], settings')])
  {
    var o, n := [MirrorConfig([195, 169], settings)], [MirrorConfig([195, 169], settings')];
    assert SortByName(o) == o && SortByName(n) == n by {
      assert o[1..] == [] && n[1..] == [];
    }
    ByteAboveTildePanics(o, n);
  }

  lemma MaxNameIsMax(o: seq<MirrorConfig>, n: seq<MirrorConfig>, c: MirrorConfig)
    requires Sorted(o) && Sorted(n) && o != [] && n != []
    requires c in o || c in n
    ensures !Less(MaxName(o, n), c.name)
  {
    var lastOld, lastNew, m := o[|o| - 1].name, n[|n| - 1].name, MaxName(o, n);
    LessIrreflexive(c.name);
    if Less(m, c.name) {
      if c in o {
        LessConnected(m, lastOld);
        if m != lastOld {
          LessTransitive(lastOld, m, c.name);
        }
      } else {
        LessConnected(m, lastNew);
        if m != lastNew {
          LessTransitive(lastNew, m, c.name);
        }
      }
    }
  }

  lemma SentinelAbove(o: seq<MirrorConfig>, n: seq<MirrorConfig>, nil: Bytes)
    requires Sorted(o) && Sorted(n) && o != [] && n != [] && Less(MaxName(o, n), nil)
    ensures forall c :: c in o || c in n ==> Less(c.name, nil)
  {
    forall c | c in o || c in n
      ensures Less(c.name, nil)
    {
      MaxNameIsMax(o, n, c);
      LessConnected(c.name, MaxName(o, n));
      if c.name != MaxName(o, n) {
        LessTransitive(c.name, MaxName(o, n), nil);
      }
    }
  }

  // ---------------------------------------------------------------- the merge loop

  /** One round of the merge loop, on what is left of the lists. */
  lemma MergeStep(oList: seq<MirrorConfig>, nList: seq<MirrorConfig>, i: nat, j: nat)
    requires i < |oList| && j < |nList|
    ensures var o, n, all := oList[i], nList[j], DiffSorted(oList[i..], nList[j..]);
            if Less(n.name, o.name) then all == [Trans(DiffAdd, n)] + DiffSorted(oList[i..], nList[j + 1..])
            else if Less(o.name, n.name) then all == [Trans(DiffDelete, o)] + DiffSorted(oList[i + 1..], nList[j..])
            else all == (if o != n then [Trans(DiffModify, n)] else []) + DiffSorted(oList[i + 1..], nList[j + 1..])
  {
    var os, ns := oList[i..], nList[j..];
    assert os[1..] == oList[i + 1..] && ns[1..] == nList[j + 1..];
  }

  /** The sentinel ends the list, and is above everything before it. */
  ghost predicate Closed(l: seq<MirrorConfig>, nil: MirrorConfig) {
    && l != [] && l[|l| - 1] == nil
    && forall k :: 0 <= k < |l| - 1 ==> Less(l[k].name, nil.name) && !Less(nil.name, l[k].name)
  }

  /** The merge loop ends with both indices at the end: the last step pairs the two sentinels. */
  method MergeLoop(oList: seq<MirrorConfig>, nList: seq<MirrorConfig>, nil: MirrorConfig)
    returns (operations: seq<Trans>, i: nat, j: nat)
    requires Closed(oList, nil) && Closed(nList, nil)
    ensures i == |oList| && j == |nList| && operations == DiffSorted(oList, nList)
  {
    operations, i, j := [], 0, 0;
    ghost var all := DiffSorted(oList, nList);
    ghost var rest := all;
    assert oList[0..] == oList && nList[0..] == nList;
    LessIrreflexive(nil.name);
    while i < |oList| && j < |nList|
      invariant 0 <= i <= |oList| && 0 <= j <= |nList|
      invariant i == |oList| <==> j == |nList|
      invariant rest == DiffSorted(oList[i..], nList[j..])
      invariant operations + rest == all
      decreases |oList| - i + |nList| - j
    {
      var o, n := oList[i], nList[j];
      MergeStep(oList, nList, i, j);
      ghost var done := operations;
      if Less(n.name, o.name) {
        operations := operations + [Trans(DiffAdd, n)];
        j := j + 1;
      } else if Less(o.name, n.name) {
        operations := operations + [Trans(DiffDelete, o)];
        i := i + 1;
      } else {
        if o != n {
          operations := operations + [Trans(DiffModify, n)];
        }
        i := i + 1;
        j := j + 1;
      }
      ghost var left := DiffSorted(oList[i..], nList[j..]);
      Regroup(done, operations, rest, left);
      rest := left;
    }
  }

  lemma Regroup(done: seq<Trans>, done': seq<Trans>, rest: seq<Trans>, rest': seq<Trans>)
    requires done <= done' && rest == done'[|done|..] + rest'
    ensures done + rest == done' + rest'
  {
  }

  lemma {:induction false} DeletesOnly(oList: seq<MirrorConfig>)
    ensures DiffSorted(oList, []) == seq(|oList|, k requires 0 <= k < |oList| => Trans(DiffDelete, oList[k]))
  {
    if oList != [] {
      DeletesOnly(oList[1..]);
    }
  }

  lemma {:induction false} AddsOnly(nList: seq<MirrorConfig>)
    ensures DiffSorted([], nList) == seq(|nList|, k requires 0 <= k < |nList| => Trans(DiffAdd, nList[k]))
  {
    if nList != [] {
      AddsOnly(nList[1..]);
    }
  }

  /** The branch without a merge: one of the lists is empty. */
  method OneSided(oList: seq<MirrorConfig>, nList: seq<MirrorConfig>) returns (operations: seq<Trans>)
    requires oList == [] || nList == []
    ensures operations == DiffSorted(oList, nList)
  {
    operations := [];
    DeletesOnly(oList);
    AddsOnly(nList);
    var i := 0;
    while i < |oList|
      invariant 0 <= i <= |oList| && |operations| == i
      invariant forall k :: 0 <= k < i ==> operations[k] == Trans(DiffDelete, oList[k])
    {
      operations := operations + [Trans(DiffDelete, oList[i])];
      i := i + 1;
    }
    ghost var deletes := operations;
    i := 0;
    while i < |nList|
      invariant 0 <= i <= |nList| && |operations| == |oList| + i
      invariant nList == [] ==> operations == deletes
      invariant oList == [] ==> forall k :: 0 <= k < i ==> operations[k] == Trans(DiffAdd, nList[k])
    {
      operations := operations + [Trans(DiffAdd, nList[i])];
      i := i + 1;
    }
  }

  /** Closes two sorted lists by a sentinel and merges them. */
  method MergeClosed(oldList: seq<MirrorConfig>, newList: seq<MirrorConfig>, nil: MirrorConfig)
    returns (operations: seq<Trans>)
    requires oldList != [] && newList != []
    requires Less(MaxName(SortByName(oldList), SortByName(newList)), nil.name)
    ensures operations == Operations(oldList, newList)
  {
    SentinelClosesBoth(oldList, newList, nil);
    var i, j;
    operations, i, j := MergeLoop(SortByName(oldList) + [nil], SortByName(newList) + [nil], nil);
  }

  method DiffMirrorConfig(oldList: seq<MirrorConfig>, newList: seq<MirrorConfig>) returns (r: DiffResult)
    ensures r.SentinelPanic? <==> SentinelFails(oldList, newList)
    ensures r.Difference? ==> r.operations == Operations(oldList, newList)
  {
    var oList, nList := SortByName(oldList), SortByName(newList);
    var operations;
    SentinelCheck(oldList, newList);
    if |oList| != 0 && |nList| != 0 {
      var lastOld, lastNew := oList[|oList| - 1], nList[|nList| - 1];
      var maxName := lastOld.name;
      if Less(lastOld.name, lastNew.name) {
        maxName := lastNew.name;
      }
      var nil := MirrorConfig([TILDE] + maxName, map[]);
      if !Less(maxName, nil.name) {
        return SentinelPanic;
      }
      operations := MergeClosed(oldList, newList, nil);
    } else {
      operations := OneSided(oList, nList);
    }
    return Difference(operations);
  }

  /** What the check of the sentinel decides. */
  lemma SentinelCheck(oldList: seq<MirrorConfig>, newList: seq<MirrorConfig>)
    ensures SentinelFails(oldList, newList) <==>
              && oldList != [] && newList != []
              && var m := MaxName(SortByName(oldList), SortByName(newList)); !Less(m, [TILDE] + m)
  {
    if oldList != [] && newList != [] {
      SentinelIff(MaxName(SortByName(oldList), SortByName(newList)));
    }
  }

  lemma ClosedBy(l: seq<MirrorConfig>, nil: MirrorConfig)
    requires forall c :: c in l ==> Less(c.name, nil.name)
    ensures Closed(l + [nil], nil)
  {
    forall c | c in l
      ensures !Less(nil.name, c.name)
    {
      LessAsymmetric(c.name, nil.name);
    }
  }

  /** What the sentinel does to the two sorted lists. */
  lemma {:induction false} SentinelClosesBoth(oldList: seq<MirrorConfig>, newList: seq<MirrorConfig>, nil: MirrorConfig)
    requires oldList != [] && newList != []
    requires Less(MaxName(SortByName(oldList), SortByName(newList)), nil.name)
    ensures var o, n := SortByName(oldList), SortByName(newList);
            && Closed(o + [nil], nil) && Closed(n + [nil], nil)
            && DiffSorted(o + [nil], n + [nil]) == DiffSorted(o, n)
  {
    var o, n := SortByName(oldList), SortByName(newList);
    SortSorts(oldList);
    SortSorts(newList);
    SentinelAbove(o, n, nil.name);
    ClosedBy(o, nil);
    ClosedBy(n, nil);
    SentinelNeutral(o, n, nil);
  }

  // ---------------------------------------------------------------- meaning

  /** Only membership matters for what is wanted. */
  lemma WantedByMembers(
    o: seq<MirrorConfig>, n: seq<MirrorConfig>, o': seq<MirrorConfig>, n': seq<MirrorConfig>, t: Trans)
    requires forall c :: c in o <==> c in o'
    requires forall c :: c in n <==> c in n'
    ensures Wanted(o, n, t) <==> Wanted(o', n', t)
  {
  }

  lemma {:induction false} SortedStrictly(l: seq<MirrorConfig>)
    requires UniqueNames(l)
    ensures StrictlySorted(SortByName(l))
    ensures forall c :: c in SortByName(l) <==> c in l
  {
    SortSorts(l);
    UniqueFromCounts(l, SortByName(l));
    StrictFromUnique(SortByName(l));
    forall c: MirrorConfig
      ensures c in SortByName(l) <==> c in l
    {
      SameMembers(l, c);
    }
  }

  /** The operations, for lists with unique names: strictly increasing names, a
      delete for exactly the old-only entries, an add for exactly the new-only
      entries and a modify for exactly the common names whose entries differ. */
  lemma DifferenceExact(oldList: seq<MirrorConfig>, newList: seq<MirrorConfig>, t: Trans)
    requires UniqueNames(oldList) && UniqueNames(newList)
    ensures var ops := Operations(oldList, newList);
            Increasing(ops) && (t in ops <==> Wanted(oldList, newList, t))
  {
    SortedStrictly(oldList);
    SortedStrictly(newList);
    DiffIncreasing(SortByName(oldList), SortByName(newList));
    DiffExact(SortByName(oldList), SortByName(newList), t);
    WantedByMembers(SortByName(oldList), SortByName(newList), oldList, newList, t);
  }

  /** A list of configurations as a map from names. */
  ghost function AsMap(l: seq<MirrorConfig>): (m: map<Bytes, MirrorConfig>)
    ensures forall x :: x in m <==> HasName(l, x)
    ensures UniqueNames(l) ==> forall c :: c in l ==> c.name in m && m[c.name] == c
  {
    if l == [] then map[]
    else
      var front, last := l[..|l| - 1], l[|l| - 1];
      assert l == front + [last];
      AsMap(front)[last.name := last]
  }

  function ApplyOp(m: map<Bytes, MirrorConfig>, t: Trans): map<Bytes, MirrorConfig> {
    if t.diffOp.DiffDelete? then m - {t.mirCfg.name} else m[t.mirCfg.name := t.mirCfg]
  }

  function Replay(m: map<Bytes, MirrorConfig>, ops: seq<Trans>): map<Bytes, MirrorConfig>
    decreases |ops|
  {
    if ops == [] then m else Replay(ApplyOp(m, ops[0]), ops[1..])
  }

  /** Replaying touches a name only through the one operation on it. */
  lemma {:induction false} ReplayAt(m: map<Bytes, MirrorConfig>, ops: seq<Trans>, x: Bytes)
    requires Increasing(ops)
    ensures (forall t :: t in ops ==> t.mirCfg.name != x) ==>
              (x in Replay(m, ops) <==> x in m) && (x in m ==> Replay(m, ops)[x] == m[x])
    ensures forall t :: t in ops && t.mirCfg.name == x ==>
              if t.diffOp.DiffDelete? then x !in Replay(m, ops)
              else x in Replay(m, ops) && Replay(m, ops)[x] == t.mirCfg
    decreases |ops|
  {
    if ops != [] {
      ReplayAt(ApplyOp(m, ops[0]), ops[1..], x);
      if ops[0].mirCfg.name == x {
        forall t | t in ops[1..]
          ensures t.mirCfg.name != x
        {
          LessIrreflexive(x);
        }
      }
    }
  }

  /** Replaying the difference on the old configuration yields the new one. */
  lemma {:induction false} ReplayYieldsNew(oldList: seq<MirrorConfig>, newList: seq<MirrorConfig>)
    requires UniqueNames(oldList) && UniqueNames(newList)
    ensures Replay(AsMap(oldList), Operations(oldList, newList)) == AsMap(newList)
  {
    var ops := Operations(oldList, newList);
    var m, goal := Replay(AsMap(oldList), ops), AsMap(newList);
    forall x: Bytes
      ensures (x in m <==> x in goal) && (x in goal ==> m[x] == goal[x])
    {
      ReplayName(oldList, newList, x);
    }
  }

  /** No operation is on `x` unless `x` is to be added, deleted or changed. */
  lemma Untouched(oldList: seq<MirrorConfig>, newList: seq<MirrorConfig>, x: Bytes, t: Trans)
    requires UniqueNames(oldList) && UniqueNames(newList)
    requires HasName(oldList, x) <==> HasName(newList, x)
    requires HasName(oldList, x) ==> exists c :: c in oldList && c in newList && c.name == x
    requires t in Operations(oldList, newList)
    ensures t.mirCfg.name != x
  {
    DifferenceExact(oldList, newList, t);
  }

  lemma {:induction false} ReplayName(oldList: seq<MirrorConfig>, newList: seq<MirrorConfig>, x: Bytes)
    requires UniqueNames(oldList) && UniqueNames(newList)
    ensures var m := Replay(AsMap(oldList), Operations(oldList, newList));
            (x in m <==> x in AsMap(newList)) && (x in m ==> m[x] == AsMap(newList)[x])
  {
    var ops := Operations(oldList, newList);
    DifferenceExact(oldList, newList, Trans(DiffAdd, MirrorConfig(x, map[])));
    ReplayAt(AsMap(oldList), ops, x);
    if HasName(newList, x) {
      var n :| n in newList && n.name == x;
      ReplayNewName(oldList, newList, n);
    } else if HasName(oldList, x) {
      var o :| o in oldList && o.name == x;
      DifferenceExact(oldList, newList, Trans(DiffDelete, o));
    } else {
      forall t | t in ops
        ensures t.mirCfg.name != x
      {
        Untouched(oldList, newList, x, t);
      }
    }
  }

  lemma {:induction false} ReplayNewName(oldList: seq<MirrorConfig>, newList: seq<MirrorConfig>, n: MirrorConfig)
    requires UniqueNames(oldList) && UniqueNames(newList) && n in newList
    ensures var m := Replay(AsMap(oldList), Operations(oldList, newList));
            n.name in m && m[n.name] == n
  {
    var ops := Operations(oldList, newList);
    DifferenceExact(oldList, newList, Trans(DiffAdd, n));
    ReplayAt(AsMap(oldList), ops, n.name);
    if HasName(oldList, n.name) {
      var o :| o in oldList && o.name == n.name;
      if o != n {
        DifferenceExact(oldList, newList, Trans(DiffModify, n));
      } else {
        forall t | t in ops
          ensures t.mirCfg.name != n.name
        {
          Untouched(oldList, newList, n.name, t);
        }
      }
    }
  }
}
