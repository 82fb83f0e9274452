/**
 Cluster chains of a FAT16 volume, over two values: the entries of the file allocation table
 and the data area, in which cluster `c` (the first one is number 2) starts at (c - 2) * b.
 */
module Fat16 {
  import opened Arithmetic

  type Byte = x: nat | x < 256

  datatype Vol = Vol(fat: seq<nat>, area: seq<Byte>)

  /** `b` is the number of bytes in a cluster; the area also covers two cluster numbers the table never hands out. */
  ghost predicate Sized(b: nat, v: Vol) {
    b > 0 && |v.fat| >= 2 && |v.area| == |v.fat| * b
  }

  /** `cs` holds cluster numbers only. */
  ghost predicate InTable(n: nat, cs: seq<nat>) {
    forall i | 0 <= i < |cs| :: 2 <= cs[i] < n
  }

  function Min(x: nat, y: nat): nat { if x <= y then x else y }

  // ---- Chains ----

  /** `cs` is a chain: distinct clusters, each entry naming the next, the last one the end marker. */
  ghost predicate IsChain(fat: seq<nat>, eoc: nat, cs: seq<nat>) {
    && InTable(|fat|, cs)
    && (forall i, j | 0 <= i < j < |cs| :: cs[i] != cs[j])
    && (forall i | 0 <= i < |cs| :: Follows(fat, eoc, cs, i))
  }

  ghost predicate Follows(fat: seq<nat>, eoc: nat, cs: seq<nat>, i: nat)
    requires i < |cs|
  {
    cs[i] < |fat| && fat[cs[i]] == if i + 1 < |cs| then cs[i + 1] else eoc
  }

  /** An end marker is no cluster number and no free entry. */
  ghost predicate EndMarker(fat: seq<nat>, eoc: nat) {
    eoc >= |fat| && eoc > 0
  }

  function FindFree(fat: seq<nat>, i: nat): (c: nat)
    requires i >= 1
    ensures c != 0 ==> i <= c < |fat| && fat[c] == 0 && forall j | i <= j < c :: fat[j] != 0
    ensures c == 0 ==> forall j | i <= j < |fat| :: fat[j] != 0
    decreases |fat| - i
  {
    if i >= |fat| then 0 else if fat[i] == 0 then i else FindFree(fat, i + 1)
  }

  /** Gives every entry of `cs` the value `x`. */
  function SetAll(fat: seq<nat>, cs: seq<nat>, x: nat): (r: seq<nat>)
    requires InTable(|fat|, cs)
    ensures |r| == |fat|
    ensures forall j | 0 <= j < |fat| :: r[j] == if j in cs then x else fat[j]
    decreases |cs|
  {
    if cs == [] then fat else SetAll(fat[cs[0] := x], cs[1..], x)
  }

  function Link(fat: seq<nat>, cs: seq<nat>, c: nat, eoc: nat): (r: seq<nat>)
    requires c < |fat| && InTable(|fat|, cs)
    ensures |r| == |fat|
  {
    var f := fat[c := eoc];
    if cs == [] then f else f[cs[|cs| - 1] := c]
  }

  function Splice(s: seq<Byte>, at: nat, x: seq<Byte>): (r: seq<Byte>)
    requires at + |x| <= |s|
    ensures |r| == |s|
  {
    s[..at] + x + s[at + |x|..]
  }

  /** Where cluster `c` starts in the data area. */
  function Base(b: nat, c: nat): (r: nat)
    requires 2 <= c
  {
    (c - 2) * b
  }

  // ---- Adding and removing data ----

  lemma ClusterFits(b: nat, v: Vol, c: nat)
    requires Sized(b, v) && 2 <= c < |v.fat|
    ensures Base(b, c) + 2 * b <= |v.area| && Base(b, c + 1) == Base(b, c) + b
  {
    MulMono(c, |v.fat|, b);
    MulDistr(b, c, 2);
    MulDistr(b, c - 2, 1);
  }

  /** fat_add_data after the clusters `cs` have been filled: the new volume and the chain, empty if space ran out. */
  function AddLoop(b: nat, v: Vol, eoc: nat, fatIndex: nat, data: seq<Byte>, cs: seq<nat>): (r: (Vol, seq<nat>))
    requires Sized(b, v) && InTable(|v.fat|, cs)
    ensures Sized(b, r.0) && |r.0.fat| == |v.fat| && InTable(|v.fat|, r.1)
    decreases |data|
  {
    if data == [] then (v, cs)
    else
      var c := FindFree(v.fat, 2);
      if c == 0 then (v.(fat := SetAll(v.fat, cs, fatIndex)), [])
      else
        var n := Min(|data|, b);
        ClusterFits(b, v, c);
        AddLoop(b, Vol(Link(v.fat, cs, c, eoc), Splice(v.area, Base(b, c), data[..n])), eoc, fatIndex, data[n..], cs + [c])
  }

  function AddData(b: nat, v: Vol, fatIndex: nat, data: seq<Byte>): (r: (Vol, seq<nat>))
    requires Sized(b, v)
    ensures Sized(b, r.0) && |r.0.fat| == |v.fat|
  {
    AddLoop(b, v, v.fat[1], fatIndex, data, [])
  }

  // ---- What a chain holds ----

  function Cluster(b: nat, v: Vol, c: nat): (r: seq<Byte>)
    requires Sized(b, v) && 2 <= c < |v.fat|
    ensures |r| == b
  {
    ClusterFits(b, v, c);
    v.area[Base(b, c)..Base(b, c) + b]
  }

  function Contents(b: nat, v: Vol, cs: seq<nat>): (r: seq<Byte>)
    requires Sized(b, v) && InTable(|v.fat|, cs)
    ensures |r| == |cs| * b
  {
    if cs == [] then [] else
      MulDistr(b, |cs| - 1, 1);
      Cluster(b, v, cs[0]) + Contents(b, v, cs[1..])
  }

  /** How many clusters `n` bytes take. */
  function Clusters(b: nat, n: nat): nat
    requires b > 0
  {
    (n + b - 1) / b
  }

  lemma ClustersStep(b: nat, n: nat)
    requires b > 0 && n > 0
    ensures Clusters(b, n) == 1 + Clusters(b, n - Min(n, b)) && Clusters(b, 0) == 0
  {
    DivModUnique(b - 1, b, 0, b - 1);
    if n > b {
      DivBounds(n - 1, b);
      MulDistr(b, (n - 1) / b, 1);
      DivModUnique(n + b - 1, b, (n - 1) / b + 1, (n - 1) % b);
    } else {
      DivModUnique(n + b - 1, b, 1, n - 1);
    }
  }

  // ---- The invariant of fat_add_data ----

  /** The chain so far is a chain, in increasing order, and nothing at or below its last cluster is free. */
  ghost predicate Growing(fat: seq<nat>, eoc: nat, cs: seq<nat>) {
    && EndMarker(fat, eoc) && IsChain(fat, eoc, cs)
    && (forall i, j | 0 <= i < j < |cs| :: cs[i] < cs[j])
    && (cs != [] ==> forall k | 2 <= k <= cs[|cs| - 1] :: fat[k] != 0)
  }

  lemma LinkAt(fat: seq<nat>, eoc: nat, cs: seq<nat>, c: nat)
    requires Growing(fat, eoc, cs) && c == FindFree(fat, 2) && c != 0
    ensures 2 <= c < |fat| && fat[c] == 0 && (cs != [] ==> cs[|cs| - 1] < c) && c !in cs
    ensures var f := Link(fat, cs, c, eoc); |f| == |fat| && forall k | 0 <= k < |fat| ::
      f[k] == if k == c then eoc else if cs != [] && k == cs[|cs| - 1] then c else fat[k]
  {
    if cs != [] {
      assert cs[|cs| - 1] < c;
      forall i | 0 <= i < |cs| ensures cs[i] < c {
        assert i < |cs| - 1 ==> cs[i] < cs[|cs| - 1];
      }
    }
  }

  lemma LinkGrows(fat: seq<nat>, eoc: nat, cs: seq<nat>, c: nat)
    requires Growing(fat, eoc, cs) && c == FindFree(fat, 2) && c != 0
    ensures Growing(Link(fat, cs, c, eoc), eoc, cs + [c])
  {
    LinkAt(fat, eoc, cs, c);
    var f, ds := Link(fat, cs, c, eoc), cs + [c];
    hide Link;
    forall i | 0 <= i < |ds| ensures Follows(f, eoc, ds, i) {
      if i < |cs| {
        assert Follows(fat, eoc, cs, i);
        assert i < |cs| - 1 ==> cs[i] != cs[|cs| - 1];
      }
    }
    forall i, j | 0 <= i < j < |ds| ensures ds[i] < ds[j] {
      assert j == |cs| && i < |cs| - 1 ==> cs[i] < cs[|cs| - 1];
    }
  }

  /** `fat` is `orig` but for the clusters of `cs`, which were free. */
  ghost predicate Since(orig: seq<nat>, fat: seq<nat>, cs: seq<nat>) {
    && |orig| == |fat|
    && (forall j | 0 <= j < |fat| && j !in cs :: fat[j] == orig[j])
    && (forall j | 0 <= j < |fat| && j in cs :: orig[j] == 0)
  }

  lemma LinkSince(orig: seq<nat>, fat: seq<nat>, eoc: nat, cs: seq<nat>, c: nat)
    requires Growing(fat, eoc, cs) && c == FindFree(fat, 2) && c != 0 && Since(orig, fat, cs)
    ensures Since(orig, Link(fat, cs, c, eoc), cs + [c])
  {
    LinkAt(fat, eoc, cs, c);
  }

  /** The volume after one more cluster has been filled. */
  function AddOne(b: nat, v: Vol, eoc: nat, data: seq<Byte>, cs: seq<nat>, c: nat): (w: Vol)
    requires Sized(b, v) && InTable(|v.fat|, cs) && 2 <= c < |v.fat|
    ensures Sized(b, w) && |w.fat| == |v.fat|
  {
    ClusterFits(b, v, c);
    Vol(Link(v.fat, cs, c, eoc), Splice(v.area, Base(b, c), data[..Min(|data|, b)]))
  }

  /** If space does not run out, the result is the chain extended by as many free clusters as the data needs. */
  lemma {:induction false} AddChain(b: nat, v: Vol, eoc: nat, fatIndex: nat, data: seq<Byte>, cs: seq<nat>, orig: seq<nat>)
    requires Sized(b, v) && InTable(|v.fat|, cs) && Growing(v.fat, eoc, cs) && Since(orig, v.fat, cs)
    ensures var (w, ds) := AddLoop(b, v, eoc, fatIndex, data, cs);
      data == [] || ds != [] ==>
        && Growing(w.fat, eoc, ds) && Since(orig, w.fat, ds)
        && cs <= ds && |ds| == |cs| + Clusters(b, |data|)
    decreases |data|
  {
    hide Growing, Since, Clusters;
    if data == [] {
      ClustersStep(b, 1);
    } else {
      var c := FindFree(v.fat, 2);
      if c != 0 {
        var n := Min(|data|, b);
        LinkGrows(v.fat, eoc, cs, c);
        LinkSince(orig, v.fat, eoc, cs, c);
        AddChain(b, AddOne(b, v, eoc, data, cs, c), eoc, fatIndex, data[n..], cs + [c], orig);
        ClustersStep(b, |data|);
      }
    }
  }

  /** `fat` is `orig` but for the free clusters `es`, which have been given the value `x`. */
  ghost predicate Marked(orig: seq<nat>, fat: seq<nat>, es: seq<nat>, x: nat) {
    && |fat| == |orig|
    && (forall i | 0 <= i < |es| :: 2 <= es[i] < |orig| && orig[es[i]] == 0)
    && (forall j | 0 <= j < |orig| :: fat[j] == if j in es then x else orig[j])
  }

  /** Space has run out only when every cluster that was free has been taken. */
  lemma GivenUp(orig: seq<nat>, fat: seq<nat>, eoc: nat, cs: seq<nat>, x: nat)
    requires Growing(fat, eoc, cs) && Since(orig, fat, cs) && FindFree(fat, 2) == 0
    ensures Marked(orig, SetAll(fat, cs, x), cs, x) && AllTaken(orig, cs)
  {
    forall i | 0 <= i < |cs| ensures orig[cs[i]] == 0 {
      assert cs[i] in cs;
    }
  }

  ghost predicate AllTaken(orig: seq<nat>, es: seq<nat>) {
    forall c | 2 <= c < |orig| && orig[c] == 0 :: c in es
  }

  /** If space runs out, every cluster that was free (`es`) is given the value `fatIndex`, and nothing else changes. */
  lemma {:induction false} AddFails(b: nat, v: Vol, eoc: nat, fatIndex: nat, data: seq<Byte>, cs: seq<nat>, orig: seq<nat>)
    returns (es: seq<nat>)
    requires Sized(b, v) && InTable(|v.fat|, cs) && Growing(v.fat, eoc, cs) && Since(orig, v.fat, cs)
    ensures var (w, ds) := AddLoop(b, v, eoc, fatIndex, data, cs);
      data != [] && ds == [] ==> Marked(orig, w.fat, es, fatIndex) && AllTaken(orig, es) && cs <= es
    decreases |data|
  {
    es := cs;
    if data != [] {
      var c := FindFree(v.fat, 2);
      if c != 0 {
        var n := Min(|data|, b);
        LinkGrows(v.fat, eoc, cs, c);
        LinkSince(orig, v.fat, eoc, cs, c);
        hide Growing, Since, Marked, AllTaken;
        es := AddFails(b, AddOne(b, v, eoc, data, cs, c), eoc, fatIndex, data[n..], cs + [c], orig);
      } else {
        GivenUp(orig, v.fat, eoc, cs, fatIndex);
      }
    }
  }

  // ---- Free space ----

  function Free(fat: seq<nat>): set<nat> {
    set c | 2 <= c < |fat| && fat[c] == 0
  }

  lemma LinkFree(fat: seq<nat>, eoc: nat, cs: seq<nat>, c: nat)
    requires Growing(fat, eoc, cs) && c == FindFree(fat, 2) && c != 0
    ensures c in Free(fat) && Free(Link(fat, cs, c, eoc)) == Free(fat) - {c}
  {
    LinkAt(fat, eoc, cs, c);
    assert cs != [] ==> fat[cs[|cs| - 1]] != 0;
  }

  /** Data is accepted exactly when there are enough free clusters for it. */
  lemma {:induction false} AddSpace(b: nat, v: Vol, eoc: nat, fatIndex: nat, data: seq<Byte>, cs: seq<nat>)
    requires Sized(b, v) && InTable(|v.fat|, cs) && Growing(v.fat, eoc, cs)
    ensures (data == [] || AddLoop(b, v, eoc, fatIndex, data, cs).1 != []) <==> Clusters(b, |data|) <= |Free(v.fat)|
    decreases |data|
  {
    if data == [] {
      ClustersStep(b, 1);
    } else {
      ClustersStep(b, |data|);
      var c := FindFree(v.fat, 2);
      if c == 0 {
        assert Free(v.fat) == {};
      } else {
        var n := Min(|data|, b);
        LinkGrows(v.fat, eoc, cs, c);
        LinkFree(v.fat, eoc, cs, c);
        hide Growing, Free;
        AddSpace(b, AddOne(b, v, eoc, data, cs, c), eoc, fatIndex, data[n..], cs + [c]);
      }
    }
  }

  // ---- The bytes ----

  lemma ClustersApart(b: nat, c: nat, d: nat)
    requires 2 <= c < d
    ensures Base(b, c) + b <= Base(b, d)
  {
    MulMono(c - 1, d - 2, b);
    MulDistr(b, c - 2, 1);
  }

  lemma SpliceSlice(s: seq<Byte>, at: nat, x: seq<Byte>, i: nat, j: nat)
    requires at + |x| <= |s| && i <= j <= |s|
    ensures j <= at || at + |x| <= i ==> Splice(s, at, x)[i..j] == s[i..j]
    ensures i == at && j >= at + |x| ==> Splice(s, at, x)[i..j] == x + s[at + |x|..j]
  {
    var r := Splice(s, at, x);
    assert forall k | 0 <= k < at :: r[k] == s[k];
    assert forall k | at + |x| <= k < |s| :: r[k] == s[k];
    assert forall k | 0 <= k < |x| :: r[at + k] == x[k];
  }

  /** Filling a cluster changes its first bytes and no other cluster. */
  lemma FillCluster(b: nat, v: Vol, c: nat, x: seq<Byte>, d: nat)
    requires Sized(b, v) && 2 <= c < |v.fat| && 2 <= d < |v.fat| && |x| <= b && Base(b, c) + b <= |v.area|
    ensures var w := v.(area := Splice(v.area, Base(b, c), x));
      && (d != c ==> Cluster(b, w, d) == Cluster(b, v, d))
      && Cluster(b, w, c) == x + Cluster(b, v, c)[|x|..]
  {
    ClusterFits(b, v, c);
    ClusterFits(b, v, d);
    if d < c { ClustersApart(b, d, c); } else if c < d { ClustersApart(b, c, d); }
    SpliceSlice(v.area, Base(b, c), x, Base(b, d), Base(b, d) + b);
    SpliceSlice(v.area, Base(b, c), x, Base(b, c), Base(b, c) + b);
  }

  lemma SameArea(b: nat, v: Vol, w: Vol, c: nat)
    requires Sized(b, v) && Sized(b, w) && v.area == w.area && 2 <= c < |v.fat| && |w.fat| == |v.fat|
    ensures Cluster(b, v, c) == Cluster(b, w, c)
  {
  }

  lemma AddOneBytes(b: nat, v: Vol, eoc: nat, data: seq<Byte>, cs: seq<nat>, c: nat, d: nat)
    requires Sized(b, v) && InTable(|v.fat|, cs) && 2 <= c < |v.fat| && 2 <= d < |v.fat|
    ensures var w, n := AddOne(b, v, eoc, data, cs, c), Min(|data|, b);
      && (d != c ==> Cluster(b, w, d) == Cluster(b, v, d))
      && Cluster(b, w, c)[..n] == data[..n]
  {
    ClusterFits(b, v, c);
    var n := Min(|data|, b);
    var w := AddOne(b, v, eoc, data, cs, c);
    var u := v.(area := Splice(v.area, Base(b, c), data[..n]));
    FillCluster(b, v, c, data[..n], d);
    SameArea(b, u, w, c);
    SameArea(b, u, w, d);
  }

  lemma {:induction false} ContentsSame(b: nat, v: Vol, w: Vol, cs: seq<nat>)
    requires Sized(b, v) && Sized(b, w) && |w.fat| == |v.fat| && InTable(|v.fat|, cs)
    requires forall i | 0 <= i < |cs| :: Cluster(b, w, cs[i]) == Cluster(b, v, cs[i])
    ensures Contents(b, w, cs) == Contents(b, v, cs)
    decreases |cs|
  {
    if cs != [] {
      assert forall i | 0 <= i < |cs[1..]| :: cs[1..][i] == cs[i + 1];
      ContentsSame(b, v, w, cs[1..]);
    }
  }

  ghost predicate NewPart(b: nat, v: Vol, w: Vol, data: seq<Byte>, ns: seq<nat>)
    requires Sized(b, v) && Sized(b, w) && |w.fat| == |v.fat| && InTable(|v.fat|, ns)
  {
    && |data| <= |ns| * b && Contents(b, w, ns)[..|data|] == data
    && (forall c | 2 <= c < |v.fat| && c !in ns :: Cluster(b, w, c) == Cluster(b, v, c))
  }

  lemma NewPartStep(b: nat, v: Vol, u: Vol, w: Vol, data: seq<Byte>, c: nat, ns: seq<nat>)
    requires Sized(b, v) && Sized(b, u) && Sized(b, w) && |w.fat| == |v.fat| == |u.fat|
    requires 2 <= c < |v.fat| && InTable(|v.fat|, ns) && c !in ns && data != []
    requires NewPart(b, u, w, data[Min(|data|, b)..], ns)
    requires Cluster(b, u, c)[..Min(|data|, b)] == data[..Min(|data|, b)]
    requires forall d | 2 <= d < |v.fat| && d != c :: Cluster(b, u, d) == Cluster(b, v, d)
    ensures NewPart(b, v, w, data, [c] + ns)
  {
    var n := Min(|data|, b);
    assert ([c] + ns)[1..] == ns;
    MulDistr(b, |ns|, 1);
    assert Cluster(b, w, c) == Cluster(b, u, c);
    var rest := Contents(b, w, ns);
    assert Contents(b, w, [c] + ns) == Cluster(b, w, c) + rest;
    assert (Cluster(b, w, c) + rest)[..|data|] == data[..n] + data[n..];
    assert data == data[..n] + data[n..];
  }

  /** The new part of the chain holds the data; no other cluster is touched. */
  lemma {:induction false} AddStores(b: nat, v: Vol, eoc: nat, fatIndex: nat, data: seq<Byte>, cs: seq<nat>)
    requires Sized(b, v) && InTable(|v.fat|, cs) && Growing(v.fat, eoc, cs)
    ensures var (w, ds) := AddLoop(b, v, eoc, fatIndex, data, cs);
      data == [] || ds != [] ==> cs <= ds && NewPart(b, v, w, data, ds[|cs|..])
    decreases |data|
  {
    hide Growing, NewPart;
    var (w, ds) := AddLoop(b, v, eoc, fatIndex, data, cs);
    if data == [] {
      assert ds[|cs|..] == [];
      NothingNew(b, v);
    } else {
      var c := FindFree(v.fat, 2);
      if c != 0 {
        var n, u := Min(|data|, b), AddOne(b, v, eoc, data, cs, c);
        LinkGrows(v.fat, eoc, cs, c);
        assert u.fat == Link(v.fat, cs, c, eoc);
        AddTailFresh(b, u, eoc, fatIndex, data[n..], cs + [c]);
        AddStores(b, u, eoc, fatIndex, data[n..], cs + [c]);
        assert (w, ds) == AddLoop(b, u, eoc, fatIndex, data[n..], cs + [c]);
        if ds != [] {
          hide AddLoop, AddOne;
          assert ds[|cs|..] == [c] + ds[|cs| + 1..];
          assert |cs + [c]| == |cs| + 1;
          OneMore(b, v, eoc, data, cs, c, w, ds[|cs| + 1..]);
        }
      }
    }
  }

  lemma NothingNew(b: nat, v: Vol)
    requires Sized(b, v)
    ensures NewPart(b, v, v, [], [])
  {
  }

  lemma OneMore(b: nat, v: Vol, eoc: nat, data: seq<Byte>, cs: seq<nat>, c: nat, w: Vol, ns: seq<nat>)
    requires Sized(b, v) && Sized(b, w) && |w.fat| == |v.fat| && InTable(|v.fat|, cs)
    requires 2 <= c < |v.fat| && InTable(|v.fat|, ns) && c !in ns && data != []
    requires NewPart(b, AddOne(b, v, eoc, data, cs, c), w, data[Min(|data|, b)..], ns)
    ensures NewPart(b, v, w, data, [c] + ns)
  {
    hide NewPart, AddOne;
    var u := AddOne(b, v, eoc, data, cs, c);
    forall d | 2 <= d < |v.fat| ensures d != c ==> Cluster(b, u, d) == Cluster(b, v, d) {
      AddOneBytes(b, v, eoc, data, cs, c, d);
    }
    AddOneBytes(b, v, eoc, data, cs, c, c);
    NewPartStep(b, v, u, w, data, c, ns);
  }

  lemma AddTailFresh(b: nat, u: Vol, eoc: nat, fatIndex: nat, data: seq<Byte>, cs: seq<nat>)
    requires Sized(b, u) && Growing(u.fat, eoc, cs) && cs != []
    ensures var (w, ds) := AddLoop(b, u, eoc, fatIndex, data, cs);
      (data == [] || ds != []) ==> cs <= ds && cs[|cs| - 1] !in ds[|cs|..]
  {
    var orig := SetAll(u.fat, cs, 0);
    assert Since(orig, u.fat, cs);
    AddChain(b, u, eoc, fatIndex, data, cs, orig);
    var (w, ds) := AddLoop(b, u, eoc, fatIndex, data, cs);
    if data == [] || ds != [] {
      forall i | |cs| <= i < |ds| ensures ds[i] != cs[|cs| - 1] {
        assert ds[|cs| - 1] < ds[i];
      }
    }
  }

  // ---- Reading ----

  /** fat_read_data along the chain `cs`; `off` is the number of bytes in the clusters already passed. */
  function ReadChain(b: nat, v: Vol, cs: seq<nat>, len: nat, skip: nat, off: nat): (r: seq<Byte>)
    requires Sized(b, v) && InTable(|v.fat|, cs)
    decreases |cs|
  {
    if cs == [] || len == 0 then []
    else if off + b > skip then
      var start := if off > skip then 0 else skip - off;
      var count := Min(len, b);
      ClusterFits(b, v, cs[0]);
      var at := Base(b, cs[0]) + start;
      v.area[at..at + count] + ReadChain(b, v, cs[1..], len - count, skip, off + b)
    else ReadChain(b, v, cs[1..], len, skip, off + b)
  }

  /** At most `len` bytes of `s` from `from` on. */
  function Slice(s: seq<Byte>, from: nat, len: nat): (r: seq<Byte>) {
    if from >= |s| then [] else s[from..Min(from + len, |s|)]
  }

  lemma ClusterPart(b: nat, v: Vol, c: nat, i: nat, j: nat)
    requires Sized(b, v) && 2 <= c < |v.fat| && i <= j <= b
    ensures Base(b, c) + b <= |v.area| && v.area[Base(b, c) + i..Base(b, c) + j] == Cluster(b, v, c)[i..j]
  {
    hide Base;
    ClusterFits(b, v, c);
  }

  /** Once past the skipped part, reading gives the contents in order. */
  lemma {:induction false} ReadRest(b: nat, v: Vol, cs: seq<nat>, len: nat, skip: nat, off: nat)
    requires Sized(b, v) && InTable(|v.fat|, cs) && off >= skip
    ensures ReadChain(b, v, cs, len, skip, off) == Slice(Contents(b, v, cs), 0, len)
    decreases |cs|
  {
    hide Base, Slice, Cluster;
    if cs != [] && len > 0 {
      var count := Min(len, b);
      ReadRest(b, v, cs[1..], len - count, skip, off + b);
      ClusterPart(b, v, cs[0], 0, count);
      JoinSlices(Cluster(b, v, cs[0]), Contents(b, v, cs[1..]), len);
    } else {
      NoSlice(Contents(b, v, cs), len);
    }
  }

  lemma NoSlice(s: seq<Byte>, len: nat)
    ensures s == [] || len == 0 ==> Slice(s, 0, len) == []
  {
  }

  lemma JoinSlices(x: seq<Byte>, y: seq<Byte>, len: nat)
    requires |x| > 0
    ensures var n := Min(len, |x|); Slice(x + y, 0, len) == x[..n] + Slice(y, 0, len - n)
  {
  }

  lemma ReadFirst(b: nat, v: Vol, cs: seq<nat>, len: nat, skip: nat, off: nat, st: nat)
    requires Sized(b, v) && InTable(|v.fat|, cs) && cs != [] && st < b && skip == off + st && len > 0
    ensures var at, count := Base(b, cs[0]) + st, Min(len, b);
      && at + count <= |v.area|
      && ReadChain(b, v, cs, len, skip, off) == v.area[at..at + count] + Slice(Contents(b, v, cs[1..]), 0, len - count)
  {
    hide Base, Slice, Contents;
    ClusterFits(b, v, cs[0]);
    ReadRest(b, v, cs[1..], len - Min(len, b), skip, off + b);
  }

  lemma ReadSkip(b: nat, v: Vol, cs: seq<nat>, len: nat, skip: nat, off: nat)
    requires Sized(b, v) && InTable(|v.fat|, cs) && cs != [] && skip >= off + b
    ensures ReadChain(b, v, cs, len, skip, off) == ReadChain(b, v, cs[1..], len, skip, off + b)
  {
  }

  /** What a read at any offset does: one transfer from inside cluster `k`, then the clusters behind it from their start. */
  lemma {:induction false} ReadUnfold(b: nat, v: Vol, cs: seq<nat>, len: nat, skip: nat, off: nat, k: nat, st: nat)
    requires Sized(b, v) && InTable(|v.fat|, cs) && k < |cs| && st < b && skip == off + k * b + st && len > 0
    ensures var at, count := Base(b, cs[k]) + st, Min(len, b);
      && at + count <= |v.area|
      && ReadChain(b, v, cs, len, skip, off) == v.area[at..at + count] + Slice(Contents(b, v, cs[k + 1..]), 0, len - count)
    decreases k
  {
    hide Base, Slice, Contents, ReadChain;
    if k == 0 {
      ReadFirst(b, v, cs, len, skip, off, st);
    } else {
      MulGrows(b, k);
      MulDistr(b, k, 1);
      ReadSkip(b, v, cs, len, skip, off);
      ReadUnfold(b, v, cs[1..], len, skip, off + b, k - 1, st);
      assert cs[1..][k..] == cs[k + 1..];
    }
  }

  /** Beyond the end of the chain there is nothing to read. */
  lemma {:induction false} ReadBeyond(b: nat, v: Vol, cs: seq<nat>, len: nat, skip: nat, off: nat)
    requires Sized(b, v) && InTable(|v.fat|, cs) && skip >= off + |cs| * b
    ensures ReadChain(b, v, cs, len, skip, off) == []
    decreases |cs|
  {
    if cs != [] {
      MulDistr(b, |cs| - 1, 1);
      MulSign(|cs| - 1, b);
      ReadBeyond(b, v, cs[1..], len, skip, off + b);
    }
  }

  /** How much a read gives: as much as is asked for, but no more than the clusters from that of the offset on hold. */
  lemma ReadLength(b: nat, v: Vol, cs: seq<nat>, len: nat, skip: nat)
    requires Sized(b, v) && InTable(|v.fat|, cs)
    ensures |ReadChain(b, v, cs, len, skip, 0)| == if skip / b >= |cs| then 0 else Min(len, (|cs| - skip / b) * b)
  {
    DivBounds(skip, b);
    hide Base, Slice, Contents, ReadChain, Sized, InTable, Min;
    if skip / b >= |cs| {
      MulMono(|cs|, skip / b, b);
      ReadBeyond(b, v, cs, len, skip, 0);
    } else {
      ReadSome(b, v, cs, len, skip, skip / b, skip % b);
    }
  }

  lemma ReadSome(b: nat, v: Vol, cs: seq<nat>, len: nat, skip: nat, k: nat, st: nat)
    requires Sized(b, v) && InTable(|v.fat|, cs) && k < |cs| && st < b && skip == k * b + st
    ensures |ReadChain(b, v, cs, len, skip, 0)| == Min(len, (|cs| - k) * b)
  {
    hide Base, Slice, Contents, ReadChain;
    var n := |cs| - k - 1;
    MulDistr(b, n, 1);
    MulSign(n, b);
    if len == 0 {
      ReadNothing(b, v, cs, skip);
    } else {
      ReadUnfold(b, v, cs, len, skip, 0, k, st);
      assert |cs[k + 1..]| == n;
      SliceSize(Contents(b, v, cs[k + 1..]), len - Min(len, b));
    }
  }

  lemma SliceSize(s: seq<Byte>, n: nat)
    ensures |Slice(s, 0, n)| == Min(n, |s|)
  {
  }

  lemma {:induction false} ContentsSplit(b: nat, v: Vol, cs: seq<nat>, k: nat)
    requires Sized(b, v) && InTable(|v.fat|, cs) && k <= |cs|
    ensures Contents(b, v, cs) == Contents(b, v, cs[..k]) + Contents(b, v, cs[k..])
    decreases k
  {
    if k > 0 {
      ContentsSplit(b, v, cs[1..], k - 1);
      assert cs[..k][1..] == cs[1..][..k - 1] && cs[1..][k - 1..] == cs[k..];
    } else {
      assert cs[..0] == [] && cs[0..] == cs;
    }
  }

  /** Where byte `j` of cluster `k` of a file is on the disk. */
  lemma ContentsAt(b: nat, v: Vol, cs: seq<nat>, k: nat)
    requires Sized(b, v) && InTable(|v.fat|, cs) && k < |cs|
    ensures |Contents(b, v, cs)| == |cs| * b && k * b + b <= |cs| * b && Base(b, cs[k]) + 2 * b <= |v.area|
    ensures Contents(b, v, cs)[k * b..] == Cluster(b, v, cs[k]) + Contents(b, v, cs[k + 1..])
    ensures |Contents(b, v, cs[k + 1..])| == |cs| * b - k * b - b
  {
    ContentsSplit(b, v, cs, k);
    ClusterFits(b, v, cs[k]);
    MulMono(k + 1, |cs|, b);
    MulDistr(b, k, 1);
    assert cs[k..][1..] == cs[k + 1..];
    assert |Contents(b, v, cs[..k])| == k * b;
    assert Contents(b, v, cs[k..]) == Cluster(b, v, cs[k]) + Contents(b, v, cs[k + 1..]);
  }

  /** The reads that give what the file holds, whatever it holds. */
  predicate ReadsRight(b: nat, cs: seq<nat>, len: nat, skip: nat)
    requires b > 0
  {
    var k, st := skip / b, skip % b;
    || len == 0
    || k >= |cs|
    || st == 0
    || st + len <= b
    || (len <= b && k + 1 < |cs| && cs[k + 1] == cs[k] + 1)
  }

  /** A transfer that stays inside its cluster, or spills into the cluster that comes next in the chain. */
  lemma ReadSufficient(b: nat, v: Vol, cs: seq<nat>, len: nat, skip: nat)
    requires Sized(b, v) && InTable(|v.fat|, cs) && ReadsRight(b, cs, len, skip)
    ensures ReadChain(b, v, cs, len, skip, 0) == Slice(Contents(b, v, cs), skip, len)
  {
    hide Base, Cluster, ReadChain, Contents;
    var k, st := skip / b, skip % b;
    DivBounds(skip, b);
    if len == 0 {
      ReadNothing(b, v, cs, skip);
    } else if k >= |cs| {
      MulMono(|cs|, k, b);
      ReadBeyond(b, v, cs, len, skip, 0);
    } else if st == 0 || st + len <= b {
      ReadInPlace(b, v, cs, len, skip, k, st);
    } else {
      ReadAcross(b, v, cs, len, skip, k, st);
    }
  }

  lemma ReadInPlace(b: nat, v: Vol, cs: seq<nat>, len: nat, skip: nat, k: nat, st: nat)
    requires Sized(b, v) && InTable(|v.fat|, cs) && k < |cs| && st < b && skip == k * b + st && len > 0
    requires st == 0 || st + len <= b
    ensures ReadChain(b, v, cs, len, skip, 0) == Slice(Contents(b, v, cs), skip, len)
  {
    hide Base, Cluster, ReadChain, Contents, Slice;
    ReadUnfold(b, v, cs, len, skip, 0, k, st);
    ContentsAt(b, v, cs, k);
    var x, y := Cluster(b, v, cs[k]), Contents(b, v, cs[k + 1..]);
    SliceFrom(Contents(b, v, cs), x, y, k * b, st, len);
    ClusterPart(b, v, cs[k], st, st + Min(len, b));
    SliceWhole(x, y, st, len);
  }

  lemma ReadAcross(b: nat, v: Vol, cs: seq<nat>, len: nat, skip: nat, k: nat, st: nat)
    requires Sized(b, v) && InTable(|v.fat|, cs) && k + 1 < |cs| && st < b && skip == k * b + st
    requires len <= b < st + len && cs[k + 1] == cs[k] + 1
    ensures ReadChain(b, v, cs, len, skip, 0) == Slice(Contents(b, v, cs), skip, len)
  {
    hide Base, Cluster, ReadChain, Contents, Slice;
    ReadUnfold(b, v, cs, len, skip, 0, k, st);
    NoSlice(Contents(b, v, cs[k + 1..]), 0);
    ContentsAt(b, v, cs, k);
    ContentsHead(b, v, cs, k + 1);
    var x, y, z := Cluster(b, v, cs[k]), Cluster(b, v, cs[k + 1]), Contents(b, v, cs[k + 2..]);
    SliceFrom(Contents(b, v, cs), x, y + z, k * b, st, len);
    SpillRead(b, v, cs[k], st, len);
    SliceSpill(x, y, z, st, len);
  }

  lemma ContentsHead(b: nat, v: Vol, cs: seq<nat>, k: nat)
    requires Sized(b, v) && InTable(|v.fat|, cs) && k < |cs|
    ensures Contents(b, v, cs[k..]) == Cluster(b, v, cs[k]) + Contents(b, v, cs[k + 1..])
  {
    assert cs[k..][1..] == cs[k + 1..];
  }

  lemma ReadNothing(b: nat, v: Vol, cs: seq<nat>, skip: nat)
    requires Sized(b, v) && InTable(|v.fat|, cs)
    ensures ReadChain(b, v, cs, 0, skip, 0) == [] == Slice(Contents(b, v, cs), skip, 0)
  {
  }

  lemma SliceFrom(s: seq<Byte>, x: seq<Byte>, y: seq<Byte>, at: nat, st: nat, len: nat)
    requires at <= |s| && s[at..] == x + y && st < |x|
    ensures Slice(s, at + st, len) == Slice(x + y, st, len)
  {
    assert forall i | 0 <= i < |x + y| :: s[at + i] == (x + y)[i];
  }

  lemma SliceWhole(x: seq<Byte>, y: seq<Byte>, st: nat, len: nat)
    requires st < |x| && (st == 0 || st + len <= |x|)
    ensures Slice(x + y, st, len) == x[st..Min(st + Min(len, |x|), |x|)] + Slice(y, 0, len - Min(len, |x|))
  {
    if len <= |x| {
      assert Slice(x + y, st, len) == (x + y)[st..Min(st + len, |x|)] == x[st..Min(st + len, |x|)];
      assert Slice(y, 0, 0) == [];
    } else {
      var n := Min(len, |x| + |y|);
      assert Slice(x + y, 0, len) == (x + y)[..n] == x + y[..n - |x|];
      assert Slice(y, 0, len - |x|) == y[..n - |x|];
    }
  }

  lemma SliceSpill(x: seq<Byte>, y: seq<Byte>, z: seq<Byte>, st: nat, len: nat)
    requires st < |x| && len <= |x| < st + len && |y| == |x|
    ensures Slice(x + (y + z), st, len) == (x + y)[st..st + len]
  {
  }

  /** Spilling into the next cluster number reads the next cluster number. */
  lemma SpillRead(b: nat, v: Vol, c: nat, st: nat, len: nat)
    requires Sized(b, v) && 2 <= c && c + 1 < |v.fat| && st + len <= 2 * b
    ensures Base(b, c) + 2 * b <= |v.area|
    ensures v.area[Base(b, c) + st..Base(b, c) + st + len] == (Cluster(b, v, c) + Cluster(b, v, c + 1))[st..st + len]
  {
    hide Base;
    ClusterFits(b, v, c);
    var at := Base(b, c);
    JoinAdjacent(v.area, at, at + b, at + b + b);
    assert v.area[at..at + b + b][st..st + len] == v.area[at + st..at + st + len];
  }

  lemma JoinAdjacent(s: seq<Byte>, i: nat, j: nat, k: nat)
    requires i <= j <= k <= |s|
    ensures s[i..j] + s[j..k] == s[i..k]
  {
  }

  lemma ContentsIndex(b: nat, v: Vol, cs: seq<nat>, k: nat, j: nat)
    requires Sized(b, v) && InTable(|v.fat|, cs) && k < |cs| && j < b
    ensures k * b + j < |Contents(b, v, cs)| == |cs| * b && Base(b, cs[k]) + j < |v.area|
    ensures Contents(b, v, cs)[k * b + j] == v.area[Base(b, cs[k]) + j]
  {
    hide Base, Contents;
    ContentsAt(b, v, cs, k);
    assert Contents(b, v, cs)[k * b..][j] == Cluster(b, v, cs[k])[j];
  }

  /** A data area that is zero but for one byte. */
  function Spot(n: nat, p: nat): (r: seq<Byte>)
    requires p < n
    ensures |r| == n && forall i | 0 <= i < n :: r[i] == if i == p then 1 else 0
  {
    seq(n, i => if i == p then 1 else 0)
  }

  lemma SliceIndex(s: seq<Byte>, from: nat, len: nat, i: nat)
    requires i < len && from + i < |s|
    ensures i < |Slice(s, from, len)| && Slice(s, from, len)[i] == s[from + i]
  {
  }

  /** Bytes of a read: those of the first transfer, and the first one of the second. */
  lemma ReadBytes(b: nat, v: Vol, cs: seq<nat>, len: nat, skip: nat, k: nat, st: nat, i: nat)
    requires Sized(b, v) && InTable(|v.fat|, cs) && k < |cs| && st < b && skip == k * b + st && len > 0
    ensures |ReadChain(b, v, cs, len, skip, 0)| >= Min(len, b) && Base(b, cs[k]) + 2 * b <= |v.area|
    ensures i < Min(len, b) ==> ReadChain(b, v, cs, len, skip, 0)[i] == v.area[Base(b, cs[k]) + st + i]
    ensures len > b && k + 1 < |cs| ==>
      && Base(b, cs[k + 1]) < |v.area|
      && |ReadChain(b, v, cs, len, skip, 0)| > b
      && ReadChain(b, v, cs, len, skip, 0)[b] == v.area[Base(b, cs[k + 1])]
  {
    hide Base, ReadChain, Contents, Slice;
    ReadUnfold(b, v, cs, len, skip, 0, k, st);
    ClusterFits(b, v, cs[k]);
    if len > b && k + 1 < |cs| {
      ContentsHead(b, v, cs, k + 1);
      ClusterPart(b, v, cs[k + 1], 0, b);
      var y := Contents(b, v, cs[k + 1..]);
      SliceIndex(y, 0, len - b, 0);
    }
  }

  /** A read in the last cluster that asks for more than is left returns too many bytes. */
  lemma TooLong(b: nat, v: Vol, cs: seq<nat>, len: nat, skip: nat, k: nat, st: nat)
    requires Sized(b, v) && InTable(|v.fat|, cs) && k + 1 == |cs| && 0 < st < b && skip == k * b + st && st + len > b
    ensures ReadChain(b, v, cs, len, skip, 0) != Slice(Contents(b, v, cs), skip, len)
  {
    hide Base, ReadChain, Contents;
    ReadBytes(b, v, cs, len, skip, k, st, 0);
    ContentsAt(b, v, cs, k);
    MulDistr(b, k, 1);
    assert |Slice(Contents(b, v, cs), skip, len)| == b - st;
  }

  /** A read that spills into a cluster of another file. */
  lemma WrongCluster(b: nat, v: Vol, cs: seq<nat>, len: nat, skip: nat, k: nat, st: nat)
    requires Sized(b, v) && InTable(|v.fat|, cs) && k + 1 < |cs| && 0 < st < b && skip == k * b + st && st + len > b
    requires cs[k + 1] != cs[k] + 1 && Base(b, cs[k + 1]) < |v.area| && v.area == Spot(|v.area|, Base(b, cs[k + 1]))
    ensures ReadChain(b, v, cs, len, skip, 0) != Slice(Contents(b, v, cs), skip, len)
  {
    hide Base, ReadChain, Contents, Slice;
    BaseDiffers(b, cs[k] + 1, cs[k + 1]);
    var i := b - st;
    ReadBytes(b, v, cs, len, skip, k, st, i);
    ContentsIndex(b, v, cs, k + 1, 0);
    ClusterFits(b, v, cs[k]);
    MulDistr(b, k, 1);
    SliceIndex(Contents(b, v, cs), skip, len, i);
  }

  lemma BaseDiffers(b: nat, c: nat, d: nat)
    requires b > 0 && 2 <= c && 2 <= d && c != d
    ensures Base(b, c) != Base(b, d)
  {
    if c < d { ClustersApart(b, c, d); } else { ClustersApart(b, d, c); }
  }

  /** A read of more than a cluster that repeats the start of the next one. */
  lemma ReadTwice(b: nat, v: Vol, cs: seq<nat>, len: nat, skip: nat, k: nat, st: nat)
    requires Sized(b, v) && InTable(|v.fat|, cs) && k + 1 < |cs| && 0 < st < b && skip == k * b + st && len > b
    requires Base(b, cs[k + 1]) < |v.area| && v.area == Spot(|v.area|, Base(b, cs[k + 1]))
    ensures ReadChain(b, v, cs, len, skip, 0) != Slice(Contents(b, v, cs), skip, len)
  {
    hide Base, ReadChain, Contents, Slice;
    ReadBytes(b, v, cs, len, skip, k, st, 0);
    ContentsIndex(b, v, cs, k + 1, st);
    MulDistr(b, k, 1);
    assert skip + b == (k + 1) * b + st;
    SliceIndex(Contents(b, v, cs), skip, len, b);
    hide Sized, InTable;
    assert ReadChain(b, v, cs, len, skip, 0)[b] == 1 && Slice(Contents(b, v, cs), skip, len)[b] == 0;
  }

  /** For every other read there is a disk on which it returns something else than the file holds. */
  lemma ReadNecessary(b: nat, fat: seq<nat>, cs: seq<nat>, len: nat, skip: nat) returns (v: Vol)
    requires b > 0 && |fat| >= 2 && InTable(|fat|, cs) && !ReadsRight(b, cs, len, skip)
    ensures v.fat == fat && Sized(b, v)
    ensures ReadChain(b, v, cs, len, skip, 0) != Slice(Contents(b, v, cs), skip, len)
  {
    hide ReadChain, Contents, Slice, Base;
    var k, st := skip / b, skip % b;
    DivBounds(skip, b);
    MulGrows(b, |fat|);
    v := Vol(fat, Spot(|fat| * b, 0));
    if k + 1 == |cs| {
      TooLong(b, v, cs, len, skip, k, st);
    } else {
      ClusterFits(b, v, cs[k + 1]);
      v := Vol(fat, Spot(|fat| * b, Base(b, cs[k + 1])));
      if cs[k + 1] != cs[k] + 1 {
        WrongCluster(b, v, cs, len, skip, k, st);
      } else {
        ReadTwice(b, v, cs, len, skip, k, st);
      }
    }
  }

  /** Reading is right for every disk exactly when the transfer is aligned, stays in its cluster, or spills into its successor. */
  lemma ReadExactly(b: nat, fat: seq<nat>, cs: seq<nat>, len: nat, skip: nat)
    requires b > 0 && |fat| >= 2 && InTable(|fat|, cs)
    ensures ReadsRight(b, cs, len, skip) <==>
      forall v: Vol | v.fat == fat && Sized(b, v) :: ReadChain(b, v, cs, len, skip, 0) == Slice(Contents(b, v, cs), skip, len)
  {
    hide ReadChain, Contents, Slice, ReadsRight;
    if ReadsRight(b, cs, len, skip) {
      forall v: Vol | v.fat == fat && Sized(b, v)
        ensures ReadChain(b, v, cs, len, skip, 0) == Slice(Contents(b, v, cs), skip, len)
      {
        ReadSufficient(b, v, cs, len, skip);
      }
    } else {
      var v := ReadNecessary(b, fat, cs, len, skip);
    }
  }

  /** The table of a volume with a file in the clusters 2 and 4, and another in cluster 3. */
  const SPLIT := [0xFFF8, 0xFFFF, 4, 0xFFFF, 0xFFFF]

  /** A failing read: of the last byte of cluster 2 and the first of cluster 4 it gives the first of cluster 3 instead. */
  lemma Misread()
    ensures var v := Vol(SPLIT, Spot(2560, 1024));
      && Sized(512, v) && IsChain(SPLIT, 0xFFFF, [2, 4]) && EndMarker(SPLIT, 0xFFFF)
      && Slice(Contents(512, v, [2, 4]), 511, 2) == [0, 1]
      && ReadChain(512, v, [2, 4], 2, 511, 0) == [0, 0]
  {
    var v, cs := Vol(SPLIT, Spot(2560, 1024)), [2, 4];
    assert forall i | 0 <= i < 2 :: Follows(SPLIT, 0xFFFF, cs, i);
    assert Base(512, 2) == 0 && Base(512, 4) == 1024;
    hide Contents, Base, Spot;
    assert ReadChain(512, v, cs, 2, 511, 0) == v.area[511..513];
    hide ReadChain;
    ContentsIndex(512, v, cs, 0, 511);
    ContentsIndex(512, v, cs, 1, 0);
    SliceIndex(Contents(512, v, cs), 511, 2, 0);
    SliceIndex(Contents(512, v, cs), 511, 2, 1);
  }
}
