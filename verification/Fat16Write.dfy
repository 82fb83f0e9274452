/** Overwriting part of a file: fat_write_data. */
module Fat16Write {
  import opened Arithmetic
  import opened Fat16

  /** fat_write_data along the chain `cs`; `off` is the number of bytes in the clusters already passed. */
  function WriteChain(b: nat, v: Vol, cs: seq<nat>, data: seq<Byte>, skip: nat, off: nat): (w: Vol)
    requires Sized(b, v) && InTable(|v.fat|, cs)
    ensures Sized(b, w) && w.fat == v.fat
    decreases |cs|
  {
    if cs == [] || data == [] then v
    else if off + b > skip then
      var start := if off > skip then 0 else skip - off;
      var count := Min(|data|, b);
      ClusterFits(b, v, cs[0]);
      var u := v.(area := Splice(v.area, Base(b, cs[0]) + start, data[..count]));
      WriteChain(b, u, cs[1..], data[count..], skip, off + b)
    else WriteChain(b, v, cs[1..], data, skip, off + b)
  }

  function Overlay(s: seq<Byte>, at: nat, x: seq<Byte>): (r: seq<Byte>)
    ensures |r| == |s|
  {
    if at >= |s| then s
    else
      var n := Min(|x|, |s| - at);
      s[..at] + x[..n] + s[at + n..]
  }

  /** Position `p` of the data area belongs to none of the clusters of `cs`. */
  ghost predicate Outside(b: nat, cs: seq<nat>, p: nat) {
    forall i | 0 <= i < |cs| && 2 <= cs[i] :: !(Base(b, cs[i]) <= p < Base(b, cs[i]) + b)
  }

  ghost predicate Distinct(cs: seq<nat>) {
    forall i, j | 0 <= i < j < |cs| :: cs[i] != cs[j]
  }

  /** The file holds what it held, overlaid with the data, and nothing outside the file has changed. */
  ghost predicate WroteRight(b: nat, v: Vol, w: Vol, cs: seq<nat>, data: seq<Byte>, skip: nat)
    requires Sized(b, v) && Sized(b, w) && w.fat == v.fat && InTable(|v.fat|, cs)
  {
    && Contents(b, w, cs) == Overlay(Contents(b, v, cs), skip, data)
    && forall p | 0 <= p < |v.area| && Outside(b, cs, p) :: w.area[p] == v.area[p]
  }

  lemma OutsideTail(b: nat, cs: seq<nat>, p: nat)
    requires cs != [] && Outside(b, cs, p)
    ensures Outside(b, cs[1..], p)
    ensures 2 <= cs[0] ==> !(Base(b, cs[0]) <= p < Base(b, cs[0]) + b)
  {
    forall i | 0 <= i < |cs[1..]| && 2 <= cs[1..][i] ensures !(Base(b, cs[1..][i]) <= p < Base(b, cs[1..][i]) + b) {
      assert cs[1..][i] == cs[i + 1];
    }
  }

  /** Positions of one cluster are outside all others. */
  lemma OtherCluster(b: nat, cs: seq<nat>, c: nat, p: nat)
    requires 2 <= c && c !in cs && Base(b, c) <= p < Base(b, c) + b
    ensures Outside(b, cs, p)
  {
    forall i | 0 <= i < |cs| && 2 <= cs[i] ensures !(Base(b, cs[i]) <= p < Base(b, cs[i]) + b) {
      assert cs[i] in cs;
      if cs[i] < c { ClustersApart(b, cs[i], c); } else { ClustersApart(b, c, cs[i]); }
    }
  }

  /** What does not change outside `cs` does not change in any other cluster. */
  lemma OtherClusterSame(b: nat, v: Vol, w: Vol, cs: seq<nat>, c: nat)
    requires Sized(b, v) && Sized(b, w) && w.fat == v.fat && 2 <= c < |v.fat| && c !in cs
    requires forall p | 0 <= p < |v.area| && Outside(b, cs, p) :: w.area[p] == v.area[p]
    ensures Cluster(b, w, c) == Cluster(b, v, c)
  {
    ClusterFits(b, v, c);
    forall j | 0 <= j < b ensures Cluster(b, w, c)[j] == Cluster(b, v, c)[j] {
      OtherCluster(b, cs, c, Base(b, c) + j);
    }
  }

  lemma SpliceAt(s: seq<Byte>, at: nat, x: seq<Byte>, p: nat)
    requires at + |x| <= |s| && p < |s|
    ensures Splice(s, at, x)[p] == if at <= p < at + |x| then x[p - at] else s[p]
  {
  }

  /** Writing from a cluster boundary on changes nothing outside the chain. */
  lemma {:induction false} WriteOutside(b: nat, v: Vol, cs: seq<nat>, data: seq<Byte>, skip: nat, off: nat, p: nat)
    requires Sized(b, v) && InTable(|v.fat|, cs) && off >= skip && p < |v.area| && Outside(b, cs, p)
    ensures WriteChain(b, v, cs, data, skip, off).area[p] == v.area[p]
    decreases |cs|
  {
    hide Base;
    if cs != [] && data != [] {
      var count := Min(|data|, b);
      ClusterFits(b, v, cs[0]);
      var u := v.(area := Splice(v.area, Base(b, cs[0]), data[..count]));
      OutsideTail(b, cs, p);
      SpliceAt(v.area, Base(b, cs[0]), data[..count], p);
      WriteOutside(b, u, cs[1..], data[count..], skip, off + b, p);
    }
  }

  lemma OverlayJoin(x: seq<Byte>, y: seq<Byte>, data: seq<Byte>)
    requires |x| > 0
    ensures var n := Min(|data|, |x|);
      Overlay(x + y, 0, data) == (data[..n] + x[n..]) + Overlay(y, 0, data[n..])
  {
  }

  /** Writing from a cluster boundary on lays the data over the contents. */
  lemma {:induction false} WriteRest(b: nat, v: Vol, cs: seq<nat>, data: seq<Byte>, skip: nat, off: nat)
    requires Sized(b, v) && InTable(|v.fat|, cs) && Distinct(cs) && off >= skip
    ensures Contents(b, WriteChain(b, v, cs, data, skip, off), cs) == Overlay(Contents(b, v, cs), 0, data)
    decreases |cs|
  {
    hide Base, Overlay, Cluster, Splice;
    if cs == [] || data == [] {
      OverlayNothing(Contents(b, v, cs), data);
    } else {
      var count := Min(|data|, b);
      ClusterFits(b, v, cs[0]);
      var u := v.(area := Splice(v.area, Base(b, cs[0]), data[..count]));
      var w := WriteChain(b, u, cs[1..], data[count..], skip, off + b);
      WriteRest(b, u, cs[1..], data[count..], skip, off + b);
      HeadUntouched(b, u, cs, data[count..], skip, off + b);
      FillCluster(b, v, cs[0], data[..count], cs[0]);
      TailUntouched(b, v, u, cs, data[..count]);
      OverlayJoin(Cluster(b, v, cs[0]), Contents(b, v, cs[1..]), data);
    }
  }

  lemma OverlayNothing(s: seq<Byte>, data: seq<Byte>)
    ensures s == [] || data == [] ==> Overlay(s, 0, data) == s
  {
  }

  lemma HeadUntouched(b: nat, u: Vol, cs: seq<nat>, data: seq<Byte>, skip: nat, off: nat)
    requires Sized(b, u) && InTable(|u.fat|, cs) && Distinct(cs) && cs != [] && off >= skip
    ensures Cluster(b, WriteChain(b, u, cs[1..], data, skip, off), cs[0]) == Cluster(b, u, cs[0])
  {
    hide Base, WriteChain;
    var w := WriteChain(b, u, cs[1..], data, skip, off);
    assert cs[0] !in cs[1..];
    forall p | 0 <= p < |u.area| && Outside(b, cs[1..], p) ensures w.area[p] == u.area[p] {
      WriteOutside(b, u, cs[1..], data, skip, off, p);
    }
    OtherClusterSame(b, u, w, cs[1..], cs[0]);
  }

  lemma TailUntouched(b: nat, v: Vol, u: Vol, cs: seq<nat>, x: seq<Byte>)
    requires Sized(b, v) && Sized(b, u) && InTable(|v.fat|, cs) && Distinct(cs) && cs != [] && |x| <= b
    requires Base(b, cs[0]) + b <= |v.area| && u == v.(area := Splice(v.area, Base(b, cs[0]), x))
    ensures Contents(b, u, cs[1..]) == Contents(b, v, cs[1..])
  {
    hide Base, Splice, Cluster;
    forall i | 0 <= i < |cs[1..]| ensures Cluster(b, u, cs[1..][i]) == Cluster(b, v, cs[1..][i]) {
      FillCluster(b, v, cs[0], x, cs[1..][i]);
    }
    ContentsSame(b, v, u, cs[1..]);
  }

  lemma WriteSkip(b: nat, v: Vol, cs: seq<nat>, data: seq<Byte>, skip: nat, off: nat)
    requires Sized(b, v) && InTable(|v.fat|, cs) && cs != [] && skip >= off + b
    ensures WriteChain(b, v, cs, data, skip, off) == WriteChain(b, v, cs[1..], data, skip, off + b)
  {
  }

  /** Clusters in front of the offset are passed over. */
  lemma {:induction false} WriteSkips(b: nat, v: Vol, cs: seq<nat>, data: seq<Byte>, skip: nat, off: nat, k: nat)
    requires Sized(b, v) && InTable(|v.fat|, cs) && k <= |cs| && skip >= off + k * b
    ensures WriteChain(b, v, cs, data, skip, off) == WriteChain(b, v, cs[k..], data, skip, off + k * b)
    decreases k
  {
    hide WriteChain;
    if k > 0 {
      MulGrows(b, k);
      MulDistr(b, k, 1);
      WriteSkip(b, v, cs, data, skip, off);
      WriteSkips(b, v, cs[1..], data, skip, off + b, k - 1);
      assert cs[1..][k - 1..] == cs[k..];
    } else {
      assert cs[0..] == cs;
    }
  }

  /** The volume after the first transfer, from inside cluster `c`. */
  function FirstWrite(b: nat, v: Vol, c: nat, st: nat, data: seq<Byte>): (u: Vol)
    requires Sized(b, v) && 2 <= c < |v.fat| && st < b
    ensures Sized(b, u) && u.fat == v.fat
  {
    ClusterFits(b, v, c);
    v.(area := Splice(v.area, Base(b, c) + st, data[..Min(|data|, b)]))
  }

  lemma FirstWriteAt(b: nat, v: Vol, c: nat, st: nat, data: seq<Byte>, p: nat)
    requires Sized(b, v) && 2 <= c < |v.fat| && st < b && p < |v.area|
    ensures FirstWrite(b, v, c, st, data).area[p] ==
      var at := Base(b, c) + st;
      if at <= p < at + Min(|data|, b) then data[p - at] else v.area[p]
  {
    hide Base;
    ClusterFits(b, v, c);
    SpliceAt(v.area, Base(b, c) + st, data[..Min(|data|, b)], p);
  }

  lemma WriteFirst(b: nat, v: Vol, cs: seq<nat>, data: seq<Byte>, skip: nat, off: nat, st: nat)
    requires Sized(b, v) && InTable(|v.fat|, cs) && cs != [] && st < b && skip == off + st && data != []
    ensures WriteChain(b, v, cs, data, skip, off) ==
      WriteChain(b, FirstWrite(b, v, cs[0], st, data), cs[1..], data[Min(|data|, b)..], skip, off + b)
  {
  }

  /** What a write at any offset does: one transfer from inside cluster `k`, then the clusters behind it from their start. */
  lemma WriteUnfold(b: nat, v: Vol, cs: seq<nat>, data: seq<Byte>, skip: nat, k: nat, st: nat)
    requires Sized(b, v) && InTable(|v.fat|, cs) && k < |cs| && st < b && skip == k * b + st && data != []
    ensures WriteChain(b, v, cs, data, skip, 0) ==
      WriteChain(b, FirstWrite(b, v, cs[k], st, data), cs[k + 1..], data[Min(|data|, b)..], skip, k * b + b)
  {
    hide WriteChain, FirstWrite;
    WriteSkips(b, v, cs, data, skip, 0, k);
    assert cs[k..][1..] == cs[k + 1..];
    WriteFirst(b, v, cs[k..], data, skip, k * b, st);
  }

  lemma NothingToWrite(b: nat, v: Vol, cs: seq<nat>, skip: nat, off: nat)
    requires Sized(b, v) && InTable(|v.fat|, cs)
    ensures WriteChain(b, v, cs, [], skip, off) == v && WriteChain(b, v, [], [], skip, off) == v
  {
  }

  lemma NowhereToWrite(b: nat, v: Vol, data: seq<Byte>, skip: nat, off: nat)
    requires Sized(b, v)
    ensures WriteChain(b, v, [], data, skip, off) == v
  {
  }

  lemma OverlayAt(s: seq<Byte>, at: nat, x: seq<Byte>, q: nat)
    requires q < |s|
    ensures Overlay(s, at, x)[q] == if at <= q < at + |x| then x[q - at] else s[q]
  {
  }

  /** Which bytes of a file a transfer of at most one cluster, spilling at most into the next cluster of the chain, hits. */
  lemma Hits(b: nat, n: nat, cs: seq<nat>, k: nat, st: nat, len: nat, i: nat, j: nat)
    requires b > 0 && InTable(n, cs) && Distinct(cs) && k < |cs| && st < b && i < |cs| && j < b && len <= b
    requires st + len <= b || (k + 1 < |cs| && cs[k + 1] == cs[k] + 1)
    ensures var p, at, q, skip := Base(b, cs[i]) + j, Base(b, cs[k]) + st, At(b, i, j), At(b, k, st);
      && (at <= p < at + len <==> skip <= q < skip + len)
      && (at <= p < at + len ==> p - at == q - skip)
  {
    BaseNext(b, cs[k]);
    assert (k + 1) * b == k * b + b by { MulDistr(b, k, 1); }
    if i < k { MulMono(i + 1, k, b); assert i * b + b == (i + 1) * b by { MulDistr(b, i, 1); } }
    if i > k + 1 { MulMono(k + 2, i, b); assert (k + 2) * b == k * b + 2 * b by { MulDistr(b, k, 2); } }
    hide Base;
    if i != k && i != k + 1 {
      assert cs[i] != cs[k] by { assert Distinct(cs); }
      assert k + 1 < |cs| ==> cs[i] != cs[k + 1];
      if cs[i] < cs[k] { ClustersApart(b, cs[i], cs[k]); }
      else { ClustersApart(b, cs[k], cs[i]); if cs[i] > cs[k] + 1 { ClustersApart(b, cs[k] + 1, cs[i]); } }
    } else if i == k + 1 && cs[i] != cs[k] + 1 {
      if cs[i] < cs[k] { ClustersApart(b, cs[i], cs[k]); } else { ClustersApart(b, cs[k], cs[i]); }
    }
  }

  lemma BaseNext(b: nat, c: nat)
    requires 2 <= c
    ensures Base(b, c + 1) == Base(b, c) + b
  {
    MulDistr(b, c - 2, 1);
  }

  /** Byte `j` of cluster `i` of a file. */
  function At(b: nat, i: nat, j: nat): (r: nat) {
    i * b + j
  }

  lemma AtContents(b: nat, v: Vol, cs: seq<nat>, i: nat, j: nat)
    requires Sized(b, v) && InTable(|v.fat|, cs) && i < |cs| && j < b
    ensures At(b, i, j) < |Contents(b, v, cs)| && Base(b, cs[i]) + j < |v.area|
    ensures Contents(b, v, cs)[At(b, i, j)] == v.area[Base(b, cs[i]) + j]
  {
    ContentsIndex(b, v, cs, i, j);
  }

  lemma OnceByte(b: nat, v: Vol, w: Vol, cs: seq<nat>, data: seq<Byte>, k: nat, st: nat, i: nat, j: nat)
    requires Sized(b, v) && InTable(|v.fat|, cs) && Distinct(cs) && k < |cs| && st < b && 0 < |data| <= b
    requires st + |data| <= b || (k + 1 < |cs| && cs[k + 1] == cs[k] + 1)
    requires i < |cs| && j < b && w == FirstWrite(b, v, cs[k], st, data)
    ensures At(b, i, j) < |Contents(b, v, cs)| && At(b, i, j) < |Contents(b, w, cs)|
    ensures Contents(b, w, cs)[At(b, i, j)] == Overlay(Contents(b, v, cs), At(b, k, st), data)[At(b, i, j)]
  {
    assert 2 <= cs[k] < |v.fat| && 2 <= cs[i];
    hide *;
    Hits(b, |v.fat|, cs, k, st, |data|, i, j);
    AtContents(b, v, cs, i, j);
    AtContents(b, w, cs, i, j);
    OverlayAt(Contents(b, v, cs), At(b, k, st), data, At(b, i, j));
    FirstWriteAt(b, v, cs[k], st, data, Base(b, cs[i]) + j);
    assert Min(|data|, b) == |data| by { MinLeft(|data|, b); }
  }

  lemma MinLeft(x: nat, y: nat)
    requires x <= y
    ensures Min(x, y) == x
  {
  }

  lemma OnceContents(b: nat, v: Vol, w: Vol, cs: seq<nat>, data: seq<Byte>, k: nat, st: nat)
    requires Sized(b, v) && InTable(|v.fat|, cs) && Distinct(cs) && k < |cs| && st < b && 0 < |data| <= b
    requires st + |data| <= b || (k + 1 < |cs| && cs[k + 1] == cs[k] + 1)
    requires w == FirstWrite(b, v, cs[k], st, data)
    ensures Contents(b, w, cs) == Overlay(Contents(b, v, cs), At(b, k, st), data)
  {
    hide FirstWrite, Base, Contents, Overlay, Distinct, Sized, InTable, At;
    var x, y := Contents(b, w, cs), Overlay(Contents(b, v, cs), At(b, k, st), data);
    forall q | 0 <= q < |x| ensures x[q] == y[q] {
      AtByte(b, |cs|, q);
      OnceByte(b, v, w, cs, data, k, st, q / b, q % b);
    }
  }

  lemma AtByte(b: nat, n: nat, q: nat)
    requires b > 0 && q < n * b
    ensures At(b, q / b, q % b) == q && q / b < n
  {
    DivLess(q, b, n);
  }

  lemma OnceOutside(b: nat, v: Vol, cs: seq<nat>, data: seq<Byte>, k: nat, st: nat, p: nat)
    requires Sized(b, v) && InTable(|v.fat|, cs) && k < |cs| && st < b && |data| <= b
    requires st + |data| <= b || (k + 1 < |cs| && cs[k + 1] == cs[k] + 1)
    requires p < |v.area| && Outside(b, cs, p)
    ensures FirstWrite(b, v, cs[k], st, data).area[p] == v.area[p]
  {
    hide FirstWrite, Base, Outside;
    FirstWriteAt(b, v, cs[k], st, data, p);
    OutsideOf(b, cs, p, k);
    if k + 1 < |cs| { OutsideOf(b, cs, p, k + 1); }
    BaseNext(b, cs[k]);
  }

  /** A write of at most one cluster that stays in its cluster or spills into the next of the chain. */
  lemma WriteOnce(b: nat, v: Vol, cs: seq<nat>, data: seq<Byte>, skip: nat, k: nat, st: nat)
    requires Sized(b, v) && InTable(|v.fat|, cs) && Distinct(cs) && k < |cs| && st < b && skip == k * b + st
    requires 0 < |data| <= b
    requires st + |data| <= b || (k + 1 < |cs| && cs[k + 1] == cs[k] + 1)
    ensures WroteRight(b, v, WriteChain(b, v, cs, data, skip, 0), cs, data, skip)
  {
    var w := FirstWrite(b, v, cs[k], st, data);
    hide WriteChain, FirstWrite, Base, Contents, Overlay, Distinct, Outside, Sized;
    WriteUnfold(b, v, cs, data, skip, k, st);
    assert data[Min(|data|, b)..] == [];
    NothingToWrite(b, w, cs[k + 1..], skip, k * b + b);
    assert At(b, k, st) == skip;
    OnceContents(b, v, w, cs, data, k, st);
    forall p | 0 <= p < |v.area| && Outside(b, cs, p) ensures w.area[p] == v.area[p] {
      OnceOutside(b, v, cs, data, k, st, p);
    }
  }

  lemma OutsideOf(b: nat, cs: seq<nat>, p: nat, i: nat)
    requires Outside(b, cs, p) && i < |cs| && 2 <= cs[i]
    ensures !(Base(b, cs[i]) <= p < Base(b, cs[i]) + b)
  {
  }

  lemma OutsideFrom(b: nat, cs: seq<nat>, p: nat, k: nat)
    requires Outside(b, cs, p) && k <= |cs|
    ensures Outside(b, cs[k..], p)
  {
    hide Base;
    forall i | 0 <= i < |cs[k..]| && 2 <= cs[k..][i] ensures !(Base(b, cs[k..][i]) <= p < Base(b, cs[k..][i]) + b) {
      assert cs[k..][i] == cs[k + i];
    }
  }

  lemma OverlayBehind(x: seq<Byte>, y: seq<Byte>, data: seq<Byte>)
    ensures Overlay(x + y, |x|, data) == x + Overlay(y, 0, data)
  {
    hide Overlay;
    var r := Overlay(x + y, |x|, data);
    forall q | 0 <= q < |r| ensures r[q] == (x + Overlay(y, 0, data))[q] {
      OverlayAt(x + y, |x|, data, q);
      if q >= |x| { OverlayAt(y, 0, data, q - |x|); }
    }
  }

  /** A write from a cluster boundary. */
  /** Clusters in front of a write keep their bytes. */
  lemma FrontSame(b: nat, v: Vol, w: Vol, cs: seq<nat>, k: nat)
    requires Sized(b, v) && Sized(b, w) && w.fat == v.fat && InTable(|v.fat|, cs) && Distinct(cs) && k <= |cs|
    requires forall p | 0 <= p < |v.area| && Outside(b, cs[k..], p) :: w.area[p] == v.area[p]
    ensures Contents(b, w, cs[..k]) == Contents(b, v, cs[..k])
  {
    hide Base, Contents, Outside, Cluster;
    forall i | 0 <= i < k ensures Cluster(b, w, cs[..k][i]) == Cluster(b, v, cs[..k][i]) {
      assert forall j | 0 <= j < |cs[k..]| :: cs[k..][j] == cs[k + j];
      OtherClusterSame(b, v, w, cs[k..], cs[i]);
    }
    ContentsSame(b, v, w, cs[..k]);
  }

  lemma WriteAligned(b: nat, v: Vol, cs: seq<nat>, data: seq<Byte>, k: nat)
    requires Sized(b, v) && InTable(|v.fat|, cs) && Distinct(cs) && k <= |cs|
    ensures WroteRight(b, v, WriteChain(b, v, cs, data, k * b, 0), cs, data, k * b)
  {
    var skip, back := k * b, cs[k..];
    MulSign(k, b);
    var w := WriteChain(b, v, cs, data, skip, 0);
    hide WriteChain, Base, Contents, Overlay, Outside, Cluster;
    WriteSkips(b, v, cs, data, skip, 0, k);
    WriteRest(b, v, back, data, skip, skip);
    forall p | 0 <= p < |v.area| && Outside(b, back, p) ensures w.area[p] == v.area[p] {
      WriteOutside(b, v, back, data, skip, skip, p);
    }
    forall p | 0 <= p < |v.area| && Outside(b, cs, p) ensures w.area[p] == v.area[p] {
      OutsideFrom(b, cs, p, k);
    }
    FrontSame(b, v, w, cs, k);
    ContentsSplit(b, v, cs, k);
    ContentsSplit(b, w, cs, k);
    assert |Contents(b, v, cs[..k])| == k * b;
    OverlayBehind(Contents(b, v, cs[..k]), Contents(b, v, back), data);
  }

  lemma OverlayPast(s: seq<Byte>, at: nat, x: seq<Byte>)
    requires at >= |s| || x == []
    ensures Overlay(s, at, x) == s
  {
  }

  /** Nothing is written behind the end of the file. */
  lemma WriteBeyond(b: nat, v: Vol, cs: seq<nat>, data: seq<Byte>, skip: nat)
    requires Sized(b, v) && InTable(|v.fat|, cs) && (data == [] || skip >= |cs| * b)
    ensures WroteRight(b, v, WriteChain(b, v, cs, data, skip, 0), cs, data, skip)
  {
    hide WriteChain, Contents, Overlay, Outside;
    if data == [] {
      NothingToWrite(b, v, cs, skip, 0);
    } else {
      WriteSkips(b, v, cs, data, skip, 0, |cs|);
      assert cs[|cs|..] == [];
      NowhereToWrite(b, v, data, skip, |cs| * b);
    }
    OverlayPast(Contents(b, v, cs), skip, data);
  }

  lemma WriteFrom(b: nat, v: Vol, cs: seq<nat>, data: seq<Byte>, skip: nat, k: nat, st: nat)
    requires Sized(b, v) && InTable(|v.fat|, cs) && Distinct(cs) && st < b && skip == k * b + st
    requires data == [] || k >= |cs| || st == 0 || st + |data| <= b || (|data| <= b && k + 1 < |cs| && cs[k + 1] == cs[k] + 1)
    ensures WroteRight(b, v, WriteChain(b, v, cs, data, skip, 0), cs, data, skip)
  {
    hide WriteChain, WroteRight, Distinct, Sized, InTable;
    if data == [] {
      WriteBeyond(b, v, cs, data, skip);
    } else if k >= |cs| {
      MulMono(|cs|, k, b);
      WriteBeyond(b, v, cs, data, skip);
    } else if st == 0 {
      WriteAligned(b, v, cs, data, k);
    } else {
      WriteOnce(b, v, cs, data, skip, k, st);
    }
  }

  /** A write that starts at a boundary, stays inside its cluster, or spills into the cluster that comes next in the chain. */
  lemma WriteSufficient(b: nat, v: Vol, cs: seq<nat>, data: seq<Byte>, skip: nat)
    requires Sized(b, v) && InTable(|v.fat|, cs) && Distinct(cs) && ReadsRight(b, cs, |data|, skip)
    ensures WroteRight(b, v, WriteChain(b, v, cs, data, skip, 0), cs, data, skip)
  {
    assert b > 0;
    hide WriteChain, WroteRight, Distinct, Sized, InTable;
    WriteFrom(b, v, cs, data, skip, skip / b, skip % b);
  }

  // ---- Every other write goes wrong ----

  function Zeros(n: nat): (r: seq<Byte>)
    ensures |r| == n && forall i | 0 <= i < n :: r[i] == 0
  {
    seq(n, i => 0)
  }

  /** Bytes that a write at an offset inside its cluster leaves: those of its first transfer and at the start of the next cluster. */
  lemma WriteBytes(b: nat, v: Vol, cs: seq<nat>, data: seq<Byte>, skip: nat, k: nat, st: nat)
    requires Sized(b, v) && InTable(|v.fat|, cs) && Distinct(cs) && k + 1 < |cs| && st < b && skip == k * b + st && data != []
    ensures var w, p := WriteChain(b, v, cs, data, skip, 0), Base(b, cs[k + 1]);
      && p < |v.area|
      && w.area[p] == if |data| > b then data[b] else FirstWrite(b, v, cs[k], st, data).area[p]
  {
    hide Base, FirstWrite, WriteChain, Distinct, Outside, Splice;
    WriteUnfold(b, v, cs, data, skip, k, st);
    ClusterFits(b, v, cs[k + 1]);
    var u := FirstWrite(b, v, cs[k], st, data);
    var rest := data[Min(|data|, b)..];
    if |data| > b {
      var ds := cs[k + 1..];
      DistinctFrom(cs, k + 1);
      WriteHead(b, u, ds, rest, skip, k * b + b);
    } else {
      NothingToWrite(b, u, cs[k + 1..], skip, k * b + b);
    }
  }

  lemma DistinctFrom(cs: seq<nat>, k: nat)
    requires Distinct(cs) && k <= |cs|
    ensures Distinct(cs[k..])
  {
  }

  lemma WriteHead(b: nat, u: Vol, ds: seq<nat>, data: seq<Byte>, skip: nat, off: nat)
    requires Sized(b, u) && InTable(|u.fat|, ds) && Distinct(ds) && ds != [] && data != [] && off >= skip
    ensures Base(b, ds[0]) < |u.area| && WriteChain(b, u, ds, data, skip, off).area[Base(b, ds[0])] == data[0]
  {
    hide Base, Cluster, Overlay, Contents;
    ClusterFits(b, u, ds[0]);
    WriteRest(b, u, ds, data, skip, off);
    var w := WriteChain(b, u, ds, data, skip, off);
    hide WriteChain;
    MulGrows(b, |ds|);
    ContentsIndex(b, w, ds, 0, 0);
    OverlayAt(Contents(b, u, ds), 0, data, 0);
  }

  /** The byte behind the cluster in which a write starts. */
  lemma WriteSpills(b: nat, v: Vol, cs: seq<nat>, data: seq<Byte>, skip: nat, k: nat, st: nat)
    requires Sized(b, v) && InTable(|v.fat|, cs) && k + 1 == |cs| && st < b && skip == k * b + st && 0 < st && st + |data| > b
    ensures var w, p := WriteChain(b, v, cs, data, skip, 0), Base(b, cs[k]) + b;
      p < |v.area| && w.area[p] == data[b - st]
  {
    hide Base, FirstWrite, WriteChain;
    ClusterFits(b, v, cs[k]);
    WriteUnfold(b, v, cs, data, skip, k, st);
    assert cs[k + 1..] == [];
    NowhereToWrite(b, FirstWrite(b, v, cs[k], st, data), data[Min(|data|, b)..], skip, k * b + b);
    FirstWriteAt(b, v, cs[k], st, data, Base(b, cs[k]) + b);
  }

  /** A right write leaves the bytes of the file in front of the offset, and puts the data behind it. */
  lemma RightByte(b: nat, v: Vol, w: Vol, cs: seq<nat>, data: seq<Byte>, skip: nat, i: nat)
    requires Sized(b, v) && Sized(b, w) && w.fat == v.fat && InTable(|v.fat|, cs) && WroteRight(b, v, w, cs, data, skip)
    requires i < |cs|
    ensures Base(b, cs[i]) < |v.area|
    ensures w.area[Base(b, cs[i])] == if skip <= i * b < skip + |data| then data[i * b - skip] else v.area[Base(b, cs[i])]
  {
    hide Contents, Overlay, Base, Outside;
    ContentsIndex(b, v, cs, i, 0);
    ContentsIndex(b, w, cs, i, 0);
    OverlayAt(Contents(b, v, cs), skip, data, i * b);
  }

  /** The cluster behind cluster `c` is in the chain if the position where it starts is. */
  lemma FindCluster(b: nat, cs: seq<nat>, c: nat) returns (i: nat)
    requires 2 <= c && b > 0 && !Outside(b, cs, Base(b, c))
    ensures i < |cs| && cs[i] == c
  {
    i :| 0 <= i < |cs| && 2 <= cs[i] && Base(b, cs[i]) <= Base(b, c) < Base(b, cs[i]) + b;
    hide Base;
    if cs[i] < c { ClustersApart(b, cs[i], c); }
    if c < cs[i] { ClustersApart(b, c, cs[i]); }
  }

  /** A write that runs past the last cluster damages another file, or an earlier part of this one. */
  lemma WriteRunsOver(b: nat, v: Vol, cs: seq<nat>, data: seq<Byte>, skip: nat, k: nat, st: nat)
    requires Sized(b, v) && InTable(|v.fat|, cs) && k + 1 == |cs| && 0 < st < b && skip == k * b + st && st + |data| > b
    requires v.area == Zeros(|v.area|) && data[b - st] == 1
    ensures !WroteRight(b, v, WriteChain(b, v, cs, data, skip, 0), cs, data, skip)
  {
    hide WriteChain, Contents, Overlay, Base, Outside;
    var w, p := WriteChain(b, v, cs, data, skip, 0), Base(b, cs[k]) + b;
    WriteSpills(b, v, cs, data, skip, k, st);
    BaseNext(b, cs[k]);
    if WroteRight(b, v, w, cs, data, skip) {
      if !Outside(b, cs, p) {
        var i := FindCluster(b, cs, cs[k] + 1);
        RightByte(b, v, w, cs, data, skip, i);
        MulMono(i, k, b);
      }
    }
  }

  /** A write that should reach the next cluster of the chain and puts the wrong byte there. */
  lemma WriteMisses(b: nat, v: Vol, cs: seq<nat>, data: seq<Byte>, skip: nat, k: nat, st: nat)
    requires Sized(b, v) && InTable(|v.fat|, cs) && Distinct(cs) && k + 1 < |cs| && 0 < st < b && skip == k * b + st
    requires st + |data| > b && (|data| > b || cs[k + 1] != cs[k] + 1)
    requires v.area == Zeros(|v.area|) && data == Spot(|data|, b - st)
    ensures !WroteRight(b, v, WriteChain(b, v, cs, data, skip, 0), cs, data, skip)
  {
    hide WriteChain, Base, FirstWrite, WroteRight;
    var w, p := WriteChain(b, v, cs, data, skip, 0), Base(b, cs[k + 1]);
    WriteBytes(b, v, cs, data, skip, k, st);
    FirstWriteAt(b, v, cs[k], st, data, p);
    if |data| <= b { NotHit(b, cs[k], cs[k + 1], st, |data|); }
    assert w.area[p] == 0;
    if WroteRight(b, v, w, cs, data, skip) {
      RightByte(b, v, w, cs, data, skip, k + 1);
      MulDistr(b, k, 1);
    }
  }

  lemma NotHit(b: nat, c: nat, d: nat, st: nat, len: nat)
    requires b > 0 && 2 <= c && 2 <= d && d != c + 1 && st < b && 0 < st
    ensures !(Base(b, c) + st <= Base(b, d) < Base(b, c) + st + Min(len, b))
  {
    hide Base;
    BaseNext(b, c);
    BaseNext(b, c + 1);
    if d < c { ClustersApart(b, d, c); }
    if d > c + 1 { ClustersApart(b, c + 1, d); }
  }

  /** For every other write there are a disk and data for which it damages something. */
  lemma WriteNecessary(b: nat, fat: seq<nat>, cs: seq<nat>, len: nat, skip: nat) returns (v: Vol, data: seq<Byte>)
    requires b > 0 && |fat| >= 2 && InTable(|fat|, cs) && Distinct(cs) && !ReadsRight(b, cs, len, skip)
    ensures v.fat == fat && Sized(b, v) && |data| == len
    ensures !WroteRight(b, v, WriteChain(b, v, cs, data, skip, 0), cs, data, skip)
  {
    hide WriteChain, Contents, Overlay, Distinct, Base, Outside, WroteRight;
    var k, st := skip / b, skip % b;
    DivBounds(skip, b);
    MulGrows(b, |fat|);
    v := Vol(fat, Zeros(|fat| * b));
    data := Spot(len, b - st);
    if k + 1 == |cs| {
      WriteRunsOver(b, v, cs, data, skip, k, st);
    } else {
      WriteMisses(b, v, cs, data, skip, k, st);
    }
  }

  /** Writing is right for every disk and all data exactly when reading the same range is. */
  lemma WriteExactly(b: nat, fat: seq<nat>, cs: seq<nat>, len: nat, skip: nat)
    requires b > 0 && |fat| >= 2 && InTable(|fat|, cs) && Distinct(cs)
    ensures ReadsRight(b, cs, len, skip) <==>
      forall v: Vol, data: seq<Byte> | v.fat == fat && Sized(b, v) && |data| == len ::
        WroteRight(b, v, WriteChain(b, v, cs, data, skip, 0), cs, data, skip)
  {
    hide WriteChain, WroteRight, ReadsRight, Distinct;
    if ReadsRight(b, cs, len, skip) {
      forall v: Vol, data: seq<Byte> | v.fat == fat && Sized(b, v) && |data| == len
        ensures WroteRight(b, v, WriteChain(b, v, cs, data, skip, 0), cs, data, skip)
      {
        WriteSufficient(b, v, cs, data, skip);
      }
    } else {
      var v, data := WriteNecessary(b, fat, cs, len, skip);
    }
  }

  /** A failing write: of two bytes for the end of cluster 2 and the start of cluster 4, the second does not get there. */
  lemma Miswrite()
    ensures var v := Vol(SPLIT, Zeros(2560));
      Sized(512, v) && Distinct([2, 4]) && !WroteRight(512, v, WriteChain(512, v, [2, 4], Spot(2, 1), 511, 0), [2, 4], Spot(2, 1), 511)
  {
    hide WriteChain, WroteRight, Zeros, Spot;
    WriteMisses(512, Vol(SPLIT, Zeros(2560)), [2, 4], Spot(2, 1), 511, 0, 511);
  }
}
