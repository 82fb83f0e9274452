/**
 Files kept on a volume: every sequence of additions, removals and overwrites leaves each file with
 the bytes it should hold, in chains that stay apart.
 */
module Fat16Files {
  import opened Arithmetic
  import opened Fat16
  import opened Fat16Write

  // ---- One addition ----

  lemma StartsEmpty(v: Vol)
    requires |v.fat| >= 2 && EndMarker(v.fat, v.fat[1])
    ensures Growing(v.fat, v.fat[1], []) && Since(v.fat, v.fat, [])
  {
  }

  /** Whatever becomes of an addition, the clusters in use keep their bytes. */
  lemma {:induction false} AddKeepsUsed(b: nat, v: Vol, eoc: nat, mark: nat, data: seq<Byte>, cs: seq<nat>, d: nat)
    requires Sized(b, v) && InTable(|v.fat|, cs) && Growing(v.fat, eoc, cs)
    requires 2 <= d < |v.fat| && v.fat[d] != 0
    ensures Cluster(b, AddLoop(b, v, eoc, mark, data, cs).0, d) == Cluster(b, v, d)
    decreases |data|
  {
    hide Growing, Cluster;
    if data != [] {
      var c := FindFree(v.fat, 2);
      if c != 0 {
        LinkGrows(v.fat, eoc, cs, c);
        LinkUsed(v.fat, eoc, cs, c, d);
        AddOneBytes(b, v, eoc, data, cs, c, d);
        AddKeepsUsed(b, AddOne(b, v, eoc, data, cs, c), eoc, mark, data[Min(|data|, b)..], cs + [c], d);
      } else {
        SameArea(b, v, v.(fat := SetAll(v.fat, cs, mark)), d);
      }
    }
  }

  lemma LinkUsed(fat: seq<nat>, eoc: nat, cs: seq<nat>, c: nat, d: nat)
    requires Growing(fat, eoc, cs) && c == FindFree(fat, 2) && c != 0 && 2 <= d < |fat| && fat[d] != 0
    ensures Link(fat, cs, c, eoc)[d] != 0
  {
    LinkAt(fat, eoc, cs, c);
  }

  /** The outcome of an addition: a fresh increasing chain of free clusters, or the clusters taken marked. */
  lemma AddOutcome(b: nat, v: Vol, mark: nat, data: seq<Byte>) returns (es: seq<nat>)
    requires Sized(b, v) && EndMarker(v.fat, v.fat[1]) && data != []
    ensures var (w, ds) := AddData(b, v, mark, data);
      && InTable(|v.fat|, ds)
      && (ds != [] <==> Clusters(b, |data|) <= |Free(v.fat)|)
      && (ds != [] ==> Growing(w.fat, v.fat[1], ds) && Since(v.fat, w.fat, ds) && NewPart(b, v, w, data, ds) && |ds| == Clusters(b, |data|))
      && (ds == [] ==> Marked(v.fat, w.fat, es, mark) && AllTaken(v.fat, es))
  {
    hide Growing, Since, NewPart, Marked, AddLoop, Clusters, AllTaken;
    var eoc := v.fat[1];
    StartsEmpty(v);
    AddSpace(b, v, eoc, mark, data, []);
    AddChain(b, v, eoc, mark, data, [], v.fat);
    AddStores(b, v, eoc, mark, data, []);
    es := AddFails(b, v, eoc, mark, data, [], v.fat);
    var (w, ds) := AddData(b, v, mark, data);
    assert ds[0..] == ds;
  }

  /** Adding and then reading from the start gives the data back, whatever the free space looks like. */
  lemma AddThenRead(b: nat, v: Vol, mark: nat, data: seq<Byte>)
    requires Sized(b, v) && EndMarker(v.fat, v.fat[1]) && data != []
    ensures var (w, ds) := AddData(b, v, mark, data);
      ds != [] ==> InTable(|v.fat|, ds) && ReadChain(b, w, ds, |data|, 0, 0) == data
  {
    hide Growing, Since, Marked, AddData, Clusters, Contents, ReadChain;
    var es := AddOutcome(b, v, mark, data);
    var (w, ds) := AddData(b, v, mark, data);
    if ds != [] {
      ReadRest(b, w, ds, |data|, 0, 0);
    }
  }

  /** Adding and then removing gives the table back. */
  lemma AddThenRemove(b: nat, v: Vol, mark: nat, data: seq<Byte>)
    requires Sized(b, v) && EndMarker(v.fat, v.fat[1]) && data != []
    ensures var (w, ds) := AddData(b, v, mark, data);
      ds != [] ==> InTable(|v.fat|, ds) && SetAll(w.fat, ds, 0) == v.fat
  {
    hide Growing, NewPart, Marked, AddData, Clusters;
    var es := AddOutcome(b, v, mark, data);
  }

  /** Running out of space leaves the table as it was exactly when the clusters taken are marked free, or none were taken. */
  lemma OutOfSpace(b: nat, v: Vol, mark: nat, data: seq<Byte>)
    requires Sized(b, v) && EndMarker(v.fat, v.fat[1]) && data != [] && Clusters(b, |data|) > |Free(v.fat)|
    ensures AddData(b, v, mark, data).1 == []
    ensures AddData(b, v, mark, data).0.fat == v.fat <==> mark == 0 || Free(v.fat) == {}
  {
    hide Growing, NewPart, Since, AddData, Clusters;
    var es := AddOutcome(b, v, mark, data);
    var w := AddData(b, v, mark, data).0;
    if mark != 0 && Free(v.fat) != {} {
      var c :| c in Free(v.fat);
      assert w.fat[c] == mark;
    } else if mark != 0 {
      MarkedFree(v.fat, w.fat, es, mark);
    }
  }

  /** A failing clean-up: with mark 1, data too long for the one free cluster leaves that cluster marked. */
  lemma LeftMarked()
    ensures var v := Vol([0xFFF8, 0xFFFF, 0], Zeros(1536));
      Sized(512, v) && var (w, ds) := AddData(512, v, 1, Zeros(513)); ds == [] && w.fat == [0xFFF8, 0xFFFF, 1]
  {
    var v := Vol([0xFFF8, 0xFFFF, 0], Zeros(1536));
    hide Growing, NewPart, Since, AddData, Zeros;
    assert Free(v.fat) == {2};
    var es := AddOutcome(512, v, 1, Zeros(513));
  }

  lemma MarkedFree(orig: seq<nat>, fat: seq<nat>, es: seq<nat>, x: nat)
    requires Marked(orig, fat, es, x)
    ensures es != [] ==> Free(orig) != {}
  {
    if es != [] { assert es[0] in Free(orig); }
  }

  // ---- Files ----

  /** A file `f` is stored in the chain `cs`. */
  ghost predicate Holds(b: nat, v: Vol, cs: seq<nat>, f: seq<Byte>)
    requires Sized(b, v)
  {
    && f != [] && IsChain(v.fat, v.fat[1], cs)
    && |cs| == Clusters(b, |f|)
    && |f| <= |cs| * b && Contents(b, v, cs)[..|f|] == f
  }

  ghost predicate Apart(chains: seq<seq<nat>>) {
    forall i, j | 0 <= i < j < |chains| :: Disjoint(chains[i], chains[j])
  }

  ghost predicate Disjoint(cs: seq<nat>, ds: seq<nat>) {
    forall c | c in cs :: c !in ds
  }

  ghost predicate Stored(b: nat, v: Vol, chains: seq<seq<nat>>, fs: seq<seq<Byte>>) {
    && Sized(b, v) && EndMarker(v.fat, v.fat[1])
    && |chains| == |fs| && Apart(chains)
    && forall i | 0 <= i < |fs| :: Holds(b, v, chains[i], fs[i])
  }

  /** What a chain and its bytes depend on. */
  ghost predicate SameOn(b: nat, v: Vol, w: Vol, cs: seq<nat>)
    requires Sized(b, v)
  {
    && Sized(b, w) && |w.fat| == |v.fat| && w.fat[1] == v.fat[1]
    && forall c | c in cs && 2 <= c < |v.fat| :: w.fat[c] == v.fat[c] && Cluster(b, w, c) == Cluster(b, v, c)
  }

  lemma HoldsSame(b: nat, v: Vol, w: Vol, cs: seq<nat>, f: seq<Byte>)
    requires Sized(b, v) && Holds(b, v, cs, f) && SameOn(b, v, w, cs)
    ensures Holds(b, w, cs, f)
  {
    hide Cluster, Contents, Clusters;
    forall i | 0 <= i < |cs| ensures Follows(w.fat, w.fat[1], cs, i) && Cluster(b, w, cs[i]) == Cluster(b, v, cs[i]) {
      assert Follows(v.fat, v.fat[1], cs, i);
      assert cs[i] in cs;
    }
    ContentsSame(b, v, w, cs);
  }

  lemma ChainUsed(fat: seq<nat>, eoc: nat, cs: seq<nat>, c: nat)
    requires IsChain(fat, eoc, cs) && eoc > 0 && c in cs
    ensures 2 <= c < |fat| && fat[c] != 0
  {
    var i :| 0 <= i < |cs| && cs[i] == c;
    assert Follows(fat, eoc, cs, i);
    if i + 1 < |cs| { assert cs[i + 1] >= 2; }
  }

  /** Adding a file: the others stay as they are. */
  lemma AddSameOn(b: nat, v: Vol, mark: nat, data: seq<Byte>, cs: seq<nat>, f: seq<Byte>)
    requires Sized(b, v) && EndMarker(v.fat, v.fat[1]) && Holds(b, v, cs, f) && data != []
    ensures var (w, ds) := AddData(b, v, mark, data); SameOn(b, v, w, cs) && Disjoint(cs, ds)
  {
    hide Cluster, Clusters, NewPart, AddLoop, Contents;
    var es := AddOutcome(b, v, mark, data);
    var (w, ds) := AddData(b, v, mark, data);
    StartsEmpty(v);
    hide Growing;
    assert w.fat[1] == v.fat[1];
    forall c | c in cs ensures 2 <= c < |v.fat| && w.fat[c] == v.fat[c] && Cluster(b, w, c) == Cluster(b, v, c) && c !in ds {
      ChainUsed(v.fat, v.fat[1], cs, c);
      AddKeepsUsed(b, v, v.fat[1], mark, data, [], c);
    }
  }

  lemma NewHolds(b: nat, v: Vol, mark: nat, data: seq<Byte>)
    requires Sized(b, v) && EndMarker(v.fat, v.fat[1]) && data != []
    ensures var (w, ds) := AddData(b, v, mark, data);
      w.fat[1] == v.fat[1] && (ds != [] ==> Holds(b, w, ds, data))
  {
    hide Cluster, Clusters, AddData, Contents;
    var es := AddOutcome(b, v, mark, data);
  }

  lemma AddStored(b: nat, v: Vol, chains: seq<seq<nat>>, fs: seq<seq<Byte>>, mark: nat, data: seq<Byte>)
    requires Stored(b, v, chains, fs) && data != []
    ensures var (w, ds) := AddData(b, v, mark, data);
      if ds != [] then Stored(b, w, chains + [ds], fs + [data]) else Stored(b, w, chains, fs)
  {
    hide Holds, SameOn, AddData, Disjoint;
    var (w, ds) := AddData(b, v, mark, data);
    NewHolds(b, v, mark, data);
    forall i | 0 <= i < |fs| ensures Holds(b, w, chains[i], fs[i]) && Disjoint(chains[i], ds) {
      AddSameOn(b, v, mark, data, chains[i], fs[i]);
      HoldsSame(b, v, w, chains[i], fs[i]);
    }
  }

  // ---- Removal ----

  function Drop<T>(s: seq<T>, k: nat): (r: seq<T>)
    requires k < |s|
    ensures |r| == |s| - 1
  {
    s[..k] + s[k + 1..]
  }

  /** fat_remove_data: every cluster of the chain is given the mark. */
  function RemoveData(b: nat, v: Vol, cs: seq<nat>, mark: nat): (w: Vol)
    requires Sized(b, v) && InTable(|v.fat|, cs)
    ensures Sized(b, w) && |w.fat| == |v.fat|
  {
    v.(fat := SetAll(v.fat, cs, mark))
  }

  lemma RemoveSameOn(b: nat, v: Vol, cs: seq<nat>, mark: nat, ds: seq<nat>)
    requires Sized(b, v) && InTable(|v.fat|, cs) && Disjoint(ds, cs)
    ensures SameOn(b, v, RemoveData(b, v, cs, mark), ds)
  {
    var w := RemoveData(b, v, cs, mark);
    assert 1 !in cs;
    forall c | c in ds && 2 <= c < |v.fat| ensures Cluster(b, w, c) == Cluster(b, v, c) {
      SameArea(b, v, w, c);
    }
  }

  lemma ApartAt(chains: seq<seq<nat>>, i: nat, j: nat)
    requires Apart(chains) && i < |chains| && j < |chains| && i != j
    ensures Disjoint(chains[i], chains[j])
  {
    if j < i {
      assert Disjoint(chains[j], chains[i]);
    }
  }

  lemma RemoveStored(b: nat, v: Vol, chains: seq<seq<nat>>, fs: seq<seq<Byte>>, k: nat, mark: nat)
    requires Stored(b, v, chains, fs) && k < |fs|
    ensures InTable(|v.fat|, chains[k])
    ensures Stored(b, RemoveData(b, v, chains[k], mark), Drop(chains, k), Drop(fs, k))
  {
    assert Holds(b, v, chains[k], fs[k]);
    assert 1 !in chains[k];
    var w := RemoveData(b, v, chains[k], mark);
    hide Holds, SameOn, Disjoint;
    forall i | 0 <= i < |fs| && i != k ensures Holds(b, w, chains[i], fs[i]) {
      ApartAt(chains, i, k);
      assert Holds(b, v, chains[i], fs[i]);
      RemoveSameOn(b, v, chains[k], mark, chains[i]);
      HoldsSame(b, v, w, chains[i], fs[i]);
    }
  }

  // ---- Overwriting ----

  lemma OverlayPrefix(s: seq<Byte>, n: nat, at: nat, x: seq<Byte>)
    requires n <= |s|
    ensures Overlay(s, at, x)[..n] == Overlay(s[..n], at, x)
  {
    hide Overlay;
    forall q | 0 <= q < n ensures Overlay(s, at, x)[..n][q] == Overlay(s[..n], at, x)[q] {
      OverlayAt(s, at, x, q);
      OverlayAt(s[..n], at, x, q);
    }
  }

  lemma ChainDistinct(fat: seq<nat>, eoc: nat, cs: seq<nat>)
    requires IsChain(fat, eoc, cs)
    ensures Distinct(cs) && InTable(|fat|, cs)
  {
  }

  lemma WriteHolds(b: nat, v: Vol, cs: seq<nat>, f: seq<Byte>, x: seq<Byte>, skip: nat)
    requires Sized(b, v) && Holds(b, v, cs, f) && ReadsRight(b, cs, |x|, skip)
    ensures InTable(|v.fat|, cs) && Holds(b, WriteChain(b, v, cs, x, skip, 0), cs, Overlay(f, skip, x))
  {
    hide Clusters, Contents, WriteChain, Overlay, ReadsRight;
    ChainDistinct(v.fat, v.fat[1], cs);
    WriteSufficient(b, v, cs, x, skip);
    OverlayPrefix(Contents(b, v, cs), |f|, skip, x);
  }

  lemma WriteSameOn(b: nat, v: Vol, cs: seq<nat>, x: seq<Byte>, skip: nat, ds: seq<nat>)
    requires Sized(b, v) && InTable(|v.fat|, cs) && Distinct(cs) && ReadsRight(b, cs, |x|, skip) && Disjoint(ds, cs)
    ensures SameOn(b, v, WriteChain(b, v, cs, x, skip, 0), ds)
  {
    hide Contents, WriteChain, Overlay, ReadsRight, Cluster, Distinct, Outside;
    WriteSufficient(b, v, cs, x, skip);
    var w := WriteChain(b, v, cs, x, skip, 0);
    forall c | c in ds && 2 <= c < |v.fat| ensures Cluster(b, w, c) == Cluster(b, v, c) {
      OtherClusterSame(b, v, w, cs, c);
    }
  }

  lemma WriteStored(b: nat, v: Vol, chains: seq<seq<nat>>, fs: seq<seq<Byte>>, k: nat, x: seq<Byte>, skip: nat)
    requires Stored(b, v, chains, fs) && k < |fs| && ReadsRight(b, chains[k], |x|, skip)
    ensures InTable(|v.fat|, chains[k])
    ensures Stored(b, WriteChain(b, v, chains[k], x, skip, 0), chains, fs[k := Overlay(fs[k], skip, x)])
  {
    assert Holds(b, v, chains[k], fs[k]);
    ChainDistinct(v.fat, v.fat[1], chains[k]);
    hide Holds, SameOn, Disjoint, WriteChain, Overlay, ReadsRight, Distinct;
    var w := WriteChain(b, v, chains[k], x, skip, 0);
    WriteHolds(b, v, chains[k], fs[k], x, skip);
    forall i | 0 <= i < |fs| && i != k ensures Holds(b, w, chains[i], fs[i]) {
      ApartAt(chains, i, k);
      assert Holds(b, v, chains[i], fs[i]);
      WriteSameOn(b, v, chains[k], x, skip, chains[i]);
      HoldsSame(b, v, w, chains[i], fs[i]);
    }
  }

  // ---- Space ----

  function Elements(cs: seq<nat>): set<nat> { set c | c in cs }

  lemma {:induction false} ElementsSize(cs: seq<nat>)
    requires Distinct(cs)
    ensures |Elements(cs)| == |cs|
    decreases |cs|
  {
    if cs == [] {
      assert Elements(cs) == {};
    } else {
      ElementsSize(cs[1..]);
      assert Elements(cs) == Elements(cs[1..]) + {cs[0]};
      assert cs[0] !in cs[1..];
    }
  }

  lemma AddTakes(b: nat, v: Vol, mark: nat, data: seq<Byte>)
    requires Sized(b, v) && EndMarker(v.fat, v.fat[1]) && data != []
    ensures var (w, ds) := AddData(b, v, mark, data);
      && (ds != [] ==> |Free(w.fat)| == |Free(v.fat)| - Clusters(b, |data|))
      && (ds == [] ==> Free(w.fat) == if mark == 0 then Free(v.fat) else {})
  {
    hide Clusters, AddData, NewPart;
    var es := AddOutcome(b, v, mark, data);
    var (w, ds) := AddData(b, v, mark, data);
    if ds != [] {
      forall c | c in ds ensures c in Free(v.fat) && c !in Free(w.fat) {
        ChainUsed(w.fat, v.fat[1], ds, c);
      }
      assert Free(v.fat) == Free(w.fat) + Elements(ds);
      ElementsSize(ds);
    }
  }

  lemma RemoveGives(b: nat, v: Vol, cs: seq<nat>, mark: nat)
    requires Sized(b, v) && EndMarker(v.fat, v.fat[1]) && IsChain(v.fat, v.fat[1], cs)
    ensures |Free(RemoveData(b, v, cs, mark).fat)| == |Free(v.fat)| + (if mark == 0 then |cs| else 0)
  {
    var w := RemoveData(b, v, cs, mark);
    forall c | c in cs ensures c !in Free(v.fat) && (c in Free(w.fat) <==> mark == 0) {
      ChainUsed(v.fat, v.fat[1], cs, c);
    }
    if mark == 0 {
      assert Free(w.fat) == Free(v.fat) + Elements(cs);
      ElementsSize(cs);
    } else {
      assert Free(w.fat) == Free(v.fat);
    }
  }

  /** Clusters taken by all files together. */
  function Total(b: nat, fs: seq<seq<Byte>>): (n: nat)
    requires b > 0
  {
    if fs == [] then 0 else Total(b, fs[..|fs| - 1]) + Clusters(b, |fs[|fs| - 1]|)
  }

  lemma {:induction false} TotalDrop(b: nat, fs: seq<seq<Byte>>, k: nat)
    requires b > 0 && k < |fs|
    ensures Total(b, fs) == Total(b, Drop(fs, k)) + Clusters(b, |fs[k]|)
    decreases |fs|
  {
    hide Clusters;
    var n := |fs| - 1;
    if k == n {
      assert Drop(fs, k) == fs[..n];
    } else {
      TotalDrop(b, fs[..n], k);
      assert Drop(fs, k)[..n - 1] == Drop(fs[..n], k);
    }
  }

  lemma {:induction false} TotalSame(b: nat, fs: seq<seq<Byte>>, gs: seq<seq<Byte>>)
    requires b > 0 && |fs| == |gs| && forall i | 0 <= i < |fs| :: |fs[i]| == |gs[i]|
    ensures Total(b, fs) == Total(b, gs)
    decreases |fs|
  {
    hide Clusters;
    if fs != [] { TotalSame(b, fs[..|fs| - 1], gs[..|fs| - 1]); }
  }

  // ---- Runs ----

  /** The marks are those the clusters given up are left with; 0 makes them free. */
  datatype Op =
    | Add(mark: nat, data: seq<Byte>)
    | Remove(mark: nat, file: nat)
    | Write(file: nat, data: seq<Byte>, skip: nat)

  /** The volume and, for each file, its chain. */
  datatype System = System(vol: Vol, chains: seq<seq<nat>>)

  ghost predicate Chains(b: nat, s: System) {
    Sized(b, s.vol) && forall i | 0 <= i < |s.chains| :: InTable(|s.vol.fat|, s.chains[i])
  }

  ghost predicate Allowed(b: nat, s: System, op: Op)
    requires Chains(b, s)
  {
    match op
    case Add(_, data) => data != []
    case Remove(_, k) => k < |s.chains|
    case Write(k, data, skip) => k < |s.chains| && ReadsRight(b, s.chains[k], |data|, skip)
  }

  function Step(b: nat, s: System, op: Op): (t: System)
    requires Chains(b, s) && Allowed(b, s, op)
    ensures Chains(b, t)
  {
    match op
    case Add(mark, data) =>
      var (w, ds) := AddLoop(b, s.vol, s.vol.fat[1], mark, data, []);
      System(w, if ds == [] then s.chains else s.chains + [ds])
    case Remove(mark, k) => System(RemoveData(b, s.vol, s.chains[k], mark), Drop(s.chains, k))
    case Write(k, data, skip) => System(WriteChain(b, s.vol, s.chains[k], data, skip, 0), s.chains)
  }

  /** A list of files kept without a disk, and the number of clusters there is room for. */
  datatype Shelf = Shelf(files: seq<seq<Byte>>, room: nat)

  /**
   What the same operation does to the shelf.  Clusters that are given up with a mark other than 0 are lost: those
   of a file that is removed, and all that were free when an addition finds too few of them.
   */
  function Ideal(b: nat, f: Shelf, op: Op): (g: Shelf)
    requires b > 0
  {
    match op
    case Add(mark, data) =>
      if Total(b, f.files) + Clusters(b, |data|) <= f.room then f.(files := f.files + [data])
      else if mark == 0 then f
      else f.(room := Total(b, f.files))
    case Remove(mark, k) =>
      if k >= |f.files| then f
      else
        var lost := if mark == 0 then 0 else Clusters(b, |f.files[k]|);
        Shelf(Drop(f.files, k), if lost <= f.room then f.room - lost else 0)
    case Write(k, data, skip) =>
      if k < |f.files| then f.(files := f.files[k := Overlay(f.files[k], skip, data)]) else f
  }

  /** The disk holds the files of the shelf, and has as many clusters free as the shelf has room left. */
  ghost predicate Faithful(b: nat, s: System, f: Shelf) {
    b > 0 && Stored(b, s.vol, s.chains, f.files) && |Free(s.vol.fat)| + Total(b, f.files) == f.room
  }

  lemma FaithfulChains(b: nat, s: System, f: Shelf)
    requires Faithful(b, s, f)
    ensures Chains(b, s)
  {
    forall i | 0 <= i < |s.chains| ensures InTable(|s.vol.fat|, s.chains[i]) {
      assert Holds(b, s.vol, s.chains[i], f.files[i]);
    }
  }

  lemma StepAdd(b: nat, s: System, f: Shelf, mark: nat, data: seq<Byte>)
    requires Faithful(b, s, f) && data != [] && Chains(b, s)
    ensures Faithful(b, Step(b, s, Add(mark, data)), Ideal(b, f, Add(mark, data)))
  {
    var (w, ds) := AddData(b, s.vol, mark, data);
    var t := Step(b, s, Add(mark, data));
    assert t == System(w, if ds == [] then s.chains else s.chains + [ds]);
    hide AddData, Clusters, Stored, Free, Step, Chains, Growing, Since, NewPart, Marked, AllTaken;
    assert Sized(b, s.vol) && EndMarker(s.vol.fat, s.vol.fat[1]) by { StoredMeans(b, s.vol, s.chains, f.files); }
    AddStored(b, s.vol, s.chains, f.files, mark, data);
    AddTakes(b, s.vol, mark, data);
    var es := AddOutcome(b, s.vol, mark, data);
    assert (f.files + [data])[..|f.files|] == f.files;
  }

  lemma StoredMeans(b: nat, v: Vol, chains: seq<seq<nat>>, fs: seq<seq<Byte>>)
    requires Stored(b, v, chains, fs)
    ensures Sized(b, v) && EndMarker(v.fat, v.fat[1]) && |chains| == |fs|
    ensures forall i | 0 <= i < |fs| :: Holds(b, v, chains[i], fs[i])
  {
  }

  lemma StepRemove(b: nat, s: System, f: Shelf, mark: nat, k: nat)
    requires Faithful(b, s, f) && k < |f.files| && Chains(b, s)
    ensures k < |s.chains| && Faithful(b, Step(b, s, Remove(mark, k)), Ideal(b, f, Remove(mark, k)))
  {
    StoredMeans(b, s.vol, s.chains, f.files);
    hide Clusters, Stored, Free, RemoveData, Total;
    RemoveStored(b, s.vol, s.chains, f.files, k, mark);
    assert Holds(b, s.vol, s.chains[k], f.files[k]);
    RemoveGives(b, s.vol, s.chains[k], mark);
    TotalDrop(b, f.files, k);
  }

  lemma StepWrite(b: nat, s: System, f: Shelf, k: nat, x: seq<Byte>, skip: nat)
    requires Faithful(b, s, f) && k < |f.files| && Chains(b, s) && k < |s.chains| && ReadsRight(b, s.chains[k], |x|, skip)
    ensures Faithful(b, Step(b, s, Write(k, x, skip)), Ideal(b, f, Write(k, x, skip)))
  {
    hide Clusters, Stored, Free, WriteChain, Total, ReadsRight, Overlay;
    WriteStored(b, s.vol, s.chains, f.files, k, x, skip);
    TotalSame(b, f.files, f.files[k := Overlay(f.files[k], skip, x)]);
  }

  ghost predicate ValidRun(b: nat, s: System, ops: seq<Op>)
    decreases |ops|
  {
    ops == [] || (Chains(b, s) && Allowed(b, s, ops[0]) && ValidRun(b, Step(b, s, ops[0]), ops[1..]))
  }

  ghost function Run(b: nat, s: System, ops: seq<Op>): (t: System)
    requires ValidRun(b, s, ops)
    decreases |ops|
  {
    if ops == [] then s else Run(b, Step(b, s, ops[0]), ops[1..])
  }

  function IdealRun(b: nat, f: Shelf, ops: seq<Op>): (g: Shelf)
    requires b > 0
    decreases |ops|
  {
    if ops == [] then f else IdealRun(b, Ideal(b, f, ops[0]), ops[1..])
  }

  /** One operation does to the disk what it does to the shelf. */
  lemma StepFaithful(b: nat, s: System, f: Shelf, op: Op)
    requires b > 0 && Faithful(b, s, f) && Chains(b, s) && Allowed(b, s, op)
    ensures Faithful(b, Step(b, s, op), Ideal(b, f, op))
  {
    StoredMeans(b, s.vol, s.chains, f.files);
    hide Stored, Ideal, Chains, ReadsRight, Faithful, Step, Holds;
    match op {
      case Add(mark, data) => StepAdd(b, s, f, mark, data);
      case Remove(mark, k) => StepRemove(b, s, f, mark, k);
      case Write(k, x, skip) => StepWrite(b, s, f, k, x, skip);
    }
  }

  /** The disk behaves, over every run, like a shelf of files, whatever the marks. */
  lemma {:induction false} RunFaithful(b: nat, s: System, f: Shelf, ops: seq<Op>)
    requires b > 0 && Faithful(b, s, f) && ValidRun(b, s, ops)
    ensures Faithful(b, Run(b, s, ops), IdealRun(b, f, ops))
    decreases |ops|
  {
    hide Faithful, Ideal, Chains, Step, Allowed;
    if ops != [] {
      StepFaithful(b, s, f, ops[0]);
      RunFaithful(b, Step(b, s, ops[0]), Ideal(b, f, ops[0]), ops[1..]);
    }
  }

  predicate Unmarked(ops: seq<Op>) {
    forall i | 0 <= i < |ops| :: (ops[i].Add? || ops[i].Remove? ==> ops[i].mark == 0)
  }

  /** Where all marks are 0, as in every removal of a file, no cluster is ever lost. */
  lemma {:induction false} NothingLost(b: nat, f: Shelf, ops: seq<Op>)
    requires b > 0 && Unmarked(ops)
    ensures IdealRun(b, f, ops).room == f.room
    decreases |ops|
  {
    if ops != [] {
      assert Unmarked(ops[1..]);
      NothingLost(b, Ideal(b, f, ops[0]), ops[1..]);
    }
  }

  /** A formatted volume holds no files and all its clusters are free. */
  lemma FormattedFaithful(b: nat, v: Vol)
    requires Sized(b, v) && EndMarker(v.fat, v.fat[1]) && forall c | 2 <= c < |v.fat| :: v.fat[c] == 0
    ensures Faithful(b, System(v, []), Shelf([], |v.fat| - 2))
  {
    assert Free(v.fat) == Range(2, |v.fat|);
  }

  function Range(i: nat, n: nat): (r: set<nat>)
    requires i <= n
    ensures |r| == n - i && forall c :: c in r <==> i <= c < n
    decreases n - i
  {
    if i == n then {} else {i} + Range(i + 1, n)
  }

  /** What a file reads like at the end of any run: reads that the chain allows give the file's own bytes. */
  lemma RunReads(b: nat, s: System, f: Shelf, ops: seq<Op>, k: nat, len: nat, skip: nat)
    requires b > 0 && Faithful(b, s, f) && ValidRun(b, s, ops)
    requires k < |IdealRun(b, f, ops).files| && skip + len <= |IdealRun(b, f, ops).files[k]|
    ensures var t, g := Run(b, s, ops), IdealRun(b, f, ops);
      && Chains(b, t) && k < |t.chains|
      && (ReadsRight(b, t.chains[k], len, skip) ==>
           ReadChain(b, t.vol, t.chains[k], len, skip, 0) == g.files[k][skip..skip + len])
  {
    hide Run, IdealRun, ValidRun, ReadsRight, Clusters, ReadChain, Contents;
    RunFaithful(b, s, f, ops);
    FaithfulReads(b, Run(b, s, ops), IdealRun(b, f, ops), k, len, skip);
  }

  lemma FaithfulReads(b: nat, t: System, g: Shelf, k: nat, len: nat, skip: nat)
    requires b > 0 && Faithful(b, t, g) && k < |g.files| && skip + len <= |g.files[k]|
    ensures Chains(b, t) && k < |t.chains|
    ensures ReadsRight(b, t.chains[k], len, skip) ==> ReadChain(b, t.vol, t.chains[k], len, skip, 0) == g.files[k][skip..skip + len]
  {
    FaithfulChains(b, t, g);
    StoredMeans(b, t.vol, t.chains, g.files);
    hide ReadsRight, Clusters, ReadChain, Contents;
    assert Holds(b, t.vol, t.chains[k], g.files[k]);
    if ReadsRight(b, t.chains[k], len, skip) {
      ReadSufficient(b, t.vol, t.chains[k], len, skip);
      SlicePrefix(Contents(b, t.vol, t.chains[k]), |g.files[k]|, skip, len);
    }
  }

  lemma SlicePrefix(s: seq<Byte>, n: nat, skip: nat, len: nat)
    requires skip + len <= n <= |s|
    ensures Slice(s, skip, len) == s[..n][skip..skip + len]
  {
    forall q | skip <= q < skip + len ensures s[..n][q] == s[q] {}
  }
}
