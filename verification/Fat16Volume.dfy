/** The byte-addressed disk under a FAT16 volume, and the operations that loop over it. */
module Fat16Volume {
  import opened Arithmetic
  import opened Fat16
  import opened Fat16Write
  import opened Fat16Files

  /** The fields of the boot block that decide where things are. */
  datatype Bpb = Bpb(
    bytesPerSector: nat, sectorsPerCluster: nat, reservedSectorCount: nat, fatCount: nat,
    rootEntryCount: nat, sectorCount: nat, largeSectorCount: nat, sectorsPerFat: nat, mediaType: Byte)

  const ENTRY_SIZE: nat := 32

  /** The boot block is this long. */
  const BOOT: nat := 62

  /** The fields as they lie in the boot sector, low byte first. */
  function Parse(s: seq<Byte>): (p: Bpb)
    requires |s| >= BOOT
  {
    Bpb(Word(s[11], s[12]), s[13], Word(s[14], s[15]), s[16], Word(s[17], s[18]), Word(s[19], s[20]),
        Word(s[32], s[33]) + 0x1_0000 * Word(s[34], s[35]), Word(s[22], s[23]), s[MEDIA])
  }

  function TotalSectorCount(p: Bpb): nat {
    if p.sectorCount != 0 then p.sectorCount else p.largeSectorCount
  }

  function MetaSectorCount(p: Bpb): nat
    requires p.bytesPerSector > 0
  {
    p.reservedSectorCount + p.fatCount * p.sectorsPerFat + p.rootEntryCount * ENTRY_SIZE / p.bytesPerSector
  }

  function ClusterCount(p: Bpb): nat
    requires p.bytesPerSector > 0 && p.sectorsPerCluster > 0 && MetaSectorCount(p) <= TotalSectorCount(p)
  {
    (TotalSectorCount(p) - MetaSectorCount(p)) / p.sectorsPerCluster
  }

  function ClusterBytes(p: Bpb): nat { p.sectorsPerCluster * p.bytesPerSector }

  function TableAddr(p: Bpb): nat { p.reservedSectorCount * p.bytesPerSector }

  /** How far the copies of the table are apart. */
  function TableBytes(p: Bpb): nat { p.sectorsPerFat * p.bytesPerSector }

  function DataAddr(p: Bpb): nat {
    (p.reservedSectorCount + p.fatCount * p.sectorsPerFat) * p.bytesPerSector + p.rootEntryCount * ENTRY_SIZE
  }

  /** A volume as the FAT specification has it: whole sectors of root entries, a table with room for every cluster. */
  ghost predicate WellFormed(p: Bpb, size: nat) {
    && p.bytesPerSector >= 512 && p.sectorsPerCluster > 0 && p.reservedSectorCount > 0 && p.fatCount > 0
    && p.rootEntryCount * ENTRY_SIZE % p.bytesPerSector == 0
    && MetaSectorCount(p) <= TotalSectorCount(p)
    && TotalSectorCount(p) * p.bytesPerSector <= size
    && 2 <= ClusterCount(p) <= 0xFFFF
    && 2 * ClusterCount(p) <= p.sectorsPerFat * p.bytesPerSector
  }

  /** A table with room for `n` entries ends in front of what follows all the tables. */
  lemma TableFits(s: nat, r: nat, copies: nat, f: nat, n: nat)
    requires copies > 0 && 2 * n <= f * s
    ensures r * s + 2 * n <= (r + copies * f) * s
  {
    MulGrows(f, copies);
    MulMono(f, copies * f, s);
    MulDistr(s, r, copies * f);
  }

  /** Whole sectors of root entries. */
  lemma RootEnds(s: nat, k: nat, root: nat)
    requires s > 0 && root % s == 0
    ensures k * s + root == (k + root / s) * s
  {
    DivBounds(root, s);
    MulDistr(s, k, root / s);
  }

  /** The clusters end where the sectors end. */
  lemma ClustersFit(s: nat, c: nat, t: nat, m: nat)
    requires c > 0 && m <= t
    ensures m * s + (t - m) / c * (c * s) <= t * s
  {
    var n := (t - m) / c;
    DivBounds(t - m, c);
    MulMono(c * n, t - m, s);
    MulAssoc(n, c, s);
    MulDistr(s, t, m);
  }

  /** The boot sector, the table and the clusters do not overlap and lie on the disk. */
  lemma Layout(p: Bpb, size: nat)
    requires WellFormed(p, size)
    ensures ClusterBytes(p) > 0
    ensures p.bytesPerSector <= TableAddr(p)
    ensures TableAddr(p) + 2 * ClusterCount(p) <= DataAddr(p)
    ensures TableAddr(p) + p.fatCount * TableBytes(p) <= DataAddr(p) && 2 * ClusterCount(p) <= TableBytes(p)
    ensures DataAddr(p) + ClusterCount(p) * ClusterBytes(p) <= size
  {
    var s, r, f, c := p.bytesPerSector, p.reservedSectorCount, p.sectorsPerFat, p.sectorsPerCluster;
    MulGrows(s, c);
    MulGrows(s, r);
    TableFits(s, r, p.fatCount, f, ClusterCount(p));
    MulAssoc(p.fatCount, f, s);
    MulDistr(s, r, p.fatCount * f);
    RootEnds(s, r + p.fatCount * f, p.rootEntryCount * ENTRY_SIZE);
    ClustersFit(s, c, TotalSectorCount(p), MetaSectorCount(p));
  }

  /** What the boot block amounts to: where the table and the clusters are, and how many and how large they are. */
  datatype Geo = Geo(sector: nat, table: nat, fats: nat, span: nat, count: nat, data: nat, bytes: nat)

  function Geometry(p: Bpb, size: nat): (g: Geo)
    requires WellFormed(p, size)
    ensures Fits(g, size)
  {
    Layout(p, size);
    Geo(p.bytesPerSector, TableAddr(p), p.fatCount, TableBytes(p), ClusterCount(p), DataAddr(p), ClusterBytes(p))
  }

  /** Where copy `k` of the table starts. */
  function CopyAddr(g: Geo, k: nat): nat { g.table + k * g.span }

  function Area(g: Geo): nat { g.count * g.bytes }

  predicate Fits(g: Geo, size: nat) {
    && g.bytes > 0 && g.fats > 0 && 2 <= g.count <= 0xFFFF
    && g.sector <= g.table && 2 * g.count <= g.span && g.table + g.span <= CopyAddr(g, g.fats) <= g.data
    && g.data + Area(g) <= size
  }

  /** The byte at `p` is neither in the entries of the first table nor in a cluster. */
  predicate Aside(g: Geo, p: nat) {
    p < g.table || g.table + 2 * g.count <= p < g.data || p >= g.data + Area(g)
  }

  /** From `lo` on, `t` differs from `s` at most in the first table and the clusters. */
  ghost predicate Elsewhere(s: seq<Byte>, t: seq<Byte>, g: Geo, lo: nat) {
    |t| == |s| && forall p | lo <= p < |s| && Aside(g, p) :: t[p] == s[p]
  }

  // ---- The disk as a volume ----

  function Word(lo: Byte, hi: Byte): (x: nat)
    ensures x < 0x1_0000
  {
    lo + 256 * hi
  }

  function Bytes(x: nat): (r: seq<Byte>)
    requires x < 0x1_0000
    ensures |r| == 2
  {
    [x % 256, x / 256]
  }

  lemma WordParts(x: nat)
    requires x < 0x1_0000
    ensures Word(Bytes(x)[0], Bytes(x)[1]) == x
  {
  }

  /** Entry `i` of the table. */
  function Entry(s: seq<Byte>, g: Geo, i: nat): (x: nat)
    requires Fits(g, |s|) && i < g.count
    ensures x < 0x1_0000
  {
    Word(s[g.table + 2 * i], s[g.table + 2 * i + 1])
  }

  ghost function View(s: seq<Byte>, g: Geo): (v: Vol)
    requires Fits(g, |s|)
    ensures |v.fat| == g.count && Sized(g.bytes, v) && |v.area| == Area(g)
    ensures forall i | 0 <= i < g.count :: v.fat[i] == Entry(s, g, i)
    ensures v.area == s[g.data..g.data + Area(g)]
  {
    Vol(seq(g.count, i requires 0 <= i < g.count => Entry(s, g, i)), s[g.data..g.data + Area(g)])
  }

  /** Writing an entry of the table changes that entry. */
  lemma PutEntry(s: seq<Byte>, g: Geo, i: nat, x: nat)
    requires Fits(g, |s|) && i < g.count && x < 0x1_0000
    ensures View(Splice(s, g.table + 2 * i, Bytes(x)), g) == View(s, g).(fat := View(s, g).fat[i := x])
  {
    hide View, Area;
    var t := Splice(s, g.table + 2 * i, Bytes(x));
    WordParts(x);
    var v, w := View(s, g), View(t, g);
    forall j | 0 <= j < g.count ensures w.fat[j] == v.fat[i := x][j] {
      SpliceAt(s, g.table + 2 * i, Bytes(x), g.table + 2 * j);
      SpliceAt(s, g.table + 2 * i, Bytes(x), g.table + 2 * j + 1);
    }
    assert w.area == v.area;
  }

  // ---- The copies of the table ----

  /** A copy other than the first lies behind the entries of the first and in front of the clusters. */
  lemma CopyAside(g: Geo, k: nat, i: nat)
    requires 0 < k < g.fats && i < g.count && 2 * g.count <= g.span && CopyAddr(g, g.fats) <= g.data
    ensures g.table + 2 * g.count <= CopyAddr(g, k) + 2 * i && CopyAddr(g, k) + 2 * i + 1 < g.data
  {
    MulMono(k + 1, g.fats, g.span);
    MulDistr(g.span, k, 1);
    MulMono(1, k, g.span);
  }

  lemma CopyOnDisk(g: Geo, size: nat, k: nat, i: nat)
    requires Fits(g, size) && k < g.fats && i < g.count
    ensures CopyAddr(g, k) + 2 * i + 1 < size && CopyAddr(g, 0) == g.table
  {
    if k > 0 { CopyAside(g, k, i); }
  }

  /** Entry `i` of copy `k`. */
  function CopyEntry(s: seq<Byte>, g: Geo, k: nat, i: nat): (x: nat)
    requires Fits(g, |s|) && k < g.fats && i < g.count
  {
    CopyOnDisk(g, |s|, k, i);
    Word(s[CopyAddr(g, k) + 2 * i], s[CopyAddr(g, k) + 2 * i + 1])
  }

  ghost predicate SameCopy(s: seq<Byte>, g: Geo, k: nat)
    requires Fits(g, |s|) && k < g.fats
  {
    forall i | 0 <= i < g.count :: CopyEntry(s, g, k, i) == Entry(s, g, i)
  }

  /** All copies of the table hold the same entries. */
  ghost predicate CopiesAgree(s: seq<Byte>, g: Geo)
    requires Fits(g, |s|)
  {
    forall k | 0 <= k < g.fats :: SameCopy(s, g, k)
  }

  /** Copy `k` holds the entries `fat`. */
  ghost predicate CopyHolds(s: seq<Byte>, g: Geo, k: nat, fat: seq<nat>)
    requires Fits(g, |s|) && k < g.fats && |fat| == g.count
  {
    forall i | 0 <= i < g.count :: CopyEntry(s, g, k, i) == fat[i]
  }

  lemma CopyKept(s: seq<Byte>, t: seq<Byte>, g: Geo, lo: nat, k: nat, i: nat)
    requires Fits(g, |s|) && |t| == |s| && Elsewhere(s, t, g, lo) && lo <= g.table && 0 < k < g.fats && i < g.count
    ensures CopyEntry(t, g, k, i) == CopyEntry(s, g, k, i)
  {
    hide Area, CopyAddr;
    CopyAside(g, k, i);
    var a := CopyAddr(g, k) + 2 * i;
    assert Aside(g, a) && Aside(g, a + 1);
  }

  lemma FirstCopy(s: seq<Byte>, g: Geo)
    requires Fits(g, |s|)
    ensures SameCopy(s, g, 0)
  {
  }

  lemma CopyAfter(s: seq<Byte>, t: seq<Byte>, g: Geo, lo: nat, k: nat)
    requires Fits(g, |s|) && |t| == |s| && Elsewhere(s, t, g, lo) && lo <= g.table && 0 < k < g.fats
    ensures SameCopy(t, g, k) <==> CopyHolds(s, g, k, View(t, g).fat)
  {
    hide Area, View, Elsewhere, CopyEntry, Entry, CopyAddr;
    forall i | 0 <= i < g.count ensures CopyEntry(t, g, k, i) == CopyEntry(s, g, k, i) && Entry(t, g, i) == View(t, g).fat[i] {
      CopyKept(s, t, g, lo, k, i);
    }
  }

  /** After writes to the first table and the clusters the copies agree exactly when the others already held what the first holds now. */
  lemma CopiesAfter(s: seq<Byte>, t: seq<Byte>, g: Geo, lo: nat)
    requires Fits(g, |s|) && |t| == |s| && Elsewhere(s, t, g, lo) && lo <= g.table
    ensures CopiesAgree(t, g) <==> forall k | 1 <= k < g.fats :: CopyHolds(s, g, k, View(t, g).fat)
  {
    hide Area, View, Elsewhere, SameCopy, CopyHolds, CopyAddr;
    FirstCopy(t, g);
    forall k | 1 <= k < g.fats ensures SameCopy(t, g, k) <==> CopyHolds(s, g, k, View(t, g).fat) {
      CopyAfter(s, t, g, lo, k);
    }
  }

  /** Writing only the first table keeps the copies equal exactly when there is one copy, or nothing has changed in it. */
  lemma CopiesExactly(s: seq<Byte>, t: seq<Byte>, g: Geo)
    requires Fits(g, |s|) && |t| == |s| && Elsewhere(s, t, g, 0) && CopiesAgree(s, g)
    ensures CopiesAgree(t, g) <==> g.fats == 1 || View(t, g).fat == View(s, g).fat
  {
    hide Area, View, Elsewhere, CopyEntry, CopyAddr, CopiesAgree;
    CopiesAfter(s, t, g, 0);
    ElsewhereSame(s, g, 0);
    CopiesAfter(s, s, g, 0);
    if g.fats > 1 {
      assert CopyHolds(s, g, 1, View(s, g).fat);
      if CopyHolds(s, g, 1, View(t, g).fat) {
        assert forall i | 0 <= i < g.count :: View(t, g).fat[i] == CopyEntry(s, g, 1, i) == View(s, g).fat[i];
      }
    }
  }

  /** Where there is more than one copy, every change of an entry tells them apart. */
  lemma CopiesDiverge(s: seq<Byte>, g: Geo, i: nat, x: nat)
    requires Fits(g, |s|) && g.fats > 1 && CopiesAgree(s, g) && i < g.count && x < 0x1_0000 && Entry(s, g, i) != x
    ensures Fits(g, |Splice(s, g.table + 2 * i, Bytes(x))|) && !CopiesAgree(Splice(s, g.table + 2 * i, Bytes(x)), g)
  {
    hide CopyAddr, Area, View, Splice, CopiesAgree, Entry;
    var t := Splice(s, g.table + 2 * i, Bytes(x));
    PutEntry(s, g, i, x);
    PutElsewhere(s, g, g.table + 2 * i, Bytes(x));
    CopiesExactly(s, t, g);
    assert View(t, g).fat[i] == x != View(s, g).fat[i];
  }

  /** The boot block of the kernel's own volume, with 128 sectors. */
  const OWN := Bpb(512, 1, 4, 2, 512, 128, 0, 20, 0xF8)

  /** A disk with that boot block and nothing else on it. */
  function OwnDisk(): (s: seq<Byte>)
    ensures |s| == 65536 && Parse(s) == OWN && forall p | 62 <= p < 65536 :: s[p] == 0
  {
    var s := Zeros(65536)[12 := 2][13 := 1][14 := 4][16 := 2][18 := 2][19 := 128][21 := 0xF8][22 := 20];
    assert s[11] == s[15] == s[17] == s[20] == s[23] == s[32] == s[33] == s[34] == s[35] == 0;
    s
  }

  lemma OwnWellFormed()
    ensures WellFormed(OWN, 65536) && Geometry(OWN, 65536) == Geo(512, 2048, 2, 10240, 52, 38912, 512)
  {
  }

  /** A disk that the kernel makes, on which one new entry tells its two copies apart. */
  lemma TwoCopies()
    ensures WellFormed(Parse(OwnDisk()), |OwnDisk()|)
    ensures var s, g := OwnDisk(), Geometry(OWN, 65536);
      && g.fats == 2 && CopiesAgree(s, g)
      && !CopiesAgree(Splice(s, g.table + 4, Bytes(0xFFFF)), g)
  {
    OwnWellFormed();
    var s, g := OwnDisk(), Geometry(OWN, 65536);
    assert Fits(g, |s|);
    hide CopiesAgree, OwnDisk, Geometry, WellFormed, Fits, Zeros;
    ZeroCopies(s, g);
    assert Entry(s, g, 2) == 0;
    CopiesDiverge(s, g, 2, 0xFFFF);
  }

  lemma ZeroCopies(s: seq<Byte>, g: Geo)
    requires Fits(g, |s|) && forall p | g.table <= p < |s| :: s[p] == 0
    ensures CopiesAgree(s, g)
  {
    hide CopyAddr, Area;
    forall k, i | 0 <= k < g.fats && 0 <= i < g.count ensures CopyEntry(s, g, k, i) == Entry(s, g, i) {
      CopyOnDisk(g, |s|, k, i);
      if k > 0 { CopyAside(g, k, i); }
    }
  }

  /** Formatting a disk that is erased, as the kernel does, leaves copies that differ, unless there is one. */
  lemma ErasedDiverge(s: seq<Byte>, t: seq<Byte>, g: Geo, lo: nat, mediaType: Byte)
    requires Fits(g, |s|) && |t| == |s| && Elsewhere(s, t, g, lo) && lo <= g.table && View(t, g).fat == Blank(g.count, mediaType)
    requires forall p | g.table <= p < |s| :: s[p] == ERASED
    ensures CopiesAgree(t, g) <==> g.fats == 1
  {
    hide View, Elsewhere, CopyAddr, Area, CopiesAgree;
    CopiesAfter(s, t, g, lo);
    if g.fats > 1 {
      CopyAside(g, 1, 1);
      CopyOnDisk(g, |s|, 1, 1);
      assert CopyEntry(s, g, 1, 1) == Word(ERASED, ERASED) != View(t, g).fat[1];
      assert !CopyHolds(s, g, 1, View(t, g).fat);
    }
  }

  /** Writing into the clusters changes those bytes. */
  lemma PutBytes(s: seq<Byte>, g: Geo, at: nat, x: seq<Byte>)
    requires Fits(g, |s|) && at + |x| <= Area(g)
    ensures View(Splice(s, g.data + at, x), g) == View(s, g).(area := Splice(View(s, g).area, at, x))
  {
    hide View, Area;
    var t := Splice(s, g.data + at, x);
    var v, w := View(s, g), View(t, g);
    forall j | 0 <= j < g.count ensures w.fat[j] == v.fat[j] {
      SpliceAt(s, g.data + at, x, g.table + 2 * j);
      SpliceAt(s, g.data + at, x, g.table + 2 * j + 1);
    }
    assert w.fat == v.fat;
    var y := Splice(v.area, at, x);
    forall k | 0 <= k < Area(g) ensures w.area[k] == y[k] {
      SpliceAt(s, g.data + at, x, g.data + k);
      SpliceAt(v.area, at, x, k);
    }
    assert w.area == y;
  }

  /** Writes into the table or the clusters leave the rest alone. */
  lemma PutElsewhere(s: seq<Byte>, g: Geo, at: nat, x: seq<Byte>)
    requires Fits(g, |s|) && at + |x| <= |s|
    requires (g.table <= at && at + |x| <= g.table + 2 * g.count) || (g.data <= at && at + |x| <= g.data + Area(g))
    ensures Elsewhere(s, Splice(s, at, x), g, 0)
  {
    hide Area;
    forall p | 0 <= p < |s| && Aside(g, p) ensures Splice(s, at, x)[p] == s[p] {
      SpliceAt(s, at, x, p);
    }
  }

  lemma ElsewhereSame(s: seq<Byte>, g: Geo, lo: nat)
    ensures Elsewhere(s, s, g, lo)
  {
  }

  /** Writing in front of the table changes nothing in the volume. */
  lemma PutFront(s: seq<Byte>, t: seq<Byte>, g: Geo)
    requires Fits(g, |s|) && |s| == |t| && t[g.table..] == s[g.table..]
    ensures View(t, g) == View(s, g)
  {
    hide View, Area;
    forall k | g.table <= k < |s| ensures t[k] == s[k] {
      assert t[k] == t[g.table..][k - g.table] && s[k] == s[g.table..][k - g.table];
    }
    assert View(t, g).fat == View(s, g).fat;
    assert View(t, g).area == View(s, g).area;
  }

  method Poke(a: array<Byte>, at: nat, x: seq<Byte>)
    requires at + |x| <= a.Length
    modifies a
    ensures a[..] == Splice(old(a[..]), at, x)
  {
    ghost var s := a[..];
    var j := 0;
    while j < |x|
      invariant 0 <= j <= |x| && a[..] == s[..at] + x[..j] + s[at + j..]
    {
      a[at + j] := x[j];
      j := j + 1;
    }
    assert x[..j] == x;
  }

  const MEDIA: nat := 21

  /** What a new disk is filled with. */
  const ERASED: Byte := 0xE5

  /** The table of a formatted volume. */
  function Blank(n: nat, mediaType: Byte): (fat: seq<nat>)
    requires n >= 2
    ensures |fat| == n
  {
    [0xFF00 + mediaType, 0xFFFF] + seq(n - 2, i => 0)
  }

  /** A formatted volume is an empty list of files with all its clusters free. */
  lemma FormattedEmpty(b: nat, v: Vol, mediaType: Byte)
    requires Sized(b, v) && |v.fat| <= 0xFFFF && v.fat == Blank(|v.fat|, mediaType)
    ensures Faithful(b, System(v, []), Shelf([], |v.fat| - 2))
  {
    FormattedFaithful(b, v);
  }

  class Volume {
    const disk: array<Byte>
    var geo: Geo

    predicate Valid()
      reads this
    {
      Fits(geo, disk.Length)
    }

    /** The geometry is the one that the boot sector gives. */
    ghost predicate Booted()
      reads this, disk
    {
      disk.Length >= BOOT && WellFormed(Parse(disk[..]), disk.Length) && geo == Geometry(Parse(disk[..]), disk.Length)
    }

    ghost function Vol(): (v: Fat16.Vol)
      requires Valid()
      reads this, disk
      ensures |v.fat| == geo.count && Sized(geo.bytes, v) && |v.area| == Area(geo)
    {
      View(disk[..], geo)
    }

    constructor (image: seq<Byte>)
      requires |image| >= BOOT && WellFormed(Parse(image), |image|)
      ensures Valid() && Booted() && disk[..] == image && fresh(disk)
    {
      disk := new Byte[|image|](i requires 0 <= i < |image| => image[i]);
      geo := Geometry(Parse(image), |image|);
      new;
      assert disk[..] == image;
    }

    method GetClusterValue(i: nat) returns (x: nat)
      requires Valid() && i < geo.count
      ensures x == Vol().fat[i] && x < 0x1_0000
    {
      hide Area;
      var at := geo.table + 2 * i;
      x := Word(disk[at], disk[at + 1]);
      assert x == Entry(disk[..], geo, i);
    }

    method SetClusterValue(i: nat, x: nat)
      requires Valid() && i < geo.count && x < 0x1_0000
      modifies disk
      ensures Vol() == old(Vol()).(fat := old(Vol()).fat[i := x])
      ensures Elsewhere(old(disk[..]), disk[..], geo, 0)
    {
      hide Area, View;
      ghost var s := disk[..];
      var at := geo.table + 2 * i;
      PutEntry(s, geo, i, x);
      disk[at], disk[at + 1] := x % 256, x / 256;
      assert disk[..] == Splice(s, at, Bytes(x));
      PutElsewhere(s, geo, at, Bytes(x));
    }

    method FindFreeCluster() returns (c: nat)
      requires Valid()
      ensures c == FindFree(Vol().fat, 2)
    {
      hide Area, View;
      var i := 2;
      while i < geo.count
        invariant 2 <= i <= geo.count && FindFree(Vol().fat, i) == FindFree(Vol().fat, 2)
      {
        var x := GetClusterValue(i);
        if x == 0 { return i; }
        i := i + 1;
      }
      return 0;
    }

    /** One round for each copy of the table, all of them on the first copy. */
    method UpdateCluster(i: nat, x: nat)
      requires Valid() && i < geo.count && x < 0x1_0000
      modifies disk
      ensures Vol() == old(Vol()).(fat := old(Vol()).fat[i := x])
      ensures Elsewhere(old(disk[..]), disk[..], geo, 0)
      ensures CopiesAgree(old(disk[..]), geo) ==> (CopiesAgree(disk[..], geo) <==> geo.fats == 1 || old(Vol()).fat[i] == x)
    {
      hide Area, View, CopiesAgree;
      var k := 0;
      while k < geo.fats
        invariant 0 <= k <= geo.fats && Vol().area == old(Vol()).area
        invariant Vol().fat == if k == 0 then old(Vol()).fat else old(Vol()).fat[i := x]
        invariant Elsewhere(old(disk[..]), disk[..], geo, 0)
      {
        SetClusterValue(i, x);
        k := k + 1;
      }
      if CopiesAgree(old(disk[..]), geo) {
        CopiesExactly(old(disk[..]), disk[..], geo);
        OneChanged(old(Vol()).fat, i, x);
      }
    }

    /** Writes bytes into the clusters. */
    method PutData(c: nat, start: nat, x: seq<Byte>)
      requires Valid() && 2 <= c < geo.count && Base(geo.bytes, c) + start + |x| <= Area(geo)
      modifies disk
      ensures Vol() == old(Vol()).(area := Splice(old(Vol()).area, Base(geo.bytes, c) + start, x))
      ensures Elsewhere(old(disk[..]), disk[..], geo, 0)
    {
      hide Area, View;
      var at := geo.data + (c - 2) * geo.bytes + start;
      assert at == geo.data + Base(geo.bytes, c) + start;
      hide Base;
      ghost var s := disk[..];
      PutBytes(s, geo, Base(geo.bytes, c) + start, x);
      Poke(disk, at, x);
      PutElsewhere(s, geo, at, x);
    }

    /** Writes the boot sector and an empty table where it says, if the boot sector is signed. */
    method Format(boot: seq<Byte>) returns (ok: bool)
      requires |boot| >= 512 && WellFormed(Parse(boot), disk.Length) && Parse(boot).bytesPerSector <= |boot|
      modifies this, disk
      ensures ok <==> boot[0x1FE] == 0x55 && boot[0x1FF] == 0xAA
      ensures !ok ==> disk[..] == old(disk[..]) && geo == old(geo)
      ensures ok ==> Valid() && Booted() && geo == Geometry(Parse(boot), disk.Length)
      ensures ok ==> Vol() == View(old(disk[..]), geo).(fat := Blank(geo.count, boot[MEDIA]))
      ensures ok ==> disk[..geo.sector] == boot[..geo.sector] && Elsewhere(old(disk[..]), disk[..], geo, geo.sector)
      ensures ok ==> (CopiesAgree(disk[..], geo) <==>
                        forall k | 1 <= k < geo.fats :: CopyHolds(old(disk[..]), geo, k, Blank(geo.count, boot[MEDIA])))
    {
      if boot[0x1FE] != 0x55 || boot[0x1FF] != 0xAA { return false; }
      geo := Geometry(Parse(boot), disk.Length);
      hide Area, View, Elsewhere, CopiesAgree, CopyHolds, CopyAddr, WellFormed, Parse, Geometry;
      PutBoot(boot);
      ghost var s := disk[..];
      BlankTable(boot[MEDIA]);
      FormatFrame(old(disk[..]), s, disk[..], geo);
      assert disk[..][..geo.sector] == disk[..geo.sector];
      SameBoot(boot, disk[..], disk.Length);
      CopiesAfter(old(disk[..]), disk[..], geo, geo.sector);
      ok := true;
    }

    /** Writes the entries of an empty table. */
    method BlankTable(mediaType: Byte)
      requires Valid()
      modifies disk
      ensures Vol() == old(Vol()).(fat := Blank(geo.count, mediaType)) && Elsewhere(old(disk[..]), disk[..], geo, 0)
    {
      hide Area, View, Elsewhere, CopiesAgree, CopyAddr;
      ghost var s := disk[..];
      var media: nat := mediaType;
      UpdateCluster(0, 0xFF00 + media);
      ghost var t := disk[..];
      UpdateCluster(1, 0xFFFF);
      ElsewhereOn(s, t, disk[..], geo, 0);
      var i := 2;
      while i < geo.count
        invariant 2 <= i <= geo.count && Vol().area == old(Vol()).area && Elsewhere(s, disk[..], geo, 0)
        invariant Vol().fat[..i] == Blank(geo.count, mediaType)[..i]
      {
        t := disk[..];
        UpdateCluster(i, 0);
        ElsewhereOn(s, t, disk[..], geo, 0);
        i := i + 1;
      }
      assert Vol().fat == Vol().fat[..i];
    }

    method PutBoot(boot: seq<Byte>)
      requires Valid() && geo.sector <= |boot|
      modifies disk
      ensures Vol() == old(Vol())
      ensures disk[..][..geo.sector] == boot[..geo.sector] && disk[..][geo.sector..] == old(disk[..])[geo.sector..]
    {
      hide Area, View;
      ghost var s := disk[..];
      Poke(disk, 0, boot[..geo.sector]);
      FrontParts(s, disk[..], boot, geo.sector, geo.table);
      PutFront(s, disk[..], geo);
    }

    /** Gives the entries it visits from `c` on the value `mark`, cut to 16 bits. */
    method RemoveData(mark: nat, c: nat, ghost path: seq<nat>)
      requires Valid() && c != 0 && Visits(Vol().fat, Vol().fat[1], c, path, mark % 0x1_0000)
      modifies disk
      ensures Vol() == old(Vol()).(fat := MarkAll(old(Vol()).fat, path, mark % 0x1_0000))
      ensures Elsewhere(old(disk[..]), disk[..], geo, 0)
    {
      hide Area, View, Elsewhere, MarkAll;
      ghost var was := disk[..];
      ElsewhereSame(was, geo, 0);
      var eoc := GetClusterValue(1);
      var cur := c;
      var x := mark % 0x1_0000;
      ghost var k, v := 0, Vol();
      MarkNone(v.fat, path, x);
      hide Visits;
      while cur != eoc
        invariant 0 <= k <= |path| && Vol() == v.(fat := MarkAll(v.fat, path[..k], x)) && Elsewhere(was, disk[..], geo, 0)
        invariant cur == First(path[k..], eoc)
        decreases |path| - k
      {
        VisitStep(v.fat, eoc, c, path, k, x);
        var next := GetClusterValue(cur);
        ghost var now := disk[..];
        UpdateCluster(cur, x);
        ElsewhereOn(was, now, disk[..], geo, 0);
        cur, k := next, k + 1;
      }
      VisitEnd(v.fat, eoc, c, path, k, x);
    }

    /** Fills cluster `c` with the first bytes of `data` and links it behind `prev`. */
    method AddCluster(eoc: nat, data: seq<Byte>, prev: nat, c: nat, ghost cs: seq<nat>)
      requires Valid() && InTable(geo.count, cs) && 2 <= c < geo.count && prev == Last(cs) && eoc < 0x1_0000
      modifies disk
      ensures Vol() == AddOne(geo.bytes, old(Vol()), eoc, data, cs, c) && Elsewhere(old(disk[..]), disk[..], geo, 0)
    {
      hide Area, View, Base, Splice, Elsewhere;
      ghost var v, s := Vol(), disk[..];
      ClusterFits(geo.bytes, v, c);
      var count := |data|;
      if count > geo.bytes { count := geo.bytes; }
      PutData(c, 0, data[..count]);
      ghost var t := disk[..];
      UpdateCluster(c, eoc);
      ElsewhereOn(s, t, disk[..], geo, 0);
      t := disk[..];
      if prev != 0 {
        UpdateCluster(prev, c);
        ElsewhereOn(s, t, disk[..], geo, 0);
      }
    }

    /** What the loop of AddData keeps: the chain so far, and what is still to come. */
    ghost predicate Adding(eoc: nat, cs: seq<nat>, x: nat, rest: seq<Byte>, goal: (Fat16.Vol, seq<nat>))
      requires Valid()
      reads this, disk
    {
      && InTable(geo.count, cs) && Growing(Vol().fat, eoc, cs) && Vol().fat[1] == eoc
      && AddLoop(geo.bytes, Vol(), eoc, x, rest, cs) == goal
    }

    /** One round of AddData: takes a free cluster, if there is one, and fills it. */
    method AddRound(eoc: nat, data: seq<Byte>, prev: nat, ghost cs: seq<nat>, ghost x: nat, ghost goal: (Fat16.Vol, seq<nat>))
      returns (c: nat)
      requires Valid() && Adding(eoc, cs, x, data, goal) && data != [] && prev == Last(cs) && eoc < 0x1_0000
      modifies disk
      ensures c == 0 ==> Vol() == old(Vol()) && goal == (Fat16Files.RemoveData(geo.bytes, Vol(), cs, x), [])
      ensures c != 0 ==> Adding(eoc, cs + [c], x, data[Min(|data|, geo.bytes)..], goal) && (cs == [] <==> prev == 0)
      ensures Elsewhere(old(disk[..]), disk[..], geo, 0)
    {
      hide Area, View, AddLoop, Growing, AddOne, FindFree, Fits, Vol, IsChain, EndMarker, Elsewhere;
      ElsewhereSame(disk[..], geo, 0);
      c := FindFreeCluster();
      if c == 0 {
        AddStops(geo.bytes, Vol(), eoc, x, data, cs);
      } else {
        AddStep(geo.bytes, Vol(), eoc, x, data, cs, c);
        AddCluster(eoc, data, prev, c, cs);
      }
    }

    /** Fills free clusters with `data` and links them; the result is the first one, or 0. */
    method AddData(mark: nat, data: seq<Byte>) returns (root: nat)
      requires Valid() && EndMarker(Vol().fat, Vol().fat[1])
      modifies disk
      ensures var (w, ds) := Fat16.AddData(geo.bytes, old(Vol()), mark % 0x1_0000, data);
        Vol() == w && root == First(ds, 0)
      ensures Elsewhere(old(disk[..]), disk[..], geo, 0)
    {
      ghost var s := disk[..];
      ElsewhereSame(s, geo, 0);
      ghost var x := mark % 0x1_0000;
      ghost var goal := Fat16.AddData(geo.bytes, Vol(), x, data);
      hide Area, View, AddLoop, Growing, Fits, Vol, IsChain, Fat16.AddData, Adding, Elsewhere;
      var eoc := AddStart(data, x, goal);
      if |data| == 0 { AddEnd(eoc, [], x, goal); return 0; }
      var prev, pos := 0, 0;
      root := 0;
      ghost var cs := [];
      assert data[0..] == data;
      while pos < |data|
        invariant 0 <= pos <= |data| && Adding(eoc, cs, x, data[pos..], goal)
        invariant root == First(cs, 0) && prev == Last(cs) && Elsewhere(s, disk[..], geo, 0)
      {
        ghost var t := disk[..];
        var c := AddRound(eoc, data[pos..], prev, cs, x, goal);
        ElsewhereOn(s, t, disk[..], geo, 0);
        if c == 0 {
          AddingChain(eoc, cs, x, data[pos..], goal);
          t := disk[..];
          if root != 0 {
            ChainVisited(geo.bytes, Vol(), cs, x);
            RemoveData(mark, root, cs);
            ElsewhereOn(s, t, disk[..], geo, 0);
          }
          return 0;
        }
        var count := if |data| - pos > geo.bytes then geo.bytes else |data| - pos;
        assert data[pos..][count..] == data[pos + count..];
        if prev == 0 { root := c; }
        pos, prev, cs := pos + count, c, cs + [c];
      }
      assert data[pos..] == [];
      AddEnd(eoc, cs, x, goal);
    }

    method AddStart(data: seq<Byte>, ghost x: nat, ghost goal: (Fat16.Vol, seq<nat>)) returns (eoc: nat)
      requires Valid() && EndMarker(Vol().fat, Vol().fat[1]) && goal == Fat16.AddData(geo.bytes, Vol(), x, data)
      ensures eoc < 0x1_0000 && Adding(eoc, [], x, data, goal)
    {
      eoc := GetClusterValue(1);
      StartsEmpty(Vol());
    }

    lemma AddEnd(eoc: nat, cs: seq<nat>, x: nat, goal: (Fat16.Vol, seq<nat>))
      requires Valid() && Adding(eoc, cs, x, [], goal)
      ensures goal == (Vol(), cs)
    {
    }

    lemma AddingChain(eoc: nat, cs: seq<nat>, x: nat, data: seq<Byte>, goal: (Fat16.Vol, seq<nat>))
      requires Valid() && Adding(eoc, cs, x, data, goal)
      ensures EndMarker(Vol().fat, Vol().fat[1]) && IsChain(Vol().fat, Vol().fat[1], cs) && Vol().fat[1] == eoc
      ensures InTable(|Vol().fat|, cs) && (cs == [] ==> Fat16Files.RemoveData(geo.bytes, Vol(), cs, x) == Vol())
      ensures cs != [] ==> cs[0] != 0
    {
    }

    /** Copies bytes out of the clusters. */
    method GetData(c: nat, start: nat, dst: array<Byte>, to: nat, count: nat)
      requires Valid() && 2 <= c < geo.count && Base(geo.bytes, c) + start + count <= Area(geo)
      requires dst != disk && to + count <= dst.Length
      modifies dst
      ensures dst[..] == old(dst[..to]) + Vol().area[Base(geo.bytes, c) + start..Base(geo.bytes, c) + start + count] + old(dst[to + count..])
    {
      hide Area, View;
      var at := geo.data + (c - 2) * geo.bytes + start;
      ghost var p := Base(geo.bytes, c) + start;
      assert at == geo.data + p;
      hide Base;
      SubArea(disk[..], geo, p, count);
      Poke(dst, to, disk[at..at + count]);
    }

    /** Copies bytes out of the clusters behind those already `got`. */
    method GetMore(c: nat, start: nat, dst: array<Byte>, p: nat, count: nat, ghost got: seq<Byte>, ghost was: seq<Byte>)
      returns (ghost more: seq<Byte>)
      requires Valid() && 2 <= c < geo.count && Base(geo.bytes, c) + start + count <= Area(geo)
      requires dst != disk && p + count <= dst.Length == |was| && p == |got| && Laid(dst[..], got, was)
      modifies dst
      ensures more == Vol().area[Base(geo.bytes, c) + start..Base(geo.bytes, c) + start + count]
      ensures Laid(dst[..], got + more, was)
    {
      hide Area, View, Fits, Vol, Base;
      ghost var at := Base(geo.bytes, c) + start;
      more := Vol().area[at..at + count];
      Append(got, more, was);
      assert dst[..][..p] == dst[..p] && dst[..][p + count..] == dst[p + count..];
      GetData(c, start, dst, p, count);
    }

    /** One round of ReadData at cluster `c`, the head of what is left of the chain. */
    method ReadRound(c: nat, ghost cs: seq<nat>, dst: array<Byte>, len: nat, skip: nat, size: nat, p: nat,
                     ghost got: seq<Byte>, ghost was: seq<Byte>, ghost goal: seq<Byte>)
      returns (q: nat, ghost now: seq<Byte>)
      requires Valid() && InTable(geo.count, cs) && cs != [] && c == cs[0] && dst != disk && p < len <= dst.Length == |was|
      requires p == |got| && Laid(dst[..], got, was) && Toward(geo.bytes, Vol(), cs, len, skip, size, got, goal)
      modifies dst
      ensures q == |now| == (if size + geo.bytes > skip then p + Min(len - p, geo.bytes) else p) && Laid(dst[..], now, was)
      ensures Toward(geo.bytes, Vol(), cs[1..], len, skip, size + geo.bytes, now, goal)
    {
      assert 2 <= c < geo.count;
      hide Area, View, Fits, Vol, Base, Sized, InTable, Laid, Toward;
      TowardStep(geo.bytes, Vol(), cs, len, skip, size, got, goal);
      q, now := p, got;
      if size + geo.bytes > skip {
        var start := if size > skip then 0 else skip - size;
        var count := if len - p > geo.bytes then geo.bytes else len - p;
        ghost var more := GetMore(c, start, dst, p, count, got, was);
        q, now := p + count, got + more;
      }
    }

    /** What the loop of ReadData keeps, after `k` clusters. */
    ghost predicate InRead(v: Fat16.Vol, cs: seq<nat>, now: seq<Byte>, len: nat, skip: nat, k: nat, cur: nat, size: nat,
                           got: seq<Byte>, was: seq<Byte>, goal: seq<Byte>)
      requires Valid()
      reads this, disk
    {
      && Vol() == v && |v.fat| == geo.count && k <= |cs| && InTable(geo.count, cs[k..]) && |got| <= len && Laid(now, got, was)
      && Reached(geo.bytes, cs, k, cur, v.fat[1], skip, len, size, |got|)
      && Toward(geo.bytes, v, cs[k..], len, skip, size, got, goal)
    }

    /** One round of ReadData, and the step to the next cluster. */
    method ReadNext(cur: nat, ghost k: nat, c: nat, ghost cs: seq<nat>, dst: array<Byte>, len: nat, skip: nat, size: nat, p: nat,
                    ghost v: Fat16.Vol, ghost got: seq<Byte>, ghost was: seq<Byte>, ghost goal: seq<Byte>)
      returns (next: nat, q: nat, ghost now: seq<Byte>)
      requires Valid() && InRead(v, cs, dst[..], len, skip, k, cur, size, got, was, goal) && p == |got| < len <= dst.Length == |was|
      requires EndMarker(v.fat, v.fat[1]) && Walk(geo.bytes, v.fat, v.fat[1], c, cs, skip + len) && cur != v.fat[1] && dst != disk
      modifies dst
      ensures k < |cs| && q == |now| && InRead(v, cs, dst[..], len, skip, k + 1, next, size + geo.bytes, now, was, goal)
    {
      assert geo.count >= 2;
      hide Area, View, Fits, Vol, Walk, Reached, InTable, EndMarker, Sized, Laid, Toward;
      WalkOn(geo.bytes, v.fat, v.fat[1], c, cs, k, cur, skip, len, size, p);
      q, now := ReadRound(cur, cs[k..], dst, len, skip, size, p, got, was, goal);
      WalkNext(geo.bytes, v.fat, v.fat[1], c, cs, k, cur, skip, len, size, p, q);
      next := GetClusterValue(cur);
    }

    /** Walks the clusters `cs` from `c` on, copying at most `len` bytes from offset `skip` on. */
    method ReadData(c: nat, ghost cs: seq<nat>, dst: array<Byte>, len: nat, skip: nat) returns (p: nat)
      requires Valid() && EndMarker(Vol().fat, Vol().fat[1]) && InTable(geo.count, cs)
      requires len > 0 ==> Walk(geo.bytes, Vol().fat, Vol().fat[1], c, cs, skip + len)
      requires dst != disk && len <= dst.Length
      modifies dst
      ensures p <= len && p == |ReadChain(geo.bytes, Vol(), cs, len, skip, 0)|
      ensures Laid(dst[..], ReadChain(geo.bytes, Vol(), cs, len, skip, 0), old(dst[..]))
    {
      assert geo.count >= 2;
      hide Area, View, Fits, Vol, Walk, ReadChain, Base, Sized, InTable, EndMarker, Laid, Toward, Reached;
      var eoc := GetClusterValue(1);
      ghost var k, v, was := 0, Vol(), dst[..];
      ghost var got: seq<Byte>, goal := [], ReadChain(geo.bytes, v, cs, len, skip, 0);
      assert cs[0..] == cs;
      TowardStart(geo.bytes, v, cs, len, skip, was);
      p := 0;
      if len == 0 { TowardEnd(geo.bytes, v, cs, len, skip, 0, got, goal); return; }
      var cur, size: nat := c, 0;
      WalkStarts(geo.bytes, v.fat, eoc, c, cs, skip, len);
      assert InRead(v, cs, dst[..], len, skip, k, cur, size, got, was, goal);
      hide InRead;
      while cur != eoc && len > p
        invariant k <= |cs| && p == |got| && InRead(v, cs, dst[..], len, skip, k, cur, size, got, was, goal)
        decreases |cs| - k
      {
        cur, p, got := ReadNext(cur, k, c, cs, dst, len, skip, size, p, v, got, was, goal);
        size, k := size + geo.bytes, k + 1;
      }
      ReadEnds(v, cs, dst[..], len, skip, k, cur, size, got, was, goal);
    }

    lemma ReadEnds(v: Fat16.Vol, cs: seq<nat>, now: seq<Byte>, len: nat, skip: nat, k: nat, cur: nat, size: nat,
                   got: seq<Byte>, was: seq<Byte>, goal: seq<Byte>)
      requires Valid() && InRead(v, cs, now, len, skip, k, cur, size, got, was, goal) && (cur == v.fat[1] || |got| >= len)
      ensures got == goal && |got| <= len && Laid(now, goal, was) && Vol() == v
    {
      hide Area, View, Fits, Vol, Reached, InTable, Laid, Toward;
      WalkEnds(geo.bytes, cs, k, cur, v.fat[1], skip, len, size, |got|);
      TowardEnd(geo.bytes, v, cs[k..], len, skip, size, got, goal);
    }

    /** One round of WriteData at cluster `c`, the head of what is left of the walk. */
    method WriteRound(c: nat, ghost cs: seq<nat>, data: seq<Byte>, skip: nat, size: nat, p: nat,
                      ghost v: Fat16.Vol, ghost goal: Fat16.Vol, ghost total: nat)
      returns (q: nat)
      requires Valid() && InTable(geo.count, cs) && cs != [] && c == cs[0] && p < |data|
      requires Writing(geo.bytes, v, Vol(), cs, data[p..], skip, size, goal, total - p)
      modifies disk
      ensures q == (if size + geo.bytes > skip then p + Min(|data| - p, geo.bytes) else p) && q <= |data|
      ensures Writing(geo.bytes, v, Vol(), cs[1..], data[q..], skip, size + geo.bytes, goal, total - q)
      ensures Elsewhere(old(disk[..]), disk[..], geo, 0)
    {
      assert 2 <= c < geo.count;
      hide Area, View, Fits, Vol, Base, Sized, InTable, Elsewhere, Writing;
      ElsewhereSame(disk[..], geo, 0);
      WritingStep(geo.bytes, v, Vol(), cs, data[p..], skip, size, goal, total - p);
      q := p;
      if size + geo.bytes > skip {
        var start := if size > skip then 0 else skip - size;
        var count := if |data| - p > geo.bytes then geo.bytes else |data| - p;
        assert data[p..][..count] == data[p..p + count] && data[p..][count..] == data[p + count..];
        PutData(c, start, data[p..p + count]);
        q := p + count;
      }
    }

    /** What the loop of WriteData keeps, after `k` clusters. */
    ghost predicate InWrite(v: Fat16.Vol, was: seq<Byte>, cs: seq<nat>, data: seq<Byte>, skip: nat, k: nat, cur: nat, size: nat, p: nat,
                            goal: Fat16.Vol, total: nat)
      requires Valid()
      reads this, disk
    {
      && |v.fat| == geo.count && k <= |cs| && p <= |data| && InTable(geo.count, cs[k..]) && Elsewhere(was, disk[..], geo, 0)
      && Reached(geo.bytes, cs, k, cur, v.fat[1], skip, |data|, size, p)
      && Writing(geo.bytes, v, Vol(), cs[k..], data[p..], skip, size, goal, total - p)
    }

    /** One round of WriteData, and the step to the next cluster. */
    method WriteNext(cur: nat, ghost k: nat, c: nat, ghost cs: seq<nat>, data: seq<Byte>, skip: nat, size: nat, p: nat,
                     ghost v: Fat16.Vol, ghost was: seq<Byte>, ghost goal: Fat16.Vol, ghost total: nat)
      returns (next: nat, q: nat)
      requires Valid() && InWrite(v, was, cs, data, skip, k, cur, size, p, goal, total)
      requires EndMarker(v.fat, v.fat[1]) && Walk(geo.bytes, v.fat, v.fat[1], c, cs, skip + |data|) && cur != v.fat[1] && p < |data|
      modifies disk
      ensures k < |cs| && InWrite(v, was, cs, data, skip, k + 1, next, size + geo.bytes, q, goal, total)
    {
      assert geo.count >= 2;
      hide Area, View, Fits, Vol, Walk, Elsewhere, Reached, InTable, EndMarker, Sized, Writing;
      ghost var eoc, now := v.fat[1], disk[..];
      WalkOn(geo.bytes, v.fat, eoc, c, cs, k, cur, skip, |data|, size, p);
      q := WriteRound(cur, cs[k..], data, skip, size, p, v, goal, total);
      ElsewhereOn(was, now, disk[..], geo, 0);
      WritingTable(geo.bytes, v, Vol(), cs[k + 1..], data[q..], skip, size + geo.bytes, goal, total - q);
      WalkNext(geo.bytes, v.fat, eoc, c, cs, k, cur, skip, |data|, size, p, q);
      next := GetClusterValue(cur);
    }

    /** Walks the clusters `cs` from `c` on, overwriting from offset `skip` on; the result is the number of bytes written. */
    method WriteData(c: nat, ghost cs: seq<nat>, data: seq<Byte>, skip: nat) returns (p: nat)
      requires Valid() && EndMarker(Vol().fat, Vol().fat[1]) && InTable(geo.count, cs)
      requires data != [] ==> Walk(geo.bytes, Vol().fat, Vol().fat[1], c, cs, skip + |data|)
      modifies disk
      ensures Vol() == WriteChain(geo.bytes, old(Vol()), cs, data, skip, 0)
      ensures p == |ReadChain(geo.bytes, old(Vol()), cs, |data|, skip, 0)|
      ensures Elsewhere(old(disk[..]), disk[..], geo, 0)
    {
      assert geo.count >= 2;
      hide Area, View, Fits, Vol, Walk, ReadChain, WriteChain, Base, Elsewhere, Reached, InTable, EndMarker, Sized, Writing;
      ghost var was, k, v := disk[..], 0, Vol();
      ElsewhereSame(was, geo, 0);
      var eoc := GetClusterValue(1);
      assert cs[0..] == cs && data[0..] == data;
      ghost var goal, total := WriteChain(geo.bytes, v, cs, data, skip, 0), |ReadChain(geo.bytes, v, cs, |data|, skip, 0)|;
      WritingStart(geo.bytes, v, cs, data, skip);
      p := 0;
      if |data| == 0 { WritingEnd(geo.bytes, v, v, cs, data, skip, 0, goal, total); return; }
      var cur, size: nat := c, 0;
      WalkStarts(geo.bytes, v.fat, eoc, c, cs, skip, |data|);
      assert InWrite(v, was, cs, data, skip, k, cur, size, p, goal, total);
      hide InWrite;
      while cur != eoc && |data| > p
        invariant k <= |cs| && InWrite(v, was, cs, data, skip, k, cur, size, p, goal, total)
        decreases |cs| - k
      {
        cur, p := WriteNext(cur, k, c, cs, data, skip, size, p, v, was, goal, total);
        size, k := size + geo.bytes, k + 1;
      }
      WriteEnds(v, was, cs, data, skip, k, cur, size, p, goal, total);
    }

    lemma WriteEnds(v: Fat16.Vol, was: seq<Byte>, cs: seq<nat>, data: seq<Byte>, skip: nat, k: nat, cur: nat, size: nat, p: nat,
                    goal: Fat16.Vol, total: nat)
      requires Valid() && InWrite(v, was, cs, data, skip, k, cur, size, p, goal, total) && (cur == v.fat[1] || p >= |data|)
      ensures Vol() == goal && p == total && Elsewhere(was, disk[..], geo, 0)
    {
      hide Area, View, Fits, Vol, Elsewhere, Reached, InTable, Writing;
      WalkEnds(geo.bytes, cs, k, cur, v.fat[1], skip, |data|, size, p);
      WritingEnd(geo.bytes, v, Vol(), cs[k..], data[p..], skip, size, goal, total - p);
    }
  }

  /** What is left of a write leads from `u` to `goal` and moves `left` bytes. */
  ghost predicate Writing(b: nat, v: Vol, u: Vol, cs: seq<nat>, data: seq<Byte>, skip: nat, off: nat, goal: Vol, left: int)
  {
    && Sized(b, v) && Sized(b, u) && u.fat == v.fat && InTable(|v.fat|, cs)
    && WriteChain(b, u, cs, data, skip, off) == goal && left == |ReadChain(b, v, cs, |data|, skip, off)|
  }

  lemma WritingStart(b: nat, v: Vol, cs: seq<nat>, data: seq<Byte>, skip: nat)
    requires Sized(b, v) && InTable(|v.fat|, cs)
    ensures Writing(b, v, v, cs, data, skip, 0, WriteChain(b, v, cs, data, skip, 0), |ReadChain(b, v, cs, |data|, skip, 0)|)
  {
  }

  lemma WritingTable(b: nat, v: Vol, u: Vol, cs: seq<nat>, data: seq<Byte>, skip: nat, off: nat, goal: Vol, left: int)
    requires Writing(b, v, u, cs, data, skip, off, goal, left)
    ensures u.fat == v.fat
  {
  }

  lemma WritingEnd(b: nat, v: Vol, u: Vol, cs: seq<nat>, data: seq<Byte>, skip: nat, off: nat, goal: Vol, left: int)
    requires Writing(b, v, u, cs, data, skip, off, goal, left) && (cs == [] || data == [])
    ensures u == goal && left == 0
  {
  }

  /** One round of a write. */
  lemma WritingStep(b: nat, v: Vol, u: Vol, cs: seq<nat>, data: seq<Byte>, skip: nat, off: nat, goal: Vol, left: int)
    requires Writing(b, v, u, cs, data, skip, off, goal, left) && cs != [] && data != []
    ensures off + b > skip ==>
      var start, count := if off > skip then 0 else skip - off, Min(|data|, b);
      && 2 <= cs[0] && Base(b, cs[0]) + start + count <= |u.area|
      && Writing(b, v, u.(area := Splice(u.area, Base(b, cs[0]) + start, data[..count])), cs[1..], data[count..], skip, off + b, goal, left - count)
    ensures off + b <= skip ==> Writing(b, v, u, cs[1..], data, skip, off + b, goal, left)
  {
    hide Base;
    WriteGoes(b, v, u, cs, data, skip, off);
    assert forall i | 0 <= i < |cs[1..]| :: cs[1..][i] == cs[i + 1];
  }

  lemma WriteGoes(b: nat, v: Vol, u: Vol, cs: seq<nat>, data: seq<Byte>, skip: nat, off: nat)
    requires Sized(b, v) && Sized(b, u) && u.fat == v.fat && InTable(|v.fat|, cs) && cs != [] && data != []
    ensures off + b > skip ==>
      var start, count := if off > skip then 0 else skip - off, Min(|data|, b);
      && Base(b, cs[0]) + start + count <= |v.area|
      && WriteChain(b, u, cs, data, skip, off) ==
           WriteChain(b, u.(area := Splice(u.area, Base(b, cs[0]) + start, data[..count])), cs[1..], data[count..], skip, off + b)
      && |ReadChain(b, v, cs, |data|, skip, off)| == count + |ReadChain(b, v, cs[1..], |data| - count, skip, off + b)|
    ensures off + b <= skip ==>
      && WriteChain(b, u, cs, data, skip, off) == WriteChain(b, u, cs[1..], data, skip, off + b)
      && ReadChain(b, v, cs, |data|, skip, off) == ReadChain(b, v, cs[1..], |data|, skip, off + b)
  {
    ClusterFits(b, v, cs[0]);
  }

  /** `now` is `was` with `got` laid over its front. */
  ghost predicate Laid(now: seq<Byte>, got: seq<Byte>, was: seq<Byte>) {
    |got| <= |was| && now == got + was[|got|..]
  }

  lemma Append(x: seq<Byte>, y: seq<Byte>, was: seq<Byte>)
    requires |x| + |y| <= |was|
    ensures var now := x + was[|x|..]; now[..|x|] + y + now[|x| + |y|..] == (x + y) + was[|x| + |y|..]
  {
  }

  /** `goal` is what has been read and what the rest of the chain gives. */
  ghost predicate Toward(b: nat, v: Vol, cs: seq<nat>, len: nat, skip: nat, off: nat, got: seq<Byte>, goal: seq<Byte>)
    requires Sized(b, v) && InTable(|v.fat|, cs)
  {
    |got| <= len && goal == got + ReadChain(b, v, cs, len - |got|, skip, off)
  }

  lemma TowardStart(b: nat, v: Vol, cs: seq<nat>, len: nat, skip: nat, was: seq<Byte>)
    requires Sized(b, v) && InTable(|v.fat|, cs)
    ensures Toward(b, v, cs, len, skip, 0, [], ReadChain(b, v, cs, len, skip, 0)) && Laid(was, [], was)
  {
  }

  lemma TowardEnd(b: nat, v: Vol, cs: seq<nat>, len: nat, skip: nat, off: nat, got: seq<Byte>, goal: seq<Byte>)
    requires Sized(b, v) && InTable(|v.fat|, cs) && Toward(b, v, cs, len, skip, off, got, goal) && (cs == [] || |got| >= len)
    ensures goal == got
  {
  }

  /** One round of a read. */
  lemma TowardStep(b: nat, v: Vol, cs: seq<nat>, len: nat, skip: nat, off: nat, got: seq<Byte>, goal: seq<Byte>)
    requires Sized(b, v) && InTable(|v.fat|, cs) && Toward(b, v, cs, len, skip, off, got, goal) && cs != [] && |got| < len
    ensures InTable(|v.fat|, cs[1..])
    ensures off + b > skip ==>
      var start, count := if off > skip then 0 else skip - off, Min(len - |got|, b);
      && Base(b, cs[0]) + start + count <= |v.area|
      && Toward(b, v, cs[1..], len, skip, off + b, got + v.area[Base(b, cs[0]) + start..Base(b, cs[0]) + start + count], goal)
    ensures off + b <= skip ==> Toward(b, v, cs[1..], len, skip, off + b, got, goal)
  {
    hide Base;
    ClusterFits(b, v, cs[0]);
    if off + b > skip {
      var start, count := if off > skip then 0 else skip - off, Min(len - |got|, b);
      var at := Base(b, cs[0]) + start;
      Assoc(got, v.area[at..at + count], ReadChain(b, v, cs[1..], len - |got| - count, skip, off + b));
    }
  }

  lemma Assoc(x: seq<Byte>, y: seq<Byte>, z: seq<Byte>)
    ensures x + (y + z) == (x + y) + z
  {
  }

  lemma SubArea(s: seq<Byte>, g: Geo, p: nat, count: nat)
    requires Fits(g, |s|) && p + count <= Area(g)
    ensures View(s, g).area[p..p + count] == s[g.data + p..g.data + p + count]
  {
    var area := View(s, g).area;
    hide View, Area;
    forall j | p <= j < p + count ensures area[j] == s[g.data + j] {}
    assert area[p..p + count] == s[g.data + p..g.data + p + count];
  }

  /**
   The clusters `cs` are what the table leads to from `c` on: up to the end marker, or up to as many of them as `need`
   bytes take.  They may repeat.
   */
  ghost predicate Walk(b: nat, fat: seq<nat>, eoc: nat, c: nat, cs: seq<nat>, need: nat) {
    && InTable(|fat|, cs) && c == First(cs, eoc)
    && (forall i | 0 <= i < |cs| :: LeadsOn(b, fat, eoc, cs, i, need))
  }

  ghost predicate LeadsOn(b: nat, fat: seq<nat>, eoc: nat, cs: seq<nat>, i: nat, need: nat)
    requires i < |cs|
  {
    cs[i] < |fat| && (if i + 1 < |cs| then fat[cs[i]] == cs[i + 1] else fat[cs[i]] == eoc || |cs| * b >= need)
  }

  /** A whole chain is such a walk, whatever is needed. */
  lemma ChainIsWalk(b: nat, fat: seq<nat>, eoc: nat, cs: seq<nat>, need: nat)
    requires IsChain(fat, eoc, cs)
    ensures Walk(b, fat, eoc, First(cs, eoc), cs, need)
  {
    forall i | 0 <= i < |cs| ensures LeadsOn(b, fat, eoc, cs, i, need) {
      assert Follows(fat, eoc, cs, i);
    }
  }

  /** After `k` clusters the walk is at `cur`, and all bytes that could be moved so far have been. */
  ghost predicate Reached(b: nat, cs: seq<nat>, k: nat, cur: nat, eoc: nat, skip: nat, len: nat, size: nat, p: nat) {
    && k <= |cs| && size == k * b && (p >= len || p + skip >= size)
    && (if k < |cs| then cur == cs[k] && cur != eoc else cur == eoc || p >= len)
  }

  lemma WalkStarts(b: nat, fat: seq<nat>, eoc: nat, c: nat, cs: seq<nat>, skip: nat, len: nat)
    requires EndMarker(fat, eoc) && Walk(b, fat, eoc, c, cs, skip + len)
    ensures Reached(b, cs, 0, c, eoc, skip, len, 0, 0)
  {
  }

  lemma WalkOn(b: nat, fat: seq<nat>, eoc: nat, c: nat, cs: seq<nat>, k: nat, cur: nat, skip: nat, len: nat, size: nat, p: nat)
    requires Walk(b, fat, eoc, c, cs, skip + len) && Reached(b, cs, k, cur, eoc, skip, len, size, p) && cur != eoc && p < len
    ensures k < |cs| && cur == cs[k] && 2 <= cur < |fat| && cs[k..][0] == cs[k] && cs[k..][1..] == cs[k + 1..]
    ensures InTable(|fat|, cs[k + 1..])
  {
  }

  lemma WalkNext(b: nat, fat: seq<nat>, eoc: nat, c: nat, cs: seq<nat>, k: nat, cur: nat, skip: nat, len: nat, size: nat, p: nat, q: nat)
    requires EndMarker(fat, eoc) && Walk(b, fat, eoc, c, cs, skip + len) && k < |cs| && cur == cs[k] && cur < |fat|
    requires Reached(b, cs, k, cur, eoc, skip, len, size, p) && p < len
    requires q == if size + b > skip then p + Min(len - p, b) else p
    ensures Reached(b, cs, k + 1, fat[cur], eoc, skip, len, size + b, q)
  {
    assert LeadsOn(b, fat, eoc, cs, k, skip + len);
    MulDistr(b, k, 1);
  }

  lemma WalkEnds(b: nat, cs: seq<nat>, k: nat, cur: nat, eoc: nat, skip: nat, len: nat, size: nat, p: nat)
    requires Reached(b, cs, k, cur, eoc, skip, len, size, p) && (cur == eoc || p >= len)
    ensures k <= |cs| && (cs[k..] == [] || p >= len)
  {
  }

  function Last(cs: seq<nat>): nat {
    if cs == [] then 0 else cs[|cs| - 1]
  }

  lemma AddStops(b: nat, v: Vol, eoc: nat, mark: nat, data: seq<Byte>, cs: seq<nat>)
    requires Sized(b, v) && InTable(|v.fat|, cs) && Growing(v.fat, eoc, cs) && FindFree(v.fat, 2) == 0 && data != []
    ensures AddLoop(b, v, eoc, mark, data, cs) == (Fat16Files.RemoveData(b, v, cs, mark), [])
  {
  }

  /** One cluster more. */
  lemma AddStep(b: nat, v: Vol, eoc: nat, mark: nat, data: seq<Byte>, cs: seq<nat>, c: nat)
    requires Sized(b, v) && InTable(|v.fat|, cs) && Growing(v.fat, eoc, cs) && v.fat[1] == eoc
    requires c == FindFree(v.fat, 2) && c != 0 && data != []
    ensures 2 <= c < |v.fat| && InTable(|v.fat|, cs + [c]) && (cs == [] <==> Last(cs) == 0)
    ensures var u := AddOne(b, v, eoc, data, cs, c);
      && Growing(u.fat, eoc, cs + [c]) && u.fat[1] == eoc
      && AddLoop(b, u, eoc, mark, data[Min(|data|, b)..], cs + [c]) == AddLoop(b, v, eoc, mark, data, cs)
  {
    LinkGrows(v.fat, eoc, cs, c);
    LinkAt(v.fat, eoc, cs, c);
    hide Growing, Base, Splice, IsChain;
  }

  lemma OneChanged(fat: seq<nat>, i: nat, x: nat)
    requires i < |fat|
    ensures fat[i := x] == fat <==> fat[i] == x
  {
  }

  lemma FrontParts(s: seq<Byte>, t: seq<Byte>, boot: seq<Byte>, i: nat, j: nat)
    requires i <= j <= |s| && i <= |boot| && t == Splice(s, 0, boot[..i])
    ensures |t| == |s| && t[..i] == boot[..i] && t[i..] == s[i..] && t[j..] == s[j..]
  {
  }

  lemma ElsewhereOn(s: seq<Byte>, t: seq<Byte>, u: seq<Byte>, g: Geo, lo: nat)
    requires Elsewhere(s, t, g, lo) && Elsewhere(t, u, g, lo)
    ensures Elsewhere(s, u, g, lo)
  {
    forall p | lo <= p < |s| && Aside(g, p) ensures u[p] == s[p] {
      assert t[p] == s[p];
    }
  }

  /** The geometry is decided by the first sector, which nothing but formatting writes. */
  lemma SameBoot(s: seq<Byte>, t: seq<Byte>, size: nat)
    requires |s| >= 512 && WellFormed(Parse(s), size) && |t| == size
    requires var n := Geometry(Parse(s), size).sector; n <= |s| && n <= |t| && t[..n] == s[..n]
    ensures |t| >= BOOT && Parse(t) == Parse(s)
  {
    var n := Parse(s).bytesPerSector;
    assert Geometry(Parse(s), size).sector == n >= 512;
    forall i | 0 <= i < BOOT ensures t[i] == s[i] {
      assert t[i] == t[..n][i] && s[i] == s[..n][i];
    }
  }

  /** Every operation on files leaves the geometry what the boot sector says. */
  lemma StaysBooted(s: seq<Byte>, t: seq<Byte>, g: Geo)
    requires |s| >= BOOT && WellFormed(Parse(s), |s|) && g == Geometry(Parse(s), |s|) && Elsewhere(s, t, g, 0)
    ensures |t| == |s| && Parse(t) == Parse(s)
  {
    Layout(Parse(s), |s|);
    forall i | 0 <= i < BOOT ensures t[i] == s[i] {
      assert Aside(g, i);
    }
  }

  /** Only the boot sector differs between `s` and `t`. */
  lemma FormatFrame(s: seq<Byte>, t: seq<Byte>, u: seq<Byte>, g: Geo)
    requires Fits(g, |s|) && |t| == |s| && t[g.sector..] == s[g.sector..] && Elsewhere(t, u, g, 0)
    ensures Elsewhere(s, u, g, g.sector) && u[..g.sector] == t[..g.sector]
  {
    hide Area;
    forall p | g.sector <= p < |s| && Aside(g, p) ensures u[p] == s[p] {
      assert t[p] == t[g.sector..][p - g.sector] && s[p] == s[g.sector..][p - g.sector];
    }
    forall p | 0 <= p < g.sector ensures u[p] == t[p] {
      assert Aside(g, p);
    }
  }

  function First(cs: seq<nat>, eoc: nat): nat {
    if cs == [] then eoc else cs[0]
  }

  /** The entries of `cs` given the value `x`. */
  function MarkAll(fat: seq<nat>, cs: seq<nat>, x: nat): (r: seq<nat>)
    ensures |r| == |fat| && forall j | 0 <= j < |fat| :: r[j] == if j in cs then x else fat[j]
  {
    seq(|fat|, j requires 0 <= j < |fat| => if j in cs then x else fat[j])
  }

  /** From `c` on, the entries of `path` lead to the end marker, each read after those in front of it have been given the value `x`. */
  ghost predicate Visits(fat: seq<nat>, eoc: nat, c: nat, path: seq<nat>, x: nat) {
    c == First(path, eoc) && forall i | 0 <= i < |path| :: VisitsAt(fat, eoc, path, i, x)
  }

  ghost predicate VisitsAt(fat: seq<nat>, eoc: nat, path: seq<nat>, i: nat, x: nat)
    requires i < |path|
  {
    && path[i] < |fat| && path[i] != eoc
    && MarkAll(fat, path[..i], x)[path[i]] == if i + 1 < |path| then path[i + 1] else eoc
  }

  lemma MarkNone(fat: seq<nat>, cs: seq<nat>, x: nat)
    ensures cs[..0] == [] && MarkAll(fat, cs[..0], x) == fat && cs[0..] == cs
  {
  }

  lemma VisitStep(fat: seq<nat>, eoc: nat, c: nat, path: seq<nat>, k: nat, x: nat)
    requires Visits(fat, eoc, c, path, x) && k <= |path| && First(path[k..], eoc) != eoc
    ensures k < |path| && path[k] == First(path[k..], eoc) < |fat|
    ensures MarkAll(fat, path[..k + 1], x) == MarkAll(fat, path[..k], x)[path[k] := x]
    ensures MarkAll(fat, path[..k], x)[path[k]] == First(path[k + 1..], eoc)
  {
    hide MarkAll;
    assert VisitsAt(fat, eoc, path, k, x);
    assert path[..k + 1] == path[..k] + [path[k]];
  }

  lemma VisitEnd(fat: seq<nat>, eoc: nat, c: nat, path: seq<nat>, k: nat, x: nat)
    requires Visits(fat, eoc, c, path, x) && k <= |path| && First(path[k..], eoc) == eoc
    ensures path[..k] == path
  {
    hide MarkAll;
    forall i | 0 <= i < |path| ensures path[i] != eoc { assert VisitsAt(fat, eoc, path, i, x); }
  }

  /** Whatever the mark, a chain is visited from end to end, and nothing else is marked. */
  lemma ChainVisited(b: nat, v: Vol, cs: seq<nat>, x: nat)
    requires Sized(b, v) && EndMarker(v.fat, v.fat[1]) && IsChain(v.fat, v.fat[1], cs)
    ensures Visits(v.fat, v.fat[1], First(cs, v.fat[1]), cs, x)
    ensures v.(fat := MarkAll(v.fat, cs, x)) == Fat16Files.RemoveData(b, v, cs, x)
  {
    hide MarkAll, SetAll;
    forall i | 0 <= i < |cs| ensures VisitsAt(v.fat, v.fat[1], cs, i, x) {
      assert Follows(v.fat, v.fat[1], cs, i);
      assert cs[i] !in cs[..i];
    }
    assert MarkAll(v.fat, cs, x) == SetAll(v.fat, cs, x);
  }

  /** With a mark that names no cluster, as 0 does, a removal that stays in the clusters comes to its end exactly along a chain. */
  lemma RemovesExactly(fat: seq<nat>, eoc: nat, c: nat, cs: seq<nat>, x: nat)
    requires EndMarker(fat, eoc) && InTable(|fat|, cs) && x != eoc && !(2 <= x < |fat|)
    ensures Visits(fat, eoc, c, cs, x) <==> IsChain(fat, eoc, cs) && c == First(cs, eoc)
  {
    hide MarkAll;
    if Visits(fat, eoc, c, cs, x) {
      forall i, j | 0 <= i < j < |cs| ensures cs[i] != cs[j] {
        assert VisitsAt(fat, eoc, cs, j, x) && cs[..j][i] == cs[i];
      }
      forall i | 0 <= i < |cs| ensures Follows(fat, eoc, cs, i) {
        assert VisitsAt(fat, eoc, cs, i, x) && cs[i] !in cs[..i];
      }
    } else if IsChain(fat, eoc, cs) {
      forall i | 0 <= i < |cs| ensures VisitsAt(fat, eoc, cs, i, x) {
        assert Follows(fat, eoc, cs, i) && cs[i] !in cs[..i];
      }
    }
  }
}
