/** The boot block as the bytes of a packed structure, and the regions of the volume that its fields describe. */
module Fat16Boot {
  import opened Arithmetic
  import opened Fat16
  import opened Fat16Volume

  /** A boot block, with the fields that nothing depends on. */
  datatype Boot = Boot(
    jump: seq<Byte>, oem: seq<Byte>, bpb: Bpb,
    sectorsPerTrack: nat, headCount: nat, hiddenSectorCount: nat, extended: seq<Byte>)

  /** `n` bytes of a number, the low one first. */
  function Le(x: nat, n: nat): (r: seq<Byte>)
    ensures |r| == n
    decreases n
  {
    if n == 0 then [] else [x % 256] + Le(x / 256, n - 1)
  }

  /** Every field has the width it has in the structure. */
  predicate Sane(b: Boot) {
    var p := b.bpb;
    && |b.jump| == 3 && |b.oem| == 8 && |b.extended| == 26
    && p.bytesPerSector < 0x1_0000 && p.sectorsPerCluster < 0x100 && p.reservedSectorCount < 0x1_0000 && p.fatCount < 0x100
    && p.rootEntryCount < 0x1_0000 && p.sectorCount < 0x1_0000 && p.sectorsPerFat < 0x1_0000 && p.largeSectorCount < 0x1_0000_0000
    && b.sectorsPerTrack < 0x1_0000 && b.headCount < 0x1_0000 && b.hiddenSectorCount < 0x1_0000_0000
  }

  /** The structure in memory: its fields one behind the other. */
  function Encode(b: Boot): (r: seq<Byte>)
    requires Sane(b)
    ensures |r| == BOOT
  {
    var p := b.bpb;
    b.jump + b.oem
    + Le(p.bytesPerSector, 2) + Le(p.sectorsPerCluster, 1) + Le(p.reservedSectorCount, 2) + Le(p.fatCount, 1)
    + Le(p.rootEntryCount, 2) + Le(p.sectorCount, 2) + Le(p.mediaType, 1) + Le(p.sectorsPerFat, 2)
    + Le(b.sectorsPerTrack, 2) + Le(b.headCount, 2) + Le(b.hiddenSectorCount, 4) + Le(p.largeSectorCount, 4)
    + b.extended
  }

  lemma LeOne(x: nat)
    requires x < 0x100
    ensures Le(x, 1) == [x]
  {
  }

  lemma LeTwo(x: nat)
    requires x < 0x1_0000
    ensures |Le(x, 2)| == 2 && Word(Le(x, 2)[0], Le(x, 2)[1]) == x
  {
    LeOne(x / 256);
    assert Le(x, 2) == [x % 256, x / 256];
  }

  lemma LeFour(x: nat)
    requires x < 0x1_0000_0000
    ensures var b := Le(x, 4); |b| == 4 && Word(b[0], b[1]) + 0x1_0000 * Word(b[2], b[3]) == x
  {
    var y := x / 256 / 256;
    LeTwo(y);
    assert Le(x, 4) == [x % 256, x / 256 % 256] + Le(y, 2);
  }

  /** Where each field lies. */
  lemma FieldsAt(b: Boot, rest: seq<Byte>)
    requires Sane(b)
    ensures var p, s := b.bpb, Encode(b) + rest;
      && s[11..13] == Le(p.bytesPerSector, 2) && s[13..14] == Le(p.sectorsPerCluster, 1) && s[14..16] == Le(p.reservedSectorCount, 2)
      && s[16..17] == Le(p.fatCount, 1) && s[17..19] == Le(p.rootEntryCount, 2) && s[19..21] == Le(p.sectorCount, 2)
      && s[21..22] == Le(p.mediaType, 1) && s[22..24] == Le(p.sectorsPerFat, 2) && s[32..36] == Le(p.largeSectorCount, 4)
  {
    hide Le;
  }

  /** Reading the fields of a boot block gives what was written there, whatever the other fields hold and whatever follows. */
  lemma ParseEncode(b: Boot, rest: seq<Byte>)
    requires Sane(b)
    ensures Parse(Encode(b) + rest) == b.bpb
  {
    var p, s := b.bpb, Encode(b) + rest;
    FieldsAt(b, rest);
    LeTwo(p.bytesPerSector);
    LeOne(p.sectorsPerCluster);
    LeTwo(p.reservedSectorCount);
    LeOne(p.fatCount);
    LeTwo(p.rootEntryCount);
    LeTwo(p.sectorCount);
    LeOne(p.mediaType);
    LeTwo(p.sectorsPerFat);
    LeFour(p.largeSectorCount);
    hide Le, Encode, Word;
    assert s[11] == s[11..13][0] && s[12] == s[11..13][1] && s[13] == s[13..14][0] && s[14] == s[14..16][0] && s[15] == s[14..16][1];
    assert s[16] == s[16..17][0] && s[17] == s[17..19][0] && s[18] == s[17..19][1] && s[19] == s[19..21][0] && s[20] == s[19..21][1];
    assert s[21] == s[21..22][0] && s[22] == s[22..24][0] && s[23] == s[22..24][1];
    assert s[32] == s[32..36][0] && s[33] == s[32..36][1] && s[34] == s[32..36][2] && s[35] == s[32..36][3];
  }

  /** The bytes that are read: from the size of a sector to that of a table, and the large count of sectors. */
  predicate Field(i: nat) { 11 <= i < 24 || 32 <= i < 36 }

  lemma WordTells(a: Byte, b: Byte, c: Byte, d: Byte)
    ensures Word(a, b) == Word(c, d) <==> a == c && b == d
  {
  }

  /** Two sectors give the same volume exactly when they agree in every byte of those fields. */
  lemma ParseTells(s: seq<Byte>, t: seq<Byte>)
    requires |s| >= BOOT && |t| >= BOOT
    ensures Parse(s) == Parse(t) <==> forall i | 0 <= i < BOOT && Field(i) :: s[i] == t[i]
  {
    WordTells(s[11], s[12], t[11], t[12]);
    WordTells(s[14], s[15], t[14], t[15]);
    WordTells(s[17], s[18], t[17], t[18]);
    WordTells(s[19], s[20], t[19], t[20]);
    WordTells(s[22], s[23], t[22], t[23]);
    WordTells(s[32], s[33], t[32], t[33]);
    WordTells(s[34], s[35], t[34], t[35]);
    var a, b, c, d := Word(s[32], s[33]), Word(s[34], s[35]), Word(t[32], t[33]), Word(t[34], t[35]);
    assert a + 0x1_0000 * b == c + 0x1_0000 * d <==> a == c && b == d;
    hide Word;
    if Parse(s) == Parse(t) {
      forall i | 0 <= i < BOOT && Field(i) ensures s[i] == t[i] {}
    }
  }

  // ---- Regions ----

  /**
   The volume is its reserved sectors, the copies of the table, the root directory and the clusters, one behind the other,
   and there is no room for another cluster.
   */
  lemma Regions(p: Bpb, size: nat)
    requires WellFormed(p, size)
    ensures var g := Geometry(p, size);
      && g.sector == p.bytesPerSector && g.bytes == p.sectorsPerCluster * g.sector && g.fats == p.fatCount
      && CopyAddr(g, 0) == p.reservedSectorCount * g.sector && CopyAddr(g, 1) == CopyAddr(g, 0) + p.sectorsPerFat * g.sector
      && g.data == CopyAddr(g, g.fats) + 32 * p.rootEntryCount
      && g.data + g.count * g.bytes <= TotalSectorCount(p) * g.sector < g.data + (g.count + 1) * g.bytes
  {
    var g := Geometry(p, size);
    var s, m, t, c := p.bytesPerSector, MetaSectorCount(p), TotalSectorCount(p), p.sectorsPerCluster;
    MulAssoc(p.fatCount, p.sectorsPerFat, s);
    MulDistr(s, p.reservedSectorCount, p.fatCount * p.sectorsPerFat);
    assert CopyAddr(g, g.fats) == (p.reservedSectorCount + p.fatCount * p.sectorsPerFat) * s;
    RootEnds(s, p.reservedSectorCount + p.fatCount * p.sectorsPerFat, p.rootEntryCount * ENTRY_SIZE);
    assert g.data == m * s;
    ClustersFit(s, c, t, m);
    ClustersFill(s, c, t, m);
  }

  lemma ClustersFill(s: nat, c: nat, t: nat, m: nat)
    requires c > 0 && m <= t && s > 0
    ensures t * s < m * s + ((t - m) / c + 1) * (c * s)
  {
    var n := (t - m) / c;
    DivBounds(t - m, c);
    MulDistr(c, n, 1);
    assert t - m < (n + 1) * c;
    MulMono(t - m + 1, (n + 1) * c, s);
    MulAssoc(n + 1, c, s);
    MulDistr(s, t - m, 1);
    MulDistr(s, m, t - m);
  }

  /** A floppy with 224 root entries: its first cluster is behind them. */
  lemma FloppyRegions()
    ensures var p := Bpb(512, 1, 1, 2, 224, 2880, 0, 12, 0xF0);
      WellFormed(p, 1474560) && Geometry(p, 1474560) == Geo(512, 512, 2, 6144, 2841, 19968, 512)
  {
  }

  // ---- Bytes of the table ----

  /** An entry is two bytes, the low one first. */
  lemma EntryBytes(s: seq<Byte>, g: Geo, i: nat, x: nat)
    requires Fits(g, |s|) && i < g.count && x < 0x1_0000
    ensures Entry(s, g, i) == x <==> s[g.table + 2 * i..g.table + 2 * i + 2] == Le(x, 2)
  {
    hide Area, CopyAddr;
    LeOne(x / 256);
    assert Le(x, 2) == [x % 256, x / 256];
    var a := g.table + 2 * i;
    assert s[a..a + 2] == [s[a], s[a + 1]];
  }

  /** A formatted table begins with the media type and three bytes of ones, and is otherwise zero. */
  lemma BlankBytes(s: seq<Byte>, g: Geo, mediaType: Byte)
    requires Fits(g, |s|) && View(s, g).fat == Blank(g.count, mediaType)
    ensures s[g.table..g.table + 4] == [mediaType, 0xFF, 0xFF, 0xFF]
    ensures forall a | g.table + 4 <= a < g.table + 2 * g.count :: s[a] == 0
  {
    hide Area, CopyAddr, Fits, View, Blank;
    BlankEntry(s, g, mediaType, 0);
    BlankEntry(s, g, mediaType, 1);
    forall a | g.table + 4 <= a < g.table + 2 * g.count ensures s[a] == 0 {
      BlankEntry(s, g, mediaType, (a - g.table) / 2);
    }
  }

  lemma BlankEntry(s: seq<Byte>, g: Geo, mediaType: Byte, i: nat)
    requires Fits(g, |s|) && View(s, g).fat == Blank(g.count, mediaType) && i < g.count
    ensures var a := g.table + 2 * i; a + 1 < |s| && g.count >= 2 && a + 2 <= g.table + 2 * g.count <= |s|
    ensures var a := g.table + 2 * i; s[a] == (if i == 0 then mediaType else if i == 1 then 0xFF else 0) && s[a + 1] == if i < 2 then 0xFF else 0
  {
    hide Area, CopyAddr;
    assert View(s, g).fat[i] == Entry(s, g, i);
  }
}
