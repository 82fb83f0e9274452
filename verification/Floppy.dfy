/**
 The one-cylinder buffer of the floppy driver.  Reads and writes of any length go through it
 a cylinder at a time, and must look like reads and writes of the disk itself.

 A transfer of a whole cylinder stands for do_track: it succeeds exactly on the cylinders the
 disk has.
 */
module Floppy {
  import opened Arithmetic

  type Byte = b: nat | b < 256

  /** 18 sectors of 512 bytes on each of two faces. */
  const CYLINDER: nat := 18432
  const TWO16: nat := 0x1_0000
  const TWO32: nat := 0x1_0000_0000
  const NO_CYLINDER: nat := 0xFFFF_FFFF

  /** Where the cylinder ends in which 32-bit addresses run out: 233017 * CYLINDER. */
  const LAST: nat := 4294969344

  /**
   Requests name their bytes by running addresses, which may pass 2^32.  The code wraps around only between
   transfers, so the transfer that passes 2^32 first runs to the end of its cylinder.
   */
  function Fold(addr: nat): nat { if addr < LAST then addr else addr - TWO32 }

  /** The cylinder number of an address, cut to 16 bits. */
  function Cyl(addr: nat): nat { Fold(addr) / CYLINDER % TWO16 }

  function Off(addr: nat): nat { Fold(addr) % CYLINDER }

  /** Where on the disk the byte at `addr` is: an address past the last 16-bit cylinder aliases a lower one. */
  function Phys(addr: nat): nat { Cyl(addr) * CYLINDER + Off(addr) }

  /** Addresses at which a transfer can start. */
  predicate Starts(addr: nat) { addr < TWO32 || LAST <= addr < 2 * TWO32 }

  lemma StartsLow(addr: nat)
    requires addr < TWO32
    ensures Starts(addr)
  {
  }

  /** The 32-bit address of a transfer stands for the running one. */
  lemma Wrapped(addr: nat)
    requires Starts(addr)
    ensures addr % TWO32 == Fold(addr) && Fold(Fold(addr)) == Fold(addr)
    ensures Cyl(addr % TWO32) == Cyl(addr) && Off(addr % TWO32) == Off(addr) && Phys(addr % TWO32) == Phys(addr)
  {
    ModWrap(addr, TWO32);
  }

  /** A transfer that stops short of what is asked for stops where the next one can start. */
  lemma NextStart(addr: nat, n: nat)
    requires Starts(addr) && n == CYLINDER - Off(addr) && addr + n < 2 * TWO32
    ensures Starts(addr + n)
  {
    var a := Fold(addr);
    DivBounds(a, CYLINDER);
    var q := a / CYLINDER + 1;
    assert a + n == CYLINDER * q;
    if addr < TWO32 && q < 233017 { MulMono(q, 233016, CYLINDER); }
  }

  /** All of the `n` addresses from `addr` on are on the disk. */
  ghost predicate OnDisk(disk: seq<Byte>, addr: nat, n: nat) {
    forall a: nat | addr <= a < addr + n :: Phys(a) < |disk|
  }

  /** How many of the `size` bytes from `addr` on can be reached before the first one that is off the disk. */
  function Reach(disk: seq<Byte>, addr: nat, size: nat): (n: nat)
    ensures n <= size && OnDisk(disk, addr, n)
    ensures n < size ==> Phys(addr + n) >= |disk|
    decreases size
  {
    if size == 0 || Phys(addr) >= |disk| then 0 else 1 + Reach(disk, addr + 1, size - 1)
  }

  /** The bytes found at consecutive addresses. */
  function Fetch(disk: seq<Byte>, addr: nat, n: nat): (r: seq<Byte>)
    requires OnDisk(disk, addr, n)
    ensures |r| == n
    decreases n
  {
    if n == 0 then [] else [disk[Phys(addr)]] + Fetch(disk, addr + 1, n - 1)
  }

  /** The disk after bytes have been stored one by one at consecutive addresses. */
  function Store(disk: seq<Byte>, addr: nat, src: seq<Byte>): (r: seq<Byte>)
    requires OnDisk(disk, addr, |src|)
    ensures |r| == |disk|
    decreases |src|
  {
    if src == [] then disk else Store(disk[Phys(addr) := src[0]], addr + 1, src[1..])
  }

  // ---- One cylinder's worth ----

  lemma SameCylinder(addr: nat, j: nat)
    requires Off(addr) + j < CYLINDER
    ensures Cyl(addr + j) == Cyl(addr) && Off(addr + j) == Off(addr) + j && Phys(addr + j) == Phys(addr) + j
  {
    var a := Fold(addr);
    DivBounds(a, CYLINDER);
    if a < LAST { DivLess(a, CYLINDER, 233017); MulMono(a / CYLINDER + 1, 233017, CYLINDER); }
    assert Fold(addr + j) == a + j;
    DivModUnique(a + j, CYLINDER, a / CYLINDER, a % CYLINDER + j);
  }

  lemma PhysOnDisk(addr: nat, cylinders: nat)
    ensures Phys(addr) < cylinders * CYLINDER <==> Cyl(addr) < cylinders
    ensures Cyl(addr) < cylinders ==> (Cyl(addr) + 1) * CYLINDER <= cylinders * CYLINDER
  {
    if Cyl(addr) < cylinders {
      MulMono(Cyl(addr) + 1, cylinders, CYLINDER);
    } else {
      MulMono(cylinders, Cyl(addr), CYLINDER);
    }
  }

  /** A 32-bit address is where it says exactly within the first 65536 cylinders. */
  lemma PhysExactly(addr: nat)
    requires addr < TWO32
    ensures Phys(addr) == addr <==> addr < TWO16 * CYLINDER
  {
    DivBounds(addr, CYLINDER);
    if addr < TWO16 * CYLINDER {
      DivLess(addr, CYLINDER, TWO16);
      ModWrap(addr / CYLINDER, TWO16);
    }
  }

  lemma PhysIdentity(addr: nat, cylinders: nat)
    requires addr < cylinders * CYLINDER && cylinders <= TWO16
    ensures Phys(addr) == addr
  {
    hide Phys;
    MulMono(cylinders, TWO16, CYLINDER);
    PhysExactly(addr);
  }

  /** Reaching goes on where a chunk of reachable bytes ends. */
  lemma {:induction false} ReachSplit(disk: seq<Byte>, addr: nat, size: nat, w: nat)
    requires w <= size && OnDisk(disk, addr, w)
    ensures Reach(disk, addr, size) == w + Reach(disk, addr + w, size - w)
    decreases w
  {
    if w > 0 {
      assert Phys(addr) < |disk|;
      ReachSplit(disk, addr + 1, size - 1, w - 1);
    }
  }

  lemma {:induction false} FetchSplit(disk: seq<Byte>, addr: nat, m: nat, n: nat)
    requires OnDisk(disk, addr, m + n)
    ensures OnDisk(disk, addr, m) && OnDisk(disk, addr + m, n)
    ensures Fetch(disk, addr, m + n) == Fetch(disk, addr, m) + Fetch(disk, addr + m, n)
    decreases m
  {
    if m > 0 { FetchSplit(disk, addr + 1, m - 1, n); }
  }

  lemma {:induction false} StoreSplit(disk: seq<Byte>, addr: nat, a: seq<Byte>, b: seq<Byte>)
    requires OnDisk(disk, addr, |a| + |b|)
    ensures OnDisk(disk, addr, |a|) && OnDisk(disk, addr + |a|, |b|)
    ensures Store(disk, addr, a + b) == Store(Store(disk, addr, a), addr + |a|, b)
    decreases |a|
  {
    if a == [] {
      assert a + b == b;
    } else {
      assert (a + b)[1..] == a[1..] + b;
      StoreSplit(disk[Phys(addr) := a[0]], addr + 1, a[1..], b);
    }
  }

  lemma ChunkOnDisk(disk: seq<Byte>, addr: nat, n: nat)
    requires Off(addr) + n <= CYLINDER && Phys(addr) + n <= |disk|
    ensures OnDisk(disk, addr, n)
  {
    forall a: nat | addr <= a < addr + n ensures Phys(a) < |disk| {
      SameCylinder(addr, a - addr);
    }
  }

  /** Inside one cylinder, consecutive addresses are one slice of the disk. */
  lemma {:induction false} FetchChunk(disk: seq<Byte>, addr: nat, n: nat)
    requires Off(addr) + n <= CYLINDER && Phys(addr) + n <= |disk| && OnDisk(disk, addr, n)
    ensures Fetch(disk, addr, n) == disk[Phys(addr)..Phys(addr) + n]
    decreases n
  {
    hide Phys;
    if n > 1 {
      NextAddress(addr);
      FetchChunk(disk, addr + 1, n - 1);
    }
  }

  lemma NextAddress(addr: nat)
    requires Off(addr) + 1 < CYLINDER
    ensures Off(addr + 1) == Off(addr) + 1 && Phys(addr + 1) == Phys(addr) + 1
  {
    SameCylinder(addr, 1);
  }

  lemma {:induction false} StoreChunk(disk: seq<Byte>, addr: nat, src: seq<Byte>)
    requires Off(addr) + |src| <= CYLINDER && Phys(addr) + |src| <= |disk| && OnDisk(disk, addr, |src|)
    ensures Store(disk, addr, src) == Lay(disk, Phys(addr), src)
    decreases |src|
  {
    hide Phys;
    var p := Phys(addr);
    if src == [] {
      assert disk == disk[..p] + disk[p..];
    } else if |src| == 1 {
      assert Store(disk, addr, src) == disk[p := src[0]];
      assert disk[p := src[0]] == disk[..p] + src + disk[p + 1..];
    } else {
      NextAddress(addr);
      var d := disk[p := src[0]];
      StoreChunk(d, addr + 1, src[1..]);
      assert d[..p + 1] + src[1..] + d[p + |src|..] == disk[..p] + src + disk[p + |src|..];
    }
  }

  /** Addresses that lie on the disk are reachable, and are where they say. */
  lemma InRange(disk: seq<Byte>, cylinders: nat, addr: nat, n: nat)
    requires |disk| == cylinders * CYLINDER && cylinders <= TWO16 && addr + n <= |disk|
    ensures OnDisk(disk, addr, n) && Reach(disk, addr, n) == n
    ensures forall a: nat | addr <= a < addr + n :: Phys(a) == a
  {
    forall a: nat | addr <= a < addr + n ensures Phys(a) == a { PhysIdentity(a, cylinders); }
    ReachSplit(disk, addr, n, n);
  }

  /** A read that stays on the disk gives the bytes it names. */
  lemma {:induction false} FetchIsSlice(disk: seq<Byte>, cylinders: nat, addr: nat, n: nat)
    requires |disk| == cylinders * CYLINDER && cylinders <= TWO16 && addr + n <= |disk| && OnDisk(disk, addr, n)
    ensures Fetch(disk, addr, n) == disk[addr..addr + n]
    decreases n
  {
    hide Phys;
    if n > 0 {
      PhysIdentity(addr, cylinders);
      FetchIsSlice(disk, cylinders, addr + 1, n - 1);
    }
  }

  /** A write that stays on the disk replaces exactly the bytes it names. */
  lemma {:induction false} StoreIsSplice(disk: seq<Byte>, cylinders: nat, addr: nat, src: seq<Byte>)
    requires |disk| == cylinders * CYLINDER && cylinders <= TWO16 && addr + |src| <= |disk| && OnDisk(disk, addr, |src|)
    ensures Store(disk, addr, src) == disk[..addr] + src + disk[addr + |src|..]
    decreases |src|
  {
    hide Phys;
    if src == [] {
      assert disk == disk[..addr] + disk[addr..];
    } else {
      PhysIdentity(addr, cylinders);
      var d := disk[addr := src[0]];
      StoreIsSplice(d, cylinders, addr + 1, src[1..]);
      assert d[..addr + 1] + src[1..] + d[addr + |src|..] == disk[..addr] + src + disk[addr + |src|..];
    }
  }

  lemma SpliceParts(s: seq<Byte>, at: nat, x: seq<Byte>, i: nat, n: nat)
    requires at + |x| <= |s| && i + n <= |s| && (i + n <= at || at + |x| <= i)
    ensures var r := s[..at] + x + s[at + |x|..]; |r| == |s| && r[at..at + |x|] == x && r[i..i + n] == s[i..i + n]
  {
  }

  /** What was written is read back, and no other byte is touched. */
  lemma ReadBack(disk: seq<Byte>, cylinders: nat, addr: nat, src: seq<Byte>, other: nat, n: nat)
    requires |disk| == cylinders * CYLINDER && cylinders <= TWO16 && addr + |src| <= |disk| && other + n <= |disk|
    requires other + n <= addr || addr + |src| <= other
    ensures OnDisk(disk, addr, |src|) && OnDisk(disk, other, n)
    ensures var d := Store(disk, addr, src);
      && Fetch(d, addr, |src|) == src
      && Fetch(d, other, n) == Fetch(disk, other, n)
  {
    InRange(disk, cylinders, addr, |src|);
    InRange(disk, cylinders, other, n);
    hide Store, Fetch, Phys, Reach;
    var d := Store(disk, addr, src);
    SpliceParts(disk, addr, src, other, n);
    StoreIsSplice(disk, cylinders, addr, src);
    FetchIsSlice(d, cylinders, addr, |src|);
    FetchIsSlice(d, cylinders, other, n);
    FetchIsSlice(disk, cylinders, other, n);
  }

  /** The addresses that are not where they say repeat the first ones: 65536 cylinders on, the same byte. */
  lemma Aliases(addr: nat)
    requires addr + TWO16 * CYLINDER < LAST
    ensures Phys(addr + TWO16 * CYLINDER) == Phys(addr)
  {
    DivBounds(addr, CYLINDER);
    DivModUnique(addr + TWO16 * CYLINDER, CYLINDER, addr / CYLINDER + TWO16, addr % CYLINDER);
    var c := addr / CYLINDER;
    DivModUnique(c + TWO16, TWO16, c / TWO16 + 1, c % TWO16);
  }

  // ---- The driver ----

  datatype Dir = Read | Write

  /** `s` with `x` in place of what it held from `at` on. */
  function Lay(s: seq<Byte>, at: nat, x: seq<Byte>): (r: seq<Byte>)
    requires at + |x| <= |s|
    ensures |r| == |s|
  {
    s[..at] + x + s[at + |x|..]
  }

  method Copy(dst: array<Byte>, to: nat, src: array<Byte>, from: nat, n: nat)
    requires dst != src && to + n <= dst.Length && from + n <= src.Length
    modifies dst
    ensures dst[..] == Lay(old(dst[..]), to, src[from..from + n])
  {
    var i := 0;
    while i < n
      invariant 0 <= i <= n
      invariant dst[..] == old(dst[..to]) + src[from..from + i] + old(dst[to + i..])
    {
      dst[to + i] := src[from + i];
      i := i + 1;
    }
  }

  class Drive {
    const disk: array<Byte>
    const dmabuf: array<Byte>
    const cylinders: nat
    const present: bool
    var dmacyl: nat
    /** What has gone to and from the disk. */
    ghost var transfers: seq<Transfer>

    ghost predicate Shaped()
      reads this
    {
      disk != dmabuf && dmabuf.Length == CYLINDER && cylinders <= TWO16 && disk.Length == cylinders * CYLINDER
    }

    /** The buffer holds what the disk holds on the cylinder it is tagged with. */
    ghost predicate Valid()
      reads this, disk, dmabuf
    {
      Shaped() && (dmacyl == NO_CYLINDER || Synced(dmacyl))
    }

    ghost predicate Synced(c: nat)
      reads disk, dmabuf
    {
      c < cylinders && (c + 1) * CYLINDER <= disk.Length && dmabuf[..] == disk[c * CYLINDER..(c + 1) * CYLINDER]
    }

    constructor (image: seq<Byte>, tracks: nat, hasFloppy: bool)
      requires tracks <= TWO16 && |image| == tracks * CYLINDER
      ensures Valid() && disk[..] == image && present == hasFloppy && cylinders == tracks
      ensures fresh(disk) && fresh(dmabuf) && dmacyl == NO_CYLINDER && transfers == []
    {
      disk := new Byte[|image|](i requires 0 <= i < |image| => image[i]);
      dmabuf := new Byte[CYLINDER](_ => 0);
      cylinders, present, dmacyl, transfers := tracks, hasFloppy, NO_CYLINDER, [];
    }

    /** A whole cylinder to or from the buffer. */
    method DoTrack(cyl: nat, dir: Dir) returns (ret: int)
      requires Shaped()
      modifies this`transfers, disk, dmabuf
      ensures ret == (if cyl < cylinders then 0 else -1) && transfers == old(transfers) + [Transfer(dir, cyl)]
      ensures cyl >= cylinders || dir.Read? ==> disk[..] == old(disk[..])
      ensures cyl >= cylinders || dir.Write? ==> dmabuf[..] == old(dmabuf[..])
      ensures ret == 0 ==> Synced(cyl)
      ensures ret == 0 && dir.Write? ==>
        disk[..] == old(disk[..cyl * CYLINDER]) + dmabuf[..] + old(disk[(cyl + 1) * CYLINDER..])
    {
      transfers := transfers + [Transfer(dir, cyl)];
      if cyl >= cylinders { return -1; }
      MulMono(cyl + 1, cylinders, CYLINDER);
      if dir.Read? {
        Copy(dmabuf, 0, disk, cyl * CYLINDER, CYLINDER);
      } else {
        Copy(disk, cyl * CYLINDER, dmabuf, 0, CYLINDER);
      }
      return 0;
    }

    /** Brings the cylinder of `addr` into the buffer, or writes the buffer back to it. */
    method DoCached(dir: Dir, addr: nat) returns (ret: int, offset: nat, size: nat)
      requires Shaped() && (dir.Read? ==> Valid()) && addr < TWO32
      modifies this`dmacyl, this`transfers, disk, dmabuf
      ensures ret == if !present then -2 else if Cyl(addr) < cylinders then 0 else -1
      ensures Shaped() && (dir.Read? ==> Valid()) && (ret == 0 ==> dmacyl == Cyl(addr) && Synced(Cyl(addr)))
      ensures ret != 0 || dir.Read? ==> disk[..] == old(disk[..])
      ensures ret == 0 && dir.Write? ==> dmabuf[..] == old(dmabuf[..])
      ensures ret == 0 && dir.Write? ==>
        disk[..] == old(disk[..Cyl(addr) * CYLINDER]) + dmabuf[..] + old(disk[(Cyl(addr) + 1) * CYLINDER..])
      ensures offset == Off(addr) && size == CYLINDER - offset && (ret != 0 ==> dmacyl == old(dmacyl))
      ensures transfers == old(transfers) + if !present || (dir.Read? && Cyl(addr) == old(dmacyl)) then [] else [Transfer(dir, Cyl(addr))]
    {
      offset, size := addr % CYLINDER, CYLINDER - addr % CYLINDER;
      if !present { return -2, offset, size; }
      var cyl := addr / CYLINDER % TWO16;
      if dir.Read? && cyl == dmacyl { return 0, offset, size; }
      ret := DoTrack(cyl, dir);
      if ret >= 0 { dmacyl := cyl; }
    }

    /** A view of the buffer from the wanted byte to the end of its cylinder. */
    method ReadView(addr: nat) returns (ok: bool, offset: nat, size: nat)
      requires Valid() && addr < TWO32
      modifies this`dmacyl, this`transfers, disk, dmabuf
      ensures Valid() && disk[..] == old(disk[..])
      ensures ok <==> present && Phys(addr) < disk.Length
      ensures ok ==> offset + size == CYLINDER && Phys(addr) + size <= disk.Length
      ensures ok ==> dmabuf[offset..] == disk[Phys(addr)..Phys(addr) + size]
      ensures present ==> transfers == old(transfers) + Load(old(dmacyl), Cyl(addr))
    {
      PhysOnDisk(addr, cylinders);
      var ret;
      ret, offset, size := DoCached(Read, addr);
      ok := ret >= 0;
      if ok { BufferSlice(addr, size); }
    }

    /** The buffer is tagged with a cylinder of the disk, or with none. */
    lemma TagFits()
      requires Valid()
      ensures dmacyl < cylinders || dmacyl == NO_CYLINDER
    {
    }

    lemma BufferSlice(addr: nat, w: nat)
      requires Valid() && Synced(Cyl(addr)) && Off(addr) + w <= CYLINDER
      ensures Phys(addr) + w <= disk.Length
      ensures dmabuf[Off(addr)..Off(addr) + w] == disk[Phys(addr)..Phys(addr) + w]
    {
      var c, o := Cyl(addr) * CYLINDER, Off(addr);
      PhysParts(addr);
      hide Phys, Cyl;
      MulDistr(CYLINDER, Cyl(addr), 1);
      SubSlice(disk[..], c, c + CYLINDER, o, o + w);
      assert dmabuf[..][o..o + w] == dmabuf[o..o + w];
    }

    lemma SyncedMeans(c: nat)
      requires Synced(c)
      ensures c * CYLINDER + CYLINDER == (c + 1) * CYLINDER <= disk.Length
      ensures dmabuf[..] == disk[..][c * CYLINDER..c * CYLINDER + CYLINDER]
    {
      MulDistr(CYLINDER, c, 1);
    }

    /** One iteration of a read: the next bytes, up to the end of their cylinder. */
    method ReadChunk(dst: array<Byte>, to: nat, addr: nat, most: nat) returns (ret: int, n: nat)
      requires Valid() && dst != disk && dst != dmabuf && to + most <= dst.Length && most > 0 && Starts(addr)
      modifies this`dmacyl, this`transfers, disk, dmabuf, dst
      ensures Valid() && disk[..] == old(disk[..])
      ensures ret == if !present then -2 else if Phys(addr) < disk.Length then 0 else -1
      ensures ret < 0 ==> dst[..] == old(dst[..])
      ensures ret == 0 ==> 0 < n <= most && OnDisk(disk[..], addr, n) && (n == most || n == CYLINDER - Off(addr)) && Off(addr) + n <= CYLINDER
      ensures ret == -1 ==> Cyl(addr) >= cylinders
      ensures ret == 0 ==> Cyl(addr) < cylinders
      ensures ret == 0 ==> dst[..] == Lay(old(dst[..]), to, Fetch(disk[..], addr, n)) && dmacyl == Cyl(addr)
      ensures transfers == old(transfers) + if present then Load(old(dmacyl), Cyl(addr)) else []
    {
      Wrapped(addr);
      hide Phys, Cyl, Off, Fold, Starts, Fetch, Lay, OnDisk;
      PhysOnDisk(addr, cylinders);
      var offset;
      ret, offset, n := DoCached(Read, addr % TWO32);
      if ret < 0 { return; }
      if n > most { n := most; }
      BufferSlice(addr, n);
      ChunkOnDisk(disk[..], addr, n);
      FetchChunk(disk[..], addr, n);
      Copy(dst, to, dmabuf, offset, n);
    }

    /** One iteration of a read at the place it has come to, and what is left of its transfers. */
    method ReadPart(dst: array<Byte>, addr: nat, size: nat, done: nat, ghost b: seq<Byte>, ghost goal: seq<Transfer>) returns (ret: int, next: nat)
      requires Valid() && dst != disk && dst != dmabuf && done < size <= dst.Length && Starts(addr + done) && addr + size < 2 * TWO32
      requires ReadSoFar(disk[..], addr, done, dst[..], b) && |b| == dst.Length
      requires Remaining(goal, transfers, cylinders, present, dmacyl, addr + done, size - done)
      modifies this`dmacyl, this`transfers, disk, dmabuf, dst
      ensures Valid() && disk[..] == old(disk[..])
      ensures ret == if !present then -2 else if Phys(addr + done) < disk.Length then 0 else -1
      ensures ret < 0 ==> ReadSoFar(disk[..], addr, done, dst[..], b) && transfers == goal
      ensures ret == 0 ==> done < next <= size && ReadSoFar(disk[..], addr, next, dst[..], b) && (next < size ==> Starts(addr + next))
      ensures ret == 0 ==> Remaining(goal, transfers, cylinders, present, dmacyl, addr + next, size - next)
    {
      hide Phys, Off, Fold, Starts, Fetch, OnDisk, Lay, Valid, ReadSoFar, Cyl, Load, Remaining;
      ghost var e, tag, was := dst[..], dmacyl, transfers;
      TagFits();
      var n;
      ret, n := ReadChunk(dst, done, addr + done, size - done);
      next := done + n;
      if ret < 0 {
        RemainingStuck(goal, was, transfers, cylinders, present, tag, addr + done, size - done);
      } else {
        ReadOn(disk[..], addr, done, n, e, dst[..], b);
        RemainingOn(goal, was, transfers, cylinders, tag, addr + done, size - done, n);
        if next < size { NextStart(addr + done, n); }
      }
    }

    /** Reads into `dst`: all of it when it is on the disk, else the part in front of the first missing byte. */
    method FloppyRead(dst: array<Byte>, addr: nat, size: nat) returns (ret: int)
      requires Valid() && dst != disk && dst != dmabuf && size <= dst.Length && addr < TWO32 && size < TWO32
      modifies this`dmacyl, this`transfers, disk, dmabuf, dst
      ensures Valid() && disk[..] == old(disk[..])
      ensures ret == if size == 0 then 0 else if !present then -2 else if Reach(disk[..], addr, size) == size then 0 else -1
      ensures ReadSoFar(disk[..], addr, if present then Reach(disk[..], addr, size) else 0, dst[..], old(dst[..]))
      ensures transfers == old(transfers) + if present then Loads(cylinders, old(dmacyl), addr, size) else []
    {
      ghost var goal := transfers + if present then Loads(cylinders, dmacyl, addr, size) else [];
      assert Remaining(goal, transfers, cylinders, present, dmacyl, addr + 0, size - 0);
      hide Phys, Starts, Reach, Valid, ReadSoFar, Loads, Remaining;
      StartsLow(addr);
      ghost var d, b := disk[..], dst[..];
      NothingRead(d, addr, b);
      var done := 0;
      while size > done
        invariant 0 <= done <= size && Valid() && disk[..] == d && (done > 0 ==> present)
        invariant (size > done ==> Starts(addr + done)) && ReadSoFar(d, addr, done, dst[..], b)
        invariant Remaining(goal, transfers, cylinders, present, dmacyl, addr + done, size - done)
      {
        var next;
        ret, next := ReadPart(dst, addr, size, done, b, goal);
        if ret < 0 {
          ReadEnds(d, addr, size, done, dst[..], b, present);
          return;
        }
        done := next;
      }
      ReadEnds(d, addr, size, size, dst[..], b, present);
      RemainingNone(goal, transfers, cylinders, present, dmacyl, addr + size);
      return 0;
    }

    /** One iteration of a write: load the cylinder, edit the buffer, save the cylinder. */
    method WriteChunk(addr: nat, src: array<Byte>, from: nat, most: nat) returns (ret: int, n: nat)
      requires Valid() && src != disk && src != dmabuf && from + most <= src.Length && most > 0 && Starts(addr)
      modifies this`dmacyl, this`transfers, disk, dmabuf
      ensures Valid()
      ensures ret == if !present then -2 else if Phys(addr) < disk.Length then 0 else -1
      ensures ret < 0 ==> disk[..] == old(disk[..])
      ensures ret == 0 ==> 0 < n <= most && OnDisk(old(disk[..]), addr, n) && (n == most || n == CYLINDER - Off(addr)) && Off(addr) + n <= CYLINDER
      ensures (ret == -1 ==> Cyl(addr) >= cylinders) && (ret == 0 ==> Cyl(addr) < cylinders && dmacyl == Cyl(addr))
      ensures transfers == old(transfers) + (if present then Load(old(dmacyl), Cyl(addr)) else []) + (if ret == 0 then [Transfer(Write, Cyl(addr))] else [])
      ensures ret == 0 ==> disk[..] == Store(old(disk[..]), addr, src[from..from + n])
    {
      assert Shaped() && disk.Length == cylinders * CYLINDER;
      Wrapped(addr);
      hide Phys, Cyl, Off, Fold, Starts, Store, Synced, OnDisk, Lay, Shaped;
      PhysOnDisk(addr, cylinders);
      ghost var d := disk[..];
      var offset;
      ret, offset, n := DoCached(Read, addr % TWO32);
      if ret < 0 { return; }
      if n > most { n := most; }
      BufferSlice(addr, n);
      ChunkOnDisk(d, addr, n);
      SaveChunk(addr, src, from, n, offset);
      StoreChunk(d, addr, src[from..from + n]);
    }

    method EditBuffer(offset: nat, src: array<Byte>, from: nat, n: nat)
      requires dmabuf != src && offset + n <= dmabuf.Length && from + n <= src.Length
      modifies dmabuf
      ensures dmabuf[..] == Lay(old(dmabuf[..]), offset, src[from..from + n])
    {
      Copy(dmabuf, offset, src, from, n);
    }

    method WriteBack(addr: nat)
      requires Shaped() && present && Cyl(addr) < cylinders && Starts(addr)
      modifies this`dmacyl, this`transfers, disk, dmabuf
      ensures Valid() && Cyl(addr) * CYLINDER + CYLINDER <= disk.Length && dmacyl == Cyl(addr)
      ensures transfers == old(transfers) + [Transfer(Write, Cyl(addr))]
      ensures disk[..] == Lay(old(disk[..]), Cyl(addr) * CYLINDER, old(dmabuf[..]))
    {
      Wrapped(addr);
      hide Cyl, Off, Phys;
      PhysOnDisk(addr, cylinders);
      MulDistr(CYLINDER, Cyl(addr), 1);
      var ret, o, z := DoCached(Write, addr % TWO32);
    }

    /** Edits the buffered cylinder of `addr` and writes it back. */
    method SaveChunk(addr: nat, src: array<Byte>, from: nat, n: nat, offset: nat)
      requires Shaped() && present && src != disk && src != dmabuf && from + n <= src.Length
      requires Cyl(addr) < cylinders && Synced(Cyl(addr)) && offset == Off(addr) && offset + n <= CYLINDER && Starts(addr)
      requires Phys(addr) + n <= disk.Length
      modifies this`dmacyl, this`transfers, disk, dmabuf
      ensures Valid() && dmacyl == Cyl(addr) && transfers == old(transfers) + [Transfer(Write, Cyl(addr))]
      ensures disk[..] == Lay(old(disk[..]), Phys(addr), src[from..from + n])
    {
      hide Phys, Cyl, Off, Synced;
      ghost var d, b, c := disk[..], dmabuf[..], Cyl(addr) * CYLINDER;
      SyncedMeans(Cyl(addr));
      PhysParts(addr);
      EditedCylinder(d, c, offset, b, src[from..from + n]);
      hide Lay;
      EditBuffer(offset, src, from, n);
      WriteBack(addr);
    }

    /** One iteration of a write at the place it has come to, and what is left of its transfers. */
    method WritePart(addr: nat, src: array<Byte>, size: nat, done: nat, ghost d: seq<Byte>, ghost goal: seq<Transfer>) returns (ret: int, next: nat)
      requires Valid() && src != disk && src != dmabuf && done < size <= src.Length && Starts(addr + done) && addr + size < 2 * TWO32
      requires |d| == disk.Length && OnDisk(d, addr, done) && disk[..] == Store(d, addr, src[..done])
      requires Unsaved(goal, transfers, cylinders, present, dmacyl, addr + done, size - done)
      modifies this`dmacyl, this`transfers, disk, dmabuf
      ensures Valid()
      ensures ret == if !present then -2 else if Phys(addr + done) < disk.Length then 0 else -1
      ensures ret < 0 ==> disk[..] == old(disk[..]) && transfers == goal
      ensures ret == 0 ==> done < next <= size && (next < size ==> Starts(addr + next))
      ensures ret == 0 ==> OnDisk(d, addr, next) && disk[..] == Store(d, addr, src[..next])
      ensures ret == 0 ==> Unsaved(goal, transfers, cylinders, present, dmacyl, addr + next, size - next)
    {
      hide Phys, Off, Fold, Starts, Store, OnDisk, Valid, Cyl, Load, Unsaved;
      ghost var e, tag, was := disk[..], dmacyl, transfers;
      TagFits();
      var n;
      ret, n := WriteChunk(addr + done, src, done, size - done);
      next := done + n;
      if ret < 0 {
        UnsavedStuck(goal, was, transfers, cylinders, present, tag, addr + done, size - done);
      } else {
        WriteOn(d, e, addr, src[..], done, n);
        assert src[..][..done] == src[..done] && src[..][done..next] == src[done..next] && src[..][..next] == src[..next];
        UnsavedOn(goal, was, transfers, cylinders, tag, addr + done, size - done, n);
        if next < size { NextStart(addr + done, n); }
      }
    }

    /** Writes `src` through the buffer: all of it, or the part in front of the first missing byte. */
    method FloppyWrite(addr: nat, src: array<Byte>, size: nat) returns (ret: int)
      requires Valid() && src != disk && src != dmabuf && size <= src.Length && addr < TWO32 && size < TWO32
      modifies this`dmacyl, this`transfers, disk, dmabuf
      ensures Valid()
      ensures ret == if size == 0 then 0 else if !present then -2 else if Reach(old(disk[..]), addr, size) == size then 0 else -1
      ensures var n := if present then Reach(old(disk[..]), addr, size) else 0;
        disk[..] == Store(old(disk[..]), addr, src[..n])
      ensures transfers == old(transfers) + if present then Saves(cylinders, old(dmacyl), addr, size) else []
    {
      ghost var goal := transfers + if present then Saves(cylinders, dmacyl, addr, size) else [];
      assert Unsaved(goal, transfers, cylinders, present, dmacyl, addr + 0, size - 0);
      StartsLow(addr);
      hide Phys, Starts, Store, OnDisk, Reach, Valid, Saves, Unsaved;
      ghost var d := disk[..];
      StoreNothing(d, addr);
      assert src[..0] == [];
      var done := 0;
      while size > done
        invariant 0 <= done <= size && Valid() && (done > 0 ==> present) && (size > done ==> Starts(addr + done))
        invariant OnDisk(d, addr, done) && disk[..] == Store(d, addr, src[..done])
        invariant Unsaved(goal, transfers, cylinders, present, dmacyl, addr + done, size - done)
      {
        var next;
        ret, next := WritePart(addr, src, size, done, d, goal);
        if ret < 0 {
          if present { Stuck(d, addr, size, done); }
          return;
        }
        done := next;
      }
      Stuck(d, addr, size, size);
      UnsavedNone(goal, transfers, cylinders, present, dmacyl, addr + size);
      return 0;
    }
  }

  // ---- Transfers ----

  datatype Transfer = Transfer(dir: Dir, cyl: nat)

  /** What it takes to have cylinder `c` in a buffer that holds `tag`. */
  function Load(tag: nat, c: nat): seq<Transfer> { if c == tag then [] else [Transfer(Read, c)] }

  /** What a read transfers: every cylinder that it comes to, but for one that is in the buffer, up to one that is not on the disk. */
  function Loads(cylinders: nat, tag: nat, addr: nat, size: nat): seq<Transfer>
    decreases size
  {
    if size == 0 then []
    else
      var c, n := Cyl(addr), CYLINDER - Off(addr);
      if c >= cylinders && c != tag then [Transfer(Read, c)]
      else Load(tag, c) + if size <= n then [] else Loads(cylinders, c, addr + n, size - n)
  }

  /** All transfers of a read are those so far and those of the rest of it. */
  ghost predicate Remaining(goal: seq<Transfer>, now: seq<Transfer>, cylinders: nat, present: bool, tag: nat, addr: nat, size: nat) {
    goal == now + if present then Loads(cylinders, tag, addr, size) else []
  }

  lemma RemainingOn(goal: seq<Transfer>, was: seq<Transfer>, now: seq<Transfer>, cylinders: nat, tag: nat, addr: nat, size: nat, n: nat)
    requires Remaining(goal, was, cylinders, true, tag, addr, size) && Cyl(addr) < cylinders && 0 < n <= size
    requires Off(addr) + n <= CYLINDER && (n == size || n == CYLINDER - Off(addr)) && now == was + Load(tag, Cyl(addr))
    ensures Remaining(goal, now, cylinders, true, Cyl(addr), addr + n, size - n)
  {
    hide Cyl, Off, Load;
    var rest := Loads(cylinders, Cyl(addr), addr + n, size - n);
    assert Loads(cylinders, tag, addr, size) == Load(tag, Cyl(addr)) + rest;
    assert was + Load(tag, Cyl(addr)) + rest == was + (Load(tag, Cyl(addr)) + rest);
  }

  lemma RemainingStuck(goal: seq<Transfer>, was: seq<Transfer>, now: seq<Transfer>, cylinders: nat, present: bool, tag: nat, addr: nat, size: nat)
    requires Remaining(goal, was, cylinders, present, tag, addr, size) && size > 0 && (tag < cylinders || tag == NO_CYLINDER)
    requires now == was + (if present then Load(tag, Cyl(addr)) else []) && (present ==> Cyl(addr) >= cylinders)
    ensures goal == now
  {
    hide Off, Fold;
    assert Cyl(addr) != NO_CYLINDER;
  }

  lemma RemainingNone(goal: seq<Transfer>, now: seq<Transfer>, cylinders: nat, present: bool, tag: nat, addr: nat)
    requires Remaining(goal, now, cylinders, present, tag, addr, 0)
    ensures goal == now
  {
  }

  /** What a write transfers: every cylinder that it comes to, loaded as for a read and saved. */
  function Saves(cylinders: nat, tag: nat, addr: nat, size: nat): seq<Transfer>
    decreases size
  {
    if size == 0 then []
    else
      var c, n := Cyl(addr), CYLINDER - Off(addr);
      if c >= cylinders && c != tag then [Transfer(Read, c)]
      else Load(tag, c) + [Transfer(Write, c)] + if size <= n then [] else Saves(cylinders, c, addr + n, size - n)
  }

  ghost predicate Unsaved(goal: seq<Transfer>, now: seq<Transfer>, cylinders: nat, present: bool, tag: nat, addr: nat, size: nat) {
    goal == now + if present then Saves(cylinders, tag, addr, size) else []
  }

  lemma UnsavedOn(goal: seq<Transfer>, was: seq<Transfer>, now: seq<Transfer>, cylinders: nat, tag: nat, addr: nat, size: nat, n: nat)
    requires Unsaved(goal, was, cylinders, true, tag, addr, size) && Cyl(addr) < cylinders && 0 < n <= size
    requires Off(addr) + n <= CYLINDER && (n == size || n == CYLINDER - Off(addr))
    requires now == was + Load(tag, Cyl(addr)) + [Transfer(Write, Cyl(addr))]
    ensures Unsaved(goal, now, cylinders, true, Cyl(addr), addr + n, size - n)
  {
    hide Cyl, Off, Load;
    var more, rest := Load(tag, Cyl(addr)) + [Transfer(Write, Cyl(addr))], Saves(cylinders, Cyl(addr), addr + n, size - n);
    assert Saves(cylinders, tag, addr, size) == more + rest;
    assert was + more + rest == was + (more + rest) && now == was + more;
  }

  lemma UnsavedStuck(goal: seq<Transfer>, was: seq<Transfer>, now: seq<Transfer>, cylinders: nat, present: bool, tag: nat, addr: nat, size: nat)
    requires Unsaved(goal, was, cylinders, present, tag, addr, size) && size > 0 && (tag < cylinders || tag == NO_CYLINDER)
    requires now == was + (if present then Load(tag, Cyl(addr)) else []) + [] && (present ==> Cyl(addr) >= cylinders)
    ensures goal == now
  {
    hide Off, Fold;
    assert Cyl(addr) != NO_CYLINDER;
  }

  lemma UnsavedNone(goal: seq<Transfer>, now: seq<Transfer>, cylinders: nat, present: bool, tag: nat, addr: nat)
    requires Unsaved(goal, now, cylinders, present, tag, addr, 0)
    ensures goal == now
  {
  }

  /** Reading in the cylinder that is buffered transfers nothing. */
  lemma BufferedRead(cylinders: nat, addr: nat, size: nat)
    requires Off(addr) + size <= CYLINDER
    ensures Loads(cylinders, Cyl(addr), addr, size) == []
  {
  }

  lemma Extend(x: seq<Byte>, y: seq<Byte>, b: seq<Byte>)
    requires |x| + |y| <= |b|
    ensures Lay(Lay(b, 0, x), |x|, y) == Lay(b, 0, x + y)
  {
  }

  lemma Stuck(disk: seq<Byte>, addr: nat, size: nat, done: nat)
    requires OnDisk(disk, addr, done) && done <= size && (done < size ==> Phys(addr + done) >= |disk|)
    ensures Reach(disk, addr, size) == done
  {
    hide Phys, OnDisk;
    ReachSplit(disk, addr, size, done);
    ReachStuck(disk, addr + done, size - done);
  }

  /** `now` is `b` with the first `done` bytes of the request in front. */
  ghost predicate ReadSoFar(disk: seq<Byte>, addr: nat, done: nat, now: seq<Byte>, b: seq<Byte>) {
    OnDisk(disk, addr, done) && done <= |b| && now == Lay(b, 0, Fetch(disk, addr, done))
  }

  lemma NothingRead(disk: seq<Byte>, addr: nat, b: seq<Byte>)
    ensures ReadSoFar(disk, addr, 0, b, b)
  {
  }

  /** One more transfer of a read. */
  lemma ReadOn(disk: seq<Byte>, addr: nat, done: nat, n: nat, was: seq<Byte>, now: seq<Byte>, b: seq<Byte>)
    requires ReadSoFar(disk, addr, done, was, b) && OnDisk(disk, addr + done, n) && done + n <= |b|
    requires now == Lay(was, done, Fetch(disk, addr + done, n))
    ensures ReadSoFar(disk, addr, done + n, now, b)
  {
    hide Phys, Fetch, Lay;
    OnDiskJoin(disk, addr, done, n);
    hide OnDisk;
    FetchSplit(disk, addr, done, n);
    Extend(Fetch(disk, addr, done), Fetch(disk, addr + done, n), b);
  }

  /** A read ends at its end, or at the first byte that is off the disk. */
  lemma ReadEnds(disk: seq<Byte>, addr: nat, size: nat, done: nat, now: seq<Byte>, b: seq<Byte>, present: bool)
    requires ReadSoFar(disk, addr, done, now, b) && done <= size && (done > 0 ==> present)
    requires done < size && present ==> Phys(addr + done) >= |disk|
    ensures done == if present then Reach(disk, addr, size) else 0
  {
    hide Phys, Fetch, Lay, OnDisk, Reach;
    if present { Stuck(disk, addr, size, done); }
  }

  /** One more transfer of a write. */
  lemma WriteOn(disk: seq<Byte>, now: seq<Byte>, addr: nat, src: seq<Byte>, done: nat, n: nat)
    requires OnDisk(disk, addr, done) && |now| == |disk| && OnDisk(now, addr + done, n) && done + n <= |src|
    requires now == Store(disk, addr, src[..done])
    ensures OnDisk(disk, addr, done + n) && Store(disk, addr, src[..done + n]) == Store(now, addr + done, src[done..done + n])
  {
    hide Phys, Store;
    OnDiskSame(disk, now, addr + done, n);
    OnDiskJoin(disk, addr, done, n);
    assert src[..done] + src[done..done + n] == src[..done + n];
    StoreSplit(disk, addr, src[..done], src[done..done + n]);
  }

  lemma SubSlice(s: seq<Byte>, i: nat, j: nat, k: nat, l: nat)
    requires i <= j <= |s| && k <= l <= j - i
    ensures s[i..j][k..l] == s[i + k..i + l]
  {
    var t := s[i..j];
    forall q | k <= q < l ensures t[q] == s[i + q] {}
    assert t[k..l] == s[i + k..i + l];
  }

  lemma PhysParts(addr: nat)
    ensures Phys(addr) == Cyl(addr) * CYLINDER + Off(addr)
  {
  }

  lemma OnDiskJoin(disk: seq<Byte>, addr: nat, m: nat, n: nat)
    requires OnDisk(disk, addr, m) && OnDisk(disk, addr + m, n)
    ensures OnDisk(disk, addr, m + n)
  {
  }

  lemma OnDiskSame(disk: seq<Byte>, other: seq<Byte>, addr: nat, n: nat)
    requires |disk| == |other| && OnDisk(other, addr, n)
    ensures OnDisk(disk, addr, n)
  {
  }

  lemma ReachStuck(disk: seq<Byte>, addr: nat, size: nat)
    ensures size == 0 || Phys(addr) >= |disk| ==> Reach(disk, addr, size) == 0
  {
  }

  lemma StoreNothing(disk: seq<Byte>, addr: nat)
    ensures OnDisk(disk, addr, 0) && Store(disk, addr, []) == disk
  {
  }

  /** Editing a copy of a cylinder and writing it back edits the disk. */
  lemma EditedCylinder(disk: seq<Byte>, c: nat, offset: nat, b: seq<Byte>, src: seq<Byte>)
    requires c + CYLINDER <= |disk| && b == disk[c..c + CYLINDER] && offset + |src| <= CYLINDER
    ensures Lay(disk, c, Lay(b, offset, src)) == Lay(disk, c + offset, src)
  {
  }
}
