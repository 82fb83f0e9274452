/** The bins: which lists the free chunks are kept in, and in what order. */
module MallocLists {
  import opened Arithmetic
  import opened MallocBins
  import opened MallocTiling

  const NFASTBINS: nat := 10
  const UNSORTED: nat := 1

  ghost predicate NoDup(s: seq<Chunk>) {
    forall i, j | 0 <= i < j < |s| :: s[i] != s[j]
  }

  /** Largest first. */
  ghost predicate Descending(s: seq<Chunk>) {
    forall i, j | 0 <= i < j < |s| :: s[i].size >= s[j].size
  }

  function DropAt(s: seq<Chunk>, j: nat): (r: seq<Chunk>)
    requires j < |s|
    ensures |r| == |s| - 1
  {
    s[..j] + s[j + 1..]
  }

  function InsertAt(s: seq<Chunk>, j: nat, c: Chunk): (r: seq<Chunk>)
    requires j <= |s|
    ensures |r| == |s| + 1
  {
    s[..j] + [c] + s[j..]
  }

  lemma DropKeeps(s: seq<Chunk>, j: nat)
    requires j < |s| && NoDup(s)
    ensures NoDup(DropAt(s, j)) && (Descending(s) ==> Descending(DropAt(s, j)))
    ensures forall c :: c in DropAt(s, j) <==> c in s && c != s[j]
  {
    var r := DropAt(s, j);
    assert forall i | 0 <= i < |r| :: r[i] == if i < j then s[i] else s[i + 1];
    forall c ensures c in r <==> c in s && c != s[j] {
      if c in s && c != s[j] {
        var k :| 0 <= k < |s| && s[k] == c;
        assert r[if k < j then k else k - 1] == c;
      }
    }
  }

  /** The new chunk goes behind the larger ones and in front of the smaller ones. */
  ghost predicate FitsAt(s: seq<Chunk>, j: nat, n: nat)
    requires j <= |s|
  {
    (forall i | 0 <= i < j :: s[i].size >= n) && (forall i | j <= i < |s| :: n >= s[i].size)
  }

  lemma InsertKeeps(s: seq<Chunk>, j: nat, c: Chunk)
    requires j <= |s| && NoDup(s) && c !in s
    ensures NoDup(InsertAt(s, j, c)) && (Descending(s) && FitsAt(s, j, c.size) ==> Descending(InsertAt(s, j, c)))
    ensures forall d :: d in InsertAt(s, j, c) <==> d in s || d == c
  {
    var r := InsertAt(s, j, c);
    assert forall i | 0 <= i < |r| :: r[i] == if i < j then s[i] else if i == j then c else s[i - 1];
    assert r[j] == c;
    forall d | d in s ensures d in r {
      var k :| 0 <= k < |s| && s[k] == d;
      assert r[if k < j then k else k + 1] == d;
    }
  }

  // ---- Bins ----

  /** Bin 1 holds chunks not yet sorted; the others hold the sizes of their number, the large ones in order. */
  ghost predicate BinOk(free: set<Chunk>, bins: seq<seq<Chunk>>, k: nat)
    requires k < |bins| && 1 < |bins|
  {
    && NoDup(bins[k]) && (k == 0 ==> bins[k] == [])
    && (forall c | c in bins[k] :: c in free && (k >= 2 ==> BinNumber(c.size) == k && c !in bins[UNSORTED]))
    && (k >= NSMALLBINS ==> Descending(bins[k]))
  }

  function BinNumber(n: nat): (k: nat)
    ensures k < NBINS
  {
    if n < MINSIZE then 0 else
      BinIndexMonotone(n, n);
      BinIndex(n)
  }

  ghost predicate BinsOk(free: set<Chunk>, bins: seq<seq<Chunk>>) {
    && |bins| == NBINS
    && (forall k | 0 <= k < NBINS :: BinOk(free, bins, k))
    && (forall c | c in free :: c.size >= MINSIZE && (c in bins[UNSORTED] || c in bins[BinNumber(c.size)]))
  }

  /** A chunk is taken out of its list. */
  lemma TakeOut(free: set<Chunk>, bins: seq<seq<Chunk>>, k: nat, j: nat)
    requires BinsOk(free, bins) && k < NBINS && j < |bins[k]|
    ensures bins[k][j] in free && BinsOk(free - {bins[k][j]}, bins[k := DropAt(bins[k], j)])
  {
    var c, r := bins[k][j], bins[k := DropAt(bins[k], j)];
    assert BinOk(free, bins, k) && BinOk(free, bins, UNSORTED);
    hide BinNumber, DropAt, NoDup, Descending;
    DropKeeps(bins[k], j);
    forall q | 0 <= q < NBINS ensures BinOk(free - {c}, r, q) {
      assert BinOk(free, bins, q);
      forall d | d in r[q] ensures d in free - {c} && (q >= 2 ==> BinNumber(d.size) == q && d !in r[UNSORTED]) {
        assert d in bins[q];
      }
    }
  }

  lemma PutIn(free: set<Chunk>, bins: seq<seq<Chunk>>, k: nat, j: nat, c: Chunk)
    requires BinsOk(free, bins) && c !in free && c.size >= MINSIZE && k < NBINS && j <= |bins[k]|
    requires k == UNSORTED || (k == BinNumber(c.size) && (k >= NSMALLBINS ==> FitsAt(bins[k], j, c.size)))
    ensures BinsOk(free + {c}, bins[k := InsertAt(bins[k], j, c)])
  {
    var r := bins[k := InsertAt(bins[k], j, c)];
    assert BinOk(free, bins, k) && BinOk(free, bins, UNSORTED);
    assert k >= 1 by { NumberPositive(c.size); }
    hide BinNumber, InsertAt, NoDup, Descending, FitsAt;
    InsertKeeps(bins[k], j, c);
    forall q | 0 <= q < NBINS ensures BinOk(free + {c}, r, q) {
      assert BinOk(free, bins, q);
      forall d | d in r[q] ensures d in free + {c} && (q >= 2 ==> BinNumber(d.size) == q && d !in r[UNSORTED]) {
      }
    }
  }

  lemma NumberPositive(n: nat)
    requires n >= MINSIZE
    ensures 2 <= BinNumber(n) == BinIndex(n)
  {
    BinIndexMonotone(n, n);
  }

  // ---- Fast bins ----

  ghost predicate FastOk(fast: set<Chunk>, fb: seq<seq<Chunk>>) {
    && |fb| == NFASTBINS
    && (forall k | 0 <= k < NFASTBINS :: FastBinOk(fast, fb, k))
    && (forall c | c in fast :: MINSIZE <= c.size < 80 && c in fb[FastbinIndex(c.size)])
  }

  ghost predicate FastBinOk(fast: set<Chunk>, fb: seq<seq<Chunk>>, k: nat)
    requires k < |fb|
  {
    NoDup(fb[k]) && forall c | c in fb[k] :: c in fast && c.size >= MINSIZE && FastbinIndex(c.size) == k
  }

  lemma FastPop(fast: set<Chunk>, fb: seq<seq<Chunk>>, k: nat)
    requires FastOk(fast, fb) && k < NFASTBINS && fb[k] != []
    ensures fb[k][0] in fast && FastOk(fast - {fb[k][0]}, fb[k := fb[k][1..]])
  {
    var c, r := fb[k][0], fb[k := fb[k][1..]];
    assert FastBinOk(fast, fb, k);
    forall q | 0 <= q < NFASTBINS ensures FastBinOk(fast - {c}, r, q) {
      assert FastBinOk(fast, fb, q);
    }
  }

  lemma FastPush(fast: set<Chunk>, fb: seq<seq<Chunk>>, c: Chunk)
    requires FastOk(fast, fb) && c !in fast && MINSIZE <= c.size < 80
    ensures var k := FastbinIndex(c.size); FastOk(fast + {c}, fb[k := [c] + fb[k]])
  {
    var k := FastbinIndex(c.size);
    var r := fb[k := [c] + fb[k]];
    assert FastBinOk(fast, fb, k);
    forall q | 0 <= q < NFASTBINS ensures FastBinOk(fast + {c}, r, q) {
      assert FastBinOk(fast, fb, q);
    }
  }

  // ---- The bin map ----

  /** A bin that holds something has its bit set; the word behind the last is zero. */
  ghost predicate MapOk(bins: seq<seq<Chunk>>, binmap: seq<nat>) {
    && |bins| == NBINS && |binmap| == BINMAPSIZE + 1 && binmap[BINMAPSIZE] == 0
    && (forall b | 0 <= b < |binmap| :: binmap[b] < Pow2(BITSPERMAP))
    && (forall k | 2 <= k < NBINS && bins[k] != [] :: Marked(binmap, k))
  }

  predicate Marked(binmap: seq<nat>, k: nat)
    requires |binmap| == BINMAPSIZE + 1 && k < NBINS
  {
    Bit(binmap[k / BITSPERMAP], k % BITSPERMAP)
  }

  function MarkBin(binmap: seq<nat>, k: nat): (r: seq<nat>)
    requires |binmap| == BINMAPSIZE + 1 && k < NBINS
    ensures |r| == |binmap|
  {
    binmap[k / BITSPERMAP := Mark(binmap[k / BITSPERMAP], k % BITSPERMAP)]
  }

  function UnmarkBin(binmap: seq<nat>, k: nat): (r: seq<nat>)
    requires |binmap| == BINMAPSIZE + 1 && k < NBINS
    ensures |r| == |binmap|
  {
    binmap[k / BITSPERMAP := Unmark(binmap[k / BITSPERMAP], k % BITSPERMAP)]
  }

  lemma MarkedAfter(binmap: seq<nat>, k: nat, q: nat)
    requires |binmap| == BINMAPSIZE + 1 && k < NBINS && q < NBINS
    ensures Marked(MarkBin(binmap, k), q) <==> q == k || Marked(binmap, q)
    ensures Marked(UnmarkBin(binmap, k), q) <==> q != k && Marked(binmap, q)
  {
    MarkBit(binmap[k / BITSPERMAP], k % BITSPERMAP, q % BITSPERMAP);
  }

  /** Emptying a bin, or filling one whose bit is set, keeps the map sound. */
  lemma MapChange(bins: seq<seq<Chunk>>, binmap: seq<nat>, k: nat, s: seq<Chunk>)
    requires MapOk(bins, binmap) && k < NBINS
    ensures s == [] || bins[k] != [] || k < 2 ==> MapOk(bins[k := s], binmap)
    ensures MapOk(bins[k := s], MarkBin(binmap, k))
    ensures bins[k] == [] ==> MapOk(bins, UnmarkBin(binmap, k))
  {
    hide Mark, Unmark, Bit, Pow2, Marked;
    MarkSize(binmap[k / BITSPERMAP], k % BITSPERMAP, BITSPERMAP);
    forall q | 2 <= q < NBINS && bins[k := s][q] != [] ensures Marked(MarkBin(binmap, k), q) {
      MarkedAfter(binmap, k, q);
    }
    forall q | 2 <= q < NBINS && bins[q] != [] ensures bins[k] == [] ==> Marked(UnmarkBin(binmap, k), q) {
      MarkedAfter(binmap, k, q);
    }
  }
}
