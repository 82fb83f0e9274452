/**
 The links of the bins, kept in the free chunks themselves: a chunk at `a` has the forward link at `a + 8` and the
 backward link at `a + 12`; the header of bin `k` has them in two tables.  Below HEAP a link names a header (0 is
 null); from there on, the chunk at that distance from HEAP.
 */
module MallocThreads {
  import opened MallocBins
  import opened MallocTiling
  import opened MallocLists

  const HEAP: nat := 1024

  function Ref(c: Chunk): nat { c.addr + HEAP }

  /** Memory, and the links of the headers. */
  datatype Links = Links(m: seq<nat>, first: seq<nat>, last: seq<nat>)

  /** A link that can be followed. */
  predicate Legal(t: Links, p: nat) {
    |t.first| == |t.last| == NBINS && (if p < HEAP then p < NBINS else p - HEAP + 12 < |t.m|)
  }

  function Fd(t: Links, p: nat): nat
    requires Legal(t, p)
  {
    if p < HEAP then t.first[p] else t.m[p - HEAP + 8]
  }

  function Bk(t: Links, p: nat): nat
    requires Legal(t, p)
  {
    if p < HEAP then t.last[p] else t.m[p - HEAP + 12]
  }

  function PutFd(t: Links, p: nat, x: nat): (u: Links)
    requires Legal(t, p)
  {
    if p < HEAP then t.(first := t.first[p := x]) else t.(m := t.m[p - HEAP + 8 := x])
  }

  function PutBk(t: Links, p: nat, x: nat): (u: Links)
    requires Legal(t, p)
  {
    if p < HEAP then t.(last := t.last[p := x]) else t.(m := t.m[p - HEAP + 12 := x])
  }

  /** Links that name the same thing, or things whose link words do not overlap. */
  predicate Separate(p: nat, q: nat) {
    p == q || p < HEAP || q < HEAP || p + 16 <= q || q + 16 <= p
  }

  lemma PutFdAt(t: Links, p: nat, x: nat, q: nat)
    requires Legal(t, p) && Legal(t, q) && Separate(p, q)
    ensures var u := PutFd(t, p, x); Legal(u, q) && Fd(u, q) == (if q == p then x else Fd(t, q)) && Bk(u, q) == Bk(t, q)
  {
  }

  lemma PutBkAt(t: Links, p: nat, x: nat, q: nat)
    requires Legal(t, p) && Legal(t, q) && Separate(p, q)
    ensures var u := PutBk(t, p, x); Legal(u, q) && Bk(u, q) == (if q == p then x else Bk(t, q)) && Fd(u, q) == Fd(t, q)
  {
  }

  // ---- One list ----

  /** The link to place `i` of the list of bin `k`; in front of the first place and behind the last is the header. */
  function Node(k: nat, s: seq<Chunk>, i: int): nat {
    if 0 <= i < |s| then Ref(s[i]) else k
  }

  ghost predicate Linkable(t: Links, k: nat, s: seq<Chunk>) {
    && |t.first| == |t.last| == NBINS && k < NBINS
    && (forall i | 0 <= i < |s| :: s[i].addr + 12 < |t.m|)
    && (forall i, j | 0 <= i < j < |s| :: Apart(s[i], s[j]))
  }

  predicate Apart(c: Chunk, d: Chunk) { c.addr + 16 <= d.addr || d.addr + 16 <= c.addr }

  /** Links run forward and backward through the list and back to the header. */
  ghost predicate Thread(t: Links, k: nat, s: seq<Chunk>)
    requires Linkable(t, k, s)
  {
    forall i | -1 <= i < |s| :: RunsOn(t, k, s, i) && RunsBack(t, k, s, i)
  }

  ghost predicate RunsOn(t: Links, k: nat, s: seq<Chunk>, i: int)
    requires Linkable(t, k, s)
  {
    Fd(t, Node(k, s, i)) == Node(k, s, i + 1)
  }

  ghost predicate RunsBack(t: Links, k: nat, s: seq<Chunk>, i: int)
    requires Linkable(t, k, s)
  {
    Bk(t, Node(k, s, i + 1)) == Node(k, s, i)
  }

  lemma NodesSeparate(t: Links, k: nat, s: seq<Chunk>, i: int, j: int)
    requires Linkable(t, k, s)
    ensures Legal(t, Node(k, s, i)) && Separate(Node(k, s, i), Node(k, s, j))
    ensures -1 <= i < |s| && -1 <= j < |s| && Node(k, s, i) == Node(k, s, j) ==> i == j
    ensures 0 <= i <= |s| && 0 <= j <= |s| && Node(k, s, i) == Node(k, s, j) ==> i == j
  {
    if 0 <= i < |s| && 0 <= j < |s| && i != j {
      if i < j { assert Apart(s[i], s[j]); } else { assert Apart(s[j], s[i]); }
    }
  }

  // ---- Taking out ----

  /** The two writes of an unlink. */
  function Unlinked(t: Links, fd: nat, bk: nat): (u: Links)
    requires Legal(t, fd) && Legal(t, bk)
  {
    PutFd(PutBk(t, fd, bk), bk, fd)
  }

  lemma UnlinkedAt(t: Links, fd: nat, bk: nat, q: nat)
    requires Legal(t, fd) && Legal(t, bk) && Legal(t, q) && Separate(fd, q) && Separate(bk, q) && Separate(fd, bk)
    ensures var u := Unlinked(t, fd, bk);
      && Legal(u, q)
      && Fd(u, q) == (if q == bk then fd else Fd(t, q)) && Bk(u, q) == (if q == fd then bk else Bk(t, q))
  {
    hide PutFd, PutBk, Fd, Bk;
    PutBkAt(t, fd, bk, q);
    PutBkAt(t, fd, bk, bk);
    PutFdAt(PutBk(t, fd, bk), bk, fd, q);
  }

  lemma DropNode(k: nat, s: seq<Chunk>, j: nat, i: int)
    requires j < |s|
    ensures Node(k, DropAt(s, j), i) == Node(k, s, if i < j then i else i + 1)
  {
  }

  lemma DropLinkable(t: Links, u: Links, k: nat, s: seq<Chunk>, j: nat)
    requires Linkable(t, k, s) && j < |s| && |u.m| == |t.m| && |u.first| == |u.last| == NBINS
    ensures Linkable(u, k, DropAt(s, j))
  {
    var r := DropAt(s, j);
    assert forall i | 0 <= i < |r| :: r[i] == if i < j then s[i] else s[i + 1];
  }

  /** Unlinking place `j` threads the list without it. */
  lemma UnlinkThread(t: Links, k: nat, s: seq<Chunk>, j: nat)
    requires Linkable(t, k, s) && Thread(t, k, s) && j < |s|
    ensures var p := Ref(s[j]);
      && Legal(t, p) && Fd(t, p) == Node(k, s, j + 1) && Bk(t, p) == Node(k, s, j - 1)
      && Legal(t, Fd(t, p)) && Legal(t, Bk(t, p))
      && var u := Unlinked(t, Fd(t, p), Bk(t, p)); Linkable(u, k, DropAt(s, j)) && Thread(u, k, DropAt(s, j))
  {
    hide Fd, Bk, Separate;
    assert Node(k, s, j) == Ref(s[j]);
    assert RunsOn(t, k, s, j) && RunsBack(t, k, s, j - 1);
    NodesSeparate(t, k, s, j, j);
    NodesSeparate(t, k, s, j + 1, j - 1);
    NodesSeparate(t, k, s, j - 1, j + 1);
    var fd, bk, r := Node(k, s, j + 1), Node(k, s, j - 1), DropAt(s, j);
    var u := Unlinked(t, fd, bk);
    UnlinkedSize(t, fd, bk);
    DropLinkable(t, u, k, s, j);
    hide Unlinked, Node, DropAt;
    forall i | -1 <= i < |r| ensures RunsOn(u, k, r, i) && RunsBack(u, k, r, i) {
      UnlinkPlace(t, k, s, j, i);
    }
  }

  lemma UnlinkedSize(t: Links, fd: nat, bk: nat)
    requires Legal(t, fd) && Legal(t, bk)
    ensures var u := Unlinked(t, fd, bk); |u.m| == |t.m| && |u.first| == |u.last| == NBINS
  {
  }

  lemma UnlinkPlace(t: Links, k: nat, s: seq<Chunk>, j: nat, i: int)
    requires Linkable(t, k, s) && Thread(t, k, s) && j < |s| && -1 <= i < |s| - 1
    requires Legal(t, Node(k, s, j + 1)) && Legal(t, Node(k, s, j - 1))
    requires Linkable(Unlinked(t, Node(k, s, j + 1), Node(k, s, j - 1)), k, DropAt(s, j))
    ensures var u := Unlinked(t, Node(k, s, j + 1), Node(k, s, j - 1));
      RunsOn(u, k, DropAt(s, j), i) && RunsBack(u, k, DropAt(s, j), i)
  {
    hide Fd, Bk, Unlinked, Separate, Node, DropAt;
    var fd, bk := Node(k, s, j + 1), Node(k, s, j - 1);
    var a, b := if i < j then i else i + 1, if i + 1 < j then i + 1 else i + 2;
    DropNode(k, s, j, i);
    DropNode(k, s, j, i + 1);
    NodesSeparate(t, k, s, j + 1, j - 1);
    NodesSeparate(t, k, s, j + 1, a);
    NodesSeparate(t, k, s, j - 1, a);
    NodesSeparate(t, k, s, j + 1, b);
    NodesSeparate(t, k, s, j - 1, b);
    NodesSeparate(t, k, s, a, a);
    NodesSeparate(t, k, s, b, b);
    UnlinkedAt(t, fd, bk, Node(k, s, a));
    UnlinkedAt(t, fd, bk, Node(k, s, b));
    if i != j - 1 {
      assert b == a + 1;
      assert RunsOn(t, k, s, a) && RunsBack(t, k, s, a);
    }
  }

  // ---- Putting in ----

  /** The four writes of an insertion between `bk` and `fd`. */
  function Inserted(t: Links, p: nat, bk: nat, fd: nat): (u: Links)
    requires Legal(t, p) && Legal(t, bk) && Legal(t, fd)
  {
    PutFd(PutBk(PutFd(PutBk(t, p, bk), p, fd), fd, p), bk, p)
  }

  lemma InsertedAt(t: Links, p: nat, bk: nat, fd: nat, q: nat)
    requires Legal(t, p) && Legal(t, bk) && Legal(t, fd) && Legal(t, q) && p != bk && p != fd
    requires Separate(p, bk) && Separate(p, fd) && Separate(p, q) && Separate(bk, q) && Separate(fd, q) && Separate(bk, fd)
    ensures var u := Inserted(t, p, bk, fd);
      && Legal(u, q) && |u.m| == |t.m| && |u.first| == |u.last| == NBINS
      && Fd(u, q) == (if q == bk then p else if q == p then fd else Fd(t, q))
      && Bk(u, q) == (if q == fd then p else if q == p then bk else Bk(t, q))
  {
    var t1 := PutBk(t, p, bk);
    var t2 := PutFd(t1, p, fd);
    var t3 := PutBk(t2, fd, p);
    PutSizes(t, p, bk);
    PutSizes(t1, p, fd);
    PutSizes(t2, fd, p);
    PutSizes(t3, bk, p);
    hide PutFd, PutBk, Fd, Bk;
    PutBkAt(t, p, bk, q);
    PutFdAt(t1, p, fd, q);
    PutBkAt(t2, fd, p, q);
    PutFdAt(t3, bk, p, q);
  }

  lemma PutSizes(t: Links, p: nat, x: nat)
    requires Legal(t, p)
    ensures var u := PutFd(t, p, x); |u.m| == |t.m| && |u.first| == |u.last| == NBINS
    ensures var u := PutBk(t, p, x); |u.m| == |t.m| && |u.first| == |u.last| == NBINS
  {
  }

  lemma InsertNode(k: nat, s: seq<Chunk>, j: nat, c: Chunk, i: int)
    requires j <= |s|
    ensures Node(k, InsertAt(s, j, c), i) == if i == j then Ref(c) else Node(k, s, if i < j then i else i - 1)
  {
  }

  /** The chunk `c` can be linked into the list. */
  ghost predicate CanJoin(t: Links, s: seq<Chunk>, c: Chunk) {
    c.addr + 12 < |t.m| && forall i | 0 <= i < |s| :: Apart(c, s[i])
  }

  lemma InsertLinkable(t: Links, u: Links, k: nat, s: seq<Chunk>, j: nat, c: Chunk)
    requires Linkable(t, k, s) && CanJoin(t, s, c) && j <= |s| && |u.m| == |t.m| && |u.first| == |u.last| == NBINS
    ensures Linkable(u, k, InsertAt(s, j, c))
  {
    var r := InsertAt(s, j, c);
    assert forall i | 0 <= i < |r| :: r[i] == if i < j then s[i] else if i == j then c else s[i - 1];
  }

  lemma FreshSeparate(t: Links, k: nat, s: seq<Chunk>, c: Chunk, i: int)
    requires Linkable(t, k, s) && CanJoin(t, s, c)
    ensures Legal(t, Ref(c)) && Separate(Ref(c), Node(k, s, i)) && Ref(c) != Node(k, s, i)
  {
    if 0 <= i < |s| { assert Apart(c, s[i]); }
  }

  /** Inserting at place `j` threads the list with it. */
  lemma InsertThread(t: Links, k: nat, s: seq<Chunk>, j: nat, c: Chunk)
    requires Linkable(t, k, s) && Thread(t, k, s) && j <= |s| && CanJoin(t, s, c)
    ensures Legal(t, Ref(c)) && Legal(t, Node(k, s, j - 1)) && Legal(t, Node(k, s, j))
    ensures var u := Inserted(t, Ref(c), Node(k, s, j - 1), Node(k, s, j)); Linkable(u, k, InsertAt(s, j, c)) && Thread(u, k, InsertAt(s, j, c))
  {
    hide Fd, Bk, Separate, Node, Inserted;
    NodesSeparate(t, k, s, j, j - 1);
    NodesSeparate(t, k, s, j - 1, j);
    FreshSeparate(t, k, s, c, j);
    FreshSeparate(t, k, s, c, j - 1);
    var p, bk, fd, r := Ref(c), Node(k, s, j - 1), Node(k, s, j), InsertAt(s, j, c);
    var u := Inserted(t, p, bk, fd);
    InsertReads(t, k, s, j, c, j);
    InsertLinkable(t, u, k, s, j, c);
    hide InsertAt;
    forall i | -1 <= i < |r| ensures RunsOn(u, k, r, i) && RunsBack(u, k, r, i) {
      InsertPlace(t, k, s, j, c, i);
    }
  }

  lemma NodesSelf(p: nat)
    ensures Separate(p, p)
  {
  }

  lemma InsertPlace(t: Links, k: nat, s: seq<Chunk>, j: nat, c: Chunk, i: int)
    requires Linkable(t, k, s) && Thread(t, k, s) && j <= |s| && CanJoin(t, s, c) && -1 <= i <= |s|
    requires Legal(t, Ref(c)) && Legal(t, Node(k, s, j - 1)) && Legal(t, Node(k, s, j))
    requires Linkable(Inserted(t, Ref(c), Node(k, s, j - 1), Node(k, s, j)), k, InsertAt(s, j, c))
    ensures var u := Inserted(t, Ref(c), Node(k, s, j - 1), Node(k, s, j));
      RunsOn(u, k, InsertAt(s, j, c), i) && RunsBack(u, k, InsertAt(s, j, c), i)
  {
    hide Fd, Bk, Inserted, Separate, Node, InsertAt;
    var a, b := if i < j then i else i - 1, if i + 1 < j then i + 1 else i;
    InsertNode(k, s, j, c, i);
    InsertNode(k, s, j, c, i + 1);
    InsertReads(t, k, s, j, c, a);
    InsertReads(t, k, s, j, c, b);
    if i < j - 1 {
      assert RunsOn(t, k, s, a) && RunsBack(t, k, s, a) && b == a + 1;
    } else if i > j {
      assert RunsOn(t, k, s, a) && RunsBack(t, k, s, a) && b == a + 1;
    }
  }

  /** What the links of the list read after an insertion. */
  lemma InsertReads(t: Links, k: nat, s: seq<Chunk>, j: nat, c: Chunk, a: int)
    requires Linkable(t, k, s) && j <= |s| && CanJoin(t, s, c) && -1 <= a <= |s|
    requires Legal(t, Ref(c)) && Legal(t, Node(k, s, j - 1)) && Legal(t, Node(k, s, j))
    ensures var p := Ref(c); var u, q := Inserted(t, p, Node(k, s, j - 1), Node(k, s, j)), Node(k, s, a);
      && Legal(t, q) && Legal(u, q) && Legal(u, p) && |u.m| == |t.m| && |u.first| == |u.last| == NBINS
      && Fd(u, p) == Node(k, s, j) && Bk(u, p) == Node(k, s, j - 1)
      && (a < |s| ==> Fd(u, q) == if a == j - 1 then p else Fd(t, q))
      && (a >= 0 ==> Bk(u, q) == if a == j then p else Bk(t, q))
  {
    hide Fd, Bk, Inserted, Separate, Node;
    var p, bk, fd, q := Ref(c), Node(k, s, j - 1), Node(k, s, j), Node(k, s, a);
    NodesSelf(p);
    NodesSeparate(t, k, s, j - 1, j);
    NodesSeparate(t, k, s, j - 1, a);
    NodesSeparate(t, k, s, j, a);
    NodesSeparate(t, k, s, a, a);
    FreshSeparate(t, k, s, c, j);
    FreshSeparate(t, k, s, c, j - 1);
    FreshSeparate(t, k, s, c, a);
    SeparateBack(p, bk);
    SeparateBack(p, fd);
    InsertedAt(t, p, bk, fd, q);
    InsertedAt(t, p, bk, fd, p);
  }

  lemma SeparateBack(p: nat, q: nat)
    ensures Separate(p, q) <==> Separate(q, p)
  {
  }

  // ---- All bins ----

  /** Chunks far enough from one another for their links, and inside memory. */
  ghost predicate Spaced(free: set<Chunk>, n: nat) {
    (forall c | c in free :: c.addr + 12 < n) && (forall c, d | c in free && d in free && c != d :: Apart(c, d))
  }

  ghost predicate Threaded(t: Links, bins: seq<seq<Chunk>>, k: nat)
    requires k < |bins|
  {
    Linkable(t, k, bins[k]) && Thread(t, k, bins[k])
  }

  ghost predicate Threads(t: Links, bins: seq<seq<Chunk>>) {
    |bins| == NBINS && |t.first| == |t.last| == NBINS && forall k | 1 <= k < NBINS :: Threaded(t, bins, k)
  }

  /** No chunk is in two bins, nor twice in one. */
  lemma OneBin(free: set<Chunk>, bins: seq<seq<Chunk>>, k: nat, i: nat, l: nat, j: nat)
    requires BinsOk(free, bins) && k < NBINS && l < NBINS && i < |bins[k]| && j < |bins[l]| && (k != l || i != j)
    ensures bins[k][i] != bins[l][j] && bins[k][i] in free && bins[l][j] in free
  {
    assert BinOk(free, bins, k) && BinOk(free, bins, l) && BinOk(free, bins, UNSORTED);
    assert bins[k][i] in bins[k] && bins[l][j] in bins[l];
    if k == l { assert i < j ==> bins[k][i] != bins[k][j]; assert j < i ==> bins[k][j] != bins[k][i]; }
  }

  /** A list is threaded in `u` if its header and its chunks have the links they had in `t`. */
  ghost predicate SameLinks(t: Links, u: Links, k: nat, s: seq<Chunk>) {
    && |u.m| == |t.m| && |u.first| == |u.last| == |t.first| == |t.last| == NBINS && k < NBINS
    && (forall i :: Legal(t, Node(k, s, i)) ==> SameLink(t, u, Node(k, s, i)))
  }

  ghost predicate SameLink(t: Links, u: Links, p: nat)
    requires Legal(t, p)
  {
    Legal(u, p) && Fd(u, p) == Fd(t, p) && Bk(u, p) == Bk(t, p)
  }

  lemma ThreadedSame(t: Links, u: Links, bins: seq<seq<Chunk>>, k: nat)
    requires k < |bins| && Threaded(t, bins, k) && SameLinks(t, u, k, bins[k])
    ensures Threaded(u, bins, k)
  {
    hide Fd, Bk, Node;
    var s := bins[k];
    assert Linkable(u, k, s);
    forall i | -1 <= i < |s| ensures RunsOn(u, k, s, i) && RunsBack(u, k, s, i) {
      NodesSeparate(t, k, s, i, i);
      NodesSeparate(t, k, s, i + 1, i + 1);
      assert RunsOn(t, k, s, i) && RunsBack(t, k, s, i);
      assert SameLink(t, u, Node(k, s, i)) && SameLink(t, u, Node(k, s, i + 1));
    }
  }

  /** Links of different bins are separate. */
  lemma BinsSeparate(free: set<Chunk>, bins: seq<seq<Chunk>>, n: nat, k: nat, i: int, l: nat, j: int)
    requires BinsOk(free, bins) && Spaced(free, n) && k < NBINS && l < NBINS && k != l
    ensures Separate(Node(k, bins[k], i), Node(l, bins[l], j)) && Node(k, bins[k], i) != Node(l, bins[l], j)
  {
    if 0 <= i < |bins[k]| && 0 <= j < |bins[l]| {
      OneBin(free, bins, k, i, l, j);
      assert Apart(bins[k][i], bins[l][j]);
    }
  }

  lemma OtherUnlinked(t: Links, free: set<Chunk>, bins: seq<seq<Chunk>>, k: nat, j: int, l: nat)
    requires BinsOk(free, bins) && Spaced(free, |t.m|) && Threads(t, bins) && 1 <= k < NBINS && 1 <= l < NBINS && k != l
    requires Legal(t, Node(k, bins[k], j + 1)) && Legal(t, Node(k, bins[k], j - 1))
    ensures Threaded(Unlinked(t, Node(k, bins[k], j + 1), Node(k, bins[k], j - 1)), bins, l)
  {
    assert Threaded(t, bins, k) && Threaded(t, bins, l);
    hide BinsOk, Fd, Bk, Node, Separate, Unlinked, Threads, Thread, Linkable, Spaced;
    var fd, bk := Node(k, bins[k], j + 1), Node(k, bins[k], j - 1);
    var u := Unlinked(t, fd, bk);
    UnlinkedSize(t, fd, bk);
    NodesSeparate(t, k, bins[k], j + 1, j - 1);
    forall i | Legal(t, Node(l, bins[l], i)) ensures SameLink(t, u, Node(l, bins[l], i)) {
      BinsSeparate(free, bins, |t.m|, k, j + 1, l, i);
      BinsSeparate(free, bins, |t.m|, k, j - 1, l, i);
      UnlinkedAt(t, fd, bk, Node(l, bins[l], i));
    }
    ThreadedSame(t, u, bins, l);
  }

  /** Unlinking a chunk leaves every bin threaded, its own without it. */
  lemma UnlinkBins(t: Links, free: set<Chunk>, bins: seq<seq<Chunk>>, k: nat, j: nat)
    requires BinsOk(free, bins) && Spaced(free, |t.m|) && Threads(t, bins) && 1 <= k < NBINS && j < |bins[k]|
    ensures var p := Ref(bins[k][j]);
      && Legal(t, p) && Fd(t, p) == Node(k, bins[k], j + 1) && Bk(t, p) == Node(k, bins[k], j - 1)
      && Legal(t, Fd(t, p)) && Legal(t, Bk(t, p))
      && Threads(Unlinked(t, Fd(t, p), Bk(t, p)), bins[k := DropAt(bins[k], j)])
  {
    assert Threaded(t, bins, k);
    hide BinsOk, Fd, Bk, Separate, Unlinked, Thread, Linkable, Spaced, DropAt;
    UnlinkThread(t, k, bins[k], j);
    var u, r := Unlinked(t, Node(k, bins[k], j + 1), Node(k, bins[k], j - 1)), bins[k := DropAt(bins[k], j)];
    UnlinkedSize(t, Node(k, bins[k], j + 1), Node(k, bins[k], j - 1));
    hide Node;
    forall l | 1 <= l < NBINS ensures Threaded(u, r, l) {
      if l != k { OtherUnlinked(t, free, bins, k, j, l); }
    }
  }

  lemma OtherInserted(t: Links, free: set<Chunk>, bins: seq<seq<Chunk>>, k: nat, j: nat, c: Chunk, l: nat)
    requires BinsOk(free, bins) && Spaced(free + {c}, |t.m|) && c !in free && Threads(t, bins) && 1 <= k < NBINS && 1 <= l < NBINS && k != l
    requires Legal(t, Ref(c)) && Legal(t, Node(k, bins[k], j - 1)) && Legal(t, Node(k, bins[k], j)) && j <= |bins[k]|
    ensures Threaded(Inserted(t, Ref(c), Node(k, bins[k], j - 1), Node(k, bins[k], j)), bins, l)
  {
    assert Threaded(t, bins, k) && Threaded(t, bins, l);
    BinFresh(t, free, bins, k, c);
    BinFresh(t, free, bins, l, c);
    assert Spaced(free, |t.m|);
    hide BinsOk, Fd, Bk, Node, Separate, Inserted, Threads, Thread, Linkable, Spaced, CanJoin;
    var p, bk, fd := Ref(c), Node(k, bins[k], j - 1), Node(k, bins[k], j);
    var u := Inserted(t, p, bk, fd);
    InsertReads(t, k, bins[k], j, c, j);
    NodesSeparate(t, k, bins[k], j - 1, j);
    FreshSeparate(t, k, bins[k], c, j);
    FreshSeparate(t, k, bins[k], c, j - 1);
    forall i | Legal(t, Node(l, bins[l], i)) ensures SameLink(t, u, Node(l, bins[l], i)) {
      BinsSeparate(free, bins, |t.m|, k, j, l, i);
      BinsSeparate(free, bins, |t.m|, k, j - 1, l, i);
      FreshSeparate(t, l, bins[l], c, i);
      InsertedAt(t, p, bk, fd, Node(l, bins[l], i));
    }
    ThreadedSame(t, u, bins, l);
  }

  lemma BinFresh(t: Links, free: set<Chunk>, bins: seq<seq<Chunk>>, k: nat, c: Chunk)
    requires BinsOk(free, bins) && Spaced(free + {c}, |t.m|) && c !in free && k < NBINS
    ensures CanJoin(t, bins[k], c)
  {
    assert BinOk(free, bins, k);
    forall i | 0 <= i < |bins[k]| ensures Apart(c, bins[k][i]) {
      assert bins[k][i] in bins[k];
    }
  }

  /** Inserting a chunk leaves every bin threaded, its own with it. */
  lemma InsertBins(t: Links, free: set<Chunk>, bins: seq<seq<Chunk>>, k: nat, j: nat, c: Chunk)
    requires BinsOk(free, bins) && Spaced(free + {c}, |t.m|) && c !in free && Threads(t, bins) && 1 <= k < NBINS && j <= |bins[k]|
    ensures Legal(t, Ref(c)) && Legal(t, Node(k, bins[k], j - 1)) && Legal(t, Node(k, bins[k], j))
    ensures Threads(Inserted(t, Ref(c), Node(k, bins[k], j - 1), Node(k, bins[k], j)), bins[k := InsertAt(bins[k], j, c)])
  {
    assert Threaded(t, bins, k);
    BinFresh(t, free, bins, k, c);
    hide BinsOk, Fd, Bk, Separate, Inserted, Thread, Linkable, Spaced, InsertAt, Node, CanJoin;
    InsertThread(t, k, bins[k], j, c);
    InsertReads(t, k, bins[k], j, c, j);
    var u, r := Inserted(t, Ref(c), Node(k, bins[k], j - 1), Node(k, bins[k], j)), bins[k := InsertAt(bins[k], j, c)];
    forall l | 1 <= l < NBINS ensures Threaded(u, r, l) {
      if l != k { OtherInserted(t, free, bins, k, j, c, l); }
    }
  }

  /** Memory may change anywhere but in the links. */
  lemma MemoryBins(t: Links, w: seq<nat>, free: set<Chunk>, bins: seq<seq<Chunk>>)
    requires BinsOk(free, bins) && Threads(t, bins) && |w| == |t.m|
    requires forall c | c in free :: c.addr + 12 < |w| ==> w[c.addr + 8] == t.m[c.addr + 8] && w[c.addr + 12] == t.m[c.addr + 12]
    ensures Threads(t.(m := w), bins)
  {
    var u := t.(m := w);
    forall k | 1 <= k < NBINS ensures Threaded(u, bins, k) {
      assert BinOk(free, bins, k) && Threaded(t, bins, k);
      forall i | Legal(t, Node(k, bins[k], i)) ensures SameLink(t, u, Node(k, bins[k], i)) {
        if 0 <= i < |bins[k]| { assert bins[k][i] in bins[k]; }
      }
      ThreadedSame(t, u, bins, k);
    }
  }

  /** What the header of a bin says of its list. */
  lemma HeaderReads(t: Links, bins: seq<seq<Chunk>>, k: nat)
    requires Threads(t, bins) && 1 <= k < NBINS
    ensures |t.first| == |t.last| == |bins| == NBINS
    ensures t.first[k] == Node(k, bins[k], 0) && t.last[k] == Node(k, bins[k], |bins[k]| - 1)
    ensures t.last[k] == k <==> bins[k] == []
    ensures bins[k] != [] ==> t.last[k] == Ref(bins[k][|bins[k]| - 1]) && t.first[k] == Ref(bins[k][0])
  {
    var s := bins[k];
    assert Threaded(t, bins, k);
    assert RunsOn(t, k, s, -1) && RunsBack(t, k, s, |s| - 1);
    assert Node(k, s, -1) == k && Node(k, s, |s|) == k;
  }

  /** What the links of a chunk say. */
  lemma NodeReads(t: Links, bins: seq<seq<Chunk>>, k: nat, j: nat)
    requires Threads(t, bins) && 1 <= k < NBINS && j < |bins[k]|
    ensures bins[k][j].addr + 12 < |t.m|
    ensures t.m[bins[k][j].addr + 8] == Node(k, bins[k], j + 1) && t.m[bins[k][j].addr + 12] == Node(k, bins[k], j - 1)
  {
    var s := bins[k];
    assert Threaded(t, bins, k);
    assert RunsOn(t, k, s, j) && RunsBack(t, k, s, j - 1);
    assert Node(k, s, j) == Ref(s[j]);
  }

  lemma EmptyThreads(t: Links, bins: seq<seq<Chunk>>)
    requires |bins| == NBINS && |t.first| == |t.last| == NBINS
    requires forall k | 0 <= k < NBINS :: bins[k] == [] && t.first[k] == k && t.last[k] == k
    ensures Threads(t, bins)
  {
    forall k | 1 <= k < NBINS ensures Threaded(t, bins, k) {
      assert Linkable(t, k, bins[k]);
    }
  }

  // ---- Fast bins ----

  /** The link to place `i` of a fast bin, null behind the last. */
  function FastNode(s: seq<Chunk>, i: nat): nat {
    if i < |s| then Ref(s[i]) else 0
  }

  ghost predicate Chained(m: seq<nat>, head: nat, s: seq<Chunk>) {
    && head == FastNode(s, 0)
    && (forall j | 0 <= j < |s| :: LeadsTo(m, s, j))
  }

  ghost predicate LeadsTo(m: seq<nat>, s: seq<Chunk>, j: nat)
    requires j < |s|
  {
    s[j].addr + 12 < |m| && m[s[j].addr + 8] == FastNode(s, j + 1)
  }

  ghost predicate Chains(m: seq<nat>, heads: seq<nat>, fb: seq<seq<Chunk>>) {
    |heads| == |fb| == NFASTBINS && forall k | 0 <= k < NFASTBINS :: Chained(m, heads[k], fb[k])
  }

  /** Taking the first chunk off. */
  lemma PopChain(m: seq<nat>, heads: seq<nat>, fb: seq<seq<Chunk>>, k: nat)
    requires Chains(m, heads, fb) && k < NFASTBINS && fb[k] != []
    ensures var a := fb[k][0].addr; heads[k] == a + HEAP && a + 12 < |m| && Chains(m, heads[k := m[a + 8]], fb[k := fb[k][1..]])
  {
    var s := fb[k];
    assert Chained(m, heads[k], s) && LeadsTo(m, s, 0);
    var a := s[0].addr;
    forall j | 0 <= j < |s[1..]| ensures LeadsTo(m, s[1..], j) { assert LeadsTo(m, s, j + 1); }
    var r, h := fb[k := s[1..]], heads[k := m[a + 8]];
    forall l | 0 <= l < NFASTBINS ensures Chained(m, h[l], r[l]) { assert Chained(m, heads[l], fb[l]); }
  }

  lemma HeadReads(m: seq<nat>, heads: seq<nat>, fb: seq<seq<Chunk>>, k: nat)
    requires Chains(m, heads, fb) && k < NFASTBINS
    ensures |heads| == |fb| == NFASTBINS && (heads[k] == 0 <==> fb[k] == [])
    ensures fb[k] != [] ==> heads[k] == Ref(fb[k][0])
  {
    assert Chained(m, heads[k], fb[k]);
  }

  /** Memory may change anywhere but in the links. */
  lemma MemoryChains(m: seq<nat>, w: seq<nat>, heads: seq<nat>, fast: set<Chunk>, fb: seq<seq<Chunk>>)
    requires FastOk(fast, fb) && Chains(m, heads, fb) && |w| == |m|
    requires forall c | c in fast :: c.addr + 12 < |w| ==> w[c.addr + 8] == m[c.addr + 8]
    ensures Chains(w, heads, fb)
  {
    forall k | 0 <= k < NFASTBINS ensures Chained(w, heads[k], fb[k]) {
      assert FastBinOk(fast, fb, k) && Chained(m, heads[k], fb[k]);
      forall j | 0 <= j < |fb[k]| ensures LeadsTo(w, fb[k], j) {
        assert LeadsTo(m, fb[k], j) && fb[k][j] in fb[k];
      }
    }
  }

  /** Pushing a chunk whose forward link has been set to the head. */
  lemma PushChain(m: seq<nat>, heads: seq<nat>, fb: seq<seq<Chunk>>, k: nat, c: Chunk)
    requires Chains(m, heads, fb) && k < NFASTBINS && c.addr + 12 < |m| && m[c.addr + 8] == heads[k]
    ensures Chains(m, heads[k := Ref(c)], fb[k := [c] + fb[k]])
  {
    var s := [c] + fb[k];
    assert Chained(m, heads[k], fb[k]);
    forall j | 0 <= j < |s| ensures LeadsTo(m, s, j) {
      if j > 0 { assert LeadsTo(m, fb[k], j - 1); }
    }
    var h, r := heads[k := Ref(c)], fb[k := s];
    forall l | 0 <= l < NFASTBINS ensures Chained(m, h[l], r[l]) { assert Chained(m, heads[l], fb[l]); }
  }
}
