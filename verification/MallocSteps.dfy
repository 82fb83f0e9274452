/**
 What the steps of the allocator do to the arena, the bins and their links.  Many lemmas here are small on purpose:
 the methods of the allocator hide the definitions, and get from a lemma just the fact they need.
 */
module MallocSteps {
  import opened Arithmetic
  import opened MallocBins
  import opened MallocTiling
  import opened MallocMoves
  import opened MallocLists
  import opened MallocThreads
  import opened MallocLayout

  const PAGE: nat := 4096
  const MXFAST: nat := 72
  const CONSOLIDATE: nat := 131072

  /** Sets of chunks of one kind after cs[f..j], the chunk `i` with its free neighbours, has been joined into `x`. */
  lemma JoinedKinds(m: seq<nat>, w: seq<nat>, cs: seq<Chunk>, brk: nat, f: nat, i: nat, j: nat, x: Chunk, r: seq<Chunk>)
    requires Tiled(m, cs, brk) && Moved(m, w, cs, r, brk, f, j, [x]) && f <= i < j <= i + 2 && i <= f + 1 && j <= |cs|
    requires cs[i].kind == Live || cs[i].kind == Fast
    requires f < i ==> cs[f].kind == Free
    requires i + 1 < j ==> cs[i + 1].kind == Free || cs[i + 1].kind == Top
    requires x.kind == Free || x.kind == Top
    ensures OfKind(r, Live) == OfKind(cs, Live) - {cs[i]} && OfKind(r, Fast) == OfKind(cs, Fast) - {cs[i]}
    ensures OfKind(r, Free) == OfKind(cs, Free) - {cs[f], cs[j - 1]} + (if x.kind == Free then {x} else {})
    ensures Kept(OfKind(r, Live), m, w) && Kept(OfKind(cs, Free) - {cs[f], cs[j - 1]}, m, w) && Kept(OfKind(cs, Fast) - {cs[i]}, m, w)
  {
    hide Tiled, Kept, Replace;
    StretchKinds(cs, f, i, j);
    assert forall kind :: OfKind([x], kind) == if x.kind == kind then {x} else {};
    hide OfKind;
  }

  /** A chunk in use between free ones. */
  lemma StretchKinds(cs: seq<Chunk>, f: nat, i: nat, j: nat)
    requires f <= i < j <= i + 2 && i <= f + 1 && j <= |cs| && (cs[i].kind == Live || cs[i].kind == Fast)
    requires f < i ==> cs[f].kind == Free
    requires i + 1 < j ==> cs[i + 1].kind == Free || cs[i + 1].kind == Top
    ensures OfKind(cs, Live) - OfKind(cs[f..j], Live) == OfKind(cs, Live) - {cs[i]}
    ensures OfKind(cs, Fast) - OfKind(cs[f..j], Fast) == OfKind(cs, Fast) - {cs[i]}
    ensures OfKind(cs, Free) - OfKind(cs[f..j], Free) == OfKind(cs, Free) - {cs[f], cs[j - 1]}
  {
    var s := cs[f..j];
    assert s[i - f] == cs[i] && s[0] == cs[f] && s[j - f - 1] == cs[j - 1];
    forall c | c in s ensures c == cs[i] || c == cs[f] || c == cs[j - 1] {
      var q :| 0 <= q < |s| && s[q] == c;
      assert c == cs[f + q];
    }
  }

  /** A new free chunk is not the one it was made of. */
  lemma NewChunk(m: seq<nat>, cs: seq<Chunk>, brk: nat, f: nat, x: Chunk)
    requires Tiled(m, cs, brk) && f < |cs| && x.addr == cs[f].addr && x in cs
    ensures x == cs[f]
  {
    var q :| 0 <= q < |cs| && cs[q] == x;
    assert ChunkAt(cs, q) && ChunkAt(cs, f);
    if q != f { Distinct(m, cs, brk, q, f); }
  }

  /** What memory says of a chunk in use and what lies around it. */
  ghost predicate Surrounds(m: seq<nat>, cs: seq<Chunk>, brk: nat, i: nat) {
    && i + 1 < |cs| && End(cs[i]) == cs[i + 1].addr && cs[i + 1].addr + 4 < |m| && cs[i].addr + 4 < |m|
    && SizeOf(m[cs[i].addr + 4]) == cs[i].size && SizeOf(m[cs[i + 1].addr + 4]) == cs[i + 1].size
    && (!PrevInUse(m[cs[i].addr + 4]) <==> i > 0 && cs[i - 1].kind == Free)
    && (i > 0 && cs[i - 1].kind == Free ==> m[cs[i].addr] == cs[i - 1].size && cs[i - 1].addr == cs[i].addr - cs[i - 1].size)
    && (cs[i + 1].addr == cs[|cs| - 1].addr <==> i + 2 == |cs|)
    && (cs[i + 1].kind == Top <==> i + 2 == |cs|)
    && (i + 2 < |cs| ==>
          && cs[i + 2].addr == End(cs[i + 1]) && cs[i + 2].addr + 4 < |m|
          && (!PrevInUse(m[cs[i + 2].addr + 4]) <==> cs[i + 1].kind == Free))
    && End(cs[|cs| - 1]) == brk
  }

  lemma Around(m: seq<nat>, cs: seq<Chunk>, brk: nat, i: nat)
    requires Tiled(m, cs, brk) && i < |cs| && cs[i].kind != Top
    ensures Surrounds(m, cs, brk, i)
  {
    hide Tiled, Shaped, SizeOf, PrevInUse;
    At(m, cs, brk, i);
    HeadAt(m, cs, brk, i);
    At(m, cs, brk, i + 1);
    HeadAt(m, cs, brk, i + 1);
    At(m, cs, brk, |cs| - 1);
    if i + 2 < |cs| {
      At(m, cs, brk, i + 2);
      HeadAt(m, cs, brk, i + 2);
      Ordered(m, cs, brk, i + 1, |cs| - 1);
    }
  }

  lemma PowPositive(n: nat)
    ensures Pow2(n) > 0
  {
  }

  /** How far the words of a chunk reach that no size word or footer is among: a block has the word behind its end too. */
  function Reach(c: Chunk): nat { End(c) + (if c.kind == Live then 4 else 0) }

  /** Writing such a word disturbs neither the tiling nor any other chunk. */
  lemma WordKeeps(m: seq<nat>, cs: seq<Chunk>, brk: nat, i: nat, a: nat, x: nat)
    requires Tiled(m, cs, brk) && i < |cs| && cs[i].kind != Top && cs[i].addr + 8 <= a < Reach(cs[i])
    ensures a < |m| && Tiled(m[a := x], cs, brk)
    ensures forall kind :: Kept(OfKind(cs, kind) - {cs[i]}, m, m[a := x])
  {
    At(m, cs, brk, i);
    At(m, cs, brk, i + 1);
    var w := m[a := x];
    assert w[4] == m[4] by { if i > 0 { Ordered(m, cs, brk, 0, i); At(m, cs, brk, 0); } }
    forall k | 0 < k < |cs| ensures LinkedAt(w, cs, k) {
      assert LinkedAt(m, cs, k);
      At(m, cs, brk, k);
      if k < i { Ordered(m, cs, brk, k, i); }
      if k > i + 1 { Ordered(m, cs, brk, i + 1, k); }
    }
    forall kind ensures Kept(OfKind(cs, kind) - {cs[i]}, m, w) {
      OthersKept(m, w, cs, brk, i, a, kind);
    }
  }

  lemma OthersKept(m: seq<nat>, w: seq<nat>, cs: seq<Chunk>, brk: nat, i: nat, a: nat, kind: Kind)
    requires Tiled(m, cs, brk) && i < |cs| && cs[i].addr + 8 <= a < End(cs[i]) + 4 && a < |m| && |w| == |m|
    requires forall b | 0 <= b < |m| && b != a :: w[b] == m[b]
    ensures Kept(OfKind(cs, kind) - {cs[i]}, m, w)
  {
    hide Tiled;
    forall c, b: nat | c in OfKind(cs, kind) - {cs[i]} && c.addr + 8 <= b < End(c) + 4 && b < |m| ensures w[b] == m[b] {
      var q :| 0 <= q < |cs| && cs[q] == c;
      Distinct(m, cs, brk, q, i);
    }
  }

  /** The sizes of the chunks add up to the arena. */
  function Total(cs: seq<Chunk>): nat {
    if cs == [] then 0 else Total(cs[..|cs| - 1]) + cs[|cs| - 1].size
  }

  lemma {:induction false} TotalUpTo(m: seq<nat>, cs: seq<Chunk>, brk: nat, k: nat)
    requires Tiled(m, cs, brk) && k < |cs|
    ensures Total(cs[..k + 1]) == End(cs[k])
    decreases k
  {
    At(m, cs, brk, k);
    assert cs[..k + 1][..k] == cs[..k];
    if k > 0 { TotalUpTo(m, cs, brk, k - 1); } else { assert cs[..0] == []; }
  }

  lemma SizesAddUp(m: seq<nat>, cs: seq<Chunk>, brk: nat)
    requires Tiled(m, cs, brk)
    ensures Total(cs) == brk
  {
    TotalUpTo(m, cs, brk, |cs| - 1);
    assert cs[..|cs|] == cs;
  }

  /** Two blocks share no byte: a block reaches from its address plus 8 to its end plus 4. */
  lemma BlocksApart(m: seq<nat>, cs: seq<Chunk>, brk: nat, c: Chunk, d: Chunk)
    requires Tiled(m, cs, brk) && c in OfKind(cs, Live) && d in OfKind(cs, Live) && c != d
    ensures End(c) + 4 <= d.addr + 8 || End(d) + 4 <= c.addr + 8
    ensures (c.addr + 8) % ALIGN == 0 && End(c) + 4 <= brk
  {
    var i :| 0 <= i < |cs| && cs[i] == c;
    var j :| 0 <= j < |cs| && cs[j] == d;
    Distinct(m, cs, brk, i, j);
    At(m, cs, brk, i);
    At(m, cs, brk, i + 1);
  }

  /** The block at `r` is new and large enough, and too small to be split. */
  ghost predicate Served(before: set<Chunk>, after: set<Chunk>, r: nat, c: Chunk, nb: nat) {
    r == c.addr + 8 && nb <= c.size < nb + MINSIZE && Granted(before, after, c)
  }

  /** What a request gets of the free chunk `v`, and what is left of it: nothing, if that would be too small for a chunk. */
  function Share(v: Chunk, nb: nat): Chunk {
    Chunk(v.addr, if v.size < nb + MINSIZE then v.size else nb, Live)
  }

  function Remnant(v: Chunk, nb: nat): set<Chunk> {
    if v.size < nb + MINSIZE then {} else {Chunk(v.addr + nb, v.size - nb, Free)}
  }

  /** The chunk that a request takes: the smallest that fits, or, for a small one, what the last split left over. */
  ghost predicate Preferred(free: set<Chunk>, nb: nat, v: Chunk, remainder: nat) {
    v in free && v.size >= nb && (Best(free, nb, v) || (nb < MIN_LARGE_SIZE && v.addr == remainder))
  }

  /** A block taken from the free chunk `v` of `ds`. */
  ghost predicate FromFree(ds: seq<Chunk>, cs: seq<Chunk>, c: Chunk, nb: nat, remainder: nat, v: Chunk) {
    && Preferred(OfKind(ds, Free), nb, v, remainder) && c == Share(v, nb)
    && OfKind(cs, Free) == OfKind(ds, Free) - {v} + Remnant(v, nb) && OfKind(cs, Fast) == OfKind(ds, Fast)
  }

  /** A block taken from a fast bin of `ds`, of the very size. */
  ghost predicate FromFast(ds: seq<Chunk>, cs: seq<Chunk>, c: Chunk, nb: nat) {
    && c.size == nb && c.(kind := Fast) in OfKind(ds, Fast)
    && OfKind(cs, Fast) == OfKind(ds, Fast) - {c.(kind := Fast)} && OfKind(cs, Free) == OfKind(ds, Free)
  }

  ghost function TopAddr(ds: seq<Chunk>): nat { if ds == [] then 0 else ds[|ds| - 1].addr }

  ghost function SizeOfTop(ds: seq<Chunk>): nat { if ds == [] then 0 else ds[|ds| - 1].size }

  /** A block taken from the top of `ds`, because no free chunk fits. */
  ghost predicate FromTop(ds: seq<Chunk>, cs: seq<Chunk>, c: Chunk, nb: nat) {
    && c.size == nb && c.addr == TopAddr(ds) && NoneFits(OfKind(ds, Free), nb)
    && OfKind(cs, Free) == OfKind(ds, Free) && OfKind(cs, Fast) == OfKind(ds, Fast)
  }

  ghost predicate TakenFrom(ds: seq<Chunk>, cs: seq<Chunk>, c: Chunk, nb: nat, remainder: nat) {
    FromFast(ds, cs, c, nb) || FromTop(ds, cs, c, nb) || exists v :: FromFree(ds, cs, c, nb, remainder, v)
  }

  /** The break has moved by as many pages as the request needs, and only because nothing else would do. */
  ghost predicate Grown(ds: seq<Chunk>, b: nat, cs: seq<Chunk>, brk: nat, c: Chunk, nb: nat) {
    && SizeOfTop(ds) < nb + MINSIZE && brk == b + Pages(nb + MINSIZE - SizeOfTop(ds))
    && OfKind(ds, Fast) == {} && FromTop(ds, cs, c, nb)
  }

  /** `ds` is `cs`, or what it becomes when the fast bins are emptied. */
  ghost predicate Settled(cs: seq<Chunk>, brk: nat, ds: seq<Chunk>) {
    Layout(ds, brk) && OfKind(ds, Live) == OfKind(cs, Live) && OfKind(ds, Fast) == {}
  }

  /** When a request empties the fast bins first: it is large, or nothing else is left for it. */
  ghost predicate Pressed(cs: seq<Chunk>, nb: nat) {
    nb >= MIN_LARGE_SIZE || (NoneFits(OfKind(cs, Free), nb) && SizeOfTop(cs) < nb + MINSIZE)
  }

  /**
   Where a block comes from.  It was taken from the chunks `mid`, which are those there were, or what these become when
   the fast bins are emptied; and the break has moved only if it had to.
   */
  ghost predicate Origin(was: seq<Chunk>, b: nat, fast: bool, mid: seq<Chunk>, cs: seq<Chunk>, brk: nat, c: Chunk, nb: nat, remainder: nat) {
    && (mid == was || (fast && Settled(was, b, mid) && Pressed(was, nb)))
    && (fast && nb >= MIN_LARGE_SIZE ==> OfKind(mid, Fast) == {})
    && TakenFrom(mid, cs, c, nb, remainder)
    && (brk == b || Grown(mid, b, cs, brk, c, nb))
  }

  lemma OriginSettled(was: seq<Chunk>, b: nat, now: seq<Chunk>, mid: seq<Chunk>, cs: seq<Chunk>, brk: nat, c: Chunk, nb: nat, remainder: nat)
    requires (now == was || (Settled(was, b, now) && Pressed(was, nb))) && OfKind(now, Fast) == {}
    requires Origin(now, b, false, mid, cs, brk, c, nb, remainder)
    ensures Origin(was, b, true, mid, cs, brk, c, nb, remainder)
  {
    hide TakenFrom, Grown, Settled, Pressed, OfKind;
  }

  lemma OriginFree(was: seq<Chunk>, b: nat, fast: bool, cs: seq<Chunk>, c: Chunk, nb: nat, remainder: nat, v: Chunk)
    requires FromFree(was, cs, c, nb, remainder, v) && (fast ==> nb < MIN_LARGE_SIZE)
    ensures Origin(was, b, fast, was, cs, b, c, nb, remainder)
  {
    hide FromFree, FromFast, FromTop, Grown, Settled, Pressed;
  }

  lemma OriginTop(was: seq<Chunk>, b: nat, fast: bool, cs: seq<Chunk>, brk: nat, c: Chunk, nb: nat, remainder: nat)
    requires FromTop(was, cs, c, nb) && (brk == b || Grown(was, b, cs, brk, c, nb)) && (fast ==> nb < MIN_LARGE_SIZE)
    ensures Origin(was, b, fast, was, cs, brk, c, nb, remainder)
  {
    hide FromFree, FromFast, FromTop, Grown, Settled, Pressed;
  }

  lemma ExactShare(was: seq<Chunk>, cs: seq<Chunk>, p: nat, nb: nat, remainder: nat)
    requires Chunk(p, nb, Free) in OfKind(was, Free) && OfKind(cs, Free) == OfKind(was, Free) - {Chunk(p, nb, Free)}
    requires OfKind(cs, Fast) == OfKind(was, Fast)
    ensures FromFree(was, cs, Chunk(p, nb, Live), nb, remainder, Chunk(p, nb, Free))
  {
    hide OfKind;
  }

  /** Where a chunk goes in a sorted bin: behind all that are larger, but to the end if it is no larger than the last. */
  predicate GoesTo(s: seq<Chunk>, size: nat, j: nat) {
    if s != [] && size <= s[|s| - 1].size then j == |s|
    else j <= |s| && (forall q | 0 <= q < j :: s[q].size > size) && (j < |s| ==> s[j].size <= size)
  }

  lemma GoesFits(s: seq<Chunk>, size: nat, j: nat)
    requires Descending(s) && GoesTo(s, size, j)
    ensures j <= |s| && FitsAt(s, j, size)
  {
  }

  /** `v` is the last chunk of the list that has the size. */
  ghost predicate LastOfSize(s: seq<Chunk>, v: Chunk, size: nat) {
    exists i :: 0 <= i < |s| && v == s[i] && forall q | i < q < |s| :: s[q].size != size
  }

  /** What is left of the unsorted chunks `all`, none of the others having been of use. */
  ghost predicate Pending(s: seq<Chunk>, all: seq<Chunk>, nb: nat, remainder: nat) {
    && |s| <= |all| && s == all[..|s|] && (forall q | |s| <= q < |all| :: all[q].size != nb)
    && (Continues(all, nb, remainder) ==> s == all)
  }

  lemma DropLast(s: seq<Chunk>, all: seq<Chunk>)
    requires s != [] && |s| <= |all| && s == all[..|s|]
    ensures DropAt(s, |s| - 1) == all[..|s| - 1] && s[|s| - 1] == all[|s| - 1]
  {
  }

  /** What the last split left over is split again if it is all that is unsorted. */
  predicate Continues(unsorted: seq<Chunk>, nb: nat, remainder: nat) {
    nb < MIN_LARGE_SIZE && |unsorted| == 1 && unsorted[0].addr == remainder && unsorted[0].size > nb + MINSIZE
  }

  lemma BestTaken(was: seq<Chunk>, cs: seq<Chunk>, c: Chunk, nb: nat, remainder: nat, v: Chunk)
    requires Best(OfKind(was, Free), nb, v) && c == Share(v, nb)
    requires OfKind(cs, Free) == OfKind(was, Free) - {v} + Remnant(v, nb) && OfKind(cs, Fast) == OfKind(was, Fast)
    ensures FromFree(was, cs, c, nb, remainder, v)
  {
    hide OfKind, Share, Remnant;
  }

  /** A small request is served from its fast bin, if that holds anything, with what was put there last. */
  ghost predicate QuickHit(fb: seq<seq<Chunk>>, most: nat, nb: nat, r: nat) {
    MINSIZE <= nb <= most && FastbinIndex(nb) < |fb| && fb[FastbinIndex(nb)] != [] ==> r == fb[FastbinIndex(nb)][0].addr + 8
  }

  lemma NoQuickHit(fast: set<Chunk>, fb: seq<seq<Chunk>>, most: nat, nb: nat)
    requires FastOk(fast, fb) && fast == {}
    ensures forall r :: QuickHit(fb, most, nb, r)
  {
    forall k | 0 <= k < |fb| ensures fb[k] == [] {
      assert FastBinOk(fast, fb, k);
      NothingIn(fb[k], fast);
    }
  }

  lemma NothingIn(s: seq<Chunk>, all: set<Chunk>)
    requires forall c | c in s :: c in all
    ensures all == {} ==> s == []
  {
    if s != [] { assert s[0] in all; }
  }

  lemma QuickMiss(fb: seq<seq<Chunk>>, most: nat, nb: nat)
    requires QuickHit(fb, most, nb, 0)
    ensures forall r :: QuickHit(fb, most, nb, r)
  {
  }

  lemma OriginFast(was: seq<Chunk>, b: nat, fast: bool, cs: seq<Chunk>, c: Chunk, nb: nat, remainder: nat)
    requires FromFast(was, cs, c, nb) && nb < MIN_LARGE_SIZE
    ensures Origin(was, b, fast, was, cs, b, c, nb, remainder)
  {
    hide FromFree, FromFast, FromTop, Grown, Settled, Pressed;
  }

  /** How large a chunk becomes when it is joined with its free neighbours or the top. */
  ghost function JoinedSize(cs: seq<Chunk>, i: nat): int
    requires i < |cs|
  {
    (if i + 1 < |cs| && (cs[i + 1].kind == Free || cs[i + 1].kind == Top) then End(cs[i + 1]) else End(cs[i]))
    - (if i > 0 && cs[i - 1].kind == Free then cs[i - 1].addr else cs[i].addr)
  }

  function Pages(n: nat): nat { (n + (PAGE - 1)) / PAGE * PAGE }

  /** The rounded size is right, or so large that it cannot be asked for. */
  lemma PageSize(n: nat)
    requires 0 < n < TWO32
    ensures var size := (n + (PAGE - 1)) % TWO32 / PAGE * PAGE;
      if 0 < size < 0x8000_0000 then size == Pages(n) >= n && size % PAGE == 0 && ChunkSize(size) else Pages(n) >= 0x8000_0000
  {
    ModWrap(n + (PAGE - 1), TWO32);
    if n + (PAGE - 1) >= TWO32 { DivModUnique(n + (PAGE - 1) - TWO32, PAGE, 0, n + (PAGE - 1) - TWO32); }
  }

  lemma TopRead(m: seq<nat>, cs: seq<Chunk>, brk: nat)
    requires Tiled(m, cs, brk)
    ensures cs != [] && cs[|cs| - 1].addr + 4 < |m| && SizeOf(m[cs[|cs| - 1].addr + 4]) == cs[|cs| - 1].size
    ensures cs[|cs| - 1].kind == Top
  {
    At(m, cs, brk, |cs| - 1);
    HeadAt(m, cs, brk, |cs| - 1);
  }

  lemma NewArena(m: seq<nat>, size: nat)
    requires ChunkSize(size) && size <= |m|
    ensures Tiled(m[4 := size + 1], [Chunk(0, size, Top)], size) && Kept({}, m, m[4 := size + 1])
    ensures forall kind | kind != Top :: OfKind([Chunk(0, size, Top)], kind) == OfKind([], kind) == {}
  {
    Begin(m, m[4 := size + 1], size);
  }

  lemma TopGrows(m: seq<nat>, cs: seq<Chunk>, brk: nat, n: nat)
    requires Tiled(m, cs, brk) && n % ALIGN == 0 && brk + n <= |m|
    ensures cs != [] && cs[|cs| - 1].addr + 4 < |m|
    ensures var t := cs[|cs| - 1]; var w, r := m[t.addr + 4 := n + t.size + 1], cs[|cs| - 1 := Chunk(t.addr, n + t.size, Top)];
      && Tiled(w, r, brk + n) && (forall kind | kind != Top :: Kept(OfKind(cs, kind), m, w))
      && forall kind | kind != Top :: OfKind(r, kind) == OfKind(cs, kind)
  {
    TopRead(m, cs, brk);
    At(m, cs, brk, |cs| - 1);
    var i, t := |cs| - 1, cs[|cs| - 1];
    var w, r := m[t.addr + 4 := n + t.size + 1], cs[i := Chunk(t.addr, n + t.size, Top)];
    Extend(m, w, cs, brk, n);
    assert Between(m, w, t.addr, End(t));
    forall kind | kind != Top ensures Kept(OfKind(cs, kind), m, w) {
      KeptElsewhere(m, w, cs, brk, i, i + 1, kind);
      OneKinds(cs, i, kind);
      assert OfKind(cs, kind) - {} == OfKind(cs, kind);
    }
    forall kind | kind != Top ensures OfKind(r, kind) == OfKind(cs, kind) {
      forall c | c in OfKind(cs, kind) ensures c in OfKind(r, kind) {
        var q :| 0 <= q < |cs| && cs[q] == c;
        assert r[q] == c;
      }
    }
  }

  lemma NothingFree(free: set<Chunk>, nb: nat)
    ensures free == {} ==> NoneFits(free, nb)
  {
  }

  ghost predicate Best(free: set<Chunk>, nb: nat, c: Chunk) {
    c in free && c.size >= nb && forall d | d in free && d.size >= nb :: c.size <= d.size
  }

  ghost predicate NoneFits(free: set<Chunk>, nb: nat) {
    forall d | d in free :: d.size < nb
  }

  ghost predicate AllShaped(free: set<Chunk>) {
    forall c | c in free :: ChunkSize(c.size)
  }

  lemma AtLeastMin(n: nat)
    requires ChunkSize(n)
    ensures n >= MINSIZE
  {
  }

  lemma LargeNumber(n: nat)
    requires n >= MIN_LARGE_SIZE
    ensures NSMALLBINS <= BinIndex(n)
  {
    LargebinMonotone(n, n);
  }

  lemma FreeShaped(m: seq<nat>, cs: seq<Chunk>, brk: nat)
    requires cs == [] || Tiled(m, cs, brk)
    ensures AllShaped(OfKind(cs, Free))
  {
    forall c | c in OfKind(cs, Free) ensures ChunkSize(c.size) { InShaped(m, cs, brk, c); }
  }

  /** Where a chunk that is large enough can be. */
  lemma WhereFits(free: set<Chunk>, bins: seq<seq<Chunk>>, nb: nat, d: Chunk)
    requires BinsOk(free, bins) && bins[UNSORTED] == [] && ChunkSize(nb) && d in free && d.size >= nb
    ensures var q := BinIndex(d.size); BinIndex(nb) <= q < NBINS && d in bins[q]
  {
    BinIndexMonotone(nb, d.size);
    NumberPositive(d.size);
  }

  lemma InItsBin(free: set<Chunk>, bins: seq<seq<Chunk>>, k: nat, j: nat)
    requires BinsOk(free, bins) && 2 <= k < NBINS && j < |bins[k]|
    ensures bins[k][j] in free && bins[k][j].size >= MINSIZE && BinIndex(bins[k][j].size) == k
  {
    assert BinOk(free, bins, k);
    assert bins[k][j] in bins[k];
    NumberPositive(bins[k][j].size);
  }

  lemma OwnBinBest(free: set<Chunk>, bins: seq<seq<Chunk>>, nb: nat, idx: nat, j: nat)
    requires BinsOk(free, bins) && bins[UNSORTED] == [] && ChunkSize(nb) && 2 <= idx == BinIndex(nb) < NBINS && j < |bins[idx]|
    requires bins[idx][j].size >= nb && forall c | c in bins[idx] && c.size >= nb :: c.size >= bins[idx][j].size
    ensures Best(free, nb, bins[idx][j])
  {
    hide LargebinIndex;
    var c := bins[idx][j];
    InItsBin(free, bins, idx, j);
    forall d | d in free && d.size >= nb ensures c.size <= d.size {
      WhereFits(free, bins, nb, d);
      if BinIndex(d.size) > idx { LaterBinFits(c.size, d.size); }
    }
  }

  lemma LaterBinBest(free: set<Chunk>, bins: seq<seq<Chunk>>, nb: nat, idx: nat, k: nat)
    requires BinsOk(free, bins) && bins[UNSORTED] == [] && ChunkSize(nb) && 2 <= idx == BinIndex(nb) && AllShaped(free)
    requires forall c | c in bins[idx] :: c.size < nb
    requires idx < k < NBINS && AllEmpty(bins, idx + 1, k) && bins[k] != []
    ensures Best(free, nb, bins[k][|bins[k]| - 1])
  {
    hide LargebinIndex;
    var c := bins[k][|bins[k]| - 1];
    InItsBin(free, bins, k, |bins[k]| - 1);
    LaterBinFits(nb, c.size);
    assert BinOk(free, bins, k);
    forall d | d in free && d.size >= nb ensures c.size <= d.size {
      WhereFits(free, bins, nb, d);
      if BinIndex(d.size) > k {
        LaterBinFits(c.size, d.size);
      } else if c.size < MIN_LARGE_SIZE {
        SmallbinExact(c.size, d.size);
      } else {
        LargeNumber(c.size);
      }
    }
  }

  lemma NoBinFits(free: set<Chunk>, bins: seq<seq<Chunk>>, nb: nat, idx: nat)
    requires BinsOk(free, bins) && bins[UNSORTED] == [] && ChunkSize(nb) && 2 <= idx == BinIndex(nb) < NBINS
    requires (forall c | c in bins[idx] :: c.size < nb) && AllEmpty(bins, idx + 1, NBINS)
    ensures NoneFits(free, nb)
  {
    hide LargebinIndex;
    forall d | d in free ensures d.size < nb {
      if d.size >= nb { WhereFits(free, bins, nb, d); }
    }
  }

  lemma MapSize(bins: seq<seq<Chunk>>, binmap: seq<nat>)
    requires MapOk(bins, binmap)
    ensures |bins| == NBINS && |binmap| == BINMAPSIZE + 1
  {
  }

  ghost predicate AllEmpty(bins: seq<seq<Chunk>>, i: nat, j: nat) {
    j <= |bins| && forall q | i <= q < j :: bins[q] == []
  }

  lemma NoneYet(bins: seq<seq<Chunk>>, i: nat)
    requires i <= |bins|
    ensures AllEmpty(bins, i, i)
  {
  }

  lemma AddEmpty(bins: seq<seq<Chunk>>, i: nat, j: nat)
    requires AllEmpty(bins, i, j) && j < |bins| && bins[j] == []
    ensures AllEmpty(bins, i, j + 1)
  {
  }

  /** A bit of a word as a number; shifted out of the word it is zero. */
  function BitValue(j: nat): nat {
    if j < BITSPERMAP then Pow2(j) else 0
  }

  /** Behind a bit with nothing set above it, and behind zero words, all bins are empty. */
  lemma RestOfBlock(bins: seq<seq<Chunk>>, binmap: seq<nat>, start: nat, block: nat, j: nat, b: nat)
    requires MapOk(bins, binmap) && 2 <= start && block <= BINMAPSIZE && block < b && j <= BITSPERMAP
    requires BITSPERMAP * block + j <= NBINS && AllEmpty(bins, start, BITSPERMAP * block + j)
    requires BitValue(j) > binmap[block] || BitValue(j) == 0
    requires forall q | block < q < b && q < BINMAPSIZE :: binmap[q] == 0
    ensures b < BINMAPSIZE ==> AllEmpty(bins, start, BITSPERMAP * b)
    ensures b >= BINMAPSIZE ==> AllEmpty(bins, start, NBINS)
  {
    var end := if b < BINMAPSIZE then BITSPERMAP * b else NBINS;
    forall q | start <= q < end ensures bins[q] == [] {
      if q >= BITSPERMAP * block + j {
        NotMarked(binmap, block, j, b, q);
      }
    }
  }

  lemma NotMarked(binmap: seq<nat>, block: nat, j: nat, b: nat, q: nat)
    requires |binmap| == BINMAPSIZE + 1 && block <= BINMAPSIZE && block < b && j <= BITSPERMAP && q < NBINS
    requires BitValue(j) > binmap[block] || BitValue(j) == 0
    requires forall q | block < q < b && q < BINMAPSIZE :: binmap[q] == 0
    requires BITSPERMAP * block + j <= q && (b < BINMAPSIZE ==> q < BITSPERMAP * b)
    ensures !Marked(binmap, q)
  {
    var w := q / BITSPERMAP;
    if w == block {
      NoBitsAbove(binmap[block], j, q % BITSPERMAP);
    } else {
      NoBitsAbove(binmap[w], 0, q % BITSPERMAP);
    }
  }

  lemma BitAhead(bins: seq<seq<Chunk>>, binmap: seq<nat>, block: nat, j: nat)
    requires MapOk(bins, binmap) && block <= BINMAPSIZE && j <= BITSPERMAP
    requires !(BitValue(j) > binmap[block] || BitValue(j) == 0) || (j == 0 && block < BINMAPSIZE && binmap[block] != 0)
    ensures Pow2(j) <= binmap[block] < Pow2(BITSPERMAP) && block < BINMAPSIZE
  {
  }

  lemma OneEmpty(bins: seq<seq<Chunk>>, binmap: seq<nat>, start: nat, block: nat, j: nat)
    requires MapOk(bins, binmap) && block < BINMAPSIZE && j < BITSPERMAP && 2 <= start <= BITSPERMAP * block + j
    requires AllEmpty(bins, start, BITSPERMAP * block + j) && !Bit(binmap[block], j)
    ensures AllEmpty(bins, start, BITSPERMAP * block + j + 1)
  {
    var q := BITSPERMAP * block + j;
    assert q / BITSPERMAP == block && q % BITSPERMAP == j;
    assert !Marked(binmap, q);
  }

  /** The size word of a free chunk has the bit set. */
  lemma FreeHead(m: seq<nat>, cs: seq<Chunk>, brk: nat, c: Chunk)
    requires Tiled(m, cs, brk) && c in OfKind(cs, Free)
    ensures c.addr + 4 < |m| && m[c.addr + 4] == c.size + 1
  {
    var i :| 0 <= i < |cs| && cs[i] == c;
    At(m, cs, brk, i);
    if i > 0 { assert cs[i - 1].kind != Free; }
  }

  lemma SizeRead(m: seq<nat>, cs: seq<Chunk>, brk: nat, c: Chunk)
    requires Tiled(m, cs, brk) && c in cs
    ensures c.addr + 4 < |m| && SizeOf(m[c.addr + 4]) == c.size
  {
    var i :| 0 <= i < |cs| && cs[i] == c;
    HeadAt(m, cs, brk, i);
  }

  lemma LargeSorted(free: set<Chunk>, bins: seq<seq<Chunk>>, k: nat)
    requires BinsOk(free, bins) && NSMALLBINS <= k < NBINS
    ensures |bins| == NBINS && Descending(bins[k]) && forall c | c in bins[k] :: c in free
  {
    assert BinOk(free, bins, k);
  }

  /** A chunk of another size goes into another bin. */
  lemma OtherBin(nb: nat, size: nat)
    requires ChunkSize(nb) && ChunkSize(size) && nb < MIN_LARGE_SIZE && nb != size
    ensures BinNumber(size) != SmallbinIndex(nb)
  {
    NumberPositive(size);
    if BinNumber(size) == SmallbinIndex(nb) { SmallbinExact(nb, size); }
  }

  lemma SameFast(a: nat, b: nat)
    requires ChunkSize(a) && ChunkSize(b) && FastbinIndex(a) == FastbinIndex(b)
    ensures a == b
  {
  }

  lemma InShaped(m: seq<nat>, cs: seq<Chunk>, brk: nat, c: Chunk)
    requires Tiled(m, cs, brk) && c in cs
    ensures Shaped(c)
  {
    var i :| 0 <= i < |cs| && cs[i] == c;
    At(m, cs, brk, i);
  }

  lemma BinsSize(free: set<Chunk>, bins: seq<seq<Chunk>>)
    requires BinsOk(free, bins)
    ensures |bins| == NBINS
  {
  }

  /** Small bins hold one size. */
  lemma ExactFit(free: set<Chunk>, bins: seq<seq<Chunk>>, nb: nat)
    requires BinsOk(free, bins) && ChunkSize(nb) && nb < MIN_LARGE_SIZE && SmallbinIndex(nb) < NBINS
    ensures forall c | c in bins[SmallbinIndex(nb)] && ChunkSize(c.size) :: c.size == nb
  {
    var k := SmallbinIndex(nb);
    assert BinOk(free, bins, k);
    forall c | c in bins[k] && ChunkSize(c.size) ensures c.size == nb {
      NumberPositive(c.size);
      SmallbinExact(nb, c.size);
    }
  }

  /** One block more has been handed out. */
  ghost predicate Granted(before: set<Chunk>, after: set<Chunk>, c: Chunk) {
    Shaped(c) && c.kind == Live && c !in before && after == before + {c}
  }

  lemma LessNone(s: set<Chunk>, c: Chunk)
    ensures s - {} == s && (c !in s ==> s - {c} == s)
  {
  }

  function Part(c: Chunk, kind: Kind): set<Chunk> { if c.kind == kind then {c} else {} }

  /** The writes of a split of a free chunk, and of the top. */
  function CutFree(m: seq<nat>, a: nat, nb: nat, rem: nat): (w: seq<nat>)
    requires a + nb + 4 < |m| && a + nb + rem < |m|
    ensures |w| == |m|
  {
    m[a + 4 := nb + 1][a + nb + 4 := rem + 1][a + nb + rem := rem]
  }

  function CutTop(m: seq<nat>, a: nat, nb: nat, rem: nat): (w: seq<nat>)
    requires a + nb + 4 < |m|
    ensures |w| == |m|
  {
    m[a + 4 := nb + 1][a + nb + 4 := rem + 1]
  }

  lemma OneKinds(cs: seq<Chunk>, i: nat, kind: Kind)
    requires i < |cs|
    ensures OfKind(cs[i..i + 1], kind) == Part(cs[i], kind)
    ensures cs[i].kind != kind ==> cs[i] !in OfKind(cs, kind)
  {
    assert cs[i..i + 1] == [cs[i]];
  }

  lemma TwoKinds(a: Chunk, b: Chunk, kind: Kind)
    ensures OfKind([a], kind) == Part(a, kind) && OfKind([a, b], kind) == Part(a, kind) + Part(b, kind)
  {
    assert [a, b][0] == a && [a, b][1] == b;
  }

  lemma WholeTaken(m: seq<nat>, cs: seq<Chunk>, brk: nat, i: nat)
    requires Tiled(m, cs, brk) && i < |cs| && cs[i].kind == Free
    ensures var c := cs[i].(kind := Live); var r := Replace(cs, i, i + 1, [c]);
      && End(cs[i]) + 4 < |m|
      && var w := m[End(cs[i]) + 4 := m[End(cs[i]) + 4] / 2 * 2 + 1];
         && Tiled(w, r, brk) && r != [] && r[|r| - 1] == cs[|cs| - 1]
         && Granted(OfKind(cs, Live), OfKind(r, Live), c) && Kept(OfKind(cs, Live), m, w)
         && Kept(OfKind(cs, Free) - {cs[i]}, m, w) && Kept(OfKind(cs, Fast), m, w)
         && OfKind(r, Fast) == OfKind(cs, Fast) && OfKind(r, Free) == OfKind(cs, Free) - {cs[i]} && cs[i] !in OfKind(cs, Fast)
  {
    hide Tiled, Kept;
    Around(m, cs, brk, i);
    At(m, cs, brk, i);
    At(m, cs, brk, i + 1);
    var x := cs[i + 1].addr + 4;
    assert m[x] == cs[i + 1].size;
    assert m[x] / 2 * 2 + 1 == cs[i + 1].size + 1 by { HeadParts(cs[i + 1].size, 0); }
    var c := cs[i].(kind := Live);
    var r, w := Replace(cs, i, i + 1, [c]), m[x := cs[i + 1].size + 1];
    assert r[|r| - 1] == cs[|cs| - 1];
    if c in cs { NewChunk(m, cs, brk, i, c); }
    assert c !in OfKind(cs, Live);
    hide OfKind, Moved, Replace;
    TakeWhole(m, w, cs, brk, i);
    SingleKinds(m, w, cs, r, brk, i, [c], c, c);
    NothingLess(m, w, cs, i);
  }

  lemma NothingLess(m: seq<nat>, w: seq<nat>, cs: seq<Chunk>, i: nat)
    requires i < |cs| && forall kind :: Kept(OfKind(cs, kind) - Part(cs[i], kind), m, w)
    ensures forall kind | kind != cs[i].kind :: Kept(OfKind(cs, kind), m, w)
    ensures Kept(OfKind(cs, cs[i].kind) - {cs[i]}, m, w)
  {
    hide Kept, OfKind;
    forall kind | kind != cs[i].kind ensures Kept(OfKind(cs, kind), m, w) {
      assert OfKind(cs, kind) - Part(cs[i], kind) == OfKind(cs, kind);
    }
    assert Part(cs[i], cs[i].kind) == {cs[i]};
  }

  /** The kinds after one chunk has become one or two. */
  lemma SingleKinds(m: seq<nat>, w: seq<nat>, cs: seq<Chunk>, r: seq<Chunk>, brk: nat, i: nat, xs: seq<Chunk>, a: Chunk, b: Chunk)
    requires Moved(m, w, cs, r, brk, i, i + 1, xs) && (xs == [a, b] || (xs == [a] && a == b)) && cs[i].kind != Live
    ensures Tiled(w, r, brk) && |w| == |m|
    ensures forall kind :: Kept(OfKind(cs, kind) - Part(cs[i], kind), m, w)
    ensures forall kind :: OfKind(r, kind) == OfKind(cs, kind) - Part(cs[i], kind) + Part(a, kind) + Part(b, kind)
    ensures forall kind :: cs[i].kind != kind ==> cs[i] !in OfKind(cs, kind)
  {
    hide Tiled, Kept, OfKind, Replace;
    forall kind ensures OfKind(r, kind) == OfKind(cs, kind) - Part(cs[i], kind) + Part(a, kind) + Part(b, kind) {
      OneKinds(cs, i, kind);
      TwoKinds(a, b, kind);
    }
    forall kind ensures cs[i].kind != kind ==> cs[i] !in OfKind(cs, kind) { OneKinds(cs, i, kind); }
    forall kind ensures Kept(OfKind(cs, kind) - Part(cs[i], kind), m, w) { OneKinds(cs, i, kind); }
    MovedTiled(m, w, cs, r, brk, i, i + 1, xs);
  }

  lemma FrontTaken(m: seq<nat>, cs: seq<Chunk>, brk: nat, i: nat, nb: nat, rem: nat)
    requires Tiled(m, cs, brk) && i < |cs| && cs[i].kind == Free && ChunkSize(nb) && rem >= MINSIZE && cs[i].size == nb + rem
    ensures var a, b := Chunk(cs[i].addr, nb, Live), Chunk(cs[i].addr + nb, rem, Free); var r := Replace(cs, i, i + 1, [a, b]);
      && End(cs[i]) + 4 < |m|
      && var w := CutFree(m, a.addr, nb, rem);
         && Tiled(w, r, brk) && r != [] && r[|r| - 1] == cs[|cs| - 1]
         && Granted(OfKind(cs, Live), OfKind(r, Live), a) && Kept(OfKind(cs, Live), m, w)
         && Kept(OfKind(cs, Free) - {cs[i]}, m, w) && Kept(OfKind(cs, Fast), m, w)
         && OfKind(r, Fast) == OfKind(cs, Fast) && OfKind(r, Free) == OfKind(cs, Free) - {cs[i]} + {b}
         && cs[i] !in OfKind(cs, Fast) && b !in OfKind(cs, Free) - {cs[i]}
  {
    hide Tiled, Kept;
    Around(m, cs, brk, i);
    At(m, cs, brk, i);
    Parted(cs[i], nb, Free);
    var a, b := Chunk(cs[i].addr, nb, Live), Chunk(cs[i].addr + nb, rem, Free);
    var r, w := Replace(cs, i, i + 1, [a, b]), CutFree(m, a.addr, nb, rem);
    assert r[|r| - 1] == cs[|cs| - 1];
    if a in cs { NewChunk(m, cs, brk, i, a); }
    if b in cs { Inside(m, cs, brk, i, b); }
    assert a !in OfKind(cs, Live) && b !in OfKind(cs, Free);
    hide OfKind, Moved, Replace, ChunkSize, Shaped;
    Split(m, w, cs, brk, i, nb, rem);
    SingleKinds(m, w, cs, r, brk, i, [a, b], a, b);
    NothingLess(m, w, cs, i);
  }

  /** No chunk starts inside another. */
  lemma Inside(m: seq<nat>, cs: seq<Chunk>, brk: nat, i: nat, b: Chunk)
    requires Tiled(m, cs, brk) && i < |cs| && b in cs
    ensures !(cs[i].addr < b.addr < End(cs[i]))
  {
    var q :| 0 <= q < |cs| && cs[q] == b;
    assert ChunkAt(cs, q) && ChunkAt(cs, i);
    if q != i { Distinct(m, cs, brk, q, i); }
  }

  /** The arena after a block `a` has been cut off the top. */
  ghost predicate TopCut(m: seq<nat>, w: seq<nat>, cs: seq<Chunk>, r: seq<Chunk>, brk: nat, a: Chunk, b: Chunk) {
    && Tiled(w, r, brk) && r != [] && r[|r| - 1] == b
    && Granted(OfKind(cs, Live), OfKind(r, Live), a) && Kept(OfKind(cs, Live), m, w)
    && Kept(OfKind(cs, Free), m, w) && Kept(OfKind(cs, Fast), m, w)
    && OfKind(r, Fast) == OfKind(cs, Fast) && OfKind(r, Free) == OfKind(cs, Free)
  }

  lemma TopTaken(m: seq<nat>, cs: seq<Chunk>, brk: nat, i: nat, nb: nat, rem: nat)
    requires Tiled(m, cs, brk) && i + 1 == |cs| && ChunkSize(nb) && cs[i].size == nb + rem && rem >= MINSIZE
    ensures cs[i].addr + nb + 4 < |m| && SizeOf(m[cs[i].addr + 4]) == cs[i].size
    ensures var a, b := Chunk(cs[i].addr, nb, Live), Chunk(cs[i].addr + nb, rem, Top);
      TopCut(m, CutTop(m, a.addr, nb, rem), cs, Replace(cs, i, i + 1, [a, b]), brk, a, b)
  {
    assert nb >= MINSIZE;
    hide Tiled, Kept, SizeOf, PrevInUse, ChunkSize, Shaped;
    At(m, cs, brk, i);
    HeadAt(m, cs, brk, i);
    Parted(cs[i], nb, Top);
    var a, b := Chunk(cs[i].addr, nb, Live), Chunk(cs[i].addr + nb, rem, Top);
    var r, w := Replace(cs, i, i + 1, [a, b]), CutTop(m, a.addr, nb, rem);
    assert r[|r| - 1] == b;
    if a in cs { NewChunk(m, cs, brk, i, a); }
    assert a !in OfKind(cs, Live);
    hide OfKind, Moved, Replace;
    SplitTop(m, w, cs, brk, i, nb, rem);
    SingleKinds(m, w, cs, r, brk, i, [a, b], a, b);
    NothingLess(m, w, cs, i);
  }

  lemma KeptSame(live: set<Chunk>, m: seq<nat>)
    ensures Kept(live, m, m)
  {
  }

  /** The flags in the threshold do not matter: sizes are multiples of eight. */
  lemma SmallEnough(c: Chunk)
    requires Shaped(c) && c.size <= MXFAST + 3
    ensures c.size <= MXFAST
  {
  }

  lemma EmptyBins(cs: seq<Chunk>, was: seq<seq<Chunk>>, bins: seq<seq<Chunk>>, binmap: seq<nat>)
    requires |bins| == NBINS && forall k | 0 <= k < NBINS :: bins[k] == []
    requires cs == [] && MapOk(was, binmap)
    ensures BinsOk(OfKind(cs, Free) - {}, bins) && MapOk(bins, binmap)
  {
  }

  lemma NotFastAny(fast: set<Chunk>, fb: seq<seq<Chunk>>, c: Chunk)
    requires FastOk(fast - {}, fb) && forall q | 0 <= q <= FastbinIndex(MXFAST) :: fb[q] == []
    ensures c !in fast
  {
    assert c in fast ==> c in fast - {};
  }

  lemma NoFast(fast: set<Chunk>, fb: seq<seq<Chunk>>)
    requires FastOk(fast - {}, fb) && forall q | 0 <= q <= FastbinIndex(MXFAST) :: fb[q] == []
    ensures fast == {}
  {
    forall c ensures c !in fast { NotFastAny(fast, fb, c); }
  }

  lemma FastSize(fast: set<Chunk>, fb: seq<seq<Chunk>>)
    requires FastOk(fast, fb)
    ensures |fb| == NFASTBINS
  {
  }

  lemma LiveNotFree(cs: seq<Chunk>, i: nat)
    requires i < |cs| && cs[i].kind == Live
    ensures OfKind(cs, Free) - {cs[i]} == OfKind(cs, Free) - {} && OfKind(cs, Fast) - {cs[i]} == OfKind(cs, Fast) - {} == OfKind(cs, Fast)
  {
  }

  lemma TurnKinds(m: seq<nat>, cs: seq<Chunk>, brk: nat, i: nat, kind: Kind)
    requires Tiled(m, cs, brk) && i < |cs| && (cs[i].kind == Live || cs[i].kind == Fast) && (kind == Live || kind == Fast) && kind != cs[i].kind
    ensures var c := cs[i].(kind := kind); var r := Replace(cs, i, i + 1, [c]);
      && Tiled(m, r, brk) && r != [] && r[|r| - 1].addr == cs[|cs| - 1].addr && c !in OfKind(cs, kind)
      && OfKind(r, Free) == OfKind(cs, Free) && OfKind(r, kind) == OfKind(cs, kind) + {c}
      && OfKind(r, cs[i].kind) == OfKind(cs, cs[i].kind) - {cs[i]}
  {
    var c := cs[i].(kind := kind);
    var r := Replace(cs, i, i + 1, [c]);
    Turn(m, cs, brk, i, kind);
    if c in cs { NewChunk(m, cs, brk, i, c); }
    assert cs[i..i + 1] == [cs[i]];
    assert r[|r| - 1] == if i == |cs| - 1 then c else cs[|cs| - 1];
    assert forall k :: OfKind([c], k) == if k == kind then {c} else {};
    assert forall k :: OfKind([cs[i]], k) == if k == cs[i].kind then {cs[i]} else {};
    hide Tiled;
  }

  lemma NextFree(m: seq<nat>, cs: seq<Chunk>, brk: nat, f: nat, i: nat)
    requires Tiled(m, cs, brk) && i + 2 < |cs| && Backward(cs, f, i)
    ensures cs[i + 1].kind == Free ==> cs[i + 1] in OfKind(cs, Free) - {cs[i], cs[f]} && cs[i + 1] !in OfKind(cs, Fast)
  {
    Distinct(m, cs, brk, i, i + 1);
    Distinct(m, cs, brk, f, i + 1);
  }

  lemma NextJoined(m: seq<nat>, w: seq<nat>, cs: seq<Chunk>, brk: nat, f: nat, i: nat, j: nat, size: nat)
    requires Tiled(m, cs, brk) && i + 2 < |cs| && Backward(cs, f, i) && (cs[i].kind == Live || cs[i].kind == Fast)
    requires j == (if cs[i + 1].kind == Free then i + 2 else i + 1) && cs[f].addr + size == cs[j].addr
    requires cs[f].addr + 4 < |m| && cs[j].addr < |m| && cs[i + 1].addr + 4 < |m|
    requires w == Released(m, cs[i + 1].addr, cs[i + 1].size, cs[f].addr, size)
    ensures var c := Chunk(cs[f].addr, size, Free); var r := Replace(cs, f, j, [c]); var free := OfKind(cs, Free) - {cs[i], cs[f], cs[j - 1]};
      && Tiled(w, r, brk) && r != [] && r[|r| - 1] == cs[|cs| - 1] && c !in free && c.size >= MINSIZE
      && OfKind(r, Live) == OfKind(cs, Live) - {cs[i]} && OfKind(r, Fast) == OfKind(cs, Fast) - {cs[i]}
      && OfKind(r, Free) == free + {c} && OfKind(r, Free) - {c} == free && OfKind(r, Fast) - {c} == OfKind(cs, Fast) - {cs[i], cs[f], cs[j - 1]}
      && Kept(OfKind(r, Live), m, w) && Kept(free, m, w) && Kept(OfKind(r, Fast) - {c}, m, w)
  {
    var c := Chunk(cs[f].addr, size, Free);
    var r := Replace(cs, f, j, [c]);
    assert r[|r| - 1] == cs[|cs| - 1];
    ReleaseShape(m, cs, brk, f, i, j, size);
    if c in cs { NewChunk(m, cs, brk, f, c); }
    assert size >= MINSIZE;
    var had := c in OfKind(cs, Free);
    assert had ==> c == cs[f];
    hide Tiled, Moved, Kept, OfKind, Replace, Released, Linked, Shaped;
    Release(m, w, cs, brk, f, i, j, size);
    JoinedKinds(m, w, cs, brk, f, i, j, c, r);
    MovedTiled(m, w, cs, r, brk, f, j, [c]);
    NotFree(cs, i);
    NotFast(cs, f, i);
  }

  lemma TopJoined(m: seq<nat>, w: seq<nat>, cs: seq<Chunk>, brk: nat, f: nat, i: nat, size: nat)
    requires Tiled(m, cs, brk) && i + 2 == |cs| && Backward(cs, f, i) && (cs[i].kind == Live || cs[i].kind == Fast)
    requires cs[f].addr + size == brk && cs[f].addr + 4 < |m| && w == m[cs[f].addr + 4 := size + 1]
    ensures var r := Replace(cs, f, i + 2, [Chunk(cs[f].addr, size, Top)]);
      && Tiled(w, r, brk) && r[|r| - 1].addr == cs[f].addr
      && OfKind(r, Live) == OfKind(cs, Live) - {cs[i]} && OfKind(r, Fast) == OfKind(cs, Fast) - {cs[i]}
      && OfKind(r, Free) - {} == OfKind(cs, Free) - {cs[i], cs[f]} && OfKind(r, Fast) - {} == OfKind(cs, Fast) - {cs[i], cs[f]}
      && Kept(OfKind(r, Live), m, w) && Kept(OfKind(r, Free) - {}, m, w) && Kept(OfKind(r, Fast) - {}, m, w)
  {
    var t := Chunk(cs[f].addr, size, Top);
    var r := Replace(cs, f, i + 2, [t]);
    assert r[|r| - 1] == t;
    Around(m, cs, brk, i);
    hide Tiled, Moved, Kept, OfKind, Replace;
    ReleaseTop(m, w, cs, brk, f, i, size);
    JoinedKinds(m, w, cs, brk, f, i, i + 2, t, r);
    MovedTiled(m, w, cs, r, brk, f, i + 2, [t]);
    NotFree(cs, i);
    NotFree(cs, i + 1);
    NotFast(cs, f, i);
  }

  lemma MovedTiled(m: seq<nat>, w: seq<nat>, cs: seq<Chunk>, r: seq<Chunk>, brk: nat, i: nat, j: nat, xs: seq<Chunk>)
    requires Moved(m, w, cs, r, brk, i, j, xs)
    ensures Tiled(w, r, brk) && |w| == |m|
  {
    assert Kept(OfKind(cs, Live) - OfKind(cs[i..j], Live), m, w);
  }

  lemma NotFree(cs: seq<Chunk>, i: nat)
    requires i < |cs| && cs[i].kind != Free
    ensures cs[i] !in OfKind(cs, Free)
  {
  }

  lemma NotFast(cs: seq<Chunk>, f: nat, i: nat)
    requires Backward(cs, f, i)
    ensures f == i || cs[f] !in OfKind(cs, Fast)
  {
  }

  // ---- Links ----

  /** Chunks of a tiled arena are far enough apart for their links. */
  lemma ChunksSpaced(m: seq<nat>, cs: seq<Chunk>, brk: nat, some: set<Chunk>)
    requires Tiled(m, cs, brk) && forall c | c in some :: c in cs
    ensures Spaced(some, |m|)
  {
    hide Tiled;
    forall c | c in some ensures c.addr + 12 < |m| {
      var i :| 0 <= i < |cs| && cs[i] == c;
      At(m, cs, brk, i);
    }
    forall c, d | c in some && d in some && c != d ensures Apart(c, d) {
      var i :| 0 <= i < |cs| && cs[i] == c;
      var j :| 0 <= j < |cs| && cs[j] == d;
      At(m, cs, brk, i);
      At(m, cs, brk, j);
      Distinct(m, cs, brk, i, j);
    }
  }

  /** A header, or a free chunk. */
  ghost predicate Stop(cs: seq<Chunk>, p: nat) {
    p < HEAP || exists c :: c in OfKind(cs, Free) && Ref(c) == p
  }

  lemma NodeStop(cs: seq<Chunk>, free: set<Chunk>, bins: seq<seq<Chunk>>, k: nat, i: int)
    requires BinsOk(free, bins) && k < NBINS && forall c | c in free :: c in OfKind(cs, Free)
    ensures Stop(cs, Node(k, bins[k], i))
  {
    assert BinOk(free, bins, k);
    if 0 <= i < |bins[k]| { assert bins[k][i] in bins[k]; }
  }

  /** Links may be written without disturbing the tiling, blocks or fast bins. */
  ghost predicate Undisturbed(m: seq<nat>, w: seq<nat>, cs: seq<Chunk>, brk: nat) {
    Tiled(w, cs, brk) && Kept(OfKind(cs, Live), m, w) && Kept(OfKind(cs, Fast), m, w)
  }

  lemma WordUndisturbed(m: seq<nat>, cs: seq<Chunk>, brk: nat, c: Chunk, a: nat, x: nat)
    requires Tiled(m, cs, brk) && c in OfKind(cs, Free) && c.addr + 8 <= a < c.addr + 16
    ensures a < |m| && Undisturbed(m, m[a := x], cs, brk)
  {
    hide Tiled, Kept;
    var i :| 0 <= i < |cs| && cs[i] == c;
    At(m, cs, brk, i);
    assert OfKind(cs, Live) - {c} == OfKind(cs, Live) && OfKind(cs, Fast) - {c} == OfKind(cs, Fast);
    hide OfKind, Shaped;
    WordKeeps(m, cs, brk, i, a, x);
  }

  lemma PutUndisturbed(t: Links, p: nat, x: nat, cs: seq<Chunk>, brk: nat)
    requires Tiled(t.m, cs, brk) && Legal(t, p) && Stop(cs, p)
    ensures Undisturbed(t.m, PutFd(t, p, x).m, cs, brk) && Undisturbed(t.m, PutBk(t, p, x).m, cs, brk)
  {
    hide Tiled, OfKind;
    if p < HEAP {
      KeptSame(OfKind(cs, Live), t.m);
      KeptSame(OfKind(cs, Fast), t.m);
    } else {
      hide Undisturbed;
      var c :| c in OfKind(cs, Free) && Ref(c) == p;
      WordUndisturbed(t.m, cs, brk, c, c.addr + 8, x);
      WordUndisturbed(t.m, cs, brk, c, c.addr + 12, x);
    }
  }

  lemma UndisturbedOn(m: seq<nat>, v: seq<nat>, w: seq<nat>, cs: seq<Chunk>, brk: nat)
    requires Undisturbed(m, v, cs, brk) && Undisturbed(v, w, cs, brk)
    ensures Undisturbed(m, w, cs, brk)
  {
    KeptOn(OfKind(cs, Live), m, v, w);
    KeptOn(OfKind(cs, Fast), m, v, w);
  }

  lemma KeptOn(some: set<Chunk>, m: seq<nat>, v: seq<nat>, w: seq<nat>)
    requires Kept(some, m, v) && Kept(some, v, w)
    ensures Kept(some, m, w)
  {
    forall c, a: nat | c in some && c.addr + 8 <= a < End(c) + 4 && a < |m| ensures w[a] == m[a] {
      assert v[a] == m[a];
    }
  }

  lemma KeptLess(some: set<Chunk>, fewer: set<Chunk>, m: seq<nat>, w: seq<nat>)
    requires Kept(some, m, w) && fewer <= some
    ensures Kept(fewer, m, w)
  {
  }

  lemma UnlinkUndisturbed(t: Links, fd: nat, bk: nat, cs: seq<Chunk>, brk: nat)
    requires Tiled(t.m, cs, brk) && Legal(t, fd) && Legal(t, bk) && Stop(cs, fd) && Stop(cs, bk)
    ensures Undisturbed(t.m, Unlinked(t, fd, bk).m, cs, brk)
  {
    PutSizes(t, fd, bk);
    hide Tiled, Kept, PutFd, PutBk, Stop;
    PutUndisturbed(t, fd, bk, cs, brk);
    PutUndisturbed(PutBk(t, fd, bk), bk, fd, cs, brk);
    UndisturbedOn(t.m, PutBk(t, fd, bk).m, Unlinked(t, fd, bk).m, cs, brk);
  }

  lemma InsertUndisturbed(t: Links, p: nat, bk: nat, fd: nat, cs: seq<Chunk>, brk: nat)
    requires Tiled(t.m, cs, brk) && Legal(t, p) && Legal(t, fd) && Legal(t, bk) && Stop(cs, p) && Stop(cs, fd) && Stop(cs, bk)
    ensures Undisturbed(t.m, Inserted(t, p, bk, fd).m, cs, brk)
  {
    var t1 := PutBk(t, p, bk);
    var t2 := PutFd(t1, p, fd);
    var t3 := PutBk(t2, fd, p);
    PutSizes(t, p, bk);
    PutSizes(t1, p, fd);
    PutSizes(t2, fd, p);
    hide Tiled, Kept, PutFd, PutBk, Stop;
    PutUndisturbed(t, p, bk, cs, brk);
    PutUndisturbed(t1, p, fd, cs, brk);
    PutUndisturbed(t2, fd, p, cs, brk);
    PutUndisturbed(t3, bk, p, cs, brk);
    UndisturbedOn(t.m, t1.m, t2.m, cs, brk);
    UndisturbedOn(t.m, t2.m, t3.m, cs, brk);
    UndisturbedOn(t.m, t3.m, PutFd(t3, bk, p).m, cs, brk);
  }

  /** Writes elsewhere leave the bins threaded. */
  lemma ThreadsKept(m: seq<nat>, w: seq<nat>, first: seq<nat>, last: seq<nat>, free: set<Chunk>, bins: seq<seq<Chunk>>)
    requires BinsOk(free, bins) && Threads(Links(m, first, last), bins) && Kept(free, m, w)
    ensures Threads(Links(w, first, last), bins)
  {
    hide Threads;
    MemoryBins(Links(m, first, last), w, free, bins);
  }

  lemma ChainsKept(m: seq<nat>, w: seq<nat>, heads: seq<nat>, quick: set<Chunk>, fb: seq<seq<Chunk>>)
    requires FastOk(quick, fb) && Chains(m, heads, fb) && Kept(quick, m, w)
    ensures Chains(w, heads, fb)
  {
    hide Chains;
    MemoryChains(m, w, heads, quick, fb);
  }

  lemma FreeSpaced(m: seq<nat>, cs: seq<Chunk>, brk: nat, x: set<Chunk>)
    requires Tiled(m, cs, brk)
    ensures Spaced(OfKind(cs, Free) - x, |m|) && forall c | c in OfKind(cs, Free) - x :: c in OfKind(cs, Free)
  {
    ChunksSpaced(m, cs, brk, OfKind(cs, Free) - x);
  }

  lemma FreeSize(m: seq<nat>, cs: seq<Chunk>, brk: nat, c: Chunk)
    requires Tiled(m, cs, brk) && c in OfKind(cs, Free)
    ensures c.size >= MINSIZE && Shaped(c)
  {
    InShaped(m, cs, brk, c);
  }

  lemma LinkReads(t: Links, c: Chunk)
    requires Legal(t, Ref(c))
    ensures c.addr + 12 < |t.m| && t.m[c.addr + 8] == Fd(t, Ref(c)) && t.m[c.addr + 12] == Bk(t, Ref(c))
  {
  }

  lemma UnlinkedIs(t: Links, fd: nat, bk: nat)
    requires Legal(t, fd) && Legal(t, bk)
    ensures Legal(PutBk(t, fd, bk), bk) && PutFd(PutBk(t, fd, bk), bk, fd) == Unlinked(t, fd, bk)
  {
  }

  lemma InsertedIs(t: Links, p: nat, bk: nat, fd: nat)
    requires Legal(t, p) && Legal(t, bk) && Legal(t, fd)
    ensures Legal(PutBk(t, p, bk), p) && Legal(PutFd(PutBk(t, p, bk), p, fd), fd)
    ensures Legal(PutBk(PutFd(PutBk(t, p, bk), p, fd), fd, p), bk)
    ensures PutFd(PutBk(PutFd(PutBk(t, p, bk), p, fd), fd, p), bk, p) == Inserted(t, p, bk, fd)
  {
  }

  lemma ChunkStop(cs: seq<Chunk>, c: Chunk)
    requires c in OfKind(cs, Free)
    ensures Stop(cs, Ref(c)) && Ref(c) == c.addr + HEAP
  {
  }

  lemma MoreOut(cs: seq<Chunk>, c: Chunk, x: set<Chunk>)
    requires c in OfKind(cs, Free) - x
    ensures OfKind(cs, Free) - x - {c} == OfKind(cs, Free) - (x + {c}) && OfKind(cs, Fast) - x == OfKind(cs, Fast) - (x + {c})
    ensures c in OfKind(cs, Free)
  {
  }

  lemma LessMore(cs: seq<Chunk>, c: Chunk, x: set<Chunk>)
    requires c in OfKind(cs, Free) && c !in x
    ensures var free := OfKind(cs, Free) - (x + {c}); c !in free && free + {c} == OfKind(cs, Free) - x && forall d | d in free :: d in OfKind(cs, Free)
    ensures OfKind(cs, Fast) - (x + {c}) == OfKind(cs, Fast) - x
  {
  }

  /** Where a free chunk is listed. */
  lemma Locate(free: set<Chunk>, bins: seq<seq<Chunk>>, c: Chunk) returns (k: nat, j: nat)
    requires BinsOk(free, bins) && c in free
    ensures |bins| == NBINS && 1 <= k < NBINS && j < |bins[k]| && bins[k][j] == c
  {
    NumberPositive(c.size);
    k := if c in bins[UNSORTED] then UNSORTED else BinNumber(c.size);
    j :| 0 <= j < |bins[k]| && bins[k][j] == c;
  }

  lemma ReplacedAt(cs: seq<Chunk>, i: nat, c: Chunk)
    requires i < |cs|
    ensures i < |Replace(cs, i, i + 1, [c])| && Replace(cs, i, i + 1, [c])[i] == c
  {
  }

  /** What stays of each kind when a block has gone into a fast bin. */
  lemma FastRest(cs: seq<Chunk>, r: seq<Chunk>, c: Chunk)
    requires c.kind == Fast && c !in OfKind(cs, Fast) && OfKind(r, Fast) == OfKind(cs, Fast) + {c} && OfKind(r, Free) == OfKind(cs, Free)
    ensures OfKind(r, Free) - {c} == OfKind(cs, Free) - {} == OfKind(r, Free) - {} && OfKind(r, Fast) - {c} == OfKind(cs, Fast) - {}
    ensures OfKind(cs, Fast) - {} + {c} == OfKind(r, Fast) - {} && OfKind(r, Live) - {c} == OfKind(r, Live)
  {
  }

  lemma RestOut(cs: seq<Chunk>, free: set<Chunk>, c: Chunk)
    requires OfKind(cs, Free) == free + {c} && c !in free && c.kind == Free
    ensures OfKind(cs, Free) - {c} == free && c in OfKind(cs, Free) && OfKind(cs, Fast) - {c} == OfKind(cs, Fast)
  {
  }

  lemma GrantedKept(before: set<Chunk>, after: set<Chunk>, c: Chunk, m: seq<nat>, w: seq<nat>)
    requires Granted(before, after, c) && Kept(after, m, w)
    ensures Kept(before, m, w)
  {
  }

  lemma ListedIn(free: set<Chunk>, bins: seq<seq<Chunk>>, k: nat, j: nat)
    requires BinsOk(free, bins) && k < NBINS && j < |bins[k]|
    ensures bins[k][j] in free
  {
    assert BinOk(free, bins, k);
    assert bins[k][j] in bins[k];
  }

  lemma FreeIn(cs: seq<Chunk>, c: Chunk)
    requires c in OfKind(cs, Free)
    ensures c in cs && c.kind == Free
  {
  }

  /** The backward link of the last unsorted chunk tells whether it is the only one. */
  lemma OnlyOne(t: Links, bins: seq<seq<Chunk>>, j: nat)
    requires Threads(t, bins) && j < |bins[UNSORTED]| && j == |bins[UNSORTED]| - 1
    ensures t.last[UNSORTED] == Ref(bins[UNSORTED][j]) && bins[UNSORTED][j].addr + 12 < |t.m|
    ensures t.m[bins[UNSORTED][j].addr + 12] == UNSORTED <==> |bins[UNSORTED]| == 1
  {
    NodeReads(t, bins, UNSORTED, j);
    HeaderReads(t, bins, UNSORTED);
  }

  /** What joining a chunk with its neighbours comes to, from where it then begins. */
  lemma JoinedIs(m: seq<nat>, cs: seq<Chunk>, brk: nat, f: nat, i: nat)
    requires Tiled(m, cs, brk) && Backward(cs, f, i) && i + 1 < |cs|
    ensures cs[i + 1].kind == Top <==> i + 2 == |cs|
    ensures cs[i + 1].kind == Top ==> JoinedSize(cs, i) == brk - cs[f].addr
    ensures cs[i + 1].kind == Free ==> i + 2 < |cs| && JoinedSize(cs, i) == cs[i + 2].addr - cs[f].addr
    ensures cs[i + 1].kind == Live || cs[i + 1].kind == Fast ==> JoinedSize(cs, i) == cs[i + 1].addr - cs[f].addr
  {
    At(m, cs, brk, i);
    At(m, cs, brk, i + 1);
    if i + 2 < |cs| { assert LinkedAt(m, cs, i + 2); }
    assert LinkedAt(m, cs, i + 1);
  }

  lemma OneIndex(m: seq<nat>, cs: seq<Chunk>, brk: nat, i: nat)
    requires Tiled(m, cs, brk) && i < |cs|
    ensures forall q | 0 <= q < |cs| && cs[q] == cs[i] :: q == i
  {
    hide Tiled;
    forall q | 0 <= q < |cs| && cs[q] == cs[i] ensures q == i {
      if q != i { Distinct(m, cs, brk, q, i); At(m, cs, brk, i); }
    }
  }

  lemma FreeThere(cs: seq<Chunk>, c: Chunk)
    requires c in OfKind(cs, Free) - {}
    ensures c in OfKind(cs, Free) && cs != []
  {
  }

  lemma BestEnough(free: set<Chunk>, nb: nat, c: Chunk)
    requires Best(free, nb, c)
    ensures c.size >= nb
  {
  }

  lemma NoChunks(cs: seq<Chunk>, bins: seq<seq<Chunk>>, nb: nat)
    requires cs == []
    ensures NoneFits(OfKind(cs, Free), nb)
  {
  }

  /** Growing the top leaves the lists threaded. */
  lemma GrowKept(m: seq<nat>, w: seq<nat>, cs: seq<Chunk>, first: seq<nat>, last: seq<nat>, bins: seq<seq<Chunk>>, heads: seq<nat>, fb: seq<seq<Chunk>>)
    requires BinsOk(OfKind(cs, Free) - {}, bins) && FastOk(OfKind(cs, Fast) - {}, fb) && Kept(OfKind(cs, Free), m, w) && Kept(OfKind(cs, Fast), m, w)
    requires Threads(Links(m, first, last), bins) && Chains(m, heads, fb)
    ensures Threads(Links(w, first, last), bins) && Chains(w, heads, fb)
  {
    hide BinsOk, FastOk, Threads, Chains, Kept;
    LessNone(OfKind(cs, Free), Chunk(0, 0, Top));
    LessNone(OfKind(cs, Fast), Chunk(0, 0, Top));
    ThreadsKept(m, w, first, last, OfKind(cs, Free), bins);
    ChainsKept(m, w, heads, OfKind(cs, Fast), fb);
  }
}
