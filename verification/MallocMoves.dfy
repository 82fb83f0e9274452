/** What taking, splitting, releasing and extending do to the row of chunks and to memory. */
module MallocMoves {
  import opened Arithmetic
  import opened MallocBins
  import opened MallocTiling

  /** The words of the chunks in `some`, from behind the size word to the size word of the next, have not changed. */
  ghost predicate Kept(some: set<Chunk>, m: seq<nat>, w: seq<nat>) {
    |w| == |m| && forall c, a: nat | c in some && c.addr + 8 <= a < End(c) + 4 && a < |m| :: w[a] == m[a]
  }

  /** From cs[i..j] to `xs`, with memory going from `m` to `w`. */
  ghost predicate Moved(m: seq<nat>, w: seq<nat>, cs: seq<Chunk>, r: seq<Chunk>, brk: nat, i: nat, j: nat, xs: seq<Chunk>) {
    && i < j <= |cs| && r == Replace(cs, i, j, xs) && Tiled(w, r, brk)
    && (forall kind :: OfKind(r, kind) == OfKind(cs, kind) - OfKind(cs[i..j], kind) + OfKind(xs, kind))
    && (forall kind :: Kept(OfKind(cs, kind) - OfKind(cs[i..j], kind), m, w))
  }

  lemma Move(m: seq<nat>, w: seq<nat>, cs: seq<Chunk>, brk: nat, i: nat, j: nat, xs: seq<Chunk>)
    requires Tiled(m, cs, brk) && i < j <= |cs| && Between(m, w, cs[i].addr, End(cs[j - 1])) && Suits(w, cs, i, j, xs)
    ensures Moved(m, w, cs, Replace(cs, i, j, xs), brk, i, j, xs)
  {
    hide Tiled, Suits, Between, OfKind;
    Retile(m, w, cs, brk, i, j, xs);
    forall kind ensures OfKind(Replace(cs, i, j, xs), kind) == OfKind(cs, kind) - OfKind(cs[i..j], kind) + OfKind(xs, kind) {
      KindsReplaced(m, cs, brk, i, j, xs, kind);
    }
    forall kind ensures Kept(OfKind(cs, kind) - OfKind(cs[i..j], kind), m, w) {
      KeptElsewhere(m, w, cs, brk, i, j, kind);
    }
  }

  lemma KeptElsewhere(m: seq<nat>, w: seq<nat>, cs: seq<Chunk>, brk: nat, i: nat, j: nat, kind: Kind)
    requires Tiled(m, cs, brk) && i < j <= |cs| && Between(m, w, cs[i].addr, End(cs[j - 1]))
    ensures Kept(OfKind(cs, kind) - OfKind(cs[i..j], kind), m, w)
  {
    var rest := OfKind(cs, kind) - OfKind(cs[i..j], kind);
    forall c, a: nat | c in rest && c.addr + 8 <= a < End(c) + 4 && a < |m| ensures w[a] == m[a] {
      var k :| 0 <= k < |cs| && cs[k] == c;
      assert forall q | i <= q < j :: cs[q] in cs[i..j];
      BlockKept(m, w, cs, brk, i, j, k, a);
    }
  }

  // ---- Reading the size word ----

  function SizeOf(head: nat): nat { head / 4 * 4 }

  predicate PrevInUse(head: nat) { head % 2 == 1 }

  lemma HeadParts(size: nat, bit: nat)
    requires ChunkSize(size) && bit <= 1
    ensures SizeOf(size + bit) == size && (PrevInUse(size + bit) <==> bit == 1)
  {
    var k := size / 8;
    assert size == 8 * k;
    DivModUnique(size + bit, 4, 2 * k, bit);
    DivModUnique(size + bit, 2, 4 * k, bit);
  }

  /** A chunk and its predecessor. */
  lemma At(m: seq<nat>, cs: seq<Chunk>, brk: nat, i: nat)
    requires Tiled(m, cs, brk) && i < |cs|
    ensures Shaped(cs[i]) && (cs[i].kind == Top <==> i == |cs| - 1)
    ensures cs[i].size >= MINSIZE && End(cs[i]) <= brk <= |m|
    ensures i == 0 ==> cs[0].addr == 0 && m[4] == cs[0].size + 1
    ensures i > 0 ==> Linked(m, cs[i - 1], cs[i])
    ensures i == |cs| - 1 ==> End(cs[i]) == brk
  {
    assert ChunkAt(cs, i);
    EndsInside(m, cs, brk, i);
    if i > 0 { assert LinkedAt(m, cs, i); }
  }

  lemma HeadAt(m: seq<nat>, cs: seq<Chunk>, brk: nat, i: nat)
    requires Tiled(m, cs, brk) && i < |cs|
    ensures cs[i].addr + 4 < |m| && SizeOf(m[cs[i].addr + 4]) == cs[i].size
    ensures PrevInUse(m[cs[i].addr + 4]) <==> i == 0 || cs[i - 1].kind != Free
  {
    At(m, cs, brk, i);
    hide Tiled, SizeOf, PrevInUse;
    HeadParts(cs[i].size, if i == 0 || cs[i - 1].kind != Free then 1 else 0);
  }

  lemma Joined(a: Chunk, b: Chunk, kind: Kind)
    requires Shaped(a) && Shaped(b) && End(a) == b.addr
    ensures Shaped(Chunk(a.addr, a.size + b.size, kind))
  {
  }

  lemma Parted(a: Chunk, nb: nat, kind: Kind)
    requires Shaped(a) && ChunkSize(nb) && a.size >= nb + MINSIZE
    ensures Shaped(Chunk(a.addr, nb, Live)) && Shaped(Chunk(a.addr + nb, a.size - nb, kind))
  {
  }

  lemma ShapedKind(a: Chunk, kind: Kind)
    requires Shaped(a)
    ensures Shaped(a.(kind := kind))
  {
  }

  // ---- The moves ----

  /** A free chunk is taken whole: the bit of the next chunk is set. */
  lemma TakeWhole(m: seq<nat>, w: seq<nat>, cs: seq<Chunk>, brk: nat, i: nat)
    requires Tiled(m, cs, brk) && i + 1 < |cs| && cs[i].kind == Free
    requires cs[i + 1].addr + 4 < |m| && w == m[cs[i + 1].addr + 4 := cs[i + 1].size + 1]
    ensures var xs := [cs[i].(kind := Live)]; Moved(m, w, cs, Replace(cs, i, i + 1, xs), brk, i, i + 1, xs)
  {
    hide Tiled, Moved, Shaped, Replace;
    At(m, cs, brk, i);
    At(m, cs, brk, i + 1);
    var xs := [cs[i].(kind := Live)];
    ShapedKind(cs[i], Live);
    Move(m, w, cs, brk, i, i + 1, xs);
  }

  lemma SplitSuits(m: seq<nat>, w: seq<nat>, cs: seq<Chunk>, i: nat, nb: nat, rem: nat, xs: seq<Chunk>)
    requires i + 1 < |cs| && cs[i].kind == Free && rem >= MINSIZE && nb >= MINSIZE && cs[i].size == nb + rem
    requires End(cs[i]) < |m| && w == m[cs[i].addr + 4 := nb + 1][cs[i].addr + nb + 4 := rem + 1][End(cs[i]) := rem]
    requires xs == [Chunk(cs[i].addr, nb, Live), Chunk(cs[i].addr + nb, rem, Free)]
    requires Shaped(xs[0]) && Shaped(xs[1]) && Linked(m, cs[i], cs[i + 1])
    requires if i == 0 then cs[0].addr == 0 && m[4] == cs[0].size + 1 else Linked(m, cs[i - 1], cs[i]) && cs[i - 1].kind != Free
    ensures Between(m, w, cs[i].addr, End(cs[i])) && Suits(w, cs, i, i + 1, xs)
  {
    hide Shaped;
    var a := cs[i].addr;
    assert w[a + 4] == nb + 1 && w[a + nb + 4] == rem + 1 && w[End(cs[i])] == rem;
    assert w[a] == m[a] && w[End(cs[i]) + 4] == m[End(cs[i]) + 4];
    assert LinkedAt(w, xs, 1);
  }

  /** A free chunk is split: the front is taken, the rest stays free. */
  lemma Split(m: seq<nat>, w: seq<nat>, cs: seq<Chunk>, brk: nat, i: nat, nb: nat, rem: nat)
    requires Tiled(m, cs, brk) && i + 1 < |cs| && cs[i].kind == Free && ChunkSize(nb) && rem >= MINSIZE && cs[i].size == nb + rem
    requires End(cs[i]) < |m| && w == m[cs[i].addr + 4 := nb + 1][cs[i].addr + nb + 4 := rem + 1][End(cs[i]) := rem]
    ensures var xs := [Chunk(cs[i].addr, nb, Live), Chunk(cs[i].addr + nb, rem, Free)];
      Moved(m, w, cs, Replace(cs, i, i + 1, xs), brk, i, i + 1, xs)
  {
    assert nb >= MINSIZE;
    hide Tiled, Moved, Shaped, Replace, ChunkSize, Suits, Between;
    At(m, cs, brk, i);
    At(m, cs, brk, i + 1);
    Parted(cs[i], nb, Free);
    var xs := [Chunk(cs[i].addr, nb, Live), Chunk(cs[i].addr + nb, rem, Free)];
    SplitSuits(m, w, cs, i, nb, rem, xs);
    Move(m, w, cs, brk, i, i + 1, xs);
  }

  /** The top is split. */
  lemma SplitTop(m: seq<nat>, w: seq<nat>, cs: seq<Chunk>, brk: nat, i: nat, nb: nat, rem: nat)
    requires Tiled(m, cs, brk) && i + 1 == |cs| && ChunkSize(nb) && rem >= MINSIZE && cs[i].size == nb + rem
    requires End(cs[i]) <= |m| && w == m[cs[i].addr + 4 := nb + 1][cs[i].addr + nb + 4 := rem + 1]
    ensures var xs := [Chunk(cs[i].addr, nb, Live), Chunk(cs[i].addr + nb, rem, Top)];
      Moved(m, w, cs, Replace(cs, i, i + 1, xs), brk, i, i + 1, xs)
  {
    assert nb >= MINSIZE;
    hide Tiled, Moved, Shaped, Replace, ChunkSize;
    At(m, cs, brk, i);
    var xs := [Chunk(cs[i].addr, nb, Live), Chunk(cs[i].addr + nb, rem, Top)];
    Parted(cs[i], nb, Top);
    Move(m, w, cs, brk, i, i + 1, xs);
  }

  /** A chunk goes into a fast bin or comes out of it: its neighbours cannot tell. */
  lemma Turn(m: seq<nat>, cs: seq<Chunk>, brk: nat, i: nat, kind: Kind)
    requires Tiled(m, cs, brk) && i < |cs| && (cs[i].kind == Live || cs[i].kind == Fast) && (kind == Live || kind == Fast)
    ensures var xs := [cs[i].(kind := kind)]; Moved(m, m, cs, Replace(cs, i, i + 1, xs), brk, i, i + 1, xs)
  {
    hide Tiled, Moved, Shaped, Replace;
    At(m, cs, brk, i);
    if i + 1 < |cs| { At(m, cs, brk, i + 1); }
    var xs := [cs[i].(kind := kind)];
    ShapedKind(cs[i], kind);
    Move(m, m, cs, brk, i, i + 1, xs);
  }

  /** The chunk at `f` is where the chunk `i` starts once it has been joined with a free predecessor. */
  ghost predicate Backward(cs: seq<Chunk>, f: nat, i: nat) {
    i < |cs| && (if i > 0 && cs[i - 1].kind == Free then f + 1 == i else f == i)
  }

  lemma BackwardAt(m: seq<nat>, cs: seq<Chunk>, brk: nat, f: nat, i: nat)
    requires Tiled(m, cs, brk) && Backward(cs, f, i) && cs[i].kind != Free
    ensures End(cs[f]) <= End(cs[i]) && Shaped(Chunk(cs[f].addr, End(cs[i]) - cs[f].addr, Free)) && cs[f].size >= MINSIZE
    ensures f == 0 ==> m[4] == cs[0].size + 1 && cs[0].addr == 0
    ensures f > 0 ==> Linked(m, cs[f - 1], cs[f]) && cs[f - 1].kind != Free && cs[f - 1].kind != Top
  {
    At(m, cs, brk, i);
    At(m, cs, brk, f);
    if f > 0 { At(m, cs, brk, f - 1); }
    if f < i { Joined(cs[f], cs[i], Free); } else { ShapedKind(cs[i], Free); }
  }

  /** A chunk is released into the top. */
  lemma ReleaseTop(m: seq<nat>, w: seq<nat>, cs: seq<Chunk>, brk: nat, f: nat, i: nat, total: nat)
    requires Tiled(m, cs, brk) && i + 2 == |cs| && Backward(cs, f, i) && (cs[i].kind == Live || cs[i].kind == Fast)
    requires cs[f].addr + total == brk && cs[f].addr + 4 < |m| && w == m[cs[f].addr + 4 := total + 1]
    ensures var xs := [Chunk(cs[f].addr, total, Top)]; Moved(m, w, cs, Replace(cs, f, i + 2, xs), brk, f, i + 2, xs)
  {
    At(m, cs, brk, i + 1);
    BackwardAt(m, cs, brk, f, i);
    var xs := [Chunk(cs[f].addr, total, Top)];
    Joined(Chunk(cs[f].addr, End(cs[i]) - cs[f].addr, Free), cs[i + 1], Top);
    hide Tiled, Moved, Shaped, Replace;
    Move(m, w, cs, brk, f, i + 2, xs);
  }

  /** The three writes of a release. */
  function Released(m: seq<nat>, next: nat, size: nat, a: nat, total: nat): (w: seq<nat>)
    requires a + 4 < |m| && a + total < |m| && next + 4 < |m|
    ensures |w| == |m|
  {
    m[next + 4 := size][a + 4 := total + 1][a + total := total]
  }

  /** What those writes leave in memory. */
  lemma ReleasedAt(m: seq<nat>, next: nat, size: nat, a: nat, total: nat, q: nat)
    requires a + 4 < |m| && a + total < |m| && next + 4 < |m| && total >= MINSIZE && a + MINSIZE <= next <= a + total && q < |m|
    requires a % 8 == 0 && total % 8 == 0 && next % 8 == 0
    ensures var w := Released(m, next, size, a, total);
      && w[a + 4] == total + 1 && w[a + total] == total
      && (next == a + total ==> w[next + 4] == size)
      && (q < a + 4 ==> w[q] == m[q])
      && (q > a + total && q != next + 4 ==> w[q] == m[q])
  {
  }

  /** A chunk is released below the top, together with its free neighbours cs[f..i] and cs[i + 1..j]. */
  lemma Release(m: seq<nat>, w: seq<nat>, cs: seq<Chunk>, brk: nat, f: nat, i: nat, j: nat, total: nat)
    requires Tiled(m, cs, brk) && i + 2 < |cs| && Backward(cs, f, i) && (cs[i].kind == Live || cs[i].kind == Fast)
    requires j == (if cs[i + 1].kind == Free then i + 2 else i + 1) && cs[f].addr + total == cs[j].addr
    requires cs[f].addr + 4 < |m| && cs[j].addr < |m| && cs[i + 1].addr + 4 < |m|
    requires w == Released(m, cs[i + 1].addr, cs[i + 1].size, cs[f].addr, total)
    ensures var xs := [Chunk(cs[f].addr, total, Free)]; Moved(m, w, cs, Replace(cs, f, j, xs), brk, f, j, xs)
  {
    hide Released, Moved, Replace, Suits, Between;
    ReleaseShape(m, cs, brk, f, i, j, total);
    ReleaseBetween(m, w, cs, brk, f, i, j, total);
    ReleaseSuits(m, w, cs, brk, f, i, j, total);
    Move(m, w, cs, brk, f, j, [Chunk(cs[f].addr, total, Free)]);
  }

  lemma ReleaseShape(m: seq<nat>, cs: seq<Chunk>, brk: nat, f: nat, i: nat, j: nat, total: nat)
    requires Tiled(m, cs, brk) && i + 2 < |cs| && Backward(cs, f, i) && (cs[i].kind == Live || cs[i].kind == Fast)
    requires j == (if cs[i + 1].kind == Free then i + 2 else i + 1) && cs[f].addr + total == cs[j].addr
    ensures Shaped(Chunk(cs[f].addr, total, Free)) && cs[i + 1].addr % 8 == 0 && End(cs[j - 1]) == cs[j].addr && f < j < |cs|
    ensures cs[f].addr + MINSIZE <= cs[i + 1].addr <= cs[j].addr && cs[j].addr + 4 < |m|
    ensures Linked(m, cs[j - 1], cs[j]) && (cs[j].kind == Live || cs[j].kind == Fast) && (j == i + 2 ==> cs[i + 1].addr < cs[j].addr)
  {
    At(m, cs, brk, i + 1);
    At(m, cs, brk, j);
    BackwardAt(m, cs, brk, f, i);
    if j == i + 2 { Joined(Chunk(cs[f].addr, End(cs[i]) - cs[f].addr, Free), cs[i + 1], Free); }
  }

  lemma ReleaseBetween(m: seq<nat>, w: seq<nat>, cs: seq<Chunk>, brk: nat, f: nat, i: nat, j: nat, total: nat)
    requires i + 2 < |cs| && f < j < |cs| && Shaped(Chunk(cs[f].addr, total, Free)) && cs[i + 1].addr % 8 == 0
    requires cs[f].addr + total == cs[j].addr == End(cs[j - 1]) && cs[f].addr + MINSIZE <= cs[i + 1].addr <= cs[j].addr && cs[j].addr + 4 < |m|
    requires w == Released(m, cs[i + 1].addr, cs[i + 1].size, cs[f].addr, total)
    ensures Between(m, w, cs[f].addr, End(cs[j - 1]))
  {
    hide Released;
    forall a | 0 <= a < |m| && (a < cs[f].addr + 4 || a >= cs[j].addr + 8) ensures w[a] == m[a] {
      ReleasedAt(m, cs[i + 1].addr, cs[i + 1].size, cs[f].addr, total, a);
    }
  }

  lemma ReleaseSuits(m: seq<nat>, w: seq<nat>, cs: seq<Chunk>, brk: nat, f: nat, i: nat, j: nat, total: nat)
    requires Tiled(m, cs, brk) && i + 2 < |cs| && Backward(cs, f, i) && (cs[i].kind == Live || cs[i].kind == Fast)
    requires j == (if cs[i + 1].kind == Free then i + 2 else i + 1) && cs[f].addr + total == cs[j].addr
    requires cs[f].addr + 4 < |m| && cs[j].addr < |m| && cs[i + 1].addr + 4 < |m|
    requires w == Released(m, cs[i + 1].addr, cs[i + 1].size, cs[f].addr, total)
    ensures f < j && Suits(w, cs, f, j, [Chunk(cs[f].addr, total, Free)])
  {
    var x := Chunk(cs[f].addr, total, Free);
    ReleaseShape(m, cs, brk, f, i, j, total);
    BackwardAt(m, cs, brk, f, i);
    hide Released, Tiled;
    ReleasedAt(m, cs[i + 1].addr, cs[i + 1].size, x.addr, total, x.addr);
    ReleasedAt(m, cs[i + 1].addr, cs[i + 1].size, x.addr, total, cs[j].addr + 4);
    hide Shaped, Backward;
    assert w[cs[j].addr + 4] == cs[j].size;
  }

  /** The top grows. */
  lemma Extend(m: seq<nat>, w: seq<nat>, cs: seq<Chunk>, brk: nat, n: nat)
    requires Tiled(m, cs, brk) && n % ALIGN == 0 && brk + n <= |m|
    requires var t := cs[|cs| - 1]; t.addr + 4 < |m| && w == m[t.addr + 4 := t.size + n + 1]
    ensures var t := cs[|cs| - 1]; Tiled(w, cs[|cs| - 1 := t.(size := t.size + n)], brk + n)
  {
    var i, t := |cs| - 1, cs[|cs| - 1];
    var r := cs[i := t.(size := t.size + n)];
    At(m, cs, brk, i);
    forall k | 0 <= k < |r| ensures ChunkAt(r, k) { assert ChunkAt(cs, k); }
    forall k | 0 < k < |r| ensures LinkedAt(w, r, k) {
      assert LinkedAt(m, cs, k);
      if k < i { Ordered(m, cs, brk, k, i); At(m, cs, brk, k); }
    }
    if i > 0 { Ordered(m, cs, brk, 0, i); At(m, cs, brk, 0); }
  }

  lemma Begin(m: seq<nat>, w: seq<nat>, n: nat)
    requires ChunkSize(n) && n <= |m| && w == m[4 := n + 1]
    ensures Tiled(w, [Chunk(0, n, Top)], n)
  {
    assert ChunkAt([Chunk(0, n, Top)], 0);
  }
}
