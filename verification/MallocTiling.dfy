/**
 The arena of the allocator as a row of chunks.  Memory holds a word at every byte address that is
 a multiple of four; a chunk at `a` has the size of its predecessor at `a`, if that is free, and
 its own size with the use bit of its predecessor at `a + 4`.
 */
module MallocTiling {
  import opened MallocBins

  /** Blocks in use, chunks in a fast bin, chunks in a bin, and the chunk at the top. */
  datatype Kind = Live | Fast | Free | Top

  datatype Chunk = Chunk(addr: nat, size: nat, kind: Kind)

  function End(c: Chunk): nat { c.addr + c.size }

  ghost predicate Shaped(c: Chunk) { c.addr % ALIGN == 0 && ChunkSize(c.size) }

  /** What memory says about neighbours: the size and bit of `b`, and the footer of `a` if it is free. */
  ghost predicate Linked(m: seq<nat>, a: Chunk, b: Chunk) {
    && End(a) == b.addr && b.addr + 4 < |m|
    && m[b.addr + 4] == b.size + (if a.kind == Free then 0 else 1)
    && (a.kind == Free ==> m[b.addr] == a.size && (b.kind == Live || b.kind == Fast))
  }

  ghost predicate LinkedAt(m: seq<nat>, cs: seq<Chunk>, i: nat)
    requires 0 < i < |cs|
  {
    Linked(m, cs[i - 1], cs[i])
  }

  ghost predicate ChunkAt(cs: seq<Chunk>, i: nat)
    requires i < |cs|
  {
    Shaped(cs[i]) && (cs[i].kind == Top <==> i == |cs| - 1)
  }

  /** The chunks fill the arena from 0 to `brk`, and memory agrees with them. */
  ghost predicate Tiled(m: seq<nat>, cs: seq<Chunk>, brk: nat) {
    && cs != [] && brk <= |m|
    && cs[0].addr == 0 && 4 < |m| && m[4] == cs[0].size + 1
    && (forall i | 0 <= i < |cs| :: ChunkAt(cs, i))
    && (forall i | 0 < i < |cs| :: LinkedAt(m, cs, i))
    && End(cs[|cs| - 1]) == brk
  }

  /** Chunks come in the order of their addresses. */
  lemma {:induction false} Ordered(m: seq<nat>, cs: seq<Chunk>, brk: nat, i: nat, j: nat)
    requires Tiled(m, cs, brk) && i < j < |cs|
    ensures End(cs[i]) <= cs[j].addr && End(cs[j]) <= brk
    decreases |cs| - i, j
  {
    assert LinkedAt(m, cs, j);
    assert ChunkAt(cs, j - 1);
    if i < j - 1 { Ordered(m, cs, brk, i, j - 1); }
    if j < |cs| - 1 { EndsInside(m, cs, brk, j); }
  }

  lemma {:induction false} EndsInside(m: seq<nat>, cs: seq<Chunk>, brk: nat, j: nat)
    requires Tiled(m, cs, brk) && j < |cs|
    ensures End(cs[j]) <= brk
    decreases |cs| - j
  {
    if j + 1 < |cs| {
      assert LinkedAt(m, cs, j + 1);
      EndsInside(m, cs, brk, j + 1);
    }
  }

  /** Writes stay between the size word of the chunk at `lo` and that of the chunk at `hi`. */
  ghost predicate Between(m: seq<nat>, w: seq<nat>, lo: nat, hi: nat) {
    |w| == |m| && forall a | 0 <= a < |m| && (a < lo + 4 || a >= hi + 8) :: w[a] == m[a]
  }

  function Replace(cs: seq<Chunk>, i: nat, j: nat, xs: seq<Chunk>): (r: seq<Chunk>)
    requires i <= j <= |cs|
    ensures |r| == |cs| - (j - i) + |xs|
  {
    cs[..i] + xs + cs[j..]
  }

  /** The chunks `xs` can stand where cs[i..j] stood. */
  ghost predicate Suits(w: seq<nat>, cs: seq<Chunk>, i: nat, j: nat, xs: seq<Chunk>)
    requires i < j <= |cs|
  {
    && xs != [] && xs[0].addr == cs[i].addr && End(xs[|xs| - 1]) == End(cs[j - 1])
    && (forall k | 0 <= k < |xs| :: Shaped(xs[k]) && (xs[k].kind == Top <==> j == |cs| && k == |xs| - 1))
    && (forall k | 0 < k < |xs| :: LinkedAt(w, xs, k))
    && (if i == 0 then 4 < |w| && w[4] == xs[0].size + 1 else Linked(w, cs[i - 1], xs[0]))
    && (j < |cs| ==> Linked(w, xs[|xs| - 1], cs[j]))
  }

  lemma LinkedSame(m: seq<nat>, w: seq<nat>, a: Chunk, b: Chunk)
    requires Linked(m, a, b) && |w| == |m| && w[b.addr] == m[b.addr] && w[b.addr + 4] == m[b.addr + 4]
    ensures Linked(w, a, b)
  {
  }

  lemma LinkedOutside(m: seq<nat>, w: seq<nat>, cs: seq<Chunk>, brk: nat, i: nat, j: nat, k: nat)
    requires Tiled(m, cs, brk) && i < j <= |cs| && Between(m, w, cs[i].addr, End(cs[j - 1])) && 0 < k < |cs| && (k < i || k > j)
    ensures LinkedAt(w, cs, k)
  {
    assert LinkedAt(m, cs, k);
    assert ChunkAt(cs, k) && ChunkAt(cs, j - 1);
    if k < i {
      Ordered(m, cs, brk, k, i);
    } else {
      Ordered(m, cs, brk, j, k);
      assert LinkedAt(m, cs, j) && ChunkAt(cs, j);
    }
    LinkedSame(m, w, cs[k - 1], cs[k]);
  }

  lemma RetileLink(m: seq<nat>, w: seq<nat>, cs: seq<Chunk>, brk: nat, i: nat, j: nat, xs: seq<Chunk>, k: nat)
    requires Tiled(m, cs, brk) && i < j <= |cs| && Between(m, w, cs[i].addr, End(cs[j - 1])) && Suits(w, cs, i, j, xs)
    requires 0 < k < |Replace(cs, i, j, xs)|
    ensures LinkedAt(w, Replace(cs, i, j, xs), k)
  {
    var r, n := Replace(cs, i, j, xs), |xs|;
    if k < i {
      LinkedOutside(m, w, cs, brk, i, j, k);
    } else if k > i + n {
      LinkedOutside(m, w, cs, brk, i, j, k - i - n + j);
    } else if i < k < i + n {
      assert LinkedAt(w, xs, k - i);
    }
  }

  /** Replacing a stretch of chunks keeps the arena tiled. */
  lemma Retile(m: seq<nat>, w: seq<nat>, cs: seq<Chunk>, brk: nat, i: nat, j: nat, xs: seq<Chunk>)
    requires Tiled(m, cs, brk) && i < j <= |cs| && Between(m, w, cs[i].addr, End(cs[j - 1])) && Suits(w, cs, i, j, xs)
    ensures Tiled(w, Replace(cs, i, j, xs), brk)
  {
    var r, n := Replace(cs, i, j, xs), |xs|;
    hide Linked, Between, LinkedAt;
    if i > 0 { FirstKept(m, w, cs, brk, i, j); }
    forall k | 0 <= k < |r| ensures ChunkAt(r, k) {
      if k < i { assert ChunkAt(cs, k); } else if k >= i + n { assert ChunkAt(cs, k - i - n + j); }
    }
    forall k | 0 < k < |r| ensures LinkedAt(w, r, k) {
      RetileLink(m, w, cs, brk, i, j, xs, k);
    }
  }

  lemma FirstKept(m: seq<nat>, w: seq<nat>, cs: seq<Chunk>, brk: nat, i: nat, j: nat)
    requires Tiled(m, cs, brk) && 0 < i < j <= |cs| && Between(m, w, cs[i].addr, End(cs[j - 1]))
    ensures |w| == |m| && w[4] == m[4]
  {
    Ordered(m, cs, brk, 0, i);
    assert ChunkAt(cs, 0);
  }

  /** Blocks elsewhere keep their bytes: those from behind the size word to the size word of the next chunk. */
  lemma BlockKept(m: seq<nat>, w: seq<nat>, cs: seq<Chunk>, brk: nat, i: nat, j: nat, k: nat, a: nat)
    requires Tiled(m, cs, brk) && i < j <= |cs| && Between(m, w, cs[i].addr, End(cs[j - 1])) && k < |cs| && (k < i || k >= j)
    requires cs[k].addr + 8 <= a < End(cs[k]) + 4 && a < |m|
    ensures w[a] == m[a]
  {
    if k < i {
      Ordered(m, cs, brk, k, i);
    } else {
      Ordered(m, cs, brk, j - 1, k);
    }
  }

  // ---- Kinds ----

  function OfKind(cs: seq<Chunk>, kind: Kind): set<Chunk> {
    set c | c in cs && c.kind == kind
  }

  lemma Distinct(m: seq<nat>, cs: seq<Chunk>, brk: nat, i: nat, j: nat)
    requires Tiled(m, cs, brk) && i < |cs| && j < |cs| && i != j
    ensures cs[i] != cs[j] && (End(cs[i]) <= cs[j].addr || End(cs[j]) <= cs[i].addr)
  {
    assert ChunkAt(cs, i) && ChunkAt(cs, j);
    if i < j { Ordered(m, cs, brk, i, j); } else { Ordered(m, cs, brk, j, i); }
  }

  /** What a replacement does to the chunks of one kind. */
  lemma KindsReplaced(m: seq<nat>, cs: seq<Chunk>, brk: nat, i: nat, j: nat, xs: seq<Chunk>, kind: Kind)
    requires Tiled(m, cs, brk) && i < j <= |cs|
    ensures OfKind(Replace(cs, i, j, xs), kind) == OfKind(cs, kind) - OfKind(cs[i..j], kind) + OfKind(xs, kind)
  {
    hide Tiled;
    var r := Replace(cs, i, j, xs);
    assert forall q | i <= q < j :: cs[q] in cs[i..j];
    forall c | c in OfKind(r, kind) ensures c in OfKind(cs, kind) - OfKind(cs[i..j], kind) + OfKind(xs, kind) {
      var k :| 0 <= k < |r| && r[k] == c;
      if k < i || k >= i + |xs| {
        NotAmong(m, cs, brk, i, j, if k < i then k else k - i - |xs| + j);
      }
    }
    forall c | c in OfKind(cs, kind) - OfKind(cs[i..j], kind) ensures c in OfKind(r, kind) {
      var l :| 0 <= l < |cs| && cs[l] == c;
      if l < i { assert r[l] == c; } else if l >= j { assert r[l - j + i + |xs|] == c; }
    }
    forall c | c in OfKind(xs, kind) ensures c in OfKind(r, kind) {
      var q :| 0 <= q < |xs| && xs[q] == c;
      assert r[i + q] == c;
    }
  }

  lemma NotAmong(m: seq<nat>, cs: seq<Chunk>, brk: nat, i: nat, j: nat, l: nat)
    requires Tiled(m, cs, brk) && i < j <= |cs| && l < |cs| && (l < i || l >= j)
    ensures cs[l] in cs && cs[l] !in cs[i..j]
  {
    hide Tiled;
    forall q | 0 <= q < |cs[i..j]| ensures cs[i..j][q] != cs[l] { Distinct(m, cs, brk, l, i + q); }
  }
}
