/**
 The arena without its memory.  Where chunks begin and end is decided by the blocks in use, the chunks in fast bins and
 the break: what lies between them is joined as far as it can be.
 */
module MallocLayout {
  import opened MallocBins
  import opened MallocTiling
  import opened MallocMoves
  import opened MallocLists

  ghost predicate Follows(a: Chunk, b: Chunk) {
    End(a) == b.addr && (a.kind == Free ==> b.kind == Live || b.kind == Fast)
  }

  ghost predicate FollowsAt(cs: seq<Chunk>, i: nat)
    requires 0 < i < |cs|
  {
    Follows(cs[i - 1], cs[i])
  }

  /** Chunks that fill the arena, no two free ones side by side, and none in front of the top. */
  ghost predicate Layout(cs: seq<Chunk>, brk: nat) {
    && cs != [] && cs[0].addr == 0 && End(cs[|cs| - 1]) == brk
    && (forall i | 0 <= i < |cs| :: ChunkAt(cs, i))
    && (forall i | 0 < i < |cs| :: FollowsAt(cs, i))
  }

  lemma TiledLayout(m: seq<nat>, cs: seq<Chunk>, brk: nat)
    requires Tiled(m, cs, brk)
    ensures Layout(cs, brk)
  {
    forall i | 0 < i < |cs| ensures FollowsAt(cs, i) { assert LinkedAt(m, cs, i); }
  }

  lemma {:induction false} Increasing(cs: seq<Chunk>, brk: nat, i: nat, j: nat)
    requires Layout(cs, brk) && i < j < |cs|
    ensures End(cs[i]) <= cs[j].addr && cs[i].addr < cs[j].addr
    decreases j
  {
    assert FollowsAt(cs, j) && ChunkAt(cs, j - 1);
    if i < j - 1 { Increasing(cs, brk, i, j - 1); }
  }

  /** A chunk in use is found in every layout with the same blocks and fast chunks. */
  ghost predicate SameUse(cs: seq<Chunk>, ds: seq<Chunk>) {
    OfKind(cs, Live) == OfKind(ds, Live) && OfKind(cs, Fast) == OfKind(ds, Fast)
  }

  lemma FindUsed(cs: seq<Chunk>, ds: seq<Chunk>, i: nat) returns (j: nat)
    requires SameUse(cs, ds) && i < |cs| && (cs[i].kind == Live || cs[i].kind == Fast)
    ensures j < |ds| && ds[j] == cs[i]
  {
    assert cs[i] in OfKind(ds, cs[i].kind);
    j :| 0 <= j < |ds| && ds[j] == cs[i];
  }

  /** A chunk that is not in use ends where the other layout's does. */
  lemma GapEnds(cs: seq<Chunk>, ds: seq<Chunk>, brk: nat, i: nat)
    requires Layout(cs, brk) && Layout(ds, brk) && SameUse(cs, ds) && i < |cs| && i < |ds| && cs[i].addr == ds[i].addr
    requires cs[i].kind == Free && ds[i].kind != Live && ds[i].kind != Fast
    ensures ds[i].kind == Free && End(ds[i]) <= End(cs[i])
  {
    hide OfKind;
    assert ChunkAt(cs, i) && ChunkAt(ds, i);
    assert FollowsAt(cs, i + 1);
    var j := FindUsed(cs, ds, i + 1);
    assert j != i;
    if j < i { Increasing(ds, brk, j, i); } else { Increasing(ds, brk, i, j); }
    if ds[i].kind == Free { assert FollowsAt(ds, i + 1); }
  }

  lemma SameAt(cs: seq<Chunk>, ds: seq<Chunk>, brk: nat, i: nat)
    requires Layout(cs, brk) && Layout(ds, brk) && SameUse(cs, ds) && i < |cs| && i < |ds| && cs[i].addr == ds[i].addr
    ensures cs[i] == ds[i]
  {
    assert ChunkAt(cs, i) && ChunkAt(ds, i);
    if cs[i].kind == Live || cs[i].kind == Fast {
      var j := FindUsed(cs, ds, i);
      if j < i { Increasing(ds, brk, j, i); } else if j > i { Increasing(ds, brk, i, j); }
    } else if ds[i].kind == Live || ds[i].kind == Fast {
      var j := FindUsed(ds, cs, i);
      if j < i { Increasing(cs, brk, j, i); } else if j > i { Increasing(cs, brk, i, j); }
    } else {
      if cs[i].kind == Free { GapEnds(cs, ds, brk, i); }
      if ds[i].kind == Free { GapEnds(ds, cs, brk, i); }
    }
  }

  lemma {:induction false} SamePrefix(cs: seq<Chunk>, ds: seq<Chunk>, brk: nat, i: nat)
    requires Layout(cs, brk) && Layout(ds, brk) && SameUse(cs, ds) && i < |cs| && i < |ds|
    ensures cs[..i + 1] == ds[..i + 1]
    decreases i
  {
    hide SameUse;
    if i > 0 {
      SamePrefix(cs, ds, brk, i - 1);
      assert cs[i - 1] == cs[..i][i - 1] == ds[..i][i - 1] == ds[i - 1];
      assert FollowsAt(cs, i) && FollowsAt(ds, i);
    }
    SameAt(cs, ds, brk, i);
    assert cs[..i + 1] == cs[..i] + [cs[i]] && ds[..i + 1] == ds[..i] + [ds[i]];
  }

  /** The blocks in use, the fast chunks and the break decide all other chunks. */
  lemma SameLayout(cs: seq<Chunk>, ds: seq<Chunk>, brk: nat)
    requires Layout(cs, brk) && Layout(ds, brk) && OfKind(cs, Live) == OfKind(ds, Live) && OfKind(cs, Fast) == OfKind(ds, Fast)
    ensures cs == ds
  {
    var n := if |cs| < |ds| then |cs| else |ds|;
    SamePrefix(cs, ds, brk, n - 1);
    assert cs[n - 1] == cs[..n][n - 1] == ds[..n][n - 1] == ds[n - 1];
    assert ChunkAt(cs, n - 1) && ChunkAt(ds, n - 1);
    assert cs[..n] == cs && ds[..n] == ds;
  }
}
