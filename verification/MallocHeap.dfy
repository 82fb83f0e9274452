/** The allocator: malloc, free and consolidation over the arena, the linked bins and the bin map. */
module MallocHeap {
  import opened Arithmetic
  import opened MallocBins
  import opened MallocTiling
  import opened MallocMoves
  import opened MallocLists
  import opened MallocThreads
  import opened MallocLayout
  import opened MallocSteps

  class Heap {
    const mem: array<nat>
    const limit: nat
    var brk: nat
    var top: nat
    var lastRemainder: nat
    var ready: bool
    var any: bool
    var fast: bool
    /** The first chunk of each fast bin, and the first and the last of each bin, as links. */
    var heads: seq<nat>
    var first: seq<nat>
    var last: seq<nat>
    var binmap: seq<nat>
    /** The row of chunks, and what the lists hold. */
    ghost var cs: seq<Chunk>
    ghost var bins: seq<seq<Chunk>>
    ghost var fastbins: seq<seq<Chunk>>

    ghost function Memory(): (m: seq<nat>)
      reads mem
      ensures |m| == mem.Length
    {
      mem[..]
    }

    ghost function Web(): (t: Links)
      reads this, mem
    {
      Links(Memory(), first, last)
    }

    /** The arena is tiled by `cs` up to the break. */
    ghost predicate Arena()
      reads this, mem
    {
      && brk <= limit <= mem.Length && limit < 0x8000_0000 && brk % PAGE == 0
      && (if brk == 0 then cs == [] else Tiled(Memory(), cs, brk) && top == cs[|cs| - 1].addr)
    }

    /** The lists are threaded through memory, the bins once they have been set up. */
    ghost predicate Woven()
      reads this, mem
    {
      (ready ==> Threads(Web(), bins)) && Chains(Memory(), heads, fastbins) && (brk > 0 ==> ready)
    }

    /** The bins hold the free chunks, but for those in `x`. */
    ghost predicate Sound(x: set<Chunk>)
      reads this, mem
    {
      && Arena() && Woven()
      && BinsOk(OfKind(cs, Free) - x, bins) && FastOk(OfKind(cs, Fast) - x, fastbins) && MapOk(bins, binmap)
    }

    /** The flags that let searches be skipped. */
    ghost predicate Flags()
      reads this
    {
      && (!fast ==> OfKind(cs, Fast) == {})
      && (!any ==> !fast && OfKind(cs, Free) == {})
      && (!ready ==> !any && brk == 0)
    }

    ghost predicate Valid()
      reads this, mem
    {
      Sound({}) && Flags()
    }

    /** The blocks handed out and not given back. */
    ghost function Blocks(): set<Chunk>
      reads this
    {
      OfKind(cs, Live)
    }

    constructor (size: nat)
      requires size < 0x8000_0000 && size % PAGE == 0
      ensures Valid() && Blocks() == {} && limit == size && brk == 0
    {
      mem := new nat[size](_ => 0);
      limit, brk, top, lastRemainder := size, 0, 0, 0;
      ready, any, fast := false, false, false;
      heads, first, last, binmap := seq(NFASTBINS, _ => 0), seq(NBINS, _ => 0), seq(NBINS, _ => 0), seq(BINMAPSIZE + 1, _ => 0);
      cs, bins, fastbins := [], seq(NBINS, _ => []), seq(NFASTBINS, _ => []);
      new;
      PowPositive(BITSPERMAP);
    }

    /** A program writes into its block. */
    method Write(a: nat, x: nat, ghost c: Chunk)
      requires Valid() && c in Blocks() && c.addr + 8 <= a < End(c) + 4
      modifies mem
      ensures Valid() && a < mem.Length && Memory() == old(Memory())[a := x]
    {
      hide BinsOk, FastOk, MapOk, Tiled, Threads, Chains, Kept;
      ghost var i :| 0 <= i < |cs| && cs[i] == c;
      LiveNotFree(cs, i);
      hide OfKind;
      ghost var m := Memory();
      At(m, cs, brk, i);
      WordKeeps(m, cs, brk, i, a, x);
      mem[a] := x;
      assert Memory() == m[a := x];
      ThreadsKept(m, Memory(), first, last, OfKind(cs, Free) - {}, bins);
      ChainsKept(m, Memory(), heads, OfKind(cs, Fast) - {}, fastbins);
    }

    // ---- Links ----

    method SetFd(p: nat, x: nat)
      requires Legal(Web(), p)
      modifies this`first, mem
      ensures Web() == PutFd(old(Web()), p, x)
    {
      if p < HEAP { first := first[p := x]; } else { mem[p - HEAP + 8] := x; }
    }

    method SetBk(p: nat, x: nat)
      requires Legal(Web(), p)
      modifies this`last, mem
      ensures Web() == PutBk(old(Web()), p, x)
    {
      if p < HEAP { last := last[p := x]; } else { mem[p - HEAP + 12] := x; }
    }

    /** Unlinks the chunk at `a`, which is `c`, at place `j` of bin `k`. */
    method Unlink(a: nat, ghost k: nat, ghost j: nat, ghost c: Chunk, ghost x: set<Chunk>)
      requires Sound(x) && brk > 0 && |bins| == NBINS && 1 <= k < NBINS && j < |bins[k]| && bins[k][j] == c && c.addr == a
      modifies this`first, this`last, this`bins, mem
      ensures Sound(x + {c}) && bins == old(bins)[k := DropAt(old(bins)[k], j)] && c in OfKind(cs, Free)
      ensures Kept(Blocks(), old(Memory()), Memory())
    {
      hide BinsOk, FastOk, MapOk, Tiled, Threads, Chains, Kept, OfKind, Unlinked, Legal, Fd, Bk, DropAt, Node, Spaced;
      ghost var t, free, quick := Web(), OfKind(cs, Free) - x, OfKind(cs, Fast) - x;
      FreeSpaced(t.m, cs, brk, x);
      UnlinkBins(t, free, bins, k, j);
      TakeOut(free, bins, k, j);
      MapChange(bins, binmap, k, DropAt(bins[k], j));
      NodeStop(cs, free, bins, k, j + 1);
      NodeStop(cs, free, bins, k, j - 1);
      LinkReads(t, c);
      var fd, bk := mem[a + 8], mem[a + 12];
      UnlinkUndisturbed(t, fd, bk, cs, brk);
      UnlinkedIs(t, fd, bk);
      SetBk(fd, bk);
      SetFd(bk, fd);
      UnlinkedIs(t, fd, bk);
      bins := bins[k := DropAt(bins[k], j)];
      KeptLess(OfKind(cs, Fast), quick, t.m, Memory());
      ChainsKept(t.m, Memory(), heads, quick, fastbins);
      MoreOut(cs, c, x);
    }

    /** The four words that link `p` in between `bk` and `fd`. */
    method WriteLinks(p: nat, bk: nat, fd: nat)
      requires Legal(Web(), p) && Legal(Web(), bk) && Legal(Web(), fd)
      modifies this`first, this`last, mem
      ensures Web() == Inserted(old(Web()), p, bk, fd)
    {
      InsertedIs(Web(), p, bk, fd);
      hide Inserted, Legal;
      SetBk(p, bk);
      SetFd(p, fd);
      SetBk(fd, p);
      SetFd(bk, p);
    }

    /** Links the chunk at `a`, which is `c`, between `bk` and `fd`, the places around place `j` of bin `k`. */
    method LinkIn(k: nat, a: nat, bk: nat, fd: nat, ghost j: nat, ghost c: Chunk, ghost x: set<Chunk>)
      requires Sound(x + {c}) && c !in x && brk > 0 && |bins| == NBINS && 1 <= k < NBINS && j <= |bins[k]| && c in OfKind(cs, Free) && c.addr == a
      requires bk == Node(k, bins[k], j - 1) && fd == Node(k, bins[k], j)
      requires k == UNSORTED || (k == BinNumber(c.size) && (k >= NSMALLBINS ==> FitsAt(bins[k], j, c.size)))
      modifies this`first, this`last, this`binmap, this`bins, mem
      ensures Sound(x) && bins == old(bins)[k := InsertAt(old(bins)[k], j, c)]
      ensures Kept(Blocks(), old(Memory()), Memory())
    {
      hide BinsOk, FastOk, MapOk, Tiled, Threads, Chains, Kept, OfKind, Inserted, Legal, Fd, Bk, InsertAt, Node, Spaced, BinNumber, FitsAt;
      ghost var t, free, quick := Web(), OfKind(cs, Free) - (x + {c}), OfKind(cs, Fast) - (x + {c});
      FreeSpaced(t.m, cs, brk, x);
      LessMore(cs, c, x);
      InsertBins(t, free, bins, k, j, c);
      FreeSize(t.m, cs, brk, c);
      PutIn(free, bins, k, j, c);
      MapChange(bins, binmap, k, InsertAt(bins[k], j, c));
      MapSize(bins, binmap);
      NodeStop(cs, free, bins, k, j);
      NodeStop(cs, free, bins, k, j - 1);
      ChunkStop(cs, c);
      InsertUndisturbed(t, a + HEAP, bk, fd, cs, brk);
      if k != UNSORTED { binmap := MarkBin(binmap, k); }
      WriteLinks(a + HEAP, bk, fd);
      bins := bins[k := InsertAt(bins[k], j, c)];
      KeptLess(OfKind(cs, Fast), quick, t.m, Memory());
      ChainsKept(t.m, Memory(), heads, quick, fastbins);
    }

    // ---- Releasing chunks ----

    /** Joins the chunk at `p` with a free predecessor. */
    method JoinBack(p: nat, ghost i: nat) returns (a: nat, size: nat, ghost f: nat)
      requires i < |cs| && Sound({cs[i]}) && brk > 0 && cs[i].addr == p && (cs[i].kind == Live || cs[i].kind == Fast)
      modifies this`first, this`last, this`bins, mem
      ensures Backward(cs, f, i) && a == cs[f].addr && a + size == End(cs[i]) && Sound({cs[i], cs[f]})
      ensures Kept(Blocks(), old(Memory()), Memory())
    {
      hide Tiled, BinsOk, FastOk, MapOk, SizeOf, PrevInUse, Threads, Chains, Kept;
      Around(Memory(), cs, brk, i);
      KeptSame(Blocks(), Memory());
      a, size, f := p, SizeOf(mem[p + 4]), i;
      if !PrevInUse(mem[p + 4]) {
        var prevsize := mem[p];
        a, size, f := p - prevsize, size + prevsize, i - 1;
        ghost var c := cs[f];
        assert c in OfKind(cs, Free) - {cs[i]};
        hide OfKind;
        ghost var k, j := Locate(OfKind(cs, Free) - {cs[i]}, bins, c);
        Unlink(a, k, j, c, {cs[i]});
        assert {cs[i]} + {c} == {cs[i], cs[f]};
      } else {
        assert {cs[i]} == {cs[i], cs[f]};
      }
    }

    /** Joins the chunk with the top. */
    method JoinTop(a: nat, size: nat, ghost f: nat, ghost i: nat)
      requires i + 2 == |cs| && Backward(cs, f, i) && Sound({cs[i], cs[f]}) && brk > 0 && (cs[i].kind == Live || cs[i].kind == Fast)
      requires a == cs[f].addr && a + size == brk
      modifies this`top, this`cs, mem
      ensures Sound({})
      ensures Blocks() == old(Blocks()) - {old(cs[i])} && OfKind(cs, Fast) == old(OfKind(cs, Fast)) - {old(cs[i])}
      ensures Kept(Blocks(), old(Memory()), Memory())
    {
      hide Tiled, BinsOk, FastOk, MapOk, Kept, OfKind, Replace, SizeOf, PrevInUse, Threads, Chains;
      assert f <= i;
      hide Backward;
      ghost var m := Memory();
      HeadAt(m, cs, brk, f);
      mem[a + 4] := size + 1;
      top := a;
      assert Memory() == m[a + 4 := size + 1];
      TopJoined(m, Memory(), cs, brk, f, i, size);
      cs := Replace(cs, f, i + 2, [Chunk(a, size, Top)]);
      ThreadsKept(m, Memory(), first, last, OfKind(cs, Free) - {}, bins);
      ChainsKept(m, Memory(), heads, OfKind(cs, Fast) - {}, fastbins);
    }

    /** Takes a free successor out of its bin. */
    method JoinNext(next: nat, nextsize: nat, ghost f: nat, ghost i: nat) returns (more: nat, ghost j: nat)
      requires i + 2 < |cs| && Backward(cs, f, i) && Sound({cs[i], cs[f]}) && brk > 0 && (cs[i].kind == Live || cs[i].kind == Fast)
      requires next == cs[i + 1].addr && nextsize == cs[i + 1].size
      modifies this`first, this`last, this`bins, mem
      ensures j == (if cs[i + 1].kind == Free then i + 2 else i + 1) && next + more == cs[j].addr
      ensures Sound({cs[i], cs[f], cs[j - 1]}) && Kept(Blocks(), old(Memory()), Memory())
    {
      hide Tiled, BinsOk, FastOk, MapOk, OfKind, PrevInUse, SizeOf, Threads, Chains, Kept;
      assert f <= i;
      hide Backward;
      ghost var x := {cs[i], cs[f]};
      Around(Memory(), cs, brk, i);
      NextFree(Memory(), cs, brk, f, i);
      KeptSame(Blocks(), Memory());
      more, j := 0, i + 1;
      if !PrevInUse(mem[next + nextsize + 4]) {
        ghost var k, q := Locate(OfKind(cs, Free) - x, bins, cs[i + 1]);
        Unlink(next, k, q, cs[i + 1], x);
        more, j := nextsize, i + 2;
        assert x + {cs[i + 1]} == {cs[i], cs[f], cs[j - 1]};
      } else {
        assert x == {cs[i], cs[f], cs[j - 1]};
      }
    }

    method WriteReleased(next: nat, nextsize: nat, a: nat, size: nat)
      requires next + 4 < mem.Length && a + 4 < mem.Length && a + size < mem.Length
      modifies mem
      ensures Memory() == Released(old(Memory()), next, nextsize, a, size)
    {
      mem[next + 4] := nextsize;
      mem[a + 4] := size + 1;
      mem[a + size] := size;
    }

    /** Makes the joined chunk a free one. */
    method MakeFree(a: nat, size: nat, next: nat, nextsize: nat, ghost f: nat, ghost i: nat, ghost j: nat)
      requires i + 2 < |cs| && Backward(cs, f, i) && brk > 0 && (cs[i].kind == Live || cs[i].kind == Fast)
      requires j == (if cs[i + 1].kind == Free then i + 2 else i + 1) && Sound({cs[i], cs[f], cs[j - 1]})
      requires a == cs[f].addr && a + size == cs[j].addr && next == cs[i + 1].addr && nextsize == cs[i + 1].size
      modifies this`cs, mem
      ensures var c := Chunk(a, size, Free); Sound({c}) && c in OfKind(cs, Free) && |bins| == NBINS
      ensures Blocks() == old(Blocks()) - {old(cs[i])} && OfKind(cs, Fast) == old(OfKind(cs, Fast)) - {old(cs[i])}
      ensures Kept(Blocks(), old(Memory()), Memory())
    {
      hide Tiled, BinsOk, FastOk, MapOk, Kept, OfKind, Replace, PrevInUse, SizeOf, Released, Threads, Chains;
      ghost var m := Memory();
      assert f <= i;
      hide Backward;
      HeadAt(m, cs, brk, f);
      HeadAt(m, cs, brk, j);
      HeadAt(m, cs, brk, i + 1);
      ghost var c, free := Chunk(a, size, Free), OfKind(cs, Free) - {cs[i], cs[f], cs[j - 1]};
      BinsSize(free, bins);
      WriteReleased(next, nextsize, a, size);
      NextJoined(m, Memory(), cs, brk, f, i, j, size);
      cs := Replace(cs, f, j, [c]);
      assert c in free + {c};
      ThreadsKept(m, Memory(), first, last, free, bins);
      ChainsKept(m, Memory(), heads, OfKind(cs, Fast) - {c}, fastbins);
    }

    /** Makes the joined chunk a free one at the front of the unsorted bin. */
    method PutUnsorted(a: nat, size: nat, next: nat, nextsize: nat, ghost f: nat, ghost i: nat, ghost j: nat)
      requires i + 2 < |cs| && Backward(cs, f, i) && brk > 0 && (cs[i].kind == Live || cs[i].kind == Fast)
      requires j == (if cs[i + 1].kind == Free then i + 2 else i + 1) && Sound({cs[i], cs[f], cs[j - 1]})
      requires a == cs[f].addr && a + size == cs[j].addr && next == cs[i + 1].addr && nextsize == cs[i + 1].size
      modifies this`first, this`last, this`binmap, this`bins, this`cs, mem
      ensures Sound({})
      ensures Blocks() == old(Blocks()) - {old(cs[i])} && OfKind(cs, Fast) == old(OfKind(cs, Fast)) - {old(cs[i])}
      ensures Kept(Blocks(), old(Memory()), Memory())
      ensures |old(bins)| == NBINS && bins == old(bins)[UNSORTED := InsertAt(old(bins)[UNSORTED], 0, Chunk(a, size, Free))]
    {
      hide Tiled, BinsOk, FastOk, MapOk, Kept, OfKind, Threads, Chains, Backward, InsertAt;
      ghost var m, c := Memory(), Chunk(a, size, Free);
      MakeFree(a, size, next, nextsize, f, i, j);
      ghost var v := Memory();
      assert {} + {c} == {c};
      HeaderReads(Web(), bins, UNSORTED);
      LinkIn(UNSORTED, a, UNSORTED, first[UNSORTED], 0, c, {});
      KeptOn(Blocks(), m, v, Memory());
    }

    /** Joins the released chunk at `p` with its free neighbours, and puts it into the unsorted bin or into the top. */
    method Coalesce(p: nat, ghost i: nat) returns (size: nat)
      requires i < |cs| && Sound({cs[i]}) && brk > 0 && cs[i].addr == p && (cs[i].kind == Live || cs[i].kind == Fast)
      modifies this`first, this`last, this`binmap, this`bins, this`top, this`cs, mem
      ensures Sound({}) && size == JoinedSize(old(cs), i)
      ensures Blocks() == old(Blocks()) - {old(cs[i])} && OfKind(cs, Fast) == old(OfKind(cs, Fast)) - {old(cs[i])}
      ensures Kept(Blocks(), old(Memory()), Memory())
    {
      hide Tiled, BinsOk, FastOk, MapOk, Kept, OfKind, Backward, PrevInUse, SizeOf, Threads, Chains;
      ghost var m, live := Memory(), Blocks();
      Around(m, cs, brk, i);
      var next := p + SizeOf(mem[p + 4]);
      var nextsize := SizeOf(mem[next + 4]);
      var a;
      ghost var f;
      a, size, f := JoinBack(p, i);
      ghost var v := Memory();
      JoinedIs(v, cs, brk, f, i);
      hide JoinedSize;
      if next != top {
        var more;
        ghost var j;
        more, j := JoinNext(next, nextsize, f, i);
        KeptOn(live, m, v, Memory());
        v := Memory();
        size := size + more;
        PutUnsorted(a, size, next, nextsize, f, i, j);
      } else {
        size := size + nextsize;
        JoinTop(a, size, f, i);
      }
      KeptLess(live, Blocks(), m, v);
      KeptOn(Blocks(), m, v, Memory());
    }

    /** Empties the fast bins, joining what they hold; the first time round, sets the bins up. */
    method Consolidate()
      requires Valid() && (fast || !ready)
      modifies this, mem
      ensures Valid() && ready && !fast && any == old(any) && brk == old(brk) && lastRemainder == old(lastRemainder)
      ensures OfKind(cs, Fast) == {} && (brk > 0 ==> Settled(old(cs), brk, cs))
      ensures Blocks() == old(Blocks()) && Kept(Blocks(), old(Memory()), Memory())
    {
      hide Tiled, BinsOk, FastOk, MapOk, OfKind, Threads, Chains, Kept;
      ghost var m, live := Memory(), Blocks();
      KeptSame(live, m);
      if brk > 0 { TiledLayout(m, cs, brk); }
      if !ready {
        EmptyBins(cs, bins, seq(NBINS, _ => []), binmap);
        bins := seq(NBINS, _ => []);
        first, last := seq(NBINS, i => i), seq(NBINS, i => i);
        EmptyThreads(Web(), bins);
        ready := true;
        return;
      }
      fast := false;
      var k := 0;
      HeadReads(Memory(), heads, fastbins, 0);
      while k <= FastbinIndex(MXFAST)
        invariant 0 <= k <= NFASTBINS && Sound({}) && Blocks() == live && Kept(live, m, Memory())
        invariant |heads| == |fastbins| == NFASTBINS && forall q | 0 <= q < k :: fastbins[q] == []
        invariant ready && !fast && any == old(any) && brk == old(brk) && lastRemainder == old(lastRemainder)
      {
        HeadReads(Memory(), heads, fastbins, k);
        while heads[k] != 0
          invariant Sound({}) && Blocks() == live && Kept(live, m, Memory())
          invariant |heads| == |fastbins| == NFASTBINS && (heads[k] == 0 <==> fastbins[k] == [])
          invariant forall q | 0 <= q < k :: fastbins[q] == []
          invariant ready && !fast && any == old(any) && brk == old(brk) && lastRemainder == old(lastRemainder)
          decreases |fastbins[k]|
        {
          ghost var v := Memory();
          PopFast(k);
          KeptOn(live, m, v, Memory());
          HeadReads(Memory(), heads, fastbins, k);
        }
        k := k + 1;
      }
      NoFast(OfKind(cs, Fast), fastbins);
      if brk > 0 { TiledLayout(Memory(), cs, brk); }
    }

    /** Takes one chunk out of a fast bin and joins it with its neighbours. */
    method PopFast(k: nat)
      requires Sound({}) && k < NFASTBINS && |heads| == |fastbins| == NFASTBINS && fastbins[k] != []
      modifies this`first, this`last, this`binmap, this`heads, this`bins, this`top, this`cs, this`fastbins, mem
      ensures Sound({}) && |heads| == NFASTBINS && fastbins == old(fastbins)[k := old(fastbins)[k][1..]]
      ensures Blocks() == old(Blocks()) && Kept(Blocks(), old(Memory()), Memory())
    {
      hide Tiled, BinsOk, FastOk, MapOk, Kept, Threads, Chains;
      ghost var c := fastbins[k][0];
      LessNone(OfKind(cs, Fast), c);
      LessNone(OfKind(cs, Free), c);
      FastPop(OfKind(cs, Fast), fastbins, k);
      PopChain(Memory(), heads, fastbins, k);
      ghost var i :| 0 <= i < |cs| && cs[i] == c;
      assert OfKind(cs, Free) - {c} == OfKind(cs, Free) && c !in Blocks();
      LessNone(Blocks(), c);
      hide OfKind;
      var a := heads[k] - HEAP;
      heads := heads[k := mem[a + 8]];
      fastbins := fastbins[k := fastbins[k][1..]];
      var size := Coalesce(a, i);
    }

    function MaxFast(): nat
      reads this
    {
      if ready then MXFAST + (if any then 1 else 0) + (if fast then 2 else 0) else 0
    }

    /** Puts a small block into its fast bin. */
    method PushFast(ghost i: nat, p: nat, size: nat)
      requires i < |cs| && Sound({}) && brk > 0 && cs[i].kind == Live && cs[i].addr == p && cs[i].size == size <= MXFAST
      modifies this`heads, this`fastbins, this`cs, mem
      ensures Sound({}) && Blocks() == old(Blocks()) - {old(cs[i])} && Kept(Blocks(), old(Memory()), Memory())
      ensures OfKind(cs, Fast) == old(OfKind(cs, Fast)) + {Chunk(p, size, Fast)} && OfKind(cs, Free) == old(OfKind(cs, Free))
      ensures var k := FastbinIndex(size); k < |old(fastbins)| && fastbins == old(fastbins)[k := [Chunk(p, size, Fast)] + old(fastbins)[k]]
    {
      hide Tiled, BinsOk, FastOk, MapOk, OfKind, Replace, Threads, Chains, Kept;
      ghost var m, c, free, quick := Memory(), Chunk(p, size, Fast), OfKind(cs, Free) - {}, OfKind(cs, Fast) - {};
      At(m, cs, brk, i);
      TurnKinds(m, cs, brk, i, Fast);
      ghost var r := Replace(cs, i, i + 1, [c]);
      FastSize(quick, fastbins);
      var k := FastbinIndex(size);
      HeadReads(m, heads, fastbins, k);
      LessNone(OfKind(cs, Fast), c);
      FastPush(quick, fastbins, c);
      ReplacedAt(cs, i, c);
      At(m, r, brk, i);
      WordKeeps(m, r, brk, i, p + 8, heads[k]);
      mem[p + 8] := heads[k];
      assert Memory() == m[p + 8 := heads[k]];
      FastRest(cs, r, c);
      ThreadsKept(m, Memory(), first, last, free, bins);
      ChainsKept(m, Memory(), heads, quick, fastbins);
      PushChain(Memory(), heads, fastbins, k, c);
      heads := heads[k := p + HEAP];
      fastbins := fastbins[k := [c] + fastbins[k]];
      cs := r;
    }

    /** Gives a block back; 0 is ignored. */
    method FreeBlock(r: nat, ghost c: Chunk)
      requires Valid() && (r == 0 || (c in Blocks() && r == c.addr + 8))
      modifies this, mem
      ensures Valid() && Kept(Blocks(), old(Memory()), Memory())
      ensures Blocks() == if r == 0 then old(Blocks()) else old(Blocks()) - {c}
      ensures brk == old(brk) && lastRemainder == old(lastRemainder) && (if r == 0 then cs == old(cs) else c.size >= MINSIZE)
      ensures r != 0 && c.size <= old(MaxFast()) ==> var k := FastbinIndex(c.size);
        && OfKind(cs, Fast) == old(OfKind(cs, Fast)) + {c.(kind := Fast)} && OfKind(cs, Free) == old(OfKind(cs, Free))
        && k < |old(fastbins)| && fastbins == old(fastbins)[k := [c.(kind := Fast)] + old(fastbins)[k]]
      ensures r != 0 && c.size > old(MaxFast()) ==> forall i | 0 <= i < |old(cs)| && old(cs)[i] == c ::
        OfKind(cs, Fast) == if old(fast) && JoinedSize(old(cs), i) >= CONSOLIDATE then {} else old(OfKind(cs, Fast))
    {
      hide Tiled, BinsOk, FastOk, MapOk, SizeOf, Kept, Threads, Chains;
      KeptSame(Blocks(), Memory());
      if r == 0 { return; }
      ghost var i :| 0 <= i < |cs| && cs[i] == c;
      hide OfKind;
      HeadAt(Memory(), cs, brk, i);
      At(Memory(), cs, brk, i);
      OneIndex(Memory(), cs, brk, i);
      hide Shaped, JoinedSize;
      var p := r - 8;
      var size := SizeOf(mem[p + 4]);
      if size <= MaxFast() {
        SmallEnough(cs[i]);
        any, fast := true, true;
        PushFast(i, p, size);
      } else {
        FreeLarge(p, i);
      }
    }

    /** Gives back a block that is too large for the fast bins. */
    method FreeLarge(p: nat, ghost i: nat)
      requires Valid() && brk > 0 && i < |cs| && cs[i].kind == Live && cs[i].addr == p
      modifies this, mem
      ensures Valid() && Kept(Blocks(), old(Memory()), Memory())
      ensures Blocks() == old(Blocks()) - {old(cs[i])} && brk == old(brk) && lastRemainder == old(lastRemainder)
      ensures OfKind(cs, Fast) == if old(fast) && JoinedSize(old(cs), i) >= CONSOLIDATE then {} else old(OfKind(cs, Fast))
    {
      hide Tiled, BinsOk, FastOk, MapOk, SizeOf, OfKind, Threads, Chains, Kept, JoinedSize, Settled;
      any := true;
      LiveNotFree(cs, i);
      ghost var m := Memory();
      var size := Coalesce(p, i);
      if size >= CONSOLIDATE && fast {
        ghost var v := Memory();
        Consolidate();
        KeptOn(Blocks(), m, v, Memory());
      }
    }

    // ---- Taking chunks ----

    /** Takes a free chunk, already out of its bin, as it is. */
    method UseWhole(a: nat, size: nat, ghost c: Chunk)
      requires Sound({c}) && brk > 0 && c in cs && c == Chunk(a, size, Free)
      modifies this`cs, mem
      ensures Sound({}) && Granted(old(Blocks()), Blocks(), Chunk(a, size, Live)) && Kept(old(Blocks()), old(Memory()), Memory())
      ensures OfKind(cs, Fast) == old(OfKind(cs, Fast)) && OfKind(cs, Free) == old(OfKind(cs, Free)) - {c}
    {
      hide Tiled, BinsOk, FastOk, MapOk, Kept, OfKind, Granted, Replace, SizeOf, PrevInUse, Threads, Chains;
      ghost var i :| 0 <= i < |cs| && cs[i] == c;
      ghost var m, free, quick := Memory(), OfKind(cs, Free) - {c}, OfKind(cs, Fast) - {c};
      var next := a + size;
      WholeTaken(m, cs, brk, i);
      LessNone(OfKind(cs, Fast), c);
      mem[next + 4] := mem[next + 4] / 2 * 2 + 1;
      assert Memory() == m[next + 4 := m[next + 4] / 2 * 2 + 1];
      cs := Replace(cs, i, i + 1, [Chunk(a, size, Live)]);
      LessNone(OfKind(cs, Fast), c);
      LessNone(OfKind(cs, Free), c);
      ThreadsKept(m, Memory(), first, last, free, bins);
      ChainsKept(m, Memory(), heads, quick, fastbins);
    }

    /** Splits a free chunk, already out of its bin; the rest is free. */
    method CutFront(a: nat, size: nat, nb: nat, ghost c: Chunk)
      requires Sound({c}) && brk > 0 && c in cs && c == Chunk(a, size, Free) && ChunkSize(nb) && size >= nb + MINSIZE
      modifies this`cs, mem
      ensures var rest := Chunk(a + nb, size - nb, Free); Sound({rest}) && rest in OfKind(cs, Free)
      ensures Granted(old(Blocks()), Blocks(), Chunk(a, nb, Live)) && Kept(old(Blocks()), old(Memory()), Memory())
      ensures OfKind(cs, Fast) == old(OfKind(cs, Fast)) && OfKind(cs, Free) == old(OfKind(cs, Free)) - {c} + {Chunk(a + nb, size - nb, Free)}
    {
      hide Tiled, BinsOk, FastOk, MapOk, Kept, OfKind, Granted, Replace, SizeOf, PrevInUse, ChunkSize, Threads, Chains;
      ghost var i :| 0 <= i < |cs| && cs[i] == c;
      ghost var m, rest, free, quick := Memory(), Chunk(a + nb, size - nb, Free), OfKind(cs, Free) - {c}, OfKind(cs, Fast) - {c};
      FrontTaken(m, cs, brk, i, nb, size - nb);
      LessNone(OfKind(cs, Fast), c);
      mem[a + 4] := nb + 1;
      mem[a + nb + 4] := size - nb + 1;
      mem[a + size] := size - nb;
      assert Memory() == CutFree(m, a, nb, size - nb);
      cs := Replace(cs, i, i + 1, [Chunk(a, nb, Live), rest]);
      ThreadsKept(m, Memory(), first, last, free, bins);
      ChainsKept(m, Memory(), heads, quick, fastbins);
      RestOut(cs, free, rest);
    }

    /** Splits a free chunk, already out of its bin, and puts the rest into the unsorted bin, which is empty. */
    method UseFront(a: nat, size: nat, nb: nat, ghost c: Chunk)
      requires Sound({c}) && brk > 0 && c in cs && c == Chunk(a, size, Free) && ChunkSize(nb) && size >= nb + MINSIZE
      requires |bins| == NBINS && bins[UNSORTED] == []
      modifies this`first, this`last, this`binmap, this`cs, this`bins, this`lastRemainder, mem
      ensures Sound({}) && Granted(old(Blocks()), Blocks(), Chunk(a, nb, Live)) && Kept(old(Blocks()), old(Memory()), Memory())
      ensures OfKind(cs, Fast) == old(OfKind(cs, Fast)) && |bins| == NBINS
      ensures OfKind(cs, Free) == old(OfKind(cs, Free)) - {c} + {Chunk(a + nb, size - nb, Free)}
      ensures lastRemainder == if nb < MIN_LARGE_SIZE then a + nb else old(lastRemainder)
    {
      hide Tiled, BinsOk, FastOk, MapOk, Kept, OfKind, Granted, ChunkSize, Threads, Chains, InsertAt;
      ghost var m, live := Memory(), Blocks();
      CutFront(a, size, nb, c);
      ghost var v, rest := Memory(), Chunk(a + nb, size - nb, Free);
      if nb < MIN_LARGE_SIZE { lastRemainder := a + nb; }
      assert {} + {rest} == {rest};
      LinkIn(UNSORTED, a + nb, UNSORTED, UNSORTED, 0, rest, {});
      GrantedKept(live, Blocks(), Chunk(a, nb, Live), v, Memory());
      KeptOn(live, m, v, Memory());
    }

    /** Splits the top. */
    method UseTopFront(nb: nat)
      requires Sound({}) && brk > 0 && ChunkSize(nb) && cs != [] && cs[|cs| - 1].size >= nb + MINSIZE
      modifies this`cs, this`top, mem
      ensures Sound({}) && Granted(old(Blocks()), Blocks(), Chunk(old(top), nb, Live)) && Kept(old(Blocks()), old(Memory()), Memory())
      ensures OfKind(cs, Fast) == old(OfKind(cs, Fast)) && OfKind(cs, Free) == old(OfKind(cs, Free))
    {
      hide Tiled, BinsOk, FastOk, MapOk, Kept, OfKind, Granted, Replace, SizeOf, PrevInUse, ChunkSize, Threads, Chains;
      ghost var i, m := |cs| - 1, Memory();
      TopTaken(m, cs, brk, i, nb, cs[i].size - nb);
      LessNone(OfKind(cs, Free), cs[i]);
      LessNone(OfKind(cs, Fast), cs[i]);
      var p, rest := top, SizeOf(mem[top + 4]) - nb;
      top := p + nb;
      mem[p + 4] := nb + 1;
      mem[top + 4] := rest + 1;
      assert Memory() == CutTop(m, p, nb, rest);
      cs := Replace(cs, i, i + 1, [Chunk(p, nb, Live), Chunk(p + nb, rest, Top)]);
      ThreadsKept(m, Memory(), first, last, OfKind(cs, Free) - {}, bins);
      ChainsKept(m, Memory(), heads, OfKind(cs, Fast) - {}, fastbins);
    }

    /** The last chunk put into the fast bin of the size. */
    method TakeFast(nb: nat) returns (found: bool, p: nat)
      requires Sound({}) && ChunkSize(nb) && nb <= MXFAST
      modifies this`heads, this`fastbins, this`cs
      ensures Sound({}) && FastbinIndex(nb) < |old(fastbins)| && (found <==> old(fastbins)[FastbinIndex(nb)] != [])
      ensures found ==> p == old(fastbins)[FastbinIndex(nb)][0].addr && FromFast(old(cs), cs, Chunk(p, nb, Live), nb)
      ensures found ==> Granted(old(Blocks()), Blocks(), Chunk(p, nb, Live))
      ensures !found ==> cs == old(cs) && p == 0
    {
      hide Tiled, BinsOk, MapOk, Replace, Threads, Chains;
      var k := FastbinIndex(nb);
      HeadReads(Memory(), heads, fastbins, k);
      if heads[k] == 0 { return false, 0; }
      ghost var c := fastbins[k][0];
      LessNone(OfKind(cs, Fast), c);
      LessNone(OfKind(cs, Free), c);
      FastPop(OfKind(cs, Fast), fastbins, k);
      PopChain(Memory(), heads, fastbins, k);
      ghost var i :| 0 <= i < |cs| && cs[i] == c;
      assert FastBinOk(OfKind(cs, Fast), fastbins, k);
      hide FastOk, FastBinOk, OfKind;
      At(Memory(), cs, brk, i);
      SameFast(c.size, nb);
      TurnKinds(Memory(), cs, brk, i, Live);
      var a := heads[k] - HEAP;
      heads := heads[k := mem[a + 8]];
      fastbins := fastbins[k := fastbins[k][1..]];
      cs := Replace(cs, i, i + 1, [Chunk(c.addr, nb, Live)]);
      LessNone(OfKind(cs, Fast), c);
      LessNone(OfKind(cs, Free), c);
      return true, a;
    }

    /** Takes the last chunk out of a bin that is not empty. */
    method TakeLast(k: nat) returns (a: nat, ghost c: Chunk)
      requires Sound({}) && ready && 1 <= k < NBINS && |bins| == NBINS && bins[k] != []
      modifies this`first, this`last, this`bins, mem
      ensures var n := |old(bins)[k]| - 1; c == old(bins)[k][n] && bins == old(bins)[k := DropAt(old(bins)[k], n)]
      ensures Sound({c}) && c.addr == a && c in cs && c in OfKind(cs, Free) && c.kind == Free && Shaped(c) && brk > 0 && Kept(Blocks(), old(Memory()), Memory())
    {
      hide Tiled, BinsOk, FastOk, MapOk, Kept, Threads, Chains, DropAt;
      ghost var n := |bins[k]| - 1;
      c := bins[k][n];
      HeaderReads(Web(), bins, k);
      a := last[k] - HEAP;
      ListedIn(OfKind(cs, Free) - {}, bins, k, n);
      assert c in cs;
      hide OfKind;
      InShaped(Memory(), cs, brk, c);
      Unlink(a, k, n, c, {});
      assert {} + {c} == {c};
      FreeIn(cs, c);
    }

    /** The oldest chunk of the small bin of the size. */
    method TakeSmall(nb: nat) returns (found: bool, p: nat)
      requires Sound({}) && ready && ChunkSize(nb) && nb < MIN_LARGE_SIZE
      modifies this`first, this`last, this`bins, this`cs, mem
      ensures Sound({}) && OfKind(cs, Fast) == old(OfKind(cs, Fast))
      ensures found ==> Chunk(p, nb, Free) in old(OfKind(cs, Free)) && OfKind(cs, Free) == old(OfKind(cs, Free)) - {Chunk(p, nb, Free)}
      ensures found ==> Granted(old(Blocks()), Blocks(), Chunk(p, nb, Live)) && Kept(old(Blocks()), old(Memory()), Memory())
      ensures found ==> var k := SmallbinIndex(nb); var n := |old(bins[k])| - 1;
        n >= 0 && p == old(bins[k])[n].addr && bins == old(bins)[k := DropAt(old(bins[k]), n)]
      ensures |bins| == NBINS && (!found ==> p == 0 && cs == old(cs) && bins == old(bins) && bins[SmallbinIndex(nb)] == [] && Memory() == old(Memory()))
    {
      hide Tiled, FastOk, MapOk, OfKind, Granted, Kept, BinsOk, Threads, Chains, DropAt;
      var k := SmallbinIndex(nb);
      assert 1 <= k < NBINS;
      HeaderReads(Web(), bins, k);
      if last[k] == k { return false, 0; }
      ghost var m, n := Memory(), |bins[k]| - 1;
      ExactFit(OfKind(cs, Free) - {}, bins, nb);
      var a;
      ghost var c;
      a, c := TakeLast(k);
      ghost var v := Memory();
      UseWhole(a, nb, c);
      KeptOn(old(Blocks()), m, v, Memory());
      return true, a;
    }

    // ---- Sorting ----

    /** The size word of a chunk that a link names. */
    method HeadOf(p: nat, ghost k: nat, ghost j: nat, ghost free: set<Chunk>) returns (x: nat)
      requires Arena() && brk > 0 && ready && Threads(Web(), bins) && BinsOk(free, bins) && free <= OfKind(cs, Free)
      requires |bins| == NBINS && 1 <= k < NBINS && j < |bins[k]| && p == Ref(bins[k][j])
      ensures x == bins[k][j].size + 1 && p - HEAP + 12 < mem.Length && bins[k][j].size >= MINSIZE && SizeOf(x) == bins[k][j].size
    {
      hide Tiled, BinsOk, OfKind, Threads, SizeOf;
      ListedIn(free, bins, k, j);
      ghost var c := bins[k][j];
      FreeHead(Memory(), cs, brk, c);
      FreeSize(Memory(), cs, brk, c);
      HeadParts(c.size, 1);
      NodeReads(Web(), bins, k, j);
      x := mem[p - HEAP + 4];
    }

    /** The first chunk of a sorted bin that is no larger than the size, if its last one is smaller. */
    method WalkDown(k: nat, size: nat, ghost free: set<Chunk>) returns (fd: nat, ghost j: nat)
      requires Arena() && brk > 0 && ready && Threads(Web(), bins) && BinsOk(free, bins) && free <= OfKind(cs, Free)
      requires |bins| == NBINS && NSMALLBINS <= k < NBINS && bins[k] != [] && bins[k][|bins[k]| - 1].size < size
      ensures j < |bins[k]| && fd == Ref(bins[k][j]) && bins[k][j].size <= size && forall q | 0 <= q < j :: bins[k][q].size > size
    {
      hide Tiled, BinsOk, OfKind, Threads, SizeOf;
      HeaderReads(Web(), bins, k);
      fd, j := first[k], 0;
      var x := HeadOf(fd, k, 0, free);
      while size + 1 < x
        invariant 0 <= j < |bins[k]| && fd == Ref(bins[k][j]) && x == bins[k][j].size + 1 && fd - HEAP + 12 < mem.Length
        invariant forall q | 0 <= q < j :: bins[k][q].size > size
        decreases |bins[k]| - j
      {
        NodeReads(Web(), bins, k, j);
        fd, j := mem[fd - HEAP + 8], j + 1;
        x := HeadOf(fd, k, j, free);
      }
    }

    /** The links around the place of a chunk in a large bin: behind all that are larger, or at the end if it is no larger than the last. */
    method Position(k: nat, size: nat, ghost free: set<Chunk>) returns (bk: nat, fd: nat, ghost j: nat)
      requires Arena() && brk > 0 && ready && Threads(Web(), bins) && BinsOk(free, bins) && free <= OfKind(cs, Free)
      requires |bins| == NBINS && NSMALLBINS <= k < NBINS
      ensures j <= |bins[k]| && FitsAt(bins[k], j, size) && bk == Node(k, bins[k], j - 1) && fd == Node(k, bins[k], j)
      ensures GoesTo(bins[k], size, j)
    {
      LargeSorted(free, bins, k);
      hide Tiled, BinsOk, OfKind, Threads, SizeOf, FitsAt, Descending;
      ghost var s := bins[k];
      HeaderReads(Web(), bins, k);
      bk, fd, j := k, first[k], 0;
      if fd != k {
        var x := HeadOf(last[k], k, |s| - 1, free);
        if size < x {
          GoesFits(s, size, |s|);
          return last[k], k, |s|;
        }
        fd, j := WalkDown(k, size, free);
        NodeReads(Web(), bins, k, j);
        bk := mem[fd - HEAP + 12];
      }
      GoesFits(s, size, j);
    }

    /** The bin of the chunk at `a`, and the links around its place there. */
    method Slot(a: nat, ghost c: Chunk, ghost free: set<Chunk>) returns (k: nat, bk: nat, fd: nat, ghost j: nat)
      requires Arena() && brk > 0 && ready && Threads(Web(), bins) && BinsOk(free, bins) && free <= OfKind(cs, Free)
      requires Shaped(c) && c in cs && c.addr == a
      ensures |bins| == NBINS && 2 <= k == BinNumber(c.size) < NBINS && j <= |bins[k]|
      ensures if k >= NSMALLBINS then FitsAt(bins[k], j, c.size) && GoesTo(bins[k], c.size, j) else j == 0
      ensures bk == Node(k, bins[k], j - 1) && fd == Node(k, bins[k], j)
    {
      hide Tiled, BinsOk, OfKind, SizeOf, FitsAt, LargebinIndex, Threads;
      SizeRead(Memory(), cs, brk, c);
      BinsSize(free, bins);
      NumberPositive(c.size);
      hide BinNumber;
      var size := SizeOf(mem[a + 4]);
      if size >= MIN_LARGE_SIZE {
        k := LargebinIndex(size);
        LargebinMonotone(size, size);
        bk, fd, j := Position(k, size, free);
      } else {
        k := SmallbinIndex(size);
        HeaderReads(Web(), bins, k);
        bk, fd, j := k, first[k], 0;
      }
    }

    /** Puts a chunk that was in the unsorted bin into the bin of its size. */
    method Place(a: nat, ghost c: Chunk) returns (ghost j: nat)
      requires Sound({c}) && brk > 0 && c in cs && c.kind == Free && c.addr == a && |bins| == NBINS
      modifies this`first, this`last, this`binmap, this`bins, mem
      ensures Sound({}) && |bins| == NBINS && 2 <= BinNumber(c.size) && Kept(Blocks(), old(Memory()), Memory())
      ensures var k := BinNumber(c.size); k < NBINS && j <= |old(bins)[k]| && bins == old(bins)[k := InsertAt(old(bins)[k], j, c)]
      ensures var s := old(bins)[BinNumber(c.size)]; if BinNumber(c.size) >= NSMALLBINS then GoesTo(s, c.size, j) else j == 0
    {
      hide Tiled, FastOk, MapOk, BinsOk, SizeOf, FitsAt, BinNumber, ChunkSize, Threads, Chains, Kept, InsertAt, Node;
      InShaped(Memory(), cs, brk, c);
      assert c in OfKind(cs, Free);
      hide OfKind;
      var k, bk, fd;
      k, bk, fd, j := Slot(a, c, OfKind(cs, Free) - {c});
      assert {} + {c} == {c};
      LinkIn(k, a, bk, fd, j, c, {});
    }

    /** The last chunk of the unsorted bin: what the last split left over is split again, an exact fit is taken, anything else is binned. */
    method SortOne(nb: nat, ghost all: seq<Chunk>) returns (found: bool, p: nat, ghost v: Chunk)
      requires Sound({}) && ready && ChunkSize(nb) && |bins| == NBINS && (nb < MIN_LARGE_SIZE ==> bins[SmallbinIndex(nb)] == [])
      requires bins[UNSORTED] != [] && Pending(bins[UNSORTED], all, nb, lastRemainder)
      modifies this`first, this`last, this`bins, this`binmap, this`cs, this`lastRemainder, mem
      ensures Sound({}) && |bins| == NBINS && OfKind(cs, Fast) == old(OfKind(cs, Fast)) && Kept(old(Blocks()), old(Memory()), Memory())
      ensures found ==> Granted(old(Blocks()), Blocks(), Chunk(p, nb, Live))
      ensures found ==> FromFree(old(cs), cs, Chunk(p, nb, Live), nb, old(lastRemainder), v)
      ensures found && v.size == nb ==> LastOfSize(all, v, nb)
      ensures lastRemainder == if found && v.size > nb then p + nb else old(lastRemainder)
      ensures Continues(all, nb, old(lastRemainder)) ==> found && p == old(lastRemainder)
      ensures !found ==> cs == old(cs) && |bins[UNSORTED]| < |old(bins)[UNSORTED]| && Pending(bins[UNSORTED], all, nb, lastRemainder)
      ensures !found ==> (nb < MIN_LARGE_SIZE ==> bins[SmallbinIndex(nb)] == [])
    {
      hide Tiled, FastOk, MapOk, BinsOk, OfKind, SizeOf, Granted, Kept, BinNumber, Threads, Chains, DropAt, Node, InsertAt;
      ghost var m, live, n := Memory(), Blocks(), |bins[UNSORTED]|;
      HeaderReads(Web(), bins, UNSORTED);
      OnlyOne(Web(), bins, n - 1);
      DropLast(bins[UNSORTED], all);
      var bck := mem[last[UNSORTED] - HEAP + 12];
      var a;
      a, v := TakeLast(UNSORTED);
      ghost var w := Memory();
      SizeRead(w, cs, brk, v);
      var size := SizeOf(mem[a + 4]);
      if nb < MIN_LARGE_SIZE && bck == UNSORTED && a == lastRemainder && size > nb + MINSIZE {
        UseFront(a, size, nb, v);
        KeptOn(live, m, w, Memory());
        return true, a, v;
      }
      if size == nb {
        UseWhole(a, size, v);
        ExactShare(old(cs), cs, a, nb, lastRemainder);
        KeptOn(live, m, w, Memory());
        return true, a, v;
      }
      if nb < MIN_LARGE_SIZE { OtherBin(nb, size); }
      ghost var j := Place(a, v);
      KeptOn(live, m, w, Memory());
      return false, 0, v;
    }

    /** Goes through the unsorted bin from its end: an exact fit is taken, anything else is binned. */
    method SortUnsorted(nb: nat) returns (found: bool, p: nat, ghost v: Chunk)
      requires Sound({}) && ready && ChunkSize(nb) && |bins| == NBINS && (nb < MIN_LARGE_SIZE ==> bins[SmallbinIndex(nb)] == [])
      modifies this`first, this`last, this`bins, this`binmap, this`cs, this`lastRemainder, mem
      ensures Sound({}) && |bins| == NBINS && OfKind(cs, Fast) == old(OfKind(cs, Fast)) && Kept(old(Blocks()), old(Memory()), Memory())
      ensures found ==> Granted(old(Blocks()), Blocks(), Chunk(p, nb, Live))
      ensures found ==> FromFree(old(cs), cs, Chunk(p, nb, Live), nb, old(lastRemainder), v)
      ensures found && v.size == nb ==> LastOfSize(old(bins[UNSORTED]), v, nb)
      ensures lastRemainder == if found && v.size > nb then p + nb else old(lastRemainder)
      ensures Continues(old(bins[UNSORTED]), nb, old(lastRemainder)) ==> found && p == old(lastRemainder)
      ensures !found ==> cs == old(cs) && bins[UNSORTED] == [] && (nb < MIN_LARGE_SIZE ==> bins[SmallbinIndex(nb)] == [])
    {
      hide Tiled, FastOk, MapOk, BinsOk, OfKind, SizeOf, Granted, Kept, Threads, Chains, FromFree, LastOfSize;
      ghost var m, live, all := Memory(), Blocks(), bins[UNSORTED];
      KeptSame(live, m);
      v := Chunk(0, 0, Top);
      HeaderReads(Web(), bins, UNSORTED);
      while last[UNSORTED] != UNSORTED
        invariant Sound({}) && |bins| == |last| == NBINS && cs == old(cs) && Kept(live, m, Memory())
        invariant last[UNSORTED] == UNSORTED <==> bins[UNSORTED] == []
        invariant nb < MIN_LARGE_SIZE ==> bins[SmallbinIndex(nb)] == []
        invariant lastRemainder == old(lastRemainder) && Pending(bins[UNSORTED], all, nb, lastRemainder)
        decreases |bins[UNSORTED]|
      {
        ghost var w := Memory();
        found, p, v := SortOne(nb, all);
        KeptOn(live, m, w, Memory());
        if found { return; }
        HeaderReads(Web(), bins, UNSORTED);
      }
      return false, 0, v;
    }

    // ---- Searching ----

    /** The first word of the map behind `block` that is not zero. */
    method NextBlock(block: nat) returns (b: nat)
      requires |binmap| == BINMAPSIZE + 1
      ensures block < b && (b < BINMAPSIZE ==> binmap[b] != 0) && (block < BINMAPSIZE ==> b <= BINMAPSIZE)
      ensures forall q | block < q < b && q < BINMAPSIZE :: binmap[q] == 0
    {
      b := block + 1;
      while b < BINMAPSIZE && binmap[b] == 0
        invariant block < b && (block < BINMAPSIZE ==> b <= BINMAPSIZE)
        invariant forall q | block < q < b && q < BINMAPSIZE :: binmap[q] == 0
      {
        b := b + 1;
      }
    }

    /** The first bin from `start` on that holds something, by way of the map; bits of empty bins are cleared on the way. */
    method FindBin(start: nat) returns (k: nat)
      requires 2 <= start <= NBINS && MapOk(bins, binmap) && Threads(Web(), bins)
      modifies this`binmap
      ensures MapOk(bins, binmap) && start <= k <= NBINS
      ensures AllEmpty(bins, start, k) && (k < NBINS ==> bins[k] != [])
    {
      hide Bit, Mark, Unmark, Pow2, MapOk, AllEmpty, Threads;
      MapSize(bins, binmap);
      k := start;
      var block, j := start / BITSPERMAP, start % BITSPERMAP;
      var word := binmap[block];
      NoneYet(bins, start);
      while true
        invariant MapOk(bins, binmap) && |binmap| == BINMAPSIZE + 1 && |bins| == NBINS
        invariant start <= k <= NBINS && block <= BINMAPSIZE && k == BITSPERMAP * block + j && 0 <= j <= BITSPERMAP
        invariant word == binmap[block] && AllEmpty(bins, start, k)
        decreases NBINS - k
      {
        if BitValue(j) > word || BitValue(j) == 0 {
          var b := NextBlock(block);
          RestOfBlock(bins, binmap, start, block, j, b);
          if b >= BINMAPSIZE { return NBINS; }
          block, k, j, word := b, BITSPERMAP * b, 0, binmap[b];
        }
        BitAhead(bins, binmap, block, j);
        ghost var marks := binmap;
        ghost var l := SomeBitAbove(word, j, BITSPERMAP);
        while !Bit(word, j)
          invariant binmap == marks
          invariant j <= l < BITSPERMAP && Bit(word, l) && k == BITSPERMAP * block + j && start <= k && AllEmpty(bins, start, k)
          decreases l - j
        {
          OneEmpty(bins, binmap, start, block, j);
          k, j := k + 1, j + 1;
        }
        HeaderReads(Web(), bins, k);
        if last[k] != k { return k; }
        AddEmpty(bins, start, k);
        MapChange(bins, binmap, k, []);
        word := Unmark(word, j);
        binmap := binmap[block := word];
        k, j := k + 1, j + 1;
      }
    }

    /** The smallest chunk of a large bin that is large enough, looking from its end. */
    method ScanBin(k: nat, nb: nat, ghost free: set<Chunk>) returns (p: nat, ghost j: nat)
      requires Arena() && brk > 0 && ready && Threads(Web(), bins) && BinsOk(free, bins) && free <= OfKind(cs, Free)
      requires |bins| == NBINS && NSMALLBINS <= k < NBINS
      ensures p != k ==> j < |bins[k]| && p == Ref(bins[k][j]) && bins[k][j].size >= nb
      ensures p != k ==> forall c | c in bins[k] && c.size >= nb :: c.size >= bins[k][j].size
      ensures p != k ==> forall q | j < q < |bins[k]| :: bins[k][q].size < nb
      ensures p == k ==> forall c | c in bins[k] :: c.size < nb
    {
      LargeSorted(free, bins, k);
      hide Tiled, BinsOk, OfKind, Threads, SizeOf;
      HeaderReads(Web(), bins, k);
      ghost var i: int := |bins[k]| - 1;
      p, j := last[k], 0;
      while p != k
        invariant -1 <= i < |bins[k]| && p == Node(k, bins[k], i) && forall q | i < q < |bins[k]| :: bins[k][q].size < nb
        decreases i
      {
        var x := HeadOf(p, k, i, free);
        if SizeOf(x) >= nb {
          j := i;
          return;
        }
        NodeReads(Web(), bins, k, i);
        p, i := mem[p - HEAP + 12], i - 1;
      }
    }

    /** The smallest free chunk that is large enough, once the unsorted bin is empty. */
    method BestFit(nb: nat) returns (found: bool, a: nat, ghost k: nat, ghost j: nat)
      requires Sound({}) && ready && ChunkSize(nb) && |bins| == NBINS && bins[UNSORTED] == []
      requires nb < MIN_LARGE_SIZE ==> bins[SmallbinIndex(nb)] == []
      modifies this`binmap
      ensures Sound({}) && |bins| == NBINS
      ensures found ==> 1 <= k < NBINS && j < |bins[k]| && bins[k][j].addr == a && Best(OfKind(cs, Free), nb, bins[k][j])
      ensures found ==> forall q | j < q < |bins[k]| :: bins[k][q].size < nb
      ensures !found ==> NoneFits(OfKind(cs, Free), nb)
    {
      hide Tiled, FastOk, MapOk, BinsOk, OfKind, LargebinIndex, AllEmpty, Best, NoneFits, ChunkSize, Threads, Chains;
      ghost var free := OfKind(cs, Free);
      LessNone(free, Chunk(0, 0, Top));
      FreeShaped(Memory(), cs, brk);
      NumberPositive(nb) by { AtLeastMin(nb); }
      hide BinNumber;
      var idx := BinIndex(nb);
      k, j := 0, 0;
      if brk == 0 {
        NoChunks(cs, bins, nb);
        return false, 0, 0, 0;
      }
      if nb >= MIN_LARGE_SIZE {
        LargeNumber(nb);
        LargeSorted(free, bins, idx);
        var p;
        p, j := ScanBin(idx, nb, free);
        if p != idx {
          OwnBinBest(free, bins, nb, idx, j);
          return true, p - HEAP, idx, j;
        }
      }
      var q := FindBin(idx + 1);
      if q == NBINS {
        NoBinFits(free, bins, nb, idx);
        return false, 0, 0, 0;
      }
      LaterBinBest(free, bins, nb, idx, q);
      HeaderReads(Web(), bins, q);
      return true, last[q] - HEAP, q, |bins[q]| - 1;
    }

    // ---- Allocation ----

    ghost function TopSize(): nat
      reads this
    {
      if cs == [] then 0 else cs[|cs| - 1].size
    }

    /** Nothing is left for a request: no free chunk fits, the top is too small, and it cannot grow. */
    ghost predicate NoRoom(nb: nat)
      reads this
    {
      && OfKind(cs, Fast) == {} && NoneFits(OfKind(cs, Free), nb)
      && TopSize() < nb + MINSIZE && brk + Pages(nb + MINSIZE - TopSize()) > limit
    }

    /** Moves the break up by whole pages, so that the top can serve the request. */
    method Grow(nb: nat) returns (ok: bool)
      requires Sound({}) && ready && nb + MINSIZE < TWO32 && TopSize() < nb + MINSIZE
      modifies this`brk, this`top, this`cs, mem
      ensures Sound({}) && forall kind | kind != Top :: OfKind(cs, kind) == old(OfKind(cs, kind))
      ensures Kept(Blocks(), old(Memory()), Memory())
      ensures ok ==> brk > 0 && cs != [] && TopSize() >= nb + MINSIZE && top == TopAddr(old(cs))
      ensures ok ==> brk == old(brk) + Pages(nb + MINSIZE - old(TopSize()))
      ensures !ok ==> cs == old(cs) && brk == old(brk) && brk + Pages(nb + MINSIZE - TopSize()) > limit
    {
      hide Tiled, FastOk, MapOk, BinsOk, OfKind, SizeOf, Kept, Threads, Chains;
      KeptSame(Blocks(), Memory());
      ghost var m := Memory();
      if brk > 0 { TopRead(m, cs, brk); }
      var oldsize := if brk == 0 then 0 else SizeOf(mem[top + 4]);
      var size := (nb + MINSIZE - oldsize + (PAGE - 1)) % TWO32 / PAGE * PAGE;
      PageSize(nb + MINSIZE - oldsize);
      if !(0 < size < 0x8000_0000 && brk + size <= limit) { return false; }
      hide Pages;
      if brk == 0 { StartTop(size); } else { ExtendTop(size, oldsize); }
      return true;
    }

    /** The first pages become the top. */
    method StartTop(size: nat)
      requires Sound({}) && ready && brk == 0 && ChunkSize(size) && size % PAGE == 0 && size <= limit
      modifies this`brk, this`top, this`cs, mem
      ensures Sound({}) && forall kind | kind != Top :: OfKind(cs, kind) == old(OfKind(cs, kind))
      ensures Kept(Blocks(), old(Memory()), Memory()) && brk == size && cs != [] && TopSize() == size && top == TopAddr(old(cs))
    {
      hide Tiled, FastOk, MapOk, BinsOk, OfKind, Kept, Threads, Chains;
      ghost var m := Memory();
      AtLeastMin(size);
      NewArena(m, size);
      mem[4] := size + 1;
      assert Memory() == m[4 := size + 1];
      top, cs, brk := 0, [Chunk(0, size, Top)], size;
      GrowKept(m, Memory(), [], first, last, bins, heads, fastbins);
    }

    /** More pages are added to the top. */
    method ExtendTop(size: nat, oldsize: nat)
      requires Sound({}) && ready && brk > 0 && size % PAGE == 0 && ChunkSize(size) && brk + size <= limit && TopSize() == oldsize
      modifies this`brk, this`top, this`cs, mem
      ensures Sound({}) && forall kind | kind != Top :: OfKind(cs, kind) == old(OfKind(cs, kind))
      ensures Kept(Blocks(), old(Memory()), Memory()) && brk == old(brk) + size && cs != [] && TopSize() == size + oldsize && top == TopAddr(old(cs))
    {
      hide Tiled, FastOk, MapOk, BinsOk, OfKind, Kept, Threads, Chains;
      ghost var m := Memory();
      TopGrows(m, cs, brk, size);
      mem[top + 4] := size + oldsize + 1;
      assert Memory() == m[top + 4 := size + oldsize + 1];
      GrowKept(m, Memory(), cs, first, last, bins, heads, fastbins);
      cs := cs[|cs| - 1 := Chunk(top, size + oldsize, Top)];
      brk := brk + size;
    }

    /** Asks for more memory, or first joins what is in the fast bins and starts over. */
    method SysMalloc(nb: nat) returns (r: nat, ghost c: Chunk, ghost mid: seq<Chunk>)
      requires Valid() && ready && ChunkSize(nb) && nb + MINSIZE < TWO32 && (fast ==> nb < MIN_LARGE_SIZE)
      requires TopSize() < nb + MINSIZE && NoneFits(OfKind(cs, Free), nb)
      modifies this, mem
      ensures Valid() && Kept(old(Blocks()), old(Memory()), Memory())
      ensures if r == 0 then Blocks() == old(Blocks()) && NoRoom(nb) && brk == old(brk) else Served(old(Blocks()), Blocks(), r, c, nb)
      ensures r != 0 ==> Origin(old(cs), old(brk), old(fast), mid, cs, brk, c, nb, old(lastRemainder))
      decreases if fast then 1 else 0, 0
    {
      hide Tiled, FastOk, MapOk, BinsOk, OfKind, SizeOf, Granted, NoneFits, ChunkSize, RequestToSize, Threads, Chains, Kept, Origin, Settled, Pages;
      ghost var m, live := Memory(), Blocks();
      if fast {
        Consolidate();
        ghost var v, now := Memory(), cs;
        RequestAgain(nb);
        r, c, mid := Malloc(nb - (ALIGN - 1)) by { AtLeastMin(nb); }
        KeptOn(live, m, v, Memory());
        if r != 0 { OriginSettled(old(cs), old(brk), now, mid, cs, brk, c, nb, old(lastRemainder)); }
        return;
      }
      c, mid := Chunk(0, 0, Top), cs;
      var ok := Grow(nb);
      if !ok { return 0, c, mid; }
      ghost var v := Memory();
      var p := top;
      UseTopFront(nb);
      KeptOn(live, m, v, Memory());
      r, c := p + 8, Chunk(p, nb, Live);
      OriginTop(old(cs), old(brk), false, cs, brk, c, nb, old(lastRemainder));
    }

    /** Cuts the request off the top, if it is large enough. */
    method UseTop(nb: nat) returns (r: nat, ghost c: Chunk, ghost mid: seq<Chunk>)
      requires Valid() && ready && ChunkSize(nb) && nb + MINSIZE < TWO32 && (fast ==> nb < MIN_LARGE_SIZE)
      requires NoneFits(OfKind(cs, Free), nb)
      modifies this, mem
      ensures Valid() && Kept(old(Blocks()), old(Memory()), Memory())
      ensures if r == 0 then Blocks() == old(Blocks()) && NoRoom(nb) && brk == old(brk) else Served(old(Blocks()), Blocks(), r, c, nb)
      ensures r != 0 ==> Origin(old(cs), old(brk), old(fast), mid, cs, brk, c, nb, old(lastRemainder))
      decreases if fast then 1 else 0, 1
    {
      hide Tiled, FastOk, MapOk, BinsOk, OfKind, SizeOf, Granted, NoneFits, ChunkSize, Kept, Threads, Chains, Origin;
      if brk > 0 { TopRead(Memory(), cs, brk); }
      var p, size := top, if brk == 0 then 0 else SizeOf(mem[top + 4]);
      if size >= nb + MINSIZE {
        UseTopFront(nb);
        OriginTop(old(cs), brk, fast, cs, brk, Chunk(p, nb, Live), nb, lastRemainder);
        return p + 8, Chunk(p, nb, Live), old(cs);
      }
      r, c, mid := SysMalloc(nb);
    }

    /** Takes the chunk found by the search, whole if what would be left is too small. */
    method Cut(a: nat, nb: nat, ghost k: nat, ghost j: nat) returns (ghost c: Chunk)
      requires Sound({}) && ready && |bins| == NBINS && 1 <= k < NBINS && j < |bins[k]| && bins[k][j].addr == a
      requires bins[UNSORTED] == [] && ChunkSize(nb) && bins[k][j].size >= nb
      modifies this`first, this`last, this`binmap, this`bins, this`cs, this`lastRemainder, mem
      ensures Sound({}) && OfKind(cs, Fast) == old(OfKind(cs, Fast)) && Kept(old(Blocks()), old(Memory()), Memory())
      ensures Granted(old(Blocks()), Blocks(), c) && c.addr == a && nb <= c.size < nb + MINSIZE
      ensures var v := old(bins[k][j]); c == Share(v, nb) && OfKind(cs, Free) == old(OfKind(cs, Free)) - {v} + Remnant(v, nb)
      ensures lastRemainder == if nb < MIN_LARGE_SIZE && old(bins[k][j]).size >= nb + MINSIZE then a + nb else old(lastRemainder)
    {
      hide Tiled, FastOk, MapOk, BinsOk, OfKind, SizeOf, Granted, Kept, ChunkSize, Threads, Chains, DropAt;
      ghost var victim, m, live := bins[k][j], Memory(), Blocks();
      ListedIn(OfKind(cs, Free) - {}, bins, k, j);
      FreeThere(cs, victim);
      Unlink(a, k, j, victim, {});
      assert {} + {victim} == {victim};
      FreeIn(cs, victim);
      ghost var v := Memory();
      SizeRead(v, cs, brk, victim);
      var size := SizeOf(mem[a + 4]);
      if size - nb < MINSIZE {
        UseWhole(a, size, victim);
        c := Chunk(a, size, Live);
      } else {
        UseFront(a, size, nb, victim);
        c := Chunk(a, nb, Live);
      }
      KeptOn(live, m, v, Memory());
    }

    /** A block of at least `bytes` bytes, or 0. */
    method Malloc(bytes: nat) returns (r: nat, ghost c: Chunk, ghost mid: seq<Chunk>)
      requires Valid()
      modifies this, mem
      ensures Valid() && Kept(old(Blocks()), old(Memory()), Memory())
      ensures if r == 0 then Blocks() == old(Blocks()) && brk == old(brk) && (OutOfRange(bytes) || NoRoom(RequestToSize(bytes)))
        else !OutOfRange(bytes) && Served(old(Blocks()), Blocks(), r, c, RequestToSize(bytes))
      ensures r != 0 ==> Origin(old(cs), old(brk), old(fast), mid, cs, brk, c, RequestToSize(bytes), old(lastRemainder))
      ensures !OutOfRange(bytes) ==> QuickHit(old(fastbins), old(MaxFast()), RequestToSize(bytes), r)
      decreases if fast then 1 else 0, 2
    {
      hide Tiled, FastOk, MapOk, BinsOk, OfKind, Granted, NoneFits, ChunkSize, RequestToSize, Threads, Chains, Kept, Origin, Settled, QuickHit;
      ghost var m, live := Memory(), Blocks();
      KeptSame(live, m);
      c, mid := Chunk(0, 0, Top), cs;
      if OutOfRange(bytes) { return 0, c, mid; }
      var nb := RequestToSize(bytes);
      RequestFits(bytes);
      if !any {
        NoQuickHit(OfKind(cs, Fast) - {}, fastbins, MaxFast(), nb);
        if !ready { Consolidate(); }
        ghost var v := Memory();
        NothingFree(OfKind(cs, Free), nb);
        r, c, mid := UseTop(nb);
        KeptOn(live, m, v, Memory());
        return;
      }
      var found, p := Quick(nb);
      if found { return p + 8, Chunk(p, nb, Live), old(cs); }
      QuickMiss(old(fastbins), old(MaxFast()), nb);
      ghost var v, now := Memory(), cs;
      KeptSame(live, v);
      if nb >= MIN_LARGE_SIZE && fast {
        Consolidate();
        now := cs;
      }
      KeptOn(live, m, v, Memory());
      v := Memory();
      BinsSize(OfKind(cs, Free) - {}, bins);
      r, c, mid := Search(nb);
      KeptOn(live, m, v, Memory());
      if r != 0 && nb >= MIN_LARGE_SIZE && old(fast) {
        OriginSettled(old(cs), old(brk), now, mid, cs, brk, c, nb, old(lastRemainder));
      }
    }

    /** Fast bin, then small bin. */
    method Quick(nb: nat) returns (found: bool, p: nat)
      requires Valid() && any && ChunkSize(nb)
      modifies this`heads, this`first, this`last, this`fastbins, this`bins, this`cs, mem
      ensures Valid() && Kept(old(Blocks()), old(Memory()), Memory())
      ensures found ==> Granted(old(Blocks()), Blocks(), Chunk(p, nb, Live))
      ensures found ==> Origin(old(cs), brk, fast, old(cs), cs, brk, Chunk(p, nb, Live), nb, lastRemainder)
      ensures QuickHit(old(fastbins), old(MaxFast()), nb, if found then p + 8 else 0)
      ensures !found ==> cs == old(cs) && |bins| == NBINS && (nb < MIN_LARGE_SIZE ==> bins[SmallbinIndex(nb)] == [])
    {
      hide Tiled, FastOk, MapOk, BinsOk, OfKind, Granted, Kept, Threads, Chains, FromFree, Origin;
      KeptSame(Blocks(), Memory());
      BinsSize(OfKind(cs, Free) - {}, bins);
      found, p := false, 0;
      if nb <= MaxFast() {
        SmallEnough(Chunk(0, nb, Live));
        found, p := TakeFast(nb);
        if found {
          OriginFast(old(cs), brk, fast, cs, Chunk(p, nb, Live), nb, lastRemainder);
          return;
        }
      }
      if nb < MIN_LARGE_SIZE {
        found, p := TakeSmall(nb);
        if found {
          ExactShare(old(cs), cs, p, nb, lastRemainder);
          OriginFree(old(cs), brk, fast, cs, Chunk(p, nb, Live), nb, lastRemainder, Chunk(p, nb, Free));
          return;
        }
      }
    }

    /** The unsorted bin, the bins, and the top. */
    method Search(nb: nat) returns (r: nat, ghost c: Chunk, ghost mid: seq<Chunk>)
      requires Valid() && ready && any && ChunkSize(nb) && nb + MINSIZE < TWO32 && (fast ==> nb < MIN_LARGE_SIZE)
      requires |bins| == NBINS && (nb < MIN_LARGE_SIZE ==> bins[SmallbinIndex(nb)] == [])
      modifies this, mem
      ensures Valid() && Kept(old(Blocks()), old(Memory()), Memory())
      ensures if r == 0 then Blocks() == old(Blocks()) && NoRoom(nb) && brk == old(brk) else Served(old(Blocks()), Blocks(), r, c, nb)
      ensures r != 0 ==> Origin(old(cs), old(brk), old(fast), mid, cs, brk, c, nb, old(lastRemainder))
      decreases if fast then 1 else 0, 2, 0
    {
      hide Tiled, FastOk, MapOk, BinsOk, OfKind, Granted, NoneFits, ChunkSize, Kept, Threads, Chains, Best, Origin, FromFree, Share, Remnant;
      ghost var m, live, victim := Memory(), Blocks(), Chunk(0, 0, Top);
      mid := cs;
      var found, p;
      found, p, victim := SortUnsorted(nb);
      if found {
        OriginFree(mid, brk, fast, cs, Chunk(p, nb, Live), nb, old(lastRemainder), victim);
        return p + 8, Chunk(p, nb, Live), mid;
      }
      ghost var v, k, j := Memory(), 0, 0;
      found, p, k, j := BestFit(nb);
      if found {
        victim := bins[k][j];
        BestEnough(OfKind(cs, Free), nb, victim);
        c := Cut(p, nb, k, j);
        BestTaken(mid, cs, c, nb, old(lastRemainder), victim);
        OriginFree(mid, brk, fast, cs, c, nb, old(lastRemainder), victim);
        KeptOn(live, m, v, Memory());
        return p + 8, c, mid;
      }
      r, c, mid := UseTop(nb);
      KeptOn(live, m, v, Memory());
    }
  }
}
