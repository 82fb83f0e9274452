/**
 The process table as the kernel lays it out: a state tag, a union whose variant depends on
 the tag, and intrusive singly linked lists.  Each variant of the union has its own fields,
 so reading one that was not written last does not type-check.
 */
module KernelHeap {
  import opened KernelState
  import opened KernelSpec
  import opened KernelPlaces
  import opened Arithmetic

  datatype Ptr = Null | To(pid: nat)

  datatype Tag = PsDead | PsZombie | PsRunnable | PsRunning | PsAsleep | PsWaitChild | PsWaitQueueEmpty | PsWaitQueueFull

  datatype Attr =
    | NoAttr
    | AsleepAttr(clock: nat, asleepNext: Ptr)
    | RetvalAttr(retval: int)
    | ChildAttr
    | RunnableAttr(nextRunnable: Ptr)
    | WaitAttr(waitNext: Ptr, fid: nat)
    | DeadAttr(nextDead: Ptr)

  /** A process control block; `frame` is the part of its kernel stack that others write through pointers. */
  datatype PCB = PCB(parent: int, prio: int, tag: Tag, attr: Attr, frame: Frame)

  /** A message queue: a ring buffer and the heads of its two waiting lists. */
  datatype QCB = QCB(front: nat, rear: nat, size: nat, capacity: nat, messages: seq<int>, emptyHead: Ptr, fullHead: Ptr)

  /** A snapshot of all kernel variables. */
  datatype Heap = Heap(procs: seq<PCB>, queues: seq<QCB>, active: nat, runnable: Ptr, asleep: Ptr, dead: Ptr, clock: nat)

  // ---- Agreement with the abstract state ----

  ghost predicate TagOk(b: PCB, st: Status) {
    match st
    case Dead => b.tag.PsDead? && b.attr.DeadAttr?
    case Lost => b.tag.PsDead?
    case Zombie(r) => b.tag.PsZombie? && b.attr == RetvalAttr(r)
    case Runnable => b.tag.PsRunnable? && b.attr.RunnableAttr?
    case Running => b.tag.PsRunning?
    case Asleep(w) => b.tag.PsAsleep? && b.attr.AsleepAttr? && b.attr.clock == w
    case WaitChild => b.tag.PsWaitChild? && b.attr == ChildAttr
    case WaitEmpty(f) => b.tag.PsWaitQueueEmpty? && b.attr.WaitAttr? && b.attr.fid == f
    case WaitFull(f) => b.tag.PsWaitQueueFull? && b.attr.WaitAttr? && b.attr.fid == f
  }

  ghost predicate LinkIs(b: PCB, pl: Place, x: Ptr) {
    match pl
    case RunQueue => b.attr == RunnableAttr(x)
    case Sleepers => b.attr.AsleepAttr? && b.attr.asleepNext == x
    case Free => b.attr == DeadAttr(x)
    case Receivers(_) => b.attr.WaitAttr? && b.attr.waitNext == x
    case Senders(_) => b.attr.WaitAttr? && b.attr.waitNext == x
    case Nowhere => true
  }

  function PtrAt(list: seq<nat>, i: nat): Ptr {
    if i < |list| then To(list[i]) else Null
  }

  function HeadOf(h: Heap, pl: Place): Ptr {
    match pl
    case RunQueue => h.runnable
    case Sleepers => h.asleep
    case Free => h.dead
    case Receivers(f) => if f < |h.queues| then h.queues[f].emptyHead else Null
    case Senders(f) => if f < |h.queues| then h.queues[f].fullHead else Null
    case Nowhere => Null
  }

  /** The links of the processes at `pl` chain them in the order of `list`. */
  ghost predicate Chained(ps: seq<PCB>, pl: Place, list: seq<nat>) {
    forall i | 0 <= i < |list| :: LinkedAt(ps, pl, list, i)
  }

  ghost predicate LinkedAt(ps: seq<PCB>, pl: Place, list: seq<nat>, i: nat)
    requires i < |list|
  {
    list[i] < |ps| && LinkIs(ps[list[i]], pl, PtrAt(list, i + 1))
  }

  ghost predicate RingOk(q: QCB, a: Queue) {
    && q.capacity == a.capacity + a.half && (a.half > 0 ==> q.messages == [])
    && (a.capacity > 0 ==>
          && |q.messages| == q.capacity && q.front < q.capacity && q.size == |a.buf| <= q.capacity
          && q.rear < q.capacity && RingPos(q.rear, 1, q.capacity) == RingPos(q.front, q.size, q.capacity)
          && forall i | 0 <= i < q.size :: q.messages[RingPos(q.front, i, q.capacity)] == a.buf[i])
  }

  ghost predicate Sized(h: Heap) {
    |h.procs| == NBPROC && |h.queues| == NBQUEUE
  }

  ghost predicate ProcsOk(ps: seq<PCB>, s: State, loose: set<nat>)
    requires Shape(s) && |ps| == NBPROC
  {
    forall p | 0 <= p < NBPROC && p !in loose :: FieldsOk(ps[p], s.procs[p]) && TagOk(ps[p], s.procs[p].status)
  }

  ghost predicate ListsOk(h: Heap, s: State, open: Place)
    requires Shape(s) && Sized(h)
  {
    && (forall pl :: Chained(h.procs, pl, On(s, pl)))
    && HeadsOk(h, s, open)
  }

  ghost predicate HeadsOk(h: Heap, s: State, open: Place) {
    forall pl | pl != open && pl != Nowhere :: HeadOf(h, pl) == PtrAt(On(s, pl), 0)
  }

  /**
   The kernel variables represent the abstract state.  Processes in `loose` are in the middle
   of a change, so apart from their links they need not agree yet; the head of the list at
   `open` has not been updated yet.
   */
  ghost predicate Linked(h: Heap, s: State, loose: set<nat>, open: Place) {
    && Shape(s) && Sized(h)
    && h.active == s.active && h.clock == s.clock
    && ProcsOk(h.procs, s, loose)
    && ListsOk(h, s, open)
    && (forall f | 0 <= f < NBQUEUE :: RingOk(h.queues[f], s.queues[f]))
  }

  // ---- Relinking ----

  function WithLink(b: PCB, pl: Place, x: Ptr): PCB {
    match pl
    case RunQueue => b.(attr := RunnableAttr(x))
    case Sleepers => if b.attr.AsleepAttr? then b.(attr := b.attr.(asleepNext := x)) else b
    case Free => b.(attr := DeadAttr(x))
    case Nowhere => b
    case _ => if b.attr.WaitAttr? then b.(attr := b.attr.(waitNext := x)) else b
  }

  function WithHead(h: Heap, pl: Place, x: Ptr): Heap {
    match pl
    case RunQueue => h.(runnable := x)
    case Sleepers => h.(asleep := x)
    case Free => h.(dead := x)
    case Receivers(f) => if f < |h.queues| then h.(queues := h.queues[f := h.queues[f].(emptyHead := x)]) else h
    case Senders(f) => if f < |h.queues| then h.(queues := h.queues[f := h.queues[f].(fullHead := x)]) else h
    case Nowhere => h
  }

  lemma WithHeadFacts(h: Heap, pl: Place, x: Ptr)
    requires Sized(h) && (pl.Receivers? || pl.Senders? ==> pl.fid < NBQUEUE) && pl != Nowhere
    ensures HeadOf(WithHead(h, pl, x), pl) == x
    ensures forall l | l != pl :: HeadOf(WithHead(h, pl, x), l) == HeadOf(h, l)
    ensures WithHead(h, pl, x).procs == h.procs && Sized(WithHead(h, pl, x))
  {
  }

  /** Links are only changed on the list they belong to. */
  lemma OtherChains(ps: seq<PCB>, qs: seq<PCB>, s: State, limbo: set<nat>, p: nat, at: Place)
    requires Shape(s) && Placed(s, limbo) && |ps| == |qs| == NBPROC && p < NBPROC
    requires p in limbo || s.procs[p].status.Place() == at
    requires forall pl :: Chained(ps, pl, On(s, pl))
    requires qs == ps[p := qs[p]]
    ensures forall pl | pl != at :: Chained(qs, pl, On(s, pl))
    ensures p in limbo ==> Chained(qs, at, On(s, at))
  {
    forall pl | pl != at || p in limbo ensures Chained(qs, pl, On(s, pl)) {
      assert p !in On(s, pl);
      assert Chained(ps, pl, On(s, pl));
      forall i | 0 <= i < |On(s, pl)| ensures LinkedAt(qs, pl, On(s, pl), i) {
        assert LinkedAt(ps, pl, On(s, pl), i);
      }
    }
  }

  lemma WithLinkIs(b: PCB, pl: Place, x: Ptr, y: Ptr)
    requires LinkIs(b, pl, y)
    ensures LinkIs(WithLink(b, pl, x), pl, x)
  {
  }

  /** How the links of one list change when its first element is taken out. */
  lemma CutHead(ps: seq<PCB>, pl: Place, list: seq<nat>)
    requires Chained(ps, pl, list) && list != []
    ensures Chained(ps, pl, list[1..])
  {
    hide LinkIs;
    var r := list[1..];
    forall i | 0 <= i < |r| ensures LinkedAt(ps, pl, r, i) {
      assert LinkedAt(ps, pl, list, i + 1);
    }
  }

  /** How the links of one list change when the element after `k` is taken out. */
  lemma CutChain(ps: seq<PCB>, pl: Place, list: seq<nat>, k: nat)
    requires Chained(ps, pl, list) && k + 1 < |list| && list[k] < |ps|
    requires forall i | 0 <= i < |list| && i != k :: list[i] != list[k]
    ensures Chained(ps[list[k] := WithLink(ps[list[k]], pl, PtrAt(list, k + 2))], pl, list[..k + 1] + list[k + 2..])
  {
    hide LinkIs, WithLink;
    var r := list[..k + 1] + list[k + 2..];
    assert forall i | 0 <= i < |r| :: r[i] == if i <= k then list[i] else list[i + 1];
    var qs := ps[list[k] := WithLink(ps[list[k]], pl, PtrAt(list, k + 2))];
    assert LinkedAt(ps, pl, list, k);
    WithLinkIs(ps[list[k]], pl, PtrAt(list, k + 2), PtrAt(list, k + 1));
    forall i | 0 <= i < |r| ensures LinkedAt(qs, pl, r, i) {
      var j := if i <= k then i else i + 1;
      assert LinkedAt(ps, pl, list, j);
    }
  }

  lemma SpliceHead(ps: seq<PCB>, pl: Place, list: seq<nat>, p: nat)
    requires Chained(ps, pl, list) && p < |ps| && LinkIs(ps[p], pl, PtrAt(list, 0))
    ensures Chained(ps, pl, [p] + list)
  {
    hide LinkIs;
    var r := [p] + list;
    forall i | 0 <= i < |r| ensures LinkedAt(ps, pl, r, i) {
      if i > 0 {
        assert LinkedAt(ps, pl, list, i - 1);
      }
    }
  }

  /** How the links of one list change when `p` is put in after `k`. */
  lemma SpliceChain(ps: seq<PCB>, pl: Place, list: seq<nat>, k: nat, p: nat)
    requires Chained(ps, pl, list) && k < |list| && list[k] < |ps| && p < |ps| && p !in list
    requires LinkIs(ps[p], pl, PtrAt(list, k + 1))
    requires forall i | 0 <= i < |list| && i != k :: list[i] != list[k]
    ensures Chained(ps[list[k] := WithLink(ps[list[k]], pl, To(p))], pl, list[..k + 1] + [p] + list[k + 1..])
  {
    hide LinkIs, WithLink;
    var r := list[..k + 1] + [p] + list[k + 1..];
    assert forall i | 0 <= i < |r| :: r[i] == if i <= k then list[i] else if i == k + 1 then p else list[i - 1];
    var qs := ps[list[k] := WithLink(ps[list[k]], pl, To(p))];
    assert LinkedAt(ps, pl, list, k);
    WithLinkIs(ps[list[k]], pl, To(p), PtrAt(list, k + 1));
    forall i | 0 <= i < |r| ensures LinkedAt(qs, pl, r, i) {
      if i != k + 1 {
        var j := if i <= k then i else i - 1;
        assert LinkedAt(ps, pl, list, j);
        assert list[j] != p;
      }
    }
  }

  // ---- What each kind of change does to the representation ----

  ghost predicate FieldsOk(b: PCB, q: Proc) {
    b.parent == q.parent && b.prio == q.prio && b.frame == q.frame
  }

  lemma WithLinkTag(b: PCB, q: Proc, x: Ptr)
    ensures FieldsOk(b, q) ==> FieldsOk(WithLink(b, q.status.Place(), x), q)
    ensures TagOk(b, q.status) ==> TagOk(WithLink(b, q.status.Place(), x), q.status)
  {
  }

  lemma WithHeadRings(h: Heap, s: State, pl: Place, x: Ptr)
    requires Shape(s) && Sized(h) && forall f | 0 <= f < NBQUEUE :: RingOk(h.queues[f], s.queues[f])
    ensures var g := WithHead(h, pl, x);
      && Sized(g) && g.active == h.active && g.clock == h.clock
      && forall f | 0 <= f < NBQUEUE :: RingOk(g.queues[f], s.queues[f])
  {
  }

  /** Places that have a head pointer. */
  ghost predicate RealPlace(pl: Place) {
    pl != Nowhere && (pl.Receivers? || pl.Senders? ==> pl.fid < NBQUEUE)
  }

  /** A process on no list may be rewritten at will. */
  lemma RewriteLoose(h: Heap, s: State, p: nat, b: PCB, q: Proc, loose: set<nat>, open: Place, limbo: set<nat>)
    requires Linked(h, s, loose, open) && p < NBPROC && q.stamp < s.now && Placed(s, limbo)
    requires p in limbo || s.procs[p].status.Place() == Nowhere
    ensures var g, t := h.(procs := h.procs[p := b]), SetProc(s, p, q);
      && Linked(g, t, loose + {p}, open)
      && (FieldsOk(b, q) && TagOk(b, q.status) ==> Linked(g, t, loose - {p}, open))
  {
    var g, t := h.(procs := h.procs[p := b]), SetProc(s, p, q);
    hide LinkIs, TagOk, RingOk, SetProc, Placed;
    GrowLimbo(s, limbo, p);
    OtherChains(h.procs, g.procs, s, limbo + {p}, p, Nowhere);
    assert forall pl :: HeadOf(g, pl) == HeadOf(h, pl);
  }

  /** A process anywhere may change what its union does not show. */
  lemma RewriteFields(h: Heap, s: State, p: nat, b: PCB, q: Proc, loose: set<nat>, open: Place)
    requires Linked(h, s, loose, open) && p < NBPROC && q.stamp < s.now
    requires b.attr == h.procs[p].attr && q.status == s.procs[p].status
    ensures Linked(h.(procs := h.procs[p := b]), SetProc(s, p, q), loose + {p}, open)
    ensures FieldsOk(b, q) && TagOk(b, q.status) ==> Linked(h.(procs := h.procs[p := b]), SetProc(s, p, q), loose - {p}, open)
    ensures FieldsOk(b, q) && b.tag == h.procs[p].tag ==> Linked(h.(procs := h.procs[p := b]), SetProc(s, p, q), loose, open)
  {
    var g, t := h.(procs := h.procs[p := b]), SetProc(s, p, q);
    hide RingOk, SetProc;
    forall pl ensures Chained(g.procs, pl, On(t, pl)) {
      var l := On(s, pl);
      assert Chained(h.procs, pl, l);
      forall i | 0 <= i < |l| ensures LinkedAt(g.procs, pl, l, i) {
        assert LinkedAt(h.procs, pl, l, i);
      }
    }
    assert forall pl :: HeadOf(g, pl) == HeadOf(h, pl);
  }

  /** The first process of a list is spoken for before the head pointer moves on. */
  lemma OpenHead(h: Heap, s: State, pl: Place, loose: set<nat>, limbo: set<nat>)
    requires Linked(h, s, loose, Nowhere) && Placed(s, limbo) && RealPlace(pl) && On(s, pl) != []
    ensures Linked(h, Detach(s, On(s, pl)[0]), loose + {On(s, pl)[0]}, pl)
    ensures On(Detach(s, On(s, pl)[0]), pl) == On(s, pl)[1..]
  {
    hide LinkIs, TagOk, RingOk, Detach, Placed, HeadOf;
    DetachHead(s, pl, limbo);
    assert Chained(h.procs, pl, On(s, pl));
    CutHead(h.procs, pl, On(s, pl));
  }

  lemma CloseHead(h: Heap, s: State, pl: Place, loose: set<nat>)
    requires Linked(h, s, loose, pl) && RealPlace(pl)
    ensures Linked(WithHead(h, pl, PtrAt(On(s, pl), 0)), s, loose, Nowhere)
  {
    hide LinkIs, TagOk, RingOk, WithHead, HeadOf, Chained;
    WithHeadFacts(h, pl, PtrAt(On(s, pl), 0));
    WithHeadRings(h, s, pl, PtrAt(On(s, pl), 0));
  }

  lemma UnlinkChains(h: Heap, s: State, k: nat, pl: Place, limbo: set<nat>)
    requires Shape(s) && Sized(h) && (forall l :: Chained(h.procs, l, On(s, l))) && Tidy(s, limbo) && k + 1 < |On(s, pl)|
    ensures var l := On(s, pl); var qs := h.procs[l[k] := WithLink(h.procs[l[k]], pl, PtrAt(l, k + 2))];
      && Chained(qs, pl, l[..k + 1] + l[k + 2..])
      && forall l' | l' != pl :: Chained(qs, l', On(s, l'))
  {
    var l := On(s, pl);
    var qs := h.procs[l[k] := WithLink(h.procs[l[k]], pl, PtrAt(l, k + 2))];
    DetachAt(s, pl, k, limbo);
    hide LinkIs, Detach, WithLink, AllSorted;
    assert Chained(h.procs, pl, l);
    CutChain(h.procs, pl, l, k);
    OtherChains(h.procs, qs, s, limbo, l[k], pl);
  }

  lemma UnlinkLists(h: Heap, s: State, k: nat, pl: Place, open: Place, limbo: set<nat>)
    requires Shape(s) && Sized(h) && ListsOk(h, s, open) && Tidy(s, limbo) && k + 1 < |On(s, pl)|
    ensures var l := On(s, pl);
      ListsOk(h.(procs := h.procs[l[k] := WithLink(h.procs[l[k]], pl, PtrAt(l, k + 2))]), Detach(s, l[k + 1]), open)
  {
    hide LinkIs, Detach, Tidy, WithLink, Chained, HeadOf;
    var l := On(s, pl);
    var g := h.(procs := h.procs[l[k] := WithLink(h.procs[l[k]], pl, PtrAt(l, k + 2))]);
    DetachAt(s, pl, k + 1, limbo);
    UnlinkHeads(h, g, s, k, pl, open, limbo);
    hide HeadsOk;
    UnlinkChains(h, s, k, pl, limbo);
  }

  lemma UnlinkHeads(h: Heap, g: Heap, s: State, k: nat, pl: Place, open: Place, limbo: set<nat>)
    requires Shape(s) && HeadsOk(h, s, open) && g == h.(procs := g.procs) && Tidy(s, limbo) && k + 1 < |On(s, pl)|
    ensures HeadsOk(g, Detach(s, On(s, pl)[k + 1]), open)
  {
    hide Tidy, Detach, HeadOf;
    DetachAt(s, pl, k + 1, limbo);
    SameHeads(h, g);
    UnlinkHead(s, pl, k);
  }

  /** Taking the process after position `k` off its list, by changing the link in front of it. */
  lemma Unlink(h: Heap, s: State, k: nat, pl: Place, loose: set<nat>, open: Place, limbo: set<nat>)
    requires Linked(h, s, loose, open) && Tidy(s, limbo) && k + 1 < |On(s, pl)|
    ensures var l := On(s, pl);
      Linked(h.(procs := h.procs[l[k] := WithLink(h.procs[l[k]], pl, PtrAt(l, k + 2))]),
             Detach(s, l[k + 1]), loose + {l[k + 1]}, open)
  {
    hide RingOk, Detach, Tidy, WithLink, ListsOk, ProcsOk;
    var l := On(s, pl);
    Member(s, pl, k, limbo);
    UnlinkLists(h, s, k, pl, open, limbo);
    UnlinkProcs(h.procs, s, l[k], PtrAt(l, k + 2), l[k + 1], loose);
  }

  lemma UnlinkProcs(ps: seq<PCB>, s: State, n: nat, x: Ptr, p: nat, loose: set<nat>)
    requires Shape(s) && |ps| == NBPROC && ProcsOk(ps, s, loose) && n < NBPROC && p < NBPROC
    ensures ProcsOk(ps[n := WithLink(ps[n], s.procs[n].status.Place(), x)], Detach(s, p), loose + {p})
  {
    hide WithLink, TagOk;
    WithLinkTag(ps[n], s.procs[n], x);
  }

  lemma UnlinkHead(s: State, pl: Place, k: nat)
    requires k + 1 < |On(s, pl)|
    ensures var l := On(s, pl); PtrAt(l[..k + 1] + l[k + 2..], 0) == PtrAt(l, 0)
  {
  }

  /** Putting a process, whose link is set, in front of its list. */
  lemma LinkFirst(h: Heap, s: State, p: nat, loose: set<nat>, open: Place, limbo: set<nat>)
    requires Linked(h, s, loose, open) && Tidy(s, limbo) && p in limbo && p < NBPROC && FitsAt(s, p, 0)
    requires var at := s.procs[p].status.Place();
      && RealPlace(at) && at != open && LinkIs(h.procs[p], at, PtrAt(On(s, at), 0))
    ensures Linked(WithHead(h, s.procs[p].status.Place(), To(p)), Attach(s, p), loose, open)
  {
    hide LinkIs, RingOk, Attach, Tidy, ProcsOk, ListsOk, WithHead, FitsAt;
    var at := s.procs[p].status.Place();
    WithHeadFacts(h, at, To(p));
    WithHeadRings(h, s, at, To(p));
    LinkFirstLists(h, s, p, open, limbo);
    StampProcs(h.procs, s, p, loose);
  }

  lemma LinkFirstLists(h: Heap, s: State, p: nat, open: Place, limbo: set<nat>)
    requires Shape(s) && Sized(h) && ListsOk(h, s, open) && Tidy(s, limbo) && p in limbo && p < NBPROC && FitsAt(s, p, 0)
    requires var at := s.procs[p].status.Place();
      && RealPlace(at) && at != open && LinkIs(h.procs[p], at, PtrAt(On(s, at), 0))
    ensures var at := s.procs[p].status.Place(); Sized(WithHead(h, at, To(p))) && ListsOk(WithHead(h, at, To(p)), Attach(s, p), open)
  {
    hide LinkIs, Attach, Tidy, Chained, WithHead, HeadOf, FitsAt;
    var at := s.procs[p].status.Place();
    FirstList(s, p, limbo);
    SpliceHead(h.procs, at, On(s, at), p);
    WithHeadFacts(h, at, To(p));
    FirstHeads(h, WithHead(h, at, To(p)), s, Attach(s, p), at, p, open);
  }

  lemma FirstList(s: State, p: nat, limbo: set<nat>)
    requires Shape(s) && Tidy(s, limbo) && p in limbo && p < NBPROC && FitsAt(s, p, 0)
    ensures var at := s.procs[p].status.Place(); var t := Attach(s, p);
      On(t, at) == [p] + On(s, at) && forall pl | pl != at :: On(t, pl) == On(s, pl)
  {
    hide Attach, Tidy, FitsAt;
    var at := s.procs[p].status.Place();
    AttachAt(s, p, 0, limbo);
    assert On(s, at)[..0] + [p] + On(s, at)[0..] == [p] + On(s, at);
  }

  lemma FirstHeads(h: Heap, g: Heap, s: State, t: State, at: Place, p: nat, open: Place)
    requires HeadsOk(h, s, open) && HeadOf(g, at) == To(p) && forall pl | pl != at :: HeadOf(g, pl) == HeadOf(h, pl)
    requires On(t, at) == [p] + On(s, at) && forall pl | pl != at :: On(t, pl) == On(s, pl)
    ensures HeadsOk(g, t, open)
  {
    hide HeadOf, On;
  }

  /** Filing a process changes only its stamp. */
  lemma StampProcs(ps: seq<PCB>, s: State, p: nat, loose: set<nat>)
    requires Shape(s) && |ps| == NBPROC && ProcsOk(ps, s, loose) && p < NBPROC
    ensures ProcsOk(ps, Attach(s, p), loose)
  {
    hide TagOk;
  }

  lemma SameHeads(h: Heap, g: Heap)
    requires g == h.(procs := g.procs)
    ensures forall pl :: HeadOf(g, pl) == HeadOf(h, pl)
  {
  }

  lemma LinkAfterLists(h: Heap, s: State, p: nat, k: nat, open: Place, limbo: set<nat>)
    requires Shape(s) && Sized(h) && ListsOk(h, s, open) && Tidy(s, limbo) && p in limbo && p < NBPROC && FitsAt(s, p, k + 1)
    requires k < |On(s, s.procs[p].status.Place())|
    requires var at := s.procs[p].status.Place(); LinkIs(h.procs[p], at, PtrAt(On(s, at), k + 1))
    ensures var at := s.procs[p].status.Place(); var n := On(s, at)[k];
      ListsOk(h.(procs := h.procs[n := WithLink(h.procs[n], at, To(p))]), Attach(s, p), open)
  {
    hide LinkIs, Attach, Tidy, Chained, WithLink, HeadOf, FitsAt;
    var at := s.procs[p].status.Place();
    var l := On(s, at);
    var n := l[k];
    var g := h.(procs := h.procs[n := WithLink(h.procs[n], at, To(p))]);
    AttachAt(s, p, k + 1, limbo);
    Member(s, at, k, limbo);
    SpliceChain(h.procs, at, l, k, p);
    MemberChains(h.procs, g.procs, s, limbo, n, at);
    SameHeads(h, g);
    assert PtrAt(l[..k + 1] + [p] + l[k + 1..], 0) == PtrAt(l, 0);
  }

  lemma RelinkProcs(ps: seq<PCB>, s: State, n: nat, x: Ptr, p: nat, loose: set<nat>)
    requires Shape(s) && |ps| == NBPROC && ProcsOk(ps, s, loose) && n < NBPROC && p < NBPROC
    ensures ProcsOk(ps[n := WithLink(ps[n], s.procs[n].status.Place(), x)], Attach(s, p), loose)
  {
    hide WithLink, TagOk;
    WithLinkTag(ps[n], s.procs[n], x);
  }

  /** Putting a process, whose link is set, behind position `k` of its list. */
  lemma LinkAfter(h: Heap, s: State, p: nat, k: nat, loose: set<nat>, open: Place, limbo: set<nat>)
    requires Linked(h, s, loose, open) && Tidy(s, limbo) && p in limbo && p < NBPROC && FitsAt(s, p, k + 1)
    requires k < |On(s, s.procs[p].status.Place())|
    requires var at := s.procs[p].status.Place(); LinkIs(h.procs[p], at, PtrAt(On(s, at), k + 1))
    ensures var at := s.procs[p].status.Place(); var n := On(s, at)[k];
      Linked(h.(procs := h.procs[n := WithLink(h.procs[n], at, To(p))]), Attach(s, p), loose, open)
  {
    hide LinkIs, RingOk, Attach, Tidy, ProcsOk, ListsOk, WithLink, FitsAt;
    var at := s.procs[p].status.Place();
    Member(s, at, k, limbo);
    LinkAfterLists(h, s, p, k, open, limbo);
    RelinkProcs(h.procs, s, On(s, at)[k], To(p), p, loose);
  }

  lemma MemberChains(ps: seq<PCB>, qs: seq<PCB>, s: State, limbo: set<nat>, n: nat, at: Place)
    requires Shape(s) && Tidy(s, limbo) && |ps| == |qs| == NBPROC && n < NBPROC && s.procs[n].status.Place() == at
    requires (forall pl :: Chained(ps, pl, On(s, pl))) && qs == ps[n := qs[n]]
    ensures forall pl | pl != at :: Chained(qs, pl, On(s, pl))
  {
    hide LinkIs, AllSorted, LinkedAt;
    OtherChains(ps, qs, s, limbo, n, at);
  }

  // ---- Reading ----

  lemma ReadNode(h: Heap, s: State, loose: set<nat>, open: Place, pl: Place, i: nat)
    requires Linked(h, s, loose, open) && i < |On(s, pl)|
    ensures var p := On(s, pl)[i]; p < NBPROC && LinkIs(h.procs[p], pl, PtrAt(On(s, pl), i + 1))
  {
    assert Chained(h.procs, pl, On(s, pl));
    assert LinkedAt(h.procs, pl, On(s, pl), i);
  }

  lemma ReadHead(h: Heap, s: State, loose: set<nat>, open: Place, pl: Place)
    requires Linked(h, s, loose, open) && pl != open && pl != Nowhere
    ensures HeadOf(h, pl) == PtrAt(On(s, pl), 0)
  {
  }

  lemma ReadProc(h: Heap, s: State, loose: set<nat>, open: Place, p: nat)
    requires Linked(h, s, loose, open) && p < NBPROC && p !in loose
    ensures FieldsOk(h.procs[p], s.procs[p]) && TagOk(h.procs[p], s.procs[p].status)
  {
  }

  /** Processes in the middle of a change are on no list. */
  ghost predicate OffLists(s: State, loose: set<nat>, limbo: set<nat>)
    requires Shape(s)
  {
    forall x | x in loose :: x < NBPROC && (x in limbo || s.procs[x].status.Place() == Nowhere)
  }

  lemma ReadMember(h: Heap, s: State, loose: set<nat>, open: Place, pl: Place, i: nat, limbo: set<nat>)
    requires Shape(s) && Linked(h, s, loose, open) && Tidy(s, limbo) && OffLists(s, loose, limbo) && i < |On(s, pl)|
    ensures var p := On(s, pl)[i];
      && p < NBPROC && p !in limbo && p !in loose && s.procs[p].status.Place() == pl
      && LinkIs(h.procs[p], pl, PtrAt(On(s, pl), i + 1))
      && FieldsOk(h.procs[p], s.procs[p]) && TagOk(h.procs[p], s.procs[p].status)
  {
    hide Tidy, Linked, LinkIs, TagOk;
    Member(s, pl, i, limbo);
    ReadNode(h, s, loose, open, pl, i);
    ReadProc(h, s, loose, open, On(s, pl)[i]);
  }

  lemma Sizes(h: Heap, s: State, loose: set<nat>, open: Place)
    requires Linked(h, s, loose, open)
    ensures Shape(s) && |h.procs| == NBPROC && |h.queues| == NBQUEUE && h.active == s.active && h.clock == s.clock
  {
  }

  // ---- Ring buffers ----

  /** The position `i` after `front`: past the end a ring starts again at zero. */
  function RingPos(front: nat, i: nat, c: nat): nat {
    if front + i < c then front + i else if front + i < 2 * c then front + i - c else 0
  }

  lemma RingPush(q: QCB, a: Queue, v: int)
    requires RingOk(q, a) && |a.buf| < a.capacity
    ensures var r := (q.rear + 1) % q.capacity;
      && r < |q.messages|
      && RingOk(q.(rear := r, messages := q.messages[r := v], size := q.size + 1), a.(buf := a.buf + [v]))
  {
    var r := (q.rear + 1) % q.capacity;
    ModWrap(q.rear + 1, q.capacity);
    var ms := q.messages[r := v];
    forall i | 0 <= i < q.size + 1 ensures ms[RingPos(q.front, i, q.capacity)] == (a.buf + [v])[i] {
      if i < q.size { assert q.messages[RingPos(q.front, i, q.capacity)] == a.buf[i]; }
    }
  }

  lemma RingPop(q: QCB, a: Queue)
    requires RingOk(q, a) && a.capacity > 0 && a.buf != []
    ensures q.front < |q.messages| && q.messages[q.front] == a.buf[0]
    ensures RingOk(q.(front := (q.front + 1) % q.capacity, size := q.size - 1), a.(buf := a.buf[1..]))
  {
    var f := (q.front + 1) % q.capacity;
    ModWrap(q.front + 1, q.capacity);
    assert q.messages[RingPos(q.front, 0, q.capacity)] == a.buf[0];
    forall i | 0 <= i < q.size - 1 ensures q.messages[RingPos(f, i, q.capacity)] == a.buf[1..][i] {
      assert q.messages[RingPos(q.front, i + 1, q.capacity)] == a.buf[i + 1];
    }
  }

  lemma ReplaceQueue(h: Heap, s: State, f: nat, b: QCB, q: Queue, events: seq<Event>)
    requires Linked(h, s, {}, Nowhere) && f < NBQUEUE && RingOk(b, q)
    requires b.emptyHead == h.queues[f].emptyHead && b.fullHead == h.queues[f].fullHead
    ensures Linked(h.(queues := h.queues[f := b]), SetQueue(s, f, q, events), {}, Nowhere)
  {
    var g := h.(queues := h.queues[f := b]);
    hide TagOk, LinkIs, RingOk, LinkedAt, SetQueue;
    assert forall pl :: HeadOf(g, pl) == HeadOf(h, pl);
  }

  lemma ReadRing(h: Heap, s: State, f: nat)
    requires Linked(h, s, {}, Nowhere) && f < NBQUEUE
    ensures RingOk(h.queues[f], s.queues[f])
  {
  }

  lemma LogLinked(h: Heap, s: State, e: Event, loose: set<nat>, open: Place)
    requires Linked(h, s, loose, open)
    ensures Linked(h, Logged(s, e), loose, open)
  {
    hide TagOk, LinkIs, RingOk, LinkedAt;
  }
}
