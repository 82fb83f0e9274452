/**
 The kernel as it is written: global tables updated in place, lists relinked by loops.
 Every system call is proved to do exactly what its step in KernelSpec does.
 */
module KernelMachine {
  import opened KernelState
  import opened KernelSpec
  import opened KernelPlaces
  import opened KernelScheduling
  import opened KernelFamily
  import opened KernelMail
  import opened KernelInvariant
  import opened KernelHeap

  /** What a system call gives back: a value, or nothing until the caller runs again. */
  datatype Ret = Returned(value: int) | Suspended

  class Kernel {
    const procs: array<PCB>
    const queues: array<QCB>
    var active: nat
    var runnableHead: Ptr
    var asleepHead: Ptr
    var deadHead: Ptr
    var clock: nat
    /** The abstract state that the variables above represent. */
    ghost var s: State

    ghost function Snap(): Heap
      reads this, procs, queues
    {
      Heap(procs[..], queues[..], active, runnableHead, asleepHead, deadHead, clock)
    }

    ghost predicate Rep(loose: set<nat>, open: Place)
      reads this, procs, queues
    {
      procs.Length == NBPROC && queues.Length == NBQUEUE && Shape(s) && Linked(Snap(), s, loose, open)
    }

    ghost predicate Valid()
      reads this, procs, queues
    {
      Rep({}, Nowhere) && Inv(s)
    }

    method SetPcb(p: nat, b: PCB)
      requires p < procs.Length
      modifies procs
      ensures procs[..] == old(procs[..])[p := b]
    {
      procs[p] := b;
    }

    // ---- scheduler.c: lists ----

    /** Unlinks the head of the runnable list. */
    method DropFirst(p: nat, ghost loose: set<nat>)
      requires Rep(loose, Nowhere) && Tidy(s, {}) && On(s, RunQueue) != [] && On(s, RunQueue)[0] == p
      modifies this`runnableHead, this`s
      ensures s == Detach(old(s), p) && Rep(loose + {p}, Nowhere)
    {
      hide Linked, Tidy, Detach;
      ghost var h := Snap();
      ReadNode(h, s, loose, Nowhere, RunQueue, 0);
      OpenHead(h, s, RunQueue, loose, {}) by { TidyPlaced(s, {}); }
      s := Detach(s, p);
      CloseHead(h, s, RunQueue, loose + {p});
      runnableHead := procs[p].attr.nextRunnable;
    }

    method RemoveRunnable(p: nat, ghost loose: set<nat>)
      requires Rep(loose, Nowhere) && Tidy(s, {}) && p < NBPROC
      requires procs[p].tag.PsRunnable? <==> s.procs[p].status.Runnable?
      modifies this`runnableHead, this`s, procs
      ensures old(s.procs[p].status.Runnable?) ==> s == Detach(old(s), p) && Rep(loose + {p}, Nowhere)
      ensures !old(s.procs[p].status.Runnable?) ==> s == old(s) && Rep(loose, Nowhere)
      ensures procs[p] == old(procs[p])
    {
      hide Linked, Tidy, Detach;
      ghost var h, l := Snap(), On(s, RunQueue);
      ReadHead(h, s, loose, Nowhere, RunQueue);
      if s.procs[p].status.Runnable? { OnRunQueue(s, p); }
      if runnableHead.To? && procs[p].tag.PsRunnable? {
        if runnableHead == To(p) {
          DropFirst(p, loose);
        } else {
          var node := runnableHead.pid;
          ghost var i := 0;
          ReadNode(h, s, loose, Nowhere, RunQueue, 0);
          while procs[node].attr.nextRunnable != Null
            invariant i < |l| && l[i] == node < NBPROC && LinkIs(procs[node], RunQueue, PtrAt(l, i + 1))
            invariant forall j | 0 <= j <= i :: l[j] != p
            invariant Snap() == h && s == old(s)
            decreases |l| - i
          {
            var next := procs[node].attr.nextRunnable;
            ReadNode(h, s, loose, Nowhere, RunQueue, i + 1);
            if next == To(p) {
              Unlink(h, s, i, RunQueue, loose, Nowhere, {});
              ReadNode(h, s, loose, Nowhere, RunQueue, i + 1);
              SetPcb(node, procs[node].(attr := RunnableAttr(procs[p].attr.nextRunnable)));
              s := Detach(s, p);
              return;
            }
            node := next.pid;
            i := i + 1;
          }
        }
      }
    }
  
    /** Sets the state of a process that is on no list. */
    method MarkRunnable(p: nat, ghost loose: set<nat>, ghost open: Place)
      requires Rep(loose, open) && p < NBPROC && Tidy(s, {p})
      modifies this`s, procs
      ensures s == SetProc(old(s), p, old(s).procs[p].(status := Runnable)) && Tidy(s, {p}) && Rep(loose + {p}, open)
      ensures procs[p] == old(procs[p]).(tag := PsRunnable) && forall x | 0 <= x < procs.Length && x != p :: procs[x] == old(procs[x])
    {
      hide Linked, Tidy, Attach;
      ghost var q := s.procs[p].(status := Runnable);
      RewriteLoose(Snap(), s, p, procs[p].(tag := PsRunnable), q, loose, open, {p}) by { TidyPlaced(s, {p}); }
      SetProcTidy(s, p, q, {p});
      SetPcb(p, procs[p].(tag := PsRunnable));
      s := SetProc(s, p, q);
    }

    method PushRunnable(p: nat, ghost loose: set<nat>, ghost open: Place)
      requires Rep(loose, open) && p < NBPROC && Tidy(s, {p}) && OffLists(s, loose, {p}) && open != RunQueue
      requires FieldsOk(procs[p], s.procs[p])
      modifies this`runnableHead, this`s, procs
      ensures s == Attach(SetProc(old(s), p, old(s).procs[p].(status := Runnable)), p)
      ensures Rep(loose - {p}, open)
      ensures forall x | x in loose && x != p :: procs[x] == old(procs[x])
    {
      hide Linked, Tidy, Attach;
      MarkRunnable(p, loose, open);
      ghost var h, l, lo := Snap(), On(s, RunQueue), loose + {p};
      ReadHead(h, s, lo, open, RunQueue);
      if l != [] { ReadMember(h, s, lo, open, RunQueue, 0, {p}); }
      if runnableHead.Null? || procs[p].prio > procs[runnableHead.pid].prio {
        SetLink(p, RunnableAttr(runnableHead), lo, open);
        LinkFirst(Snap(), s, p, lo - {p}, open, {p});
        runnableHead := To(p);
      } else {
        var current, i := RunnableSlot(p, lo, open);
        ReadMember(h, s, lo, open, RunQueue, i, {p});
        SetLink(p, RunnableAttr(procs[current].attr.nextRunnable), lo, open);
        LinkAfter(Snap(), s, p, i, lo - {p}, open, {p});
        SetPcb(current, procs[current].(attr := RunnableAttr(To(p))));
      }
      s := Attach(s, p);
      assert lo - {p} == loose - {p};
    }

    /** Walks the runnable list to the last process that `p` does not go before. */
    method RunnableSlot(p: nat, ghost loose: set<nat>, ghost open: Place) returns (current: nat, ghost i: nat)
      requires Rep(loose, open) && p < NBPROC && Tidy(s, {p}) && OffLists(s, loose, {p}) && open != RunQueue
      requires s.procs[p].status.Runnable? && procs[p].prio == s.procs[p].prio
      requires runnableHead.To? && runnableHead.pid < NBPROC && procs[p].prio <= procs[runnableHead.pid].prio
      ensures var l := On(s, RunQueue); i < |l| && l[i] == current && FitsAt(s, p, i + 1)
    {
      hide Linked, Tidy;
      ghost var h, l, t := Snap(), On(s, RunQueue), s;
      ReadHead(h, s, loose, open, RunQueue);
      current, i := runnableHead.pid, 0;
      ReadMember(h, s, loose, open, RunQueue, 0, {p});
      if 1 < |l| { ReadMember(h, s, loose, open, RunQueue, 1, {p}); }
      while procs[current].attr.nextRunnable != Null && procs[p].prio <= procs[procs[current].attr.nextRunnable.pid].prio
        invariant i < |l| && l[i] == current < NBPROC && LinkIs(procs[current], RunQueue, PtrAt(l, i + 1))
        invariant i + 1 < |l| ==> l[i + 1] < NBPROC && procs[l[i + 1]].prio == t.procs[l[i + 1]].prio
        invariant forall j | 0 <= j <= i :: !GoesBefore(t.procs, RunQueue, p, l[j])
        decreases |l| - i
      {
        current := procs[current].attr.nextRunnable.pid;
        i := i + 1;
        ReadMember(h, s, loose, open, RunQueue, i, {p});
        if i + 1 < |l| { ReadMember(h, s, loose, open, RunQueue, i + 1, {p}); }
      }
    }

    /** Writes the union of a process that is on no list. */
    method SetLink(p: nat, a: Attr, ghost loose: set<nat>, ghost open: Place)
      requires Rep(loose, open) && p < NBPROC && Tidy(s, {p}) && FieldsOk(procs[p], s.procs[p])
      requires TagOk(procs[p].(attr := a), s.procs[p].status)
      modifies procs
      ensures Rep(loose - {p}, open) && procs[..] == old(procs[..])[p := old(procs[p]).(attr := a)]
    {
      hide Linked, Tidy;
      RewriteLoose(Snap(), s, p, procs[p].(attr := a), s.procs[p], loose, open, {p}) by { TidyPlaced(s, {p}); }
      SameProc(s, p);
      SetPcb(p, procs[p].(attr := a));
    }
  
    method PushDead(p: nat, ghost loose: set<nat>)
      requires Rep(loose, Nowhere) && p < NBPROC && Tidy(s, {p}) && FieldsOk(procs[p], s.procs[p])
      modifies this`deadHead, this`s, procs
      ensures s == Attach(SetProc(old(s), p, old(s).procs[p].(status := Dead)), p)
      ensures Rep(loose - {p}, Nowhere)
    {
      hide Linked, Tidy, Attach;
      ghost var q, lo := s.procs[p].(status := Dead), loose - {p};
      var b := procs[p].(tag := PsDead, attr := DeadAttr(deadHead));
      RewriteLoose(Snap(), s, p, b, q, loose, Nowhere, {p}) by { TidyPlaced(s, {p}); }
      SetProcTidy(s, p, q, {p});
      SetPcb(p, b);
      s := SetProc(s, p, q);
      ReadHead(Snap(), s, lo, Nowhere, Free);
      LinkFirst(Snap(), s, p, lo, Nowhere, {p});
      deadHead := To(p);
      s := Attach(s, p);
    }

    // ---- queues.c: waiting lists ----

    function WaitHead(pl: Place): (x: Ptr)
      requires (pl.Receivers? || pl.Senders?) && pl.fid < queues.Length
      reads queues
      ensures x == HeadOf(Heap([], queues[..], 0, Null, Null, Null, 0), pl)
    {
      if pl.Receivers? then queues[pl.fid].emptyHead else queues[pl.fid].fullHead
    }

    method SetWaitHead(pl: Place, x: Ptr)
      requires (pl.Receivers? || pl.Senders?) && pl.fid < queues.Length
      modifies queues
      ensures Snap() == WithHead(old(Snap()), pl, x)
    {
      if pl.Receivers? {
        queues[pl.fid] := queues[pl.fid].(emptyHead := x);
      } else {
        queues[pl.fid] := queues[pl.fid].(fullHead := x);
      }
    }

    method PushWaiting(pl: Place, p: nat)
      requires Rep({}, Nowhere) && p < NBPROC && Tidy(s, {p}) && (pl.Receivers? || pl.Senders?) && pl.fid < NBQUEUE
      requires s.procs[p].status.Place() == pl
      modifies this`s, procs, queues
      ensures s == Attach(old(s), p) && Rep({}, Nowhere)
    {
      hide Linked, Tidy, Attach;
      ghost var h, l := Snap(), On(s, pl);
      ReadHead(h, s, {}, Nowhere, pl);
      ReadProc(h, s, {}, Nowhere, p);
      if l != [] { ReadMember(h, s, {}, Nowhere, pl, 0, {p}); }
      assert {} - {p} == {};
      var head := WaitHead(pl);
      if head.Null? || procs[p].prio > procs[head.pid].prio {
        SetLink(p, procs[p].attr.(waitNext := head), {}, Nowhere);
        LinkFirst(Snap(), s, p, {}, Nowhere, {p});
        SetWaitHead(pl, To(p));
      } else {
        var cur, i := WaitingSlot(pl, p);
        ReadNode(h, s, {}, Nowhere, pl, i);
        SetLink(p, procs[p].attr.(waitNext := procs[cur].attr.waitNext), {}, Nowhere);
        LinkAfter(Snap(), s, p, i, {}, Nowhere, {p});
        SetPcb(cur, procs[cur].(attr := procs[cur].attr.(waitNext := To(p))));
      }
      s := Attach(s, p);
    }

    /** Walks a waiting list to the last process that `p` does not go before. */
    method WaitingSlot(pl: Place, p: nat) returns (cur: nat, ghost i: nat)
      requires Rep({}, Nowhere) && p < NBPROC && Tidy(s, {p}) && (pl.Receivers? || pl.Senders?) && pl.fid < NBQUEUE
      requires s.procs[p].status.Place() == pl && procs[p].prio == s.procs[p].prio
      requires var x := WaitHead(pl); x.To? && x.pid < NBPROC && procs[p].prio <= procs[x.pid].prio
      ensures var l := On(s, pl); i < |l| && l[i] == cur && FitsAt(s, p, i + 1)
    {
      hide Linked, Tidy;
      ghost var h, l, t := Snap(), On(s, pl), s;
      ReadHead(h, s, {}, Nowhere, pl);
      cur, i := WaitHead(pl).pid, 0;
      ReadMember(h, s, {}, Nowhere, pl, 0, {p});
      if 1 < |l| { ReadMember(h, s, {}, Nowhere, pl, 1, {p}); }
      while procs[cur].attr.waitNext != Null && procs[p].prio <= procs[procs[cur].attr.waitNext.pid].prio
        invariant i < |l| && l[i] == cur < NBPROC && LinkIs(procs[cur], pl, PtrAt(l, i + 1))
        invariant i + 1 < |l| ==> l[i + 1] < NBPROC && procs[l[i + 1]].prio == t.procs[l[i + 1]].prio
        invariant forall j | 0 <= j <= i :: !GoesBefore(t.procs, pl, p, l[j])
        decreases |l| - i
      {
        cur := procs[cur].attr.waitNext.pid;
        i := i + 1;
        ReadMember(h, s, {}, Nowhere, pl, i, {p});
        if i + 1 < |l| { ReadMember(h, s, {}, Nowhere, pl, i + 1, {p}); }
      }
    }

    method PopWaiting(pl: Place, p: nat, ghost loose: set<nat>)
      requires Rep(loose, Nowhere) && p < NBPROC && Tidy(s, {}) && (pl.Receivers? || pl.Senders?) && pl.fid < NBQUEUE
      requires s.procs[p].status.Place() == pl
      modifies this`s, procs, queues
      ensures s == Detach(old(s), p) && Rep(loose + {p}, Nowhere) && procs[p] == old(procs[p])
    {
      hide Linked, Tidy, Detach, TagOk, Without, Shape;
      ghost var h, l := Snap(), On(s, pl);
      ReadHead(h, s, loose, Nowhere, pl);
      OnItsList(s, p);
      ReadNode(h, s, loose, Nowhere, pl, 0);
      var head := WaitHead(pl);
      if head == To(p) {
        OpenHead(h, s, pl, loose, {}) by { TidyPlaced(s, {}); }
        s := Detach(s, p);
        CloseHead(h, s, pl, loose + {p});
        SetWaitHead(pl, procs[p].attr.waitNext);
      } else {
        var cur, i := WaitingBefore(pl, p, loose);
        ReadNode(h, s, loose, Nowhere, pl, i);
        if procs[cur].attr.waitNext != Null {
          Unlink(h, s, i, pl, loose, Nowhere, {});
          ReadNode(h, s, loose, Nowhere, pl, i + 1);
          SetPcb(cur, procs[cur].(attr := procs[cur].attr.(waitNext := procs[p].attr.waitNext)));
          s := Detach(s, p);
        }
      }
    }

    /** Walks a waiting list to the process in front of `p`. */
    method WaitingBefore(pl: Place, p: nat, ghost loose: set<nat>) returns (cur: nat, ghost i: nat)
      requires Rep(loose, Nowhere) && (pl.Receivers? || pl.Senders?) && pl.fid < NBQUEUE && p in On(s, pl)
      requires WaitHead(pl).To? && WaitHead(pl) != To(p)
      ensures var l := On(s, pl); i + 1 < |l| && l[i] == cur && l[i + 1] == p
    {
      hide Linked;
      ghost var h, l := Snap(), On(s, pl);
      ReadHead(h, s, loose, Nowhere, pl);
      ReadNode(h, s, loose, Nowhere, pl, 0);
      cur, i := WaitHead(pl).pid, 0;
      while procs[cur].attr.waitNext != Null && procs[cur].attr.waitNext != To(p)
        invariant i < |l| && l[i] == cur < NBPROC && LinkIs(procs[cur], pl, PtrAt(l, i + 1))
        invariant forall j | 0 <= j <= i :: l[j] != p
        decreases |l| - i
      {
        ReadNode(h, s, loose, Nowhere, pl, i + 1);
        cur := procs[cur].attr.waitNext.pid;
        i := i + 1;
      }
    }

    // ---- scheduler.c: sleepers ----

    /** Files the process `p`, already marked asleep, by wake time. */
    method PushAsleep(p: nat)
      requires Rep({}, Nowhere) && p < NBPROC && Tidy(s, {p}) && s.procs[p].status.Asleep?
      modifies this`asleepHead, this`s, procs
      ensures s == Attach(old(s), p) && Rep({}, Nowhere)
    {
      hide Linked, Tidy, Attach;
      ghost var h, l := Snap(), On(s, Sleepers);
      ReadHead(h, s, {}, Nowhere, Sleepers);
      ReadProc(h, s, {}, Nowhere, p);
      if l != [] { ReadMember(h, s, {}, Nowhere, Sleepers, 0, {p}); }
      assert {} - {p} == {};
      if asleepHead.Null? || procs[p].attr.clock <= procs[asleepHead.pid].attr.clock {
        SetLink(p, procs[p].attr.(asleepNext := asleepHead), {}, Nowhere);
        LinkFirst(Snap(), s, p, {}, Nowhere, {p});
        asleepHead := To(p);
      } else {
        var prev, i := AsleepSlot(p);
        ReadNode(h, s, {}, Nowhere, Sleepers, i);
        SetLink(p, procs[p].attr.(asleepNext := procs[prev].attr.asleepNext), {}, Nowhere);
        LinkAfter(Snap(), s, p, i, {}, Nowhere, {p});
        SetPcb(prev, procs[prev].(attr := procs[prev].attr.(asleepNext := To(p))));
      }
      s := Attach(s, p);
    }

    method AsleepSlot(p: nat) returns (prev: nat, ghost i: nat)
      requires Rep({}, Nowhere) && p < NBPROC && Tidy(s, {p}) && s.procs[p].status.Asleep?
      requires procs[p].attr.AsleepAttr? && procs[p].attr.clock == s.procs[p].status.wake
      requires asleepHead.To? && asleepHead.pid < NBPROC && procs[asleepHead.pid].attr.AsleepAttr?
      requires procs[p].attr.clock > procs[asleepHead.pid].attr.clock
      ensures var l := On(s, Sleepers); i < |l| && l[i] == prev && FitsAt(s, p, i + 1)
    {
      hide Linked, Tidy;
      ghost var h, l, t := Snap(), On(s, Sleepers), s;
      ReadHead(h, s, {}, Nowhere, Sleepers);
      prev, i := asleepHead.pid, 0;
      ReadMember(h, s, {}, Nowhere, Sleepers, 0, {p});
      if 1 < |l| { ReadMember(h, s, {}, Nowhere, Sleepers, 1, {p}); }
      while procs[prev].attr.asleepNext != Null && procs[p].attr.clock > procs[procs[prev].attr.asleepNext.pid].attr.clock
        invariant i < |l| && l[i] == prev < NBPROC && LinkIs(procs[prev], Sleepers, PtrAt(l, i + 1))
        invariant i + 1 < |l| ==>
          (l[i + 1] < NBPROC && procs[l[i + 1]].attr.AsleepAttr? && procs[l[i + 1]].attr.clock == Wake(t.procs[l[i + 1]]))
        invariant forall j | 0 <= j <= i :: !GoesBefore(t.procs, Sleepers, p, l[j])
        decreases |l| - i
      {
        prev := procs[prev].attr.asleepNext.pid;
        i := i + 1;
        ReadMember(h, s, {}, Nowhere, Sleepers, i, {p});
        if i + 1 < |l| { ReadMember(h, s, {}, Nowhere, Sleepers, i + 1, {p}); }
      }
    }

    method RemoveAsleep(p: nat)
      requires Rep({}, Nowhere) && p < NBPROC && Tidy(s, {}) && s.procs[p].status.Asleep?
      modifies this`asleepHead, this`s, procs
      ensures s == Detach(old(s), p) && Rep({p}, Nowhere) && procs[p] == old(procs[p])
    {
      hide Linked, Tidy, Detach;
      ghost var h, l := Snap(), On(s, Sleepers);
      ReadHead(h, s, {}, Nowhere, Sleepers);
      OnItsList(s, p);
      ReadNode(h, s, {}, Nowhere, Sleepers, 0);
      assert {} + {p} == {p};
      if asleepHead == To(p) {
        OpenHead(h, s, Sleepers, {}, {}) by { TidyPlaced(s, {}); }
        s := Detach(s, p);
        CloseHead(h, s, Sleepers, {p});
        asleepHead := procs[p].attr.asleepNext;
      } else {
        var prev := asleepHead.pid;
        ghost var i := 0;
        while procs[prev].attr.asleepNext != Null
          invariant i < |l| && l[i] == prev < NBPROC && LinkIs(procs[prev], Sleepers, PtrAt(l, i + 1))
          invariant forall j | 0 <= j <= i :: l[j] != p
          invariant Snap() == h && s == old(s)
          decreases |l| - i
        {
          ReadNode(h, s, {}, Nowhere, Sleepers, i + 1);
          if procs[prev].attr.asleepNext == To(p) {
            Unlink(h, s, i, Sleepers, {}, Nowhere, {});
            SetPcb(prev, procs[prev].(attr := procs[prev].attr.(asleepNext := procs[p].attr.asleepNext)));
            s := Detach(s, p);
            return;
          }
          prev := procs[prev].attr.asleepNext.pid;
          i := i + 1;
        }
      }
    }

    // ---- scheduler.c: scheduling ----

    method WakeFirstSleeper()
      requires Rep({}, Nowhere) && Structure(s) && asleepHead.To? && asleepHead.pid < NBPROC
      requires On(s, Sleepers) != [] && On(s, Sleepers)[0] == asleepHead.pid
      modifies this`runnableHead, this`asleepHead, this`s, procs
      ensures s == Move(old(s), old(asleepHead.pid), Runnable) && Rep({}, Nowhere)
    {
      hide Linked, Tidy, Attach, Detach;
      var awake := asleepHead.pid;
      ghost var h := Snap();
      ReadMember(h, s, {}, Nowhere, Sleepers, 0, {});
      OpenHead(h, s, Sleepers, {}, {}) by { TidyPlaced(s, {}); }
      DetachTidy(s, awake, {});
      assert {} + {awake} == {awake} && {awake} - {awake} == {};
      s := Detach(s, awake);
      CloseHead(h, s, Sleepers, {awake});
      asleepHead := procs[awake].attr.asleepNext;
      PushRunnable(awake, {awake}, Nowhere);
    }

    /** What the wake-up loop sees at the head of the asleep list. */
    ghost predicate SleeperSeen()
      reads this, procs, queues
      requires Rep({}, Nowhere)
    {
      && asleepHead == PtrAt(On(s, Sleepers), 0) && clock == s.clock
      && (asleepHead.To? ==>
            && asleepHead.pid < NBPROC && procs[asleepHead.pid].attr.AsleepAttr?
            && s.procs[asleepHead.pid].status == Asleep(procs[asleepHead.pid].attr.clock))
    }

    lemma SeeSleeper()
      requires Rep({}, Nowhere) && Structure(s)
      ensures SleeperSeen()
    {
      hide Tidy;
      ReadHead(Snap(), s, {}, Nowhere, Sleepers);
      if On(s, Sleepers) != [] {
        ReadMember(Snap(), s, {}, Nowhere, Sleepers, 0, {});
      }
    }

    method TickScheduler()
      requires Rep({}, Nowhere) && Structure(s)
      modifies this`active, this`runnableHead, this`asleepHead, this`s, procs
      ensures s == Tick(old(s)) && Rep({}, Nowhere)
    {
      hide Linked, Tidy, Move, Switch;
      SeeSleeper();
      while asleepHead.To? && clock >= procs[asleepHead.pid].attr.clock
        invariant Rep({}, Nowhere) && Structure(s) && SleeperSeen() && WakeDue(s) == WakeDue(old(s))
        decreases |On(s, Sleepers)|
      {
        WakeOne(s);
        WakeFirstSleeper();
        SeeSleeper();
      }
      SwitchIfDue();
    }

    /** The second half of tick_scheduler: hand over unless the active process may go on. */
    method SwitchIfDue()
      requires Rep({}, Nowhere) && Structure(s)
      modifies this`active, this`runnableHead, this`s, procs
      ensures s == (if MustSwitch(old(s)) && On(old(s), RunQueue) != [] then Switch(old(s)) else old(s))
      ensures Rep({}, Nowhere)
    {
      hide Linked, Tidy;
      ghost var h := Snap();
      ReadHead(h, s, {}, Nowhere, RunQueue);
      Sizes(h, s, {}, Nowhere);
      ReadProc(h, s, {}, Nowhere, active);
      if On(s, RunQueue) != [] { ReadMember(h, s, {}, Nowhere, RunQueue, 0, {}); }
      NeverEmpty(s);
      if !procs[active].tag.PsRunning? || (runnableHead.To? && procs[runnableHead.pid].prio >= procs[active].prio) {
        HandOver();
      }
    }

    /** The process that had the processor goes back to the run queue. */
    method PutBack(prev: nat, ghost a: nat)
      requires Rep({a}, Nowhere) && Tidy(s, {}) && prev < NBPROC && a < NBPROC && a != prev
      requires s.procs[prev].status.Running? && s.procs[a].status.Running?
      modifies this`runnableHead, this`s, procs
      ensures s == Move(old(s), prev, Runnable) && Rep({a}, Nowhere) && procs[a] == old(procs[a])
    {
      hide Linked, Tidy, Attach, Detach;
      TidyGrow(s, prev);
      ReadProc(Snap(), s, {a}, Nowhere, prev);
      DetachNothing(s, prev);
      PushRunnable(prev, {a}, Nowhere);
      assert {a} - {prev} == {a};
    }

    /** Makes the head of the run queue active; its tag is still to be set. */
    method TakeProcessor() returns (prev: nat)
      requires Rep({}, Nowhere) && Structure(s) && On(s, RunQueue) != []
      modifies this`active, this`runnableHead, this`s
      ensures prev == old(s).active < NBPROC && active < NBPROC && active == On(old(s), RunQueue)[0]
      ensures s == SetActive(Move(old(s), active, Running), active) && Rep({active}, Nowhere) && Tidy(s, {})
      ensures procs[prev].tag.PsRunning? <==> old(s).procs[prev].status.Running?
      ensures old(s).procs[prev].status.Running? ==> prev != active
      ensures FieldsOk(procs[active], s.procs[active])
    {
      hide Linked, Tidy, Attach, Detach;
      ghost var h := Snap();
      ReadHead(h, s, {}, Nowhere, RunQueue);
      Sizes(h, s, {}, Nowhere);
      ReadMember(h, s, {}, Nowhere, RunQueue, 0, {});
      ReadProc(h, s, {}, Nowhere, active);
      RunHead(s);
      prev := active;
      active := runnableHead.pid;
      ghost var a := active;
      TakeHead(h, s, a);
      SwitchActive(s, Move(s, a, Running), a);
      runnableHead := procs[active].attr.nextRunnable;
      s := SetActive(Move(s, a, Running), a);
    }

    method HandOver()
      requires Rep({}, Nowhere) && Structure(s) && On(s, RunQueue) != []
      modifies this`active, this`runnableHead, this`s, procs
      ensures s == Switch(old(s)) && Rep({}, Nowhere)
    {
      hide Linked, Tidy, Attach, Detach, TagOk;
      var prev := TakeProcessor();
      ghost var a := active;
      if procs[prev].tag.PsRunning? { PutBack(prev, a); }
      assert {a} - {a} == {};
      FinishRunning(Snap(), s, a);
      SetPcb(active, procs[active].(tag := PsRunning));
    }

    method FixScheduler()
      requires Rep({}, Nowhere) && Structure(s)
      modifies this`active, this`runnableHead, this`asleepHead, this`s, procs
      ensures s == Fix(old(s)) && Rep({}, Nowhere)
    {
      hide Linked, Tidy, Tick;
      ghost var h := Snap();
      ReadHead(h, s, {}, Nowhere, RunQueue);
      Sizes(h, s, {}, Nowhere);
      ReadProc(h, s, {}, Nowhere, active);
      if On(s, RunQueue) != [] { ReadMember(h, s, {}, Nowhere, RunQueue, 0, {}); }
      if !procs[active].tag.PsRunning? || (runnableHead.To? && procs[active].prio < procs[runnableHead.pid].prio) {
        TickScheduler();
      }
    }

    // ---- queues.c: waking ----

    method WakeupFirst(pl: Place)
      requires Rep({}, Nowhere) && Structure(s) && (pl.Receivers? || pl.Senders?) && pl.fid < NBQUEUE && On(s, pl) != []
      modifies this`active, this`runnableHead, this`asleepHead, this`s, procs, queues
      ensures s == Fix(Move(old(s), On(old(s), pl)[0], Runnable)) && Rep({}, Nowhere)
    {
      hide Linked, Tidy, Fix;
      ReleaseFirst(pl);
      MakeRunnable(old(s), On(old(s), pl)[0]);
      FixScheduler();
    }

    /** Moves the first process of a waiting list to the run queue, then advances the head. */
    method ReleaseFirst(pl: Place)
      requires Rep({}, Nowhere) && Tidy(s, {}) && (pl.Receivers? || pl.Senders?) && pl.fid < NBQUEUE && On(s, pl) != []
      modifies this`runnableHead, this`s, procs, queues
      ensures s == Move(old(s), On(old(s), pl)[0], Runnable) && Rep({}, Nowhere)
    {
      hide Linked, Tidy, Attach, Detach;
      ghost var h := Snap();
      ReadHead(h, s, {}, Nowhere, pl);
      ReadMember(h, s, {}, Nowhere, pl, 0, {});
      var p := WaitHead(pl).pid;
      var next := procs[p].attr.waitNext;
      OpenHead(h, s, pl, {}, {}) by { TidyPlaced(s, {}); }
      DetachTidy(s, p, {});
      assert {} + {p} == {p} && {p} - {p} == {};
      s := Detach(s, p);
      ghost var d := s;
      PushRunnable(p, {p}, pl);
      assert On(s, pl) == On(d, pl);
      CloseHead(Snap(), s, pl, {});
      SetWaitHead(pl, next);
    }
  
    /** Fails the call of the first process of a waiting list and makes it runnable. */
    method AbortHead(pl: Place)
      requires Rep({}, Nowhere) && Structure(s) && (pl.Receivers? || pl.Senders?) && pl.fid < NBQUEUE && On(s, pl) != []
      modifies this`runnableHead, this`s, procs, queues
      ensures s == AbortFirst(old(s), pl) && Rep({}, Nowhere)
    {
      hide Linked, Tidy, Move;
      ghost var h, q := Snap(), Abort(s.procs[On(s, pl)[0]]);
      ReadHead(h, s, {}, Nowhere, pl);
      ReadMember(h, s, {}, Nowhere, pl, 0, {});
      var p := WaitHead(pl).pid;
      var b := procs[p].(frame := Fail(procs[p].frame));
      RewriteFields(h, s, p, b, q, {}, Nowhere);
      SetProcSameTidy(s, p, q, {});
      SetPcb(p, b);
      s := SetProc(s, p, q);
      LogLinked(Snap(), s, Aborted(pl.fid, p), {}, Nowhere);
      LogTidy(s, Aborted(pl.fid, p));
      s := Logged(s, Aborted(pl.fid, p));
      ReleaseFirst(pl);
    }

    method WakeupAll(pl: Place)
      requires Rep({}, Nowhere) && Structure(s) && (pl.Receivers? || pl.Senders?) && pl.fid < NBQUEUE
      modifies this`runnableHead, this`s, procs, queues
      ensures s == WakeAll(old(s), pl) && Rep({}, Nowhere) && Structure(s)
    {
      hide Linked, Tidy, AbortFirst;
      ReadHead(Snap(), s, {}, Nowhere, pl);
      if WaitHead(pl).Null? { return; }
      ReadNode(Snap(), s, {}, Nowhere, pl, 0);
      var cur := procs[WaitHead(pl).pid].attr.waitNext;
      while cur != Null
        invariant Rep({}, Nowhere) && Structure(s) && On(s, pl) != [] && cur == PtrAt(On(s, pl), 1)
        invariant WakeAll(s, pl) == WakeAll(old(s), pl)
        decreases |On(s, pl)|
      {
        AbortStep(s, pl);
        AbortHead(pl);
        ReadHead(Snap(), s, {}, Nowhere, pl);
        ReadNode(Snap(), s, {}, Nowhere, pl, 0);
        cur := procs[WaitHead(pl).pid].attr.waitNext;
      }
      AbortStep(s, pl);
      AbortHead(pl);
    }

    // ---- queues.c: messages ----

    method PushMessage(f: nat, val: int, ghost events: seq<Event>)
      requires Rep({}, Nowhere) && f < NBQUEUE && |s.queues[f].buf| < s.queues[f].capacity
      modifies this`s, queues
      ensures var q := old(s).queues[f]; s == SetQueue(old(s), f, q.(buf := q.buf + [val]), events)
      ensures Rep({}, Nowhere)
    {
      hide Linked;
      ReadRing(Snap(), s, f);
      var q := queues[f];
      RingPush(q, s.queues[f], val);
      var rear := (q.rear + 1) % q.capacity;
      var b := q.(rear := rear, messages := q.messages[rear := val], size := q.size + 1);
      ghost var a := s.queues[f].(buf := s.queues[f].buf + [val]);
      ReplaceQueue(Snap(), s, f, b, a, events);
      queues[f] := b;
      s := SetQueue(s, f, a, events);
    }

    method PopMessage(f: nat, ghost reader: nat) returns (val: int)
      requires Rep({}, Nowhere) && f < NBQUEUE && s.queues[f].capacity > 0 && s.queues[f].buf != []
      modifies this`s, queues
      ensures var q := old(s).queues[f];
        val == q.buf[0] && s == SetQueue(old(s), f, q.(buf := q.buf[1..]), [Delivered(f, reader, val)])
      ensures Rep({}, Nowhere)
    {
      hide Linked;
      ReadRing(Snap(), s, f);
      var q := queues[f];
      RingPop(q, s.queues[f]);
      val := q.messages[q.front];
      var b := q.(front := (q.front + 1) % q.capacity, size := q.size - 1);
      ghost var a := s.queues[f].(buf := s.queues[f].buf[1..]);
      ReplaceQueue(Snap(), s, f, b, a, [Delivered(f, reader, val)]);
      queues[f] := b;
      s := SetQueue(s, f, a, [Delivered(f, reader, val)]);
    }

    // ---- queues.c: system calls ----

    /** Puts the active process on the waiting list `pl` and gives up the processor. */
    method BlockOn(pl: Place, fr: Frame, ghost st: Status)
      requires Rep({}, Nowhere) && Structure(s) && ActiveRuns(s) && s.active != 0
      requires (pl.Receivers? && st == WaitEmpty(pl.fid)) || (pl.Senders? && st == WaitFull(pl.fid))
      requires pl.fid < NBQUEUE
      modifies this`active, this`runnableHead, this`asleepHead, this`s, procs, queues
      ensures s == Tick(Block(old(s), fr, st)) && Rep({}, Nowhere)
    {
      hide Linked, Tidy, Tick, Attach;
      Sizes(Snap(), s, {}, Nowhere);
      var ps := active;
      ReadProc(Snap(), s, {}, Nowhere, ps);
      BlockSteps(s, fr, st);
      BlockStructure(s, fr, st);
      RemoveRunnable(ps, {});
      TidyGrow(s, ps);
      var b := procs[ps].(tag := if pl.Receivers? then PsWaitQueueEmpty else PsWaitQueueFull,
                          attr := WaitAttr(Null, pl.fid), frame := fr);
      ghost var q := s.procs[ps].(frame := fr, since := |s.log|, status := st);
      RewriteLoose(Snap(), s, ps, b, q, {}, Nowhere, {ps}) by { TidyPlaced(s, {ps}); }
      assert {} - {ps} == {};
      SetProcTidy(s, ps, q, {ps});
      SetPcb(ps, b);
      s := SetProc(s, ps, q);
      PushWaiting(pl, ps);
      TickScheduler();
    }

    method PSend(fid: int, message: int) returns (r: Ret)
      requires Valid() && Enabled(s, DoPSend(fid, message))
      modifies this`active, this`runnableHead, this`asleepHead, this`s, procs, queues
      ensures Valid() && s == Next(old(s), DoPSend(fid, message))
      ensures r == if !ValidFid(old(s), fid) then Returned(-1)
                   else if Blocks(old(s), DoPSend(fid, message)) then Suspended else Returned(0)
    {
      hide Linked, Inv, Tick, Fix, Block, HandOff;
      NextKeeps(s, DoPSend(fid, message));
      InvFacts(s);
      Sizes(Snap(), s, {}, Nowhere);
      if fid < 0 || fid >= NBQUEUE { return Returned(-1); }
      ReadRing(Snap(), s, fid);
      if queues[fid].capacity == 0 { return Returned(-1); }
      var q := queues[fid];
      ReadHead(Snap(), s, {}, Nowhere, Receivers(fid));
      if q.size == q.capacity {
        BlockOn(Senders(fid), InSend(fid, 0, message), WaitFull(fid));
        return Suspended;
      } else if q.size == 0 && q.emptyHead.To? {
        Deliver(fid, message);
        return Returned(0);
      } else {
        PushMessage(fid, message, [Accepted(fid, active, message)]);
        return Returned(0);
      }
    }

    method Deliver(f: nat, message: int)
      requires Rep({}, Nowhere) && Structure(s) && f < NBQUEUE && On(s, Receivers(f)) != []
      modifies this`active, this`runnableHead, this`asleepHead, this`s, procs, queues
      ensures s == Fix(HandOff(old(s), f, message)) && Rep({}, Nowhere)
    {
      hide Linked, Tidy, Fix, Move;
      ReadHead(Snap(), s, {}, Nowhere, Receivers(f));
      ReadMember(Snap(), s, {}, Nowhere, Receivers(f), 0, {});
      var p := queues[f].emptyHead.pid;
      ghost var events := [Accepted(f, s.active, message), Delivered(f, p, message)];
      ReadRing(Snap(), s, f);
      ReplaceQueue(Snap(), s, f, queues[f], s.queues[f], events);
      assert queues[..][f := queues[f]] == queues[..];
      SameStructure(s, SetQueue(s, f, s.queues[f], events));
      s := SetQueue(s, f, s.queues[f], events);
      ghost var q := s.procs[p].(frame := Fill(s.procs[p].frame, message));
      var b := procs[p].(frame := Fill(procs[p].frame, message));
      RewriteFields(Snap(), s, p, b, q, {}, Nowhere);
      SetProcStructure(s, p, q);
      SetPcb(p, b);
      s := SetProc(s, p, q);
      WakeupFirst(Receivers(f));
    }
  
    method PReceive(fid: int, toNull: bool) returns (r: Ret, message: Cell)
      requires Valid() && Enabled(s, DoPReceive(fid, toNull))
      modifies this`active, this`runnableHead, this`asleepHead, this`s, procs, queues
      ensures Valid() && s == Next(old(s), DoPReceive(fid, toNull))
      ensures r == if !ValidFid(old(s), fid) then Returned(-1)
                   else if Blocks(old(s), DoPReceive(fid, toNull)) then Suspended else Returned(0)
      ensures message == if r == Returned(0) && !toNull then Written(old(s).queues[fid].buf[0])
                         else if toNull then NullCell else Unwritten
    {
      hide Linked, Inv, Tick, Fix, Block, Admit;
      NextKeeps(s, DoPReceive(fid, toNull));
      InvFacts(s);
      Sizes(Snap(), s, {}, Nowhere);
      message := if toNull then NullCell else Unwritten;
      if fid < 0 || fid >= NBQUEUE { return Returned(-1), message; }
      ReadRing(Snap(), s, fid);
      if queues[fid].capacity == 0 { return Returned(-1), message; }
      if queues[fid].size == 0 {
        BlockOn(Receivers(fid), InReceive(fid, 0, message), WaitEmpty(fid));
        return Suspended, message;
      }
      SenderFrame(s, fid);
      var val := ReceiveNow(fid);
      if !toNull { message := Written(val); }
      return Returned(0), message;
    }

    /** Takes the oldest message and lets the first waiting sender refill the queue. */
    method ReceiveNow(f: nat) returns (val: int)
      requires Rep({}, Nowhere) && Structure(s) && f < NBQUEUE && s.queues[f].buf != [] && |s.queues[f].buf| <= s.queues[f].capacity
      requires On(s, Senders(f)) != [] ==> s.procs[On(s, Senders(f))[0]].frame.InSend?
      modifies this`active, this`runnableHead, this`asleepHead, this`s, procs, queues
      ensures var t := Fetch(old(s), f);
        s == (if |t.queues[f].buf| == t.queues[f].capacity - 1 && On(t, Senders(f)) != [] then Fix(Admit(t, f)) else t) && Rep({}, Nowhere)
      ensures val == old(s).queues[f].buf[0]
    {
      hide Linked, Fix, Admit;
      Sizes(Snap(), s, {}, Nowhere);
      SameStructure(s, Fetch(s, f));
      ReadRing(Snap(), s, f);
      val := PopMessage(f, active);
      ReadRing(Snap(), s, f);
      ReadHead(Snap(), s, {}, Nowhere, Senders(f));
      if queues[f].size == queues[f].capacity - 1 && queues[f].fullHead.To? {
        AdmitFirst(f);
      }
    }

    method AdmitFirst(f: nat)
      requires Rep({}, Nowhere) && Structure(s) && f < NBQUEUE && On(s, Senders(f)) != []
      requires |s.queues[f].buf| < s.queues[f].capacity
      requires s.procs[On(s, Senders(f))[0]].frame.InSend?
      modifies this`active, this`runnableHead, this`asleepHead, this`s, procs, queues
      ensures s == Fix(Admit(old(s), f)) && Rep({}, Nowhere)
    {
      hide Linked, Tidy, Fix, Move;
      ReadHead(Snap(), s, {}, Nowhere, Senders(f));
      ReadMember(Snap(), s, {}, Nowhere, Senders(f), 0, {});
      var p := queues[f].fullHead.pid;
      var v := procs[p].frame.message;
      ghost var q := s.queues[f];
      SameStructure(s, SetQueue(s, f, q.(buf := q.buf + [v]), [Accepted(f, p, v)]));
      PushMessage(f, v, [Accepted(f, p, v)]);
      WakeupFirst(Senders(f));
    }

    /** Replaces queue `f` by `b`, which is `q`, and fails all calls waiting on it. */
    method FlushQueue(f: nat, b: QCB, ghost q: Queue)
      requires Rep({}, Nowhere) && Structure(s) && f < NBQUEUE && RingOk(b, q)
      requires b.emptyHead == queues[f].emptyHead && b.fullHead == queues[f].fullHead
      modifies this`active, this`runnableHead, this`asleepHead, this`s, procs, queues
      ensures s == Fix(Flush(old(s), f, q)) && Rep({}, Nowhere)
    {
      hide Linked, Tidy, Fix, WakeAll;
      ghost var t := SetQueue(s, f, q, [Cleared(f)]);
      ReplaceQueue(Snap(), s, f, b, q, [Cleared(f)]);
      SameStructure(s, t);
      queues[f] := b;
      s := t;
      WakeupAll(Receivers(f));
      WakeupAll(Senders(f));
      FixScheduler();
    }

    method PDelete(fid: int) returns (r: int)
      requires Valid() && Enabled(s, DoPDelete(fid))
      modifies this`active, this`runnableHead, this`asleepHead, this`s, procs, queues
      ensures Valid() && s == Next(old(s), DoPDelete(fid)) && r == if Occupied(old(s), fid) then 0 else -1
    {
      hide Linked, Inv, Fix, Flush;
      NextKeeps(s, DoPDelete(fid));
      InvFacts(s);
      if fid < 0 || fid >= NBQUEUE { return -1; }
      ReadRing(Snap(), s, fid);
      if queues[fid].capacity == 0 { return -1; }
      FlushQueue(fid, queues[fid].(capacity := 0), Queue(0, []));
      return 0;
    }

    method PReset(fid: int) returns (r: int)
      requires Valid() && Enabled(s, DoPReset(fid))
      modifies this`active, this`runnableHead, this`asleepHead, this`s, procs, queues
      ensures Valid() && s == Next(old(s), DoPReset(fid)) && r == if Occupied(old(s), fid) then 0 else -1
    {
      hide Linked, Inv, Fix, Flush;
      NextKeeps(s, DoPReset(fid));
      InvFacts(s);
      if fid < 0 || fid >= NBQUEUE { return -1; }
      ReadRing(Snap(), s, fid);
      if queues[fid].capacity == 0 { return -1; }
      FlushQueue(fid, queues[fid].(front := 0, rear := queues[fid].capacity - 1, size := 0), s.queues[fid].(buf := []));
      return 0;
    }

    /** Makes a queue of slot `f`, or half of one. */
    method MakeQueue(f: nat, count: nat, memory: bool)
      requires Rep({}, Nowhere) && f < NBQUEUE && count > 0
      modifies this`s, queues
      ensures Rep({}, Nowhere) && s == SetQueue(old(s), f, if memory then Queue(count, []) else Queue(0, [], count), [])
    {
      hide Linked;
      Sizes(Snap(), s, {}, Nowhere);
      var b := queues[f].(capacity := count, messages := if memory then seq(count, _ => 0) else []);
      if memory { b := b.(rear := count - 1, front := 0, size := 0); }
      ghost var q := if memory then Queue(count, []) else Queue(0, [], count);
      ReplaceQueue(Snap(), s, f, b, q, []);
      queues[f] := b;
      s := SetQueue(s, f, q, []);
    }

    /** `memory` says whether the buffer can be allocated. */
    method PCreate(count: int, memory: bool) returns (r: int)
      requires Valid() && Enabled(s, DoPCreate(count, memory))
      modifies this`s, queues
      ensures Valid() && s == Next(old(s), DoPCreate(count, memory))
      ensures r == if count <= 0 || count > MAXCAPACITY then -3
                   else if FreeQueue(old(s), 0) == NBQUEUE then -1 else if !memory then -2 else FreeQueue(old(s), 0)
    {
      hide Linked, Inv;
      NextKeeps(s, DoPCreate(count, memory));
      InvFacts(s);
      if count <= 0 || count > MAXCAPACITY { return -3; }
      var fid := 0;
      while fid < NBQUEUE
        invariant 0 <= fid <= NBQUEUE && Valid() && s == old(s) && FreeQueue(s, 0) == FreeQueue(s, fid)
      {
        ReadRing(Snap(), s, fid);
        if queues[fid].capacity == 0 {
          MakeQueue(fid, count, memory);
          return if memory then fid else -2;
        }
        fid := fid + 1;
      }
      return -1;
    }

    /** The length of a waiting list, counted by walking it. */
    method CountProcesses(pl: Place) returns (count: nat)
      requires Rep({}, Nowhere) && (pl.Receivers? || pl.Senders?) && pl.fid < NBQUEUE
      ensures count == |On(s, pl)|
    {
      hide Linked;
      ghost var h, l := Snap(), On(s, pl);
      ReadHead(h, s, {}, Nowhere, pl);
      count := 0;
      var cur := WaitHead(pl);
      while cur != Null
        invariant count <= |l| && cur == PtrAt(l, count)
        decreases |l| - count
      {
        ReadNode(h, s, {}, Nowhere, pl, count);
        cur := procs[cur.pid].attr.waitNext;
        count := count + 1;
      }
    }

    method CountMessages(fid: int) returns (r: int, count: int)
      requires Valid()
      ensures r == if Occupied(s, fid) then 0 else -1
      ensures ValidFid(s, fid) ==> count == PCount(s, fid)
    {
      hide Linked, Inv;
      InvFacts(s);
      count := 0;
      if fid < 0 || fid >= NBQUEUE { return -1, 0; }
      ReadRing(Snap(), s, fid);
      if queues[fid].capacity == 0 { return -1, 0; }
      if queues[fid].size == 0 {
        var n: int := CountProcesses(Receivers(fid));
        return 0, -n;
      } else {
        var n := CountProcesses(Senders(fid));
        return 0, queues[fid].size + n;
      }
    }
  
    // ---- scheduler.c: system calls ----

    method Chprio(pid: int, newprio: int) returns (r: int)
      requires Valid() && Enabled(s, DoChprio(pid, newprio))
      modifies this`active, this`runnableHead, this`asleepHead, this`s, procs, queues
      ensures Valid() && s == Next(old(s), DoChprio(pid, newprio))
      ensures r == if !AlivePid(old(s), pid) then NOPID
                   else if newprio <= 0 || newprio > MAXPRIO then -2 else old(s).procs[pid].prio
    {
      hide Linked, Inv, Fix, Reprioritise;
      NextKeeps(s, DoChprio(pid, newprio));
      InvFacts(s);
      if pid < 0 || pid >= NBPROC { return NOPID; }
      ReadProc(Snap(), s, {}, Nowhere, pid);
      if procs[pid].tag.PsDead? || procs[pid].tag.PsZombie? { return NOPID; }
      if newprio <= 0 || newprio > MAXPRIO { return -2; }
      if procs[pid].prio == newprio { return newprio; }
      var oldprio := procs[pid].prio;
      ReprioritiseStructure(s, pid, newprio);
      WaiterFid(s, pid);
      Reorder(pid, newprio);
      FixScheduler();
      return oldprio;
    }

    /** Changes a priority and moves the process to its new place on the list it is on. */
    method Reorder(p: nat, newprio: int)
      requires Rep({}, Nowhere) && Structure(s) && p < NBPROC
      requires s.procs[p].status.WaitEmpty? || s.procs[p].status.WaitFull? ==> s.procs[p].status.fid < NBQUEUE
      modifies this`runnableHead, this`s, procs, queues
      ensures s == Reprioritise(old(s), p, newprio) && Rep({}, Nowhere)
    {
      hide Linked, Tidy, Attach, Detach;
      ghost var h, s0 := Snap(), s;
      ghost var q := s.procs[p].(prio := newprio);
      ReadProc(h, s, {}, Nowhere, p);
      var b := procs[p].(prio := newprio);
      RewriteFields(h, s, p, b, q, {}, Nowhere);
      RewriteFields(h, s, p, b, s.procs[p], {}, Nowhere);
      SameProc(s, p);
      assert {} + {p} == {p} && {p} + {p} == {p} && {p} - {p} == {} && {} - {p} == {};
      SetPcb(p, b);
      match procs[p].tag {
        case PsRunnable =>
          RemoveRunnable(p, {p});
          RelistPrio(s0, p, q);
          RewriteLoose(Snap(), s, p, b, q, {p}, Nowhere, {p}) by { TidyPlaced(s, {p}); }
          assert procs[..][p := b] == procs[..];
          s := SetProc(s, p, q);
          PushRunnable(p, {p}, Nowhere);
          assert s == Reprioritise(s0, p, newprio) by { SameProc(SetProc(Detach(s0, p), p, q), p); }
        case PsWaitQueueEmpty =>
          Requeue(Receivers(procs[p].attr.fid), p, q);
        case PsWaitQueueFull =>
          Requeue(Senders(procs[p].attr.fid), p, q);
        case _ =>
          s := SetProc(s, p, q);
      }
    }

    /** queue_reorder_empty_process and queue_reorder_full_process. */
    method Requeue(pl: Place, p: nat, ghost q: Proc)
      requires Rep({p}, Nowhere) && Structure(s) && p < NBPROC && (pl.Receivers? || pl.Senders?) && pl.fid < NBQUEUE
      requires s.procs[p].status.Place() == pl && q == s.procs[p].(prio := q.prio)
      requires FieldsOk(procs[p], q) && TagOk(procs[p], q.status)
      modifies this`s, procs, queues
      ensures s == Attach(SetProc(Detach(old(s), p), p, q), p) && Rep({}, Nowhere)
    {
      hide Linked, Tidy, Attach, Detach;
      ghost var s0 := s;
      assert {p} + {p} == {p} && {p} - {p} == {};
      PopWaiting(pl, p, {p});
      RelistPrio(s0, p, q);
      RewriteLoose(Snap(), s, p, procs[p], q, {p}, Nowhere, {p}) by { TidyPlaced(s, {p}); }
      assert procs[..][p := procs[p]] == procs[..];
      s := SetProc(s, p, q);
      PushWaiting(pl, p);
    }
  
    /** Takes the first slot off the free stack. */
    method TakeSlot() returns (p: nat)
      requires Rep({}, Nowhere) && Structure(s) && On(s, Free) != []
      modifies this`deadHead, this`s
      ensures p == On(old(s), Free)[0] && p < NBPROC && s == Detach(old(s), p) && Rep({p}, Nowhere)
      ensures procs[p].tag.PsDead? && s.procs[p].status.Dead? && active == s.active
    {
      hide Linked, Tidy, Attach, Detach;
      ghost var h := Snap();
      Sizes(h, s, {}, Nowhere);
      ReadHead(h, s, {}, Nowhere, Free);
      ReadMember(h, s, {}, Nowhere, Free, 0, {});
      p := deadHead.pid;
      OpenHead(h, s, Free, {}, {}) by { TidyPlaced(s, {}); }
      assert {} + {p} == {p} && {p} + {p} == {p};
      s := Detach(s, p);
      CloseHead(h, s, Free, {p});
      deadHead := procs[p].attr.nextDead;
    }

    /** A slot taken off the free stack is left dead and on no list. */
    method LoseSlot(p: nat, b: PCB, ghost q: Proc)
      requires Rep({p}, Nowhere) && Tidy(s, {p}) && p < NBPROC && q.stamp < s.now && q.status == Lost && FieldsOk(b, q) && b.tag.PsDead?
      modifies this`s, procs
      ensures s == Attach(SetProc(old(s), p, q), p) && Rep({}, Nowhere)
    {
      hide Linked, Tidy, Attach;
      assert {p} - {p} == {};
      RewriteLoose(Snap(), s, p, b, q, {p}, Nowhere, {p}) by { TidyPlaced(s, {p}); }
      SetPcb(p, b);
      s := SetProc(s, p, q);
      StampOnly(Snap(), s, p, {});
      s := Attach(s, p);
    }

    method StartInBackground(user: Mode, ssize: nat, prio: int) returns (r: int)
      requires Rep({}, Nowhere) && Structure(s)
      modifies this`runnableHead, this`deadHead, this`s, procs
      ensures s == StartBackground(old(s), user, ssize, prio) && Rep({}, Nowhere)
      ensures r == if !StackFits(user, ssize) then -2
                   else if On(old(s), Free) == [] || user == User(false) then NOPID else On(old(s), Free)[0]
    {
      hide Linked, Tidy, Attach, Detach;
      ghost var h, s0 := Snap(), s;
      Sizes(h, s, {}, Nowhere);
      ReadHead(h, s, {}, Nowhere, Free);
      if (user.User? && ssize > MAXSTACK) || (!user.User? && ssize / 4 > NBSTACK) { return -2; }
      if deadHead.Null? { return NOPID; }
      var p := TakeSlot();
      assert {p} - {p} == {} && {p} + {p} == {p};
      ghost var q := s.procs[p].(parent := active, prio := prio, frame := NoCall);
      var b := procs[p].(parent := active, prio := prio, frame := NoCall);
      RelistPrio(s0, p, q);
      if user == User(false) {
        LoseSlot(p, b, q.(status := Lost));
        return NOPID;
      }
      RewriteLoose(Snap(), s, p, b, q, {p}, Nowhere, {p}) by { TidyPlaced(s, {p}); }
      SetPcb(p, b);
      s := SetProc(s, p, q);
      PushRunnable(p, {p}, Nowhere);
      SetTwice(Detach(s0, p), p, q, q.(status := Runnable));
      return p;
    }

    method StartBackgroundCall(user: Mode, ssize: nat, prio: int) returns (r: int)
      requires Valid() && Enabled(s, DoStartBackground(user, ssize, prio))
      modifies this`runnableHead, this`deadHead, this`s, procs
      ensures Valid() && s == Next(old(s), DoStartBackground(user, ssize, prio))
      ensures r == if !StackFits(user, ssize) then -2
                   else if On(old(s), Free) == [] || user == User(false) then NOPID else On(old(s), Free)[0]
    {
      hide Linked, Inv, StartBackground;
      NextKeeps(s, DoStartBackground(user, ssize, prio));
      InvFacts(s);
      r := StartInBackground(user, ssize, prio);
    }

    method Start(user: Mode, ssize: nat, prio: int) returns (r: int)
      requires Valid() && Enabled(s, DoStart(user, ssize, prio))
      modifies this`active, this`runnableHead, this`asleepHead, this`deadHead, this`s, procs
      ensures Valid() && s == Next(old(s), DoStart(user, ssize, prio))
      ensures r == if !StackFits(user, ssize) then -2
                   else if On(old(s), Free) == [] || user == User(false) then NOPID else On(old(s), Free)[0]
    {
      hide Linked, Inv, StartBackground, Fix;
      NextKeeps(s, DoStart(user, ssize, prio));
      InvFacts(s);
      StartKeeps(s, user, ssize, prio);
      InvFacts(StartBackground(s, user, ssize, prio));
      r := StartInBackground(user, ssize, prio);
      FixScheduler();
    }

    method WaitClock(until: nat)
      requires Valid() && Enabled(s, DoWaitClock(until))
      modifies this`active, this`runnableHead, this`asleepHead, this`s, procs
      ensures Valid() && s == Next(old(s), DoWaitClock(until))
    {
      hide Linked, Inv, Tick, Tidy, Attach;
      NextKeeps(s, DoWaitClock(until));
      InvFacts(s);
      Sizes(Snap(), s, {}, Nowhere);
      var ps := active;
      ReadProc(Snap(), s, {}, Nowhere, ps);
      MoveStructure(s, ps, Asleep(until));
      DetachNothing(s, ps);
      RemoveRunnable(ps, {});
      MarkAsleep(ps, until);
      PushAsleep(ps);
      TickScheduler();
    }

    /** Sets the state and the wake time of the running process. */
    method MarkAsleep(p: nat, until: nat)
      requires Rep({}, Nowhere) && p < NBPROC && Tidy(s, {}) && s.procs[p].status.Running?
      modifies this`s, procs
      ensures s == SetProc(old(s), p, old(s).procs[p].(status := Asleep(until))) && Rep({}, Nowhere) && Tidy(s, {p})
    {
      hide Linked, Tidy, Attach;
      Sizes(Snap(), s, {}, Nowhere);
      ReadProc(Snap(), s, {}, Nowhere, p);
      TidyGrow(s, p);
      var b := procs[p].(tag := PsAsleep, attr := AsleepAttr(until, Null));
      ghost var q := s.procs[p].(status := Asleep(until));
      RewriteLoose(Snap(), s, p, b, q, {}, Nowhere, {p}) by { TidyPlaced(s, {p}); }
      assert {} - {p} == {};
      SetProcTidy(s, p, q, {p});
      SetPcb(p, b);
      s := SetProc(s, p, q);
    }

    method ClockInterrupt()
      requires Valid()
      modifies this`active, this`runnableHead, this`asleepHead, this`clock, this`s, procs
      ensures Valid() && s == Next(old(s), DoClock)
    {
      hide Linked, Inv, Tick, Next, Structure, Shape;
      NextKeeps(s, DoClock);
      InvFacts(s);
      Sizes(Snap(), s, {}, Nowhere);
      ghost var t := s.(clock := (s.clock + 1) % CLOCKWRAP);
      ClockLinked(Snap(), s, t.clock);
      ClockStep(s, t);
      clock := (clock + 1) % CLOCKWRAP;
      s := t;
      if clock % CLOCKS_PER_TICK == 0 {
        TickScheduler();
      }
    }

    /** Reaps the zombie `c`. */
    method Reap(c: nat)
      requires Rep({}, Nowhere) && Structure(s) && c < NBPROC && s.procs[c].status.Zombie?
      modifies this`deadHead, this`s, procs
      ensures s == Move(old(s), c, Dead) && Rep({}, Nowhere)
    {
      hide Linked, Tidy, Attach;
      ReadProc(Snap(), s, {}, Nowhere, c);
      TidyGrow(s, c);
      DetachNothing(s, c);
      assert {} - {c} == {};
      PushDead(c, {});
    }
  
    /** The children of `p` lose their parent, and its zombie children are reaped. */
    method UnbindChildren(p: nat)
      requires Rep({}, Nowhere) && Structure(s) && p < NBPROC
      modifies this`deadHead, this`s, procs
      ensures s == Unbind(old(s), p, 0) && Rep({}, Nowhere)
    {
      hide Linked, Tidy, Move;
      var i := 0;
      while i < NBPROC
        invariant 0 <= i <= NBPROC && Rep({}, Nowhere) && Structure(s) && Unbind(s, p, i) == Unbind(old(s), p, 0)
      {
        ReadProc(Snap(), s, {}, Nowhere, i);
        if procs[i].parent == p {
          if procs[i].tag.PsZombie? {
            MoveStructure(s, i, Dead);
            Reap(i);
          } else {
            var b := procs[i].(parent := NOPID);
            ghost var q := s.procs[i].(parent := NOPID);
            RewriteFields(Snap(), s, i, b, q, {}, Nowhere);
            SetProcStructure(s, i, q);
            SetPcb(i, b);
            s := SetProc(s, i, q);
          }
        }
        i := i + 1;
      }
    }

    /** Takes `p` off whatever list it is on. */
    method RemoveFromList(p: nat)
      requires Rep({}, Nowhere) && Tidy(s, {}) && p < NBPROC && s.procs[p].status.Alive()
      requires s.procs[p].status.WaitEmpty? || s.procs[p].status.WaitFull? ==> s.procs[p].status.fid < NBQUEUE
      modifies this`runnableHead, this`asleepHead, this`s, procs, queues
      ensures s == Detach(old(s), p) && Rep({p}, Nowhere) && procs[p] == old(procs[p])
    {
      hide Linked, Tidy, Detach;
      ReadProc(Snap(), s, {}, Nowhere, p);
      assert {} + {p} == {p};
      match procs[p].tag {
        case PsAsleep => RemoveAsleep(p);
        case PsWaitQueueEmpty => PopWaiting(Receivers(procs[p].attr.fid), p, {});
        case PsWaitQueueFull => PopWaiting(Senders(procs[p].attr.fid), p, {});
        case PsRunnable => RemoveRunnable(p, {});
        case _ =>
          DetachNothing(s, p);
          LoosenLinked(Snap(), s, p);
      }
    }

    /** Leaves the ended process `p` to its parent, or frees it if it has none. */
    method BuryProcess(p: nat, retval: int)
      requires Rep({}, Nowhere) && Structure(s) && 0 < p < NBPROC && s.procs[p].status.Alive()
      requires s.procs[p].status.WaitEmpty? || s.procs[p].status.WaitFull? ==> s.procs[p].status.fid < NBQUEUE
      requires var w := s.procs[p].parent; w != NOPID ==>
        0 <= w < NBPROC && w != p && (s.procs[w].status.WaitChild? ==> s.procs[w].frame.InWaitpid?)
      modifies this`runnableHead, this`asleepHead, this`deadHead, this`s, procs, queues
      ensures s == Bury(old(s), p, retval) && Rep({}, Nowhere)
    {
      hide Linked, Tidy, Attach, Detach;
      ghost var s0 := s;
      ReadProc(Snap(), s, {}, Nowhere, p);
      DetachTidy(s, p, {});
      assert {} + {p} == {p} && {p} - {p} == {};
      RemoveFromList(p);
      if procs[p].parent == NOPID {
        PushDead(p, {p});
      } else {
        var w := procs[p].parent;
        var b := procs[p].(tag := PsZombie, attr := RetvalAttr(retval));
        ghost var q := s.procs[p].(status := Zombie(retval));
        RewriteLoose(Snap(), s, p, b, q, {p}, Nowhere, {p}) by { TidyPlaced(s, {p}); }
        SetPcb(p, b);
        s := SetProc(s, p, q);
        StampOnly(Snap(), s, p, {});
        s := Attach(s, p);
        MoveStructure(s0, p, Zombie(retval));
        WakeParent(p, w);
      }
    }

    method WakeParent(p: nat, w: nat)
      requires Rep({}, Nowhere) && Structure(s) && p < NBPROC && w < NBPROC
      requires s.procs[w].status.WaitChild? ==> s.procs[w].frame.InWaitpid?
      modifies this`runnableHead, this`s, procs
      ensures Rep({}, Nowhere)
      ensures var t := old(s);
        s == if t.procs[w].status.WaitChild? && (t.procs[w].frame.child == NOPID || t.procs[w].frame.child == p)
        then Move(SetProc(t, w, t.procs[w].(frame := InWaitpid(p))), w, Runnable) else t
    {
      hide Linked, Tidy, Attach;
      ReadProc(Snap(), s, {}, Nowhere, w);
      if procs[w].tag.PsWaitChild? && (procs[w].frame.child == NOPID || procs[w].frame.child == p) {
        var b := procs[w].(frame := InWaitpid(p));
        ghost var q := s.procs[w].(frame := InWaitpid(p));
        RewriteFields(Snap(), s, w, b, q, {}, Nowhere);
        SetProcStructure(s, w, q);
        SetPcb(w, b);
        s := SetProc(s, w, q);
        TidyGrow(s, w);
        DetachNothing(s, w);
        assert {} - {w} == {};
        PushRunnable(w, {}, Nowhere);
      }
    }

    method Stop(pid: int, retval: int) returns (r: int)
      requires Valid() && pid != 0
      modifies this`active, this`runnableHead, this`asleepHead, this`deadHead, this`s, procs, queues
      ensures Valid() && s == Finish(KernelSpec.Stop(old(s), pid, retval))
      ensures r == if AlivePid(old(s), pid) then retval else NOPID
    {
      hide Linked, Inv, Fix, Unbind, Bury;
      StopKeeps(s, pid, retval);
      FinishKeeps(KernelSpec.Stop(s, pid, retval));
      InvFacts(s);
      if pid < 0 || pid >= NBPROC { return NOPID; }
      ReadProc(Snap(), s, {}, Nowhere, pid);
      if procs[pid].tag.PsDead? || procs[pid].tag.PsZombie? { return NOPID; }
      WaiterFid(s, pid);
      UnbindStructure(s, pid, 0);
      ParentAfterUnbind(s, pid);
      BuryStructure(Unbind(s, pid, 0), pid, retval);
      UnbindChildren(pid);
      BuryProcess(pid, retval);
      FixScheduler();
      return retval;
    }

    method Kill(pid: int) returns (r: int)
      requires Valid() && Enabled(s, DoKill(pid))
      modifies this`active, this`runnableHead, this`asleepHead, this`deadHead, this`s, procs, queues
      ensures Valid() && s == Next(old(s), DoKill(pid))
      ensures r == if pid > 0 && AlivePid(old(s), pid) then 0 else NOPID
    {
      hide Linked, Inv, KernelSpec.Stop, Fix, Tick;
      InvFacts(s);
      if pid <= 0 { return NOPID; }
      r := Stop(pid, 0);
    }

    method Exit(retval: int)
      requires Valid() && Enabled(s, DoExit(retval))
      modifies this`active, this`runnableHead, this`asleepHead, this`deadHead, this`s, procs, queues
      ensures Valid() && s == Next(old(s), DoExit(retval))
    {
      hide Linked, Inv, KernelSpec.Stop, Fix, Tick;
      InvFacts(s);
      Sizes(Snap(), s, {}, Nowhere);
      var r := Stop(active, retval);
    }

    /** The search of waitpid: what there is to reap, or to wait for. */
    method FindChild(pid: int) returns (r: Found)
      requires Valid()
      ensures r == Look(s, pid)
    {
      if pid < 0 {
        r := FindAny(pid);
        return;
      }
      hide Linked, Inv, TagOk, FieldsOk, Structure;
      InvFacts(s);
      Sizes(Snap(), s, {}, Nowhere);
      if pid >= NBPROC { return NoSuchPid; }
      ReadKin(Snap(), s, pid);
      if procs[pid].tag.PsDead? { return NoSuchPid; }
      if procs[pid].parent != active { return NotMyChild; }
      if procs[pid].tag.PsZombie? { return Reapable(pid); }
      return MustWait;
    }

    /** The search for any child. */
    method FindAny(ghost pid: int) returns (r: Found)
      requires Valid() && pid < 0
      ensures r == Look(s, pid)
    {
      hide Linked, Inv, TagOk, FieldsOk, Structure;
      ghost var h := Snap();
      Sizes(h, s, {}, Nowhere);
      var hasChild, i := false, 0;
      SearchStart(s);
      hide Searched, Look, ZombieChild, IsChild, Snap, Rep, Valid, Shape;
      while i < NBPROC
        invariant 0 <= i <= NBPROC && Searched(s, i, hasChild)
      {
        ReadKin(h, s, i);
        SearchOn(s, i, hasChild, pid);
        if procs[i].parent == active && !procs[i].tag.PsDead? {
          hasChild := true;
          if procs[i].tag.PsZombie? { return Reapable(i); }
        }
        i := i + 1;
      }
      SearchEnd(s, hasChild, pid);
      return if hasChild then MustWait else NotMyChild;
    }

    method Waitpid(pid: int) returns (r: Ret, retval: int)
      requires Valid() && Enabled(s, DoWaitpid(pid))
      modifies this`active, this`runnableHead, this`asleepHead, this`deadHead, this`s, procs
      ensures Valid() && s == Next(old(s), DoWaitpid(pid))
      ensures match Look(old(s), pid)
        case NoSuchPid => r == Returned(NOPID)
        case NotMyChild => r == Returned(-2)
        case Reapable(c) => r == Returned(c) && retval == old(s).procs[c].status.retval
        case MustWait => r == Suspended
    {
      hide Linked, Inv, Look, Tick, Move;
      NextKeeps(s, DoWaitpid(pid));
      InvFacts(s);
      retval := 0;
      var found := FindChild(pid);
      match found {
        case NoSuchPid => return Returned(NOPID), retval;
        case NotMyChild => return Returned(-2), retval;
        case Reapable(c) =>
          ReadProc(Snap(), s, {}, Nowhere, c);
          retval := procs[c].attr.retval;
          Reap(c);
          return Returned(c), retval;
        case MustWait =>
          WaitForChild(pid);
          return Suspended, retval;
      }
    }

    method WaitForChild(pid: int)
      requires Rep({}, Nowhere) && Structure(s) && ActiveRuns(s) && s.active != 0
      modifies this`active, this`runnableHead, this`asleepHead, this`s, procs
      ensures Rep({}, Nowhere)
      ensures var t := old(s);
        s == Tick(Move(SetProc(t, t.active, t.procs[t.active].(frame := InWaitpid(pid))), t.active, WaitChild))
    {
      hide Linked, Tidy, Tick, Attach;
      Sizes(Snap(), s, {}, Nowhere);
      var ps := active;
      ReadProc(Snap(), s, {}, Nowhere, ps);
      ghost var s0, f := s, s.procs[ps].(frame := InWaitpid(pid));
      SetProcStructure(s, ps, f);
      MoveStructure(SetProc(s, ps, f), ps, WaitChild);
      DetachNothing(SetProc(s, ps, f), ps);
      SetTwice(s, ps, f, f.(status := WaitChild));
      RemoveRunnable(ps, {});
      var b := procs[ps].(tag := PsWaitChild, attr := ChildAttr, frame := InWaitpid(pid));
      RewriteLoose(Snap(), s, ps, b, f.(status := WaitChild), {}, Nowhere, {}) by { TidyPlaced(s, {}); }
      assert {} - {ps} == {};
      SetPcb(ps, b);
      s := SetProc(s, ps, f.(status := WaitChild));
      StampOnly(Snap(), s, ps, {});
      s := Attach(s, ps);
      TickScheduler();
    }

    /** The second half of a call that blocked: read the slots the waker wrote, and return. */
    method Resume() returns (r: int, retval: int, message: Cell)
      requires Valid() && Enabled(s, DoResume)
      modifies this`deadHead, this`s, procs
      ensures Valid() && s == Next(old(s), DoResume)
      ensures var fr := old(s).procs[old(s).active].frame;
        match fr
        case InWaitpid(c) => r == c && ZombieOf(old(s), old(s).active, c) && retval == old(s).procs[c].status.retval
        case InReceive(_, v, cell) => r == v && message == cell
        case InSend(_, v, _) => r == v
        case NoCall => true
    {
      hide Linked, Inv, Move, Tidy, Finish;
      NextKeeps(s, DoResume);
      PlainResume(s);
      InvFacts(s);
      Sizes(Snap(), s, {}, Nowhere);
      var ps := active;
      ReadProc(Snap(), s, {}, Nowhere, ps);
      var fr := procs[ps].frame;
      if fr.InWaitpid? { ResumeFacts(s); }
      var b := procs[ps].(frame := NoCall);
      ghost var q := s.procs[ps].(frame := NoCall);
      RewriteFields(Snap(), s, ps, b, q, {}, Nowhere);
      SetProcStructure(s, ps, q);
      SetPcb(ps, b);
      s := SetProc(s, ps, q);
      r, retval, message := 0, 0, NullCell;
      match fr {
        case InWaitpid(c) =>
          ReadProc(Snap(), s, {}, Nowhere, c);
          r, retval := c, procs[c].attr.retval;
          Reap(c);
        case InReceive(_, v, cell) => r, message := v, cell;
        case InSend(_, v, _) => r := v;
        case NoCall =>
      }
    }

    /** setup_scheduler, on zeroed tables. */
    constructor ()
      ensures Valid() && s == Initial() && fresh(procs) && fresh(queues)
    {
      procs := new PCB[NBPROC](_ => PCB(0, 0, PsDead, NoAttr, NoCall));
      queues := new QCB[NBQUEUE](_ => QCB(0, 0, 0, 0, [], Null, Null));
      active, clock := 0, 0;
      runnableHead, asleepHead, deadHead := Null, Null, To(1);
      s := Initial();
      new;
      var i := 0;
      while i < NBPROC
        invariant 0 <= i <= NBPROC && fresh(procs) && fresh(queues)
        invariant active == 0 && clock == 0 && runnableHead == Null && asleepHead == Null && deadHead == To(1)
        invariant forall j | 0 <= j < i :: procs[j] == PCB(0, 0, PsDead, DeadAttr(To(j + 1)), NoCall)
        invariant forall j | i <= j < NBPROC :: procs[j] == PCB(0, 0, PsDead, NoAttr, NoCall)
        invariant forall f | 0 <= f < NBQUEUE :: queues[f] == QCB(0, 0, 0, 0, [], Null, Null)
        invariant s == Initial()
      {
        procs[i] := procs[i].(tag := PsDead, attr := DeadAttr(To(i + 1)));
        i := i + 1;
      }
      procs[NBPROC - 1] := procs[NBPROC - 1].(attr := DeadAttr(Null));
      procs[0] := procs[0].(prio := 0, parent := NOPID, tag := PsRunning);
      InitialHolds();
      InitialLinked(Snap());
    }
  }

  lemma LoosenLinked(h: Heap, s: State, p: nat)
    requires Linked(h, s, {}, Nowhere)
    ensures Linked(h, s, {p}, Nowhere)
  {
    hide TagOk, LinkIs, RingOk, LinkedAt;
  }

  lemma ParentAfterUnbind(s: State, p: nat)
    requires Inv(s) && p < NBPROC && s.procs[p].status.Alive()
    ensures var t := Unbind(s, p, 0); var w := t.procs[p].parent;
      && t.procs[p] == s.procs[p]
      && (w != NOPID ==> 0 <= w < NBPROC && w != p && (t.procs[w].status.WaitChild? ==> t.procs[w].frame.InWaitpid?))
  {
    hide Unbind, Structure, Mail;
    UnbindKin(s, p);
    var t := Unbind(s, p, 0);
    assert ParentOk(t, p);
    var w := t.procs[p].parent;
    if w != NOPID { assert WaitOk(t, w); }
  }

  lemma PlainResume(s: State)
    requires Shape(s)
    ensures Next(s, DoResume) == KernelSpec.Resume(s)
  {
  }

  lemma ResumeFacts(s: State)
    requires Inv(s) && s.procs[s.active].frame.InWaitpid?
    ensures ZombieOf(s, s.active, s.procs[s.active].frame.child)
    ensures s.procs[s.active].frame.child != s.active
  {
    hide Tidy, Mail;
    WokenChild(s);
  }

  lemma InitialLinked(h: Heap)
    requires Sized(h) && h.active == 0 && h.clock == 0 && h.runnable == Null && h.asleep == Null && h.dead == To(1)
    requires forall j | 0 <= j < NBPROC ::
      h.procs[j] == if j == 0 then PCB(NOPID, 0, PsRunning, DeadAttr(To(1)), NoCall)
                    else PCB(0, 0, PsDead, DeadAttr(if j + 1 < NBPROC then To(j + 1) else Null), NoCall)
    requires forall f | 0 <= f < NBQUEUE :: h.queues[f] == QCB(0, 0, 0, 0, [], Null, Null)
    ensures Linked(h, Initial(), {}, Nowhere)
  {
    var s := Initial();
    var free := seq(NBPROC - 1, i requires 0 <= i < NBPROC - 1 => i + 1);
    assert forall pl :: On(s, pl) == if pl == Free then free else [];
    forall i | 0 <= i < |free| ensures LinkedAt(h.procs, Free, free, i) {}
  }

  lemma WaiterFid(s: State, p: nat)
    requires Inv(s) && p < NBPROC
    ensures s.procs[p].status.WaitEmpty? || s.procs[p].status.WaitFull? ==> s.procs[p].status.fid < NBQUEUE
  {
    assert CallOk(s.procs[p], p, s.queues, s.log);
  }

  lemma SetTwice(s: State, p: nat, q: Proc, r: Proc)
    requires Shape(s) && p < NBPROC && q.stamp < s.now && r.stamp < s.now
    ensures SetProc(SetProc(s, p, q), p, r) == SetProc(s, p, r)
  {
    assert s.procs[p := q][p := r] == s.procs[p := r];
  }

  lemma ClockLinked(h: Heap, s: State, c: nat)
    requires Linked(h, s, {}, Nowhere)
    ensures Linked(h.(clock := c), s.(clock := c), {}, Nowhere)
  {
    hide TagOk, LinkIs, RingOk, LinkedAt;
    var g, t := h.(clock := c), s.(clock := c);
    assert forall pl :: On(t, pl) == On(s, pl);
    assert forall pl :: HeadOf(g, pl) == HeadOf(h, pl);
  }

  lemma RelistPrio(s: State, p: nat, q: Proc)
    requires Shape(s) && Tidy(s, {}) && p < NBPROC && q.stamp < s.now
    ensures var d := Detach(s, p); Tidy(d, {p}) && Tidy(SetProc(d, p, q), {p})
  {
    hide Tidy, Detach;
    DetachTidy(s, p, {});
    assert {} + {p} == {p};
    SetProcTidy(Detach(s, p), p, q, {p});
  }

  lemma InvFacts(s: State)
    requires Inv(s)
    ensures Shape(s) && Structure(s) && Tidy(s, {}) && ActiveRuns(s)
  {
  }

  lemma SenderFrame(s: State, f: nat)
    requires Inv(s) && f < NBQUEUE
    ensures On(s, Senders(f)) != [] ==> s.procs[On(s, Senders(f))[0]].frame.InSend?
  {
    hide Tidy, Kin;
    if On(s, Senders(f)) != [] {
      var h := On(s, Senders(f))[0];
      HeadPlace(s, Senders(f));
      assert CallOk(s.procs[h], h, s.queues, s.log);
    }
  }

  lemma LogTidy(s: State, e: Event)
    requires Shape(s) && Tidy(s, {})
    ensures Tidy(Logged(s, e), {})
  {
  }

  lemma AbortStep(s: State, pl: Place)
    requires Shape(s) && Structure(s) && (pl.Receivers? || pl.Senders?) && On(s, pl) != []
    ensures var t := AbortFirst(s, pl);
      Structure(t) && On(t, pl) == On(s, pl)[1..] && WakeAll(s, pl) == WakeAll(t, pl)
  {
    hide Tidy, AbortFirst;
    HeadPlace(s, pl);
    AbortLists(s, pl);
    AbortStructure(s, pl);
    assert IndexOf(On(s, pl), On(s, pl)[0]) == 0;
  }

  /** Blocking is one rewrite of the active process, which is on no list, and one insertion. */
  lemma BlockSteps(s: State, fr: Frame, st: Status)
    requires Shape(s) && ActiveRuns(s)
    ensures var a := s.active;
      Block(s, fr, st) == Attach(SetProc(s, a, s.procs[a].(frame := fr, since := |s.log|, status := st)), a)
  {
    hide Attach;
    var a := s.active;
    var q := s.procs[a].(frame := fr, since := |s.log|);
    DetachNothing(SetProc(s, a, q), a);
    assert s.procs[a := q][a := q.(status := st)] == s.procs[a := q.(status := st)];
  }

  lemma BlockStructure(s: State, fr: Frame, st: Status)
    requires Shape(s) && Structure(s) && s.active != 0 && !st.Running?
    ensures Structure(Block(s, fr, st))
  {
    hide Tidy, Move;
    var a := s.active;
    var q := s.procs[a].(frame := fr, since := |s.log|);
    SetProcStructure(s, a, q);
    MoveStructure(SetProc(s, a, q), a, st);
  }

  /** Popping the head of the run queue, before its state tag is written. */
  lemma TakeHead(h: Heap, s: State, a: nat)
    requires Shape(s) && Linked(h, s, {}, Nowhere) && Tidy(s, {}) && On(s, RunQueue) != [] && On(s, RunQueue)[0] == a
    ensures Linked(h.(active := a, runnable := PtrAt(On(s, RunQueue), 1)), SetActive(Move(s, a, Running), a), {a}, Nowhere)
  {
    hide Linked, Tidy, Attach, Detach;
    Sizes(h, s, {}, Nowhere);
    OpenHead(h, s, RunQueue, {}, {}) by { TidyPlaced(s, {}); }
    DetachTidy(s, a, {});
    assert {} + {a} == {a} && {a} + {a} == {a};
    var d := Detach(s, a);
    CloseHead(h, d, RunQueue, {a});
    var g := h.(runnable := PtrAt(On(s, RunQueue), 1));
    var q := d.procs[a].(status := Running);
    RewriteLoose(g, d, a, g.procs[a], q, {a}, Nowhere, {a}) by { TidyPlaced(d, {a}); }
    assert g.(procs := g.procs[a := g.procs[a]]) == g;
    StampOnly(g, SetProc(d, a, q), a, {a});
    ActivateLinked(g, Attach(SetProc(d, a, q), a), a, {a});
  }

  lemma ClockStep(s: State, t: State)
    requires Shape(s) && Structure(s) && t == s.(clock := (s.clock + 1) % CLOCKWRAP)
    ensures Shape(t) && Structure(t) && Next(s, DoClock) == if t.clock % CLOCKS_PER_TICK == 0 then Tick(t) else t
  {
    hide Tick;
    assert forall pl :: On(t, pl) == On(s, pl);
    SameStructure(s, t);
  }

  /** The search for a child has reached slot `i` without finding a zombie. */
  ghost predicate Searched(s: State, i: nat, hasChild: bool)
    requires Shape(s) && i <= NBPROC
  {
    && ZombieChild(s, s.active, 0) == ZombieChild(s, s.active, i)
    && (hasChild <==> exists c | 0 <= c < i :: IsChild(s, s.active, c))
  }

  lemma SearchStart(s: State)
    requires Shape(s)
    ensures Searched(s, 0, false)
  {
  }

  lemma SearchOn(s: State, i: nat, hasChild: bool, pid: int)
    requires Shape(s) && i < NBPROC && Searched(s, i, hasChild) && pid < 0
    ensures var q := s.procs[i];
      if q.parent == s.active && q.status.Zombie? then Look(s, pid) == Reapable(i)
      else Searched(s, i + 1, hasChild || (q.parent == s.active && !q.status.Dead? && !q.status.Lost?))
  {
    if hasChild {
      var c :| 0 <= c < i && IsChild(s, s.active, c);
    } else if IsChild(s, s.active, i) {
      assert exists c | 0 <= c < i + 1 :: IsChild(s, s.active, c);
    }
  }

  lemma SearchEnd(s: State, hasChild: bool, pid: int)
    requires Shape(s) && Searched(s, NBPROC, hasChild) && pid < 0
    ensures Look(s, pid) == if hasChild then MustWait else NotMyChild
  {
  }

  /** What the tag of a process says of its life and its parent. */
  lemma ReadKin(h: Heap, s: State, i: nat)
    requires Linked(h, s, {}, Nowhere) && i < NBPROC
    ensures Shape(s) && |h.procs| == NBPROC && h.procs[i].parent == s.procs[i].parent
    ensures (h.procs[i].tag.PsDead? <==> s.procs[i].status.Dead? || s.procs[i].status.Lost?) && (h.procs[i].tag.PsZombie? <==> s.procs[i].status.Zombie?)
  {
    hide Linked;
    Sizes(h, s, {}, Nowhere);
    ReadProc(h, s, {}, Nowhere, i);
  }

  lemma StampOnly(h: Heap, s: State, p: nat, loose: set<nat>)
    requires Linked(h, s, loose, Nowhere) && p < NBPROC && s.procs[p].status.Place() == Nowhere
    ensures Linked(h, Attach(s, p), loose, Nowhere)
  {
    hide TagOk, LinkIs, RingOk, LinkedAt;
  }

  lemma ActivateLinked(h: Heap, s: State, a: nat, loose: set<nat>)
    requires Linked(h, s, loose, Nowhere) && a < NBPROC
    ensures Linked(h.(active := a), SetActive(s, a), loose, Nowhere)
  {
    hide TagOk, LinkIs, RingOk, LinkedAt;
    var g := h.(active := a);
    assert forall pl :: HeadOf(g, pl) == HeadOf(h, pl);
  }

  lemma FinishRunning(h: Heap, s: State, a: nat)
    requires Linked(h, s, {a}, Nowhere) && Shape(s) && a < |h.procs| && a < NBPROC && s.procs[a].status.Running? && FieldsOk(h.procs[a], s.procs[a])
    ensures Linked(h.(procs := h.procs[a := h.procs[a].(tag := PsRunning)]), s, {}, Nowhere)
  {
    hide Linked;
    Sizes(h, s, {a}, Nowhere);
    RewriteFields(h, s, a, h.procs[a].(tag := PsRunning), s.procs[a], {a}, Nowhere);
    SameProc(s, a);
    assert {a} - {a} == {};
  }

  lemma TidyGrow(s: State, p: nat)
    requires Shape(s) && Tidy(s, {}) && p < NBPROC && s.procs[p].status.Place() == Nowhere
    ensures Tidy(s, {p})
  {
    assert {} + {p} == {p};
    GrowLimbo(s, {}, p);
  }

  lemma DetachNothing(s: State, p: nat)
    requires Shape(s) && p < NBPROC && s.procs[p].status.Place() == Nowhere
    ensures Detach(s, p) == s
  {
  }

  lemma OnItsList(s: State, p: nat)
    requires Shape(s) && Tidy(s, {}) && p < NBPROC && s.procs[p].status.Place() != Nowhere
    ensures p in On(s, s.procs[p].status.Place())
  {
  }

  lemma SameProc(s: State, p: nat)
    requires Shape(s) && p < NBPROC
    ensures SetProc(s, p, s.procs[p]) == s
  {
  }

  lemma OnRunQueue(s: State, p: nat)
    requires Shape(s) && Tidy(s, {}) && p < NBPROC && s.procs[p].status.Runnable?
    ensures p in On(s, RunQueue)
  {
  }

  lemma TidyPlaced(s: State, limbo: set<nat>)
    requires Shape(s) && Tidy(s, limbo)
    ensures Placed(s, limbo)
  {
  }
}
