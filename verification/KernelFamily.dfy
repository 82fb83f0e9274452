/**
 Parents, children and waitpid.  A zombie always has a live parent to reap it; a process
 blocked in waitpid has a live child to wait for and no zombie it missed; and once it is
 woken, its slot names a zombie child that nobody else can reap.
 */
module KernelFamily {
  import opened KernelState
  import opened KernelSpec
  import opened KernelPlaces
  import opened KernelScheduling

  ghost predicate LivePid(s: State, p: int)
    requires Shape(s)
  {
    0 <= p < NBPROC && s.procs[p].status.Alive()
  }

  ghost predicate LiveChild(s: State, p: nat, c: int)
    requires Shape(s)
  {
    LivePid(s, c) && s.procs[c].parent == p
  }

  ghost predicate ZombieOf(s: State, p: nat, c: int)
    requires Shape(s)
  {
    0 <= c < NBPROC && s.procs[c].parent == p && s.procs[c].status.Zombie?
  }

  ghost predicate ParentOk(s: State, p: nat)
    requires Shape(s) && p < NBPROC
  {
    var q := s.procs[p];
    && (q.status.Zombie? ==> LivePid(s, q.parent))
    && (q.status.Alive() ==> q.parent == NOPID || LivePid(s, q.parent))
    && (!q.status.Dead? ==> q.parent != p)
  }

  /** A process blocked in waitpid for any child (-1), or for child `c`, can still be woken; for a pid below -1 it cannot. */
  ghost predicate CanBeWoken(s: State, p: nat, c: int)
    requires Shape(s)
  {
    && c >= NOPID
    && (c >= 0 ==> LiveChild(s, p, c))
    && (c == NOPID ==> (exists k :: LiveChild(s, p, k)) && !exists k :: ZombieOf(s, p, k))
  }

  ghost predicate WaitOk(s: State, p: nat)
    requires Shape(s) && p < NBPROC
  {
    var q := s.procs[p];
    && (q.status.WaitChild? ==> q.frame.InWaitpid? && (q.frame.child >= NOPID ==> CanBeWoken(s, p, q.frame.child)))
    && (q.status.Alive() && !q.status.WaitChild? && q.frame.InWaitpid? ==> ZombieOf(s, p, q.frame.child))
  }

  ghost predicate Kin(s: State)
    requires Shape(s)
  {
    forall p | 0 <= p < NBPROC :: ParentOk(s, p) && WaitOk(s, p)
  }

  // ---- Steps that leave families alone ----

  /** Same parent, same stage of life, and no change to a waitpid in progress. */
  ghost predicate SameKin(a: Proc, b: Proc) {
    && b.parent == a.parent
    && a.status.Dead? == b.status.Dead? && a.status.Lost? == b.status.Lost? && a.status.Zombie? == b.status.Zombie?
    && a.status.WaitChild? == b.status.WaitChild?
    && (a.frame == b.frame || (!a.frame.InWaitpid? && !b.frame.InWaitpid?))
  }

  lemma KinSame(s: State, t: State)
    requires Shape(s) && Shape(t) && Kin(s)
    requires forall p | 0 <= p < NBPROC :: SameKin(s.procs[p], t.procs[p])
    ensures Kin(t)
  {
    forall p | 0 <= p < NBPROC ensures ParentOk(t, p) && WaitOk(t, p) {
      assert ParentOk(s, p) && WaitOk(s, p);
      forall k ensures LiveChild(t, p, k) == LiveChild(s, p, k) && ZombieOf(t, p, k) == ZombieOf(s, p, k) {}
      var q := s.procs[p].parent;
      assert LivePid(t, q) == LivePid(s, q);
    }
  }

  lemma KinScheduled(s: State, t: State)
    requires Shape(s) && Shape(t) && Kin(s) && Scheduled(s, t)
    ensures Kin(t)
  {
    forall p | 0 <= p < NBPROC ensures SameKin(s.procs[p], t.procs[p]) {
      assert Rotated(s.procs[p], t.procs[p], s.clock);
    }
    KinSame(s, t);
  }

  // ---- start ----

  lemma StartKin(s: State, user: Mode, ssize: nat, prio: int)
    requires Shape(s) && Structure(s) && ActiveRuns(s) && Kin(s)
    ensures Kin(StartBackground(s, user, ssize, prio))
  {
    var free := On(s, Free);
    if StackFits(user, ssize) && free != [] {
      StartProcs(s, user, ssize, prio);
      NewChildKin(s, StartBackground(s, user, ssize, prio), free[0]);
    }
  }

  lemma StartProcs(s: State, user: Mode, ssize: nat, prio: int)
    requires Shape(s) && Structure(s) && StackFits(user, ssize) && On(s, Free) != []
    ensures var n, t := On(s, Free)[0], StartBackground(s, user, ssize, prio);
      && s.procs[n].status.Dead? && t.now == s.now + 1
      && t.procs == s.procs[n := s.procs[n].(parent := s.active, prio := prio, status := NewStatus(user),
                                             frame := NoCall, stamp := s.now)]
  {
    hide Tidy;
    HeadPlace(s, Free);
  }

  lemma NewChildKin(s: State, t: State, n: nat)
    requires Shape(s) && Shape(t) && Kin(s) && ActiveRuns(s) && n < NBPROC && s.procs[n].status.Dead?
    requires t.procs == s.procs[n := t.procs[n]]
    requires t.procs[n].parent == s.active && t.procs[n].frame == NoCall
    requires t.procs[n].status == Runnable || t.procs[n].status == Lost
    ensures Kin(t)
  {
    forall p | 0 <= p < NBPROC ensures ParentOk(t, p) && WaitOk(t, p) {
      assert ParentOk(s, p) && WaitOk(s, p);
      forall k ensures LiveChild(s, p, k) ==> LiveChild(t, p, k) {}
      forall k ensures ZombieOf(s, p, k) <==> ZombieOf(t, p, k) {}
    }
  }

  // ---- waitpid and its return ----

  /** Reaping a zombie child of a process that no longer waits. */
  lemma ReapKin(s: State, t: State, a: nat, c: nat)
    requires Shape(s) && Shape(t) && Kin(s) && a < NBPROC && c < NBPROC && ZombieOf(s, a, c)
    requires t.procs == s.procs[a := t.procs[a]][c := t.procs[c]]
    requires t.procs[c].status.Dead? && t.procs[a].frame == NoCall && t.procs[a].parent == s.procs[a].parent
    requires s.procs[a].status.Running? && t.procs[a].status.Running?
    ensures Kin(t)
  {
    assert ParentOk(s, c);
    forall p | 0 <= p < NBPROC ensures ParentOk(t, p) && WaitOk(t, p) {
      assert ParentOk(s, p) && WaitOk(s, p);
      forall k ensures LiveChild(t, p, k) == LiveChild(s, p, k) {}
      forall k ensures ZombieOf(t, p, k) <==> ZombieOf(s, p, k) && k != c {}
      var q := s.procs[p].parent;
      assert LivePid(t, q) == LivePid(s, q);
    }
  }

  lemma WaitKin(s: State, t: State, pid: int)
    requires Shape(s) && Shape(t) && Kin(s) && s.procs[s.active].status.Running?
    requires Look(s, pid).MustWait?
    requires t.procs == s.procs[s.active := t.procs[s.active]]
    requires t.procs[s.active].status == WaitChild && t.procs[s.active].frame == InWaitpid(pid)
    requires t.procs[s.active].parent == s.procs[s.active].parent
    ensures Kin(t)
  {
    var a := s.active;
    forall p | 0 <= p < NBPROC ensures ParentOk(t, p) && WaitOk(t, p) {
      assert ParentOk(s, p) && WaitOk(s, p);
      forall k ensures LiveChild(t, p, k) == LiveChild(s, p, k) && ZombieOf(t, p, k) == ZombieOf(s, p, k) {}
      var q := s.procs[p].parent;
      assert LivePid(t, q) == LivePid(s, q);
      if p == a && pid == NOPID {
        var c :| 0 <= c < NBPROC && IsChild(s, a, c);
        assert LiveChild(s, a, c);
        assert forall k :: !ZombieOf(s, a, k);
      }
    }
  }

  // ---- exit and kill ----

  ghost predicate KinBut(s: State, p: nat)
    requires Shape(s)
  {
    && (forall q | 0 <= q < NBPROC :: ParentOk(s, q) && (q != p ==> WaitOk(s, q)))
    && (forall q | 0 <= q < NBPROC && s.procs[q].parent == p :: s.procs[q].status.Dead?)
  }

  ghost predicate Unbound(a: Proc, b: Proc, p: nat) {
    if a.parent != p then b == a
    else if a.status.Zombie? then b == a.(status := Dead, stamp := b.stamp)
    else b == a.(parent := NOPID)
  }

  lemma {:induction false} UnbindProcs(s: State, p: nat, i: nat)
    requires Shape(s) && p < NBPROC && i <= NBPROC
    ensures var t := Unbind(s, p, i);
      forall q | 0 <= q < NBPROC :: if q < i then t.procs[q] == s.procs[q] else Unbound(s.procs[q], t.procs[q], p)
    decreases NBPROC - i
  {
    hide Move;
    if i < NBPROC {
      var t := if s.procs[i].parent != p then s
               else if s.procs[i].status.Zombie? then Move(s, i, Dead)
               else SetProc(s, i, s.procs[i].(parent := NOPID));
      UnbindProcs(t, p, i + 1);
    }
  }

  lemma UnboundChildren(s: State, t: State, p: nat, q: nat, k: int)
    requires Shape(s) && Shape(t) && q != p
    requires forall i | 0 <= i < NBPROC :: Unbound(s.procs[i], t.procs[i], p)
    ensures LiveChild(t, q, k) == LiveChild(s, q, k) && ZombieOf(t, q, k) == ZombieOf(s, q, k)
  {
    if 0 <= k < NBPROC { assert Unbound(s.procs[k], t.procs[k], p); }
  }

  lemma UnboundParent(s: State, t: State, p: nat, q: nat)
    requires Shape(s) && Shape(t) && p < NBPROC && q < NBPROC && ParentOk(s, q)
    requires forall i | 0 <= i < NBPROC :: Unbound(s.procs[i], t.procs[i], p)
    ensures ParentOk(t, q)
  {
    assert Unbound(s.procs[q], t.procs[q], p);
    var r := t.procs[q].parent;
    if 0 <= r < NBPROC { assert Unbound(s.procs[r], t.procs[r], p); }
  }

  lemma UnbindKin(s: State, p: nat)
    requires Shape(s) && p < NBPROC && Kin(s) && s.procs[p].status.Alive()
    ensures KinBut(Unbind(s, p, 0), p)
    ensures Unbind(s, p, 0).procs[p] == s.procs[p]
  {
    hide Unbind, ParentOk;
    var t := Unbind(s, p, 0);
    UnbindProcs(s, p, 0);
    assert Unbound(s.procs[p], t.procs[p], p) && s.procs[p].parent != p by { NotOwnParent(s, p); }
    forall q | 0 <= q < NBPROC ensures ParentOk(t, q) {
      UnboundParent(s, t, p, q);
    }
    forall q | 0 <= q < NBPROC && q != p ensures WaitOk(t, q) {
      assert WaitOk(s, q) && Unbound(s.procs[q], t.procs[q], p);
      forall k ensures LiveChild(t, q, k) == LiveChild(s, q, k) && ZombieOf(t, q, k) == ZombieOf(s, q, k) {
        UnboundChildren(s, t, p, q, k);
      }
    }
  }

  lemma NotOwnParent(s: State, p: nat)
    requires Shape(s) && p < NBPROC && ParentOk(s, p) && s.procs[p].status.Alive()
    ensures s.procs[p].parent != p
  {
  }

  lemma BuryOrphan(s: State, t: State, p: nat)
    requires Shape(s) && Shape(t) && p < NBPROC && KinBut(s, p)
    requires s.procs[p].parent == NOPID && s.procs[p].status.Alive()
    requires t.procs == s.procs[p := t.procs[p]] && t.procs[p].status.Dead?
    ensures Kin(t)
  {
    forall q | 0 <= q < NBPROC ensures ParentOk(t, q) && WaitOk(t, q) {
      assert ParentOk(s, q);
      if q != p {
        assert WaitOk(s, q);
        forall k ensures LiveChild(t, q, k) == LiveChild(s, q, k) && ZombieOf(t, q, k) == ZombieOf(s, q, k) {}
      }
    }
  }

  lemma BuryChild(s: State, t: State, p: nat)
    requires Shape(s) && Shape(t) && p < NBPROC && KinBut(s, p)
    requires s.procs[p].parent != NOPID && s.procs[p].status.Alive()
    requires var w := s.procs[p].parent;
      && 0 <= w < NBPROC && w != p && t.procs == s.procs[p := t.procs[p]][w := t.procs[w]]
      && t.procs[p].status.Zombie? && t.procs[p].parent == w && t.procs[w].parent == s.procs[w].parent
      && (if s.procs[w].status.WaitChild? && s.procs[w].frame.InWaitpid?
              && (s.procs[w].frame.child == NOPID || s.procs[w].frame.child == p)
          then t.procs[w].status.Runnable? && t.procs[w].frame == InWaitpid(p)
          else t.procs[w] == s.procs[w])
    ensures Kin(t)
  {
    var w := s.procs[p].parent;
    assert ParentOk(s, p) && WaitOk(s, w);
    forall q | 0 <= q < NBPROC ensures ParentOk(t, q) && WaitOk(t, q) {
      assert ParentOk(s, q);
      if q != p {
        assert WaitOk(s, q);
        forall k ensures LiveChild(t, q, k) <==> LiveChild(s, q, k) && k != p {}
        forall k ensures ZombieOf(t, q, k) <==> ZombieOf(s, q, k) || (k == p && q == w) {}
      }
    }
  }

  lemma BuryKin(s: State, p: nat, retval: int)
    requires Shape(s) && p < NBPROC && KinBut(s, p) && s.procs[p].status.Alive()
    ensures Kin(Bury(s, p, retval))
  {
    hide Move;
    var w := s.procs[p].parent;
    assert ParentOk(s, p);
    if w == NOPID {
      BuryOrphan(s, Bury(s, p, retval), p);
    } else {
      assert WaitOk(s, w);
      BuryChild(s, Bury(s, p, retval), p);
    }
  }
}
