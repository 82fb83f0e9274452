/**
 What the scheduler guarantees: it always finds a process to run, it runs one of highest
 priority, it wakes sleepers exactly when they are due, and it changes nothing else.
 */
module KernelScheduling {
  import opened KernelState
  import opened KernelSpec
  import opened KernelPlaces

  /** The lists are right, only the active process is running, and idle can always run. */
  ghost predicate Structure(s: State)
    requires Shape(s)
  {
    && Tidy(s, {})
    && (forall p | 0 <= p < NBPROC && s.procs[p].status.Running? :: p == s.active)
    && (s.procs[0].status.Runnable? || s.procs[0].status.Running?)
  }

  ghost predicate ActiveRuns(s: State)
    requires Shape(s)
  {
    s.procs[s.active].status.Running?
  }

  /** No runnable process has a higher priority than the active one. */
  ghost predicate Settled(s: State)
    requires Shape(s)
  {
    forall p | 0 <= p < NBPROC && s.procs[p].status.Runnable? :: s.procs[p].prio <= s.procs[s.active].prio
  }

  ghost predicate NoneDue(s: State)
    requires Shape(s)
  {
    forall p | 0 <= p < NBPROC && s.procs[p].status.Asleep? :: s.clock < s.procs[p].status.wake
  }

  /** What scheduling may do to one process: rotate it, or wake it when its time has come. */
  ghost predicate Rotated(a: Proc, b: Proc, clock: nat) {
    && b == a.(status := b.status, stamp := b.stamp)
    && (|| b.status == a.status
        || ((b.status.Runnable? || b.status.Running?)
            && (a.status.Runnable? || a.status.Running? || (a.status.Asleep? && a.status.wake <= clock))))
  }

  /** `t` comes from `s` by scheduling alone. */
  ghost predicate Scheduled(s: State, t: State)
    requires Shape(s) && Shape(t)
  {
    && t.queues == s.queues && t.log == s.log && t.clock == s.clock && s.now <= t.now
    && (forall p | 0 <= p < NBPROC :: Rotated(s.procs[p], t.procs[p], s.clock))
    && (forall f :: On(t, Receivers(f)) == On(s, Receivers(f)))
    && (forall f :: On(t, Senders(f)) == On(s, Senders(f)))
  }

  lemma MoveScheduled(s: State, p: nat, st: Status)
    requires Shape(s) && p < NBPROC && Rotated(s.procs[p], s.procs[p].(status := st), s.clock)
    requires st.Runnable? || st.Running?
    requires !s.procs[p].status.WaitEmpty? && !s.procs[p].status.WaitFull?
    ensures Scheduled(s, Move(s, p, st))
  {
    hide Move;
    MoveLists(s, p, st);
  }

  /** The first sleeper is the first one due. */
  lemma SleepersInOrder(s: State)
    requires Shape(s) && Tidy(s, {})
    ensures var l := On(s, Sleepers);
      forall p | 0 <= p < NBPROC && s.procs[p].status.Asleep? ::
        l != [] && Wake(s.procs[l[0]]) <= s.procs[p].status.wake
  {
    var l := On(s, Sleepers);
    assert Sorted(s.procs, Sleepers, l);
    forall p | 0 <= p < NBPROC && s.procs[p].status.Asleep?
      ensures l != [] && Wake(s.procs[l[0]]) <= s.procs[p].status.wake
    {
      assert p in l;
      var i := IndexOf(l, p);
      assert i > 0 ==> Before(s.procs, Sleepers, l[0], l[i]);
    }
  }

  /** Making a process runnable keeps the structure, unless that process was running. */
  lemma MakeRunnable(s: State, p: nat)
    requires Shape(s) && p < NBPROC && Structure(s)
    ensures Structure(Move(s, p, Runnable))
    ensures !s.procs[p].status.Running? && ActiveRuns(s) ==> ActiveRuns(Move(s, p, Runnable))
  {
    MoveTidy(s, p, Runnable);
  }

  lemma WakeOne(s: State)
    requires Shape(s) && Structure(s) && On(s, Sleepers) != []
    requires s.clock >= Wake(s.procs[On(s, Sleepers)[0]])
    ensures s.procs[On(s, Sleepers)[0]].status.Asleep?
    ensures var t := Move(s, On(s, Sleepers)[0], Runnable);
      && Structure(t) && Scheduled(s, t) && (ActiveRuns(s) ==> ActiveRuns(t))
      && On(t, Sleepers) == Without(On(s, Sleepers), On(s, Sleepers)[0])
  {
    var p := On(s, Sleepers)[0];
    assert p in On(s, Sleepers);
    MakeRunnable(s, p);
    MoveScheduled(s, p, Runnable);
  }

  lemma {:induction false} WakeDueWorks(s: State)
    requires Shape(s) && Structure(s)
    ensures var t := WakeDue(s); Structure(t) && Scheduled(s, t) && NoneDue(t)
    ensures ActiveRuns(s) ==> ActiveRuns(WakeDue(s))
    decreases |On(s, Sleepers)|
  {
    hide Tidy, Scheduled, Move;
    var l := On(s, Sleepers);
    if l != [] && s.clock >= Wake(s.procs[l[0]]) {
      WakeOne(s);
      var t := Move(s, l[0], Runnable);
      WakeDueWorks(t);
      ScheduledTrans(s, t, WakeDue(t));
    } else {
      SleepersInOrder(s);
      ScheduledRefl(s);
    }
  }

  lemma ScheduledRefl(s: State)
    requires Shape(s)
    ensures Scheduled(s, s)
  {
  }

  lemma ScheduledFacts(s: State, t: State)
    requires Shape(s) && Shape(t) && Scheduled(s, t)
    ensures forall p | 0 <= p < NBPROC :: t.procs[p].prio == s.procs[p].prio
    ensures NoneDue(s) ==> NoneDue(t)
  {
  }

  lemma ScheduledTrans(s: State, t: State, u: State)
    requires Shape(s) && Shape(t) && Shape(u) && Scheduled(s, t) && Scheduled(t, u)
    ensures Scheduled(s, u)
  {
    forall p | 0 <= p < NBPROC ensures Rotated(s.procs[p], u.procs[p], s.clock) {
      assert Rotated(s.procs[p], t.procs[p], s.clock) && Rotated(t.procs[p], u.procs[p], s.clock);
    }
  }

  /** The head of the run queue has the highest priority of all runnable processes. */
  lemma HeadIsBest(s: State)
    requires Shape(s) && Tidy(s, {})
    ensures var run := On(s, RunQueue);
      forall p | 0 <= p < NBPROC && s.procs[p].status.Runnable? ::
        run != [] && s.procs[p].prio <= s.procs[run[0]].prio
  {
    var run := On(s, RunQueue);
    assert Sorted(s.procs, RunQueue, run);
    forall p | 0 <= p < NBPROC && s.procs[p].status.Runnable?
      ensures run != [] && s.procs[p].prio <= s.procs[run[0]].prio
    {
      assert p in run;
      var i := IndexOf(run, p);
      assert i > 0 ==> Before(s.procs, RunQueue, run[0], run[i]);
    }
  }

  /** When the scheduler has to pick another process, there is one: at least idle. */
  lemma NeverEmpty(s: State)
    requires Shape(s) && Structure(s)
    ensures !ActiveRuns(s) ==> On(s, RunQueue) != []
    ensures MustSwitch(s) ==> On(s, RunQueue) != []
  {
    if !ActiveRuns(s) {
      assert 0 in On(s, RunQueue);
    }
  }

  lemma RunHead(s: State)
    requires Shape(s) && Structure(s) && On(s, RunQueue) != []
    ensures var t := Move(s, On(s, RunQueue)[0], Running);
      && Tidy(t, {}) && Scheduled(s, t) && s.procs[On(s, RunQueue)[0]].status.Runnable?
  {
    var h := On(s, RunQueue)[0];
    assert h in On(s, RunQueue);
    MoveTidy(s, h, Running);
    MoveScheduled(s, h, Running);
  }

  lemma YieldActive(t: State, a: nat)
    requires Shape(t) && Tidy(t, {}) && a < NBPROC && t.procs[a].status.Running?
    ensures var u := Move(t, a, Runnable); Tidy(u, {}) && Scheduled(t, u)
  {
    MoveTidy(t, a, Runnable);
    MoveScheduled(t, a, Runnable);
  }

  lemma SwitchTidy(s: State)
    requires Shape(s) && Structure(s) && On(s, RunQueue) != []
    ensures var t := Switch(s); Tidy(t, {}) && Scheduled(s, t)
    ensures var h, p := On(s, RunQueue)[0], s.procs;
      && p[h].status.Runnable?
      && forall q | 0 <= q < NBPROC :: Switch(s).procs[q].status ==
           if q == h then Running else if p[q].status.Running? then Runnable else p[q].status
  {
    hide Tidy, Scheduled, Move;
    RunHead(s);
    var h := On(s, RunQueue)[0];
    var t := Move(s, h, Running);
    var u := SetActive(t, h);
    SwitchActive(s, t, h);
    if s.procs[s.active].status.Running? {
      YieldActive(u, s.active);
      ScheduledTrans(s, u, Move(u, s.active, Runnable));
    }
  }

  lemma SwitchWorks(s: State)
    requires Shape(s) && Structure(s) && MustSwitch(s) && On(s, RunQueue) != []
    ensures var t := Switch(s); Structure(t) && ActiveRuns(t) && Scheduled(s, t) && Settled(t)
  {
    hide Tidy, Scheduled, Switch;
    HeadIsBest(s);
    SwitchTidy(s);
    ScheduledFacts(s, Switch(s));
  }

  lemma SwitchActive(s: State, u: State, h: nat)
    requires Shape(s) && Shape(u) && Tidy(u, {}) && Scheduled(s, u) && h < NBPROC
    ensures var t := SetActive(u, h); Tidy(t, {}) && Scheduled(s, t)
  {
  }

  /** One run of the scheduler, from any state in which the active process may have stopped. */
  lemma TickWorks(s: State)
    requires Shape(s) && Structure(s)
    ensures var t := Tick(s);
      Structure(t) && ActiveRuns(t) && Scheduled(s, t) && NoneDue(t) && Settled(t)
  {
    hide Tidy, Scheduled, Switch, WakeDue;
    var w := WakeDue(s);
    WakeDueWorks(s);
    NeverEmpty(w);
    if MustSwitch(w) {
      SwitchWorks(w);
      ScheduledTrans(s, w, Switch(w));
      ScheduledFacts(w, Switch(w));
    } else {
      HeadIsBest(w);
    }
  }

  lemma FixWorks(s: State)
    requires Shape(s) && Structure(s)
    ensures var t := Fix(s); Structure(t) && ActiveRuns(t) && Scheduled(s, t) && Settled(t)
  {
    hide Tidy, Scheduled, Tick;
    TickWorks(s);
    HeadIsBest(s);
    ScheduledRefl(s);
  }
}
