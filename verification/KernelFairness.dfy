/** Bounded waiting: how many scheduler ticks a runnable process can be passed over. */
module KernelFairness {
  import opened KernelState
  import opened KernelSpec
  import opened KernelPlaces
  import opened KernelScheduling
  import opened KernelFamily
  import opened KernelMail
  import opened KernelInvariant
  import opened KernelTheorems

  /** The processes that will run before `p` if nothing of higher priority turns up. */
  ghost function Ahead(s: State, p: nat): set<nat>
    requires Shape(s) && p < NBPROC
  {
    set q: nat | q < NBPROC && s.procs[q].status.Runnable? && Before(s.procs, RunQueue, q, p)
  }

  /** Neither the active process nor any runnable one outranks `p`. */
  ghost predicate Unrivalled(s: State, p: nat)
    requires Shape(s) && p < NBPROC
  {
    && s.procs[s.active].prio <= s.procs[p].prio
    && forall q | 0 <= q < NBPROC && s.procs[q].status.Runnable? :: s.procs[q].prio <= s.procs[p].prio
  }

  ghost predicate Restamped(s: State, t: State)
    requires Shape(s) && Shape(t)
  {
    s.now <= t.now && forall q | 0 <= q < NBPROC :: Touched(s.procs[q], t.procs[q], s.now)
  }

  lemma RestampedTrans(s: State, t: State, u: State)
    requires Shape(s) && Shape(t) && Shape(u) && Restamped(s, t) && Restamped(t, u)
    ensures Restamped(s, u)
  {
    forall q | 0 <= q < NBPROC ensures Touched(s.procs[q], u.procs[q], s.now) {
      assert Touched(s.procs[q], t.procs[q], s.now) && Touched(t.procs[q], u.procs[q], t.now);
    }
  }

  lemma {:induction false} WakeDueRestamps(s: State)
    requires Shape(s)
    ensures Restamped(s, WakeDue(s))
    decreases |On(s, Sleepers)|
  {
    var l := On(s, Sleepers);
    if l != [] && s.procs[l[0]].status.Asleep? && s.clock >= s.procs[l[0]].status.wake {
      var t := Move(s, l[0], Runnable);
      assert On(t, Sleepers) == Without(l, l[0]);
      hide Move;
      WakeDueRestamps(t);
      RestampedTrans(s, t, WakeDue(t));
    }
  }

  lemma SwitchRestamps(s: State)
    requires Shape(s) && On(s, RunQueue) != []
    ensures Restamped(s, Switch(s))
  {
    hide Move;
  }

  lemma TickRestamps(s: State)
    requires Shape(s)
    ensures Restamped(s, Tick(s))
  {
    hide WakeDue, Switch, Restamped;
    var w := WakeDue(s);
    WakeDueRestamps(s);
    if MustSwitch(w) && On(w, RunQueue) != [] {
      SwitchRestamps(w);
      RestampedTrans(s, w, Switch(w));
    }
  }

  lemma FinishRestamps(a: Act)
    requires Shape(a.s)
    ensures Restamped(a.s, Finish(a))
  {
    hide Tick;
    TickRestamps(a.s);
  }

  /** Whatever else happens, nobody is placed in front of a process that stays where it is. */
  lemma AheadShrinks(s: State, t: State, p: nat)
    requires Shape(s) && Shape(t) && p < NBPROC && Restamped(s, t) && Unrivalled(t, p)
    requires t.procs[p].stamp == s.procs[p].stamp && s.procs[p].status.Runnable?
    ensures t.procs[p].status.Runnable? && t.procs[p].prio == s.procs[p].prio
    ensures Ahead(t, p) <= Ahead(s, p)
  {
    assert Touched(s.procs[p], t.procs[p], s.now);
    forall q | q in Ahead(t, p) ensures q in Ahead(s, p) {
      assert Touched(s.procs[q], t.procs[q], s.now);
    }
  }

  lemma NextShrinks(s: State, step: Step, p: nat)
    requires Inv(s) && Enabled(s, step) && p < NBPROC && s.procs[p].status.Runnable?
    requires var t := Next(s, step); t.procs[p].stamp == s.procs[p].stamp && Unrivalled(t, p)
    ensures Next(s, step).procs[p].status.Runnable?
    ensures Ahead(Next(s, step), p) <= Ahead(s, p)
  {
    hide Core, Do, Finish, ActiveRuns;
    DoGentle(s, step);
    FinishRestamps(Do(s, step));
    RestampedTrans(s, Do(s, step).s, Finish(Do(s, step)));
    AheadShrinks(s, Finish(Do(s, step)), p);
  }

  /** The head of the run queue comes before every other runnable process. */
  lemma HeadComesFirst(w: State, p: nat)
    requires Shape(w) && Tidy(w, {}) && p < NBPROC && w.procs[p].status.Runnable?
    ensures var run := On(w, RunQueue);
      run != [] && w.procs[run[0]].status.Runnable? && (run[0] == p || Before(w.procs, RunQueue, run[0], p))
  {
    var run := On(w, RunQueue);
    assert p in run;
    HeadPlace(w, RunQueue);
    assert Sorted(w.procs, RunQueue, run);
    var i := IndexOf(run, p);
    assert i > 0 ==> Before(w.procs, RunQueue, run[0], run[i]);
  }

  lemma PassedOver(s: State, p: nat)
    requires Shape(s) && Structure(s) && ActiveRuns(s) && p < NBPROC && s.procs[p].status.Runnable? && Unrivalled(s, p)
    requires var t := Tick(s); t.procs[p].stamp == s.procs[p].stamp && t.procs[p].status.Runnable? && Unrivalled(t, p)
    ensures var w := WakeDue(s);
      && On(w, RunQueue) != [] && Tick(s) == Switch(w) && Restamped(s, w)
      && Before(w.procs, RunQueue, On(w, RunQueue)[0], p) && On(w, RunQueue)[0] != p
      && w.procs[p] == s.procs[p].(stamp := w.procs[p].stamp) && w.procs[p].stamp == s.procs[p].stamp
  {
    hide Tidy, WakeDue, Switch, Kin, Mail;
    var w := WakeDue(s);
    WakeDueRestamps(s);
    WakeDueWorks(s);
    assert Rotated(s.procs[p], w.procs[p], s.clock);
    assert Touched(s.procs[p], w.procs[p], s.now);
    if w.procs[p].stamp >= s.now {
      StampsGrow(w, p);
    }
    HeadComesFirst(w, p);
    var h := On(w, RunQueue)[0];
    assert Rotated(s.procs[s.active], w.procs[s.active], s.clock);
    SwitchTidy(w);
    assert Tick(s) == Switch(w);
  }

  /** A stamp given by this tick is not overwritten with an older one. */
  lemma StampsGrow(w: State, p: nat)
    requires Shape(w) && p < NBPROC
    ensures On(w, RunQueue) != [] ==> Switch(w).procs[p].stamp >= w.procs[p].stamp
  {
    hide Move;
  }

  /** Each tick that passes `p` over takes a process from in front of it. */
  lemma TickAdvances(s: State, p: nat)
    requires Shape(s) && Structure(s) && ActiveRuns(s) && p < NBPROC && s.procs[p].status.Runnable? && Unrivalled(s, p)
    requires var t := Tick(s); t.procs[p].stamp == s.procs[p].stamp && t.procs[p].status.Runnable? && Unrivalled(t, p)
    ensures Ahead(Tick(s), p) < Ahead(s, p)
  {
    hide Tidy, WakeDue, Switch;
    var w := WakeDue(s);
    var t := Tick(s);
    PassedOver(s, p);
    var h := On(w, RunQueue)[0];
    TickRestamps(s);
    AheadShrinks(s, t, p);
    WakeDueWorks(s);
    SwitchTidy(w);
    ScheduledFacts(w, t);
    assert Touched(s.procs[h], w.procs[h], s.now);
    assert h in Ahead(s, p);
    assert h !in Ahead(t, p);
  }

  /** A scheduler tick: the clock interrupts that are not one are plain. */
  predicate IsTick(s: State, step: Step) {
    step.DoClock? && (s.clock + 1) % CLOCKWRAP % CLOCKS_PER_TICK == 0
  }

  ghost function Ticks(s: State, steps: seq<Step>): nat
    requires Shape(s)
    decreases |steps|
  {
    if steps == [] then 0
    else (if IsTick(s, steps[0]) then 1 else 0) + Ticks(Next(s, steps[0]), steps[1..])
  }

  /** Throughout the run, `p` stays where it was put on the run queue and nobody outranks it. */
  ghost predicate KeptWaiting(s: State, steps: seq<Step>, p: nat)
    requires Shape(s) && p < NBPROC
    decreases |steps|
  {
    && s.procs[p].status.Runnable? && Unrivalled(s, p)
    && (steps != [] ==>
          var t := Next(s, steps[0]);
          t.procs[p].stamp == s.procs[p].stamp && KeptWaiting(t, steps[1..], p))
  }

  lemma ClockOnly(s: State)
    requires Shape(s) && Structure(s) && ActiveRuns(s) && IsTick(s, DoClock)
    ensures var m := Do(s, DoClock).s;
      && Next(s, DoClock) == Tick(m) && m.procs == s.procs && m.active == s.active
      && Structure(m) && ActiveRuns(m)
  {
    hide Tidy, Tick;
    var m := s.(clock := (s.clock + 1) % CLOCKWRAP);
    assert forall pl :: On(m, pl) == On(s, pl);
    SameStructure(s, m);
  }

  lemma NextAdvances(s: State, p: nat)
    requires Inv(s) && p < NBPROC && s.procs[p].status.Runnable? && Unrivalled(s, p) && IsTick(s, DoClock)
    requires var t := Next(s, DoClock); t.procs[p].stamp == s.procs[p].stamp && t.procs[p].status.Runnable? && Unrivalled(t, p)
    ensures Ahead(Next(s, DoClock), p) < Ahead(s, p)
  {
    hide Structure, Kin, Mail, Tick, Next, Do;
    ClockOnly(s);
    TickAdvances(Do(s, DoClock).s, p);
  }

  lemma StrictSubset(a: set<nat>, b: set<nat>)
    requires a < b
    ensures |a| < |b|
  {
    var x :| x in b && x !in a;
    Subset(a, b - {x});
  }

  lemma {:induction false} Subset(a: set<nat>, b: set<nat>)
    requires a <= b
    ensures |a| <= |b|
    decreases a
  {
    if a != {} {
      var x :| x in a;
      Subset(a - {x}, b - {x});
    }
  }

  /**
   However long the run and whatever the other processes do in it, the scheduler passes a
   runnable process over at most once for each process that was ahead of it: with k ahead, it
   runs within k + 1 ticks unless it is moved or outranked first.
   */
  lemma {:induction false} BoundedWaiting(s: State, steps: seq<Step>, p: nat)
    requires Inv(s) && ValidRun(s, steps) && p < NBPROC && KeptWaiting(s, steps, p)
    ensures Ticks(s, steps) <= |Ahead(s, p)|
    decreases |steps|
  {
    hide Core, ActiveRuns, Next, Unrivalled, Ahead, Enabled;
    if steps != [] {
      var t := Next(s, steps[0]);
      NextKeeps(s, steps[0]);
      BoundedWaiting(t, steps[1..], p);
      NextShrinks(s, steps[0], p);
      Subset(Ahead(t, p), Ahead(s, p));
      if IsTick(s, steps[0]) {
        NextAdvances(s, p);
        StrictSubset(Ahead(t, p), Ahead(s, p));
      }
    }
  }
}
