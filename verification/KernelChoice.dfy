/** Whom the scheduler picks, told without lists: the best of all that can run, and the first to have asked among equals. */
module KernelChoice {
  import opened KernelState
  import opened KernelSpec
  import opened KernelPlaces
  import opened KernelScheduling

  ghost predicate Due(s: State, p: nat)
    requires Shape(s) && p < NBPROC
  {
    s.procs[p].status.Asleep? && s.procs[p].status.wake <= s.clock
  }

  /** Who could be given the processor: all that are runnable, and sleepers whose time has come. */
  ghost predicate Candidate(s: State, p: nat)
    requires Shape(s) && p < NBPROC
  {
    s.procs[p].status.Runnable? || Due(s, p)
  }

  /** Among equals: who waits to run comes before who wakes up now, and each in their own order. */
  ghost predicate Earlier(s: State, p: nat, q: nat)
    requires Shape(s) && p < NBPROC && q < NBPROC
  {
    if s.procs[p].status.Runnable? then s.procs[q].status.Asleep? || s.procs[p].stamp < s.procs[q].stamp
    else s.procs[q].status.Asleep? && Before(s.procs, Sleepers, p, q)
  }

  ghost predicate Sooner(s: State, p: nat, q: nat)
    requires Shape(s) && p < NBPROC && q < NBPROC
  {
    s.procs[p].prio > s.procs[q].prio || (s.procs[p].prio == s.procs[q].prio && Earlier(s, p, q))
  }

  /** The active process may go on: nobody who can run is as good. */
  ghost predicate GoesOn(s: State)
    requires Shape(s)
  {
    s.procs[s.active].status.Running? && forall p | 0 <= p < NBPROC && Candidate(s, p) :: s.procs[p].prio < s.procs[s.active].prio
  }

  /** What a run of the scheduler makes of `s`. */
  ghost predicate Chosen(s: State, t: State)
    requires Shape(s) && Shape(t)
  {
    && (if GoesOn(s) then t.active == s.active
        else Candidate(s, t.active) && forall p | 0 <= p < NBPROC && p != t.active && Candidate(s, p) :: Sooner(s, t.active, p))
    && (forall p | 0 <= p < NBPROC :: t.procs[p].status == Turned(s, t.active, p))
  }

  /** The state of `p` once `h` has the processor. */
  ghost function Turned(s: State, h: nat, p: nat): Status
    requires Shape(s) && p < NBPROC
  {
    if p == h then Running else if Due(s, p) || s.procs[p].status.Running? then Runnable else s.procs[p].status
  }

  // ---- Waking up ----

  ghost predicate Woke(s: State, w: State, p: nat)
    requires Shape(s) && Shape(w) && p < NBPROC
  {
    if Due(s, p) then w.procs[p] == s.procs[p].(status := Runnable, stamp := w.procs[p].stamp) && s.now <= w.procs[p].stamp
    else w.procs[p] == s.procs[p]
  }

  ghost predicate InTurn(s: State, w: State, p: nat, q: nat)
    requires Shape(s) && Shape(w) && p < NBPROC && q < NBPROC
  {
    Due(s, p) && Due(s, q) && Before(s.procs, Sleepers, p, q) ==> w.procs[p].stamp < w.procs[q].stamp
  }

  ghost predicate WokeInTurn(s: State, w: State)
    requires Shape(s) && Shape(w)
  {
    && (forall p | 0 <= p < NBPROC :: Woke(s, w, p))
    && (forall p, q | 0 <= p < NBPROC && 0 <= q < NBPROC :: InTurn(s, w, p, q))
  }

  lemma {:induction false} WakeDueExact(s: State)
    requires Shape(s) && Structure(s)
    ensures WokeInTurn(s, WakeDue(s))
    decreases |On(s, Sleepers)|
  {
    hide Structure, Move, WokeInTurn;
    var l := On(s, Sleepers);
    if l != [] && s.procs[l[0]].status.Asleep? && s.clock >= s.procs[l[0]].status.wake {
      WakeOne(s);
      var t := Move(s, l[0], Runnable);
      WakeDueExact(t);
      FirstWoken(s, WakeDue(t));
    } else {
      NobodyDue(s);
    }
  }

  lemma NobodyDue(s: State)
    requires Shape(s) && Structure(s)
    requires var l := On(s, Sleepers); l == [] || !s.procs[l[0]].status.Asleep? || s.clock < s.procs[l[0]].status.wake
    ensures WokeInTurn(s, s)
  {
    SleepersInOrder(s);
    if On(s, Sleepers) != [] { HeadPlace(s, Sleepers); }
    hide Structure, Before;
  }

  /** The first sleeper comes before all others. */
  lemma FirstSleeper(s: State, p: nat)
    requires Shape(s) && Structure(s) && On(s, Sleepers) != [] && p < NBPROC && s.procs[p].status.Asleep? && p != On(s, Sleepers)[0]
    ensures Before(s.procs, Sleepers, On(s, Sleepers)[0], p) && !Before(s.procs, Sleepers, p, On(s, Sleepers)[0])
  {
    assert Sorted(s.procs, Sleepers, On(s, Sleepers)) && p in On(s, Sleepers);
    var i :| 0 <= i < |On(s, Sleepers)| && On(s, Sleepers)[i] == p;
    assert Before(s.procs, Sleepers, On(s, Sleepers)[0], On(s, Sleepers)[i]);
  }

  lemma FirstWoken(s: State, w: State)
    requires Shape(s) && Shape(w) && Structure(s) && On(s, Sleepers) != [] && Due(s, On(s, Sleepers)[0])
    requires WokeInTurn(Move(s, On(s, Sleepers)[0], Runnable), w)
    ensures WokeInTurn(s, w)
  {
    hide Structure, Move, Before;
    var h := On(s, Sleepers)[0];
    var t := Move(s, h, Runnable);
    forall p | 0 <= p < NBPROC ensures Woke(s, w, p) {
      assert Woke(t, w, p) && Woke(t, w, h);
    }
    forall p, q | 0 <= p < NBPROC && 0 <= q < NBPROC ensures InTurn(s, w, p, q) {
      if Due(s, p) && Due(s, q) && Before(s.procs, Sleepers, p, q) {
        FirstWokenTurn(s, w, p, q);
      }
    }
  }

  lemma FirstWokenTurn(s: State, w: State, p: nat, q: nat)
    requires Shape(s) && Shape(w) && Structure(s) && On(s, Sleepers) != [] && Due(s, On(s, Sleepers)[0])
    requires WokeInTurn(Move(s, On(s, Sleepers)[0], Runnable), w)
    requires p < NBPROC && q < NBPROC && Due(s, p) && Due(s, q) && Before(s.procs, Sleepers, p, q)
    ensures w.procs[p].stamp < w.procs[q].stamp
  {
    hide Structure, Move;
    var h := On(s, Sleepers)[0];
    var t := Move(s, h, Runnable);
    assert Woke(t, w, p) && Woke(t, w, q) && InTurn(t, w, p, q);
    if p != h { FirstSleeper(s, p); }
    if q != h { FirstSleeper(s, q); }
  }

  // ---- Choosing ----

  /** The head of the run queue goes before everybody else who is runnable. */
  lemma HeadFirst(s: State, p: nat)
    requires Shape(s) && Structure(s) && On(s, RunQueue) != [] && p < NBPROC && s.procs[p].status.Runnable? && p != On(s, RunQueue)[0]
    ensures Before(s.procs, RunQueue, On(s, RunQueue)[0], p)
  {
    assert Sorted(s.procs, RunQueue, On(s, RunQueue)) && p in On(s, RunQueue);
    var i :| 0 <= i < |On(s, RunQueue)| && On(s, RunQueue)[i] == p;
    assert Before(s.procs, RunQueue, On(s, RunQueue)[0], On(s, RunQueue)[i]);
  }

  /** Two sleepers are in some order. */
  lemma SleepersOrdered(s: State, p: nat, q: nat)
    requires Shape(s) && Structure(s) && p < NBPROC && q < NBPROC && p != q && s.procs[p].status.Asleep? && s.procs[q].status.Asleep?
    ensures Before(s.procs, Sleepers, p, q) || Before(s.procs, Sleepers, q, p)
  {
    var l := On(s, Sleepers);
    assert Sorted(s.procs, Sleepers, l) && p in l && q in l;
    var i :| 0 <= i < |l| && l[i] == p;
    var j :| 0 <= j < |l| && l[j] == q;
    assert if i < j then Before(s.procs, Sleepers, l[i], l[j]) else Before(s.procs, Sleepers, l[j], l[i]);
  }

  /** The head of the run queue, once all are awake, is the soonest candidate. */
  lemma HeadSoonest(s: State, w: State, p: nat)
    requires Shape(s) && Shape(w) && Structure(s) && Structure(w) && WokeInTurn(s, w) && On(w, RunQueue) != []
    requires p < NBPROC && Candidate(s, p) && p != On(w, RunQueue)[0]
    ensures var h := On(w, RunQueue)[0]; Candidate(s, h) && Sooner(s, h, p)
  {
    var h := On(w, RunQueue)[0];
    HeadPlace(w, RunQueue);
    assert Woke(s, w, p) && Woke(s, w, h) && InTurn(s, w, p, h);
    HeadFirst(w, p);
    if s.procs[h].status.Asleep? && s.procs[p].status.Asleep? { SleepersOrdered(s, h, p); }
    hide Structure, WokeInTurn;
  }

  lemma HeadCandidate(s: State, w: State)
    requires Shape(s) && Shape(w) && Structure(s) && Structure(w) && WokeInTurn(s, w) && On(w, RunQueue) != []
    ensures Candidate(s, On(w, RunQueue)[0])
  {
    var h := On(w, RunQueue)[0];
    HeadPlace(w, RunQueue);
    assert Woke(s, w, h);
  }

  lemma MustSwitchExactly(s: State, w: State)
    requires Shape(s) && Shape(w) && Structure(s) && Structure(w) && WokeInTurn(s, w) && w.active == s.active
    ensures MustSwitch(w) <==> !GoesOn(s)
    ensures MustSwitch(w) ==> On(w, RunQueue) != []
  {
    HeadIsBest(w);
    NeverEmpty(w);
    if On(w, RunQueue) != [] { HeadCandidate(s, w); }
    hide Structure;
    assert Woke(s, w, s.active);
    var run := On(w, RunQueue);
    if run != [] { assert Woke(s, w, run[0]); }
    forall p | 0 <= p < NBPROC && Candidate(s, p) ensures run != [] && s.procs[p].prio <= w.procs[run[0]].prio {
      assert Woke(s, w, p);
    }
  }

  /** One run of the scheduler gives the processor to whom it should, and wakes and sets back whom it should. */
  lemma TickExactly(s: State)
    requires Shape(s) && Structure(s)
    ensures Chosen(s, Tick(s))
  {
    hide Structure, WakeDue, WokeInTurn, MustSwitch, Switch, GoesOn;
    var w := WakeDue(s);
    WakeDueWorks(s);
    WakeDueExact(s);
    MustSwitchExactly(s, w);
    if MustSwitch(w) {
      SwitchTidy(w);
      HeadCandidate(s, w);
      forall p | 0 <= p < NBPROC && p != On(w, RunQueue)[0] && Candidate(s, p) ensures Sooner(s, On(w, RunQueue)[0], p) {
        HeadSoonest(s, w, p);
      }
      hide Sooner, Candidate;
      SwitchStatuses(s, w);
    } else {
      hide Sooner, Candidate;
      StayStatuses(s, w);
    }
  }

  lemma SwitchStatuses(s: State, w: State)
    requires Shape(s) && Shape(w) && Structure(w) && WokeInTurn(s, w) && On(w, RunQueue) != []
    ensures var t := Switch(w); t.active == On(w, RunQueue)[0] && forall p | 0 <= p < NBPROC :: t.procs[p].status == Turned(s, t.active, p)
  {
    hide Structure, Switch, WokeInTurn;
    var t := Switch(w);
    forall p | 0 <= p < NBPROC ensures t.procs[p].status == Turned(s, t.active, p) {
      SwitchStatus(s, w, p);
    }
  }

  lemma SwitchStatus(s: State, w: State, p: nat)
    requires Shape(s) && Shape(w) && Structure(w) && WokeInTurn(s, w) && On(w, RunQueue) != [] && p < NBPROC
    ensures Switch(w).procs[p].status == Turned(s, Switch(w).active, p)
  {
    hide Structure, Switch;
    SwitchTidy(w);
    hide Tidy, Scheduled, Shape;
    assert Woke(s, w, p);
  }

  lemma StayStatuses(s: State, w: State)
    requires Shape(s) && Shape(w) && Structure(s) && WokeInTurn(s, w) && w.active == s.active && GoesOn(s)
    ensures forall p | 0 <= p < NBPROC :: w.procs[p].status == Turned(s, w.active, p)
  {
    hide Tidy;
    forall p | 0 <= p < NBPROC ensures w.procs[p].status == Turned(s, w.active, p) {
      assert Woke(s, w, p);
    }
  }

  /** Somebody who can run outranks the active process, or it has stopped. */
  ghost predicate Overdue(s: State)
    requires Shape(s)
  {
    !s.procs[s.active].status.Running? || exists p | 0 <= p < NBPROC :: s.procs[p].status.Runnable? && s.procs[p].prio > s.procs[s.active].prio
  }

  /** fix_scheduler runs the scheduler exactly when the active process has stopped or is outranked. */
  lemma FixExactly(s: State)
    requires Shape(s) && Structure(s)
    ensures if Overdue(s) then Chosen(s, Fix(s)) && NoneDue(Fix(s)) else Fix(s) == s
  {
    hide Structure, Tick, Chosen, NoneDue, Overdue;
    FixRuns(s);
    TickExactly(s);
    TickWorks(s);
  }

  lemma FixRuns(s: State)
    requires Shape(s) && Structure(s)
    ensures Fix(s) == if Overdue(s) then Tick(s) else s
  {
    hide Structure, Tick;
    HeadRuns(s);
  }

  lemma HeadRuns(s: State)
    requires Shape(s) && Structure(s)
    ensures var run := On(s, RunQueue);
      && (run != [] ==> s.procs[run[0]].status.Runnable?)
      && (forall p | 0 <= p < NBPROC && s.procs[p].status.Runnable? :: run != [] && s.procs[p].prio <= s.procs[run[0]].prio)
  {
    HeadIsBest(s);
    if On(s, RunQueue) != [] { HeadPlace(s, RunQueue); }
  }
}
