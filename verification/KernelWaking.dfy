/**
 Who wakes a process blocked in waitpid: the end of a child it waits for, and nothing else.
 A process that waits for a pid below -1 waits for nobody, and stays blocked until it is ended.
 */
module KernelWaking {
  import opened KernelState
  import opened KernelSpec
  import opened KernelPlaces
  import opened KernelScheduling
  import opened KernelFamily
  import opened KernelInvariant
  import opened KernelTheorems

  /** Process `p`, blocked in waitpid, waits for any child or for `c`. */
  ghost predicate Awaits(q: Proc, c: int) {
    q.frame.InWaitpid? && (q.frame.child == NOPID || q.frame.child == c)
  }

  /** Ending `c`, whose children have been unbound, wakes exactly a parent that awaits it. */
  lemma BuryWakes(s: State, c: nat, retval: int, p: nat)
    requires Shape(s) && c < NBPROC && p < NBPROC && p != c && s.procs[p].status.WaitChild?
    ensures var b := Bury(s, c, retval).procs[p];
      if s.procs[c].parent == p && Awaits(s.procs[p], c) then b.status.Runnable? && b.frame == InWaitpid(c)
      else b == s.procs[p]
  {
    hide Move;
  }

  lemma StopWakes(s: State, c: nat, retval: int, p: nat)
    requires Inv(s) && AlivePid(s, c) && p < NBPROC && p != c && s.procs[p].status.WaitChild?
    ensures var b := Stop(s, c, retval).s.procs[p];
      if s.procs[c].parent == p && Awaits(s.procs[p], c) then b.status.Runnable? && b.frame == InWaitpid(c)
      else b.status.WaitChild? && b.frame == s.procs[p].frame
  {
    var t := Unbind(s, c, 0);
    UnbindProcs(s, c, 0);
    assert ParentOk(s, c);
    hide Bury, Unbind, Core, Kin;
    assert Unbound(s.procs[p], t.procs[p], c) && Unbound(s.procs[c], t.procs[c], c);
    BuryWakes(t, c, retval, p);
  }

  /** What a step does, before the scheduler, to a process blocked in waitpid. */
  lemma DoWakes(s: State, step: Step, p: nat)
    requires Inv(s) && Enabled(s, step) && p < NBPROC && s.procs[p].status.WaitChild? && Ended(s, step) != p
    ensures var c, b := Ended(s, step), Do(s, step).s.procs[p];
      if LiveChild(s, p, c) && Awaits(s.procs[p], c) then b.status.Runnable? && b.frame == InWaitpid(c)
      else b.status.WaitChild? && b.frame == s.procs[p].frame
  {
    var c := Ended(s, step);
    if c != NOPID {
      hide Stop, Core;
      StopWakes(s, c, if step.DoExit? then step.retval else 0, p);
    } else {
      EndsNobody(s, step, p);
    }
  }

  lemma EndsNobody(s: State, step: Step, p: nat)
    requires Inv(s) && Enabled(s, step) && p < NBPROC && s.procs[p].status.WaitChild? && Ended(s, step) == NOPID
    ensures var b := Do(s, step).s.procs[p]; b.status.WaitChild? && b.frame == s.procs[p].frame
  {
    hide Do, Core, Touched, Ended;
    DoGentle(s, step);
    var m := Do(s, step).s;
    assert Undisturbed(s.procs[p], m.procs[p], p == ParentOf(s, NOPID), p == NOPID, p == Taken(s, step));
  }

  /**
   The end of a child wakes a process blocked in waitpid exactly when it waits for any child or for that one, and
   then leaves the child's pid in its slot; no other step wakes it.
   */
  lemma WokenExactly(s: State, step: Step, p: nat)
    requires Inv(s) && Enabled(s, step) && p < NBPROC && s.procs[p].status.WaitChild? && Ended(s, step) != p
    ensures var c, w, b := Ended(s, step), s.procs[p].frame, Next(s, step).procs[p];
      && w.InWaitpid? && b.status.Alive()
      && (!b.status.WaitChild? <==> LiveChild(s, p, c) && (w.child == NOPID || w.child == c))
      && b.frame == if b.status.WaitChild? then w else InWaitpid(c)
  {
    assert WaitOk(s, p);
    hide Core, Do, Finish, Ended;
    DoWakes(s, step, p);
    DoKeeps(s, step);
    var m := Do(s, step);
    FinishKeeps(m);
    assert Rotated(m.s.procs[p], Finish(m).procs[p], m.s.clock);
  }

  // ---- Waiting in vain ----

  /** Blocked in waitpid for a pid below -1, one step later: still so, unless that step ended it. */
  lemma WaitsInVainOn(s: State, step: Step, p: nat)
    requires Inv(s) && Enabled(s, step) && p < NBPROC && WaitsInVain(s.procs[p])
    ensures WaitsInVain(Next(s, step).procs[p]) || Ended(s, step) == p
  {
    hide Core, Next, Ended;
    if Ended(s, step) != p { WokenExactly(s, step, p); }
  }

  /** Some step of the run ends `p`. */
  ghost predicate EndedAlong(s: State, steps: seq<Step>, p: nat)
    requires Shape(s)
    decreases |steps|
  {
    steps != [] && (Ended(s, steps[0]) == p || EndedAlong(Next(s, steps[0]), steps[1..], p))
  }

  /** A process that waits in vain does so for ever, or until it is ended. */
  lemma {:induction false} WaitsInVainForever(s: State, steps: seq<Step>, p: nat)
    requires Inv(s) && ValidRun(s, steps) && p < NBPROC && WaitsInVain(s.procs[p])
    ensures WaitsInVain(Run(s, steps).procs[p]) || EndedAlong(s, steps, p)
    decreases |steps|
  {
    hide Core, ActiveRuns, Next, Ended, WaitsInVain;
    if steps != [] {
      WaitsInVainOn(s, steps[0], p);
      NextKeeps(s, steps[0]);
      if Ended(s, steps[0]) != p {
        WaitsInVainForever(Next(s, steps[0]), steps[1..], p);
      }
    }
  }

  // ---- How to get there ----

  const LAUNCH := DoStart(User(true), 4000, 1)

  /** Same parent, priority and frame, and at the same stage of life. */
  ghost predicate Alike(a: Proc, b: Proc) {
    b == a.(status := b.status, stamp := b.stamp) && (a.status.Dead? <==> b.status.Dead?) && (a.status.Zombie? <==> b.status.Zombie?)
  }

  lemma FinishAlike(a: Act, q: nat)
    requires Good(a) && q < NBPROC
    ensures Alike(a.s.procs[q], Finish(a).procs[q])
  {
    hide Finish, Core;
    FinishKeeps(a);
    assert Rotated(a.s.procs[q], Finish(a).procs[q], a.s.clock);
  }

  /** What starting a process does, up to scheduling. */
  lemma Started(s: State)
    requires Inv(s) && On(s, Free) != [] && s.procs[s.active].frame == NoCall
    ensures var n, t := On(s, Free)[0], Next(s, LAUNCH);
      && Enabled(s, LAUNCH) && Inv(t) && Settled(t) && s.procs[n].status.Dead?
      && t.procs[n].parent == s.active && t.procs[n].prio == 1 && t.procs[n].frame == NoCall && t.procs[n].status.Alive()
      && (t.procs[n].status.Runnable? || t.active == n)
      && (forall q | 0 <= q < NBPROC && q != n :: Alike(s.procs[q], t.procs[q]))
  {
    StartProcs(s, User(true), 4000, 1);
    var m := Do(s, LAUNCH);
    var n := On(s, Free)[0];
    assert Enabled(s, LAUNCH) && m == ThenFix(StartBackground(s, User(true), 4000, 1));
    hide Core, StartBackground, Finish, Do, Enabled;
    NextKeeps(s, LAUNCH);
    DoKeeps(s, LAUNCH);
    StartedEnds(m, n);
    forall q | 0 <= q < NBPROC && q != n ensures Alike(s.procs[q], Finish(m).procs[q]) {
      FinishAlike(m, q);
    }
  }

  lemma StartedEnds(m: Act, n: nat)
    requires Good(m) && m.ThenFix? && n < NBPROC && m.s.procs[n].status.Runnable?
    ensures var t := Finish(m); Settled(t) && Alike(m.s.procs[n], t.procs[n]) && t.procs[n].status.Alive()
    ensures var t := Finish(m); t.procs[n].status.Runnable? || t.active == n
  {
    hide Core, Finish;
    FinishKeeps(m);
    FinishAlike(m, n);
    assert Rotated(m.s.procs[n], Finish(m).procs[n], m.s.clock);
    if Finish(m).procs[n].status.Running? { RunningIsActive(Finish(m), n); }
  }

  lemma RunningIsActive(s: State, n: nat)
    requires Inv(s) && n < NBPROC && s.procs[n].status.Running?
    ensures s.active == n
  {
  }

  lemma AtBoot()
    ensures var s := Initial();
      && s.active == 0 && On(s, Free) != [] && On(s, Free)[0] == 1 && s.procs[0].frame == NoCall && Inv(s) && Settled(s)
      && forall q | 0 <= q < NBPROC :: s.procs[q].prio == 0 && !s.procs[q].status.Zombie? && (q > 0 ==> s.procs[q].status.Dead?)
  {
    InitialHolds();
  }

  /** The first process started after boot takes the processor from idle. */
  lemma FirstStart() returns (t: State)
    ensures Enabled(Initial(), LAUNCH) && t == Next(Initial(), LAUNCH)
    ensures Inv(t) && t.active == 1 && t.procs[1].frame == NoCall && t.procs[1].prio == 1 && t.procs[2].status.Dead?
    ensures forall q | 0 <= q < NBPROC :: t.procs[q].prio <= 1 && !t.procs[q].status.Zombie?
  {
    AtBoot();
    var s := Initial();
    hide Core, Initial, Next;
    Started(s);
    t := Next(s, LAUNCH);
    assert Alike(s.procs[2], t.procs[2]);
    forall q | 0 <= q < NBPROC ensures t.procs[q].prio <= 1 && !t.procs[q].status.Zombie? && (q != 1 ==> t.procs[q].prio == 0) {
      assert q != 1 ==> Alike(s.procs[q], t.procs[q]);
    }
  }

  /** A process that is dead is on the free stack. */
  lemma DeadIsFree(s: State, q: nat)
    requires Inv(s) && q < NBPROC && s.procs[q].status.Dead?
    ensures On(s, Free) != []
  {
    assert q in On(s, Free);
  }

  /** A process of the only priority above idle's keeps the processor when it starts another. */
  lemma SecondStart(t: State) returns (u: State)
    requires Inv(t) && t.active == 1 && t.procs[1].frame == NoCall && t.procs[1].prio == 1 && t.procs[2].status.Dead?
    requires forall q | 0 <= q < NBPROC :: t.procs[q].prio <= 1 && !t.procs[q].status.Zombie?
    ensures Enabled(t, LAUNCH) && u == Next(t, LAUNCH) && Inv(u) && u.active == 1 && u.procs[1].frame == NoCall
    ensures exists c | 0 <= c < NBPROC :: IsChild(u, 1, c)
    ensures forall q | 0 <= q < NBPROC :: !u.procs[q].status.Zombie?
  {
    DeadIsFree(t, 2);
    Started(t);
    u := Next(t, LAUNCH);
    var n := On(t, Free)[0];
    StartStays(t, 1);
    assert IsChild(u, 1, n);
    hide Core, Next;
    forall q | 0 <= q < NBPROC ensures !u.procs[q].status.Zombie? {
      assert q != n ==> Alike(t.procs[q], u.procs[q]);
    }
    assert n != 1 ==> Alike(t.procs[1], u.procs[1]);
  }

  /** Starting a process that does not outrank the active one does not take the processor from it. */
  lemma StartStays(s: State, prio: int)
    requires Inv(s) && On(s, Free) != [] && prio <= s.procs[s.active].prio
    requires forall q | 0 <= q < NBPROC :: s.procs[q].prio <= s.procs[s.active].prio
    ensures Next(s, DoStart(User(true), 4000, prio)).active == s.active
  {
    hide Core, StartBackground, Tick;
    assert Structure(s) && ActiveRuns(s) by { CoreParts(s); }
    StartProcs(s, User(true), 4000, prio);
    StartActive(s, User(true), 4000, prio);
    var t, n := StartBackground(s, User(true), 4000, prio), On(s, Free)[0];
    hide Structure;
    assert n != s.active;
    var run := On(t, RunQueue);
    assert run != [] ==> run[0] < NBPROC && t.procs[run[0]].prio <= t.procs[t.active].prio;
    assert Fix(t) == t;
  }

  lemma WaitBelow(u: State) returns (v: State)
    requires Inv(u) && u.active == 1 && u.procs[1].frame == NoCall && exists c | 0 <= c < NBPROC :: IsChild(u, 1, c)
    requires forall q | 0 <= q < NBPROC :: !u.procs[q].status.Zombie?
    ensures Enabled(u, DoWaitpid(-2)) && v == Next(u, DoWaitpid(-2)) && WaitsInVain(v.procs[1])
  {
    hide Core, Finish, Do;
    var step := DoWaitpid(-2);
    var m := Do(u, step);
    BlocksBelow(u);
    DoKeeps(u, step);
    FinishKeeps(m);
    v := Next(u, step);
    assert Rotated(m.s.procs[1], v.procs[1], m.s.clock);
  }

  lemma BlocksBelow(u: State)
    requires Shape(u) && u.active == 1 && u.procs[1].frame == NoCall && exists c | 0 <= c < NBPROC :: IsChild(u, 1, c)
    requires forall q | 0 <= q < NBPROC :: !u.procs[q].status.Zombie?
    ensures Enabled(u, DoWaitpid(-2)) && WaitsInVain(Do(u, DoWaitpid(-2)).s.procs[1])
  {
    hide Move;
  }

  lemma RunStep(s: State, step: Step, rest: seq<Step>)
    requires Shape(s)
    ensures ValidRun(s, [step] + rest) <==> Enabled(s, step) && ValidRun(Next(s, step), rest)
    ensures Run(s, [step] + rest) == Run(Next(s, step), rest)
  {
    hide Next, Enabled;
    assert ([step] + rest)[1..] == rest;
  }

  const INTO_VAIN := [LAUNCH] + ([LAUNCH] + ([DoWaitpid(-2)] + []))

  /** From boot: start a process, let it start another, and let it wait for pid -2. */
  lemma VainIsReached()
    ensures ValidRun(Initial(), INTO_VAIN) && WaitsInVain(Run(Initial(), INTO_VAIN).procs[1])
  {
    hide Core, Initial, Next, Enabled, Run, ValidRun, WaitsInVain;
    var t := FirstStart();
    var u := SecondStart(t);
    var v := WaitBelow(u);
    RunStep(Initial(), LAUNCH, [LAUNCH] + ([DoWaitpid(-2)] + []));
    RunStep(t, LAUNCH, [DoWaitpid(-2)] + []);
    RunStep(u, DoWaitpid(-2), []);
    RunNone(v);
  }

  lemma RunNone(s: State)
    requires Shape(s)
    ensures ValidRun(s, []) && Run(s, []) == s
  {
  }
}
