/** What a process leaves behind when it ends, how long it sleeps, and where its priority and its queues come from. */
module KernelLives {
  import opened KernelState
  import opened KernelSpec
  import opened KernelPlaces
  import opened KernelScheduling
  import opened KernelFamily
  import opened KernelInvariant
  import opened KernelTheorems
  import opened KernelWaking
  import opened KernelChoice
  import opened KernelEffects
  import opened KernelCalls

  // ---- Ends ----

  /** What a process ended by the step leaves for its parent. */
  function Legacy(step: Step): int { if step.DoExit? then step.retval else 0 }

  lemma EndedIs(s: State, step: Step)
    requires Shape(s) && Ended(s, step) != NOPID && Enabled(s, step)
    ensures var e := Ended(s, step); 0 <= e < NBPROC && s.procs[e].status.Alive() && (step.DoExit? || step.DoKill?)
    ensures var e := Ended(s, step); StatusAfter(s, step, e) == if s.procs[e].parent == NOPID then Dead else Zombie(Legacy(step))
  {
    hide Shape, Look, StackFits;
  }

  /** A process that ends leaves its exit status, or 0 if it is killed, as a zombie, if it has a parent; else its slot is free. */
  lemma EndDoes(s: State, step: Step)
    requires Inv(s) && Enabled(s, step) && Ended(s, step) != NOPID
    ensures var e := Ended(s, step); var a, b := s.procs[e], Next(s, step).procs[e];
      b.status == if a.parent == NOPID then Dead else Zombie(Legacy(step))
  {
    hide Core, Next, StatusAfter, FrameAfter, ParentAfter, PrioAfter, QueueAfter, Events;
    EndedIs(s, step);
    NextFields(s, step, Ended(s, step));
  }

  lemma ZombieAfter(s: State, step: Step, c: nat)
    requires Shape(s) && Structure(s) && Enabled(s, step) && c < NBPROC && s.procs[c].status.Zombie? && s.procs[s.active].status.Running?
    ensures StatusAfter(s, step, c) == if Reaped(s, step) == c || IsOrphaned(s, step, c) then Dead else s.procs[c].status
  {
    NotStarted(s, step, c);
    if Receiver(s, step) == c { HeadPlace(s, Receivers(step.fid)); }
    if Sender(s, step) == c { HeadPlace(s, Senders(step.fid)); }
    if Ended(s, step) == c { EndedIs(s, step); }
    hide Starts, Receiver, Sender, Reaped, Ended, IsOrphaned, Structure, Blocks, Shape;
  }

  lemma NotStarted(s: State, step: Step, c: nat)
    requires Shape(s) && Structure(s) && c < NBPROC && !s.procs[c].status.Dead?
    ensures Starts(s, step) != c
  {
    if On(s, Free) != [] { HeadPlace(s, Free); }
  }

  /** A zombie stays as it is until its parent reaps it, or ends. */
  lemma ZombieStays(s: State, step: Step, c: nat)
    requires Inv(s) && Enabled(s, step) && c < NBPROC && s.procs[c].status.Zombie?
    ensures Next(s, step).procs[c].status == if Reaped(s, step) == c || IsOrphaned(s, step, c) then Dead else s.procs[c].status
  {
    hide Core, Next, StatusAfter, FrameAfter, ParentAfter, PrioAfter, QueueAfter, Events, Structure, Kin, Enabled;
    InvKin(s);
    NextFields(s, step, c);
    ZombieAfter(s, step, c);
  }

  /** Who becomes a zombie is who is ended. */
  lemma OnlyEnded(s: State, step: Step, c: nat)
    requires Inv(s) && Enabled(s, step) && c < NBPROC && !s.procs[c].status.Zombie? && Next(s, step).procs[c].status.Zombie?
    ensures Ended(s, step) == c
  {
    hide Core, Next, StatusAfter, FrameAfter, ParentAfter, PrioAfter, QueueAfter, Events, Enabled;
    NextFields(s, step, c);
    BecomesZombie(s, step, c);
  }

  lemma BecomesZombie(s: State, step: Step, c: nat)
    requires Shape(s) && c < NBPROC && !s.procs[c].status.Zombie? && StatusAfter(s, step, c).Zombie?
    ensures Ended(s, step) == c
  {
    hide Starts, Receiver, Sender, Reaped, Ended, IsOrphaned, Bereaved, Flushed, Blocks, Shape;
  }

  /** What `c` left when it was last ended in the run; `v` if it was not. */
  function Left(s: State, steps: seq<Step>, c: nat, v: int): int
    requires Shape(s)
    decreases |steps|
  {
    if steps == [] then v else Left(Next(s, steps[0]), steps[1..], c, if Ended(s, steps[0]) == c then Legacy(steps[0]) else v)
  }

  /** Over every run, a zombie holds what it was last ended with. */
  lemma {:induction false} ZombieTells(s: State, steps: seq<Step>, c: nat, v: int)
    requires Inv(s) && ValidRun(s, steps) && c < NBPROC && (s.procs[c].status.Zombie? ==> s.procs[c].status.retval == v)
    ensures var st := Run(s, steps).procs[c].status; st.Zombie? ==> st.retval == Left(s, steps, c, v)
    decreases |steps|
  {
    hide Core, ActiveRuns, Next, Ended, Enabled, Legacy, Reaped, IsOrphaned;
    if steps != [] {
      var step, t := steps[0], Next(s, steps[0]);
      NextKeeps(s, step);
      if Ended(s, step) == c {
        EndDoes(s, step);
      } else if s.procs[c].status.Zombie? {
        ZombieStays(s, step, c);
      } else if t.procs[c].status.Zombie? {
        OnlyEnded(s, step, c);
      }
      ZombieTells(t, steps[1..], c, if Ended(s, step) == c then Legacy(step) else v);
    }
  }

  /** What waitpid returns for a child, at once or after waiting, is what the child was last ended with. */
  lemma WaitpidTells(steps: seq<Step>, pid: int)
    requires ValidRun(Initial(), steps)
    ensures var s := Run(Initial(), steps); var c := Reaped(s, DoWaitpid(pid));
      c != NOPID ==> 0 <= c < NBPROC && s.procs[c].status == Zombie(Left(Initial(), steps, c, 0))
    ensures var s := Run(Initial(), steps); var c := Reaped(s, DoResume);
      c != NOPID ==> 0 <= c < NBPROC && s.procs[c].status == Zombie(Left(Initial(), steps, c, 0))
  {
    InitialHolds();
    NoZombies();
    Reachable(steps);
    hide Run, ValidRun, Initial, Left, Look;
    var s := Run(Initial(), steps);
    var c := Reaped(s, DoWaitpid(pid));
    if c != NOPID { ZombieTells(Initial(), steps, c, 0); }
    var d := Reaped(s, DoResume);
    if d != NOPID {
      InvKin(s);
      hide Core;
      WokenChild(s);
      ZombieTells(Initial(), steps, d, 0);
    }
  }

  lemma NoZombies()
    ensures forall c | 0 <= c < NBPROC :: !Initial().procs[c].status.Zombie?
  {
  }

  // ---- Sleep ----

  /** A wait_clock for a time to come puts its caller to sleep until then; any other lets it go on. */
  lemma WaitClockDoes(s: State, c: nat)
    requires Inv(s) && Enabled(s, DoWaitClock(c))
    ensures var st := Next(s, DoWaitClock(c)).procs[s.active].status;
      if c > s.clock then st == Asleep(c) else st.Runnable? || st.Running?
  {
    var step, a := DoWaitClock(c), s.active;
    hide Core, Kin, Next, StatusAfter, Exact, Chosen, Enabled, Do, Structure;
    InvKin(s);
    SleepTicks(s, c);
    SleepAfter(s, c);
    NextExactly(s, step);
    var m, t := KernelSpec.Do(s, step).s, Next(s, step);
    ExactStatus(s, step, m, a);
    ChosenStatus(m, t, a);
  }

  lemma SleepTicks(s: State, c: nat)
    requires Shape(s)
    ensures Reschedules(s, DoWaitClock(c))
  {
    hide Move;
  }

  lemma ChosenStatus(m: State, t: State, p: nat)
    requires Shape(m) && Shape(t) && Chosen(m, t) && p < NBPROC && m.procs[p].status.Asleep?
    ensures var st := t.procs[p].status; if Due(m, p) then st.Runnable? || st.Running? else st == m.procs[p].status
  {
    hide GoesOn, Sooner;
    assert t.procs[p].status == Turned(m, t.active, p);
    if t.active == p && !Due(m, p) { NotCandidate(m, p); }
  }

  lemma NotCandidate(m: State, p: nat)
    requires Shape(m) && p < NBPROC && m.procs[p].status.Asleep? && !Due(m, p)
    ensures !Candidate(m, p) && (GoesOn(m) ==> m.active != p)
  {
  }

  lemma ExactStatus(s: State, step: Step, m: State, p: nat)
    requires Shape(s) && Shape(m) && Exact(s, step, m) && p < NBPROC
    ensures m.procs[p].status == StatusAfter(s, step, p) && m.clock == ClockAfter(s, step) && m.active == s.active
  {
    hide StatusAfter, FrameAfter, ParentAfter, PrioAfter, Refiled, QueueAfter, Events;
    assert Became(s, step, p, m.procs[p]);
  }

  lemma SleepAfter(s: State, c: nat)
    requires Shape(s) && Structure(s) && s.procs[s.active].status.Running?
    ensures StatusAfter(s, DoWaitClock(c), s.active) == Asleep(c)
  {
    NotStarted(s, DoWaitClock(c), s.active);
    hide Structure;
  }

  /** The clock stays below `c` throughout the run. */
  predicate Below(s: State, steps: seq<Step>, c: nat)
    requires Shape(s)
    decreases |steps|
  {
    s.clock < c && (steps == [] || Below(Next(s, steps[0]), steps[1..], c))
  }

  /** As long as the clock stays below its time, a sleeper sleeps, unless it is ended. */
  lemma {:induction false} SleepsOn(s: State, steps: seq<Step>, p: nat, c: nat)
    requires Inv(s) && ValidRun(s, steps) && p < NBPROC && s.procs[p].status == Asleep(c) && Below(s, steps, c)
    ensures Run(s, steps).procs[p].status == Asleep(c) || EndedAlong(s, steps, p)
    decreases |steps|
  {
    hide Core, ActiveRuns, Next, Ended, Enabled;
    if steps != [] {
      NotWokenEarly(s, steps[0], p);
      NextKeeps(s, steps[0]);
      if Ended(s, steps[0]) != p { SleepsOn(Next(s, steps[0]), steps[1..], p, c); }
    }
  }

  /** From a wait_clock on, its caller sleeps as long as the clock stays below the time it gave, unless it is ended. */
  lemma WaitClockSleeps(s: State, steps: seq<Step>, c: nat)
    requires Inv(s) && Enabled(s, DoWaitClock(c)) && ValidRun(Next(s, DoWaitClock(c)), steps) && c > s.clock
    requires Below(Next(s, DoWaitClock(c)), steps, c)
    ensures var t := Next(s, DoWaitClock(c)); Run(t, steps).procs[s.active].status == Asleep(c) || EndedAlong(t, steps, s.active)
  {
    hide Core, Next, Enabled, Run, ValidRun, EndedAlong, Below;
    NextKeeps(s, DoWaitClock(c));
    WaitClockDoes(s, c);
    SleepsOn(Next(s, DoWaitClock(c)), steps, s.active, c);
  }

  // ---- Clock ----

  function Clocks(steps: seq<Step>): nat {
    if steps == [] then 0 else (if steps[0].DoClock? then 1 else 0) + Clocks(steps[1..])
  }

  /** The clock counts the clock interrupts, and nothing else moves it. */
  lemma {:induction false} ClockCounts(s: State, steps: seq<Step>)
    requires Inv(s) && ValidRun(s, steps) && s.clock < CLOCKWRAP
    ensures Run(s, steps).clock == (s.clock + Clocks(steps)) % CLOCKWRAP
    decreases |steps|
  {
    hide Core, ActiveRuns, Next, Enabled;
    if steps != [] {
      ClockNext(s, steps[0]);
      NextKeeps(s, steps[0]);
      ClockCounts(Next(s, steps[0]), steps[1..]);
    }
  }

  lemma ClockNext(s: State, step: Step)
    requires Inv(s) && Enabled(s, step) && s.clock < CLOCKWRAP
    ensures Next(s, step).clock == (s.clock + if step.DoClock? then 1 else 0) % CLOCKWRAP
  {
    hide Core, Next, StatusAfter, FrameAfter, ParentAfter, PrioAfter, QueueAfter, Events, Enabled;
    NextFields(s, step, 0);
  }

  // ---- Priorities and queues ----

  /** The priority of a process is the one it was started with, or last given by an accepted chprio. */
  lemma PrioExactly(s: State, step: Step, p: nat)
    requires Inv(s) && Enabled(s, step) && p < NBPROC
    ensures Next(s, step).procs[p].prio ==
      if Starts(s, step) == p then step.prio
      else if step.DoChprio? && step.pid == p && AlivePid(s, p) && 0 < step.prio <= MAXPRIO then step.prio
      else s.procs[p].prio
  {
    hide Core, Next, StatusAfter, FrameAfter, ParentAfter, QueueAfter, Events, Enabled, Starts;
    NextFields(s, step, p);
  }

  /** A queue that is made holds nothing and has room for what was asked. */
  lemma PCreateDoes(s: State, count: int)
    requires Inv(s) && Enabled(s, DoPCreate(count, true)) && 0 < count <= MAXCAPACITY && FreeQueue(s, 0) < NBQUEUE
    ensures var f, t := FreeQueue(s, 0), Next(s, DoPCreate(count, true));
      && !Occupied(s, f) && (forall g | 0 <= g < f :: Occupied(s, g))
      && t.queues == s.queues[f := Queue(count, [])] && On(t, Receivers(f)) == [] && On(t, Senders(f)) == []
  {
    var f, step := FreeQueue(s, 0), DoPCreate(count, true);
    NobodyWaits(s, f);
    CreateLists(s, count);
    hide Core, Next, StatusAfter, FrameAfter, ParentAfter, PrioAfter, Events, Enabled, FreeQueue;
    NextFields(s, step, 0);
    OnlyQueue(s, Next(s, step), f, QueueAfter(s, step, f));
  }

  lemma NobodyWaits(s: State, f: nat)
    requires Inv(s) && f < NBQUEUE && s.queues[f].capacity == 0
    ensures On(s, Receivers(f)) == [] && On(s, Senders(f)) == []
  {
    hide Core;
    WaitersOf(s, f);
  }

  lemma CreateLists(s: State, count: int)
    requires Shape(s)
    ensures forall pl :: On(Next(s, DoPCreate(count, true)), pl) == On(s, pl)
  {
    hide FreeQueue;
  }

  /** The stacks that can be asked for: less than 1025 words in the kernel, at most 2^30 bytes for a program. */
  lemma StackLimits(ssize: nat, memory: bool)
    ensures StackFits(InKernel, ssize) <==> ssize < 4100
    ensures StackFits(User(memory), ssize) <==> ssize <= 0x4000_0000
  {
  }

  /** What waitpid finds, from its argument alone. */
  lemma LookExactly(s: State, pid: int)
    requires Shape(s)
    ensures Look(s, pid).NoSuchPid? <==> pid >= NBPROC || (pid >= 0 && !s.procs[pid].status.Alive() && !s.procs[pid].status.Zombie?)
    ensures pid >= 0 ==> (Look(s, pid) == Reapable(pid) <==> ZombieOf(s, s.active, pid)) && (Look(s, pid).MustWait? <==> LiveChild(s, s.active, pid))
    ensures pid < 0 ==> (Look(s, pid).Reapable? <==> exists c :: ZombieOf(s, s.active, c))
    ensures pid < 0 ==> (Look(s, pid).MustWait? <==> (exists c :: LiveChild(s, s.active, c)) && !exists c :: ZombieOf(s, s.active, c))
    ensures pid < 0 && Look(s, pid).Reapable? ==> ZombieOf(s, s.active, Look(s, pid).child)
    ensures pid < 0 && Look(s, pid).Reapable? ==> forall c | 0 <= c < Look(s, pid).child :: !ZombieOf(s, s.active, c)
  {
    if pid < 0 {
      var k := ZombieChild(s, s.active, 0);
      if k < NBPROC { assert ZombieOf(s, s.active, k); }
      forall c ensures IsChild(s, s.active, c) <==> LiveChild(s, s.active, c) || ZombieOf(s, s.active, c) {}
      hide IsChild, LiveChild, Shape;
      assert (exists c | 0 <= c < NBPROC :: IsChild(s, s.active, c)) <==> exists c :: LiveChild(s, s.active, c) || ZombieOf(s, s.active, c) by {
        OnlyPids(s);
      }
    }
  }

  lemma OnlyPids(s: State)
    requires Shape(s)
    ensures (exists c | 0 <= c < NBPROC :: IsChild(s, s.active, c)) <==> exists c :: LiveChild(s, s.active, c) || ZombieOf(s, s.active, c)
  {
    if c :| LiveChild(s, s.active, c) || ZombieOf(s, s.active, c) { assert IsChild(s, s.active, c); }
    if c :| 0 <= c < NBPROC && IsChild(s, s.active, c) { assert LiveChild(s, s.active, c) || ZombieOf(s, s.active, c); }
  }
}
