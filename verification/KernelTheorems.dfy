/** What the invariant means for whole runs: places, messages, order of wake-ups, waitpid, sleepers and priorities. */
module KernelTheorems {
  import opened KernelState
  import opened KernelSpec
  import opened KernelPlaces
  import opened KernelScheduling
  import opened KernelFamily
  import opened KernelMail
  import opened KernelInvariant

  // ---- Reachable states ----

  lemma Reachable(steps: seq<Step>)
    requires ValidRun(Initial(), steps)
    ensures Inv(Run(Initial(), steps))
  {
    hide Inv;
    InitialHolds();
    RunKeeps(Initial(), steps);
  }

  /** In every reachable state each process is on the one list its state names, once, and on no other. */
  lemma OnePlaceEach(steps: seq<Step>, pl: Place, p: nat)
    requires ValidRun(Initial(), steps) && p < NBPROC
    ensures var s := Run(Initial(), steps);
      && (p in On(s, pl) <==> pl != Nowhere && s.procs[p].status.Place() == pl)
      && (forall i, j | 0 <= i < j < |On(s, pl)| :: On(s, pl)[i] != On(s, pl)[j])
      && (s.procs[p].status.Running? <==> p == s.active)
  {
    Reachable(steps);
    var s := Run(Initial(), steps);
    hide Run, ValidRun, Kin, Mail;
    assert Sorted(s.procs, pl, On(s, pl));
    SortedNoDup(s.procs, pl, On(s, pl));
  }

  /** Between resets, what went into a queue is what came out of it followed by what it holds. */
  lemma FirstInFirstOut(steps: seq<Step>, f: nat)
    requires ValidRun(Initial(), steps) && f < NBQUEUE
    ensures var s := Run(Initial(), steps); Ins(s.log, f) == Outs(s.log, f) + s.queues[f].buf
  {
    Reachable(steps);
    var s := Run(Initial(), steps);
    hide Run, ValidRun, Structure, Kin;
    assert QueueOk(s.queues[f], f, s.log);
  }

  /** Receivers wait only at an empty queue, senders only at a full one, and nobody at a free slot. */
  lemma WaitersHaveReason(steps: seq<Step>, f: nat)
    requires ValidRun(Initial(), steps) && f < NBQUEUE
    ensures var s := Run(Initial(), steps); var q := s.queues[f];
      && |q.buf| <= q.capacity
      && (On(s, Receivers(f)) != [] ==> q.buf == [] && q.capacity > 0)
      && (On(s, Senders(f)) != [] ==> |q.buf| == q.capacity && q.capacity > 0)
      && (On(s, Receivers(f)) == [] || On(s, Senders(f)) == [])
  {
    hide Run, ValidRun, Inv, Initial;
    Reachable(steps);
    WaitersOf(Run(Initial(), steps), f);
  }

  lemma WaitersOf(s: State, f: nat)
    requires Inv(s) && f < NBQUEUE
    ensures var q := s.queues[f];
      && |q.buf| <= q.capacity
      && (On(s, Receivers(f)) != [] ==> q.buf == [] && q.capacity > 0)
      && (On(s, Senders(f)) != [] ==> |q.buf| == q.capacity && q.capacity > 0)
      && (On(s, Receivers(f)) == [] || On(s, Senders(f)) == [])
  {
    hide Kin, Tidy;
    assert QueueOk(s.queues[f], f, s.log);
    OnList(s, f);
    var r, w := On(s, Receivers(f)), On(s, Senders(f));
    if r != [] {
      assert r[0] in r;
      assert CallOk(s.procs[r[0]], r[0], s.queues, s.log);
    }
    if w != [] {
      assert w[0] in w;
      assert CallOk(s.procs[w[0]], w[0], s.queues, s.log);
    }
  }

  /**
   A queue call that blocked and is about to return gives 0 exactly when its message moved,
   exactly once and unaltered, and -1 exactly when the queue was reset or deleted under it.
   */
  lemma BlockedCallOutcome(steps: seq<Step>)
    requires ValidRun(Initial(), steps)
    ensures var s := Run(Initial(), steps); var q := s.procs[s.active];
      var calls := CallLog(s.log, q.since, s.active);
      && (q.frame.InSend? ==>
            && (q.frame.retval == 0 <==> calls == [Accepted(q.frame.fid, s.active, q.frame.message)])
            && (q.frame.retval == -1 <==> calls == [Aborted(q.frame.fid, s.active)])
            && (q.frame.retval == 0 || q.frame.retval == -1))
      && (q.frame.InReceive? ==>
            && (q.frame.retval == 0 <==> exists v :: calls == [Delivered(q.frame.fid, s.active, v)]
                                           && (q.frame.cell == NullCell || q.frame.cell == Written(v)))
            && (q.frame.retval == -1 <==> calls == [Aborted(q.frame.fid, s.active)])
            && (q.frame.retval == 0 || q.frame.retval == -1))
  {
    Reachable(steps);
    var s := Run(Initial(), steps);
    hide Run, ValidRun, Kin, Tidy;
    var q := s.procs[s.active];
    assert CallOk(q, s.active, s.queues, s.log);
    if q.frame.InReceive? && q.frame.retval == 0 {
      var calls := CallLog(s.log, q.since, s.active);
      assert calls == [Delivered(q.frame.fid, s.active, calls[0].val)];
    }
  }

  /** A waitpid that blocked and is about to return has an unreaped zombie child in its slot. */
  lemma WaitpidOutcome(steps: seq<Step>)
    requires ValidRun(Initial(), steps)
    ensures var s := Run(Initial(), steps); var q := s.procs[s.active];
      q.frame.InWaitpid? ==> ZombieOf(s, s.active, q.frame.child)
  {
    Reachable(steps);
    var s := Run(Initial(), steps);
    hide Run, ValidRun, Mail, Tidy;
    if s.procs[s.active].frame.InWaitpid? {
      WokenChild(s);
    }
  }

  /**
   No wake-up is lost: a process blocked in waitpid has a live child to wait for and no zombie to miss,
   exactly unless it waits for a pid below -1.
   */
  lemma NoLostWakeup(steps: seq<Step>, p: nat)
    requires ValidRun(Initial(), steps) && p < NBPROC
    ensures var s := Run(Initial(), steps); var q := s.procs[p];
      && (q.status.WaitChild? ==> q.frame.InWaitpid? && (CanBeWoken(s, p, q.frame.child) <==> q.frame.child >= NOPID))
      && (q.status.Zombie? ==> LivePid(s, q.parent))
      && (q.status.Alive() ==> q.parent == NOPID || LivePid(s, q.parent))
  {
    Reachable(steps);
    var s := Run(Initial(), steps);
    hide Run, ValidRun, Mail, Tidy;
    assert ParentOk(s, p) && WaitOk(s, p);
  }

  /** The process that is woken first has the highest priority, and was placed first among equals. */
  lemma FirstIsBest(steps: seq<Step>, pl: Place, p: nat)
    requires ValidRun(Initial(), steps) && (pl == RunQueue || pl.Receivers? || pl.Senders?)
    requires p in On(Run(Initial(), steps), pl)
    ensures var s := Run(Initial(), steps); var h := On(s, pl)[0];
      && s.procs[p].prio <= s.procs[h].prio
      && (s.procs[p].prio == s.procs[h].prio && p != h ==> s.procs[h].stamp < s.procs[p].stamp)
  {
    Reachable(steps);
    var s := Run(Initial(), steps);
    hide Run, ValidRun, Kin, Mail, Placed;
    var l := On(s, pl);
    assert Sorted(s.procs, pl, l);
    var i := IndexOf(l, p);
    assert i > 0 ==> Before(s.procs, pl, l[0], l[i]);
  }

  // ---- What one step may do to a process ----

  /** A process only changes state, or its rank in a list, when it is placed anew. */
  ghost predicate Touched(a: Proc, b: Proc, now: nat) {
    || b.stamp >= now
    || (b.stamp == a.stamp && b.status == a.status && (b.prio == a.prio || !OrderedByPriority(a.status)))
  }

  /** Blocked in a waitpid that no child can end. */
  ghost predicate WaitsInVain(q: Proc) {
    q.status.WaitChild? && q.frame.InWaitpid? && q.frame.child < NOPID
  }

  ghost predicate Undisturbed(a: Proc, b: Proc, awaited: bool, ended: bool, taken: bool) {
    && (b.status.Lost? <==> a.status.Lost? || taken)
    && (a.status.Asleep? || WaitsInVain(a) || (a.status.WaitChild? && !awaited) ==>
          (b.status == a.status && b.frame == a.frame) || (ended && !b.status.Alive()))
  }

  /**
   Sleepers and processes in waitpid are left alone, but for the parent of the process `e` that is ended, and `e`.
   No slot is lost but `l`.
   */
  ghost predicate Gentle(s: State, t: State, e: int, l: int)
    requires Shape(s) && Shape(t)
  {
    && s.now <= t.now
    && (forall q | 0 <= q < NBPROC ::
          && Touched(s.procs[q], t.procs[q], s.now)
          && Undisturbed(s.procs[q], t.procs[q], q == ParentOf(s, e), q == e, q == l))
  }

  function ParentOf(s: State, pid: int): int
    requires Shape(s)
  {
    if 0 <= pid < NBPROC then s.procs[pid].parent else NOPID
  }

  lemma GentleTrans(s: State, t: State, u: State, e: int)
    requires Shape(s) && Shape(t) && Shape(u) && Gentle(s, t, NOPID, NOPID) && Gentle(t, u, e, NOPID) && ParentOf(s, e) == ParentOf(t, e)
    ensures Gentle(s, u, e, NOPID)
  {
    forall q | 0 <= q < NBPROC
      ensures Touched(s.procs[q], u.procs[q], s.now) && Undisturbed(s.procs[q], u.procs[q], q == ParentOf(s, e), q == e, q == NOPID)
    {
      assert Touched(s.procs[q], t.procs[q], s.now) && Undisturbed(s.procs[q], t.procs[q], q == NOPID, q == NOPID, q == NOPID);
      assert Touched(t.procs[q], u.procs[q], t.now) && Undisturbed(t.procs[q], u.procs[q], q == ParentOf(t, e), q == e, q == NOPID);
    }
  }

  lemma {:induction false} UnbindGentle(s: State, p: nat, i: nat)
    requires Shape(s) && p < NBPROC && i <= NBPROC
    ensures Gentle(s, Unbind(s, p, i), NOPID, NOPID)
    decreases NBPROC - i
  {
    hide Move;
    if i < NBPROC {
      var t := if s.procs[i].parent != p then s
               else if s.procs[i].status.Zombie? then Move(s, i, Dead)
               else SetProc(s, i, s.procs[i].(parent := NOPID));
      UnbindGentle(t, p, i + 1);
      UnbindProcs(t, p, i + 1);
      GentleTrans(s, t, Unbind(t, p, i + 1), NOPID);
    }
  }

  lemma AbortGentle(s: State, pl: Place)
    requires Shape(s) && (pl.Receivers? || pl.Senders?) && On(s, pl) != []
    requires s.procs[On(s, pl)[0]].status.Place() == pl
    ensures Gentle(s, AbortFirst(s, pl), NOPID, NOPID)
    ensures var t := AbortFirst(s, pl); forall q | 0 <= q < NBPROC && !s.procs[q].status.Alive() :: !t.procs[q].status.Alive()
  {
    hide Move;
  }

  lemma {:induction false} WakeAllGentle(s: State, pl: Place)
    requires Shape(s) && (pl.Receivers? || pl.Senders?)
    ensures Gentle(s, WakeAll(s, pl), NOPID, NOPID)
    ensures var t := WakeAll(s, pl); forall q | 0 <= q < NBPROC && !s.procs[q].status.Alive() :: !t.procs[q].status.Alive()
    decreases |On(s, pl)|
  {
    hide AbortFirst, Gentle;
    var l := On(s, pl);
    if l == [] || s.procs[l[0]].status.Place() != pl {
      GentleRefl(s);
    } else {
      var t := AbortFirst(s, pl);
      AbortLists(s, pl);
      AbortGentle(s, pl);
      WakeAllGentle(t, pl);
      GentleTrans(s, t, WakeAll(t, pl), NOPID);
    }
  }

  lemma FlushGentle(s: State, f: nat, q: Queue)
    requires Shape(s) && f < NBQUEUE
    ensures Gentle(s, Flush(s, f, q), NOPID, NOPID)
  {
    hide WakeAll;
    var t := SetQueue(s, f, q, [Cleared(f)]);
    var u := WakeAll(t, Receivers(f));
    WakeAllGentle(t, Receivers(f));
    WakeAllGentle(u, Senders(f));
    GentleTrans(t, u, WakeAll(u, Senders(f)), NOPID);
  }

  /** The process that a step ends, or NOPID. */
  function Ended(s: State, step: Step): int
    requires Shape(s)
  {
    match step
    case DoKill(pid) => if pid > 0 && AlivePid(s, pid) then pid else NOPID
    case DoExit(_) => if AlivePid(s, s.active) then s.active else NOPID
    case _ => NOPID
  }

  /** The slot that a start takes off the free stack and does not use, or NOPID. */
  function Loses(s: State, user: Mode, ssize: nat): int
    requires Shape(s)
  {
    if user == User(false) && StackFits(user, ssize) && On(s, Free) != [] then On(s, Free)[0] else NOPID
  }

  /** The slot that a step loses, or NOPID. */
  function Taken(s: State, step: Step): int
    requires Shape(s)
  {
    if step.DoStart? || step.DoStartBackground? then Loses(s, step.user, step.ssize) else NOPID
  }

  lemma StopGentle(s: State, pid: int, retval: int)
    requires Inv(s)
    ensures Gentle(s, Stop(s, pid, retval).s, if AlivePid(s, pid) then pid else NOPID, NOPID)
  {
    if AlivePid(s, pid) { assert ParentOk(s, pid); }
    hide Move, Core, Unbind;
    if AlivePid(s, pid) {
      var t := Unbind(s, pid, 0);
      UnbindGentle(s, pid, 0);
      UnbindProcs(s, pid, 0);
      assert Unbound(s.procs[pid], t.procs[pid], pid);
      BuryGentle(t, pid, retval);
      GentleTrans(s, t, Bury(t, pid, retval), pid);
    }
  }

  lemma BuryGentle(s: State, p: nat, retval: int)
    requires Shape(s) && p < NBPROC && s.procs[p].status.Alive()
    ensures Gentle(s, Bury(s, p, retval), p, NOPID)
    ensures var t := Bury(s, p, retval); forall q | 0 <= q < NBPROC && !s.procs[q].status.Alive() :: !t.procs[q].status.Alive()
  {
    hide Move;
  }

  lemma StartGentle(s: State, user: Mode, ssize: nat, prio: int)
    requires Shape(s) && Structure(s)
    ensures Gentle(s, StartBackground(s, user, ssize, prio), NOPID, Loses(s, user, ssize))
  {
    hide StartBackground, Tidy;
    if StackFits(user, ssize) && On(s, Free) != [] {
      StartProcs(s, user, ssize, prio);
    } else {
      StartNothing(s, user, ssize, prio);
    }
  }

  lemma QueueCallGentle(s: State, step: Step)
    requires Inv(s) && Enabled(s, step) && (step.DoPSend? || step.DoPReceive?)
    ensures Gentle(s, Do(s, step).s, NOPID, NOPID)
  {
    hide PSend, PReceive, Core, Gentle;
    if step.DoPSend? {
      PSendGentle(s, step.fid, step.message);
    } else {
      PReceiveGentle(s, step.fid, step.toNull);
    }
  }

  lemma PSendGentle(s: State, f: int, message: int)
    requires Inv(s)
    ensures Gentle(s, PSend(s, f, message).s, NOPID, NOPID)
  {
    hide Move, Tidy, Kin, Mail;
    if ValidFid(s, f) && On(s, Receivers(f)) != [] { HeadPlace(s, Receivers(f)); }
  }

  lemma PReceiveGentle(s: State, f: int, toNull: bool)
    requires Inv(s)
    ensures Gentle(s, PReceive(s, f, toNull).s, NOPID, NOPID)
  {
    hide Move, Tidy, Kin, Mail;
    if ValidFid(s, f) && On(s, Senders(f)) != [] { HeadPlace(s, Senders(f)); }
  }

  lemma OtherCallGentle(s: State, step: Step)
    requires Inv(s) && Enabled(s, step) && (step.DoClock? || step.DoWaitClock? || step.DoPCreate? || step.DoResume?)
    ensures Gentle(s, Do(s, step).s, NOPID, NOPID)
  {
    hide Move, Tidy, Kin, Mail, FreeQueue;
    if step.DoResume? && s.procs[s.active].frame.InWaitpid? {
      WokenChild(s);
    }
  }

  lemma ChprioGentle(s: State, pid: int, prio: int)
    requires Shape(s)
    ensures Gentle(s, Chprio(s, pid, prio).s, NOPID, NOPID)
  {
  }

  lemma WaitpidGentle(s: State, pid: int)
    requires Inv(s)
    ensures Gentle(s, Waitpid(s, pid).s, NOPID, NOPID)
  {
    hide Move, Core, Look;
  }

  /** Every step, before it reaches the scheduler, is gentle. */
  lemma DoGentle(s: State, step: Step)
    requires Inv(s) && Enabled(s, step)
    ensures Gentle(s, Do(s, step).s, Ended(s, step), Taken(s, step))
  {
    hide Gentle, Tidy, Kin, Mail, StartBackground, Chprio, Stop, Flush, PSend, PReceive, Waitpid, PCreate, Resume,
      ClockTick, WaitClock, Blocks;
    match step
    case DoStart(u, z, prio) => StartGentle(s, u, z, prio);
    case DoStartBackground(u, z, prio) => StartGentle(s, u, z, prio);
    case DoChprio(pid, prio) => ChprioGentle(s, pid, prio);
    case DoKill(pid) => if pid > 0 { StopGentle(s, pid, 0); } else { GentleRefl(s); }
    case DoExit(retval) => StopGentle(s, s.active, retval);
    case DoWaitpid(pid) => WaitpidGentle(s, pid);
    case DoPDelete(fid) => if Occupied(s, fid) { FlushGentle(s, fid, Queue(0, [])); } else { GentleRefl(s); }
    case DoPReset(fid) => if Occupied(s, fid) { FlushGentle(s, fid, s.queues[fid].(buf := [])); } else { GentleRefl(s); }
    case DoPSend(_, _) => QueueCallGentle(s, step);
    case DoPReceive(_, _) => QueueCallGentle(s, step);
    case _ => OtherCallGentle(s, step);
  }

  lemma GentleRefl(s: State)
    requires Shape(s)
    ensures Gentle(s, s, NOPID, NOPID)
  {
  }

  // ---- Sleepers ----

  /**
   Nobody is woken early: after any step, a process that was asleep is still asleep, was
   ended by it, or its time has come.
   */
  lemma NotWokenEarly(s: State, step: Step, p: nat)
    requires Inv(s) && Enabled(s, step) && p < NBPROC && s.procs[p].status.Asleep?
    ensures var t := Next(s, step); var a, b := s.procs[p].status, t.procs[p].status;
      b == a || (p == Ended(s, step) && !b.Alive()) || a.wake <= t.clock
  {
    hide Core, Do, Finish;
    DoGentle(s, step);
    DoKeeps(s, step);
    var m := Do(s, step).s;
    var t := Finish(Do(s, step));
    FinishKeeps(Do(s, step));
    assert Undisturbed(s.procs[p], m.procs[p], p == ParentOf(s, Ended(s, step)), p == Ended(s, step), p == Taken(s, step));
    assert Rotated(m.procs[p], t.procs[p], m.clock);
  }

  /** After a scheduler tick, and after every call that blocks, no sleeper is overdue. */
  lemma NotWokenLate(s: State, step: Step)
    requires Inv(s) && Enabled(s, step) && Do(s, step).ThenTick?
    ensures NoneDue(Next(s, step))
  {
    hide Core, Do, Finish;
    DoKeeps(s, step);
    FinishKeeps(Do(s, step));
  }

  /** The steps that end in the scheduler are the tick and the calls that block. */
  lemma WhoTicks(s: State, step: Step)
    requires Shape(s) && s.procs[s.active].status.Running?
    ensures Do(s, step).ThenTick? <==>
      (step.DoClock? && (s.clock + 1) % CLOCKWRAP % CLOCKS_PER_TICK == 0) || (Blocks(s, step) && !step.DoExit?)
  {
    hide Move, StartBackground, Bury, Unbind, Flush, Fetch, Admit, HandOff, Store, Block, Resume, PCreate, Reprioritise;
  }

  // ---- Lost slots ----

  /** A start that finds no memory for the stack takes a slot off the free stack and starts nothing. */
  lemma FailedStartLoses(s: State, ssize: nat, prio: int)
    requires Inv(s) && StackFits(User(false), ssize) && On(s, Free) != []
    ensures var n, t := On(s, Free)[0], StartBackground(s, User(false), ssize, prio);
      && t.procs[n].status.Lost? && s.procs[n].status.Dead? && n !in On(t, Free)
      && (forall q | 0 <= q < NBPROC && q != n :: t.procs[q] == s.procs[q])
  {
    var n, t := On(s, Free)[0], StartBackground(s, User(false), ssize, prio);
    hide StartBackground, Core;
    StartKeeps(s, User(false), ssize, prio);
    assert Structure(s) by { CoreParts(s); }
    StartProcs(s, User(false), ssize, prio);
    LostNotFree(t, n);
  }

  lemma LostNotFree(s: State, p: nat)
    requires Inv(s) && p < NBPROC && s.procs[p].status.Lost?
    ensures p !in On(s, Free)
  {
    hide Kin, Mail;
  }

  lemma CoreParts(s: State)
    requires Inv(s)
    ensures Structure(s) && ActiveRuns(s)
  {
  }

  /** A slot is lost by a start that finds no memory for the stack, and in no other way, and is never found again. */
  lemma LostExactly(s: State, step: Step, p: nat)
    requires Inv(s) && Enabled(s, step) && p < NBPROC
    ensures Next(s, step).procs[p].status.Lost? <==> s.procs[p].status.Lost? || Taken(s, step) == p
  {
    hide Core, Do, Finish, Taken;
    DoGentle(s, step);
    DoKeeps(s, step);
    var m := Do(s, step);
    FinishKeeps(m);
    assert Undisturbed(s.procs[p], m.s.procs[p], p == ParentOf(s, Ended(s, step)), p == Ended(s, step), p == Taken(s, step));
    assert Rotated(m.s.procs[p], Finish(m).procs[p], m.s.clock);
  }

  /** Some step of the run loses slot `p`. */
  predicate LostAlong(s: State, steps: seq<Step>, p: nat)
    requires Shape(s)
    decreases |steps|
  {
    steps != [] && (Taken(s, steps[0]) == p || LostAlong(Next(s, steps[0]), steps[1..], p))
  }

  /** After a run the lost slots are those lost before it, and those that a failing start in it took. */
  lemma {:induction false} LostRuns(s: State, steps: seq<Step>, p: nat)
    requires Inv(s) && ValidRun(s, steps) && p < NBPROC
    ensures Run(s, steps).procs[p].status.Lost? <==> s.procs[p].status.Lost? || LostAlong(s, steps, p)
    decreases |steps|
  {
    hide Core, ActiveRuns, Next, Taken;
    if steps != [] {
      LostExactly(s, steps[0], p);
      NextKeeps(s, steps[0]);
      LostRuns(Next(s, steps[0]), steps[1..], p);
    }
  }

  /** At boot, a start without memory for the stack loses slot 1. */
  lemma SlotIsLost()
    ensures var step := DoStart(User(false), 4000, 1);
      && Enabled(Initial(), step) && Initial().procs[1].status.Dead? && Next(Initial(), step).procs[1].status.Lost?
  {
    InitialHolds();
    var s, step := Initial(), DoStart(User(false), 4000, 1);
    assert On(s, Free)[0] == 1 && Enabled(s, step) && Taken(s, step) == 1;
    hide Initial, Core, Do, Finish, Taken;
    LostExactly(s, step, 1);
  }

  // ---- Half-made queues ----

  /** The slot that a pcreate without memory for the buffer leaves half-made, or NBQUEUE. */
  function HalfMakes(s: State, step: Step): nat
    requires Shape(s)
  {
    if step.DoPCreate? && !step.memory && 0 < step.count <= MAXCAPACITY then FreeQueue(s, 0) else NBQUEUE
  }

  predicate HalfMade(s: State, f: nat)
    requires Shape(s) && f < NBQUEUE
  {
    s.queues[f].half > 0
  }

  lemma DoHalf(s: State, step: Step, f: nat)
    requires Shape(s) && f < NBQUEUE
    ensures HalfMade(Do(s, step).s, f) <==> HalfMakes(s, step) == f || (HalfMade(s, f) && step != DoPDelete(f))
  {
    hide Move, Detach, Attach, Look, Bury, Unbind, WakeAll, Reprioritise, FreeQueue;
  }

  /** A slot is half-made by a pcreate that finds no memory for the buffer, in no other way, and until it is deleted. */
  lemma HalfExactly(s: State, step: Step, f: nat)
    requires Inv(s) && Enabled(s, step) && f < NBQUEUE
    ensures HalfMade(Next(s, step), f) <==> HalfMakes(s, step) == f || (HalfMade(s, f) && step != DoPDelete(f))
  {
    hide Core, Do, Finish, HalfMakes;
    DoHalf(s, step, f);
    DoKeeps(s, step);
    FinishKeeps(Do(s, step));
  }

  /** Some step of the run leaves slot `f` half-made, and no later one deletes it. */
  predicate HalfMadeAlong(s: State, steps: seq<Step>, f: nat)
    requires Shape(s)
    decreases |steps|
  {
    steps != [] && ((HalfMakes(s, steps[0]) == f && DoPDelete(f) !in steps[1..]) || HalfMadeAlong(Next(s, steps[0]), steps[1..], f))
  }

  /** After a run the half-made slots are those that were so before it, or became so in it, and have not been deleted since. */
  lemma {:induction false} HalfMadeRuns(s: State, steps: seq<Step>, f: nat)
    requires Inv(s) && ValidRun(s, steps) && f < NBQUEUE
    ensures HalfMade(Run(s, steps), f) <==> (HalfMade(s, f) && DoPDelete(f) !in steps) || HalfMadeAlong(s, steps, f)
    decreases |steps|
  {
    hide Core, ActiveRuns, Next, HalfMakes, HalfMade;
    if steps != [] {
      HalfExactly(s, steps[0], f);
      NextKeeps(s, steps[0]);
      HalfMadeRuns(Next(s, steps[0]), steps[1..], f);
      assert steps == [steps[0]] + steps[1..];
    }
  }

  /** At boot, a pcreate without memory for the buffer leaves slot 0 half-made. */
  lemma QueueIsHalfMade()
    ensures var step := DoPCreate(1, false); Enabled(Initial(), step) && HalfMade(Next(Initial(), step), 0)
  {
    InitialHolds();
    var s, step := Initial(), DoPCreate(1, false);
    assert FreeQueue(s, 0) == 0 && Enabled(s, step);
    hide Initial, Core, Do, Finish;
    HalfExactly(s, step, 0);
  }

  // ---- Priorities ----

  /** A start_background that starts nothing, or nothing that outranks the active process. */
  predicate Modest(s: State, user: Mode, ssize: nat, prio: int)
    requires Shape(s)
  {
    !StackFits(user, ssize) || On(s, Free) == [] || user == User(false) || prio <= s.procs[s.active].prio
  }

  predicate ModestStep(s: State, step: Step)
    requires Shape(s)
  {
    step.DoStartBackground? ==> Modest(s, step.user, step.ssize, step.prio)
  }

  /** Without rescheduling, the rule survives exactly the modest starts. */
  lemma StartBackgroundSettled(s: State, user: Mode, ssize: nat, prio: int)
    requires Inv(s)
    ensures Settled(StartBackground(s, user, ssize, prio)) <==> Settled(s) && Modest(s, user, ssize, prio)
  {
    hide Tidy, Kin, Mail, StartBackground;
    var t := StartBackground(s, user, ssize, prio);
    if StackFits(user, ssize) && On(s, Free) != [] {
      StartProcs(s, user, ssize, prio);
      StartActive(s, user, ssize, prio);
      var n := On(s, Free)[0];
      assert t.procs[n].status == NewStatus(user) && n != s.active;
      forall p | 0 <= p < NBPROC && p != n ensures t.procs[p] == s.procs[p] {}
    } else {
      StartNothing(s, user, ssize, prio);
    }
  }

  lemma StartActive(s: State, user: Mode, ssize: nat, prio: int)
    requires Shape(s)
    ensures StartBackground(s, user, ssize, prio).active == s.active
  {
  }

  /**
   After a step that ends in the scheduler the active process has the highest priority; every other step keeps
   that, except a start_background that is not modest, which always breaks it.
   */
  lemma PriorityRules(s: State, step: Step)
    requires Inv(s) && Enabled(s, step)
    ensures !Do(s, step).Plain? ==> Settled(Next(s, step))
    ensures Settled(s) ==> (Settled(Next(s, step)) <==> ModestStep(s, step))
  {
    hide Core, Do, Finish, Modest;
    DoKeeps(s, step);
    FinishKeeps(Do(s, step));
    if step.DoStartBackground? {
      DoBackground(s, step);
      StartBackgroundSettled(s, step.user, step.ssize, step.prio);
    } else if Do(s, step).Plain? && Settled(s) {
      PlainSettled(s, step);
    }
    if Do(s, step).Plain? { PlainEnd(Do(s, step)); }
  }

  lemma DoBackground(s: State, step: Step)
    requires Shape(s) && step.DoStartBackground?
    ensures Do(s, step) == Plain(StartBackground(s, step.user, step.ssize, step.prio))
  {
    hide StartBackground;
  }

  lemma PlainEnd(a: Act)
    requires a.Plain? && Shape(a.s)
    ensures Finish(a) == a.s
  {
  }

  lemma PlainSettled(s: State, step: Step)
    requires Inv(s) && Enabled(s, step) && Settled(s) && Do(s, step).Plain? && !step.DoStartBackground?
    ensures Settled(Do(s, step).s)
  {
    hide Tidy, Kin, Mail, Move, Unbind, Bury, Flush, Admit, HandOff, Block, Reprioritise, FreeQueue;
    if step.DoResume? && s.procs[s.active].frame.InWaitpid? {
      WokenChild(s);
    }
  }

  /** The rule holds in every state of the run. */
  ghost predicate SettledThroughout(s: State, steps: seq<Step>)
    requires Shape(s)
    decreases |steps|
  {
    Settled(s) && (steps == [] || SettledThroughout(Next(s, steps[0]), steps[1..]))
  }

  /** Every start_background of the run is modest in the state where it is made. */
  predicate ModestRun(s: State, steps: seq<Step>)
    requires Shape(s)
    decreases |steps|
  {
    steps == [] || (ModestStep(s, steps[0]) && ModestRun(Next(s, steps[0]), steps[1..]))
  }

  /** The rule holds throughout a run exactly when every start_background in it is modest. */
  lemma {:induction false} PriorityRulesRuns(s: State, steps: seq<Step>)
    requires Inv(s) && Settled(s) && ValidRun(s, steps)
    ensures SettledThroughout(s, steps) <==> ModestRun(s, steps)
    decreases |steps|
  {
    hide Core, Next, Settled, ActiveRuns, ModestStep;
    if steps != [] {
      var t := Next(s, steps[0]);
      PriorityRules(s, steps[0]);
      NextKeeps(s, steps[0]);
      if Settled(t) {
        PriorityRulesRuns(t, steps[1..]);
      } else {
        NotThroughout(t, steps[1..]);
      }
    }
  }

  lemma NotThroughout(s: State, steps: seq<Step>)
    requires Shape(s) && !Settled(s)
    ensures !SettledThroughout(s, steps)
  {
  }

  /** At boot, starting a process of priority 1 in the background breaks the rule. */
  lemma ImmodestStart()
    ensures Enabled(Initial(), DoStartBackground(User(true), 4000, 1)) && Settled(Initial())
    ensures !Settled(Next(Initial(), DoStartBackground(User(true), 4000, 1)))
  {
    InitialHolds();
    var s, step := Initial(), DoStartBackground(User(true), 4000, 1);
    assert On(s, Free)[0] == 1 && s.procs[s.active].prio == 0 && Settled(s) && Enabled(s, step);
    hide Initial, Core, Do, Finish, Settled;
    PriorityRules(s, step);
  }
}
