/**
 What every step does, told process by process and queue by queue, without lists: the arguments of a call are what ends
 up in the process table, in the buffers and in the log.
 */
module KernelEffects {
  import opened KernelState
  import opened KernelSpec
  import opened KernelPlaces
  import opened KernelScheduling
  import opened KernelFamily
  import opened KernelMail
  import opened KernelInvariant
  import opened KernelTheorems

  // ---- Whom a step concerns ----

  /** The slot that a start takes, or NOPID. */
  function Starts(s: State, step: Step): int
    requires Shape(s)
  {
    if (step.DoStart? || step.DoStartBackground?) && StackFits(step.user, step.ssize) && On(s, Free) != [] then On(s, Free)[0] else NOPID
  }

  /** The zombie whose slot a waitpid gives back, or NOPID. */
  function Reaped(s: State, step: Step): int
    requires Shape(s)
  {
    match step
    case DoWaitpid(pid) => if Look(s, pid).Reapable? then Look(s, pid).child else NOPID
    case DoResume => if s.procs[s.active].frame.InWaitpid? then s.procs[s.active].frame.child else NOPID
    case _ => NOPID
  }

  /** The process that a psend hands its message to, or NOPID. */
  function Receiver(s: State, step: Step): int
    requires Shape(s)
  {
    if step.DoPSend? && ValidFid(s, step.fid) && s.queues[step.fid].buf == [] && On(s, Receivers(step.fid)) != []
    then On(s, Receivers(step.fid))[0] else NOPID
  }

  /** The process whose message a preceive lets into the room it makes, or NOPID. */
  function Sender(s: State, step: Step): int
    requires Shape(s)
  {
    if step.DoPReceive? && ValidFid(s, step.fid) && s.queues[step.fid].buf != []
      && |s.queues[step.fid].buf| == s.queues[step.fid].capacity && On(s, Senders(step.fid)) != []
    then On(s, Senders(step.fid))[0] else NOPID
  }

  /** The process `p` waits on a queue that the step empties or deletes. */
  predicate Flushed(s: State, step: Step, p: nat)
    requires Shape(s) && p < NBPROC
  {
    && (step.DoPDelete? || step.DoPReset?) && Occupied(s, step.fid)
    && (s.procs[p].status == WaitEmpty(step.fid) || s.procs[p].status == WaitFull(step.fid))
  }

  /** The process `p` waits for the child that the step ends. */
  predicate Bereaved(s: State, step: Step, p: nat)
    requires Shape(s) && p < NBPROC
  {
    var e, q := Ended(s, step), s.procs[p];
    && e != NOPID && ParentOf(s, e) == p && q.status.WaitChild? && q.frame.InWaitpid?
    && (q.frame.child == NOPID || q.frame.child == e)
  }

  predicate IsOrphaned(s: State, step: Step, p: nat)
    requires Shape(s) && p < NBPROC
  {
    Ended(s, step) != NOPID && s.procs[p].parent == Ended(s, step)
  }

  // ---- What becomes of a process, before the scheduler ----

  function StatusAfter(s: State, step: Step, p: nat): Status
    requires Shape(s) && p < NBPROC
  {
    var q := s.procs[p];
    if p == Starts(s, step) then if step.user == User(false) then Lost else Runnable
    else if p == Ended(s, step) then
      if q.parent == NOPID then Dead else Zombie(if step.DoExit? then step.retval else 0)
    else if p == Reaped(s, step) || (q.status.Zombie? && IsOrphaned(s, step, p)) then Dead
    else if Bereaved(s, step, p) || p == Receiver(s, step) || p == Sender(s, step) || Flushed(s, step, p) then Runnable
    else if p == s.active && Blocks(s, step) then
      match step
      case DoWaitClock(clock) => Asleep(clock)
      case DoWaitpid(_) => WaitChild
      case DoPSend(fid, _) => if fid >= 0 then WaitFull(fid) else q.status
      case DoPReceive(fid, _) => if fid >= 0 then WaitEmpty(fid) else q.status
      case _ => q.status
    else q.status
  }

  function FrameAfter(s: State, step: Step, p: nat): Frame
    requires Shape(s) && p < NBPROC
  {
    var fr := s.procs[p].frame;
    if p == Starts(s, step) then NoCall
    else if Bereaved(s, step, p) then InWaitpid(Ended(s, step))
    else if p == Receiver(s, step) && fr.InReceive? && fr.cell != NullCell then fr.(cell := Written(step.message))
    else if Flushed(s, step, p) && (fr.InReceive? || fr.InSend?) then fr.(retval := -1)
    else if p == s.active && step.DoResume? then NoCall
    else if p == s.active && Blocks(s, step) then
      match step
      case DoWaitpid(pid) => InWaitpid(pid)
      case DoPSend(fid, message) => if fid >= 0 then InSend(fid, 0, message) else fr
      case DoPReceive(fid, toNull) => if fid >= 0 then InReceive(fid, 0, if toNull then NullCell else Unwritten) else fr
      case _ => fr
    else fr
  }

  function ParentAfter(s: State, step: Step, p: nat): int
    requires Shape(s) && p < NBPROC
  {
    if p == Starts(s, step) then s.active
    else if IsOrphaned(s, step, p) && !s.procs[p].status.Zombie? then NOPID
    else s.procs[p].parent
  }

  function PrioAfter(s: State, step: Step, p: nat): int
    requires Shape(s) && p < NBPROC
  {
    if p == Starts(s, step) then step.prio
    else if step.DoChprio? && step.pid == p && AlivePid(s, p) && 0 < step.prio <= MAXPRIO then step.prio
    else s.procs[p].prio
  }

  /** Who is filed anew, behind all that are there already: whose state changes, or whose priority in its list. */
  predicate Refiled(s: State, step: Step, p: nat)
    requires Shape(s) && p < NBPROC
  {
    || StatusAfter(s, step, p) != s.procs[p].status
    || (PrioAfter(s, step, p) != s.procs[p].prio && OrderedByPriority(s.procs[p].status))
  }

  // ---- Queues, messages and the clock ----

  function QueueAfter(s: State, step: Step, f: nat): Queue
    requires Shape(s) && f < NBQUEUE
  {
    var q := s.queues[f];
    match step
    case DoPCreate(count, memory) =>
      if 0 < count <= MAXCAPACITY && f == FreeQueue(s, 0) then if memory then Queue(count, []) else Queue(0, [], count) else q
    case DoPDelete(fid) => if fid == f then Queue(0, []) else q
    case DoPReset(fid) => if fid == f then q.(buf := []) else q
    case DoPSend(fid, message) =>
      if fid == f && |q.buf| < q.capacity && Receiver(s, step) == NOPID then q.(buf := q.buf + [message]) else q
    case DoPReceive(fid, _) =>
      if fid == f && q.buf != [] then q.(buf := q.buf[1..] + LetIn(s, step)) else q
    case _ => q
  }

  /** The message of a sender that waits, if the step lets one in. */
  function LetIn(s: State, step: Step): seq<int>
    requires Shape(s)
  {
    var h := Sender(s, step);
    if 0 <= h < NBPROC && s.procs[h].frame.InSend? then [s.procs[h].frame.message] else []
  }

  function Aborts(f: nat, list: seq<nat>): (r: seq<Event>)
    ensures |r| == |list| && forall i | 0 <= i < |list| :: r[i] == Aborted(f, list[i])
  {
    seq(|list|, i requires 0 <= i < |list| => Aborted(f, list[i]))
  }

  function Admitted(s: State, step: Step): seq<Event>
    requires Shape(s) && step.DoPReceive?
  {
    if Sender(s, step) >= 0 && step.fid >= 0 && LetIn(s, step) != [] then [Accepted(step.fid, Sender(s, step), LetIn(s, step)[0])] else []
  }

  function Events(s: State, step: Step): seq<Event>
    requires Shape(s)
  {
    match step
    case DoPSend(fid, message) =>
      if !ValidFid(s, fid) || |s.queues[fid].buf| == s.queues[fid].capacity then []
      else if Receiver(s, step) != NOPID && Receiver(s, step) >= 0
      then [Accepted(fid, s.active, message), Delivered(fid, Receiver(s, step), message)]
      else [Accepted(fid, s.active, message)]
    case DoPReceive(fid, _) =>
      if !ValidFid(s, fid) || s.queues[fid].buf == [] then []
      else [Delivered(fid, s.active, s.queues[fid].buf[0])] + Admitted(s, step)
    case DoPDelete(fid) =>
      if Occupied(s, fid) then [Cleared(fid)] + Aborts(fid, On(s, Receivers(fid))) + Aborts(fid, On(s, Senders(fid))) else []
    case DoPReset(fid) =>
      if Occupied(s, fid) then [Cleared(fid)] + Aborts(fid, On(s, Receivers(fid))) + Aborts(fid, On(s, Senders(fid))) else []
    case _ => []
  }

  function ClockAfter(s: State, step: Step): nat {
    if step.DoClock? then (s.clock + 1) % CLOCKWRAP else s.clock
  }

  // ---- The effect of a step ----

  ghost predicate Became(s: State, step: Step, p: nat, b: Proc)
    requires Shape(s) && p < NBPROC
  {
    && b.parent == ParentAfter(s, step, p) && b.prio == PrioAfter(s, step, p)
    && b.status == StatusAfter(s, step, p) && b.frame == FrameAfter(s, step, p)
    && (if Refiled(s, step, p) then b.stamp >= s.now else b.stamp == s.procs[p].stamp)
  }

  ghost predicate Exact(s: State, step: Step, t: State)
    requires Shape(s) && Shape(t)
  {
    && t.active == s.active && t.clock == ClockAfter(s, step) && t.log == s.log + Events(s, step)
    && (forall f | 0 <= f < NBQUEUE :: t.queues[f] == QueueAfter(s, step, f))
    && (forall p | 0 <= p < NBPROC :: Became(s, step, p, t.procs[p]))
  }

  predicate QueueStep(step: Step) {
    step.DoPCreate? || step.DoPDelete? || step.DoPReset? || step.DoPSend? || step.DoPReceive?
  }

  /** Steps that have nothing to do with queues. */
  lemma NoMail(s: State, step: Step, t: State)
    requires Shape(s) && Shape(t) && !QueueStep(step) && !step.DoClock?
    requires t.active == s.active && t.clock == s.clock && t.log == s.log && t.queues == s.queues
    requires forall p | 0 <= p < NBPROC :: Became(s, step, p, t.procs[p])
    ensures Exact(s, step, t)
  {
    hide Became, FreeQueue;
  }

  lemma ExactIf(s: State, step: Step, t: State)
    requires Shape(s) && Shape(t) && t.active == s.active && t.clock == ClockAfter(s, step) && t.log == s.log + Events(s, step)
    requires forall f | 0 <= f < NBQUEUE :: t.queues[f] == QueueAfter(s, step, f)
    requires forall p | 0 <= p < NBPROC :: Became(s, step, p, t.procs[p])
    ensures Exact(s, step, t)
  {
    hide Became, QueueAfter, Events, Shape;
  }

  lemma StartExact(s: State, step: Step)
    requires Inv(s) && (step.DoStart? || step.DoStartBackground?)
    ensures Exact(s, step, Do(s, step).s)
  {
    hide Core, Structure, Kin, Mail, Do, Became, Exact;
    InvKin(s);
    forall p | 0 <= p < NBPROC ensures Became(s, step, p, Do(s, step).s.procs[p]) {
      StartBecame(s, step, p);
    }
    StartWorld(s, step);
    NoMail(s, step, Do(s, step).s);
  }

  lemma StartWorld(s: State, step: Step)
    requires Shape(s) && (step.DoStart? || step.DoStartBackground?)
    ensures var t := Do(s, step).s; t.active == s.active && t.clock == s.clock && t.log == s.log && t.queues == s.queues
  {
    hide Attach, Detach;
  }

  lemma StartBecame(s: State, step: Step, p: nat)
    requires Shape(s) && Structure(s) && (step.DoStart? || step.DoStartBackground?) && p < NBPROC
    ensures Became(s, step, p, Do(s, step).s.procs[p])
  {
    hide Structure, StartBackground;
    if StackFits(step.user, step.ssize) && On(s, Free) != [] {
      StartProcs(s, step.user, step.ssize, step.prio);
    } else {
      StartNothing(s, step.user, step.ssize, step.prio);
    }
  }

  lemma CallExact(s: State, step: Step)
    requires Inv(s) && Enabled(s, step) && (step.DoClock? || step.DoChprio? || step.DoWaitClock? || step.DoPCreate?)
    ensures Exact(s, step, Do(s, step).s)
  {
    hide Core, Do, Exact, Enabled;
    if step.DoChprio? {
      ChprioExact(s, step);
    } else if step.DoPCreate? {
      PCreateExact(s, step);
    } else {
      ClockExact(s, step);
    }
  }

  lemma ChprioExact(s: State, step: Step)
    requires Shape(s) && step.DoChprio?
    ensures Exact(s, step, Do(s, step).s)
  {
    hide Attach, Detach;
    var t := Do(s, step).s;
    forall p | 0 <= p < NBPROC ensures Became(s, step, p, t.procs[p]) {}
    hide Became, Do;
    NoMail(s, step, t);
  }

  lemma PCreateExact(s: State, step: Step)
    requires Shape(s) && step.DoPCreate?
    ensures Exact(s, step, Do(s, step).s)
  {
    hide FreeQueue;
  }

  lemma ClockExact(s: State, step: Step)
    requires Inv(s) && (step.DoClock? || step.DoWaitClock?)
    ensures Exact(s, step, Do(s, step).s)
  {
    hide Move, Core;
  }

  lemma WaitpidExact(s: State, step: Step)
    requires Inv(s) && Enabled(s, step) && (step.DoWaitpid? || step.DoResume?)
    ensures Exact(s, step, Do(s, step).s)
  {
    hide Core, Structure, Kin, Mail, Do, Became, Exact, Enabled;
    InvKin(s);
    if step.DoResume? && s.procs[s.active].frame.InWaitpid? { WokenChild(s); }
    forall p | 0 <= p < NBPROC ensures Became(s, step, p, Do(s, step).s.procs[p]) {
      WaitpidBecame(s, step, p);
    }
    WaitpidWorld(s, step);
    NoMail(s, step, Do(s, step).s);
  }

  lemma WaitpidWorld(s: State, step: Step)
    requires Shape(s) && (step.DoWaitpid? || step.DoResume?)
    ensures var t := Do(s, step).s; t.active == s.active && t.clock == s.clock && t.log == s.log && t.queues == s.queues
  {
    hide Move, Look;
  }

  lemma WaitpidBecame(s: State, step: Step, p: nat)
    requires Shape(s) && (step.DoWaitpid? || step.DoResume?) && p < NBPROC && s.procs[s.active].status.Running?
    requires step.DoResume? && s.procs[s.active].frame.InWaitpid? ==> ZombieOf(s, s.active, s.procs[s.active].frame.child)
    ensures Became(s, step, p, Do(s, step).s.procs[p])
  {
    hide Move, Look, StackFits;
  }

  lemma InvKin(s: State)
    requires Inv(s)
    ensures Structure(s) && Kin(s) && Mail(s)
  {
  }

  lemma StopExact(s: State, step: Step)
    requires Inv(s) && Enabled(s, step) && (step.DoKill? || step.DoExit?)
    ensures Exact(s, step, Do(s, step).s)
  {
    hide Core, Kin, Structure, Mail, Do, Became, Exact, Enabled;
    InvKin(s);
    forall p | 0 <= p < NBPROC ensures Became(s, step, p, Do(s, step).s.procs[p]) {
      StopBecame(s, step, p);
    }
    StopWorld(s, step);
    NoMail(s, step, Do(s, step).s);
  }

  lemma StopWorld(s: State, step: Step)
    requires Shape(s) && (step.DoKill? || step.DoExit?)
    ensures var t := Do(s, step).s; t.active == s.active && t.clock == s.clock && t.log == s.log && t.queues == s.queues
  {
    hide Bury, Unbind;
  }

  lemma StopBecame(s: State, step: Step, p: nat)
    requires Shape(s) && Kin(s) && (step.DoKill? || step.DoExit?) && p < NBPROC
    ensures Became(s, step, p, Do(s, step).s.procs[p])
  {
    var e := Ended(s, step);
    if e != NOPID {
      assert ParentOk(s, e);
      var v := if step.DoExit? then step.retval else 0;
      hide Kin, Unbind, Bury;
      assert Do(s, step).s == Bury(Unbind(s, e, 0), e, v);
      hide Do, Became;
      StopOne(s, step, e, v, p);
    } else {
      StopNone(s, step, p);
    }
  }

  lemma StopNone(s: State, step: Step, p: nat)
    requires Shape(s) && (step.DoKill? || step.DoExit?) && Ended(s, step) == NOPID && p < NBPROC
    ensures Became(s, step, p, Do(s, step).s.procs[p])
  {
    hide Bury, Unbind;
  }

  /** Ending a process concerns itself, its children and a parent that waits for it. */
  lemma StopAfter(s: State, step: Step, e: nat, p: nat)
    requires Shape(s) && (step.DoKill? || step.DoExit?) && p < NBPROC && e < NBPROC && Ended(s, step) == e
    ensures var q, mine := s.procs[p], s.procs[p].parent == e;
      && PrioAfter(s, step, p) == q.prio
      && ParentAfter(s, step, p) == (if mine && !q.status.Zombie? then NOPID else q.parent)
      && FrameAfter(s, step, p) == (if Bereaved(s, step, p) then InWaitpid(e) else q.frame)
      && StatusAfter(s, step, p) ==
           (if p == e then if q.parent == NOPID then Dead else Zombie(if step.DoExit? then step.retval else 0)
            else if q.status.Zombie? && mine then Dead else if Bereaved(s, step, p) then Runnable else q.status)
  {
    hide Ended, Bereaved, Look, StackFits, Shape;
  }

  lemma StopOne(s: State, step: Step, e: nat, v: int, p: nat)
    requires Shape(s) && (step.DoKill? || step.DoExit?) && p < NBPROC && e < NBPROC && Ended(s, step) == e
    requires v == (if step.DoExit? then step.retval else 0) && s.procs[e].parent != e && s.procs[e].status.Alive()
    ensures Became(s, step, p, Bury(Unbind(s, e, 0), e, v).procs[p])
  {
    hide Unbind, Bury, Ended, StatusAfter, FrameAfter, ParentAfter, PrioAfter;
    var u := Unbind(s, e, 0);
    StopAfter(s, step, e, p);
    UnbindProcs(s, e, 0);
    UnbindStamps(s, e);
    assert Unbound(s.procs[e], u.procs[e], e) && Unbound(s.procs[p], u.procs[p], e);
    BuryProc(u, e, v, p);
  }

  lemma UnbindStamps(s: State, e: nat)
    requires Shape(s) && e < NBPROC
    ensures s.now <= Unbind(s, e, 0).now
    ensures var u := Unbind(s, e, 0); forall q | 0 <= q < NBPROC && u.procs[q].status != s.procs[q].status :: u.procs[q].stamp >= s.now
  {
    hide Unbind;
    UnbindGentle(s, e, 0);
    var u := Unbind(s, e, 0);
    forall q | 0 <= q < NBPROC && u.procs[q].status != s.procs[q].status ensures u.procs[q].stamp >= s.now {
      assert Touched(s.procs[q], u.procs[q], s.now);
    }
  }

  /** Ending `e` concerns `e` and a parent that waits for it. */
  lemma BuryProc(s: State, e: nat, v: int, p: nat)
    requires Shape(s) && e < NBPROC && p < NBPROC && s.procs[e].parent != e
    ensures var a, b := s.procs[p], Bury(s, e, v).procs[p];
      && b == a.(status := b.status, frame := b.frame, stamp := b.stamp)
      && (p == e ==> b.frame == a.frame && b.stamp >= s.now && b.status == if a.parent == NOPID then Dead else Zombie(v))
      && (p != e ==>
            if s.procs[e].parent == p && a.status.WaitChild? && a.frame.InWaitpid? && (a.frame.child == NOPID || a.frame.child == e)
            then b.status == Runnable && b.frame == InWaitpid(e) && b.stamp >= s.now
            else b == a)
  {
    hide Move;
  }

  // ---- Queue calls ----

  /** What a queue call that blocks leaves in its frame. */
  function CallFrame(step: Step): Frame
    requires (step.DoPSend? || step.DoPReceive?) && step.fid >= 0
  {
    if step.DoPSend? then InSend(step.fid, 0, step.message) else InReceive(step.fid, 0, if step.toNull then NullCell else Unwritten)
  }

  /** A queue call concerns its caller and the first process that waits. */
  lemma QueueCallBecame(s: State, step: Step, p: nat)
    requires Shape(s) && p < NBPROC && (step.DoPSend? || step.DoPReceive?)
    requires Blocks(s, step) ==> step.fid >= 0
    ensures ParentAfter(s, step, p) == s.procs[p].parent && PrioAfter(s, step, p) == s.procs[p].prio
    ensures StatusAfter(s, step, p) ==
      if p == Receiver(s, step) || p == Sender(s, step) then Runnable
      else if p == s.active && Blocks(s, step) then if step.DoPSend? then WaitFull(step.fid) else WaitEmpty(step.fid)
      else s.procs[p].status
    ensures p != Receiver(s, step) && !(p == s.active && Blocks(s, step)) ==> FrameAfter(s, step, p) == s.procs[p].frame
    ensures p == Receiver(s, step) && p != s.active && s.procs[p].frame.InReceive? ==>
      FrameAfter(s, step, p) == Fill(s.procs[p].frame, step.message)
    ensures p == s.active && Blocks(s, step) && p != Receiver(s, step) ==>
      FrameAfter(s, step, p) == CallFrame(step)
  {
    hide Receiver, Sender, Blocks;
  }

  /** Receivers wait at an empty queue and senders at a full one, with their calls in their frames. */
  lemma WhoWaits(s: State, f: nat)
    requires Inv(s) && f < NBQUEUE && ValidFid(s, f)
    ensures |s.queues[f].buf| <= s.queues[f].capacity
    ensures On(s, Receivers(f)) != [] ==> var h := On(s, Receivers(f))[0];
      s.queues[f].buf == [] && s.procs[h].status == WaitEmpty(f) && s.procs[h].frame.InReceive?
    ensures On(s, Senders(f)) != [] ==> var h := On(s, Senders(f))[0];
      |s.queues[f].buf| == s.queues[f].capacity && s.procs[h].status == WaitFull(f) && s.procs[h].frame.InSend?
  {
    InvKin(s);
    assert QueueOk(s.queues[f], f, s.log);
    hide Core, Kin, Mail;
    if s.queues[f].buf != [] { NoReceivers(s, f); }
    if On(s, Receivers(f)) != [] { FirstReceiver(s, f); }
    if |s.queues[f].buf| != s.queues[f].capacity { NoSenders(s, f); }
    if On(s, Senders(f)) != [] { FirstSender(s, f); }
  }

  lemma FreeIsEmpty(s: State, f: nat)
    requires Inv(s) && f < NBQUEUE && !ValidFid(s, f)
    ensures s.queues[f].buf == [] && s.queues[f].capacity == 0
  {
    InvKin(s);
    hide Core, Structure, Kin;
    assert QueueOk(s.queues[f], f, s.log);
  }

  lemma PSendExact(s: State, step: Step)
    requires Inv(s) && Enabled(s, step) && step.DoPSend?
    ensures Exact(s, step, Do(s, step).s)
  {
    assert s.procs[s.active].status.Running?;
    hide Core, Do, Became, Events, QueueAfter, Exact, Enabled;
    if ValidFid(s, step.fid) { WhoWaits(s, step.fid); } else if 0 <= step.fid < NBQUEUE { FreeIsEmpty(s, step.fid); }
    forall p | 0 <= p < NBPROC ensures Became(s, step, p, Do(s, step).s.procs[p]) {
      PSendBecame(s, step, p);
    }
    PSendMail(s, step);
    ExactIf(s, step, Do(s, step).s);
  }

  lemma PSendBecame(s: State, step: Step, p: nat)
    requires Shape(s) && step.DoPSend? && p < NBPROC && s.procs[s.active].status.Running?
    requires ValidFid(s, step.fid) && On(s, Receivers(step.fid)) != [] ==>
      var h := On(s, Receivers(step.fid))[0]; s.procs[h].status == WaitEmpty(step.fid) && s.procs[h].frame.InReceive?
    ensures Became(s, step, p, Do(s, step).s.procs[p])
  {
    hide Move, StatusAfter, FrameAfter, ParentAfter, PrioAfter;
    QueueCallBecame(s, step, p);
  }

  lemma PSendMail(s: State, step: Step)
    requires Shape(s) && step.DoPSend? && (ValidFid(s, step.fid) ==> |s.queues[step.fid].buf| <= s.queues[step.fid].capacity)
    requires 0 <= step.fid < NBQUEUE && s.queues[step.fid].capacity == 0 ==> s.queues[step.fid].buf == []
    ensures var t := Do(s, step).s;
      && t.active == s.active && t.clock == s.clock && t.log == s.log + Events(s, step)
      && (forall f | 0 <= f < NBQUEUE :: t.queues[f] == QueueAfter(s, step, f))
  {
    hide Move;
  }

  lemma FirstReceiver(s: State, f: nat)
    requires Shape(s) && Structure(s) && Mail(s) && f < NBQUEUE && On(s, Receivers(f)) != []
    ensures var h := On(s, Receivers(f))[0]; s.procs[h].status == WaitEmpty(f) && s.procs[h].frame.InReceive?
  {
    hide Mail;
    HeadPlace(s, Receivers(f));
    CallOf(s, On(s, Receivers(f))[0]);
  }

  lemma FirstSender(s: State, f: nat)
    requires Shape(s) && Structure(s) && Mail(s) && f < NBQUEUE && On(s, Senders(f)) != []
    ensures var h := On(s, Senders(f))[0]; s.procs[h].status == WaitFull(f) && s.procs[h].frame.InSend? && s.procs[h].frame.fid == f
  {
    hide Mail;
    HeadPlace(s, Senders(f));
    CallOf(s, On(s, Senders(f))[0]);
  }

  lemma CallOf(s: State, p: nat)
    requires Shape(s) && Mail(s) && p < NBPROC
    ensures CallOk(s.procs[p], p, s.queues, s.log)
  {
  }

  lemma PReceiveExact(s: State, step: Step)
    requires Inv(s) && Enabled(s, step) && step.DoPReceive?
    ensures Exact(s, step, Do(s, step).s)
  {
    assert s.procs[s.active].status.Running?;
    hide Core, Do, Became, Events, QueueAfter, Exact, Enabled;
    if ValidFid(s, step.fid) { WhoWaits(s, step.fid); } else if 0 <= step.fid < NBQUEUE { FreeIsEmpty(s, step.fid); }
    forall p | 0 <= p < NBPROC ensures Became(s, step, p, Do(s, step).s.procs[p]) {
      PReceiveBecame(s, step, p);
    }
    PReceiveMail(s, step);
    ExactIf(s, step, Do(s, step).s);
  }

  lemma PReceiveBecame(s: State, step: Step, p: nat)
    requires Shape(s) && step.DoPReceive? && p < NBPROC && s.procs[s.active].status.Running?
    requires ValidFid(s, step.fid) && On(s, Senders(step.fid)) != [] ==>
      var h := On(s, Senders(step.fid))[0]; s.procs[h].status == WaitFull(step.fid) && s.procs[h].frame.InSend?
    ensures Became(s, step, p, Do(s, step).s.procs[p])
  {
    hide Move, StatusAfter, FrameAfter, ParentAfter, PrioAfter;
    QueueCallBecame(s, step, p);
  }

  lemma PReceiveMail(s: State, step: Step)
    requires Shape(s) && step.DoPReceive? && (ValidFid(s, step.fid) ==> |s.queues[step.fid].buf| <= s.queues[step.fid].capacity)
    requires 0 <= step.fid < NBQUEUE && s.queues[step.fid].capacity == 0 ==> s.queues[step.fid].buf == []
    requires ValidFid(s, step.fid) && On(s, Senders(step.fid)) != [] ==> s.procs[On(s, Senders(step.fid))[0]].frame.InSend?
    ensures var t := Do(s, step).s;
      && t.active == s.active && t.clock == s.clock && t.log == s.log + Events(s, step)
      && (forall f | 0 <= f < NBQUEUE :: t.queues[f] == QueueAfter(s, step, f))
  {
    hide Move;
  }

  // ---- Flushing ----

  /** All processes waiting at `pl` fail, in the order of the list. */
  ghost predicate AllFailed(s: State, t: State, pl: Place)
    requires Shape(s) && Shape(t) && (pl.Receivers? || pl.Senders?)
  {
    && t.log == s.log + Aborts(pl.fid, On(s, pl)) && On(t, pl) == [] && s.now <= t.now
    && (forall l | l != pl && l != RunQueue :: On(t, l) == On(s, l))
    && (forall p | 0 <= p < NBPROC :: Failed(s.procs[p], t.procs[p], pl, s.now))
  }

  lemma {:induction false} WakeAllExact(s: State, pl: Place)
    requires Shape(s) && Structure(s) && (pl.Receivers? || pl.Senders?)
    ensures Structure(WakeAll(s, pl)) && AllFailed(s, WakeAll(s, pl), pl)
    decreases |On(s, pl)|
  {
    hide Structure, AbortFirst, AllFailed;
    if On(s, pl) != [] {
      HeadOf(s, pl);
      AbortLists(s, pl);
      AbortStructure(s, pl);
      var t := AbortFirst(s, pl);
      WakeAllExact(t, pl);
      FailedFirst(s, pl, WakeAll(t, pl));
    } else {
      NobodyThere(s, pl);
    }
  }

  lemma FailedFirst(s: State, pl: Place, u: State)
    requires Shape(s) && Shape(u) && (pl.Receivers? || pl.Senders?) && On(s, pl) != []
    requires s.procs[On(s, pl)[0]].status.Place() == pl && AllFailed(AbortFirst(s, pl), u, pl)
    ensures AllFailed(s, u, pl)
  {
    hide AbortFirst, Abort, Failed, Aborts, On;
    var l, t := On(s, pl), AbortFirst(s, pl);
    AbortLists(s, pl);
    FirstOut(l);
    AbortsOne(pl.fid, l);
    FailedLog(s.log, t.log, u.log, Aborted(pl.fid, l[0]), Aborts(pl.fid, l[1..]), Aborts(pl.fid, l));
    AbortNow(s, pl);
    FailedProcs(s, pl, u);
  }

  lemma FirstOut(l: seq<nat>)
    requires l != []
    ensures Without(l, l[0]) == l[1..]
  {
  }

  lemma FailedLog(a: seq<Event>, b: seq<Event>, c: seq<Event>, e: Event, x: seq<Event>, y: seq<Event>)
    requires b == a + [e] && c == b + x && [e] + x == y
    ensures c == a + y
  {
    assert a + [e] + x == a + ([e] + x);
  }

  lemma FailedProcs(s: State, pl: Place, u: State)
    requires Shape(s) && Shape(u) && (pl.Receivers? || pl.Senders?) && On(s, pl) != []
    requires s.procs[On(s, pl)[0]].status.Place() == pl
    requires forall p | 0 <= p < NBPROC :: Failed(AbortFirst(s, pl).procs[p], u.procs[p], pl, AbortFirst(s, pl).now)
    ensures forall p | 0 <= p < NBPROC :: Failed(s.procs[p], u.procs[p], pl, s.now)
  {
    hide AbortFirst, Abort, Failed, On;
    forall p | 0 <= p < NBPROC ensures Failed(s.procs[p], u.procs[p], pl, s.now) {
      assert Failed(AbortFirst(s, pl).procs[p], u.procs[p], pl, AbortFirst(s, pl).now);
      FailedOne(s, pl, p, u.procs[p]);
    }
  }

  lemma AbortsOne(f: nat, l: seq<nat>)
    requires l != []
    ensures [Aborted(f, l[0])] + Aborts(f, l[1..]) == Aborts(f, l)
  {
  }

  lemma FailedOne(s: State, pl: Place, p: nat, b: Proc)
    requires Shape(s) && (pl.Receivers? || pl.Senders?) && On(s, pl) != [] && s.procs[On(s, pl)[0]].status.Place() == pl && p < NBPROC
    requires Failed(AbortFirst(s, pl).procs[p], b, pl, AbortFirst(s, pl).now)
    ensures Failed(s.procs[p], b, pl, s.now)
  {
    AbortNow(s, pl);
    hide AbortFirst;
  }

  lemma AbortNow(s: State, pl: Place)
    requires Shape(s) && (pl.Receivers? || pl.Senders?) && On(s, pl) != []
    ensures AbortFirst(s, pl).now == s.now + 1
  {
  }

  ghost predicate Failed(a: Proc, b: Proc, pl: Place, now: nat) {
    if a.status.Place() == pl then b == Abort(a).(status := Runnable, stamp := b.stamp) && b.stamp >= now else b == a
  }

  lemma HeadOf(s: State, pl: Place)
    requires Shape(s) && Structure(s) && On(s, pl) != []
    ensures s.procs[On(s, pl)[0]].status.Place() == pl
  {
    HeadPlace(s, pl);
  }

  lemma NobodyThere(s: State, pl: Place)
    requires Shape(s) && Structure(s) && (pl.Receivers? || pl.Senders?) && On(s, pl) == []
    ensures AllFailed(s, s, pl)
  {
    assert forall p | 0 <= p < NBPROC :: s.procs[p].status.Place() == pl ==> p in On(s, pl);
  }

  lemma FlushExact(s: State, step: Step)
    requires Inv(s) && Enabled(s, step) && (step.DoPDelete? || step.DoPReset?)
    ensures Exact(s, step, Do(s, step).s)
  {
    hide Core, Structure, Kin, Mail, Exact, Do, Enabled, Flush;
    InvKin(s);
    if Occupied(s, step.fid) {
      var q := if step.DoPDelete? then Queue(0, []) else s.queues[step.fid].(buf := []);
      FlushIs(s, step, q);
      FlushedExact(s, step, step.fid, q);
    } else {
      FlushesNone(s, step);
    }
  }

  lemma FlushIs(s: State, step: Step, q: Queue)
    requires Shape(s) && (step.DoPDelete? || step.DoPReset?) && Occupied(s, step.fid)
    requires q == if step.DoPDelete? then Queue(0, []) else s.queues[step.fid].(buf := [])
    ensures Do(s, step).s == Flush(s, step.fid, q)
  {
    hide Flush;
  }

  lemma FlushesNone(s: State, step: Step)
    requires Shape(s) && Mail(s) && (step.DoPDelete? || step.DoPReset?) && !Occupied(s, step.fid)
    ensures Exact(s, step, Do(s, step).s)
  {
    if 0 <= step.fid < NBQUEUE { assert QueueOk(s.queues[step.fid], step.fid, s.log); }
    hide Mail, Flush;
  }

  lemma FlushedExact(s: State, step: Step, f: nat, q: Queue)
    requires Shape(s) && Structure(s) && (step.DoPDelete? || step.DoPReset?) && step.fid == f && Occupied(s, f) && f < NBQUEUE
    requires q == if step.DoPDelete? then Queue(0, []) else s.queues[f].(buf := [])
    ensures Exact(s, step, Flush(s, f, q))
  {
    hide Structure, WakeAll, Became, Abort;
    var t := SetQueue(s, f, q, [Cleared(f)]);
    SameStructure(s, t);
    WakeAllExact(t, Receivers(f));
    var u := WakeAll(t, Receivers(f));
    WakeAllExact(u, Senders(f));
    var v := WakeAll(u, Senders(f));
    assert v.log == s.log + ([Cleared(f)] + Aborts(f, On(s, Receivers(f))) + Aborts(f, On(s, Senders(f))));
    forall p | 0 <= p < NBPROC ensures Became(s, step, p, v.procs[p]) {
      assert Failed(t.procs[p], u.procs[p], Receivers(f), s.now) && Failed(u.procs[p], v.procs[p], Senders(f), u.now);
      FlushedBecame(s, step, f, p, u.procs[p], v.procs[p], u.now);
    }
  }

  lemma FlushedBecame(s: State, step: Step, f: nat, p: nat, b: Proc, c: Proc, later: nat)
    requires Shape(s) && (step.DoPDelete? || step.DoPReset?) && step.fid == f && Occupied(s, f) && p < NBPROC
    requires Failed(s.procs[p], b, Receivers(f), s.now) && Failed(b, c, Senders(f), later) && s.now <= later
    ensures Became(s, step, p, c)
  {
  }

  // ---- Every step ----

  /** What a step does before the scheduler is its exact effect. */
  lemma DoExactly(s: State, step: Step)
    requires Inv(s) && Enabled(s, step)
    ensures Exact(s, step, Do(s, step).s)
  {
    hide Core, Do, Exact, Enabled;
    match step
    case DoStart(_, _, _) => StartExact(s, step);
    case DoStartBackground(_, _, _) => StartExact(s, step);
    case DoKill(_) => StopExact(s, step);
    case DoExit(_) => StopExact(s, step);
    case DoWaitpid(_) => WaitpidExact(s, step);
    case DoResume => WaitpidExact(s, step);
    case DoPSend(_, _) => PSendExact(s, step);
    case DoPReceive(_, _) => PReceiveExact(s, step);
    case DoPDelete(_) => FlushExact(s, step);
    case DoPReset(_) => FlushExact(s, step);
    case _ => CallExact(s, step);
  }
}
