/**
 What every system call and clock interrupt does, as a function from state to state.
 A call that blocks ends when the scheduler has picked another process; the rest of it is
 the separate step `Resume`, taken when the blocked process is running again.
 */
module KernelSpec {
  import opened KernelState

  /** Table sizes, pids in range, and stamps in the past. */
  ghost predicate Shape(s: State) {
    && |s.procs| == NBPROC && |s.queues| == NBQUEUE && s.active < NBPROC
    && (forall pl, i | 0 <= i < |On(s, pl)| :: On(s, pl)[i] < NBPROC)
    && (forall p | 0 <= p < NBPROC :: s.procs[p].stamp < s.now)
  }

  /** Everything but the lists and the process table. */
  ghost predicate SameWorld(s: State, t: State) {
    t.active == s.active && t.queues == s.queues && t.clock == s.clock && t.log == s.log
  }

  // ---- Primitives ----

  function SetProc(s: State, p: nat, q: Proc): (t: State)
    requires Shape(s) && p < NBPROC && q.stamp < s.now
    ensures Shape(t) && SameWorld(s, t)
    ensures t.procs == s.procs[p := q] && forall pl :: On(t, pl) == On(s, pl)
  {
    var t := s.(procs := s.procs[p := q]);
    assert forall pl :: On(t, pl) == On(s, pl);
    t
  }

  /** Takes `p` off the list it is on. */
  function Detach(s: State, p: nat): (t: State)
    requires Shape(s) && p < NBPROC
    ensures Shape(t) && SameWorld(s, t) && t.procs == s.procs && t.now == s.now
    ensures var at := s.procs[p].status.Place();
      forall pl :: On(t, pl) == if pl == at && at != Nowhere then Without(On(s, pl), p) else On(s, pl)
  {
    var at := s.procs[p].status.Place();
    var t := s.(lists := if at == Nowhere then s.lists else s.lists[at := Without(On(s, at), p)]);
    assert forall pl :: On(t, pl) == if pl == at && at != Nowhere then Without(On(s, pl), p) else On(s, pl);
    t
  }

  /** Puts `p`, which is on no list, where its state says it belongs. */
  function Attach(s: State, p: nat): (t: State)
    requires Shape(s) && p < NBPROC
    ensures Shape(t) && SameWorld(s, t) && t.now == s.now + 1
    ensures t.procs == s.procs[p := s.procs[p].(stamp := s.now)]
    ensures var at := s.procs[p].status.Place();
      forall pl :: On(t, pl) == if pl == at && at != Nowhere then Insert(t.procs, pl, On(s, pl), p) else On(s, pl)
  {
    var ps := s.procs[p := s.procs[p].(stamp := s.now)];
    var at := s.procs[p].status.Place();
    assert forall i | 0 <= i < |On(s, at)| :: On(s, at)[i] < |ps|;
    var t := s.(procs := ps, now := s.now + 1,
      lists := if at == Nowhere then s.lists else s.lists[at := Insert(ps, at, On(s, at), p)]);
    assert forall pl :: On(t, pl) == if pl == at && at != Nowhere then Insert(ps, pl, On(s, pl), p) else On(s, pl);
    t
  }

  /** Takes `p` off its list and files it under a new state. */
  function Move(s: State, p: nat, st: Status): (t: State)
    requires Shape(s) && p < NBPROC
    ensures Shape(t) && SameWorld(s, t) && t.now == s.now + 1
    ensures t.procs == s.procs[p := s.procs[p].(status := st, stamp := s.now)]
  {
    var d := Detach(s, p);
    Attach(SetProc(d, p, d.procs[p].(status := st)), p)
  }

  // ---- Scheduler ----

  /** Moves every sleeper whose time has come to the run queue, earliest first. */
  function WakeDue(s: State): (t: State)
    requires Shape(s)
    ensures Shape(t) && SameWorld(s, t)
    decreases |On(s, Sleepers)|
  {
    var l := On(s, Sleepers);
    if l != [] && s.procs[l[0]].status.Asleep? && s.clock >= s.procs[l[0]].status.wake then
      var t := Move(s, l[0], Runnable);
      assert On(t, Sleepers) == Without(l, l[0]);
      WakeDue(t)
    else s
  }

  predicate MustSwitch(s: State)
    requires Shape(s)
  {
    var run := On(s, RunQueue);
    || !s.procs[s.active].status.Running?
    || (run != [] && s.procs[run[0]].prio >= s.procs[s.active].prio)
  }

  function SetActive(s: State, h: nat): (t: State)
    requires Shape(s) && h < NBPROC
    ensures Shape(t) && t == s.(active := h) && forall pl :: On(t, pl) == On(s, pl)
  {
    var t := s.(active := h);
    assert forall pl :: On(t, pl) == On(s, pl);
    t
  }

  /** Hands the processor to the head of the run queue. */
  function Switch(s: State): (t: State)
    requires Shape(s) && On(s, RunQueue) != []
    ensures Shape(t)
    ensures t.active == On(s, RunQueue)[0]
  {
    var h := On(s, RunQueue)[0];
    var t := SetActive(Move(s, h, Running), h);
    if s.procs[s.active].status.Running? then Move(t, s.active, Runnable) else t
  }

  function Tick(s: State): (t: State)
    requires Shape(s)
    ensures Shape(t)
  {
    var w := WakeDue(s);
    if MustSwitch(w) && On(w, RunQueue) != [] then Switch(w) else w
  }

  function Fix(s: State): (t: State)
    requires Shape(s)
    ensures Shape(t)
  {
    var run := On(s, RunQueue);
    if !s.procs[s.active].status.Running? || (run != [] && s.procs[s.active].prio < s.procs[run[0]].prio)
    then Tick(s) else s
  }

  /**
   What a step does before it reaches the scheduler, and how it ends: without the scheduler,
   in fix_scheduler, or in tick_scheduler.
   */
  datatype Act = Plain(s: State) | ThenFix(s: State) | ThenTick(s: State)

  function Finish(a: Act): (t: State)
    requires Shape(a.s)
    ensures Shape(t)
  {
    match a
    case Plain(s) => s
    case ThenFix(s) => Fix(s)
    case ThenTick(s) => Tick(s)
  }

  /** One clock interrupt; every CLOCKS_PER_TICK of them the scheduler runs. */
  function ClockTick(s: State): (a: Act)
    requires Shape(s)
    ensures Shape(a.s)
  {
    var c := (s.clock + 1) % CLOCKWRAP;
    var t := s.(clock := c);
    assert forall pl :: On(t, pl) == On(s, pl);
    if c % CLOCKS_PER_TICK == 0 then ThenTick(t) else Plain(t)
  }

  predicate AlivePid(s: State, pid: int)
    requires Shape(s)
  {
    0 <= pid < NBPROC && s.procs[pid].status.Alive()
  }

  predicate StackFits(user: Mode, ssize: nat) {
    if user.User? then ssize <= MAXSTACK else ssize / 4 <= NBSTACK
  }

  /** Without memory for its stack, a process is not started and its slot is lost. */
  function NewStatus(user: Mode): Status {
    if user == User(false) then Lost else Runnable
  }

  function StartBackground(s: State, user: Mode, ssize: nat, prio: int): (t: State)
    requires Shape(s)
    ensures Shape(t)
  {
    var free := On(s, Free);
    if !StackFits(user, ssize) || free == [] then s
    else
      var p := free[0];
      var d := Detach(s, p);
      var q := d.procs[p].(parent := s.active, prio := prio, status := NewStatus(user), frame := NoCall);
      Attach(SetProc(d, p, q), p)
  }

  function Start(s: State, user: Mode, ssize: nat, prio: int): (a: Act)
    requires Shape(s)
    ensures Shape(a.s)
  {
    ThenFix(StartBackground(s, user, ssize, prio))
  }

  /** Whether a priority change moves a process in this state. */
  predicate OrderedByPriority(st: Status) {
    st.Runnable? || st.WaitEmpty? || st.WaitFull?
  }

  function Reprioritise(s: State, p: nat, prio: int): (t: State)
    requires Shape(s) && p < NBPROC
    ensures Shape(t) && SameWorld(s, t)
    ensures t.procs == s.procs[p := s.procs[p].(prio := prio, stamp := t.procs[p].stamp)]
  {
    if OrderedByPriority(s.procs[p].status) then
      var d := Detach(s, p);
      Attach(SetProc(d, p, d.procs[p].(prio := prio)), p)
    else SetProc(s, p, s.procs[p].(prio := prio))
  }

  function Chprio(s: State, pid: int, prio: int): (a: Act)
    requires Shape(s)
    ensures Shape(a.s)
  {
    if !AlivePid(s, pid) || prio <= 0 || prio > MAXPRIO || s.procs[pid].prio == prio then Plain(s)
    else ThenFix(Reprioritise(s, pid, prio))
  }

  /** The children of `p` with pids from `i` on lose their parent; its zombies are reaped. */
  function Unbind(s: State, p: nat, i: nat): (t: State)
    requires Shape(s) && p < NBPROC && i <= NBPROC
    ensures Shape(t) && SameWorld(s, t)
    decreases NBPROC - i
  {
    if i == NBPROC then s
    else if s.procs[i].parent != p then Unbind(s, p, i + 1)
    else if s.procs[i].status.Zombie? then Unbind(Move(s, i, Dead), p, i + 1)
    else Unbind(SetProc(s, i, s.procs[i].(parent := NOPID)), p, i + 1)
  }

  /** Ends `p`: straight to the free stack without a parent, else to a zombie that wakes a waiting parent. */
  function Bury(s: State, p: nat, retval: int): (t: State)
    requires Shape(s) && p < NBPROC
    ensures Shape(t) && SameWorld(s, t)
  {
    var q := s.procs[p].parent;
    if q == NOPID then Move(s, p, Dead)
    else
      var t := Move(s, p, Zombie(retval));
      if 0 <= q < NBPROC && t.procs[q].status.WaitChild? && t.procs[q].frame.InWaitpid?
        && (t.procs[q].frame.child == NOPID || t.procs[q].frame.child == p)
      then Move(SetProc(t, q, t.procs[q].(frame := InWaitpid(p))), q, Runnable)
      else t
  }

  function Stop(s: State, pid: int, retval: int): (a: Act)
    requires Shape(s)
    ensures Shape(a.s)
  {
    if !AlivePid(s, pid) then Plain(s)
    else ThenFix(Bury(Unbind(s, pid, 0), pid, retval))
  }

  function Kill(s: State, pid: int): (a: Act)
    requires Shape(s)
    ensures Shape(a.s)
  {
    if pid <= 0 then Plain(s) else Stop(s, pid, 0)
  }

  function Exit(s: State, retval: int): (a: Act)
    requires Shape(s)
    ensures Shape(a.s)
  {
    Stop(s, s.active, retval)
  }

  function WaitClock(s: State, clock: nat): (a: Act)
    requires Shape(s)
    ensures Shape(a.s)
  {
    ThenTick(Move(s, s.active, Asleep(clock)))
  }

  /** The first zombie child of `p` with a pid of at least `i`, or NBPROC. */
  function ZombieChild(s: State, p: nat, i: nat): (k: nat)
    requires Shape(s) && i <= NBPROC
    ensures i <= k <= NBPROC
    ensures k < NBPROC ==> s.procs[k].parent == p && s.procs[k].status.Zombie?
    ensures forall j | i <= j < k :: !(s.procs[j].parent == p && s.procs[j].status.Zombie?)
    decreases NBPROC - i
  {
    if i == NBPROC || (s.procs[i].parent == p && s.procs[i].status.Zombie?) then i
    else ZombieChild(s, p, i + 1)
  }

  predicate IsChild(s: State, p: nat, c: int)
    requires Shape(s)
  {
    0 <= c < NBPROC && s.procs[c].parent == p && !s.procs[c].status.Dead? && !s.procs[c].status.Lost?
  }

  /** What waitpid finds before it decides to block. */
  datatype Found = NoSuchPid | NotMyChild | Reapable(child: nat) | MustWait

  function Look(s: State, pid: int): (r: Found)
    requires Shape(s)
    ensures r.Reapable? ==> r.child < NBPROC && s.procs[r.child].status.Zombie? && s.procs[r.child].parent == s.active
  {
    if pid >= 0 then
      if pid >= NBPROC || s.procs[pid].status.Dead? || s.procs[pid].status.Lost? then NoSuchPid
      else if s.procs[pid].parent != s.active then NotMyChild
      else if s.procs[pid].status.Zombie? then Reapable(pid)
      else MustWait
    else
      var k := ZombieChild(s, s.active, 0);
      if k < NBPROC then Reapable(k)
      else if exists c | 0 <= c < NBPROC :: IsChild(s, s.active, c) then MustWait
      else NotMyChild
  }

  function Waitpid(s: State, pid: int): (a: Act)
    requires Shape(s)
    ensures Shape(a.s)
  {
    match Look(s, pid)
    case Reapable(c) => Plain(Move(s, c, Dead))
    case MustWait =>
      ThenTick(Move(SetProc(s, s.active, s.procs[s.active].(frame := InWaitpid(pid))), s.active, WaitChild))
    case _ => Plain(s)
  }

  // ---- Queues ----

  predicate ValidFid(s: State, fid: int)
    requires Shape(s)
  {
    0 <= fid < NBQUEUE && s.queues[fid].capacity != 0
  }

  /** A slot that pcreate passes over: it holds a queue, or is half-made. */
  predicate Occupied(s: State, fid: int)
    requires Shape(s)
  {
    0 <= fid < NBQUEUE && (s.queues[fid].capacity != 0 || s.queues[fid].half != 0)
  }

  /** Replaces the buffer of `f` and records what happened to its messages. */
  function SetQueue(s: State, f: nat, q: Queue, events: seq<Event>): (t: State)
    requires Shape(s) && f < NBQUEUE
    ensures Shape(t) && t.procs == s.procs && t.active == s.active && t.clock == s.clock && t.now == s.now
    ensures t.queues == s.queues[f := q] && t.log == s.log + events && forall pl :: On(t, pl) == On(s, pl)
  {
    var t := s.(queues := s.queues[f := q], log := s.log + events);
    assert forall pl :: On(t, pl) == On(s, pl);
    t
  }

  /** The first free slot from `i` on, or NBQUEUE. */
  function FreeQueue(s: State, i: nat): (k: nat)
    requires Shape(s) && i <= NBQUEUE
    ensures i <= k <= NBQUEUE
    ensures k < NBQUEUE ==> !Occupied(s, k)
    ensures forall j | i <= j < k :: Occupied(s, j)
    decreases NBQUEUE - i
  {
    if i == NBQUEUE || !Occupied(s, i) then i else FreeQueue(s, i + 1)
  }

  /** Makes a queue in the first free slot, or half of one if there is no memory for its buffer. */
  function PCreate(s: State, count: int, memory: bool): (t: State)
    requires Shape(s)
    ensures Shape(t)
  {
    if count <= 0 || count > MAXCAPACITY then s
    else
      var f := FreeQueue(s, 0);
      if f == NBQUEUE then s else SetQueue(s, f, if memory then Queue(count, []) else Queue(0, [], count), [])
  }

  /** Stores -1 through the return-value pointer of a blocked queue call. */
  function Fail(fr: Frame): Frame {
    if fr.InReceive? || fr.InSend? then fr.(retval := -1) else fr
  }

  function Abort(q: Proc): Proc {
    q.(frame := Fail(q.frame))
  }

  function Logged(s: State, e: Event): (t: State)
    requires Shape(s)
    ensures Shape(t) && t == s.(log := s.log + [e]) && forall pl :: On(t, pl) == On(s, pl)
  {
    var t := s.(log := s.log + [e]);
    assert forall pl :: On(t, pl) == On(s, pl);
    t
  }

  /** Fails the call of the first process waiting at `pl`. */
  function AbortFirst(s: State, pl: Place): (t: State)
    requires Shape(s) && (pl.Receivers? || pl.Senders?) && On(s, pl) != []
    ensures Shape(t) && t.active == s.active && t.clock == s.clock && t.queues == s.queues
    ensures var h := On(s, pl)[0];
      && t.procs == s.procs[h := Abort(s.procs[h]).(status := Runnable, stamp := s.now)]
      && t.log == s.log + [Aborted(pl.fid, h)]
  {
    var h := On(s, pl)[0];
    Move(Logged(SetProc(s, h, Abort(s.procs[h])), Aborted(pl.fid, h)), h, Runnable)
  }

  /** Fails the call of every process waiting at `pl`. */
  function WakeAll(s: State, pl: Place): (t: State)
    requires Shape(s) && (pl.Receivers? || pl.Senders?)
    ensures Shape(t) && t.active == s.active && t.clock == s.clock && t.queues == s.queues
    decreases |On(s, pl)|
  {
    var l := On(s, pl);
    if l == [] || s.procs[l[0]].status.Place() != pl then s
    else
      var t := AbortFirst(s, pl);
      assert On(t, pl) == Without(l, l[0]);
      WakeAll(t, pl)
  }

  /** Replaces queue `f` by `q`, and fails the calls of all processes waiting on it. */
  function Flush(s: State, f: nat, q: Queue): (t: State)
    requires Shape(s) && f < NBQUEUE
    ensures Shape(t) && t.active == s.active
  {
    var t := SetQueue(s, f, q, [Cleared(f)]);
    WakeAll(WakeAll(t, Receivers(f)), Senders(f))
  }

  function PDelete(s: State, fid: int): (a: Act)
    requires Shape(s)
    ensures Shape(a.s)
  {
    if !Occupied(s, fid) then Plain(s) else ThenFix(Flush(s, fid, Queue(0, [])))
  }

  function PReset(s: State, fid: int): (a: Act)
    requires Shape(s)
    ensures Shape(a.s)
  {
    if !Occupied(s, fid) then Plain(s) else ThenFix(Flush(s, fid, s.queues[fid].(buf := [])))
  }

  /** The running process starts to wait on queue `f` with the given call frame. */
  function Block(s: State, fr: Frame, st: Status): (t: State)
    requires Shape(s)
    ensures Shape(t) && SameWorld(s, t)
  {
    var a := s.active;
    Move(SetProc(s, a, s.procs[a].(frame := fr, since := |s.log|)), a, st)
  }

  /** Stores a message through the pointer a receiver left, unless it is null. */
  function Fill(fr: Frame, v: int): Frame {
    if fr.InReceive? && fr.cell != NullCell then fr.(cell := Written(v)) else fr
  }

  /** Hands `v` to the first process waiting to receive from `f`, and wakes it. */
  function HandOff(s: State, f: nat, v: int): (t: State)
    requires Shape(s) && f < NBQUEUE && On(s, Receivers(f)) != []
    ensures Shape(t)
  {
    var h := On(s, Receivers(f))[0];
    var p := s.procs[h];
    var t := SetQueue(s, f, s.queues[f], [Accepted(f, s.active, v), Delivered(f, h, v)]);
    Move(SetProc(t, h, p.(frame := Fill(p.frame, v))), h, Runnable)
  }

  function Store(s: State, f: nat, v: int): (t: State)
    requires Shape(s) && f < NBQUEUE
    ensures Shape(t)
  {
    var q := s.queues[f];
    SetQueue(s, f, q.(buf := q.buf + [v]), [Accepted(f, s.active, v)])
  }

  function PSend(s: State, fid: int, message: int): (a: Act)
    requires Shape(s)
    ensures Shape(a.s)
  {
    if !ValidFid(s, fid) then Plain(s)
    else
      var q := s.queues[fid];
      if |q.buf| == q.capacity then ThenTick(Block(s, InSend(fid, 0, message), WaitFull(fid)))
      else if q.buf == [] && On(s, Receivers(fid)) != [] then ThenFix(HandOff(s, fid, message))
      else Plain(Store(s, fid, message))
  }

  /** Takes the oldest message of `f`. */
  function Fetch(s: State, f: nat): (t: State)
    requires Shape(s) && f < NBQUEUE && s.queues[f].buf != []
    ensures Shape(t)
  {
    var q := s.queues[f];
    SetQueue(s, f, q.(buf := q.buf[1..]), [Delivered(f, s.active, q.buf[0])])
  }

  function Pending(p: Proc): int {
    if p.frame.InSend? then p.frame.message else 0
  }

  /** Moves the message of the first process waiting to send to `f` into the buffer, and wakes it. */
  function Admit(s: State, f: nat): (t: State)
    requires Shape(s) && f < NBQUEUE && On(s, Senders(f)) != []
    ensures Shape(t)
  {
    var h := On(s, Senders(f))[0];
    var q := s.queues[f];
    var v := Pending(s.procs[h]);
    Move(SetQueue(s, f, q.(buf := q.buf + [v]), [Accepted(f, h, v)]), h, Runnable)
  }

  function PReceive(s: State, fid: int, toNull: bool): (a: Act)
    requires Shape(s)
    ensures Shape(a.s)
  {
    if !ValidFid(s, fid) then Plain(s)
    else if s.queues[fid].buf == [] then 
      ThenTick(Block(s, InReceive(fid, 0, if toNull then NullCell else Unwritten), WaitEmpty(fid)))
    else
      var t := Fetch(s, fid);
      if |t.queues[fid].buf| == t.queues[fid].capacity - 1 && On(t, Senders(fid)) != [] then ThenFix(Admit(t, fid))
      else Plain(t)
  }

  /** What pcount reports. */
  function PCount(s: State, f: nat): int
    requires Shape(s) && f < NBQUEUE
  {
    var q := s.queues[f];
    if q.buf == [] then -|On(s, Receivers(f))| else |q.buf| + |On(s, Senders(f))|
  }

  // ---- Returning from a blocked call ----

  function Resume(s: State): (t: State)
    requires Shape(s)
    ensures Shape(t)
  {
    var a := s.active;
    var t := SetProc(s, a, s.procs[a].(frame := NoCall));
    match s.procs[a].frame
    case InWaitpid(c) => if 0 <= c < NBPROC then Move(t, c, Dead) else t
    case _ => t
  }

  // ---- The state machine ----

  datatype Step =
    | DoClock
    | DoStart(user: Mode, ssize: nat, prio: int)
    | DoStartBackground(user: Mode, ssize: nat, prio: int)
    | DoChprio(pid: int, prio: int)
    | DoKill(pid: int)
    | DoExit(retval: int)
    | DoWaitClock(clock: nat)
    | DoWaitpid(pid: int)
    | DoPCreate(count: int, memory: bool)
    | DoPDelete(fid: int)
    | DoPReset(fid: int)
    | DoPSend(fid: int, message: int)
    | DoPReceive(fid: int, toNull: bool)
    | DoResume

  /** Whether this call, made now, puts its caller to sleep. */
  predicate Blocks(s: State, step: Step)
    requires Shape(s)
  {
    match step
    case DoExit(_) => true
    case DoWaitClock(_) => true
    case DoWaitpid(pid) => Look(s, pid).MustWait?
    case DoPSend(fid, _) => ValidFid(s, fid) && |s.queues[fid].buf| == s.queues[fid].capacity
    case DoPReceive(fid, _) => ValidFid(s, fid) && s.queues[fid].buf == []
    case _ => false
  }

  /**
   Interrupts come at any time.  A process that was blocked finishes its call before it makes
   another one, and the idle process never blocks.  Nobody uses a half-made queue, whose number no call has returned.
   */
  predicate Enabled(s: State, step: Step)
    requires Shape(s)
  {
    && (step.DoClock? || (step.DoResume? <==> s.procs[s.active].frame != NoCall))
    && (Blocks(s, step) ==> s.active != 0)
    && ((step.DoPSend? || step.DoPReceive?) && 0 <= step.fid < NBQUEUE ==> s.queues[step.fid].half == 0)
  }

  function Do(s: State, step: Step): (a: Act)
    requires Shape(s)
    ensures Shape(a.s)
  {
    match step
    case DoClock => ClockTick(s)
    case DoStart(u, z, prio) => Start(s, u, z, prio)
    case DoStartBackground(u, z, prio) => Plain(StartBackground(s, u, z, prio))
    case DoChprio(pid, prio) => Chprio(s, pid, prio)
    case DoKill(pid) => Kill(s, pid)
    case DoExit(retval) => Exit(s, retval)
    case DoWaitClock(clock) => WaitClock(s, clock)
    case DoWaitpid(pid) => Waitpid(s, pid)
    case DoPCreate(count, memory) => Plain(PCreate(s, count, memory))
    case DoPDelete(fid) => PDelete(s, fid)
    case DoPReset(fid) => PReset(s, fid)
    case DoPSend(fid, message) => PSend(s, fid, message)
    case DoPReceive(fid, toNull) => PReceive(s, fid, toNull)
    case DoResume => Plain(Resume(s))
  }

  function Next(s: State, step: Step): (t: State)
    requires Shape(s)
    ensures Shape(t)
  {
    Finish(Do(s, step))
  }

  /** The state left by setup_scheduler: idle runs, every other slot is free in pid order. */
  function Initial(): (s: State)
    ensures Shape(s)
  {
    var procs := seq(NBPROC, i requires 0 <= i < NBPROC =>
      Proc(if i == 0 then NOPID else 0, 0, if i == 0 then Running else Dead, NoCall, NBPROC - i, 0));
    var free := seq(NBPROC - 1, i requires 0 <= i < NBPROC - 1 => i + 1);
    var s := State(procs, 0, map[Free := free], seq(NBQUEUE, _ => Queue(0, [])), 0, NBPROC + 1, []);
    assert forall pl :: On(s, pl) == if pl == Free then free else [];
    s
  }

  predicate ValidRun(s: State, steps: seq<Step>)
    requires Shape(s)
    decreases |steps|
  {
    steps == [] || (Enabled(s, steps[0]) && ValidRun(Next(s, steps[0]), steps[1..]))
  }

  function Run(s: State, steps: seq<Step>): (t: State)
    requires Shape(s)
    ensures Shape(t)
    decreases |steps|
  {
    if steps == [] then s else Run(Next(s, steps[0]), steps[1..])
  }
}
