/** The invariant of the whole kernel and the proof that every step keeps it. */
module KernelInvariant {
  import opened KernelState
  import opened KernelSpec
  import opened KernelPlaces
  import opened KernelScheduling
  import opened KernelFamily
  import opened KernelMail

  /** What holds whenever the scheduler is entered. */
  ghost predicate Core(s: State)
    requires Shape(s)
  {
    Structure(s) && Kin(s) && Mail(s)
  }

  /** What holds between steps. */
  ghost predicate Inv(s: State) {
    Shape(s) && Core(s) && ActiveRuns(s)
  }

  /** What holds when a step has done its work and is about to end. */
  ghost predicate Good(a: Act) {
    Shape(a.s) && Core(a.s) && (a.Plain? ==> ActiveRuns(a.s))
  }

  lemma CoreTick(s: State)
    requires Shape(s) && Core(s)
    ensures Inv(Tick(s)) && NoneDue(Tick(s)) && Settled(Tick(s)) && Scheduled(s, Tick(s))
  {
    hide Structure, Kin, Mail, Tick, Scheduled;
    TickWorks(s);
    KinScheduled(s, Tick(s));
    MailScheduled(s, Tick(s));
  }

  lemma CoreFix(s: State)
    requires Shape(s) && Core(s)
    ensures Inv(Fix(s)) && Settled(Fix(s)) && Scheduled(s, Fix(s))
  {
    hide Structure, Kin, Mail, Fix, Scheduled;
    FixWorks(s);
    KinScheduled(s, Fix(s));
    MailScheduled(s, Fix(s));
  }

  // ---- Structure ----

  lemma MoveStructure(s: State, p: nat, st: Status)
    requires Shape(s) && p < NBPROC && Structure(s) && !st.Running? && (p == 0 ==> st.Runnable?)
    ensures Structure(Move(s, p, st))
  {
    hide Tidy, Move;
    MoveTidy(s, p, st);
  }

  /** Changing what no list and no scheduling decision looks at. */
  lemma SetProcStructure(s: State, p: nat, q: Proc)
    requires Shape(s) && p < NBPROC && Structure(s) && q.stamp == s.procs[p].stamp && q.status == s.procs[p].status
    requires q.prio == s.procs[p].prio || !OrderedByPriority(q.status)
    ensures Structure(SetProc(s, p, q))
  {
    hide Tidy;
    SetProcSameTidy(s, p, q, {});
  }

  /** Lists and processes decide the structure; queues, log and clock do not. */
  lemma SameStructure(s: State, t: State)
    requires Shape(s) && Shape(t) && Structure(s)
    requires t.procs == s.procs && t.active == s.active && forall pl :: On(t, pl) == On(s, pl)
    ensures Structure(t)
  {
  }

  /** A process off its list may change status and priority before it is put back. */
  lemma ReplaceStructure(s: State, p: nat, q: Proc)
    requires Shape(s) && p < NBPROC && Structure(s) && q.stamp < s.now && !q.status.Running?
    requires p == 0 ==> q.status.Runnable?
    ensures Structure(Attach(SetProc(Detach(s, p), p, q), p))
  {
    hide Tidy, Attach, Detach;
    DetachTidy(s, p, {});
    var d := Detach(s, p);
    assert {} + {p} == {p} && {p} - {p} == {};
    SetProcTidy(d, p, q, {p});
    AttachTidy(SetProc(d, p, q), p, {p});
  }

  // ---- Processes ----

  lemma ClockKeeps(s: State)
    requires Inv(s)
    ensures Good(ClockTick(s))
  {
    hide Structure, Kin, Mail;
    var t := s.(clock := (s.clock + 1) % CLOCKWRAP);
    assert forall pl :: On(t, pl) == On(s, pl);
    SameStructure(s, t);
    KinSame(s, t);
    MailSame(s, t);
  }

  lemma DeadNotIdle(s: State, p: nat)
    requires Shape(s) && Structure(s) && p < NBPROC && s.procs[p].status.Dead?
    ensures p != 0
  {
  }

  lemma StartKeeps(s: State, user: Mode, ssize: nat, prio: int)
    requires Inv(s)
    ensures Inv(StartBackground(s, user, ssize, prio))
  {
    hide Structure, Kin, Mail, StartBackground, Attach, Detach, SetProc;
    if StackFits(user, ssize) && On(s, Free) != [] {
      StartKin(s, user, ssize, prio);
      StartStructure(s, user, ssize, prio);
      StartMail(s, user, ssize, prio);
    } else {
      StartNothing(s, user, ssize, prio);
    }
  }

  lemma StartStructure(s: State, user: Mode, ssize: nat, prio: int)
    requires Shape(s) && Structure(s) && ActiveRuns(s) && StackFits(user, ssize) && On(s, Free) != []
    ensures var t := StartBackground(s, user, ssize, prio); Structure(t) && ActiveRuns(t)
  {
    hide Structure, StartBackground, Attach, Detach, SetProc;
    StartProcs(s, user, ssize, prio);
    StartForm(s, user, ssize, prio);
    var p := On(s, Free)[0];
    DeadNotIdle(s, p);
    StampsPast(s, p);
    ReplaceStructure(s, p, s.procs[p].(parent := s.active, prio := prio, status := NewStatus(user), frame := NoCall));
  }

  lemma StampsPast(s: State, p: nat)
    requires Shape(s) && Structure(s) && p < NBPROC
    ensures s.procs[p].stamp < s.now
  {
  }

  lemma StartMail(s: State, user: Mode, ssize: nat, prio: int)
    requires Shape(s) && Structure(s) && Mail(s) && StackFits(user, ssize) && On(s, Free) != []
    ensures Mail(StartBackground(s, user, ssize, prio))
  {
    hide Structure, Mail, StartBackground, Attach, Detach, SetProc;
    StartProcs(s, user, ssize, prio);
    StartForm(s, user, ssize, prio);
    MailSame(s, StartBackground(s, user, ssize, prio));
  }

  lemma StartForm(s: State, user: Mode, ssize: nat, prio: int)
    requires Shape(s) && StackFits(user, ssize) && On(s, Free) != []
    ensures var p, t := On(s, Free)[0], StartBackground(s, user, ssize, prio);
      && t == Attach(SetProc(Detach(s, p), p, s.procs[p].(parent := s.active, prio := prio, status := NewStatus(user), frame := NoCall)), p)
      && t.active == s.active
  {
    hide Attach, Detach;
  }

  lemma StartNothing(s: State, user: Mode, ssize: nat, prio: int)
    requires Shape(s) && (!StackFits(user, ssize) || On(s, Free) == [])
    ensures StartBackground(s, user, ssize, prio) == s
  {
  }

  lemma ReprioritiseStructure(s: State, p: nat, prio: int)
    requires Shape(s) && Structure(s) && p < NBPROC
    ensures Structure(Reprioritise(s, p, prio))
  {
    hide Tidy, Attach, Detach;
    var q := s.procs[p].(prio := prio);
    if OrderedByPriority(q.status) {
      ReplaceStructure(s, p, q);
    } else {
      SetProcStructure(s, p, q);
    }
  }

  lemma ChprioKeeps(s: State, pid: int, prio: int)
    requires Inv(s)
    ensures Good(Chprio(s, pid, prio))
  {
    hide Structure, Kin, Mail, Reprioritise;
    if AlivePid(s, pid) {
      var t := Reprioritise(s, pid, prio);
      ReprioritiseStructure(s, pid, prio);
      KinSame(s, t);
      MailSame(s, t);
    }
  }

  lemma {:induction false} UnbindStructure(s: State, p: nat, i: nat)
    requires Shape(s) && p < NBPROC && i <= NBPROC && Structure(s)
    ensures Structure(Unbind(s, p, i))
    decreases NBPROC - i
  {
    hide Tidy, Move;
    if i < NBPROC {
      if s.procs[i].parent != p {
        UnbindStructure(s, p, i + 1);
      } else if s.procs[i].status.Zombie? {
        MoveStructure(s, i, Dead);
        UnbindStructure(Move(s, i, Dead), p, i + 1);
      } else {
        SetProcStructure(s, i, s.procs[i].(parent := NOPID));
        UnbindStructure(SetProc(s, i, s.procs[i].(parent := NOPID)), p, i + 1);
      }
    }
  }

  lemma BuryStructure(s: State, p: nat, retval: int)
    requires Shape(s) && 0 < p < NBPROC && Structure(s)
    ensures Structure(Bury(s, p, retval))
  {
    hide Tidy, Move;
    var q := s.procs[p].parent;
    if q == NOPID {
      MoveStructure(s, p, Dead);
    } else {
      var t := Move(s, p, Zombie(retval));
      MoveStructure(s, p, Zombie(retval));
      if 0 <= q < NBPROC {
        SetProcStructure(t, q, t.procs[q].(frame := InWaitpid(p)));
        MoveStructure(SetProc(t, q, t.procs[q].(frame := InWaitpid(p))), q, Runnable);
      }
    }
  }

  lemma BuryMail(s: State, p: nat, retval: int)
    requires Shape(s) && p < NBPROC && Mail(s)
    ensures Mail(Bury(s, p, retval))
  {
    hide Move, Mail;
    MailSame(s, Bury(s, p, retval));
  }

  lemma UnbindMail(s: State, p: nat)
    requires Shape(s) && p < NBPROC && Mail(s)
    ensures Mail(Unbind(s, p, 0))
  {
    hide Unbind, Mail;
    UnbindProcs(s, p, 0);
    var t := Unbind(s, p, 0);
    forall q | 0 <= q < NBPROC ensures SameCall(s.procs[q], t.procs[q]) {
      assert Unbound(s.procs[q], t.procs[q], p);
    }
    MailSame(s, t);
  }

  lemma StopKeeps(s: State, pid: int, retval: int)
    requires Inv(s) && pid != 0
    ensures Good(Stop(s, pid, retval))
  {
    hide Structure, Kin, Mail, Unbind, Bury;
    if AlivePid(s, pid) {
      UnbindStructure(s, pid, 0);
      UnbindKin(s, pid);
      UnbindMail(s, pid);
      var t := Unbind(s, pid, 0);
      BuryStructure(t, pid, retval);
      BuryKin(t, pid, retval);
      BuryMail(t, pid, retval);
    }
  }

  lemma WaitClockKeeps(s: State, clock: nat)
    requires Inv(s) && s.active != 0
    ensures Good(WaitClock(s, clock))
  {
    hide Structure, Kin, Mail, Move;
    var t := Move(s, s.active, Asleep(clock));
    MoveStructure(s, s.active, Asleep(clock));
    KinSame(s, t);
    MailSame(s, t);
  }

  lemma WaitpidKeeps(s: State, pid: int)
    requires Inv(s) && s.procs[s.active].frame == NoCall && (Look(s, pid).MustWait? ==> s.active != 0)
    ensures Good(Waitpid(s, pid))
  {
    hide Structure, Kin, Mail, Move, Look;
    var a := s.active;
    match Look(s, pid)
    case Reapable(c) =>
      var t := Move(s, c, Dead);
      ZombieIsNotIdle(s, c);
      MoveStructure(s, c, Dead);
      ReapKin(s, t, a, c);
      MailSame(s, t);
    case MustWait =>
      var q := s.procs[a].(frame := InWaitpid(pid));
      var t := SetProc(s, a, q);
      var u := Move(t, a, WaitChild);
      SetProcStructure(s, a, q);
      MoveStructure(t, a, WaitChild);
      WaitKin(s, u, pid);
      MailSame(s, u);
    case _ =>
  }

  lemma ZombieIsNotIdle(s: State, c: nat)
    requires Shape(s) && Structure(s) && c < NBPROC && s.procs[c].status.Zombie?
    ensures ActiveRuns(s) ==> c != s.active
    ensures c != 0
  {
  }

  lemma ResumeKeeps(s: State)
    requires Inv(s)
    ensures Inv(Resume(s))
  {
    hide Structure, Kin, Mail, Move;
    var a := s.active;
    var q := s.procs[a].(frame := NoCall);
    var t := SetProc(s, a, q);
    SetProcStructure(s, a, q);
    match s.procs[a].frame
    case InWaitpid(c) =>
      WokenChild(s);
      ZombieIsNotIdle(s, c);
      var u := Move(t, c, Dead);
      MoveStructure(t, c, Dead);
      ReapKin(s, u, a, c);
      MailSame(s, u);
    case _ =>
      KinSame(s, t);
      MailSame(s, t);
  }

  /** When a blocked waitpid comes back, its slot names a zombie child of the caller. */
  lemma WokenChild(s: State)
    requires Shape(s) && Kin(s) && ActiveRuns(s) && s.procs[s.active].frame.InWaitpid?
    ensures ZombieOf(s, s.active, s.procs[s.active].frame.child)
  {
    assert WaitOk(s, s.active);
  }

  // ---- Queues ----

  lemma PCreateKeeps(s: State, count: int, memory: bool)
    requires Inv(s)
    ensures Inv(PCreate(s, count, memory))
  {
    var t := PCreate(s, count, memory);
    SameStructure(s, t);
    KinSame(s, t) by { hide Tidy, Mail; }
    hide Tidy, Kin;
    var f := FreeQueue(s, 0);
    if 0 < count <= MAXCAPACITY && f < NBQUEUE {
      FreshMail(s, f, t.queues[f]);
    }
  }

  /** A slot that held no queue holds an empty one, or is half-made. */
  lemma FreshMail(s: State, f: nat, q: Queue)
    requires Shape(s) && Mail(s) && f < NBQUEUE && s.queues[f].capacity == 0 && Vacant(q)
    ensures Mail(SetQueue(s, f, q, []))
  {
    var t := SetQueue(s, f, q, []);
    assert t.log == s.log;
    assert QueueOk(s.queues[f], f, s.log);
    forall g | 0 <= g < NBQUEUE ensures QueueOk(t.queues[g], g, t.log) {
      assert QueueOk(s.queues[g], g, s.log);
    }
    forall p | 0 <= p < NBPROC ensures CallOk(t.procs[p], p, t.queues, t.log) {
      assert CallOk(s.procs[p], p, s.queues, s.log);
    }
  }

  lemma AbortLists(s: State, pl: Place)
    requires Shape(s) && (pl.Receivers? || pl.Senders?) && On(s, pl) != []
    requires s.procs[On(s, pl)[0]].status.Place() == pl
    ensures On(AbortFirst(s, pl), pl) == Without(On(s, pl), On(s, pl)[0])
    ensures forall l | l != pl && l != RunQueue :: On(AbortFirst(s, pl), l) == On(s, l)
  {
  }

  lemma AbortStructure(s: State, pl: Place)
    requires Shape(s) && Structure(s) && (pl.Receivers? || pl.Senders?) && On(s, pl) != []
    ensures Structure(AbortFirst(s, pl))
  {
    hide Tidy, Move;
    var h := On(s, pl)[0];
    var q := Abort(s.procs[h]);
    var t := SetProc(s, h, q);
    var u := Logged(t, Aborted(pl.fid, h));
    SetProcStructure(s, h, q);
    SameStructure(t, u);
    MoveStructure(u, h, Runnable);
  }

  lemma AbortKeeps(s: State, pl: Place)
    requires Shape(s) && Structure(s) && Kin(s) && (pl.Receivers? || pl.Senders?) && On(s, pl) != []
    ensures var t := AbortFirst(s, pl); Structure(t) && Kin(t)
  {
    hide Tidy, Kin, AbortFirst;
    AbortStructure(s, pl);
    HeadPlace(s, pl);
    KinSame(s, AbortFirst(s, pl));
  }

  lemma {:induction false} WakeAllKeeps(s: State, f: nat, pl: Place)
    requires Shape(s) && Structure(s) && Kin(s) && MailBut(s, f) && (pl == Receivers(f) || pl == Senders(f))
    ensures var t := WakeAll(s, pl); Structure(t) && Kin(t) && MailBut(t, f) && On(t, pl) == []
    ensures forall l | l != pl && l != RunQueue :: On(WakeAll(s, pl), l) == On(s, l)
    decreases |On(s, pl)|
  {
    hide Tidy, Kin, MailBut, AbortFirst;
    if On(s, pl) != [] {
      HeadPlace(s, pl);
      AbortLists(s, pl);
      AbortKeeps(s, pl);
      AbortMail(s, f, pl);
      WakeAllKeeps(AbortFirst(s, pl), f, pl);
    }
  }

  lemma FlushKeeps(s: State, f: nat, q: Queue)
    requires Shape(s) && Core(s) && f < NBQUEUE && Vacant(q)
    ensures Core(Flush(s, f, q))
  {
    hide Tidy, Kin, Mail, MailBut, WakeAll;
    var t := SetQueue(s, f, q, [Cleared(f)]);
    SameStructure(s, t);
    KinSame(s, t);
    ClearMail(s, f, q);
    WakeAllKeeps(t, f, Receivers(f));
    var u := WakeAll(t, Receivers(f));
    WakeAllKeeps(u, f, Senders(f));
    FlushedMail(WakeAll(u, Senders(f)), f);
  }

  lemma PDeleteKeeps(s: State, fid: int)
    requires Inv(s)
    ensures Good(PDelete(s, fid)) && Good(PReset(s, fid))
  {
    if Occupied(s, fid) { assert QueueOk(s.queues[fid], fid, s.log); }
    hide Core, Flush;
    if Occupied(s, fid) {
      FlushKeeps(s, fid, Queue(0, []));
      FlushKeeps(s, fid, s.queues[fid].(buf := []));
    }
  }

  lemma BlockKeeps(s: State, fr: Frame, st: Status)
    requires Inv(s) && s.active != 0 && s.procs[s.active].frame == NoCall && (fr.InReceive? || fr.InSend?)
    requires fr.fid < NBQUEUE && s.queues[fr.fid].capacity > 0 && fr.retval == 0
    requires (fr.InReceive? && st == WaitEmpty(fr.fid) && s.queues[fr.fid].buf == [] && !fr.cell.Written?)
          || (fr.InSend? && st == WaitFull(fr.fid) && |s.queues[fr.fid].buf| == s.queues[fr.fid].capacity)
    ensures Core(Block(s, fr, st))
  {
    hide Structure, Kin, Mail, Move;
    var a := s.active;
    var q := s.procs[a].(frame := fr, since := |s.log|);
    var t := Block(s, fr, st);
    SetProcStructure(s, a, q);
    MoveStructure(SetProc(s, a, q), a, st);
    KinSame(s, t);
    BlockMail(s, fr, st);
  }

  lemma StoreKeeps(s: State, f: nat, v: int)
    requires Inv(s) && s.procs[s.active].frame == NoCall && f < NBQUEUE
    requires |s.queues[f].buf| < s.queues[f].capacity && (s.queues[f].buf == [] ==> On(s, Receivers(f)) == [])
    ensures Inv(Store(s, f, v))
  {
    hide Tidy, Kin, Mail;
    if s.queues[f].buf != [] { NoReceivers(s, f); }
    NoSenders(s, f);
    OnList(s, f);
    StoreMail(s, f, v);
    SameStructure(s, Store(s, f, v));
    KinSame(s, Store(s, f, v));
  }

  lemma HandOffKeeps(s: State, f: nat, v: int)
    requires Inv(s) && s.procs[s.active].frame == NoCall && f < NBQUEUE
    requires s.queues[f].buf == [] && On(s, Receivers(f)) != []
    ensures Core(HandOff(s, f, v))
  {
    hide Tidy, Kin, Mail, Move;
    var h, t := On(s, Receivers(f))[0], HandOff(s, f, v);
    var u := SetQueue(s, f, s.queues[f], [Accepted(f, s.active, v), Delivered(f, h, v)]);
    var q := s.procs[h].(frame := Fill(s.procs[h].frame, v));
    HeadPlace(s, Receivers(f));
    SameStructure(s, u);
    SetProcStructure(u, h, q);
    MoveStructure(SetProc(u, h, q), h, Runnable);
    KinSame(s, t);
    HandOffMail(s, f, v);
  }

  lemma PSendKeeps(s: State, fid: int, message: int)
    requires Inv(s) && s.procs[s.active].frame == NoCall
    requires ValidFid(s, fid) && |s.queues[fid].buf| == s.queues[fid].capacity ==> s.active != 0
    ensures Good(PSend(s, fid, message))
  {
    hide Structure, Kin, Block, HandOff, Store;
    if ValidFid(s, fid) {
      var q := s.queues[fid];
      assert QueueOk(q, fid, s.log);
      if |q.buf| == q.capacity {
        BlockKeeps(s, InSend(fid, 0, message), WaitFull(fid));
      } else if q.buf == [] && On(s, Receivers(fid)) != [] {
        HandOffKeeps(s, fid, message);
      } else {
        StoreKeeps(s, fid, message);
      }
    }
  }

  lemma FetchKeeps(s: State, f: nat)
    requires Inv(s) && s.procs[s.active].frame == NoCall && f < NBQUEUE
    requires s.queues[f].buf != [] && On(s, Senders(f)) == []
    ensures Inv(Fetch(s, f))
  {
    hide Tidy, Kin, Mail;
    NoReceivers(s, f);
    OnList(s, f);
    FetchMail(s, f);
    SameStructure(s, Fetch(s, f));
    KinSame(s, Fetch(s, f));
  }

  lemma RefillKeeps(s: State, f: nat)
    requires Inv(s) && s.procs[s.active].frame == NoCall && f < NBQUEUE
    requires s.queues[f].buf != [] && On(s, Senders(f)) != []
    ensures Core(Admit(Fetch(s, f), f))
  {
    hide Tidy, Kin, Mail, Move;
    var t := Fetch(s, f);
    var h, q := On(t, Senders(f))[0], t.queues[f];
    var v := Pending(s.procs[h]);
    var u := SetQueue(t, f, q.(buf := q.buf + [v]), [Accepted(f, h, v)]);
    HeadPlace(s, Senders(f));
    SameStructure(s, t);
    SameStructure(t, u);
    MoveStructure(u, h, Runnable);
    KinSame(s, Admit(t, f));
    RefillMail(s, f);
  }

  lemma PReceiveKeeps(s: State, fid: int, toNull: bool)
    requires Inv(s) && s.procs[s.active].frame == NoCall
    requires ValidFid(s, fid) && s.queues[fid].buf == [] ==> s.active != 0
    ensures Good(PReceive(s, fid, toNull))
  {
    hide Tidy, Kin, Block, Admit;
    if ValidFid(s, fid) {
      if s.queues[fid].buf == [] {
        BlockKeeps(s, InReceive(fid, 0, if toNull then NullCell else Unwritten), WaitEmpty(fid));
      } else if On(s, Senders(fid)) == [] {
        FetchKeeps(s, fid);
      } else {
        if |s.queues[fid].buf| != s.queues[fid].capacity {
          NoSenders(s, fid);
        }
        RefillKeeps(s, fid);
      }
    }
  }

  // ---- Every step, and every run ----

  lemma DoKeeps(s: State, step: Step)
    requires Inv(s) && Enabled(s, step)
    ensures Good(Do(s, step))
  {
    hide Core, ActiveRuns, Look, ClockTick, StartBackground, Chprio, Stop, WaitClock, Waitpid, PCreate, PDelete,
      PReset, PSend, PReceive, Resume;
    match step
    case DoClock => ClockKeeps(s);
    case DoStart(u, z, prio) => StartKeeps(s, u, z, prio);
    case DoStartBackground(u, z, prio) => StartKeeps(s, u, z, prio);
    case DoChprio(pid, prio) => ChprioKeeps(s, pid, prio);
    case DoKill(pid) => if pid > 0 { StopKeeps(s, pid, 0); }
    case DoExit(retval) => StopKeeps(s, s.active, retval);
    case DoWaitClock(clock) => WaitClockKeeps(s, clock);
    case DoWaitpid(pid) => WaitpidKeeps(s, pid);
    case DoPCreate(count, memory) => PCreateKeeps(s, count, memory);
    case DoPDelete(fid) => PDeleteKeeps(s, fid);
    case DoPReset(fid) => PDeleteKeeps(s, fid);
    case DoPSend(fid, message) => PSendKeeps(s, fid, message);
    case DoPReceive(fid, toNull) => PReceiveKeeps(s, fid, toNull);
    case DoResume => ResumeKeeps(s);
  }

  /** How a step ends: the scheduler restores what it has to and changes nothing else. */
  lemma FinishKeeps(a: Act)
    requires Good(a)
    ensures Inv(Finish(a)) && Scheduled(a.s, Finish(a))
    ensures !a.Plain? ==> Settled(Finish(a))
    ensures a.ThenTick? ==> NoneDue(Finish(a))
  {
    hide Core, Scheduled, Fix, Tick;
    match a
    case Plain(s) => ScheduledRefl(s);
    case ThenFix(s) => CoreFix(s);
    case ThenTick(s) => CoreTick(s);
  }

  lemma NextKeeps(s: State, step: Step)
    requires Inv(s) && Enabled(s, step)
    ensures Inv(Next(s, step))
  {
    hide Core, Do, Finish;
    DoKeeps(s, step);
    FinishKeeps(Do(s, step));
  }

  lemma InitialTidy()
    ensures Tidy(Initial(), {})
  {
    var s := Initial();
    assert forall pl :: On(s, pl) == if pl == Free then seq(NBPROC - 1, i requires 0 <= i < NBPROC - 1 => i + 1) else [];
    forall p | 0 < p < NBPROC ensures p in On(s, Free) {
      assert On(s, Free)[p - 1] == p;
    }
  }

  lemma InitialHolds()
    ensures Inv(Initial())
  {
    hide Tidy;
    InitialTidy();
    var s := Initial();
    forall p | 0 <= p < NBPROC ensures CallOk(s.procs[p], p, s.queues, s.log) {}
  }

  /** The invariant holds in every state that any sequence of system calls and interrupts can reach. */
  lemma {:induction false} RunKeeps(s: State, steps: seq<Step>)
    requires Inv(s) && ValidRun(s, steps)
    ensures Inv(Run(s, steps))
    decreases |steps|
  {
    hide Core, ActiveRuns, Next;
    if steps != [] {
      NextKeeps(s, steps[0]);
      RunKeeps(Next(s, steps[0]), steps[1..]);
    }
  }
}
