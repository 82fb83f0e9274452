/**
 pcount makes a queue a counting semaphore: every valid send adds one and every valid
 receive takes one away, whether the call stores, hands over or blocks.
 */
module KernelSemaphore {
  import opened KernelState
  import opened KernelSpec
  import opened KernelPlaces
  import opened KernelScheduling
  import opened KernelFamily
  import opened KernelMail
  import opened KernelInvariant

  /** What a process ended by this step was doing: +1 for a receiver of `f`, -1 for a sender to it. */
  function EndDelta(s: State, pid: int, f: nat): int
    requires Shape(s)
  {
    if !(0 <= pid < NBPROC) then 0
    else if s.procs[pid].status == WaitEmpty(f) then 1
    else if s.procs[pid].status == WaitFull(f) then -1
    else 0
  }

  /** By how much a step changes the count of queue `f`. */
  function Delta(s: State, step: Step, f: nat): int
    requires Shape(s)
  {
    match step
    case DoPSend(fid, _) => if fid == f && ValidFid(s, fid) then 1 else 0
    case DoPReceive(fid, _) => if fid == f && ValidFid(s, fid) then -1 else 0
    case DoKill(pid) => if pid > 0 then EndDelta(s, pid, f) else 0
    case _ => 0
  }

  /** The steps that set the count of `f` back to zero. */
  predicate Resets(s: State, step: Step, f: nat)
    requires Shape(s)
  {
    match step
    case DoPCreate(_, _) => FreeQueue(s, 0) == f
    case DoPDelete(fid) => fid == f
    case DoPReset(fid) => fid == f
    case _ => false
  }

  /** Same messages and same waiting lists, up to order. */
  ghost predicate SameCount(s: State, t: State, f: nat)
    requires Shape(s) && Shape(t) && f < NBQUEUE
  {
    && |t.queues[f].buf| == |s.queues[f].buf|
    && |On(t, Receivers(f))| == |On(s, Receivers(f))|
    && |On(t, Senders(f))| == |On(s, Senders(f))|
  }

  lemma InsertLength(ps: seq<Proc>, pl: Place, list: seq<nat>, p: nat)
    requires p < |ps| && forall i | 0 <= i < |list| :: list[i] < |ps|
    ensures |Insert(ps, pl, list, p)| == |list| + 1
  {
  }

  lemma WithoutLength(list: seq<nat>, p: nat)
    ensures |Without(list, p)| == |list| - (if p in list then 1 else 0)
  {
  }

  lemma OnOwnList(s: State, p: nat)
    requires Shape(s) && Tidy(s, {}) && p < NBPROC && s.procs[p].status.Place() != Nowhere
    ensures p in On(s, s.procs[p].status.Place())
  {
  }

  /** How moving a process changes the length of the list at `pl`. */
  lemma MoveLength(s: State, p: nat, st: Status, pl: Place)
    requires Shape(s) && Tidy(s, {}) && p < NBPROC && pl != Nowhere
    ensures |On(Move(s, p, st), pl)| == |On(s, pl)|
      - (if s.procs[p].status.Place() == pl then 1 else 0) + (if st.Place() == pl then 1 else 0)
  {
    hide Tidy, Move, Insert, Without;
    var from, to := s.procs[p].status.Place(), st.Place();
    if from != Nowhere { OnOwnList(s, p); }
    MoveLists(s, p, st);
    WithoutLength(On(s, from), p);
    if to != Nowhere {
      var t := Move(s, p, st);
      var l := if from == to then Without(On(s, to), p) else On(s, to);
      assert forall i | 0 <= i < |l| :: l[i] < |t.procs| by { WithoutInRange(On(s, to), p); }
      InsertLength(t.procs, to, l, p);
    }
  }

  lemma WithoutInRange(list: seq<nat>, p: nat)
    ensures forall i | 0 <= i < |Without(list, p)| :: Without(list, p)[i] in list
  {
  }

  lemma ReprioritiseLength(s: State, p: nat, prio: int, f: nat)
    requires Shape(s) && Tidy(s, {}) && p < NBPROC && f < NBQUEUE
    ensures SameCount(s, Reprioritise(s, p, prio), f)
  {
    hide Tidy, Insert, Without;
    var at := s.procs[p].status.Place();
    if at != Nowhere { OnOwnList(s, p); }
    WithoutLength(On(s, at), p);
    if OrderedByPriority(s.procs[p].status) {
      var d := Detach(s, p);
      var e := SetProc(d, p, d.procs[p].(prio := prio));
      InsertLength(Attach(e, p).procs, at, On(e, at), p);
    }
  }

  lemma {:induction false} UnbindLength(s: State, p: nat, i: nat, f: nat)
    requires Shape(s) && Structure(s) && p < NBPROC && i <= NBPROC && f < NBQUEUE
    ensures SameCount(s, Unbind(s, p, i), f)
    decreases NBPROC - i
  {
    hide Tidy, Move;
    if i < NBPROC {
      if s.procs[i].parent != p {
        UnbindLength(s, p, i + 1, f);
      } else if s.procs[i].status.Zombie? {
        MoveLength(s, i, Dead, Receivers(f));
        MoveLength(s, i, Dead, Senders(f));
        MoveStructure(s, i, Dead);
        UnbindLength(Move(s, i, Dead), p, i + 1, f);
      } else {
        SetProcStructure(s, i, s.procs[i].(parent := NOPID));
        UnbindLength(SetProc(s, i, s.procs[i].(parent := NOPID)), p, i + 1, f);
      }
    }
  }

  lemma BuryLength(s: State, p: nat, retval: int, f: nat)
    requires Shape(s) && Structure(s) && 0 < p < NBPROC && s.procs[p].status.Alive() && f < NBQUEUE
    requires s.procs[p].parent != p
    ensures var t := Bury(s, p, retval);
      && |t.queues[f].buf| == |s.queues[f].buf|
      && |On(t, Receivers(f))| == |On(s, Receivers(f))| - (if s.procs[p].status == WaitEmpty(f) then 1 else 0)
      && |On(t, Senders(f))| == |On(s, Senders(f))| - (if s.procs[p].status == WaitFull(f) then 1 else 0)
  {
    hide Tidy, Move;
    var q := s.procs[p].parent;
    var st := if q == NOPID then Dead else Zombie(retval);
    var t := Move(s, p, st);
    MoveLength(s, p, st, Receivers(f));
    MoveLength(s, p, st, Senders(f));
    MoveStructure(s, p, st);
    if 0 <= q < NBPROC {
      var fr := t.procs[q].(frame := InWaitpid(p));
      SetProcStructure(t, q, fr);
      MoveLength(SetProc(t, q, fr), q, Runnable, Receivers(f));
      MoveLength(SetProc(t, q, fr), q, Runnable, Senders(f));
    }
  }

  /** Ending a blocked process moves the count one toward zero. */
  lemma StopCount(s: State, pid: int, retval: int, f: nat)
    requires Inv(s) && pid != 0 && f < NBQUEUE
    ensures PCount(Stop(s, pid, retval).s, f) == PCount(s, f) + (if AlivePid(s, pid) then EndDelta(s, pid, f) else 0)
  {
    hide Tidy, Unbind, Bury;
    if AlivePid(s, pid) {
      var t := Unbind(s, pid, 0);
      assert CallOk(s.procs[pid], pid, s.queues, s.log);
      UnbindKin(s, pid);
      assert ParentOk(t, pid);
      UnbindLength(s, pid, 0, f);
      UnbindStructure(s, pid, 0);
      BuryLength(t, pid, retval, f);
    }
  }

  lemma BlockCount(s: State, fr: Frame, st: Status, f: nat)
    requires Shape(s) && Tidy(s, {}) && ActiveRuns(s) && f < NBQUEUE
    ensures var t := Block(s, fr, st);
      && t.queues == s.queues
      && |On(t, Receivers(f))| == |On(s, Receivers(f))| + (if st == WaitEmpty(f) then 1 else 0)
      && |On(t, Senders(f))| == |On(s, Senders(f))| + (if st == WaitFull(f) then 1 else 0)
  {
    hide Tidy, Move;
    var a := s.active;
    var q := s.procs[a].(frame := fr, since := |s.log|);
    SetProcSameTidy(s, a, q, {});
    MoveLength(SetProc(s, a, q), a, st, Receivers(f));
    MoveLength(SetProc(s, a, q), a, st, Senders(f));
  }

  lemma WakeHeadCount(s: State, u: State, g: nat, pl: Place, f: nat)
    requires Shape(s) && Tidy(s, {}) && Shape(u) && Tidy(u, {}) && f < NBQUEUE && (pl == Receivers(g) || pl == Senders(g))
    requires On(s, pl) != [] && forall l :: On(u, l) == On(s, l)
    requires forall q | 0 <= q < NBPROC :: u.procs[q].status == s.procs[q].status
    ensures var t := Move(u, On(s, pl)[0], Runnable);
      && |On(t, Receivers(f))| == |On(s, Receivers(f))| - (if pl == Receivers(f) then 1 else 0)
      && |On(t, Senders(f))| == |On(s, Senders(f))| - (if pl == Senders(f) then 1 else 0)
  {
    hide Tidy, Move;
    HeadPlace(s, pl);
    var h := On(s, pl)[0];
    MoveLength(u, h, Runnable, Receivers(f));
    MoveLength(u, h, Runnable, Senders(f));
  }

  lemma HandOffCount(s: State, g: nat, v: int, f: nat)
    requires Inv(s) && g < NBQUEUE && f < NBQUEUE && s.queues[g].buf == [] && On(s, Receivers(g)) != []
    ensures PCount(HandOff(s, g, v), f) == PCount(s, f) + (if f == g then 1 else 0)
  {
    hide Tidy, Kin, Mail, Move;
    var h := On(s, Receivers(g))[0];
    var q := s.procs[h].(frame := Fill(s.procs[h].frame, v));
    var u := SetQueue(s, g, s.queues[g], [Accepted(g, s.active, v), Delivered(g, h, v)]);
    var w := SetProc(u, h, q);
    SameStructure(s, u);
    SetProcStructure(u, h, q);
    WakeHeadCount(s, w, g, Receivers(g), f);
  }

  lemma RefillCount(s: State, g: nat, f: nat)
    requires Inv(s) && g < NBQUEUE && f < NBQUEUE && s.queues[g].buf != [] && On(s, Senders(g)) != []
    ensures PCount(Admit(Fetch(s, g), g), f) == PCount(s, f) - (if f == g then 1 else 0)
  {
    hide Tidy, Kin, Mail, Move;
    var t := Fetch(s, g);
    var h := On(t, Senders(g))[0];
    var q := t.queues[g];
    var v := Pending(s.procs[h]);
    var u := SetQueue(t, g, q.(buf := q.buf + [v]), [Accepted(g, h, v)]);
    SameStructure(s, t);
    SameStructure(t, u);
    WakeHeadCount(s, u, g, Senders(g), f);
  }

  lemma PSendCount(s: State, fid: int, message: int, f: nat)
    requires Inv(s) && f < NBQUEUE
    ensures PCount(PSend(s, fid, message).s, f) == PCount(s, f) + Delta(s, DoPSend(fid, message), f)
  {
    hide Tidy, Kin, Block, HandOff;
    if ValidFid(s, fid) {
      var q := s.queues[fid];
      if |q.buf| == q.capacity {
        BlockCount(s, InSend(fid, 0, message), WaitFull(fid), f);
      } else if q.buf == [] && On(s, Receivers(fid)) != [] {
        HandOffCount(s, fid, message, f);
      } else {
        NoSenders(s, fid);
        assert q.buf != [] || On(s, Receivers(fid)) == [];
      }
    }
  }

  lemma PReceiveCount(s: State, fid: int, toNull: bool, f: nat)
    requires Inv(s) && f < NBQUEUE
    ensures PCount(PReceive(s, fid, toNull).s, f) == PCount(s, f) + Delta(s, DoPReceive(fid, toNull), f)
  {
    hide Tidy, Kin, Block, Admit;
    if ValidFid(s, fid) {
      var q := s.queues[fid];
      if q.buf == [] {
        BlockCount(s, InReceive(fid, 0, if toNull then NullCell else Unwritten), WaitEmpty(fid), f);
      } else {
        NoReceivers(s, fid);
        if On(s, Senders(fid)) != [] {
          if |q.buf| != q.capacity { NoSenders(s, fid); }
          RefillCount(s, fid, f);
        }
      }
    }
  }

  lemma FlushCount(s: State, g: nat, q: Queue, f: nat)
    requires Inv(s) && Vacant(q) && g < NBQUEUE && f < NBQUEUE && f != g
    ensures SameCount(s, Flush(s, g, q), f)
  {
    hide Tidy, Kin, Mail, MailBut, WakeAll;
    var t := SetQueue(s, g, q, [Cleared(g)]);
    SameStructure(s, t);
    KinSame(s, t);
    ClearMail(s, g, q);
    WakeAllKeeps(t, g, Receivers(g));
    WakeAllKeeps(WakeAll(t, Receivers(g)), g, Senders(g));
  }

  lemma VacantNow(s: State, f: nat)
    requires Inv(s) && f < NBQUEUE
    ensures Vacant(s.queues[f].(buf := []))
  {
    assert QueueOk(s.queues[f], f, s.log);
  }

  lemma ProcessCount(s: State, step: Step, f: nat)
    requires Inv(s) && Enabled(s, step) && f < NBQUEUE
    requires step.DoClock? || step.DoWaitClock? || step.DoWaitpid? || step.DoResume?
    ensures SameCount(s, Do(s, step).s, f)
  {
    hide Tidy, Kin, Mail, Move, Look;
    var a := s.active;
    match step
    case DoWaitClock(c) =>
      MoveLength(s, a, Asleep(c), Receivers(f));
      MoveLength(s, a, Asleep(c), Senders(f));
    case DoWaitpid(pid) =>
      match Look(s, pid) {
        case Reapable(c) =>
          MoveLength(s, c, Dead, Receivers(f));
          MoveLength(s, c, Dead, Senders(f));
        case MustWait =>
          var q := s.procs[a].(frame := InWaitpid(pid));
          SetProcStructure(s, a, q);
          MoveLength(SetProc(s, a, q), a, WaitChild, Receivers(f));
          MoveLength(SetProc(s, a, q), a, WaitChild, Senders(f));
        case _ =>
      }
    case DoResume =>
      var q := s.procs[a].(frame := NoCall);
      SetProcStructure(s, a, q);
      if s.procs[a].frame.InWaitpid? {
        var c := s.procs[a].frame.child;
        WokenChild(s);
        MoveLength(SetProc(s, a, q), c, Dead, Receivers(f));
        MoveLength(SetProc(s, a, q), c, Dead, Senders(f));
      }
    case _ =>
  }

  lemma StartLists(s: State, user: Mode, ssize: nat, prio: int, pl: Place)
    requires Shape(s) && StackFits(user, ssize) && On(s, Free) != [] && pl != Free && pl != RunQueue
    requires s.procs[On(s, Free)[0]].status.Place() == Free
    ensures On(StartBackground(s, user, ssize, prio), pl) == On(s, pl)
    ensures StartBackground(s, user, ssize, prio).queues == s.queues
  {
    hide Insert, Without;
  }

  lemma StartCount(s: State, user: Mode, ssize: nat, prio: int, f: nat)
    requires Inv(s) && f < NBQUEUE
    ensures SameCount(s, StartBackground(s, user, ssize, prio), f)
  {
    hide Tidy, Kin, Mail;
    if StackFits(user, ssize) && On(s, Free) != [] {
      HeadPlace(s, Free);
      StartLists(s, user, ssize, prio, Receivers(f));
      StartLists(s, user, ssize, prio, Senders(f));
    }
  }

  lemma DoCount(s: State, step: Step, f: nat)
    requires Inv(s) && Enabled(s, step) && f < NBQUEUE && !Resets(s, step, f)
    ensures PCount(Do(s, step).s, f) == PCount(s, f) + Delta(s, step, f)
  {
    hide Tidy, Kin, Mail, StartBackground, Reprioritise, Stop, Flush, PSend, PReceive, Waitpid, Resume, ClockTick,
      WaitClock, Blocks, FreeQueue;
    match step
    case DoStart(u, z, prio) => StartCount(s, u, z, prio, f);
    case DoStartBackground(u, z, prio) => StartCount(s, u, z, prio, f);
    case DoChprio(pid, prio) => if AlivePid(s, pid) { ReprioritiseLength(s, pid, prio, f); }
    case DoKill(pid) => if pid > 0 { StopCount(s, pid, 0, f); }
    case DoExit(retval) => ExitIsEnabled(s, retval); StopCount(s, s.active, retval, f);
    case DoPCreate(count, _) =>
    case DoPDelete(fid) => if Occupied(s, fid) { FlushCount(s, fid, Queue(0, []), f); }
    case DoPReset(fid) => if Occupied(s, fid) { VacantNow(s, fid); FlushCount(s, fid, s.queues[fid].(buf := []), f); }
    case DoPSend(fid, m) => PSendCount(s, fid, m, f);
    case DoPReceive(fid, n) => PReceiveCount(s, fid, n, f);
    case _ => ProcessCount(s, step, f);
  }

  lemma ExitIsEnabled(s: State, retval: int)
    requires Shape(s) && Enabled(s, DoExit(retval))
    ensures s.active != 0
  {
  }

  /** Scheduling does not change a count, so neither does the end of a step. */
  lemma NextCount(s: State, step: Step, f: nat)
    requires Inv(s) && Enabled(s, step) && f < NBQUEUE && !Resets(s, step, f)
    ensures PCount(Next(s, step), f) == PCount(s, f) + Delta(s, step, f)
  {
    hide Core, Do, Finish, Delta, Resets;
    DoCount(s, step, f);
    DoKeeps(s, step);
    FinishKeeps(Do(s, step));
  }

  function TotalDelta(s: State, steps: seq<Step>, f: nat): int
    requires Shape(s)
    decreases |steps|
  {
    if steps == [] then 0 else Delta(s, steps[0], f) + TotalDelta(Next(s, steps[0]), steps[1..], f)
  }

  predicate NeverResets(s: State, steps: seq<Step>, f: nat)
    requires Shape(s)
    decreases |steps|
  {
    steps == [] || (!Resets(s, steps[0], f) && NeverResets(Next(s, steps[0]), steps[1..], f))
  }

  /** Over any run that does not reset `f`, its count changes by sends minus receives, corrected for kills. */
  lemma {:induction false} SemaphoreRuns(s: State, steps: seq<Step>, f: nat)
    requires Inv(s) && ValidRun(s, steps) && f < NBQUEUE && NeverResets(s, steps, f)
    ensures PCount(Run(s, steps), f) == PCount(s, f) + TotalDelta(s, steps, f)
    decreases |steps|
  {
    hide Core, ActiveRuns, Next, Delta, PCount, Resets;
    if steps != [] {
      NextKeeps(s, steps[0]);
      NextCount(s, steps[0], f);
      SemaphoreRuns(Next(s, steps[0]), steps[1..], f);
    }
  }
}
