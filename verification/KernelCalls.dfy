/** From the arguments of a call to what others get to see of them, in the next state and over whole runs. */
module KernelCalls {
  import opened KernelState
  import opened KernelSpec
  import opened KernelPlaces
  import opened KernelScheduling
  import opened KernelFamily
  import opened KernelMail
  import opened KernelInvariant
  import opened KernelTheorems
  import opened KernelWaking
  import opened KernelChoice
  import opened KernelEffects

  // ---- The next state ----

  /** The steps that may have made another process the one that should run. */
  predicate Fixes(s: State, step: Step)
    requires Shape(s)
  {
    || step.DoStart? || Ended(s, step) != NOPID || Receiver(s, step) != NOPID || Sender(s, step) != NOPID
    || ((step.DoPDelete? || step.DoPReset?) && Occupied(s, step.fid))
    || (step.DoChprio? && AlivePid(s, step.pid) && 0 < step.prio <= MAXPRIO && step.prio != s.procs[step.pid].prio)
  }

  lemma WhoFixes(s: State, step: Step)
    requires Inv(s) && Enabled(s, step)
    ensures Do(s, step).ThenFix? <==> Fixes(s, step)
  {
    hide Core, Do, Fixes, Enabled;
    if step.DoPSend? {
      PSendFixes(s, step);
    } else if step.DoPReceive? {
      PReceiveFixes(s, step);
    } else if step.DoKill? || step.DoExit? {
      StopFixes(s, step);
    } else {
      OthersFix(s, step);
    }
  }

  lemma PSendFixes(s: State, step: Step)
    requires Inv(s) && step.DoPSend?
    ensures Do(s, step).ThenFix? <==> Fixes(s, step)
  {
    hide Core, Admit, HandOff, Store, Block;
    if ValidFid(s, step.fid) { WhoWaits(s, step.fid); }
    hide Shape;
  }

  lemma PReceiveFixes(s: State, step: Step)
    requires Inv(s) && step.DoPReceive?
    ensures Do(s, step).ThenFix? <==> Fixes(s, step)
  {
    hide Core, Admit, HandOff, Store, Block;
    if ValidFid(s, step.fid) { WhoWaits(s, step.fid); }
    hide Shape;
  }

  lemma StopFixes(s: State, step: Step)
    requires Shape(s) && (step.DoKill? || step.DoExit?)
    ensures Do(s, step).ThenFix? <==> Fixes(s, step)
  {
    hide Bury, Unbind, Shape;
  }

  lemma OthersFix(s: State, step: Step)
    requires Shape(s) && !step.DoPSend? && !step.DoPReceive? && !step.DoKill? && !step.DoExit?
    ensures Do(s, step).ThenFix? <==> Fixes(s, step)
  {
    hide StartBackground, Flush, KernelSpec.Resume, PCreate, Reprioritise, Look, Move, Shape;
  }

  /** The scheduler runs: because the step ends in it, or because somebody outranks the active process after it. */
  ghost predicate Reschedules(s: State, step: Step)
    requires Shape(s)
  {
    Do(s, step).ThenTick? || (Do(s, step).ThenFix? && Overdue(Do(s, step).s))
  }

  /** Every step is its exact effect, followed by the scheduler's choice if it reschedules. */
  lemma NextExactly(s: State, step: Step)
    requires Inv(s) && Enabled(s, step)
    ensures var m, t := Do(s, step).s, Next(s, step);
      && Exact(s, step, m) && (if Reschedules(s, step) then Chosen(m, t) && NoneDue(t) else t == m)
  {
    var a := Do(s, step);
    DoExactly(s, step);
    DoKeeps(s, step);
    assert Structure(a.s);
    hide Core, Do, Exact, Structure, Chosen, Overdue, NoneDue;
    match a
    case Plain(_) =>
    case ThenFix(m) => hide Fix; FixExactly(m);
    case ThenTick(m) => hide Tick; TickExactly(m); TickWorks(m);
  }

  /** All but the states of processes is left alone by the scheduler; and these only rotate. */
  lemma NextFields(s: State, step: Step, p: nat)
    requires Inv(s) && Enabled(s, step) && p < NBPROC
    ensures var t := Next(s, step); var b := t.procs[p];
      && t.clock == ClockAfter(s, step) && t.log == s.log + Events(s, step)
      && (forall f | 0 <= f < NBQUEUE :: t.queues[f] == QueueAfter(s, step, f))
      && b.parent == ParentAfter(s, step, p) && b.prio == PrioAfter(s, step, p) && b.frame == FrameAfter(s, step, p)
      && (|| b.status == StatusAfter(s, step, p)
          || ((b.status.Runnable? || b.status.Running?)
              && (var a := StatusAfter(s, step, p); a.Runnable? || a.Running? || (a.Asleep? && a.wake <= t.clock))))
  {
    var m := Do(s, step);
    DoExactly(s, step);
    DoKeeps(s, step);
    hide Core, Do, Finish, StatusAfter, FrameAfter, ParentAfter, PrioAfter, QueueAfter, Events;
    FinishKeeps(m);
    assert Rotated(m.s.procs[p], Finish(m).procs[p], m.s.clock) && Became(s, step, p, m.s.procs[p]);
  }

  // ---- Messages ----

  /**
   A psend stores its message at the end of the buffer, hands it to the first receiver that waits, or leaves it in the
   frame of the caller, which then waits.
   */
  lemma PSendDoes(s: State, fid: int, message: int)
    requires Inv(s) && Enabled(s, DoPSend(fid, message)) && ValidFid(s, fid)
    ensures var t, q, rs := Next(s, DoPSend(fid, message)), s.queues[fid], On(s, Receivers(fid));
      if |q.buf| == q.capacity then
        t.log == s.log && t.queues == s.queues && t.procs[s.active].status == WaitFull(fid) && t.procs[s.active].frame == InSend(fid, 0, message)
      else if rs != [] then
        && t.log == s.log + [Accepted(fid, s.active, message), Delivered(fid, rs[0], message)] && t.queues == s.queues
        && (t.procs[rs[0]].status.Runnable? || t.procs[rs[0]].status.Running?) && s.procs[rs[0]].frame.InReceive?
        && t.procs[rs[0]].frame == s.procs[rs[0]].frame.(cell := if s.procs[rs[0]].frame.cell == NullCell then NullCell else Written(message))
      else t.log == s.log + [Accepted(fid, s.active, message)] && t.queues == s.queues[fid := q.(buf := q.buf + [message])]
  {
    var step := DoPSend(fid, message);
    hide Core;
    WhoWaits(s, fid);
    PSendMoves(s, fid, message);
    hide Next, StatusAfter, FrameAfter, ParentAfter, PrioAfter, Events, QueueAfter, Sender, Receiver, Blocks, Enabled;
    NextFields(s, step, s.active);
    OnlyQueue(s, Next(s, step), fid, QueueAfter(s, step, fid));
    assert s.queues[fid := s.queues[fid]] == s.queues;
    if |s.queues[fid].buf| == s.queues[fid].capacity {
      QueueCallBecame(s, step, s.active);
    } else if On(s, Receivers(fid)) != [] {
      NextFields(s, step, On(s, Receivers(fid))[0]);
      QueueCallBecame(s, step, On(s, Receivers(fid))[0]);
    }
  }

  lemma PSendMoves(s: State, fid: int, message: int)
    requires Shape(s) && ValidFid(s, fid) && |s.queues[fid].buf| <= s.queues[fid].capacity
    requires On(s, Receivers(fid)) != [] ==> s.queues[fid].buf == []
    ensures var step, q, rs := DoPSend(fid, message), s.queues[fid], On(s, Receivers(fid));
      && (|q.buf| == q.capacity ==> Events(s, step) == [] && QueueAfter(s, step, fid) == q && Receiver(s, step) == NOPID && Blocks(s, step))
      && (|q.buf| < q.capacity && rs != [] ==>
            && Events(s, step) == [Accepted(fid, s.active, message), Delivered(fid, rs[0], message)] && Receiver(s, step) == rs[0]
            && QueueAfter(s, step, fid) == q && !Blocks(s, step))
      && (|q.buf| < q.capacity && rs == [] ==>
            && Events(s, step) == [Accepted(fid, s.active, message)] && QueueAfter(s, step, fid) == q.(buf := q.buf + [message])
            && Receiver(s, step) == NOPID && !Blocks(s, step))
      && Sender(s, step) == NOPID && forall f | 0 <= f < NBQUEUE && f != fid :: QueueAfter(s, step, f) == s.queues[f]
  {
    if On(s, Receivers(fid)) != [] { assert On(s, Receivers(fid))[0] < NBPROC; }
  }

  lemma PReceiveMoves(s: State, fid: int, toNull: bool)
    requires Shape(s) && ValidFid(s, fid)
    requires On(s, Senders(fid)) != [] ==> |s.queues[fid].buf| == s.queues[fid].capacity && s.procs[On(s, Senders(fid))[0]].frame.InSend?
    ensures var step, q, ws := DoPReceive(fid, toNull), s.queues[fid], On(s, Senders(fid));
      && (q.buf == [] ==> Events(s, step) == [] && QueueAfter(s, step, fid) == q && Sender(s, step) == NOPID && Blocks(s, step))
      && (q.buf != [] && ws != [] ==>
            var v := s.procs[ws[0]].frame.message;
            && Events(s, step) == [Delivered(fid, s.active, q.buf[0]), Accepted(fid, ws[0], v)] && Sender(s, step) == ws[0]
            && QueueAfter(s, step, fid) == q.(buf := q.buf[1..] + [v]))
      && (q.buf != [] && ws == [] ==>
            && Events(s, step) == [Delivered(fid, s.active, q.buf[0])] && QueueAfter(s, step, fid) == q.(buf := q.buf[1..])
            && Sender(s, step) == NOPID)
      && Receiver(s, step) == NOPID && (q.buf != [] ==> !Blocks(s, step))
      && forall f | 0 <= f < NBQUEUE && f != fid :: QueueAfter(s, step, f) == s.queues[f]
  {
    if On(s, Senders(fid)) != [] { assert On(s, Senders(fid))[0] < NBPROC; }
  }

  /** The queues after a queue call, from those of its queue. */
  lemma OnlyQueue(s: State, t: State, f: nat, q: Queue)
    requires Shape(s) && Shape(t) && f < NBQUEUE && t.queues[f] == q && forall g | 0 <= g < NBQUEUE && g != f :: t.queues[g] == s.queues[g]
    ensures t.queues == s.queues[f := q]
  {
  }

  /** A preceive takes the oldest message, and lets in that of the first sender that waits; without a message it waits. */
  lemma PReceiveDoes(s: State, fid: int, toNull: bool)
    requires Inv(s) && Enabled(s, DoPReceive(fid, toNull)) && ValidFid(s, fid)
    ensures var t, q, ws := Next(s, DoPReceive(fid, toNull)), s.queues[fid], On(s, Senders(fid));
      if q.buf == [] then
        && t.log == s.log && t.queues == s.queues && t.procs[s.active].status == WaitEmpty(fid)
        && t.procs[s.active].frame == InReceive(fid, 0, if toNull then NullCell else Unwritten)
      else if ws != [] then
        && s.procs[ws[0]].frame.InSend?
        && var v := s.procs[ws[0]].frame.message;
        && t.log == s.log + [Delivered(fid, s.active, q.buf[0]), Accepted(fid, ws[0], v)]
        && t.queues == s.queues[fid := q.(buf := q.buf[1..] + [v])]
        && (t.procs[ws[0]].status.Runnable? || t.procs[ws[0]].status.Running?) && t.procs[ws[0]].frame == s.procs[ws[0]].frame
      else t.log == s.log + [Delivered(fid, s.active, q.buf[0])] && t.queues == s.queues[fid := q.(buf := q.buf[1..])]
  {
    var step := DoPReceive(fid, toNull);
    hide Core;
    WhoWaits(s, fid);
    PReceiveMoves(s, fid, toNull);
    hide Next, StatusAfter, FrameAfter, ParentAfter, PrioAfter, Events, QueueAfter, Sender, Receiver, Blocks, Enabled;
    NextFields(s, step, s.active);
    OnlyQueue(s, Next(s, step), fid, QueueAfter(s, step, fid));
    if s.queues[fid].buf == [] {
      QueueCallBecame(s, step, s.active);
      assert s.queues[fid := s.queues[fid]] == s.queues;
    } else if On(s, Senders(fid)) != [] {
      NextFields(s, step, On(s, Senders(fid))[0]);
      QueueCallBecame(s, step, On(s, Senders(fid))[0]);
    }
  }

  /** The values of queue `f` that the events accept. */
  function Vals(log: seq<Event>, f: nat): seq<int> {
    if log == [] then []
    else (if log[0].Accepted? && log[0].fid == f then [log[0].val] else []) + Vals(log[1..], f)
  }

  lemma {:induction false} ValsJoin(a: seq<Event>, b: seq<Event>, f: nat)
    ensures Vals(a + b, f) == Vals(a, f) + Vals(b, f)
    decreases |a|
  {
    if a == [] {
      assert a + b == b;
    } else {
      assert (a + b)[1..] == a[1..] + b;
      ValsJoin(a[1..], b, f);
    }
  }

  /** What each process gave as the message of its last psend. */
  type Args = map<nat, int>

  function Noted(s: State, step: Step, args: Args): Args {
    if step.DoPSend? then args[s.active := step.message] else args
  }

  /** The value that a step makes queue `f` accept: the argument of this psend, or of that of the first sender that waits. */
  function Taking(s: State, step: Step, f: nat, args: Args): seq<int>
    requires Shape(s) && f < NBQUEUE
  {
    var q := s.queues[f];
    match step
    case DoPSend(fid, message) => if fid == f && |q.buf| < q.capacity then [message] else []
    case DoPReceive(fid, _) =>
      var ws := On(s, Senders(f));
      if fid == f && q.buf != [] && ws != [] && ws[0] in args then [args[ws[0]]] else []
    case _ => []
  }

  function Sent(s: State, steps: seq<Step>, f: nat, args: Args): seq<int>
    requires Shape(s) && f < NBQUEUE
    decreases |steps|
  {
    if steps == [] then [] else Taking(s, steps[0], f, args) + Sent(Next(s, steps[0]), steps[1..], f, Noted(s, steps[0], args))
  }

  /** Every process that waits to send waits with what it gave to psend. */
  ghost predicate Remembers(s: State, args: Args)
    requires Shape(s)
  {
    forall p | 0 <= p < NBPROC && s.procs[p].status.WaitFull? ::
      p in args && s.procs[p].frame.InSend? && s.procs[p].frame.message == args[p]
  }

  /** A sender that waits after a step waited before it, or has just called. */
  lemma WaitingSender(s: State, step: Step, p: nat)
    requires Inv(s) && Enabled(s, step) && p < NBPROC && Next(s, step).procs[p].status.WaitFull?
    ensures var b := Next(s, step).procs[p];
      || (p == s.active && step.DoPSend? && b.frame.InSend? && b.frame.message == step.message)
      || (p != s.active && s.procs[p].status == b.status && b.frame == s.procs[p].frame)
  {
    assert s.procs[s.active].status.Running?;
    hide Core, Next, StatusAfter, FrameAfter, ParentAfter, PrioAfter, QueueAfter, Events, Enabled;
    NextFields(s, step, p);
    WaitsToSend(s, step, p);
  }

  lemma WaitsToSend(s: State, step: Step, p: nat)
    requires Shape(s) && p < NBPROC && StatusAfter(s, step, p).WaitFull? && s.procs[s.active].status.Running?
    ensures var fr := FrameAfter(s, step, p);
      || (p == s.active && step.DoPSend? && fr.InSend? && fr.message == step.message)
      || (p != s.active && s.procs[p].status == StatusAfter(s, step, p) && fr == s.procs[p].frame)
  {
    hide Receiver, Sender, Starts, Reaped, Ended, Bereaved, Flushed, IsOrphaned, Blocks, Shape;
  }

  lemma RemembersOn(s: State, step: Step, args: Args)
    requires Inv(s) && Enabled(s, step) && Remembers(s, args)
    ensures Remembers(Next(s, step), Noted(s, step, args))
  {
    hide Core, Next, Enabled;
    var t := Next(s, step);
    forall p | 0 <= p < NBPROC && t.procs[p].status.WaitFull?
      ensures p in Noted(s, step, args) && t.procs[p].frame.InSend? && t.procs[p].frame.message == Noted(s, step, args)[p]
    {
      WaitingSender(s, step, p);
    }
  }

  lemma TakingIs(s: State, step: Step, f: nat, args: Args)
    requires Inv(s) && Enabled(s, step) && Remembers(s, args) && f < NBQUEUE
    ensures Vals(Next(s, step).log, f) == Vals(s.log, f) + Taking(s, step, f, args)
  {
    hide Core;
    NextFields(s, step, s.active);
    hide Next, Remembers, QueueAfter, FrameAfter, ParentAfter, PrioAfter, StatusAfter;
    ValsJoin(s.log, Events(s, step), f);
    match step
    case DoPSend(fid, message) => if ValidFid(s, fid) { PSendTaking(s, fid, message, f, args); } else { Unsent(s, step, f, args); }
    case DoPReceive(fid, toNull) => if ValidFid(s, fid) { PReceiveTaking(s, fid, toNull, f, args); } else { Unsent(s, step, f, args); }
    case _ => OthersTaking(s, step, f, args);
  }

  lemma Unsent(s: State, step: Step, f: nat, args: Args)
    requires Inv(s) && (step.DoPSend? || step.DoPReceive?) && !ValidFid(s, step.fid) && f < NBQUEUE
    ensures Vals(Events(s, step), f) == Taking(s, step, f, args)
  {
    InvKin(s);
    assert QueueOk(s.queues[f], f, s.log);
    hide Core, Structure, Kin, Mail;
  }

  lemma PSendTaking(s: State, fid: int, message: int, f: nat, args: Args)
    requires Inv(s) && ValidFid(s, fid) && f < NBQUEUE
    ensures Vals(Events(s, DoPSend(fid, message)), f) == Taking(s, DoPSend(fid, message), f, args)
  {
    hide Core;
    WhoWaits(s, fid);
    PSendMoves(s, fid, message);
    hide Events;
    ValsOne(fid, s.active, message, f);
    if On(s, Receivers(fid)) != [] { ValsTwo(Accepted(fid, s.active, message), Delivered(fid, On(s, Receivers(fid))[0], message), f); }
  }

  lemma ValsOne(fid: nat, p: nat, v: int, f: nat)
    ensures Vals([Accepted(fid, p, v)], f) == (if fid == f then [v] else []) && Vals([Delivered(fid, p, v)], f) == []
  {
  }

  lemma ValsTwo(a: Event, b: Event, f: nat)
    ensures Vals([a, b], f) == Vals([a], f) + Vals([b], f)
  {
    assert [a, b] == [a] + [b];
    ValsJoin([a], [b], f);
  }

  lemma PReceiveTaking(s: State, fid: int, toNull: bool, f: nat, args: Args)
    requires Inv(s) && ValidFid(s, fid) && f < NBQUEUE && Remembers(s, args)
    ensures Vals(Events(s, DoPReceive(fid, toNull)), f) == Taking(s, DoPReceive(fid, toNull), f, args)
  {
    hide Core;
    WhoWaits(s, fid);
    PReceiveMoves(s, fid, toNull);
    var q, ws := s.queues[fid], On(s, Senders(fid));
    hide Events, QueueAfter, Sender, Receiver, Blocks;
    if q.buf != [] {
      ValsOne(fid, s.active, q.buf[0], f);
      if ws != [] {
        var v := s.procs[ws[0]].frame.message;
        ValsOne(fid, ws[0], v, f);
        ValsTwo(Delivered(fid, s.active, q.buf[0]), Accepted(fid, ws[0], v), f);
      }
    }
  }

  lemma OthersTaking(s: State, step: Step, f: nat, args: Args)
    requires Shape(s) && !step.DoPSend? && !step.DoPReceive? && f < NBQUEUE
    ensures Vals(Events(s, step), f) == Taking(s, step, f, args)
  {
    hide Shape;
    if (step.DoPDelete? || step.DoPReset?) && Occupied(s, step.fid) {
      var a, b := Aborts(step.fid, On(s, Receivers(step.fid))), Aborts(step.fid, On(s, Senders(step.fid)));
      ValsJoin([Cleared(step.fid)] + a, b, f);
      ValsJoin([Cleared(step.fid)], a, f);
      NoVals(a, f);
      NoVals(b, f);
    }
  }

  lemma {:induction false} NoVals(log: seq<Event>, f: nat)
    requires forall i | 0 <= i < |log| :: !log[i].Accepted?
    ensures Vals(log, f) == []
    decreases |log|
  {
    if log != [] { NoVals(log[1..], f); }
  }

  /** Over every run, the values a queue accepts are the arguments of psend, in the order in which they are accepted. */
  lemma {:induction false} AcceptedAreSent(s: State, steps: seq<Step>, f: nat, args: Args)
    requires Inv(s) && ValidRun(s, steps) && f < NBQUEUE && Remembers(s, args)
    ensures Vals(Run(s, steps).log, f) == Vals(s.log, f) + Sent(s, steps, f, args)
    decreases |steps|
  {
    hide Core, ActiveRuns, Next, Remembers, Taking, Noted, Vals, Enabled;
    if steps != [] {
      TakingIs(s, steps[0], f, args);
      RemembersOn(s, steps[0], args);
      NextKeeps(s, steps[0]);
      AcceptedAreSent(Next(s, steps[0]), steps[1..], f, Noted(s, steps[0], args));
    }
  }
}
