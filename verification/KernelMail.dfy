/**
 Messages.  Between resets, the messages a queue accepted are those it delivered followed by
 those it holds.  Nobody waits to receive from a queue that holds a message, nor to send to
 one that has room.  A blocked call that comes back has had its message transferred exactly
 once, or was failed by a reset or a deletion.
 */
module KernelMail {
  import opened KernelState
  import opened KernelSpec
  import opened KernelPlaces
  import opened KernelScheduling

  // ---- Reading the log ----

  /** Values accepted by queue `f` since it was last emptied. */
  ghost function Ins(log: seq<Event>, f: nat): seq<int> {
    if log == [] then []
    else
      var e := log[|log| - 1];
      if e == Cleared(f) then []
      else Ins(log[..|log| - 1], f) + (if e.Accepted? && e.fid == f then [e.val] else [])
  }

  /** Values delivered by queue `f` since it was last emptied. */
  ghost function Outs(log: seq<Event>, f: nat): seq<int> {
    if log == [] then []
    else
      var e := log[|log| - 1];
      if e == Cleared(f) then []
      else Outs(log[..|log| - 1], f) + (if e.Delivered? && e.fid == f then [e.val] else [])
  }

  /** What happened to process `p` since the log had length `since`. */
  ghost function CallLog(log: seq<Event>, since: nat, p: nat): seq<Event> {
    if |log| <= since then []
    else
      var e := log[|log| - 1];
      CallLog(log[..|log| - 1], since, p) + (if e.By(p) then [e] else [])
  }

  lemma LogOne(log: seq<Event>, e: Event, f: nat)
    ensures Ins(log + [e], f) ==
      if e == Cleared(f) then [] else Ins(log, f) + (if e.Accepted? && e.fid == f then [e.val] else [])
    ensures Outs(log + [e], f) ==
      if e == Cleared(f) then [] else Outs(log, f) + (if e.Delivered? && e.fid == f then [e.val] else [])
  {
    assert (log + [e])[..|log|] == log;
  }

  lemma CallLogOne(log: seq<Event>, e: Event, since: nat, p: nat)
    requires since <= |log|
    ensures CallLog(log + [e], since, p) == CallLog(log, since, p) + (if e.By(p) then [e] else [])
  {
    assert (log + [e])[..|log|] == log;
  }

  // ---- The invariant ----

  ghost predicate QueueOk(q: Queue, f: nat, log: seq<Event>) {
    && |q.buf| <= q.capacity && (q.half == 0 || q.capacity == 0)
    && Ins(log, f) == Outs(log, f) + q.buf
  }

  /** The call came back with 0 and its message moved once, or with -1 and it was aborted. */
  ghost predicate ReceiveDone(fr: Frame, p: nat, calls: seq<Event>)
    requires fr.InReceive?
  {
    && |calls| == 1
    && (|| (fr.retval == -1 && calls[0] == Aborted(fr.fid, p))
        || (fr.retval == 0 && calls[0].Delivered? && calls[0] == Delivered(fr.fid, p, calls[0].val)
            && (fr.cell == NullCell || fr.cell == Written(calls[0].val))))
  }

  ghost predicate SendDone(fr: Frame, p: nat, calls: seq<Event>)
    requires fr.InSend?
  {
    calls == [if fr.retval == -1 then Aborted(fr.fid, p) else Accepted(fr.fid, p, fr.message)]
    && (fr.retval == -1 || fr.retval == 0)
  }

  ghost predicate CallOk(q: Proc, p: nat, queues: seq<Queue>, log: seq<Event>) {
    var fr := q.frame;
    q.since <= |log| &&
    match q.status
    case Dead => true
    case Lost => true
    case Zombie(_) => true
    case WaitEmpty(f) =>
      && f < |queues| && queues[f].capacity > 0 && queues[f].buf == []
      && fr.InReceive? && fr.fid == f && fr.retval == 0 && !fr.cell.Written?
      && CallLog(log, q.since, p) == []
    case WaitFull(f) =>
      && f < |queues| && queues[f].capacity > 0 && |queues[f].buf| == queues[f].capacity
      && fr.InSend? && fr.fid == f && fr.retval == 0
      && CallLog(log, q.since, p) == []
    case _ =>
      && (fr.InReceive? ==> ReceiveDone(fr, p, CallLog(log, q.since, p)))
      && (fr.InSend? ==> SendDone(fr, p, CallLog(log, q.since, p)))
  }

  ghost predicate Mail(s: State)
    requires Shape(s)
  {
    && (forall f | 0 <= f < NBQUEUE :: QueueOk(s.queues[f], f, s.log))
    && (forall p | 0 <= p < NBPROC :: CallOk(s.procs[p], p, s.queues, s.log))
  }

  // ---- Steps that leave mail alone ----

  /** A process whose queue call, if any, is where it was. */
  ghost predicate SameCall(a: Proc, b: Proc) {
    && b.since == a.since
    && (|| !b.status.Alive()
        || (b.frame == a.frame && b.status == a.status)
        || (b.frame == a.frame && (a.status.Ready() || a.status.WaitChild?) && (b.status.Ready() || b.status.WaitChild?))
        || (!b.frame.InReceive? && !b.frame.InSend? && (b.status.Ready() || b.status.WaitChild?)))
  }

  lemma MailSame(s: State, t: State)
    requires Shape(s) && Shape(t) && Mail(s) && t.queues == s.queues && t.log == s.log
    requires forall p | 0 <= p < NBPROC :: SameCall(s.procs[p], t.procs[p])
    ensures Mail(t)
  {
    forall p | 0 <= p < NBPROC ensures CallOk(t.procs[p], p, t.queues, t.log) {
      assert CallOk(s.procs[p], p, s.queues, s.log) && SameCall(s.procs[p], t.procs[p]);
    }
  }

  lemma MailScheduled(s: State, t: State)
    requires Shape(s) && Shape(t) && Mail(s) && Scheduled(s, t)
    ensures Mail(t)
  {
    forall p | 0 <= p < NBPROC ensures SameCall(s.procs[p], t.procs[p]) {
      assert Rotated(s.procs[p], t.procs[p], s.clock);
    }
    MailSame(s, t);
  }

  // ---- Waiting processes are at the head of the right list ----

  lemma NoReceivers(s: State, f: nat)
    requires Shape(s) && Tidy(s, {}) && Mail(s) && f < NBQUEUE && s.queues[f].buf != []
    ensures On(s, Receivers(f)) == []
  {
    var l := On(s, Receivers(f));
    assert l != [] ==> l[0] in l;
    forall p | 0 <= p < NBPROC ensures s.procs[p].status != WaitEmpty(f) {
      assert CallOk(s.procs[p], p, s.queues, s.log);
    }
    OnList(s, f);
  }

  lemma NoSenders(s: State, f: nat)
    requires Shape(s) && Tidy(s, {}) && Mail(s) && f < NBQUEUE
    requires |s.queues[f].buf| != s.queues[f].capacity || s.queues[f].capacity == 0
    ensures On(s, Senders(f)) == []
  {
    var l := On(s, Senders(f));
    assert l != [] ==> l[0] in l;
    forall p | 0 <= p < NBPROC ensures s.procs[p].status != WaitFull(f) {
      assert CallOk(s.procs[p], p, s.queues, s.log);
    }
    OnList(s, f);
  }

  /** A process that waits at `f` is on the list for `f`. */
  lemma OnList(s: State, f: nat)
    requires Shape(s) && Tidy(s, {})
    ensures forall p | 0 <= p < NBPROC && s.procs[p].status == WaitEmpty(f) :: p in On(s, Receivers(f))
    ensures forall p | 0 <= p < NBPROC && s.procs[p].status == WaitFull(f) :: p in On(s, Senders(f))
    ensures forall p | p in On(s, Receivers(f)) :: p < NBPROC && s.procs[p].status == WaitEmpty(f)
    ensures forall p | p in On(s, Senders(f)) :: p < NBPROC && s.procs[p].status == WaitFull(f)
  {
  }

  // ---- Blocking ----

  lemma BlockMail(s: State, fr: Frame, st: Status)
    requires Shape(s) && Mail(s) && (fr.InReceive? || fr.InSend?)
    requires fr.fid < NBQUEUE && s.queues[fr.fid].capacity > 0 && fr.retval == 0
    requires (fr.InReceive? && st == WaitEmpty(fr.fid) && s.queues[fr.fid].buf == [] && !fr.cell.Written?)
          || (fr.InSend? && st == WaitFull(fr.fid) && |s.queues[fr.fid].buf| == s.queues[fr.fid].capacity)
    ensures Mail(Block(s, fr, st))
  {
    var t := Block(s, fr, st);
    hide Move;
    forall p | 0 <= p < NBPROC ensures CallOk(t.procs[p], p, t.queues, t.log) {
      assert CallOk(s.procs[p], p, s.queues, s.log);
    }
  }

  // ---- Aborting ----

  /** While a queue is being flushed its waiters only have to be ready to fail. */
  ghost predicate CallOkBut(q: Proc, p: nat, f: nat, queues: seq<Queue>, log: seq<Event>) {
    if q.status == WaitEmpty(f) then
      && q.frame.InReceive? && q.frame.fid == f && q.since <= |log| && CallLog(log, q.since, p) == []
    else if q.status == WaitFull(f) then
      && q.frame.InSend? && q.frame.fid == f && q.since <= |log| && CallLog(log, q.since, p) == []
    else CallOk(q, p, queues, log)
  }

  ghost predicate MailBut(s: State, f: nat)
    requires Shape(s)
  {
    && (forall g | 0 <= g < NBQUEUE :: QueueOk(s.queues[g], g, s.log))
    && (forall p | 0 <= p < NBPROC :: CallOkBut(s.procs[p], p, f, s.queues, s.log))
  }

  /** Events about another process do not matter to a call. */
  lemma OtherEvent(q: Proc, p: nat, f: nat, queues: seq<Queue>, log: seq<Event>, e: Event)
    requires CallOkBut(q, p, f, queues, log) && !e.By(p)
    ensures CallOkBut(q, p, f, queues, log + [e])
  {
    if q.since <= |log| {
      CallLogOne(log, e, q.since, p);
    }
  }

  lemma AbortProc(q: Proc, p: nat, f: nat, queues: seq<Queue>, log: seq<Event>, stamp: nat)
    requires CallOkBut(q, p, f, queues, log) && (q.status == WaitEmpty(f) || q.status == WaitFull(f))
    ensures CallOkBut(Abort(q).(status := Runnable, stamp := stamp), p, f, queues, log + [Aborted(f, p)])
  {
    CallLogOne(log, Aborted(f, p), q.since, p);
  }

  /** An event that neither clears, fills nor drains any queue. */
  lemma QueuesKeep(s: State, t: State, e: Event)
    requires Shape(s) && Shape(t) && t.queues == s.queues && t.log == s.log + [e] && e.Aborted?
    requires forall g | 0 <= g < NBQUEUE :: QueueOk(s.queues[g], g, s.log)
    ensures forall g | 0 <= g < NBQUEUE :: QueueOk(t.queues[g], g, t.log)
  {
    forall g | 0 <= g < NBQUEUE ensures QueueOk(t.queues[g], g, t.log) {
      LogOne(s.log, e, g);
      assert QueueOk(s.queues[g], g, s.log);
    }
  }

  lemma AbortMail(s: State, f: nat, pl: Place)
    requires Shape(s) && Tidy(s, {}) && MailBut(s, f) && (pl == Receivers(f) || pl == Senders(f)) && On(s, pl) != []
    ensures MailBut(AbortFirst(s, pl), f)
  {
    hide Tidy, AbortFirst;
    var h := On(s, pl)[0];
    OnList(s, f);
    assert h in On(s, pl);
    var t := AbortFirst(s, pl);
    QueuesKeep(s, t, Aborted(f, h));
    AbortCalls(s, t, f, h);
  }

  lemma AbortCalls(s: State, t: State, f: nat, h: nat)
    requires Shape(s) && Shape(t) && MailBut(s, f) && h < NBPROC
    requires s.procs[h].status == WaitEmpty(f) || s.procs[h].status == WaitFull(f)
    requires t.procs == s.procs[h := Abort(s.procs[h]).(status := Runnable, stamp := s.now)]
    requires t.queues == s.queues && t.log == s.log + [Aborted(f, h)]
    ensures forall p | 0 <= p < NBPROC :: CallOkBut(t.procs[p], p, f, t.queues, t.log)
  {
    forall p | 0 <= p < NBPROC ensures CallOkBut(t.procs[p], p, f, t.queues, t.log) {
      assert CallOkBut(s.procs[p], p, f, s.queues, s.log);
      if p == h {
        AbortProc(s.procs[h], h, f, s.queues, s.log, s.now);
      } else {
        OtherEvent(s.procs[p], p, f, s.queues, s.log, Aborted(f, h));
      }
    }
  }

  /** What a queue can be replaced by. */
  predicate Vacant(q: Queue) {
    q.buf == [] && (q.half == 0 || q.capacity == 0)
  }

  /** Emptying a queue leaves its waiters to be aborted and everybody else alone. */
  lemma ClearMail(s: State, f: nat, q: Queue)
    requires Shape(s) && Mail(s) && f < NBQUEUE && Vacant(q)
    ensures MailBut(SetQueue(s, f, q, [Cleared(f)]), f)
  {
    var e := Cleared(f);
    var t := SetQueue(s, f, q, [e]);
    hide SetQueue;
    forall g | 0 <= g < NBQUEUE ensures QueueOk(t.queues[g], g, t.log) {
      LogOne(s.log, e, g);
      assert QueueOk(s.queues[g], g, s.log);
    }
    forall p | 0 <= p < NBPROC ensures CallOkBut(t.procs[p], p, f, t.queues, t.log) {
      assert CallOk(s.procs[p], p, s.queues, s.log);
      CallLogOne(s.log, e, s.procs[p].since, p);
    }
  }

  /** Once nobody waits at `f` any more, the flush is complete. */
  lemma FlushedMail(s: State, f: nat)
    requires Shape(s) && Tidy(s, {}) && MailBut(s, f) && On(s, Receivers(f)) == [] && On(s, Senders(f)) == []
    ensures Mail(s)
  {
    hide Tidy;
    OnList(s, f);
    forall p | 0 <= p < NBPROC ensures CallOk(s.procs[p], p, s.queues, s.log) {
      assert CallOkBut(s.procs[p], p, f, s.queues, s.log);
    }
  }

  // ---- Sending and receiving without blocking ----

  lemma OtherQueue(log: seq<Event>, e: Event, q: Queue, g: nat)
    requires QueueOk(q, g, log) && e.fid != g
    ensures QueueOk(q, g, log + [e])
  {
    LogOne(log, e, g);
  }

  /** A call is not affected by events about others, as long as its queue stays as full as it was. */
  lemma OtherCall(q: Proc, p: nat, queues: seq<Queue>, queues': seq<Queue>, log: seq<Event>, e: Event)
    requires CallOk(q, p, queues, log) && |queues'| == |queues|
    requires !e.By(p) || (q.frame == NoCall && q.status.Running?)
    requires (q.status.WaitEmpty? || q.status.WaitFull?) && q.status.fid < |queues| ==>
      var a, b := queues[q.status.fid], queues'[q.status.fid];
      a.capacity == b.capacity && |a.buf| == |b.buf|
    ensures CallOk(q, p, queues', log + [e])
  {
    CallLogOne(log, e, q.since, p);
  }

  lemma StoreQueue(q: Queue, f: nat, p: nat, v: int, log: seq<Event>)
    requires QueueOk(q, f, log) && |q.buf| < q.capacity
    ensures QueueOk(q.(buf := q.buf + [v]), f, log + [Accepted(f, p, v)])
  {
    LogOne(log, Accepted(f, p, v), f);
  }

  lemma StoreMail(s: State, f: nat, v: int)
    requires Shape(s) && Mail(s) && f < NBQUEUE && |s.queues[f].buf| < s.queues[f].capacity
    requires s.procs[s.active].frame == NoCall && s.procs[s.active].status.Running?
    requires forall p | 0 <= p < NBPROC :: s.procs[p].status != WaitEmpty(f) && s.procs[p].status != WaitFull(f)
    ensures Mail(Store(s, f, v))
  {
    var t := Store(s, f, v);
    var e := Accepted(f, s.active, v);
    hide CallOk, QueueOk, Ins, Outs, CallLog;
    forall g | 0 <= g < NBQUEUE ensures QueueOk(t.queues[g], g, t.log) {
      assert QueueOk(s.queues[g], g, s.log);
      if g == f { StoreQueue(s.queues[f], f, s.active, v, s.log); } else { OtherQueue(s.log, e, s.queues[g], g); }
    }
    forall p | 0 <= p < NBPROC ensures CallOk(t.procs[p], p, t.queues, t.log) {
      assert CallOk(s.procs[p], p, s.queues, s.log);
      OtherCall(s.procs[p], p, s.queues, t.queues, s.log, e);
    }
  }

  lemma FetchMail(s: State, f: nat)
    requires Shape(s) && Mail(s) && f < NBQUEUE && s.queues[f].buf != []
    requires s.procs[s.active].frame == NoCall && s.procs[s.active].status.Running?
    requires forall p | 0 <= p < NBPROC :: s.procs[p].status != WaitEmpty(f) && s.procs[p].status != WaitFull(f)
    ensures Mail(Fetch(s, f))
  {
    var t := Fetch(s, f);
    var e := Delivered(f, s.active, s.queues[f].buf[0]);
    forall g | 0 <= g < NBQUEUE ensures QueueOk(t.queues[g], g, t.log) {
      LogOne(s.log, e, g);
      assert QueueOk(s.queues[g], g, s.log);
    }
    forall p | 0 <= p < NBPROC ensures CallOk(t.procs[p], p, t.queues, t.log) {
      assert CallOk(s.procs[p], p, s.queues, s.log);
      OtherCall(s.procs[p], p, s.queues, t.queues, s.log, e);
    }
  }

  lemma HandOffQueue(log: seq<Event>, q: Queue, f: nat, a: nat, h: nat, v: int)
    requires QueueOk(q, f, log) && q.buf == []
    ensures QueueOk(q, f, log + [Accepted(f, a, v)] + [Delivered(f, h, v)])
  {
    LogOne(log, Accepted(f, a, v), f);
    LogOne(log + [Accepted(f, a, v)], Delivered(f, h, v), f);
  }

  lemma HandOffCall(q: Proc, h: nat, queues: seq<Queue>, log: seq<Event>, f: nat, a: nat, v: int, stamp: nat)
    requires CallOk(q, h, queues, log) && q.status == WaitEmpty(f) && a != h
    ensures CallOk(q.(frame := Fill(q.frame, v), status := Runnable, stamp := stamp), h, queues,
                   log + [Accepted(f, a, v)] + [Delivered(f, h, v)])
  {
    CallLogOne(log, Accepted(f, a, v), q.since, h);
    CallLogOne(log + [Accepted(f, a, v)], Delivered(f, h, v), q.since, h);
  }

  lemma HandOffMail(s: State, f: nat, v: int)
    requires Shape(s) && Tidy(s, {}) && Mail(s) && f < NBQUEUE && s.queues[f].buf == [] && On(s, Receivers(f)) != []
    requires s.procs[s.active].frame == NoCall && s.procs[s.active].status.Running?
    ensures Mail(HandOff(s, f, v))
  {
    hide Tidy, Move;
    OnList(s, f);
    var a, h := s.active, On(s, Receivers(f))[0];
    assert h in On(s, Receivers(f));
    var t := HandOff(s, f, v);
    var e1, e2 := Accepted(f, a, v), Delivered(f, h, v);
    assert t.log == s.log + [e1] + [e2];
    assert t.queues == s.queues;
    assert t.procs == s.procs[h := s.procs[h].(frame := Fill(s.procs[h].frame, v), status := Runnable, stamp := s.now)];
    hide HandOff;
    forall g | 0 <= g < NBQUEUE ensures QueueOk(t.queues[g], g, t.log) {
      assert QueueOk(s.queues[g], g, s.log);
      if g == f {
        HandOffQueue(s.log, s.queues[f], f, a, h, v);
      } else {
        OtherQueue(s.log, e1, s.queues[g], g);
        OtherQueue(s.log + [e1], e2, s.queues[g], g);
      }
    }
    forall p | 0 <= p < NBPROC ensures CallOk(t.procs[p], p, t.queues, t.log) {
      assert CallOk(s.procs[p], p, s.queues, s.log);
      if p == h {
        HandOffCall(s.procs[h], h, s.queues, s.log, f, a, v, s.now);
      } else {
        OtherCall(s.procs[p], p, s.queues, s.queues, s.log, e1);
        OtherCall(s.procs[p], p, s.queues, s.queues, s.log + [e1], e2);
      }
    }
  }

  lemma RefillQueue(log: seq<Event>, q: Queue, f: nat, a: nat, h: nat, v: int)
    requires QueueOk(q, f, log) && q.buf != []
    ensures QueueOk(q.(buf := q.buf[1..] + [v]), f, log + [Delivered(f, a, q.buf[0])] + [Accepted(f, h, v)])
  {
    LogOne(log, Delivered(f, a, q.buf[0]), f);
    LogOne(log + [Delivered(f, a, q.buf[0])], Accepted(f, h, v), f);
    assert q.buf == [q.buf[0]] + q.buf[1..];
  }

  lemma RefillCall(q: Proc, h: nat, queues: seq<Queue>, queues': seq<Queue>, log: seq<Event>, f: nat, e: Event, stamp: nat)
    requires CallOk(q, h, queues, log) && q.status == WaitFull(f) && !e.By(h)
    ensures CallOk(q.(status := Runnable, stamp := stamp), h, queues', log + [e] + [Accepted(f, h, Pending(q))])
  {
    CallLogOne(log, e, q.since, h);
    CallLogOne(log + [e], Accepted(f, h, Pending(q)), q.since, h);
  }

  /** Receiving from a full queue lets the first waiting sender in. */
  lemma RefillMail(s: State, f: nat)
    requires Shape(s) && Tidy(s, {}) && Mail(s) && f < NBQUEUE && s.queues[f].buf != [] && On(s, Senders(f)) != []
    requires s.procs[s.active].frame == NoCall && s.procs[s.active].status.Running?
    ensures Mail(Admit(Fetch(s, f), f))
  {
    hide Tidy, Move;
    OnList(s, f);
    var a, h, q := s.active, On(s, Senders(f))[0], s.queues[f];
    assert h in On(s, Senders(f));
    var v := Pending(s.procs[h]);
    var e1, e2 := Delivered(f, a, q.buf[0]), Accepted(f, h, v);
    var t := Admit(Fetch(s, f), f);
    assert t.log == s.log + [e1] + [e2];
    assert t.queues == s.queues[f := q.(buf := q.buf[1..] + [v])];
    assert t.procs == s.procs[h := s.procs[h].(status := Runnable, stamp := s.now)];
    hide Admit, Fetch;
    forall g | 0 <= g < NBQUEUE ensures QueueOk(t.queues[g], g, t.log) {
      assert QueueOk(s.queues[g], g, s.log);
      if g == f {
        RefillQueue(s.log, q, f, a, h, v);
      } else {
        OtherQueue(s.log, e1, s.queues[g], g);
        OtherQueue(s.log + [e1], e2, s.queues[g], g);
      }
    }
    forall p | 0 <= p < NBPROC ensures CallOk(t.procs[p], p, t.queues, t.log) {
      assert CallOk(s.procs[p], p, s.queues, s.log);
      if p == h {
        RefillCall(s.procs[h], h, s.queues, t.queues, s.log, f, e1, s.now);
      } else {
        OtherCall(s.procs[p], p, s.queues, t.queues, s.log, e1);
        OtherCall(s.procs[p], p, t.queues, t.queues, s.log + [e1], e2);
      }
    }
  }
}
