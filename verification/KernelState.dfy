/**
 The abstract state of the process scheduler and the message queues.

 Every intrusive list of the kernel (runnable, asleep, dead, and the two waiting lists of
 each queue) is a sequence of pids filed under a `Place`.  Three components are history:
 `stamp` (when a process was last put on a list), `since` (the length of the log when the
 process last blocked on a queue) and `log` (what happened to messages).
 */
module KernelState {

  const NBPROC: nat := 30
  const NBQUEUE: nat := 300
  const NOPID := -1
  const MAXPRIO := 256
  /** Words in a kernel stack, and bytes allowed in a user stack. */
  const NBSTACK: nat := 1024
  const MAXSTACK: nat := 0x4000_0000
  const MAXCAPACITY: nat := 10000
  /** `unsigned long` clock values wrap here. */
  const CLOCKWRAP: nat := 0x1_0000_0000
  /** CLOCKFREQ / SCHEDFREQ: clock interrupts per scheduler tick. */
  const CLOCKS_PER_TICK: nat := 4

  /** A slot is dead on the stack of free ones, or lost: dead, but on no list, because its stack could not be had. */
  datatype Status =
    | Dead
    | Lost
    | Zombie(retval: int)
    | Runnable
    | Running
    | Asleep(wake: nat)
    | WaitChild
    | WaitEmpty(fid: nat)
    | WaitFull(fid: nat)
  {
    predicate Alive() { !Dead? && !Lost? && !Zombie? }

    /** Not blocked for good: running, or waiting only for the scheduler or the clock. */
    predicate Ready() { Runnable? || Running? || Asleep? }

    /** The list a process in this state is threaded on. */
    function Place(): Place {
      match this
      case Dead => Free
      case Runnable => RunQueue
      case Asleep(_) => Sleepers
      case WaitEmpty(f) => Receivers(f)
      case WaitFull(f) => Senders(f)
      case _ => Nowhere
    }
  }

  /** A kernel process needs no stack of its own; for a user process memory is found for one, or not. */
  datatype Mode = InKernel | User(memory: bool)

  datatype Place = Nowhere | Free | RunQueue | Sleepers | Receivers(fid: nat) | Senders(fid: nat)

  /** Where a receiver wants its message: a null pointer, or a cell not yet or already written. */
  datatype Cell = NullCell | Unwritten | Written(val: int)

  /** The part of a blocked call's kernel stack frame that other processes write. */
  datatype Frame =
    | NoCall
    | InWaitpid(child: int)
    | InReceive(fid: nat, retval: int, cell: Cell)
    | InSend(fid: nat, retval: int, message: int)

  datatype Proc = Proc(parent: int, prio: int, status: Status, frame: Frame, stamp: nat, since: nat)

  /**
   A message queue; a capacity of zero marks a free slot, unless the slot is half-made: a queue for `half` messages
   whose buffer could not be allocated.
   */
  datatype Queue = Queue(capacity: nat, buf: seq<int>, half: nat := 0)

  datatype Event =
    | Accepted(fid: nat, pid: nat, val: int)
    | Delivered(fid: nat, pid: nat, val: int)
    | Aborted(fid: nat, pid: nat)
    | Cleared(fid: nat)
  {
    predicate By(p: nat) { !Cleared? && pid == p }
  }

  datatype State = State(
    procs: seq<Proc>, active: nat, lists: map<Place, seq<nat>>, queues: seq<Queue>,
    clock: nat, now: nat, log: seq<Event>)

  function On(s: State, pl: Place): seq<nat> {
    if pl in s.lists then s.lists[pl] else []
  }

  /**
   The order of each list: by descending priority and then order of arrival, except that
   sleepers go by wake time (latest arrival first among equals) and free slots are a stack.
   */
  predicate Before(ps: seq<Proc>, pl: Place, a: nat, b: nat)
    requires a < |ps| && b < |ps|
  {
    match pl
    case Sleepers =>
      var wa, wb := Wake(ps[a]), Wake(ps[b]);
      wa < wb || (wa == wb && ps[a].stamp > ps[b].stamp)
    case Free => ps[a].stamp > ps[b].stamp
    case _ =>
      ps[a].prio > ps[b].prio || (ps[a].prio == ps[b].prio && ps[a].stamp < ps[b].stamp)
  }

  function Wake(p: Proc): nat {
    if p.status.Asleep? then p.status.wake else 0
  }

  ghost predicate Sorted(ps: seq<Proc>, pl: Place, list: seq<nat>) {
    && (forall i | 0 <= i < |list| :: list[i] < |ps|)
    && (forall i, j | 0 <= i < j < |list| :: Before(ps, pl, list[i], list[j]))
  }

  /** Where `p` belongs in `list`: in front of the first element that it goes before. */
  function Slot(ps: seq<Proc>, pl: Place, list: seq<nat>, p: nat): (k: nat)
    requires p < |ps| && forall i | 0 <= i < |list| :: list[i] < |ps|
    ensures k <= |list|
    ensures forall i | 0 <= i < k :: !Before(ps, pl, p, list[i])
    ensures k < |list| ==> Before(ps, pl, p, list[k])
  {
    if list == [] || Before(ps, pl, p, list[0]) then 0
    else
      assert forall i | 0 < i < |list| :: list[i] == list[1..][i - 1];
      1 + Slot(ps, pl, list[1..], p)
  }

  function Insert(ps: seq<Proc>, pl: Place, list: seq<nat>, p: nat): seq<nat>
    requires p < |ps| && forall i | 0 <= i < |list| :: list[i] < |ps|
  {
    var k := Slot(ps, pl, list, p);
    list[..k] + [p] + list[k..]
  }

  function IndexOf(list: seq<nat>, p: nat): (k: nat)
    ensures k <= |list|
    ensures p in list <==> k < |list|
    ensures k < |list| ==> list[k] == p
    ensures forall i | 0 <= i < k :: list[i] != p
  {
    if list == [] || list[0] == p then 0
    else
      assert forall i | 0 < i < |list| :: list[i] == list[1..][i - 1];
      1 + IndexOf(list[1..], p)
  }

  function Without(list: seq<nat>, p: nat): (r: seq<nat>) {
    var k := IndexOf(list, p);
    if k < |list| then list[..k] + list[k + 1..] else list
  }

  // ---- Facts about one sorted list ----

  lemma SpliceMembers(list: seq<nat>, k: nat, p: nat)
    requires k <= |list|
    ensures var r := list[..k] + [p] + list[k..]; forall x :: x in r <==> x == p || x in list
  {
    var r := list[..k] + [p] + list[k..];
    assert list == list[..k] + list[k..];
    forall x ensures x in r <==> x == p || x in list {
      assert x in list <==> x in list[..k] || x in list[k..];
    }
  }

  lemma SpliceSorted(ps: seq<Proc>, pl: Place, list: seq<nat>, k: nat, p: nat)
    requires k <= |list| && p < |ps| && Sorted(ps, pl, list)
    requires forall i | 0 <= i < k :: Before(ps, pl, list[i], p)
    requires forall i | k <= i < |list| :: Before(ps, pl, p, list[i])
    ensures Sorted(ps, pl, list[..k] + [p] + list[k..])
  {
    hide Before;
    var r := list[..k] + [p] + list[k..];
    forall i, j | 0 <= i < j < |r| ensures Before(ps, pl, r[i], r[j]) {
      if i != k && j != k {
        assert Before(ps, pl, list[if i < k then i else i - 1], list[if j < k then j else j - 1]);
      }
    }
  }

  lemma CutSorted(ps: seq<Proc>, pl: Place, list: seq<nat>, k: nat)
    requires k < |list| && Sorted(ps, pl, list)
    ensures Sorted(ps, pl, list[..k] + list[k + 1..])
  {
    hide Before;
    var r := list[..k] + list[k + 1..];
    forall i, j | 0 <= i < j < |r| ensures Before(ps, pl, r[i], r[j]) {
      assert Before(ps, pl, list[if i < k then i else i + 1], list[if j < k then j else j + 1]);
    }
  }

  lemma CutMembers(list: seq<nat>, k: nat)
    requires k < |list| && forall i | 0 <= i < |list| && i != k :: list[i] != list[k]
    ensures forall x :: x in list[..k] + list[k + 1..] <==> x in list && x != list[k]
  {
    var r := list[..k] + list[k + 1..];
    assert list == list[..k] + [list[k]] + list[k + 1..];
    forall x ensures x in r <==> x in list && x != list[k] {
      assert x in list <==> x in list[..k] || x == list[k] || x in list[k + 1..];
      assert list[k] !in list[..k] && list[k] !in list[k + 1..];
    }
  }

  /** The newcomer goes behind everything in front of its slot and before everything behind it. */
  lemma SlotSplits(ps: seq<Proc>, pl: Place, list: seq<nat>, p: nat)
    requires p < |ps| && Sorted(ps, pl, list)
    requires forall i | 0 <= i < |list| :: ps[list[i]].stamp < ps[p].stamp
    ensures var k := Slot(ps, pl, list, p);
      && (forall i | 0 <= i < k :: Before(ps, pl, list[i], p))
      && (forall i | k <= i < |list| :: Before(ps, pl, p, list[i]))
  {
    var k := Slot(ps, pl, list, p);
    forall i | 0 <= i < k ensures Before(ps, pl, list[i], p) {
      assert !Before(ps, pl, p, list[i]);
    }
    forall j | k <= j < |list| ensures Before(ps, pl, p, list[j]) {
      assert j > k ==> Before(ps, pl, list[k], list[j]);
    }
  }

  /** A freshly stamped process can be put on any list it is not on, and the list stays sorted. */
  lemma InsertSorted(ps: seq<Proc>, pl: Place, list: seq<nat>, p: nat)
    requires p < |ps| && Sorted(ps, pl, list)
    requires forall i | 0 <= i < |list| :: ps[list[i]].stamp < ps[p].stamp
    ensures Sorted(ps, pl, Insert(ps, pl, list, p))
    ensures forall x :: x in Insert(ps, pl, list, p) <==> x == p || x in list
    ensures |Insert(ps, pl, list, p)| == |list| + 1
  {
    SlotSplits(ps, pl, list, p);
    var k := Slot(ps, pl, list, p);
    hide Before, Sorted;
    SpliceSorted(ps, pl, list, k, p);
    SpliceMembers(list, k, p);
  }

  lemma SortedNoDup(ps: seq<Proc>, pl: Place, list: seq<nat>)
    requires Sorted(ps, pl, list)
    ensures forall i, j | 0 <= i < j < |list| :: list[i] != list[j]
  {
    forall i, j | 0 <= i < j < |list| ensures list[i] != list[j] {
      assert Before(ps, pl, list[i], list[j]);
    }
  }

  lemma WithoutSorted(ps: seq<Proc>, pl: Place, list: seq<nat>, p: nat)
    requires Sorted(ps, pl, list)
    ensures Sorted(ps, pl, Without(list, p))
    ensures forall x :: x in Without(list, p) <==> x in list && x != p
    ensures p in list ==> |Without(list, p)| == |list| - 1
  {
    hide Before, Sorted;
    if p in list {
      SortedNoDup(ps, pl, list);
      var k := IndexOf(list, p);
      CutSorted(ps, pl, list, k);
      CutMembers(list, k);
    }
  }

  /** Sortedness only looks at priority, stamp and wake time of the processes on the list. */
  lemma SortedFrame(ps: seq<Proc>, qs: seq<Proc>, pl: Place, list: seq<nat>)
    requires Sorted(ps, pl, list) && |qs| == |ps|
    requires forall i | 0 <= i < |list| ::
      var a, b := ps[list[i]], qs[list[i]];
      a.prio == b.prio && a.stamp == b.stamp && Wake(a) == Wake(b)
    ensures Sorted(qs, pl, list)
  {
    forall i, j | 0 <= i < j < |list| ensures Before(qs, pl, list[i], list[j]) {
      assert Before(ps, pl, list[i], list[j]);
    }
  }
}
