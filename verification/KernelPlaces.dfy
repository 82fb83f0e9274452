/**
 Every process is on exactly the list that its state names, and every list is sorted.

 Between taking a process off one list and putting it on another, the process is in
 limbo: on no list, whatever its state says.
 */
module KernelPlaces {
  import opened KernelState
  import opened KernelSpec

  ghost predicate Filed(s: State, limbo: set<nat>, pl: Place, p: nat)
    requires Shape(s)
  {
    p < NBPROC && p !in limbo && pl != Nowhere && s.procs[p].status.Place() == pl
  }

  ghost predicate Placed(s: State, limbo: set<nat>)
    requires Shape(s)
  {
    && (forall pl, p | p in On(s, pl) :: Filed(s, limbo, pl, p))
    && (forall p | 0 <= p < NBPROC && p !in limbo && s.procs[p].status.Place() != Nowhere ::
          p in On(s, s.procs[p].status.Place()))
  }

  ghost predicate AllSorted(s: State)
    requires Shape(s)
  {
    forall pl :: Sorted(s.procs, pl, On(s, pl))
  }

  ghost predicate Tidy(s: State, limbo: set<nat>)
    requires Shape(s)
  {
    Placed(s, limbo) && AllSorted(s)
  }

  /** A process on no list may change in any way. */
  lemma SetProcTidy(s: State, p: nat, q: Proc, limbo: set<nat>)
    requires Shape(s) && p < NBPROC && q.stamp < s.now && Tidy(s, limbo)
    requires p in limbo || (s.procs[p].status.Place() == Nowhere && q.status.Place() == Nowhere)
    ensures Tidy(SetProc(s, p, q), limbo)
  {
    var t := SetProc(s, p, q);
    forall pl ensures Sorted(t.procs, pl, On(t, pl)) {
      assert p !in On(s, pl);
      SortedFrame(s.procs, t.procs, pl, On(s, pl));
    }
  }

  /** A process on a list may change in what no list looks at. */
  lemma SetProcSameTidy(s: State, p: nat, q: Proc, limbo: set<nat>)
    requires Shape(s) && p < NBPROC && q.stamp < s.now && Tidy(s, limbo)
    requires q.status == s.procs[p].status && q.stamp == s.procs[p].stamp
    requires q.prio == s.procs[p].prio || !OrderedByPriority(q.status)
    ensures Tidy(SetProc(s, p, q), limbo)
  {
    var t := SetProc(s, p, q);
    forall pl ensures Sorted(t.procs, pl, On(t, pl)) {
      if q.prio == s.procs[p].prio || p !in On(s, pl) {
        SortedFrame(s.procs, t.procs, pl, On(s, pl));
      } else {
        assert pl == Sleepers || pl == Free;
        forall i, j | 0 <= i < j < |On(s, pl)| ensures Before(t.procs, pl, On(s, pl)[i], On(s, pl)[j]) {
          assert Before(s.procs, pl, On(s, pl)[i], On(s, pl)[j]);
        }
      }
    }
  }

  lemma DetachTidy(s: State, p: nat, limbo: set<nat>)
    requires Shape(s) && p < NBPROC && Tidy(s, limbo)
    ensures Tidy(Detach(s, p), limbo + {p})
  {
    hide Placed, Sorted, Without;
    var t := Detach(s, p);
    var at := s.procs[p].status.Place();
    assert Sorted(s.procs, at, On(s, at));
    WithoutSorted(s.procs, at, On(s, at), p);
    if at == Nowhere { NothingNowhere(s, limbo); }
    DetachPlaced(s, t, p, limbo);
    forall pl ensures Sorted(t.procs, pl, On(t, pl)) {
      assert Sorted(s.procs, pl, On(s, pl));
    }
  }

  lemma NothingNowhere(s: State, limbo: set<nat>)
    requires Shape(s) && Placed(s, limbo)
    ensures forall x :: x !in On(s, Nowhere)
  {
    forall x | x in On(s, Nowhere) ensures Filed(s, limbo, Nowhere, x) {}
  }

  lemma DetachPlaced(s: State, t: State, p: nat, limbo: set<nat>)
    requires Shape(s) && Shape(t) && p < NBPROC && Placed(s, limbo) && t.procs == s.procs
    requires var at := s.procs[p].status.Place();
      && (forall x :: x in On(t, at) <==> x in On(s, at) && x != p)
      && (forall pl | pl != at :: On(t, pl) == On(s, pl))
    ensures Placed(t, limbo + {p})
  {
    var at := s.procs[p].status.Place();
    forall q | 0 <= q < NBPROC && q !in limbo + {p} && t.procs[q].status.Place() != Nowhere
      ensures q in On(t, t.procs[q].status.Place())
    {
      assert q in On(s, s.procs[q].status.Place());
    }
    forall pl, q | q in On(t, pl) ensures Filed(t, limbo + {p}, pl, q) {
      assert q in On(s, pl);
    }
  }

  lemma AttachSorted(s: State, p: nat)
    requires Shape(s) && p < NBPROC && AllSorted(s)
    requires forall pl :: p !in On(s, pl)
    ensures AllSorted(Attach(s, p))
    ensures var at := s.procs[p].status.Place();
      at != Nowhere ==> forall x :: x in On(Attach(s, p), at) <==> x == p || x in On(s, at)
  {
    var t := Attach(s, p);
    var at := s.procs[p].status.Place();
    forall pl ensures Sorted(t.procs, pl, On(s, pl)) {
      assert Sorted(s.procs, pl, On(s, pl));
      SortedFrame(s.procs, t.procs, pl, On(s, pl));
    }
    InsertSorted(t.procs, at, On(s, at), p);
  }

  lemma AttachTidy(s: State, p: nat, limbo: set<nat>)
    requires Shape(s) && p < NBPROC && p in limbo && Tidy(s, limbo)
    ensures Tidy(Attach(s, p), limbo - {p})
  {
    assert forall pl :: p !in On(s, pl);
    AttachSorted(s, p);
    AttachPlaced(s, Attach(s, p), p, limbo) by {
      hide Placed, AllSorted;
    }
  }

  lemma AttachPlaced(s: State, t: State, p: nat, limbo: set<nat>)
    requires Shape(s) && Shape(t) && p < NBPROC && p in limbo && Placed(s, limbo)
    requires t.procs == s.procs[p := s.procs[p].(stamp := t.procs[p].stamp)]
    requires var at := s.procs[p].status.Place();
      && (at != Nowhere ==> forall x :: x in On(t, at) <==> x == p || x in On(s, at))
      && (forall pl | pl != at || at == Nowhere :: On(t, pl) == On(s, pl))
    ensures Placed(t, limbo - {p})
  {
    var at := s.procs[p].status.Place();
    forall q | 0 <= q < NBPROC && q !in limbo - {p} && t.procs[q].status.Place() != Nowhere
      ensures q in On(t, t.procs[q].status.Place())
    {
      assert t.procs[q].status == s.procs[q].status;
      if q != p {
        assert q in On(s, s.procs[q].status.Place());
      }
    }
    forall pl, q | q in On(t, pl) ensures Filed(t, limbo - {p}, pl, q) {
      assert q in On(s, pl) || (q == p && pl == at);
    }
  }

  lemma MoveTidy(s: State, p: nat, st: Status)
    requires Shape(s) && p < NBPROC && Tidy(s, {})
    ensures Tidy(Move(s, p, st), {})
  {
    DetachTidy(s, p, {});
    var d := Detach(s, p);
    assert {} + {p} == {p};
    SetProcTidy(d, p, d.procs[p].(status := st), {p});
    AttachTidy(SetProc(d, p, d.procs[p].(status := st)), p, {p});
    assert {p} - {p} == {};
  }

  lemma HeadPlace(s: State, pl: Place)
    requires Shape(s) && Tidy(s, {}) && On(s, pl) != []
    ensures s.procs[On(s, pl)[0]].status.Place() == pl
  {
    assert On(s, pl)[0] in On(s, pl);
  }

  /** Taking the first process off a list leaves the rest of it and all other lists. */
  lemma DetachHead(s: State, pl: Place, limbo: set<nat>)
    requires Shape(s) && Placed(s, limbo) && On(s, pl) != []
    ensures var t := Detach(s, On(s, pl)[0]);
      && On(t, pl) == On(s, pl)[1..]
      && (forall l | l != pl :: On(t, l) == On(s, l))
    ensures s.procs[On(s, pl)[0]].status.Place() == pl
  {
    assert On(s, pl)[0] in On(s, pl);
    assert IndexOf(On(s, pl), On(s, pl)[0]) == 0;
  }

  lemma DetachAt(s: State, pl: Place, k: nat, limbo: set<nat>)
    requires Shape(s) && Tidy(s, limbo) && k < |On(s, pl)|
    ensures var l := On(s, pl); var t := Detach(s, l[k]);
      && On(t, pl) == l[..k] + l[k + 1..]
      && (forall l' | l' != pl :: On(t, l') == On(s, l'))
      && forall i | 0 <= i < |l| && i != k :: l[i] != l[k]
    ensures forall i | 0 <= i < |On(s, pl)| :: s.procs[On(s, pl)[i]].status.Place() == pl
  {
    var l := On(s, pl);
    assert forall i | 0 <= i < |l| :: l[i] in l;
    assert Sorted(s.procs, pl, l);
    SortedNoDup(s.procs, pl, l);
    assert IndexOf(l, l[k]) == k;
  }

  /** Where Attach puts a process, in terms of what the kernel compares. */
  predicate GoesBefore(ps: seq<Proc>, pl: Place, p: nat, x: nat)
    requires p < |ps| && x < |ps|
  {
    match pl
    case Sleepers => Wake(ps[p]) <= Wake(ps[x])
    case Free => true
    case _ => ps[p].prio > ps[x].prio
  }

  ghost predicate FitsAt(s: State, p: nat, k: nat)
    requires Shape(s) && p < NBPROC
  {
    var at := s.procs[p].status.Place();
    var l := On(s, at);
    && at != Nowhere && k <= |l|
    && (forall i | 0 <= i < k :: !GoesBefore(s.procs, at, p, l[i]))
    && (k < |l| ==> GoesBefore(s.procs, at, p, l[k]))
  }

  lemma AttachAt(s: State, p: nat, k: nat, limbo: set<nat>)
    requires Shape(s) && p < NBPROC && Tidy(s, limbo) && p in limbo && FitsAt(s, p, k)
    ensures var at := s.procs[p].status.Place(); var l := On(s, at); var t := Attach(s, p);
      && at != Nowhere && k <= |l| && p !in l
      && On(t, at) == l[..k] + [p] + l[k..]
      && (forall l' | l' != at :: On(t, l') == On(s, l'))
  {
    var at := s.procs[p].status.Place();
    var l := On(s, at);
    assert p !in l;
    var ps := s.procs[p := s.procs[p].(stamp := s.now)];
    hide Tidy, Placed, AllSorted, Sorted;
    assert forall i | 0 <= i < |l| :: Before(ps, at, p, l[i]) == GoesBefore(s.procs, at, p, l[i]);
    assert Slot(ps, at, l, p) == k;
  }

  lemma Member(s: State, pl: Place, k: nat, limbo: set<nat>)
    requires Shape(s) && Tidy(s, limbo) && k < |On(s, pl)|
    ensures var l := On(s, pl);
      && s.procs[l[k]].status.Place() == pl && pl != Nowhere && l[k] !in limbo
      && forall i | 0 <= i < |l| && i != k :: l[i] != l[k]
  {
    var l := On(s, pl);
    assert l[k] in l;
    assert Sorted(s.procs, pl, l);
    SortedNoDup(s.procs, pl, l);
  }

  lemma GrowLimbo(s: State, limbo: set<nat>, p: nat)
    requires Shape(s) && Placed(s, limbo) && p < NBPROC
    requires p in limbo || s.procs[p].status.Place() == Nowhere
    ensures Placed(s, limbo + {p})
  {
    forall pl ensures p !in On(s, pl) {
    }
  }

  /** What moving a process does to the lists. */
  lemma MoveLists(s: State, p: nat, st: Status)
    requires Shape(s) && p < NBPROC
    ensures var t := Move(s, p, st); var from, to := s.procs[p].status.Place(), st.Place();
      && (forall pl | pl != from && pl != to :: On(t, pl) == On(s, pl))
      && (from != to && from != Nowhere ==> On(t, from) == Without(On(s, from), p))
      && (to != Nowhere ==> On(t, to) == Insert(t.procs, to, if from == to then Without(On(s, to), p) else On(s, to), p))
  {
  }
}
