/** Every step keeps the kernel invariant. */
module Preserve {
  import opened KernelModel
  import opened Placement
  import opened KernelSteps
  import opened KernelInvariant

  // ---------- ids and locks ----------

  /** Nothing that ids and mutexes depend on changes, except perhaps that waiters leave. */
  ghost predicate SameIdentity(s: State, t: State) {
    && t.nextPid == s.nextPid && t.locks == s.locks
    && forall i: Slot ::
      t.pcb[i].pid == s.pcb[i].pid && t.pcb[i].owned == s.pcb[i].owned && (Alive(t, i) <==> Alive(s, i))
  }

  lemma IdentityFrame(s: State, t: State, d: Slot)
    requires PidsOk(s) && LocksOk(s, d) && SameIdentity(s, t)
    requires forall l | LockRange(s, l) && !s.locks[l].locked && Items(s, LockQ(l)) == [] :: Items(t, LockQ(l)) == []
    ensures PidsOk(t) && LocksOk(t, d)
  {
    assert Alive(t, 1);
    forall i: Slot
      ensures OwnerOk(t, d, i)
    {
      assert OwnerOk(s, d, i);
      assert forall l :: Owns(t, i, l) ==> Owns(s, i, l);
    }
    forall l | LockRange(t, l)
      ensures LockOk(t, l)
    {
      assert LockOk(s, l);
      ScanFrame(s, t, s.locks[l].owner);
    }
  }

  // ---------- waking ----------

  /** Some waiters of one queue are woken; nobody else moves. */
  ghost predicate Wakes(s: State, t: State, id: QueueId) {
    && Struct(t)
    && |t.locks| == |s.locks| && |t.conds| == |s.conds| && |t.sems| == |s.sems| && |t.barriers| == |s.barriers|
    && (forall i: Slot :: t.pcb[i] == s.pcb[i] || (i in Items(s, id) && t.pcb[i] == Woken(s.pcb[i])))
    && (forall q, i | IsBlocking(q) && i in Items(t, q) :: i in Items(s, q))
  }

  lemma WakesReasons(s: State, t: State, d: Slot, id: QueueId)
    requires OthersPlaced(s) && Reasons(s, d) && Wakes(s, t, id) && IsBlocking(id) && (id.WaitQ? ==> id.slot == d)
    ensures Reasons(t, d)
  {
    assert WaitersOk(s, d, id);
    forall q
      ensures WaitersOk(t, d, q)
    {
      assert WaitersOk(s, d, q) && QueueOk(t, q);
      if IsBlocking(q) {
        forall i | i in Items(t, q)
          ensures WaiterOk(t, d, q, i)
        {
          assert i in Items(s, q) && WaiterOk(s, d, q, i);
          assert t.pcb[i].on == Some(q);
          assert t.pcb[i] == s.pcb[i];
        }
      }
    }
    forall i: Slot
      ensures FreeOk(t, i)
    {
      assert FreeOk(s, i);
      if t.pcb[i] != s.pcb[i] {
        assert WaiterOk(s, d, id, i);
      }
    }
  }

  lemma DrainedWakes(s: State, t: State, id: QueueId)
    requires Struct(s) && IsBlocking(id) && Drained(s, t, id)
    ensures Wakes(s, t, id)
  {
  }

  // ---------- blocking ----------

  /** The current process joins a wait queue; only its reasons to wait and its continuation change with that. */
  ghost predicate Parks(s: State, t: State, id: QueueId) {
    var c := s.current;
    && t.current == c && t.nextPid == s.nextPid && t.time == s.time && t.locks == s.locks
    && |t.conds| == |s.conds| && |t.sems| == |s.sems| && |t.barriers| == |s.barriers|
    && (forall i: Slot | i != c :: t.pcb[i] == s.pcb[i])
    && t.pcb[c].pid == s.pcb[c].pid && t.pcb[c].owned == s.pcb[c].owned
    && t.pcb[c].status == Blocked && t.pcb[c].on == Some(id)
    && Items(t, id) == Items(s, id) + [c]
    && (forall q | q != id :: Items(t, q) == Items(s, q))
  }

  lemma ParksMid(s: State, t: State, id: QueueId)
    requires Settled(s) && IsBlocking(id) && Parks(s, t, id)
    ensures Mid(t) && (ShellReady(s) && s.current != 1 ==> ShellReady(t))
  {
    assert QueueOk(s, id);
    forall q
      ensures QueueOk(t, q)
    {
      assert QueueOk(s, q);
    }
    forall j: Slot
      ensures Linked(t, j)
    {
      assert Linked(s, j);
    }
  }

  lemma ParksSync(s: State, t: State, id: QueueId)
    requires Settled(s) && PidsOk(s) && LocksOk(s, 0) && Reasons(s, 0) && IsBlocking(id) && Parks(s, t, id)
    requires WaiterOk(t, 0, id, s.current)
    requires id.LockQ? ==> LockRange(s, id.lock) && s.locks[id.lock].locked
    ensures PidsOk(t) && LocksOk(t, 0) && Reasons(t, 0)
  {
    IdentityFrame(s, t, 0);
    forall q
      ensures WaitersOk(t, 0, q)
    {
      assert WaitersOk(s, 0, q);
      forall i | i in Items(t, q)
        ensures WaiterOk(t, 0, q, i)
      {
        assert QueueOk(s, q);
        if i != s.current {
          assert i in Items(s, q) && WaiterOk(s, 0, q, i);
        }
      }
    }
    forall i: Slot
      ensures FreeOk(t, i)
    {
      assert FreeOk(s, i);
    }
  }

  // ---------- mutexes ----------

  lemma {:induction false} DropOwns(owned: Owned, l: int)
    ensures Some(l) !in Drop(owned, l)
    ensures forall m | m != l :: Some(m) in Drop(owned, l) <==> Some(m) in owned
  {
    forall m | m != l && Some(m) in owned
      ensures Some(m) in Drop(owned, l)
    {
      var j :| 0 <= j < |owned| && owned[j] == Some(m);
      assert Drop(owned, l)[j] == Some(m);
    }
  }

  /** The owner's list loses the mutex. */
  function Disown(s: State, l: int): State
    requires LockRange(s, l) && Scan(s, s.locks[l].owner) < NUM_MAX_TASK
  {
    var j := Scan(s, s.locks[l].owner);
    SetProc(s, j, s.pcb[j].(owned := Drop(s.pcb[j].owned, l)))
  }

  /** Releasing a mutex, from the outside. */
  ghost predicate Released(s: State, t: State, l: int)
    requires LockRange(s, l) && Scan(s, s.locks[l].owner) < NUM_MAX_TASK
  {
    var a := Disown(s, l);
    Drained(a, t.(locks := s.locks), LockQ(l)) && t.locks == s.locks[l := Lock(false, -1)]
  }

  lemma ReleaseEffect(s: State, l: int)
    requires Struct(s) && LockRange(s, l) && Scan(s, s.locks[l].owner) < NUM_MAX_TASK
    ensures Released(s, ReleaseLock(s, l), l)
  {
    var a := Disown(s, l);
    SameLinksStruct(s, a);
    UnblockAllEffect(a, LockQ(l));
    assert UnblockAll(a, LockQ(l)).(locks := s.locks) == UnblockAll(a, LockQ(l));
  }

  /** Reasons to wait do not depend on who owns what. */
  lemma SameReasons(s: State, t: State, d: Slot)
    requires Reasons(s, d) && t.queue == s.queue
    requires |t.locks| == |s.locks| && |t.conds| == |s.conds| && |t.sems| == |s.sems| && |t.barriers| == |s.barriers|
    requires forall i: Slot :: t.pcb[i] == s.pcb[i].(owned := t.pcb[i].owned)
    ensures Reasons(t, d)
  {
    forall q
      ensures WaitersOk(t, d, q)
    {
      assert WaitersOk(s, d, q);
      forall i | i in Items(t, q)
        ensures WaiterOk(t, d, q, i)
      {
        assert WaiterOk(s, d, q, i);
      }
    }
    forall i: Slot
      ensures FreeOk(t, i)
    {
      assert FreeOk(s, i);
    }
  }

  lemma ReleasedReasons(s: State, t: State, d: Slot, l: int)
    requires LockRange(s, l) && Scan(s, s.locks[l].owner) < NUM_MAX_TASK && Released(s, t, l)
    requires Struct(s) && OthersPlaced(s) && Reasons(s, d)
    ensures Reasons(t, d)
  {
    var a := Disown(s, l);
    SameLinksStruct(s, a);
    SameReasons(s, a, d);
    DrainedWakes(a, t.(locks := s.locks), LockQ(l));
    WakesReasons(a, t.(locks := s.locks), d, LockQ(l));
    SameReasons(t.(locks := s.locks), t, d);
  }

  /** The locks' side of a release: slot h loses mutex l and nothing else changes hands. */
  ghost predicate LetsGo(s: State, t: State, l: int, h: Slot) {
    && LockRange(s, l) && s.locks[l].locked && Scan(s, s.locks[l].owner) == h
    && t.locks == s.locks[l := Lock(false, -1)]
    && t.nextPid == s.nextPid
    && (forall i: Slot :: t.pcb[i].pid == s.pcb[i].pid && (Alive(t, i) <==> Alive(s, i)))
    && (forall i: Slot | i != h :: t.pcb[i].owned == s.pcb[i].owned)
    && t.pcb[h].owned == Drop(s.pcb[h].owned, l)
    && (forall m | LockRange(s, m) && m != l :: Items(t, LockQ(m)) == Items(s, LockQ(m)))
    && Items(t, LockQ(l)) == []
  }

  lemma LetsGoOwner(s: State, t: State, d: Slot, l: int, h: Slot, i: Slot)
    requires LetsGo(s, t, l, h) && OwnerOk(s, d, i) && PidsOk(s)
    ensures OwnerOk(t, d, i)
  {
    DropOwns(s.pcb[h].owned, l);
    forall m | Owns(t, i, m)
      ensures LockRange(t, m) && 2 <= i && (Alive(t, i) || i == d) && t.locks[m].owner == t.pcb[i].pid
        && 2 <= t.pcb[i].pid
    {
      assert Owns(s, i, m);
      assert m == l ==> i == h;
    }
  }

  lemma LetsGoLock(s: State, t: State, d: Slot, l: int, h: Slot, m: int)
    requires LetsGo(s, t, l, h) && LockRange(s, m) && LockOk(s, m)
    ensures LockOk(t, m)
  {
    DropOwns(s.pcb[h].owned, l);
    ScanFrame(s, t, s.locks[m].owner);
  }

  /** The same release, said of the state before it directly. */
  ghost predicate FreesLock(s: State, t: State, l: int, h: Slot) {
    && LockRange(s, l)
    && t == s.(pcb := t.pcb, queue := t.queue, locks := s.locks[l := Lock(false, -1)])
    && Items(t, LockQ(l)) == []
    && Items(t, ReadyQ(1)) == Items(s, ReadyQ(1)) + Items(s, LockQ(l))
    && (forall q | q != LockQ(l) && q != ReadyQ(1) :: Items(t, q) == Items(s, q))
    && (forall i: Slot | i != h :: t.pcb[i] == if i in Items(s, LockQ(l)) then Woken(s.pcb[i]) else s.pcb[i])
    && (h !in Items(s, LockQ(l)) ==> t.pcb[h] == s.pcb[h].(owned := Drop(s.pcb[h].owned, l)))
    && t.pcb[h].pid == s.pcb[h].pid && t.pcb[h].owned == Drop(s.pcb[h].owned, l)
    && (t.pcb[h].status != s.pcb[h].status ==> h in Items(s, LockQ(l)) && t.pcb[h].status == Ready)
  }

  lemma ReleasedFrees(s: State, t: State, l: int)
    requires LockRange(s, l) && Scan(s, s.locks[l].owner) < NUM_MAX_TASK && Released(s, t, l)
    ensures FreesLock(s, t, l, Scan(s, s.locks[l].owner))
  {
    var a, b := Disown(s, l), t.(locks := s.locks);
    assert forall q :: Items(b, q) == Items(t, q) && Items(a, q) == Items(s, q);
  }

  lemma FreesLetsGo(s: State, t: State, l: int, h: Slot)
    requires Mid(s) && FreesLock(s, t, l, h) && s.locks[l].locked && Scan(s, s.locks[l].owner) == h
    ensures LetsGo(s, t, l, h)
  {
    forall i: Slot
      ensures t.pcb[i].pid == s.pcb[i].pid && (Alive(t, i) <==> Alive(s, i))
    {
      if i in Items(s, LockQ(l)) {
        WaitersAreBlocked(s, LockQ(l), i);
      }
    }
  }

  lemma LetsGoLocks(s: State, t: State, d: Slot, l: int, h: Slot)
    requires LetsGo(s, t, l, h) && PidsOk(s) && LocksOk(s, d)
    ensures PidsOk(t) && LocksOk(t, d)
  {
    assert Alive(t, 1);
    forall i: Slot
      ensures OwnerOk(t, d, i)
    {
      assert OwnerOk(s, d, i);
      LetsGoOwner(s, t, d, l, h, i);
    }
    forall m | LockRange(t, m)
      ensures LockOk(t, m)
    {
      assert LockOk(s, m);
      LetsGoLock(s, t, d, l, h, m);
    }
  }

  lemma ReleasedLocks(s: State, t: State, d: Slot, l: int)
    requires LockRange(s, l) && s.locks[l].locked && Scan(s, s.locks[l].owner) < NUM_MAX_TASK && Released(s, t, l)
    requires Mid(s) && PidsOk(s) && LocksOk(s, d)
    ensures PidsOk(t) && LocksOk(t, d)
  {
    var h := Scan(s, s.locks[l].owner);
    ReleasedFrees(s, t, l);
    FreesLetsGo(s, t, l, h);
    LetsGoLocks(s, t, d, l, h);
  }

  lemma TakeOwner(s: State, l: int, i: Slot)
    requires LockRange(s, l) && s.locks[l].owner == -1 && 0 <= s.pcb[s.current].pid
    requires 2 <= s.current && Alive(s, s.current) && FreeEntry(s.pcb[s.current].owned) < MAX_MUTEX_OWN
    requires OwnerOk(s, 0, i) && PidsOk(s)
    ensures OwnerOk(Take(s, l), 0, i)
  {
    var t := Take(s, l);
    assert !Owns(s, i, l);
    forall m | Owns(t, i, m)
      ensures LockRange(t, m) && 2 <= i && Alive(t, i) && t.locks[m].owner == t.pcb[i].pid && 2 <= t.pcb[i].pid
    {
      if i != s.current || m != l {
        assert Owns(s, i, m);
      }
    }
  }

  lemma TakeLock(s: State, l: int, m: int)
    requires PidsOk(s) && LockRange(s, l) && LockRange(s, m) && LockOk(s, m) && !s.locks[l].locked
    requires 2 <= s.current && Alive(s, s.current) && FreeEntry(s.pcb[s.current].owned) < MAX_MUTEX_OWN
    ensures LockOk(Take(s, l), m)
  {
    var t := Take(s, l);
    var c := s.current;
    if m == l {
      assert Scan(t, t.pcb[c].pid) == c;
      assert t.pcb[c].owned[FreeEntry(s.pcb[c].owned)] == Some(l);
    } else if s.locks[m].locked {
      var h := Scan(s, s.locks[m].owner);
      ScanFrame(s, t, s.locks[m].owner);
      var j :| 0 <= j < MAX_MUTEX_OWN && s.pcb[h].owned[j] == Some(m);
      assert t.pcb[h].owned[j] == Some(m);
    }
  }

  lemma TakeLocks(s: State, l: int)
    requires PidsOk(s) && LocksOk(s, 0) && LockRange(s, l) && !s.locks[l].locked
    requires 2 <= s.current && Alive(s, s.current) && FreeEntry(s.pcb[s.current].owned) < MAX_MUTEX_OWN
    ensures PidsOk(Take(s, l)) && LocksOk(Take(s, l), 0)
  {
    var t := Take(s, l);
    assert LockOk(s, l);
    forall i: Slot
      ensures OwnerOk(t, 0, i)
    {
      assert OwnerOk(s, 0, i);
      TakeOwner(s, l, i);
    }
    forall m | LockRange(t, m)
      ensures LockOk(t, m)
    {
      assert LockOk(s, m);
      TakeLock(s, l, m);
    }
  }
}
