/** Initializing a mutex, condition, semaphore or barrier, at any time: when the kernel stays in order. */
module Initialization {
  import opened KernelModel
  import opened Placement
  import opened KernelSteps
  import opened KernelInvariant
  import opened LifeInv

  /** The mutex is free, and its queue empty whoever was in it. */
  function NewLock(s: State, l: int): State
    requires LockRange(s, l)
  {
    SetItems(s, LockQ(l), []).(locks := s.locks[l := Lock(false, -1)])
  }

  function NewCond(s: State, c: int): State
    requires 0 <= c < |s.conds|
  {
    SetItems(s, CondQ(c), []).(conds := s.conds[c := 0])
  }

  /** A negative initial value is refused. */
  function NewSem(s: State, x: int, val: int): State
    requires 0 <= x < |s.sems|
  {
    if val < 0 then s else SetItems(s, SemQ(x), []).(sems := s.sems[x := val])
  }

  function NewBarrier(s: State, b: int, goal: int): State
    requires 0 <= b < |s.barriers|
  {
    SetItems(s, BarQ(b), []).(barriers := s.barriers[b := Barrier(goal, 0)])
  }

  /** Nothing but counters, and the queues hold what they held. */
  ghost predicate SameButCounters(s: State, t: State) {
    && t == s.(queue := t.queue, conds := t.conds, sems := t.sems, barriers := t.barriers)
    && |t.conds| == |s.conds| && |t.sems| == |s.sems| && |t.barriers| == |s.barriers|
    && forall q :: Items(t, q) == Items(s, q)
  }

  lemma SameLocks(s: State, t: State, d: Slot)
    requires SameButCounters(s, t) && LocksOk(s, d) && PidsOk(s)
    ensures LocksOk(t, d) && PidsOk(t)
  {
    forall i: Slot
      ensures OwnerOk(t, d, i)
    {
      assert OwnerOk(s, d, i);
      assert forall l :: Owns(t, i, l) ==> Owns(s, i, l);
    }
    forall l | LockRange(t, l)
      ensures LockOk(t, l)
    {
      assert LockOk(s, l);
      ScanFrame(s, t, s.locks[l].owner);
    }
  }

  lemma SameWaiters(s: State, t: State, d: Slot, q: QueueId)
    requires SameButCounters(s, t) && WaitersOk(s, d, q)
    ensures WaitersOk(t, d, q)
  {
    forall i | i in Items(t, q)
      ensures WaiterOk(t, d, q, i)
    {
      assert i in Items(s, q);
      assert WaiterOk(s, d, q, i);
    }
  }

  lemma SameReasons(s: State, t: State, d: Slot)
    requires SameButCounters(s, t) && Reasons(s, d)
    ensures Reasons(t, d)
  {
    forall q
      ensures WaitersOk(t, d, q)
    {
      SameWaiters(s, t, d, q);
    }
    forall i: Slot
      ensures FreeOk(t, i)
    {
      assert FreeOk(s, i);
    }
  }

  lemma SameButCountersInv(s: State, t: State)
    requires Inv(s) && SameButCounters(s, t) && Counts(t)
    ensures Inv(t)
  {
    SameItemsStruct(s, t);
    SameLocks(s, t, 0);
    SameReasons(s, t, 0);
    hide Struct, Counts, PidsOk, LocksOk, Reasons;
  }

  /** Somebody is linked into a queue that does not hold him any more. */
  lemma Dangling(s: State, t: State, q: QueueId)
    requires Struct(s) && Items(s, q) != [] && Items(t, q) == [] && t.pcb == s.pcb
    ensures !Struct(t)
  {
    var i := Items(s, q)[0];
    assert QueueOk(s, q) && i in Items(s, q);
    assert !Linked(t, i);
  }

  lemma SameCounts(s: State, t: State)
    requires Counts(s) && t.conds == s.conds && t.sems == s.sems && t.barriers == s.barriers
    requires forall q :: Items(t, q) == Items(s, q)
    ensures Counts(t)
  {
    forall q
      ensures CountOk(t, q)
    {
      assert CountOk(s, q);
    }
  }

  /** The holder goes on listing a mutex that has no owner. */
  lemma HeldLockLost(s: State, l: int)
    requires Inv(s) && LockRange(s, l) && s.locks[l].locked
    ensures !Inv(NewLock(s, l))
    ensures var t, h := NewLock(s, l), Scan(s, s.locks[l].owner);
      h < NUM_MAX_TASK && Owns(t, h, l) && !t.locks[l].locked
  {
    var t := NewLock(s, l);
    assert LockOk(s, l);
    var h: Slot := Scan(s, s.locks[l].owner);
    assert Owns(t, h, l);
    assert !OwnerOk(t, 0, h);
  }

  /** Initializing a mutex is harmless exactly if nobody holds it. If it is held, the kernel is out of order whether or
      not somebody waits for it. */
  lemma NewLockIsSafeIfFree(s: State, l: int)
    requires Inv(s) && LockRange(s, l)
    ensures Inv(NewLock(s, l)) <==> !s.locks[l].locked
  {
    var t := NewLock(s, l);
    assert LockOk(s, l);
    if s.locks[l].locked {
      HeldLockLost(s, l);
    } else {
      assert forall q :: Items(t, q) == Items(s, q);
      assert t.locks == s.locks;
      SameCounts(s, t);
      SameButCountersInv(s, t);
    }
  }

  lemma NewCounts(s: State, t: State, id: QueueId)
    requires Counts(s) && CountOk(t, id) && forall q :: Items(t, q) == Items(s, q)
    requires forall q | q != id :: CountOk(s, q) ==> CountOk(t, q)
    ensures Counts(t)
  {
  }

  lemma NewCondIsSafeIfEmpty(s: State, c: int)
    requires Inv(s) && 0 <= c < |s.conds|
    ensures Inv(NewCond(s, c)) <==> Items(s, CondQ(c)) == []
  {
    var t := NewCond(s, c);
    if Items(s, CondQ(c)) == [] {
      assert forall q :: Items(t, q) == Items(s, q);
      NewCounts(s, t, CondQ(c));
      SameButCountersInv(s, t);
    } else {
      Dangling(s, t, CondQ(c));
    }
  }

  lemma NewSemIsSafeIfEmpty(s: State, x: int, val: int)
    requires Inv(s) && 0 <= x < |s.sems|
    ensures Inv(NewSem(s, x, val)) <==> val < 0 || Items(s, SemQ(x)) == []
  {
    var t := NewSem(s, x, val);
    if val < 0 {
    } else if Items(s, SemQ(x)) == [] {
      assert forall q :: Items(t, q) == Items(s, q);
      NewCounts(s, t, SemQ(x));
      SameButCountersInv(s, t);
    } else {
      Dangling(s, t, SemQ(x));
    }
  }

  lemma NewBarrierIsSafeIfEmpty(s: State, b: int, goal: int)
    requires Inv(s) && 0 <= b < |s.barriers|
    ensures Inv(NewBarrier(s, b, goal)) <==> Items(s, BarQ(b)) == []
  {
    var t := NewBarrier(s, b, goal);
    if Items(s, BarQ(b)) == [] {
      assert forall q :: Items(t, q) == Items(s, q);
      NewCounts(s, t, BarQ(b));
      SameButCountersInv(s, t);
    } else {
      Dangling(s, t, BarQ(b));
    }
  }

  /** What a held mutex that is initialized leads to: the next to acquire it gets it, and two processes hold it. */
  lemma TwoHolders(s: State, l: int)
    requires Inv(s) && LockRange(s, l) && s.locks[l].locked && Scan(s, s.locks[l].owner) != s.current
    requires FreeEntry(s.pcb[s.current].owned) < MAX_MUTEX_OWN
    ensures var t, h := NewLock(s, l), Scan(s, s.locks[l].owner);
      && Callable(t, Acquire(l)) && h < NUM_MAX_TASK
      && Owns(Before(t, Acquire(l)), h, l) && Owns(Before(t, Acquire(l)), s.current, l)
  {
    HeldLockLost(s, l);
    var t := NewLock(s, l);
    var j := FreeEntry(s.pcb[s.current].owned);
    assert Take(t, l).pcb[s.current].owned[j] == Some(l);
  }
}
