/** Taking and releasing mutexes, condition waits and spawning keep the invariant. */
module LifeInv {
  import opened KernelModel
  import opened Placement
  import opened KernelSteps
  import opened KernelInvariant
  import opened Preserve
  import opened StepInv

  /** The invariant inside a step, slot d being a process that is just dying (0 if none is). */
  ghost predicate Inside(s: State, d: Slot) {
    Mid(s) && Sync(s, d) && ShellReady(s)
  }

  // ---------- mutexes and conditions ----------

  lemma ReleasedMid(s: State, t: State, l: int)
    requires Mid(s) && ShellReady(s) && s.current !in Items(s, LockQ(l))
    requires LockRange(s, l) && Scan(s, s.locks[l].owner) < NUM_MAX_TASK && Released(s, t, l)
    ensures Mid(t) && ShellReady(t) && t.current == s.current
    ensures t.pcb[t.current].status == s.pcb[t.current].status
  {
    var a := Disown(s, l);
    var b := t.(locks := s.locks);
    SameLinksStruct(s, a);
    DrainPlaces(a, b, LockQ(l));
    SameLinksStruct(b, t);
  }

  lemma ReleasedCounts(s: State, t: State, l: int)
    requires Counts(s)
    requires LockRange(s, l) && Scan(s, s.locks[l].owner) < NUM_MAX_TASK && Released(s, t, l)
    ensures Counts(t)
  {
    var a := Disown(s, l);
    var b := t.(locks := s.locks);
    forall q
      ensures CountOk(t, q)
    {
      assert CountOk(s, q);
      if q != LockQ(l) {
        assert CountOk(a, q);
        DrainCount(a, b, LockQ(l), q);
      }
      assert Items(t, q) == Items(b, q);
    }
  }

  lemma ReleaseInside(s: State, d: Slot, l: int)
    requires Inside(s, d) && LockRange(s, l) && s.locks[l].locked && s.current !in Items(s, LockQ(l))
    ensures Inside(ReleaseLock(s, l), d)
    ensures Released(s, ReleaseLock(s, l), l)
  {
    var t := ReleaseLock(s, l);
    assert LockOk(s, l);
    ReleaseEffect(s, l);
    ReleasedMid(s, t, l);
    ReleasedReasons(s, t, d, l);
    ReleasedLocks(s, t, d, l);
    ReleasedCounts(s, t, l);
  }

  lemma ReleaseInv(s: State, l: int)
    requires Inv(s) && Enabled(s, Release(l))
    ensures Inv(ReleaseLock(s, l))
  {
    RunningIsNowhere(s, LockQ(l));
    ReleaseInside(s, 0, l);
    ReleasedMid(s, ReleaseLock(s, l), l);
  }

  lemma TakeReasons(s: State, l: int)
    requires Settled(s) && Reasons(s, 0)
    requires LockRange(s, l) && FreeEntry(s.pcb[s.current].owned) < MAX_MUTEX_OWN
    ensures Reasons(Take(s, l), 0)
  {
    var t := Take(s, l);
    forall q
      ensures WaitersOk(t, 0, q)
    {
      assert WaitersOk(s, 0, q);
      RunningIsNowhere(s, q);
      forall i | i in Items(t, q)
        ensures WaiterOk(t, 0, q, i)
      {
        assert WaiterOk(s, 0, q, i);
      }
    }
    forall i: Slot
      ensures FreeOk(t, i)
    {
      assert FreeOk(s, i);
    }
  }

  lemma TakeInv(s: State, l: int)
    requires Inv(s) && Enabled(s, Acquire(l)) && !s.locks[l].locked
    ensures Inv(Take(s, l))
  {
    var t := Take(s, l);
    SameLinksStruct(s, t);
    TakeLocks(s, l);
    TakeReasons(s, l);
    forall q
      ensures CountOk(t, q)
    {
      assert CountOk(s, q);
    }
  }

  /** The caller is queued on the condition before the mutex is freed. */
  function QueuedOnCond(s: State, l: int, c: int): State
    requires 0 <= c < |s.conds|
  {
    var t := Block(s.(conds := s.conds[c := s.conds[c] + 1]), CondQ(c));
    SetProc(t, t.current, t.pcb[t.current].(cont := Acquiring(l)))
  }

  lemma QueuedCounts(s: State, l: int, c: int)
    requires Counts(s) && 0 <= c < |s.conds|
    ensures Counts(QueuedOnCond(s, l, c))
  {
    forall q
      ensures CountOk(QueuedOnCond(s, l, c), q)
    {
      assert CountOk(s, q) && CountOk(s, CondQ(c));
    }
  }

  lemma QueuedParks(s: State, l: int, c: int)
    requires Inv(s) && Enabled(s, CondWait(l, c))
    ensures var t := QueuedOnCond(s, l, c); Parks(s, t, CondQ(c)) && WaiterOk(t, 0, CondQ(c), s.current)
  {
    assert FreeOk(s, s.current);
  }

  lemma QueuedInside(s: State, l: int, c: int)
    requires Inv(s) && Enabled(s, CondWait(l, c))
    ensures Inside(QueuedOnCond(s, l, c), 0)
  {
    QueuedParks(s, l, c);
    QueuedCounts(s, l, c);
    assert s.current != 1;
    var t := QueuedOnCond(s, l, c);
    hide QueuedOnCond, Enabled, Counts, Parks, PidsOk, LocksOk, Reasons, Settled, Struct, OthersPlaced, WaiterOk;
    ParksMid(s, t, CondQ(c));
    ParksSync(s, t, CondQ(c));
  }

  lemma CondWaitInv(s: State, l: int, c: int)
    requires Inv(s) && Enabled(s, CondWait(l, c))
    ensures Inside(AwaitCond(s, l, c), 0)
  {
    var t := QueuedOnCond(s, l, c);
    QueuedInside(s, l, c);
    assert s.current !in Items(t, LockQ(l)) by {
      RunningIsNowhere(s, LockQ(l));
    }
    ReleaseInside(t, 0, l);
  }

  // ---------- spawn ----------

  lemma SameItemsStruct(s: State, t: State)
    requires Struct(s) && (forall q :: Items(t, q) == Items(s, q)) && forall i: Slot :: t.pcb[i].on == s.pcb[i].on
    ensures Struct(t)
  {
    forall q
      ensures QueueOk(t, q)
    {
      assert QueueOk(s, q);
    }
    forall j: Slot
      ensures Linked(t, j)
    {
      assert Linked(s, j);
    }
  }

  lemma EmptyOrMember(items: seq<Slot>)
    ensures items == [] || exists i :: i in items
  {
    if items != [] {
      assert items[0] in items;
    }
  }

  lemma NobodyWaitsForTheDead(s: State, i: Slot)
    requires Inv(s) && !Alive(s, i)
    ensures Items(s, WaitQ(i)) == [] && s.pcb[i].on == None && i != s.current
  {
    assert WaitersOk(s, 0, WaitQ(i));
    assert forall j | j in Items(s, WaitQ(i)) :: WaiterOk(s, 0, WaitQ(i), j);
    EmptyOrMember(Items(s, WaitQ(i)));
  }

  lemma SpawnMid(s: State)
    requires Inv(s) && FreeSlot(s) < NUM_MAX_TASK
    ensures Mid(Before(s, Spawn)) && ShellReady(Before(s, Spawn))
  {
    var i := FreeSlot(s);
    NobodyWaitsForTheDead(s, i);
    var t := SetItems(SetProc(s, i, NewProc(s.nextPid).(alarm := s.pcb[i].alarm)), WaitQ(i), []);
    SameItemsStruct(s, t);
    PushStruct(t, ReadyQ(1), i);
    SameLinksStruct(Push(t, ReadyQ(1), i), Before(s, Spawn));
  }

  lemma SpawnPids(s: State)
    requires Inv(s) && FreeSlot(s) < NUM_MAX_TASK
    ensures PidsOk(Before(s, Spawn))
  {
  }

  lemma SpawnOwner(s: State, j: Slot)
    requires Inv(s) && FreeSlot(s) < NUM_MAX_TASK
    ensures OwnerOk(Before(s, Spawn), 0, j)
  {
    var t := Before(s, Spawn);
    assert OwnerOk(s, 0, j);
    assert forall l :: Owns(t, j, l) ==> j != FreeSlot(s) && Owns(s, j, l);
  }

  lemma SpawnLock(s: State, t: State, i: Slot, l: int)
    requires PidsOk(s) && (forall j: Slot :: OwnerOk(s, 0, j)) && !Alive(s, i)
    requires LockRange(s, l) && LockOk(s, l) && t.locks == s.locks && Items(t, LockQ(l)) == Items(s, LockQ(l))
    requires t.pcb[i].pid == s.nextPid
    requires forall j: Slot | j != i :: t.pcb[j].pid == s.pcb[j].pid && t.pcb[j].owned == s.pcb[j].owned
    ensures LockOk(t, l)
  {
    if s.locks[l].locked {
      var h := Scan(s, s.locks[l].owner);
      assert OwnerOk(s, 0, h) && Owns(s, h, l);
      assert h != i && s.pcb[h].pid < s.nextPid;
      assert Scan(t, s.locks[l].owner) == h;
    }
  }

  lemma SpawnLocks(s: State)
    requires Inv(s) && FreeSlot(s) < NUM_MAX_TASK
    ensures PidsOk(Before(s, Spawn)) && LocksOk(Before(s, Spawn), 0)
  {
    var i := FreeSlot(s);
    var t := Before(s, Spawn);
    SpawnPids(s);
    forall l | LockRange(t, l)
      ensures LockOk(t, l)
    {
      assert LockOk(s, l);
      SpawnLock(s, t, i, l);
    }
    hide Inv, Before, PidsOk, OwnerOk, LockOk;
    forall j: Slot
      ensures OwnerOk(t, 0, j)
    {
      SpawnOwner(s, j);
    }
  }

  lemma SpawnWaiters(s: State, q: QueueId)
    requires FreeSlot(s) < NUM_MAX_TASK && WaitersOk(s, 0, q) && QueueOk(s, q) && Items(s, WaitQ(FreeSlot(s))) == []
    requires forall j: Slot | !Alive(s, j) :: s.pcb[j].on == None
    ensures WaitersOk(Before(s, Spawn), 0, q)
  {
    var t := Before(s, Spawn);
    forall j | j in Items(t, q)
      ensures WaiterOk(t, 0, q, j)
    {
      if !q.ReadyQ? {
        assert WaiterOk(s, 0, q, j);
      }
    }
  }

  lemma SpawnReasons(s: State)
    requires Inv(s) && FreeSlot(s) < NUM_MAX_TASK
    ensures Reasons(Before(s, Spawn), 0) && Counts(Before(s, Spawn))
  {
    var t := Before(s, Spawn);
    NobodyWaitsForTheDead(s, FreeSlot(s));
    forall q
      ensures WaitersOk(t, 0, q)
    {
      assert WaitersOk(s, 0, q) && QueueOk(s, q);
      SpawnWaiters(s, q);
    }
    forall j: Slot
      ensures FreeOk(t, j)
    {
      assert FreeOk(s, j);
    }
    forall q
      ensures CountOk(t, q)
    {
      assert CountOk(s, q);
    }
  }

  lemma SpawnInv(s: State)
    requires Inv(s) && FreeSlot(s) < NUM_MAX_TASK
    ensures Inside(Before(s, Spawn), 0)
  {
    SpawnMid(s);
    SpawnLocks(s);
    SpawnReasons(s);
  }
}
