/** Kill and exit: what a dying process leaves behind. */
module Death {
  import opened KernelModel
  import opened Placement
  import opened KernelSteps
  import opened KernelInvariant
  import opened Preserve
  import opened StepInv
  import opened LifeInv

  // ---------- leaving the queue ----------

  /** A process may be killed unless it is blocked on a semaphore, a condition or a barrier. */
  predicate Killable(s: State, i: Slot) {
    s.pcb[i].status == Blocked ==> s.pcb[i].lockWaiting.Some? || s.pcb[i].waitingPid != -1
  }

  /** The queue a process is looked for in when it is killed. */
  function QueueByStatus(s: State, i: Slot): Option<QueueId> {
    var p := s.pcb[i];
    match p.status
    case Ready => Some(ReadyQ(p.priority))
    case Blocked => if p.lockWaiting.Some? then Some(LockQ(p.lockWaiting.value)) else Some(WaitQ(Scan(s, p.waitingPid)))
    case Sleeping => Some(SleepQ)
    case _ => None
  }

  /** A search by id in a queue finds the process and nobody else. */
  lemma OnlyOneWithPid(s: State, i: Slot, id: QueueId)
    requires Inv(s) && 2 <= i && s.pcb[i].on == Some(id)
    ensures i in Items(s, id) && forall j | j in Items(s, id) && s.pcb[j].pid == s.pcb[i].pid :: j == i
  {
    assert Linked(s, i) && QueueOk(s, id);
  }

  /** The status and the reasons recorded in the PCB name the queue the process really is in. */
  lemma UnqueueFindsIt(s: State, i: Slot)
    requires Inv(s) && 2 <= i && Killable(s, i)
    ensures Unqueue(s, i) == if s.pcb[i].on == None then s else Remove(s, s.pcb[i].on.value, i)
    ensures s.pcb[i].on.Some? ==> var q := s.pcb[i].on.value; q.ReadyQ? || q.SleepQ? || q.WaitQ? || q.LockQ?
    ensures s.pcb[i].on == QueueByStatus(s, i)
  {
    assert Linked(s, i);
    if s.pcb[i].status == Blocked {
      var q := s.pcb[i].on.value;
      assert WaitersOk(s, 0, q);
      assert WaiterOk(s, 0, q, i);
      if q.WaitQ? {
        assert Scan(s, s.pcb[i].waitingPid) == q.slot;
      }
    }
  }

  /** The process is dead and in no queue; the queues keep everybody else in order. */
  ghost predicate Gone(s: State, t: State, i: Slot) {
    && Struct(t)
    && t == s.(pcb := s.pcb[i := s.pcb[i].(status := NotExist, on := None)], queue := t.queue)
    && forall q :: Items(t, q) == Del(Items(s, q), i)
  }

  lemma {:induction false} DelAbsent(items: seq<Slot>, i: Slot)
    requires i !in items
    ensures Del(items, i) == items
  {
    if items == [] {
    } else {
      DelAbsent(items[1..], i);
    }
  }

  lemma BuryEffect(s: State, i: Slot)
    requires Inv(s) && 2 <= i && Killable(s, i)
    ensures Gone(s, Bury(Unqueue(s, i), i), i)
  {
    UnqueueFindsIt(s, i);
    var u := Unqueue(s, i);
    var t := Bury(u, i);
    if s.pcb[i].on.Some? {
      RemoveStruct(s, s.pcb[i].on.value, i);
    }
    SameLinksStruct(u, t);
    forall q
      ensures Items(t, q) == Del(Items(s, q), i)
    {
      assert QueueOk(s, q);
      if s.pcb[i].on != Some(q) {
        DelAbsent(Items(s, q), i);
      }
    }
  }

  // ---------- those who wait for it ----------

  lemma {:induction false} ClearEffect(s: State, items: seq<Slot>)
    ensures
      var t := ClearWaiting(s, items);
      && t == s.(pcb := t.pcb)
      && forall j: Slot :: t.pcb[j] == if j in items then s.pcb[j].(waitingPid := -1) else s.pcb[j]
    decreases |items|
  {
    if items == [] {
    } else {
      ClearEffect(SetProc(s, items[0], s.pcb[items[0]].(waitingPid := -1)), items[1..]);
      assert items == [items[0]] + items[1..];
    }
  }

  /** From the living kernel to the moment the waiters' reasons are cleared. */
  ghost predicate Buried(s: State, w: State, i: Slot) {
    var waiters := Del(Items(s, WaitQ(i)), i);
    && Struct(w)
    && w == s.(pcb := w.pcb, queue := w.queue)
    && (forall q :: Items(w, q) == Del(Items(s, q), i))
    && w.pcb[i] == s.pcb[i].(status := NotExist, on := None)
    && forall j: Slot | j != i ::
      w.pcb[j] == if j in waiters then s.pcb[j].(waitingPid := -1) else s.pcb[j]
  }

  lemma BuriedEffect(s: State, i: Slot)
    requires Inv(s) && 2 <= i && Killable(s, i)
    ensures var v := Bury(Unqueue(s, i), i); Buried(s, ClearWaiting(v, Items(v, WaitQ(i))), i)
  {
    BuryEffect(s, i);
    var v := Bury(Unqueue(s, i), i);
    ClearEffect(v, Items(v, WaitQ(i)));
    SameLinksStruct(v, ClearWaiting(v, Items(v, WaitQ(i))));
    assert QueueOk(v, WaitQ(i));
  }

  lemma DelMembers(s: State, q: QueueId, i: Slot)
    requires Struct(s)
    ensures forall j: Slot :: j in Del(Items(s, q), i) <==> j in Items(s, q) && j != i
  {
    assert QueueOk(s, q);
    if i in Items(s, q) {
      DelNoDup(Items(s, q), i);
    } else {
      DelAbsent(Items(s, q), i);
    }
  }

  lemma BuriedMid(s: State, w: State, i: Slot)
    requires Inv(s) && 2 <= i && Buried(s, w, i)
    ensures Mid(w) && ShellReady(w) && w.pcb[w.current].on == None
  {
    DelMembers(s, WaitQ(i), i);
    RunningIsNowhere(s, WaitQ(i));
  }

  lemma BuriedReasons(s: State, w: State, i: Slot)
    requires Inv(s) && 2 <= i && Buried(s, w, i)
    ensures Reasons(w, i)
  {
    DelMembers(s, WaitQ(i), i);
    forall q
      ensures WaitersOk(w, i, q)
    {
      DelMembers(s, q, i);
      assert WaitersOk(s, 0, q) && QueueOk(s, q) && QueueOk(s, WaitQ(i));
      forall j | j in Items(w, q)
        ensures WaiterOk(w, i, q, j)
      {
        assert WaiterOk(s, 0, q, j);
      }
    }
    forall j: Slot
      ensures FreeOk(w, j)
    {
      assert FreeOk(s, j) && QueueOk(s, WaitQ(i));
    }
  }

  lemma DeathLocks(s: State, w: State, i: Slot)
    requires PidsOk(s) && LocksOk(s, 0) && 2 <= i
    requires w.locks == s.locks && w.nextPid == s.nextPid
    requires forall j: Slot :: w.pcb[j].pid == s.pcb[j].pid && w.pcb[j].owned == s.pcb[j].owned
    requires forall j: Slot | j != i :: Alive(w, j) <==> Alive(s, j)
    requires !Alive(w, i)
    requires forall l :: Items(s, LockQ(l)) == [] ==> Items(w, LockQ(l)) == []
    ensures PidsOk(w) && LocksOk(w, i)
  {
    assert Alive(w, 1);
    forall j: Slot
      ensures OwnerOk(w, i, j)
    {
      assert OwnerOk(s, 0, j);
      assert forall l :: Owns(w, j, l) ==> Owns(s, j, l);
    }
    forall l | LockRange(w, l)
      ensures LockOk(w, l)
    {
      assert LockOk(s, l);
      ScanFrame(s, w, s.locks[l].owner);
    }
  }

  lemma BuriedLocks(s: State, w: State, i: Slot)
    requires Inv(s) && 2 <= i && Buried(s, w, i)
    ensures PidsOk(w) && LocksOk(w, i)
  {
    DelMembers(s, WaitQ(i), i);
    assert forall l :: Items(s, LockQ(l)) == [] ==> Items(w, LockQ(l)) == [];
    DeathLocks(s, w, i);
  }

  lemma BuriedInside(s: State, w: State, i: Slot)
    requires Inv(s) && 2 <= i && Killable(s, i) && Buried(s, w, i)
    ensures Inside(w, i)
  {
    BuriedMid(s, w, i);
    BuriedReasons(s, w, i);
    BuriedLocks(s, w, i);
    UnqueueFindsIt(s, i);
    forall q
      ensures CountOk(w, q)
    {
      assert CountOk(s, q) && QueueOk(s, q);
      if q.CondQ? || q.SemQ? || q.BarQ? {
        DelAbsent(Items(s, q), i);
      }
    }
  }

  // ---------- its mutexes ----------

  /** A dead process whose waiters are gone; the caller is in no queue. */
  ghost predicate Dying(s: State, i: Slot) {
    Inside(s, i) && 2 <= i && s.pcb[i].status == NotExist && s.pcb[s.current].on == None && Items(s, WaitQ(i)) == []
  }

  lemma WakeWaitersDying(s: State, w: State, i: Slot)
    requires Inv(s) && 2 <= i && Killable(s, i) && Buried(s, w, i)
    ensures Dying(UnblockAll(w, WaitQ(i)), i) && Drained(w, UnblockAll(w, WaitQ(i)), WaitQ(i))
  {
    BuriedInside(s, w, i);
    BuriedMid(s, w, i);
    assert QueueOk(w, WaitQ(i));
    var x := UnblockAll(w, WaitQ(i));
    UnblockAllEffect(w, WaitQ(i));
    DrainInv(w, x, i, WaitQ(i));
    forall q
      ensures CountOk(x, q)
    {
      assert CountOk(w, q);
    }
  }

  lemma DropIsErase(owned: Owned, j: nat)
    requires j < MAX_MUTEX_OWN && owned[j].Some?
    requires forall m, k | 0 <= m < k < MAX_MUTEX_OWN && owned[m] == owned[k] :: owned[m] == None
    ensures Drop(owned, owned[j].value) == owned[j := None]
  {
  }

  lemma FreeOneCurrent(s: State, t: State, i: Slot, l: int)
    requires Dying(s, i) && LockRange(s, l) && Scan(s, s.locks[l].owner) == i && Released(s, t, l)
    ensures t.pcb[t.current].on == None && Items(t, WaitQ(i)) == []
    ensures t.pcb[i] == s.pcb[i].(owned := Drop(s.pcb[i].owned, l))
  {
    var b := t.(locks := s.locks);
    assert QueueOk(s, LockQ(l));
    assert Items(b, WaitQ(i)) == Items(Disown(s, l), WaitQ(i));
  }

  /** One mutex of a dying process is freed. */
  lemma FreeOne(s: State, i: Slot, j: nat)
    requires Dying(s, i) && j < MAX_MUTEX_OWN && s.pcb[i].owned[j].Some?
    ensures
      var l := s.pcb[i].owned[j].value;
      && LockRange(s, l) && Scan(s, s.locks[l].owner) == i
      && Released(s, ReleaseLock(s, l), l)
      && Dying(ReleaseLock(s, l), i)
      && ReleaseLock(s, l).pcb[i] == s.pcb[i].(owned := s.pcb[i].owned[j := None])
  {
    var l := s.pcb[i].owned[j].value;
    var t := ReleaseLock(s, l);
    assert OwnerOk(s, i, i) && Owns(s, i, l);
    assert LockOk(s, l) && QueueOk(s, LockQ(l));
    ReleaseInside(s, i, l);
    FreeOneCurrent(s, t, i, l);
    DropIsErase(s.pcb[i].owned, j);
  }

  lemma {:induction false} ReleaseOwnedDying(s: State, i: Slot, j: nat)
    requires Dying(s, i) && j <= MAX_MUTEX_OWN && forall k | 0 <= k < j :: s.pcb[i].owned[k] == None
    ensures Dying(ReleaseOwned(s, i, j), i)
    ensures ReleaseOwned(s, i, j).pcb[i] == s.pcb[i].(owned := NOTHING_OWNED)
    decreases MAX_MUTEX_OWN - j
  {
    hide Dying, ReleaseLock;
    if j < MAX_MUTEX_OWN {
      if s.pcb[i].owned[j] == None {
        ReleaseOwnedDying(s, i, j + 1);
      } else {
        FreeOne(s, i, j);
        ReleaseOwnedDying(ReleaseLock(s, s.pcb[i].owned[j].value), i, j + 1);
      }
    } else {
      assert s.pcb[i].owned == NOTHING_OWNED;
    }
  }

  /** When nothing is left of the process, the ordinary invariant holds again. */
  lemma DeadInside(s: State, i: Slot)
    requires Dying(s, i) && s.pcb[i].owned == NOTHING_OWNED
    ensures Inside(s, 0)
  {
    forall j: Slot
      ensures OwnerOk(s, 0, j)
    {
      assert OwnerOk(s, i, j);
    }
    forall q
      ensures WaitersOk(s, 0, q)
    {
      assert WaitersOk(s, i, q);
      forall j | j in Items(s, q)
        ensures WaiterOk(s, 0, q, j)
      {
        assert WaiterOk(s, i, q, j);
      }
    }
  }

  lemma DieInside(s: State, i: Slot)
    requires Inv(s) && 2 <= i && Killable(s, i)
    ensures Inside(Die(Unqueue(s, i), i), 0)
  {
    var v := Bury(Unqueue(s, i), i);
    var w := ClearWaiting(v, Items(v, WaitQ(i)));
    BuriedEffect(s, i);
    WakeWaitersDying(s, w, i);
    ReleaseOwnedDying(UnblockAll(w, WaitQ(i)), i, 0);
    DeadInside(Die(Unqueue(s, i), i), i);
  }

  lemma KillInside(s: State, pid: int)
    requires Inv(s) && Enabled(s, Kill(pid))
    ensures Inside(Before(s, Kill(pid)), 0)
  {
    DieInside(s, Scan(s, pid));
  }

  lemma ExitInside(s: State)
    requires Inv(s) && Enabled(s, Exit)
    ensures Inside(Before(s, Exit), 0)
  {
    DieInside(s, s.current);
  }
}
