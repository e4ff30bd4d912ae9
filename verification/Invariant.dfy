/** The invariant of the whole kernel: besides every PCB being in its place, process ids are unique, a locked mutex
    belongs to exactly one living process, nobody waits without a reason, and every counter agrees with its queue. */
module KernelInvariant {
  import opened KernelModel
  import opened Placement
  import opened KernelSteps

  predicate Alive(s: State, i: Slot) {
    s.pcb[i].status != NotExist
  }

  /** Ids are handed out once. A slot nobody has used yet has id 0; a dead process keeps its id until its slot is
      used again. */
  ghost predicate PidsOk(s: State) {
    && 2 <= s.nextPid
    && s.pcb[1].pid == 1 && Alive(s, 1)
    && (forall i: Slot | 2 <= i :: 0 <= s.pcb[i].pid < s.nextPid && s.pcb[i].pid != 1)
    && (forall i: Slot | 2 <= i && Alive(s, i) :: 2 <= s.pcb[i].pid)
    && (forall i: Slot, j: Slot | 2 <= i < j && s.pcb[i].pid == s.pcb[j].pid :: s.pcb[i].pid == 0)
  }

  predicate Owns(s: State, i: Slot, l: int) {
    Some(l) in s.pcb[i].owned
  }

  /** What a process lists as its own, it owns; it lists it once. Slot d is a process that is just dying, 0 if none
      is. */
  ghost predicate OwnerOk(s: State, d: Slot, i: Slot) {
    && (forall l | Owns(s, i, l) ::
         LockRange(s, l) && 2 <= i && (Alive(s, i) || i == d) && s.locks[l].owner == s.pcb[i].pid && 2 <= s.pcb[i].pid)
    && (forall j, k | 0 <= j < k < MAX_MUTEX_OWN && s.pcb[i].owned[j] == s.pcb[i].owned[k] :: s.pcb[i].owned[j] == None)
  }

  /** A mutex is locked exactly if it has an owner, the owner is found in the table and lists the mutex; nobody waits
      for a free mutex. */
  predicate LockOk(s: State, l: int)
    requires LockRange(s, l)
  {
    && (s.locks[l].locked <==> s.locks[l].owner != -1)
    && (s.locks[l].locked ==> Scan(s, s.locks[l].owner) < NUM_MAX_TASK && Owns(s, Scan(s, s.locks[l].owner), l))
    && (!s.locks[l].locked ==> Items(s, LockQ(l)) == [])
  }

  /** Why a process may be in a wait queue. */
  predicate WaiterOk(s: State, d: Slot, id: QueueId, i: Slot) {
    var p := s.pcb[i];
    match id
    case LockQ(l) => LockRange(s, l) && p.lockWaiting == Some(l) && p.cont == Acquiring(l) && p.waitingPid == -1
    case WaitQ(t) =>
      && 2 <= t < NUM_MAX_TASK && p.lockWaiting == None && p.cont == User
      && if t == d then p.waitingPid == -1 else Alive(s, t) && p.waitingPid == s.pcb[t].pid
    case CondQ(c) => 0 <= c < |s.conds| && p.lockWaiting == None && p.waitingPid == -1 && p.cont.Acquiring?
    case SemQ(x) => 0 <= x < |s.sems| && p.lockWaiting == None && p.waitingPid == -1 && p.cont == User
    case BarQ(b) => 0 <= b < |s.barriers| && p.lockWaiting == None && p.waitingPid == -1 && p.cont == User
    case _ => true
  }

  ghost predicate WaitersOk(s: State, d: Slot, id: QueueId) {
    forall i | i in Items(s, id) :: WaiterOk(s, d, id, i)
  }

  /** A living process that is not blocked waits for nothing, except that it may be about to try a mutex again. */
  predicate FreeOk(s: State, i: Slot) {
    var p := s.pcb[i];
    Alive(s, i) && p.status != Blocked && i != 0 ==>
      && p.waitingPid == -1
      && (p.lockWaiting.Some? ==> p.cont == Acquiring(p.lockWaiting.value))
  }

  /** The counter of a condition, semaphore or barrier agrees with its queue. */
  predicate CountOk(s: State, id: QueueId) {
    var n := |Items(s, id)|;
    match id
    case CondQ(c) => 0 <= c < |s.conds| ==> s.conds[c] == n
    case SemQ(x) => 0 <= x < |s.sems| ==> n == if s.sems[x] < 0 then -s.sems[x] else 0
    case BarQ(b) =>
      0 <= b < |s.barriers| ==>
        && 0 <= s.barriers[b].now
        && if s.barriers[b].goal >= 1 then n == s.barriers[b].now < s.barriers[b].goal else n == 0
    case _ => true
  }

  ghost predicate Counts(s: State) {
    forall id :: CountOk(s, id)
  }

  ghost predicate LocksOk(s: State, d: Slot) {
    && (forall i: Slot :: OwnerOk(s, d, i))
    && (forall l | LockRange(s, l) :: LockOk(s, l))
  }

  ghost predicate Reasons(s: State, d: Slot) {
    && (forall id :: WaitersOk(s, d, id))
    && (forall i: Slot :: FreeOk(s, i))
  }

  ghost predicate Sync(s: State, d: Slot) {
    PidsOk(s) && LocksOk(s, d) && Reasons(s, d) && Counts(s)
  }

  /** The kernel invariant, between steps. */
  ghost predicate Inv(s: State) {
    Settled(s) && Sync(s, 0) && ShellReady(s)
  }

  lemma {:induction false} ScanFromFrame(s: State, t: State, pid: int, i: nat)
    requires i <= NUM_MAX_TASK && forall j: Slot :: t.pcb[j].pid == s.pcb[j].pid
    ensures ScanFrom(t, pid, i) == ScanFrom(s, pid, i)
    decreases NUM_MAX_TASK - i
  {
    if i == NUM_MAX_TASK {
    } else {
      var slot: Slot := i;
      assert t.pcb[slot].pid == s.pcb[slot].pid;
      ScanFromFrame(s, t, pid, i + 1);
    }
  }

  lemma ScanFrame(s: State, t: State, pid: int)
    requires forall i: Slot :: t.pcb[i].pid == s.pcb[i].pid
    ensures Scan(t, pid) == Scan(s, pid)
  {
    ScanFromFrame(s, t, pid, 2);
  }

  // ---------- scheduling keeps it ----------

  lemma SameOwner(s: State, t: State, d: Slot, i: Slot)
    requires SameBlocking(s, t) && OwnerOk(s, d, i)
    ensures OwnerOk(t, d, i)
  {
    assert forall l :: Owns(t, i, l) ==> Owns(s, i, l);
  }

  lemma SameLock(s: State, t: State, l: int)
    requires SameBlocking(s, t) && LockRange(t, l) && LockOk(s, l)
    ensures LockOk(t, l)
  {
    assert IsBlocking(LockQ(l));
    ScanFrame(s, t, s.locks[l].owner);
  }

  lemma SameWaiters(s: State, t: State, d: Slot, id: QueueId)
    requires SameBlocking(s, t) && WaitersOk(s, d, id)
    ensures WaitersOk(t, d, id)
  {
    if IsBlocking(id) {
      forall i | i in Items(t, id)
        ensures WaiterOk(t, d, id, i)
      {
        assert WaiterOk(s, d, id, i);
      }
    }
  }

  lemma SameFree(s: State, t: State, i: Slot)
    requires SameBlocking(s, t) && FreeOk(s, i)
    ensures FreeOk(t, i)
  {
  }

  lemma SameCount(s: State, t: State, id: QueueId)
    requires SameBlocking(s, t) && CountOk(s, id)
    ensures CountOk(t, id)
  {
    assert IsBlocking(id) ==> Items(t, id) == Items(s, id);
  }

  lemma SamePids(s: State, t: State)
    requires SameBlocking(s, t) && PidsOk(s)
    ensures PidsOk(t)
  {
  }

  lemma SameBlockingSync(s: State, t: State, d: Slot)
    requires Sync(s, d) && SameBlocking(s, t)
    ensures Sync(t, d)
  {
    SamePids(s, t);
    assert |t.locks| == |s.locks|;
    hide SameBlocking, PidsOk, OwnerOk, LockOk, WaitersOk, FreeOk, CountOk;
    forall i: Slot
      ensures OwnerOk(t, d, i)
    {
      SameOwner(s, t, d, i);
    }
    forall l | LockRange(t, l)
      ensures LockOk(t, l)
    {
      SameLock(s, t, l);
    }
    forall id
      ensures WaitersOk(t, d, id)
    {
      SameWaiters(s, t, d, id);
    }
    forall i: Slot
      ensures FreeOk(t, i)
    {
      SameFree(s, t, i);
    }
    forall id
      ensures CountOk(t, id)
    {
      SameCount(s, t, id);
    }
  }

  /** A step that puts the current process aside, or leaves it running, and then schedules. */
  lemma ScheduleInv(s: State)
    requires Mid(s) && Sync(s, 0) && ShellReady(s)
    ensures CanSchedule(s) && Inv(Schedule(s))
  {
    ScheduleSettles(s);
    SameBlockingSync(s, Schedule(s), 0);
  }
}
