/** A process that a step cannot reach: one that does not run and is in no queue, or only in that of those who wait for
    some process. It stays as it is in every step but its own death and that of the process. Nothing here supposes the
    kernel invariant. */
module Steadiness {
  import opened KernelModel
  import opened Placement
  import opened KernelSteps
  import opened KernelInvariant
  import opened LifeInv
  import opened Runs
  import opened Frame

  /** Not running, and in no queue but perhaps that of those who wait for slot d. */
  ghost predicate Away(s: State, x: Slot, d: Slot) {
    s.current != x && forall q | q != WaitQ(d) :: x !in Items(s, q)
  }

  /** It has stayed away, in the state it was in, and has not come into that queue either. */
  ghost predicate Steady(s: State, t: State, x: Slot, d: Slot) {
    && Away(t, x, d) && t.pcb[x].status == s.pcb[x].status && t.pcb[x].pid == s.pcb[x].pid
    && (x !in Items(s, WaitQ(d)) ==> x !in Items(t, WaitQ(d)))
  }

  /** Emptying this queue does not touch x. */
  predicate Spares(s: State, id: QueueId, x: Slot, d: Slot) {
    id != WaitQ(d) || x !in Items(s, id)
  }

  lemma {:induction false} DelMember(items: seq<Slot>, i: Slot, x: Slot)
    requires x !in items
    ensures x !in Del(items, i)
  {
    if items == [] {
    } else if items[0] != i {
      DelMember(items[1..], i, x);
    }
  }

  /** If one queue at most is different, and x is not in it. */
  lemma OneQueueSteady(s: State, t: State, id: QueueId, x: Slot, d: Slot)
    requires Away(s, x, d) && t.current == s.current
    requires t.pcb[x].status == s.pcb[x].status && t.pcb[x].pid == s.pcb[x].pid
    requires forall q | q != id :: Items(t, q) == Items(s, q)
    requires x in Items(t, id) ==> x in Items(s, id)
    ensures Steady(s, t, x, d)
  {
    forall q | q != WaitQ(d)
      ensures x !in Items(t, q)
    {
      assert x !in Items(s, q);
    }
  }

  lemma SameQueuesSteady(s: State, t: State, x: Slot, d: Slot)
    requires Away(s, x, d) && t.current == s.current && t.queue == s.queue
    requires t.pcb[x].status == s.pcb[x].status && t.pcb[x].pid == s.pcb[x].pid
    ensures Steady(s, t, x, d)
  {
    assert forall q :: Items(t, q) == Items(s, q);
    OneQueueSteady(s, t, SleepQ, x, d);
  }

  lemma PushSteady(s: State, id: QueueId, i: Slot, x: Slot, d: Slot)
    requires Away(s, x, d) && i != x
    ensures Steady(s, Push(s, id, i), x, d) && Push(s, id, i).current == s.current
  {
    OneQueueSteady(s, Push(s, id, i), id, x, d);
  }

  lemma RemoveSteady(s: State, id: QueueId, i: Slot, x: Slot, d: Slot)
    requires Away(s, x, d)
    ensures Steady(s, Remove(s, id, i), x, d) && Remove(s, id, i).current == s.current
  {
    if x !in Items(s, id) {
      DelMember(Items(s, id), i, x);
    }
    hide Del;
    OneQueueSteady(s, Remove(s, id, i), id, x, d);
  }

  lemma WakeSteady(s: State, i: Slot, x: Slot, d: Slot)
    requires Away(s, x, d) && i != x
    ensures Steady(s, Wake(s, i), x, d) && Wake(s, i).current == s.current
  {
    var t := SetProc(s, i, s.pcb[i].(status := Ready, priority := 1));
    SameQueuesSteady(s, t, x, d);
    PushSteady(t, ReadyQ(1), i, x, d);
  }

  lemma BlockSteady(s: State, id: QueueId, x: Slot, d: Slot)
    requires Away(s, x, d)
    ensures Steady(s, Block(s, id), x, d) && Block(s, id).current == s.current
  {
    var t := SetProc(s, s.current, s.pcb[s.current].(status := Blocked));
    SameQueuesSteady(s, t, x, d);
    PushSteady(t, id, s.current, x, d);
  }

  lemma UnblockOneSteady(s: State, id: QueueId, x: Slot, d: Slot)
    requires Away(s, x, d) && Spares(s, id, x, d) && Items(s, id) != []
    ensures Steady(s, UnblockOne(s, id), x, d)
  {
    var i := Items(s, id)[0];
    assert i in Items(s, id);
    hide Remove, Wake;
    RemoveSteady(s, id, i, x, d);
    WakeSteady(Remove(s, id, i), i, x, d);
  }

  lemma {:induction false} UnblockAllSteady(s: State, id: QueueId, x: Slot, d: Slot)
    requires Away(s, x, d) && Spares(s, id, x, d) && id != ReadyQ(1)
    ensures Steady(s, UnblockAll(s, id), x, d)
    decreases |Items(s, id)|
  {
    if Items(s, id) == [] {
      SameQueuesSteady(s, s, x, d);
    } else {
      UnblockOneSteady(s, id, x, d);
      hide Wake, Remove;
      UnblockAllSteady(UnblockOne(s, id), id, x, d);
    }
  }

  lemma {:induction false} WakeDueSteady(s: State, sleepers: seq<Slot>, x: Slot, d: Slot)
    requires Away(s, x, d) && x !in sleepers
    ensures Steady(s, WakeDue(s, sleepers), x, d) && WakeDue(s, sleepers).current == s.current
    decreases |sleepers|
  {
    if sleepers == [] {
      SameQueuesSteady(s, s, x, d);
    } else if Due(s, sleepers[0]) {
      hide Wake, Remove, Due;
      RemoveSteady(s, SleepQ, sleepers[0], x, d);
      WakeSteady(Remove(s, SleepQ, sleepers[0]), sleepers[0], x, d);
      WakeDueSteady(Wake(Remove(s, SleepQ, sleepers[0]), sleepers[0]), sleepers[1..], x, d);
    } else {
      WakeDueSteady(s, sleepers[1..], x, d);
    }
  }

  lemma RequeueSteady(s: State, x: Slot, d: Slot)
    requires Away(s, x, d)
    ensures Steady(s, Requeue(Demote(s)), x, d)
  {
    SameQueuesSteady(s, Demote(s), x, d);
    PushSteady(Demote(s), ReadyQ(Demote(s).pcb[s.current].priority), s.current, x, d);
  }

  lemma PutBackSteady(s: State, x: Slot, d: Slot)
    requires Away(s, x, d)
    ensures Steady(s, BeforeDispatch(s), x, d)
  {
    SameQueuesSteady(s, Yield(s), x, d);
    hide WakeDue, Yield, Requeue, Demote;
    WakeDueSteady(Yield(s), Items(Yield(s), SleepQ), x, d);
    RequeueSteady(CheckSleeping(Yield(s)), x, d);
  }

  lemma DispatchSteady(s: State, x: Slot, d: Slot)
    requires Away(s, x, d) && Items(s, PickQueue(s)) != []
    ensures Steady(s, Dispatch(s), x, d)
  {
    var i := Items(s, PickQueue(s))[0];
    assert i in Items(s, PickQueue(s)) && i != x;
    RemoveSteady(s, PickQueue(s), i, x, d);
    var t := Remove(s, PickQueue(s), i);
    hide Remove;
    SameQueuesSteady(t, SetProc(t, i, t.pcb[i].(status := Running)), x, d);
    assert forall q :: Items(Dispatch(s), q) == Items(t, q);
    assert forall q | q != WaitQ(d) :: x !in Items(t, q);
  }

  lemma ScheduleSteady(s: State, x: Slot, d: Slot)
    requires Away(s, x, d) && CanSchedule(s)
    ensures Steady(s, Schedule(s), x, d)
  {
    PutBackSteady(s, x, d);
    hide BeforeDispatch, Dispatch, PickQueue;
    DispatchSteady(BeforeDispatch(s), x, d);
  }

  lemma ReleaseSteady(s: State, l: int, x: Slot, d: Slot)
    requires Away(s, x, d)
    ensures Steady(s, ReleaseLock(s, l), x, d)
  {
    if LockRange(s, l) && Scan(s, s.locks[l].owner) < NUM_MAX_TASK {
      var j := Scan(s, s.locks[l].owner);
      var a := SetProc(s, j, s.pcb[j].(owned := Drop(s.pcb[j].owned, l)));
      SameQueuesSteady(s, a, x, d);
      UnblockAllSteady(a, LockQ(l), x, d);
      var t := UnblockAll(a, LockQ(l));
      hide UnblockAll, Drop;
      SameQueuesSteady(t, ReleaseLock(s, l), x, d);
    } else {
      SameQueuesSteady(s, s, x, d);
    }
  }

  lemma {:induction false} ClearSteady(s: State, items: seq<Slot>, x: Slot, d: Slot)
    requires Away(s, x, d)
    ensures Steady(s, ClearWaiting(s, items), x, d) && ClearWaiting(s, items).queue == s.queue
    decreases |items|
  {
    if items == [] {
      SameQueuesSteady(s, s, x, d);
    } else {
      SameQueuesSteady(s, SetProc(s, items[0], s.pcb[items[0]].(waitingPid := -1)), x, d);
      ClearSteady(SetProc(s, items[0], s.pcb[items[0]].(waitingPid := -1)), items[1..], x, d);
    }
  }

  lemma {:induction false} ReleaseOwnedSteady(s: State, i: Slot, j: nat, x: Slot, d: Slot)
    requires j <= MAX_MUTEX_OWN && Away(s, x, d)
    ensures Steady(s, ReleaseOwned(s, i, j), x, d)
    decreases MAX_MUTEX_OWN - j
  {
    if j == MAX_MUTEX_OWN {
      SameQueuesSteady(s, s, x, d);
    } else if s.pcb[i].owned[j] == None {
      ReleaseOwnedSteady(s, i, j + 1, x, d);
    } else {
      ReleaseSteady(s, s.pcb[i].owned[j].value, x, d);
      hide ReleaseLock;
      ReleaseOwnedSteady(ReleaseLock(s, s.pcb[i].owned[j].value), i, j + 1, x, d);
    }
  }

  lemma WakeWaitersSteady(s: State, i: Slot, x: Slot, d: Slot)
    requires Away(s, x, d) && Spares(s, WaitQ(i), x, d)
    ensures Steady(s, WakeWaiters(s, i), x, d)
  {
    var b := ClearWaiting(s, Items(s, WaitQ(i)));
    ClearSteady(s, Items(s, WaitQ(i)), x, d);
    assert Items(b, WaitQ(i)) == Items(s, WaitQ(i));
    hide ClearWaiting, UnblockAll;
    UnblockAllSteady(b, WaitQ(i), x, d);
  }

  lemma DieSteady(s: State, i: Slot, x: Slot, d: Slot)
    requires Away(s, x, d) && i != x && Spares(s, WaitQ(i), x, d)
    ensures Steady(s, Die(s, i), x, d)
  {
    var a := Bury(s, i);
    SameQueuesSteady(s, a, x, d);
    assert Items(a, WaitQ(i)) == Items(s, WaitQ(i));
    hide Bury;
    WakeWaitersSteady(a, i, x, d);
    hide WakeWaiters;
    ReleaseOwnedSteady(WakeWaiters(a, i), i, 0, x, d);
  }

  lemma UnqueueSteady(s: State, i: Slot, x: Slot, d: Slot)
    requires Away(s, x, d)
    ensures Steady(s, Unqueue(s, i), x, d)
  {
    hide Remove;
    var p := s.pcb[i];
    SameQueuesSteady(s, s, x, d);
    RemoveSteady(s, ReadyQ(p.priority), i, x, d);
    RemoveSteady(s, SleepQ, i, x, d);
    RemoveSteady(s, WaitQ(Scan(s, p.waitingPid)), i, x, d);
    if p.lockWaiting.Some? {
      RemoveSteady(s, LockQ(p.lockWaiting.value), i, x, d);
    }
    hide Steady;
  }

  /** Nobody is put into the slot of x, x is not killed, and if x waits for slot d its process is not killed. */
  predicate Harmless(s: State, e: Event, x: Slot, d: Slot) {
    && Spawned(s, e) != x && Victim(s, e) != x
    && (x in Items(s, WaitQ(d)) ==> Victim(s, e) != d)
  }

  lemma DeathSteady(s: State, e: Event, x: Slot, d: Slot)
    requires Callable(s, e) && (e.Kill? || e.Exit?) && Away(s, x, d) && Harmless(s, e, x, d)
    ensures Steady(s, Before(s, e), x, d)
  {
    if e.Kill? {
      var i := Scan(s, e.pid);
      UnqueueSteady(s, i, x, d);
      hide Unqueue, Die;
      DieSteady(Unqueue(s, i), i, x, d);
    } else {
      hide Die;
      DieSteady(s, s.current, x, d);
    }
  }

  lemma QueuedSteady(s: State, l: int, c: int, x: Slot, d: Slot)
    requires 0 <= c < |s.conds| && Away(s, x, d)
    ensures Steady(s, QueuedOnCond(s, l, c), x, d)
  {
    var r := s.(conds := s.conds[c := s.conds[c] + 1]);
    SameQueuesSteady(s, r, x, d);
    BlockSteady(r, CondQ(c), x, d);
    var t := Block(r, CondQ(c));
    hide Block;
    SameQueuesSteady(t, SetProc(t, t.current, t.pcb[t.current].(cont := Acquiring(l))), x, d);
  }

  lemma CondWaitSteady(s: State, l: int, c: int, x: Slot, d: Slot)
    requires 0 <= c < |s.conds| && Away(s, x, d)
    ensures Steady(s, AwaitCond(s, l, c), x, d)
  {
    var u := QueuedOnCond(s, l, c);
    assert AwaitCond(s, l, c) == ReleaseLock(u, l);
    QueuedSteady(s, l, c, x, d);
    hide ReleaseLock, QueuedOnCond, AwaitCond;
    ReleaseSteady(u, l, x, d);
  }

  lemma SignalSteady(s: State, c: int, x: Slot, d: Slot)
    requires Callable(s, Signal(c)) && Away(s, x, d)
    ensures Steady(s, SignalCond(s, c), x, d)
  {
    SameQueuesSteady(s, s, x, d);
    if s.conds[c] > 0 {
      UnblockOneSteady(s, CondQ(c), x, d);
      var t := UnblockOne(s, CondQ(c));
      hide UnblockOne;
      SameQueuesSteady(t, SignalCond(s, c), x, d);
    }
  }

  lemma BroadcastSteady(s: State, c: int, x: Slot, d: Slot)
    requires Callable(s, Broadcast(c)) && Away(s, x, d)
    ensures Steady(s, BroadcastCond(s, c), x, d)
  {
    SameQueuesSteady(s, s, x, d);
    UnblockAllSteady(s, CondQ(c), x, d);
    var t := UnblockAll(s, CondQ(c));
    hide UnblockAll;
    if s.conds[c] > 0 {
      SameQueuesSteady(t, BroadcastCond(s, c), x, d);
    }
  }

  lemma UpSteady(s: State, y: int, x: Slot, d: Slot)
    requires Callable(s, SemUp(y)) && Away(s, x, d)
    ensures Steady(s, Up(s, y), x, d)
  {
    var t := s.(sems := s.sems[y := s.sems[y] + 1]);
    SameQueuesSteady(s, t, x, d);
    if t.sems[y] <= 0 {
      assert Items(t, SemQ(y)) == Items(s, SemQ(y));
      UnblockOneSteady(t, SemQ(y), x, d);
    }
    hide UnblockOne;
  }

  lemma DownSteady(s: State, y: int, x: Slot, d: Slot)
    requires Callable(s, SemDown(y)) && Away(s, x, d)
    ensures Steady(s, Down(s, y), x, d)
  {
    var t := s.(sems := s.sems[y := s.sems[y] - 1]);
    SameQueuesSteady(s, t, x, d);
    BlockSteady(t, SemQ(y), x, d);
    hide Block;
  }

  lemma ArriveSteady(s: State, b: int, x: Slot, d: Slot)
    requires 0 <= b < |s.barriers| && Away(s, x, d)
    ensures Steady(s, Arrive(s, b), x, d)
  {
    var t := s.(barriers := s.barriers[b := s.barriers[b].(now := s.barriers[b].now + 1)]);
    SameQueuesSteady(s, t, x, d);
    BlockSteady(t, BarQ(b), x, d);
    UnblockAllSteady(t, BarQ(b), x, d);
    var u := UnblockAll(t, BarQ(b));
    hide UnblockAll, Block;
    SameQueuesSteady(u, u.(barriers := Arrive(s, b).barriers), x, d);
  }

  lemma AcquireSteady(s: State, l: int, x: Slot, d: Slot)
    requires Callable(s, Acquire(l)) && Away(s, x, d)
    ensures Steady(s, Before(s, Acquire(l)), x, d)
  {
    if s.locks[l].locked {
      BlockSteady(s, LockQ(l), x, d);
      var t := Block(s, LockQ(l));
      hide Block;
      SameQueuesSteady(t, AwaitLock(s, l), x, d);
    } else {
      SameQueuesSteady(s, Take(s, l), x, d);
    }
  }

  lemma DozeSteady(s: State, n: nat, x: Slot, d: Slot)
    requires Away(s, x, d)
    ensures Steady(s, Doze(s, n), x, d)
  {
    var t := SetProc(s, s.current, s.pcb[s.current].(status := Sleeping, alarm := n + Timer(s)));
    SameQueuesSteady(s, t, x, d);
    PushSteady(t, SleepQ, s.current, x, d);
  }

  lemma SpawnSteady(s: State, i: Slot, x: Slot, d: Slot)
    requires Away(s, x, d) && i != x
    ensures Steady(s, SpawnAt(s, i), x, d)
  {
    var t := SetItems(SetProc(s, i, NewProc(s.nextPid).(alarm := s.pcb[i].alarm)), WaitQ(i), []);
    OneQueueSteady(s, t, WaitQ(i), x, d);
    PushSteady(t, ReadyQ(1), i, x, d);
    SameQueuesSteady(Push(t, ReadyQ(1), i), SpawnAt(s, i), x, d);
  }

  lemma WaitSteady(s: State, pid: int, x: Slot, d: Slot)
    requires Callable(s, Wait(pid)) && Away(s, x, d)
    ensures Steady(s, WaitFor(s, pid), x, d)
  {
    var id := WaitQ(Scan(s, pid));
    BlockSteady(s, id, x, d);
    var t := Block(s, id);
    hide Block;
    SameQueuesSteady(t, WaitFor(s, pid), x, d);
  }

  lemma BeforeSteady(s: State, e: Event, x: Slot, d: Slot)
    requires Callable(s, e) && Away(s, x, d) && Harmless(s, e, x, d)
    ensures Steady(s, Before(s, e), x, d)
  {
    hide Steady, Away, Spares;
    match e
    case Tick => SameQueuesSteady(s, s, x, d);
    case Advance(ticks) => SameQueuesSteady(s, s.(time := s.time + ticks), x, d);
    case Sleep(n) => DozeSteady(s, n, x, d);
    case Spawn => SpawnSteady(s, FreeSlot(s), x, d);
    case Wait(pid) => WaitSteady(s, pid, x, d);
    case Kill(_) => DeathSteady(s, e, x, d);
    case Exit => DeathSteady(s, e, x, d);
    case Acquire(l) => AcquireSteady(s, l, x, d);
    case Release(l) => ReleaseSteady(s, l, x, d);
    case CondWait(l, c) => CondWaitSteady(s, l, c, x, d);
    case Signal(c) => SignalSteady(s, c, x, d);
    case Broadcast(c) => BroadcastSteady(s, c, x, d);
    case SemUp(y) => UpSteady(s, y, x, d);
    case SemDown(y) => DownSteady(s, y, x, d);
    case BarrierWait(b) => ArriveSteady(s, b, x, d);
  }

  lemma StepSteady(s: State, e: Event, x: Slot, d: Slot)
    requires Possible(s, e) && Away(s, x, d) && Harmless(s, e, x, d)
    ensures Steady(s, Step(s, e), x, d)
  {
    hide Before, Schedule, CanSchedule, Harmless;
    BeforeSteady(s, e, x, d);
    if Reschedules(s, e) {
      ScheduleSteady(Before(s, e), x, d);
    }
  }

  // ---------- who is out of reach ----------

  lemma QueuedIsAway(u: State, k: Slot, d: Slot)
    requires Struct(u) && u.current != k && u.pcb[k].on == Some(WaitQ(d))
    ensures Away(u, k, d)
  {
    PlaceOf(u, k);
  }

  lemma DeadIsAway(u: State, d: Slot)
    requires Struct(u) && OthersPlaced(u) && d != u.current && 0 < d && !Alive(u, d)
    ensures Away(u, d, d)
  {
    PlaceOf(u, d);
  }
}
