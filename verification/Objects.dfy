/** Semaphores, barriers and conditions: only their own operations touch their queues and counters. */
module Objects {
  import opened KernelModel
  import opened Placement
  import opened KernelSteps
  import opened KernelInvariant
  import opened Preserve
  import opened StepInv
  import opened LifeInv
  import opened Death
  import opened Legacy
  import opened Runs

  predicate IsObjectQueue(q: QueueId) {
    q.SemQ? || q.BarQ? || q.CondQ?
  }

  /** The operations of the object a queue belongs to. */
  predicate Touches(e: Event, q: QueueId) {
    match q
    case SemQ(x) => e == SemUp(x) || e == SemDown(x)
    case BarQ(b) => e == BarrierWait(b)
    case CondQ(c) => e == Signal(c) || e == Broadcast(c) || (e.CondWait? && e.cond == c)
    case _ => false
  }

  /** The numbers kept in the object a queue belongs to. */
  function Gauge(s: State, q: QueueId): (int, int) {
    match q
    case SemQ(x) => if 0 <= x < |s.sems| then (s.sems[x], 0) else (0, 0)
    case BarQ(b) => if 0 <= b < |s.barriers| then (s.barriers[b].goal, s.barriers[b].now) else (0, 0)
    case CondQ(c) => if 0 <= c < |s.conds| then (s.conds[c], 0) else (0, 0)
    case _ => (0, 0)
  }

  /** The object a queue belongs to is as it was. */
  predicate SameObject(s: State, t: State, q: QueueId) {
    Items(t, q) == Items(s, q) && Gauge(t, q) == Gauge(s, q)
  }

  lemma ReleaseQueues(s: State, l: int, q: QueueId)
    requires Struct(s) && LockRange(s, l) && Scan(s, s.locks[l].owner) < NUM_MAX_TASK && q != LockQ(l) && q != ReadyQ(1)
    ensures Items(ReleaseLock(s, l), q) == Items(s, q)
    ensures var t := ReleaseLock(s, l); t.sems == s.sems && t.barriers == s.barriers && t.conds == s.conds
  {
    ReleaseEffect(s, l);
    ReleasedFrees(s, ReleaseLock(s, l), l);
  }

  lemma KilledNotIn(s: State, i: Slot, q: QueueId)
    requires Inv(s) && 2 <= i && Killable(s, i) && IsObjectQueue(q)
    ensures i !in Items(s, q)
  {
    UnqueueFindsIt(s, i);
    assert QueueOk(s, q);
  }

  lemma DeathQueues(s: State, i: Slot, q: QueueId)
    requires Inv(s) && 2 <= i && Killable(s, i) && IsObjectQueue(q)
    ensures Items(Die(Unqueue(s, i), i), q) == Items(s, q)
    ensures var t := Die(Unqueue(s, i), i); t.sems == s.sems && t.barriers == s.barriers && t.conds == s.conds
  {
    hide Inv, ReleaseOwned;
    DieEffect(s, i);
    var t := Die(Unqueue(s, i), i);
    assert QueueAfter(s, t, i, q);
    KilledNotIn(s, i, q);
    DelAbsent(Items(s, q), i);
  }

  lemma ReleasesLast(s: State, l: int, c: int)
    requires 0 <= c < |s.conds|
    ensures AwaitCond(s, l, c) == ReleaseLock(QueuedOnCond(s, l, c), l)
  {
    hide ReleaseLock;
  }

  lemma QueuedCanRelease(s: State, l: int, c: int)
    requires Inv(s) && Enabled(s, CondWait(l, c))
    ensures var t := QueuedOnCond(s, l, c);
      && Struct(t) && LockRange(t, l) && Scan(t, t.locks[l].owner) < NUM_MAX_TASK
      && t.pcb[s.current].cont == Acquiring(l)
  {
    QueuedInside(s, l, c);
    assert LockOk(QueuedOnCond(s, l, c), l);
  }

  lemma QueuedSame(s: State, l: int, c: int, q: QueueId)
    requires 0 <= c < |s.conds| && IsObjectQueue(q) && q != CondQ(c)
    ensures SameObject(s, QueuedOnCond(s, l, c), q)
  {
  }

  lemma CondWaitQueues(s: State, l: int, c: int, q: QueueId)
    requires Inv(s) && Enabled(s, CondWait(l, c)) && IsObjectQueue(q) && q != CondQ(c)
    ensures SameObject(s, AwaitCond(s, l, c), q)
  {
    QueuedCanRelease(s, l, c);
    ReleasesLast(s, l, c);
    QueuedSame(s, l, c, q);
    hide Inv, Struct, ReleaseLock, QueuedOnCond, AwaitCond, Scan, Items;
    ReleaseQueues(QueuedOnCond(s, l, c), l, q);
  }

  lemma WokenQueues(s: State, id: QueueId, q: QueueId)
    requires Struct(s) && id != ReadyQ(1) && Items(s, id) != [] && q != id && q != ReadyQ(1)
    ensures var t := UnblockOne(s, id);
      Items(t, q) == Items(s, q) && t.sems == s.sems && t.barriers == s.barriers && t.conds == s.conds
  {
    hide Struct;
    WakeEffect(s, Items(s, id)[0], id, 0);
  }

  lemma SignalQueues(s: State, c: int, q: QueueId)
    requires Struct(s) && Callable(s, Signal(c)) && IsObjectQueue(q) && !Touches(Signal(c), q)
    ensures SameObject(s, Before(s, Signal(c)), q)
  {
    hide Struct, UnblockOne;
    if s.conds[c] > 0 {
      WokenQueues(s, CondQ(c), q);
    }
  }

  lemma BroadcastQueues(s: State, c: int, q: QueueId)
    requires Struct(s) && Callable(s, Broadcast(c)) && IsObjectQueue(q) && !Touches(Broadcast(c), q)
    ensures SameObject(s, Before(s, Broadcast(c)), q)
  {
    hide Struct, UnblockAll;
    UnblockAllEffect(s, CondQ(c));
  }

  lemma UpQueues(s: State, x: int, q: QueueId)
    requires Struct(s) && Callable(s, SemUp(x)) && IsObjectQueue(q) && !Touches(SemUp(x), q)
    ensures SameObject(s, Before(s, SemUp(x)), q)
  {
    var u := s.(sems := s.sems[x := s.sems[x] + 1]);
    assert Items(u, SemQ(x)) == Items(s, SemQ(x)) && Items(u, q) == Items(s, q);
    hide Struct, UnblockOne, Items;
    SameLinksStruct(s, u);
    if u.sems[x] <= 0 {
      WokenQueues(u, SemQ(x), q);
    }
  }

  lemma ArriveQueues(s: State, b: int, q: QueueId)
    requires Struct(s) && Callable(s, BarrierWait(b)) && IsObjectQueue(q) && !Touches(BarrierWait(b), q)
    ensures SameObject(s, Before(s, BarrierWait(b)), q)
  {
    hide Struct, UnblockAll;
    var u := Counted(s, b);
    SameLinksStruct(s, u);
    UnblockAllEffect(u, BarQ(b));
    assert Items(u, q) == Items(s, q);
  }

  lemma VictimMayDie(s: State, e: Event) returns (i: Slot)
    requires Inv(s) && Enabled(s, e) && (e.Kill? || e.Exit?)
    ensures 2 <= i && Killable(s, i) && Before(s, e) == Die(Unqueue(s, i), i)
  {
    hide Die;
    i := if e.Kill? then Scan(s, e.pid) else s.current;
  }

  lemma BeforeDeath(s: State, e: Event, q: QueueId)
    requires Inv(s) && Enabled(s, e) && IsObjectQueue(q) && (e.Kill? || e.Exit?)
    ensures SameObject(s, Before(s, e), q)
  {
    hide Inv, Enabled, Killable, Before, Die, Unqueue, Items, Bury;
    var i := VictimMayDie(s, e);
    DeathQueues(s, i, q);
  }

  lemma BeforeRelease(s: State, e: Event, q: QueueId)
    requires Inv(s) && Enabled(s, e) && IsObjectQueue(q) && !Touches(e, q) && (e.CondWait? || e.Release?)
    ensures SameObject(s, Before(s, e), q)
  {
    hide ReleaseLock, AwaitCond, Struct, OthersPlaced;
    if e.CondWait? {
      CondWaitQueues(s, e.lock, e.cond, q);
    } else {
      assert LockOk(s, e.lock);
      ReleaseQueues(s, e.lock, q);
    }
  }

  lemma BeforeRest(s: State, e: Event, q: QueueId)
    requires Callable(s, e) && IsObjectQueue(q) && !Touches(e, q)
    requires e.Tick? || e.Advance? || e.Sleep? || e.Spawn? || e.Wait? || e.Acquire? || e.SemDown?
    ensures SameObject(s, Before(s, e), q)
  {
  }

  lemma BeforeQueues(s: State, e: Event, q: QueueId)
    requires Inv(s) && Enabled(s, e) && IsObjectQueue(q) && !Touches(e, q)
    ensures SameObject(s, Before(s, e), q)
  {
    hide Sync, Struct, OthersPlaced, Die, Unqueue, ReleaseLock, Before;
    match e
    case Kill(pid) => BeforeDeath(s, e, q);
    case Exit => BeforeDeath(s, e, q);
    case CondWait(l, c) => BeforeRelease(s, e, q);
    case Release(l) => BeforeRelease(s, e, q);
    case Signal(c) => SignalQueues(s, c, q);
    case Broadcast(c) => BroadcastQueues(s, c, q);
    case SemUp(x) => UpQueues(s, x, q);
    case BarrierWait(b) => ArriveQueues(s, b, q);
    case _ => BeforeRest(s, e, q);
  }

  lemma ScheduleQueues(s: State, e: Event, q: QueueId)
    requires Inv(s) && Enabled(s, e) && Reschedules(s, e) && IsBlocking(q)
    ensures Possible(s, e) && SameObject(Before(s, e), Step(s, e), q)
    ensures SameButPlace(Before(s, e), Step(s, e))
  {
    hide Struct, Sync, OthersPlaced, Before, Schedule, CanSchedule;
    BeforeInv(s, e);
    ScheduleSettles(Before(s, e));
  }

  /** In particular scheduling, sleeping, starting and killing processes, and mutexes, leave these queues alone. */
  lemma StepQueues(s: State, e: Event, q: QueueId)
    requires Inv(s) && Enabled(s, e) && IsObjectQueue(q) && !Touches(e, q)
    ensures Possible(s, e) && SameObject(s, Step(s, e), q)
  {
    hide Inv, Before;
    StepKeepsInv(s, e);
    BeforeQueues(s, e, q);
    if Reschedules(s, e) {
      ScheduleQueues(s, e, q);
    }
  }
}
