/** The whole effect of every step on everything but the queues: what a PCB says of its process, who owns which mutex,
    and every counter. */
module Fields {
  import opened KernelModel
  import opened Placement
  import opened KernelSteps
  import opened KernelInvariant
  import opened Preserve
  import opened StepInv
  import opened LifeInv
  import opened Legacy
  import opened Runs
  import opened Frame

  /** What a PCB says, but for status, priority and queue, which follow from where the process is. */
  datatype Attributes = Attributes(
    pid: int,
    alarm: int,
    waitingPid: int,
    lockWaiting: Option<int>,
    owned: Owned,
    cont: Cont)

  function Of(p: Proc): Attributes {
    Attributes(p.pid, p.alarm, p.waitingPid, p.lockWaiting, p.owned, p.cont)
  }

  /** A list of mutexes without one of them. */
  function Erased(owned: Owned, l: int): Owned {
    seq(MAX_MUTEX_OWN, j requires 0 <= j < MAX_MUTEX_OWN => if owned[j] == Some(l) then None else owned[j])
  }

  function WhenFreed(s: State, a: Attributes, i: Slot, l: int): Attributes
    requires LockRange(s, l)
  {
    if i == Scan(s, s.locks[l].owner) then a.(owned := Erased(a.owned, l)) else a
  }

  function WhenDead(s: State, a: Attributes, i: Slot, dead: nat): Attributes
    requires dead < NUM_MAX_TASK
  {
    if i == dead then a.(owned := NOTHING_OWNED) else if i in Heirs(s, dead) then a.(waitingPid := -1) else a
  }

  function AttributesLater(s: State, e: Event, i: Slot): Attributes
    requires Callable(s, e)
  {
    var a, mine := Of(s.pcb[i]), i == s.current;
    match e
    case Sleep(n) => if mine then a.(alarm := n + s.time / TIMER_UNIT) else a
    case Spawn => if i == FreeSlot(s) then Attributes(s.nextPid, a.alarm, -1, None, NOTHING_OWNED, User) else a
    case Wait(pid) => if mine then a.(waitingPid := pid) else a
    case Kill(pid) => WhenDead(s, a, i, Scan(s, pid))
    case Exit => WhenDead(s, a, i, s.current)
    case Acquire(l) =>
      if !mine then a
      else if s.locks[l].locked then a.(lockWaiting := Some(l), cont := Acquiring(l))
      else a.(lockWaiting := None, cont := User, owned := a.owned[FreeEntry(a.owned) := Some(l)])
    case Release(l) => WhenFreed(s, a, i, l)
    case CondWait(l, _) => WhenFreed(s, if mine then a.(cont := Acquiring(l)) else a, i, l)
    case _ => a
  }

  function LockLater(s: State, e: Event, l: int): Lock
    requires Callable(s, e) && LockRange(s, l)
  {
    if e == Acquire(l) && !s.locks[l].locked then Lock(true, s.pcb[s.current].pid)
    else if e == Release(l) || (e.CondWait? && e.lock == l)
      || (e.Kill? && Owns(s, Scan(s, e.pid), l)) || (e.Exit? && Owns(s, s.current, l)) then Lock(false, -1)
    else s.locks[l]
  }

  function CondLater(s: State, e: Event, c: int): int
    requires 0 <= c < |s.conds|
  {
    if e.CondWait? && e.cond == c then s.conds[c] + 1
    else if e == Signal(c) && s.conds[c] > 0 then s.conds[c] - 1
    else if e == Broadcast(c) && s.conds[c] > 0 then 0
    else s.conds[c]
  }

  function SemLater(s: State, e: Event, x: int): int
    requires 0 <= x < |s.sems|
  {
    if e == SemUp(x) then s.sems[x] + 1 else if e == SemDown(x) then s.sems[x] - 1 else s.sems[x]
  }

  function BarrierLater(s: State, e: Event, b: int): Barrier
    requires 0 <= b < |s.barriers|
  {
    var bar := s.barriers[b];
    if e != BarrierWait(b) then bar
    else if bar.now + 1 == bar.goal then Barrier(bar.goal, 0)
    else Barrier(bar.goal, bar.now + 1)
  }

  ghost predicate ObjectsLater(s: State, e: Event, t: State)
    requires Callable(s, e)
  {
    && SameSizes(s, t)
    && t.nextPid == (if e.Spawn? then s.nextPid + 1 else s.nextPid)
    && t.time == (if e.Advance? then s.time + e.ticks else s.time)
    && (forall l | LockRange(s, l) :: t.locks[l] == LockLater(s, e, l))
    && (forall c | 0 <= c < |s.conds| :: t.conds[c] == CondLater(s, e, c))
    && (forall x | 0 <= x < |s.sems| :: t.sems[x] == SemLater(s, e, x))
    && (forall b | 0 <= b < |s.barriers| :: t.barriers[b] == BarrierLater(s, e, b))
  }

  ghost predicate Settles(s: State, e: Event, t: State)
    requires Callable(s, e)
  {
    ObjectsLater(s, e, t) && forall i: Slot :: Of(t.pcb[i]) == AttributesLater(s, e, i)
  }

  lemma WakingKeeps(s: State, t: State, id: QueueId)
    requires Drained(s, t, id)
    ensures forall i: Slot :: Of(t.pcb[i]) == Of(s.pcb[i])
  {
  }

  lemma DeathFields(s: State, e: Event, u: State, i: Slot)
    requires Callable(s, e) && (e.Kill? || e.Exit?) && i == (if e.Kill? then Scan(s, e.pid) else s.current)
    requires Deceased(s, u, i)
    ensures Settles(s, e, u)
  {
    hide Heirs, Scan;
    forall k: Slot
      ensures Of(u.pcb[k]) == AttributesLater(s, e, k)
    {
      assert ProcAfter(s, u, i, k);
    }
    forall l | LockRange(s, l)
      ensures u.locks[l] == LockLater(s, e, l)
    {
      assert LockAfter(s, u, i, l);
    }
  }

  lemma ReleaseFields(a: State, u: State, l: int)
    requires LockRange(a, l) && Scan(a, a.locks[l].owner) < NUM_MAX_TASK && Released(a, u, l)
    ensures forall i: Slot :: Of(u.pcb[i]) == WhenFreed(a, Of(a.pcb[i]), i, l)
    ensures u == a.(pcb := u.pcb, queue := u.queue, locks := a.locks[l := Lock(false, -1)])
  {
    WakingKeeps(Disown(a, l), u.(locks := a.locks), LockQ(l));
  }

  lemma CondWaitSettles(s: State, a: State, u: State, l: int, c: int)
    requires Callable(s, CondWait(l, c))
    requires a.locks == s.locks && a.sems == s.sems && a.barriers == s.barriers && a.nextPid == s.nextPid
      && a.time == s.time
    requires a.conds == s.conds[c := s.conds[c] + 1] && Scan(a, s.locks[l].owner) == Scan(s, s.locks[l].owner)
    requires forall i: Slot ::
      Of(a.pcb[i]) == if i == s.current then Of(s.pcb[i]).(cont := Acquiring(l)) else Of(s.pcb[i])
    requires forall i: Slot :: Of(u.pcb[i]) == WhenFreed(a, Of(a.pcb[i]), i, l)
    requires u == a.(pcb := u.pcb, queue := u.queue, locks := a.locks[l := Lock(false, -1)])
    ensures Settles(s, CondWait(l, c), u)
  {
    hide Of, Scan;
  }

  lemma QueuedFields(s: State, l: int, c: int)
    requires 0 <= c < |s.conds|
    ensures var a := QueuedOnCond(s, l, c);
      && a.locks == s.locks && a.sems == s.sems && a.barriers == s.barriers && a.nextPid == s.nextPid
      && a.time == s.time
      && a.conds == s.conds[c := s.conds[c] + 1] && (forall pid :: Scan(a, pid) == Scan(s, pid))
      && forall i: Slot ::
        Of(a.pcb[i]) == if i == s.current then Of(s.pcb[i]).(cont := Acquiring(l)) else Of(s.pcb[i])
  {
    var a := QueuedOnCond(s, l, c);
    assert forall i: Slot :: a.pcb[i].pid == s.pcb[i].pid;
    forall pid
      ensures Scan(a, pid) == Scan(s, pid)
    {
      ScanFrame(s, a, pid);
    }
  }

  lemma CondWaitFields(s: State, l: int, c: int)
    requires Inv(s) && Enabled(s, CondWait(l, c))
    ensures Settles(s, CondWait(l, c), Before(s, CondWait(l, c)))
  {
    var a := QueuedOnCond(s, l, c);
    QueuedInside(s, l, c);
    assert LockOk(a, l);
    assert Before(s, CondWait(l, c)) == ReleaseLock(a, l);
    hide ReleaseLock, Inv, QueuedOnCond, Sync, Settles, Released, Struct;
    QueuedFields(s, l, c);
    ReleaseEffect(a, l);
    ReleaseFields(a, ReleaseLock(a, l), l);
    CondWaitSettles(s, a, ReleaseLock(a, l), l, c);
  }

  lemma WakingOneKeeps(s: State, id: QueueId)
    requires Items(s, id) != []
    ensures var t := UnblockOne(s, id);
      && t == s.(pcb := t.pcb, queue := t.queue) && forall i: Slot :: Of(t.pcb[i]) == Of(s.pcb[i])
  {
  }

  /** A step that touches counters only, apart from waking and blocking. */
  lemma CountersSettle(s: State, e: Event, u: State)
    requires Callable(s, e) && (e.Signal? || e.Broadcast? || e.SemUp? || e.SemDown? || e.BarrierWait?)
    requires forall i: Slot :: Of(u.pcb[i]) == Of(s.pcb[i])
    requires u == s.(pcb := u.pcb, queue := u.queue, conds := u.conds, sems := u.sems, barriers := u.barriers)
    requires SameSizes(s, u)
    requires forall c | 0 <= c < |s.conds| :: u.conds[c] == CondLater(s, e, c)
    requires forall x | 0 <= x < |s.sems| :: u.sems[x] == SemLater(s, e, x)
    requires forall b | 0 <= b < |s.barriers| :: u.barriers[b] == BarrierLater(s, e, b)
    ensures Settles(s, e, u)
  {
    hide Of, CondLater, SemLater, BarrierLater, SameSizes;
  }

  lemma SignalFields(s: State, c: int)
    requires Callable(s, Signal(c))
    ensures Settles(s, Signal(c), Before(s, Signal(c)))
  {
    if s.conds[c] > 0 {
      WakingOneKeeps(s, CondQ(c));
    }
    hide Settles, UnblockOne, Of;
    CountersSettle(s, Signal(c), Before(s, Signal(c)));
  }

  lemma BroadcastFields(s: State, c: int)
    requires Struct(s) && Callable(s, Broadcast(c))
    ensures Settles(s, Broadcast(c), Before(s, Broadcast(c)))
  {
    hide UnblockAll;
    UnblockAllEffect(s, CondQ(c));
    WakingKeeps(s, UnblockAll(s, CondQ(c)), CondQ(c));
    hide Settles, Struct, Of;
    CountersSettle(s, Broadcast(c), Before(s, Broadcast(c)));
  }

  lemma BlockKeepsOf(s: State, id: QueueId)
    ensures var t := Block(s, id);
      && t == s.(pcb := t.pcb, queue := t.queue) && forall i: Slot :: Of(t.pcb[i]) == Of(s.pcb[i])
  {
  }

  lemma UpFields(s: State, x: int)
    requires Callable(s, SemUp(x))
    ensures Settles(s, SemUp(x), Before(s, SemUp(x)))
  {
    var r := s.(sems := s.sems[x := s.sems[x] + 1]);
    if r.sems[x] <= 0 {
      assert Items(r, SemQ(x)) == Items(s, SemQ(x));
      WakingOneKeeps(r, SemQ(x));
    }
    hide Settles, UnblockOne, Of;
    CountersSettle(s, SemUp(x), Before(s, SemUp(x)));
  }

  lemma DownFields(s: State, x: int)
    requires Callable(s, SemDown(x))
    ensures Settles(s, SemDown(x), Before(s, SemDown(x)))
  {
    var r := s.(sems := s.sems[x := s.sems[x] - 1]);
    BlockKeepsOf(r, SemQ(x));
    hide Settles, Block, Of;
    CountersSettle(s, SemDown(x), Before(s, SemDown(x)));
  }

  lemma ArriveFields(s: State, b: int)
    requires Struct(s) && Callable(s, BarrierWait(b))
    ensures Settles(s, BarrierWait(b), Before(s, BarrierWait(b)))
  {
    hide UnblockAll, Block;
    var a := Counted(s, b);
    SameLinksStruct(s, a);
    UnblockAllEffect(a, BarQ(b));
    WakingKeeps(a, UnblockAll(a, BarQ(b)), BarQ(b));
    BlockKeepsOf(a, BarQ(b));
    hide Settles, Struct, Of;
    CountersSettle(s, BarrierWait(b), Before(s, BarrierWait(b)));
  }

  lemma AcquireFields(s: State, l: int)
    requires Callable(s, Acquire(l))
    ensures Settles(s, Acquire(l), Before(s, Acquire(l)))
  {
  }

  lemma ReleaseSettles(s: State, u: State, l: int)
    requires Callable(s, Release(l))
    requires forall i: Slot :: Of(u.pcb[i]) == WhenFreed(s, Of(s.pcb[i]), i, l)
    requires u == s.(pcb := u.pcb, queue := u.queue, locks := s.locks[l := Lock(false, -1)])
    ensures Settles(s, Release(l), u)
  {
    hide Of, Scan;
  }

  lemma FreeingSettles(s: State, l: int)
    requires Inv(s) && Enabled(s, Release(l))
    ensures Settles(s, Release(l), Before(s, Release(l)))
  {
    assert LockOk(s, l);
    hide ReleaseLock, Settles, Released, Sync;
    ReleaseEffect(s, l);
    ReleaseFields(s, ReleaseLock(s, l), l);
    ReleaseSettles(s, ReleaseLock(s, l), l);
  }

  lemma LockFields(s: State, e: Event)
    requires Inv(s) && Enabled(s, e) && (e.Acquire? || e.Release? || e.CondWait? || e.Signal? || e.Broadcast?)
    ensures Settles(s, e, Before(s, e))
  {
    hide Before, Settles;
    match e
    case Acquire(l) => AcquireFields(s, l);
    case Release(l) => FreeingSettles(s, l);
    case CondWait(l, c) => CondWaitFields(s, l, c);
    case Signal(c) => SignalFields(s, c);
    case Broadcast(c) => BroadcastFields(s, c);
  }

  lemma SyncFields(s: State, e: Event)
    requires Inv(s) && Enabled(s, e) && (e.SemUp? || e.SemDown? || e.BarrierWait?)
    ensures Settles(s, e, Before(s, e))
  {
    hide Before, Settles;
    match e
    case SemUp(x) => UpFields(s, x);
    case SemDown(x) => DownFields(s, x);
    case BarrierWait(b) => ArriveFields(s, b);
  }

  lemma SleepFields(s: State, n: nat)
    ensures Settles(s, Event.Sleep(n), Before(s, Event.Sleep(n)))
  {
  }

  lemma SpawnFields(s: State)
    requires Callable(s, Spawn)
    ensures Settles(s, Spawn, Before(s, Spawn))
  {
    hide FreeSlot;
  }

  lemma WaitFields(s: State, pid: int)
    requires Callable(s, Wait(pid))
    ensures Settles(s, Wait(pid), Before(s, Wait(pid)))
  {
    hide Scan;
  }

  lemma PlainFields(s: State, e: Event)
    requires Callable(s, e) && (e.Tick? || e.Advance? || e.Sleep? || e.Spawn? || e.Wait?)
    ensures Settles(s, e, Before(s, e))
  {
    if e.Sleep? {
      SleepFields(s, e.seconds);
    } else if e.Spawn? {
      SpawnFields(s);
    } else if e.Wait? {
      WaitFields(s, e.pid);
    }
  }

  lemma BeforeFields(s: State, e: Event)
    requires Inv(s) && Enabled(s, e)
    ensures Settles(s, e, Before(s, e))
  {
    if e.Kill? {
      KillEffect(s, e.pid);
      DeathFields(s, e, Before(s, e), Scan(s, e.pid));
    } else if e.Exit? {
      ExitEffect(s);
      DeathFields(s, e, Before(s, e), s.current);
    } else if e.Acquire? || e.Release? || e.CondWait? || e.Signal? || e.Broadcast? {
      LockFields(s, e);
    } else if e.SemUp? || e.SemDown? || e.BarrierWait? {
      SyncFields(s, e);
    } else {
      PlainFields(s, e);
    }
  }

  lemma PassKeepsFields(u: State)
    requires Mid(u) && ShellReady(u)
    ensures CanSchedule(u)
    ensures var t := Schedule(u);
      && t.nextPid == u.nextPid && t.time == u.time && t.locks == u.locks && t.conds == u.conds && t.sems == u.sems
      && t.barriers == u.barriers && forall i: Slot :: Of(t.pcb[i]) == Of(u.pcb[i])
  {
    ScheduleSettles(u);
    ScheduleKeeps(u);
    hide Schedule, CanSchedule, Mid, ShellReady, Settled;
  }

  /** Scheduling changes none of this. */
  lemma ScheduleSettled(s: State, e: Event, u: State)
    requires Callable(s, e) && Settles(s, e, u) && Mid(u) && ShellReady(u)
    ensures CanSchedule(u) && Settles(s, e, Schedule(u))
  {
    PassKeepsFields(u);
    hide Schedule, CanSchedule, Mid, ShellReady, AttributesLater, LockLater, CondLater, SemLater, BarrierLater, Of;
  }

  /** What every step does to the attributes of every process, to every mutex and to every counter. */
  lemma StepFields(s: State, e: Event)
    requires Inv(s) && Enabled(s, e)
    ensures Possible(s, e) && Settles(s, e, Step(s, e))
  {
    StepKeepsInv(s, e);
    BeforeInv(s, e);
    BeforeFields(s, e);
    hide Inv, Enabled, Before, Settles, Mid, ShellReady, Schedule, CanSchedule, Sync;
    if Reschedules(s, e) {
      ScheduleSettled(s, e, Before(s, e));
    }
  }
}
