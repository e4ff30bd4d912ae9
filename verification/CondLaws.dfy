/** Conditions: no wake-up is lost, and a wait ends with the mutex in hand. Mutexes: nobody loses one it holds. */
module CondLaws {
  import opened Basics
  import opened KernelModel
  import opened Placement
  import opened KernelSteps
  import opened KernelInvariant
  import opened Preserve
  import opened StepInv
  import opened LifeInv
  import opened Death
  import opened Legacy
  import opened Runs
  import opened Objects
  import opened Frame
  import opened Effects

  predicate HasCond(s: State, c: int) {
    0 <= c < |s.conds|
  }

  predicate IsFree(s: State, l: int) {
    LockRange(s, l) && s.locks[l] == Lock(false, -1)
  }

  predicate IsHeldBy(s: State, l: int, i: Slot) {
    LockRange(s, l) && s.locks[l] == Lock(true, s.pcb[i].pid) && Owns(s, i, l)
  }

  /** The queue of a condition after a step: a waiter joins at the end, a signal takes the first, a broadcast takes all,
      nothing else touches it. */
  function CondQueueAfter(s: State, e: Event, c: int): seq<Slot> {
    var q := Items(s, CondQ(c));
    if e.CondWait? && e.cond == c then q + [s.current]
    else if e == Signal(c) && q != [] then q[1..]
    else if e == Broadcast(c) then []
    else q
  }

  lemma CondWaitQueue(s: State, l: int, c: int)
    requires Inv(s) && Enabled(s, CondWait(l, c))
    ensures Items(AwaitCond(s, l, c), CondQ(c)) == Items(s, CondQ(c)) + [s.current]
  {
    QueuedCanRelease(s, l, c);
    ReleasesLast(s, l, c);
    assert Items(QueuedOnCond(s, l, c), CondQ(c)) == Items(s, CondQ(c)) + [s.current];
    hide Inv, Struct, ReleaseLock, QueuedOnCond, AwaitCond, Scan, Items;
    ReleaseQueues(QueuedOnCond(s, l, c), l, CondQ(c));
  }

  lemma WakeQueue(s: State, e: Event, c: int)
    requires Inv(s) && Enabled(s, e) && (e == Signal(c) || e == Broadcast(c))
    ensures Items(Before(s, e), CondQ(c)) == CondQueueAfter(s, e, c)
  {
    assert CountOk(s, CondQ(c));
    if e == Signal(c) {
      if s.conds[c] > 0 {
        WakeEffect(s, Items(s, CondQ(c))[0], CondQ(c), 0);
      }
    } else {
      UnblockAllEffect(s, CondQ(c));
    }
  }

  lemma CondCount(s: State, c: int)
    requires Inv(s) && HasCond(s, c)
    ensures s.conds[c] == |Items(s, CondQ(c))|
  {
    assert CountOk(s, CondQ(c));
  }

  /** In every step the queue of a condition moves by its own operations only, and the counter is its length. */
  lemma CondStep(s: State, e: Event, c: int)
    requires Inv(s) && Enabled(s, e) && HasCond(s, c)
    ensures Possible(s, e) && Items(Step(s, e), CondQ(c)) == CondQueueAfter(s, e, c)
    ensures HasCond(Step(s, e), c) && Step(s, e).conds[c] == |Items(Step(s, e), CondQ(c))|
  {
    hide Sync, Settled, Struct, AwaitCond, Schedule;
    StepKeepsInv(s, e);
    StepFramed(s, e);
    CondCount(Step(s, e), c);
    if e.CondWait? && e.cond == c {
      CondWaitQueue(s, e.lock, c);
      ScheduleQueues(s, e, CondQ(c));
    } else if e == Signal(c) || e == Broadcast(c) {
      WakeQueue(s, e, c);
    } else {
      StepQueues(s, e, CondQ(c));
    }
  }

  lemma FreeingFrees(t: State, l: int)
    requires Struct(t) && LockRange(t, l) && Scan(t, t.locks[l].owner) < NUM_MAX_TASK
    ensures IsFree(ReleaseLock(t, l), l)
  {
    hide ReleaseLock;
    ReleaseEffect(t, l);
    ReleasedFrees(t, ReleaseLock(t, l), l);
  }

  lemma CondFreesLock(s: State, l: int, c: int)
    requires Inv(s) && Enabled(s, CondWait(l, c))
    ensures var t := AwaitCond(s, l, c);
      IsFree(t, l) && t.pcb[s.current].cont == Acquiring(l)
  {
    var t := QueuedOnCond(s, l, c);
    QueuedCanRelease(s, l, c);
    hide Inv, ReleaseLock, QueuedOnCond, LockOk, Struct, Enabled, Callable;
    FreeingFrees(t, l);
    ReleaseKeeps(t, l);
    assert AwaitCond(s, l, c) == ReleaseLock(t, l) by {
      ReleasesLast(s, l, c);
    }
  }

  /** The waiter is queued in the same step that frees the mutex, so whoever gets the mutex afterwards and signals
      finds it in the queue. */
  lemma WaiterIsQueued(s: State, l: int, c: int)
    requires Inv(s) && Enabled(s, CondWait(l, c))
    ensures Possible(s, CondWait(l, c))
    ensures var t := Step(s, CondWait(l, c));
      && Items(t, CondQ(c)) == Items(s, CondQ(c)) + [s.current]
      && IsFree(t, l) && t.pcb[s.current].cont == Acquiring(l)
  {
    hide Inv, AwaitCond, Schedule;
    CondStep(s, CondWait(l, c), c);
    ReadyToSchedule(s, CondWait(l, c));
    CondFreesLock(s, l, c);
    ScheduleKeeps(Before(s, CondWait(l, c)));
    ScheduleQueues(s, CondWait(l, c), CondQ(c));
  }

  /** The first of those who wait there is ready at the end of the first ready queue, and the others wait on. */
  ghost predicate WakesFirst(s: State, t: State, c: int) {
    var queue := Items(s, CondQ(c));
    if queue == [] then t == s
    else
      && Items(t, ReadyQ(1)) == Items(s, ReadyQ(1)) + [queue[0]] && Items(t, CondQ(c)) == queue[1..]
      && t.pcb[queue[0]].status == Ready && t.pcb[queue[0]].priority == 1 && t.current == s.current
      && forall q | q != ReadyQ(1) && q != CondQ(c) :: Items(t, q) == Items(s, q)
  }

  /** The signal that finds somebody waiting makes the first of them ready at the highest priority, and does nothing
      else; a signal that finds nobody does nothing. */
  lemma SignalWakesFirst(s: State, c: int)
    requires Inv(s) && Enabled(s, Signal(c))
    ensures Possible(s, Signal(c)) && WakesFirst(s, Step(s, Signal(c)), c)
  {
    assert CountOk(s, CondQ(c));
    if Items(s, CondQ(c)) != [] {
      WakeEffect(s, Items(s, CondQ(c))[0], CondQ(c), 0);
    }
  }

  // ---------- conditions over runs ----------

  function Joining(s: State, e: Event, c: int): seq<Slot> {
    if e.CondWait? && e.cond == c then [s.current] else []
  }

  /** Who is woken by a signal or a broadcast: those who stand at the end of the first ready queue after it and did not
      before. */
  function WokenBy(s: State, e: Event, c: int): seq<Slot>
    requires Possible(s, e)
  {
    var before, after := Items(s, ReadyQ(1)), Items(Step(s, e), ReadyQ(1));
    if (e == Signal(c) || e == Broadcast(c)) && |before| <= |after| then after[|before|..] else []
  }

  /** Everybody who has waited on the condition, in order. */
  function AllWaited(s: State, run: seq<Event>, c: int): seq<Slot>
    requires Legal(s, run)
  {
    if run == [] then []
    else AllWaited(s, run[..|run| - 1], c) + Joining(Exec(s, run[..|run| - 1]), run[|run| - 1], c)
  }

  /** Everybody whom a signal or a broadcast has woken, in order. */
  function AllWoken(s: State, run: seq<Event>, c: int): seq<Slot>
    requires Legal(s, run)
  {
    if run == [] then []
    else AllWoken(s, run[..|run| - 1], c) + WokenBy(Exec(s, run[..|run| - 1]), run[|run| - 1], c)
  }

  lemma WokenLine(s: State, e: Event, c: int)
    requires Callable(s, e) && (e == Signal(c) || e == Broadcast(c))
    ensures var woken := if e.Signal? then First(Items(s, CondQ(c))) else Items(s, CondQ(c));
      FateOf(s, e) == RunsOn && LaterQueue(s, e, ReadyQ(1)) == Items(s, ReadyQ(1)) + woken
  {
    LaterIs(s, e, ReadyQ(1), Items(s, ReadyQ(1)), Readied(s, e));
  }

  lemma WokenIsNew(s: State, e: Event, c: int)
    requires Possible(s, e) && (e == Signal(c) || e == Broadcast(c))
    requires var woken := if e.Signal? then First(Items(s, CondQ(c))) else Items(s, CondQ(c));
      Items(Step(s, e), ReadyQ(1)) == Items(s, ReadyQ(1)) + woken
    ensures var woken := if e.Signal? then First(Items(s, CondQ(c))) else Items(s, CondQ(c));
      WokenBy(s, e, c) == woken && Items(s, CondQ(c)) == woken + CondQueueAfter(s, e, c)
  {
    hide Possible, Step, Items;
    var woken, q := if e.Signal? then First(Items(s, CondQ(c))) else Items(s, CondQ(c)), Items(s, ReadyQ(1));
    assert (q + woken)[|q|..] == woken;
  }

  /** A signal and a broadcast put whom they wake at the end of the first ready queue, in order. */
  lemma WakingJoins(s: State, e: Event, c: int)
    requires Inv(s) && Enabled(s, e) && (e == Signal(c) || e == Broadcast(c))
    ensures Possible(s, e)
    ensures var woken, q := if e.Signal? then First(Items(s, CondQ(c))) else Items(s, CondQ(c)), Items(s, ReadyQ(1));
      && Items(Step(s, e), ReadyQ(1)) == q + woken && WokenBy(s, e, c) == woken
      && Items(s, CondQ(c)) == woken + CondQueueAfter(s, e, c)
  {
    hide Inv, Possible, Step, LaterQueue, Items, FateOf, Callable;
    WokenLine(s, e, c);
    StepRunsOn(s, e);
    WokenIsNew(s, e, c);
  }

  lemma OneWoken(s: State, e: Event, c: int)
    requires Inv(s) && Enabled(s, e) && HasCond(s, c)
    ensures Possible(s, e)
    ensures Items(s, CondQ(c)) + Joining(s, e, c) == WokenBy(s, e, c) + CondQueueAfter(s, e, c)
  {
    hide Inv, Enabled, Possible, Step, Items;
    StepKeepsInv(s, e);
    if e == Signal(c) || e == Broadcast(c) {
      WakingJoins(s, e, c);
      assert Items(s, CondQ(c)) + [] == Items(s, CondQ(c));
    } else {
      assert [] + CondQueueAfter(s, e, c) == CondQueueAfter(s, e, c);
      assert Items(s, CondQ(c)) + [] == Items(s, CondQ(c));
    }
  }

  /** Over every run waiters are woken in the order they came, each once per wait, and the counter is the number of
      those who have not been. */
  lemma {:induction false} ConditionLaw(s: State, run: seq<Event>, c: int)
    requires Inv(s) && Legal(s, run) && HasCond(s, c) && Items(s, CondQ(c)) == []
    ensures HasCond(Exec(s, run), c)
    ensures AllWaited(s, run, c) == AllWoken(s, run, c) + Items(Exec(s, run), CondQ(c))
    ensures Exec(s, run).conds[c] == |AllWaited(s, run, c)| - |AllWoken(s, run, c)|
  {
    hide Inv, Step, Enabled, Possible, WokenBy, Joining, Items, CondQueueAfter;
    if run == [] {
      CondCount(s, c);
    } else {
      var earlier, e := run[..|run| - 1], run[|run| - 1];
      ConditionLaw(s, earlier, c);
      RunKeepsInv(s, earlier);
      var u := Exec(s, earlier);
      CondStep(u, e, c);
      OneWoken(u, e, c);
      PassThrough(AllWaited(s, earlier, c), AllWoken(s, earlier, c), Items(u, CondQ(c)),
                  Joining(u, e, c), WokenBy(u, e, c), Items(Step(u, e), CondQ(c)));
    }
  }

  // ---------- coming back ----------

  lemma TakenIsOwned(s: State, l: int)
    requires LockRange(s, l) && FreeEntry(s.pcb[s.current].owned) < MAX_MUTEX_OWN
    ensures Owns(Take(s, l), s.current, l)
  {
    assert Take(s, l).pcb[s.current].owned[FreeEntry(s.pcb[s.current].owned)] == Some(l);
  }

  lemma AcquireRound(s: State, l: int)
    requires Possible(s, Acquire(l))
    ensures var t, i := Step(s, Acquire(l)), s.current;
      t.pcb[i].cont == Acquiring(l) || IsHeldBy(t, l, i)
  {
    hide Schedule;
    if s.locks[l].locked {
      ScheduleKeeps(Before(s, Acquire(l)));
    } else {
      TakenIsOwned(s, l);
    }
  }

  /** A living process on its way to a mutex stays on its way until the step in which it gets it. */
  lemma AcquiringEndsOwning(s: State, e: Event, i: Slot, l: int)
    requires Inv(s) && Enabled(s, e) && Alive(s, i) && 0 < i && s.pcb[i].cont == Acquiring(l)
    ensures Possible(s, e)
    ensures var t := Step(s, e);
      || t.pcb[i].cont == Acquiring(l)
      || (i == s.current && e == Acquire(l) && IsHeldBy(t, l, i))
  {
    hide Inv, Step, Before;
    StepKeepsInv(s, e);
    StepFramed(s, e);
    if i == s.current && e == Acquire(l) {
      AcquireRound(s, l);
    }
  }

  // ---------- keeping a mutex ----------

  /** The steps that take a mutex away from process i. */
  predicate TakesAway(s: State, e: Event, i: Slot, l: int) {
    || e == Release(l)
    || (e.CondWait? && e.lock == l)
    || (e.Kill? && Scan(s, e.pid) == i)
    || (e.Exit? && s.current == i)
  }

  lemma ReleaseKeepsOwner(s: State, m: int, i: Slot, l: int)
    requires Struct(s) && LockRange(s, m) && Scan(s, s.locks[m].owner) < NUM_MAX_TASK && m != l && Owns(s, i, l)
    ensures Owns(ReleaseLock(s, m), i, l)
  {
    ReleaseEffect(s, m);
    ReleasedFrees(s, ReleaseLock(s, m), m);
    DropOwns(s.pcb[i].owned, m);
  }

  lemma DeathKeepsOwner(s: State, d: Slot, i: Slot, l: int)
    requires Inv(s) && 2 <= d && Killable(s, d) && i != d && Owns(s, i, l)
    ensures Owns(Die(Unqueue(s, d), d), i, l)
  {
    hide Inv, Die, Unqueue;
    DieEffect(s, d);
    assert ProcAfter(s, Die(Unqueue(s, d), d), d, i);
  }

  lemma ExitKeepsOwner(s: State, i: Slot, l: int)
    requires Inv(s) && Enabled(s, Exit) && i != s.current && Owns(s, i, l)
    ensures Owns(Die(s, s.current), i, l)
  {
    assert Unqueue(s, s.current) == s;
    hide Inv, Die;
    DeathKeepsOwner(s, s.current, i, l);
  }

  lemma QueuedOwns(s: State, m: int, c: int, i: Slot, l: int)
    requires Callable(s, CondWait(m, c)) && Owns(s, i, l)
    ensures var t := QueuedOnCond(s, m, c);
      t.locks == s.locks && Owns(t, i, l) && Before(s, CondWait(m, c)) == ReleaseLock(t, m)
  {
    hide ReleaseLock;
  }

  lemma QueuedKeeps(s: State, m: int, c: int, i: Slot, l: int)
    requires Callable(s, CondWait(m, c)) && Inside(QueuedOnCond(s, m, c), 0) && Owns(s, i, l)
    ensures var t := QueuedOnCond(s, m, c);
      && Struct(t) && LockRange(t, m) && Scan(t, t.locks[m].owner) < NUM_MAX_TASK && Owns(t, i, l)
      && Before(s, CondWait(m, c)) == ReleaseLock(t, m)
  {
    QueuedOwns(s, m, c, i, l);
    hide ReleaseLock, QueuedOnCond, Struct, OthersPlaced, PidsOk, OwnerOk, Reasons, Counts, Scan, Owns;
    assert LockOk(QueuedOnCond(s, m, c), m);
  }

  lemma ReleasesKeepOwner(s: State, e: Event, i: Slot, l: int)
    requires Inv(s) && Enabled(s, e) && Owns(s, i, l) && (e.Release? || e.CondWait?) && e.lock != l
    ensures Owns(Before(s, e), i, l)
  {
    if e.CondWait? {
      QueuedInside(s, e.lock, e.cond);
      QueuedKeeps(s, e.lock, e.cond, i, l);
      hide ReleaseLock, QueuedOnCond, Inv;
      ReleaseKeepsOwner(QueuedOnCond(s, e.lock, e.cond), e.lock, i, l);
    } else {
      assert LockOk(s, e.lock);
      hide ReleaseLock;
      ReleaseKeepsOwner(s, e.lock, i, l);
    }
  }

  lemma TakeKeepsOwner(s: State, m: int, i: Slot, l: int)
    requires LockRange(s, m) && FreeEntry(s.pcb[s.current].owned) < MAX_MUTEX_OWN && Owns(s, i, l)
    ensures Owns(Take(s, m), i, l)
  {
    var j :| 0 <= j < MAX_MUTEX_OWN && s.pcb[i].owned[j] == Some(l);
    assert Take(s, m).pcb[i].owned[j] == Some(l);
  }

  lemma CallerKeepsOwner(s: State, e: Event, i: Slot, l: int)
    requires Callable(s, e) && Owns(s, i, l) && Alive(s, i)
    requires e.Tick? || e.Advance? || e.Sleep? || e.Spawn? || e.Wait? || e.SemDown?
      || (e.Acquire? && s.locks[e.lock].locked)
    ensures Before(s, e).pcb[i].owned == s.pcb[i].owned
  {
  }

  lemma {:induction false} UnblockAllOwned(s: State, id: QueueId, i: Slot)
    requires id != ReadyQ(1)
    ensures UnblockAll(s, id).pcb[i].owned == s.pcb[i].owned
    decreases |Items(s, id)|
  {
    if Items(s, id) == [] {
    } else {
      UnblockAllOwned(UnblockOne(s, id), id, i);
    }
  }

  lemma WakersKeepOwner(s: State, e: Event, i: Slot)
    requires Callable(s, e) && (e.Signal? || e.Broadcast? || e.SemUp? || e.BarrierWait?)
    ensures Before(s, e).pcb[i].owned == s.pcb[i].owned
  {
    match e
    case Broadcast(c) => UnblockAllOwned(s, CondQ(c), i);
    case BarrierWait(b) => UnblockAllOwned(Counted(s, b), BarQ(b), i);
    case _ =>
  }

  lemma OwnersLive(s: State, i: Slot, l: int)
    requires Inv(s) && Owns(s, i, l)
    ensures Alive(s, i) && 2 <= i && LockRange(s, l) && s.locks[l] == Lock(true, s.pcb[i].pid)
  {
    assert OwnerOk(s, 0, i) && LockOk(s, l);
  }

  lemma BeforeKeepsOwner(s: State, e: Event, i: Slot, l: int)
    requires Inv(s) && Enabled(s, e) && Owns(s, i, l) && !TakesAway(s, e, i, l)
    ensures Owns(Before(s, e), i, l)
  {
    OwnersLive(s, i, l);
    hide Inv, Die, Unqueue, ReleaseLock, AwaitCond, Arrive, UnblockAll, UnblockOne;
    match e
    case Kill(pid) => DeathKeepsOwner(s, Scan(s, pid), i, l);
    case Exit => ExitKeepsOwner(s, i, l);
    case CondWait(_, _) => ReleasesKeepOwner(s, e, i, l);
    case Release(_) => ReleasesKeepOwner(s, e, i, l);
    case Acquire(m) =>
      if s.locks[m].locked {
        CallerKeepsOwner(s, e, i, l);
      } else {
        TakeKeepsOwner(s, m, i, l);
      }
    case Signal(_) => WakersKeepOwner(s, e, i);
    case Broadcast(_) => WakersKeepOwner(s, e, i);
    case SemUp(_) => WakersKeepOwner(s, e, i);
    case BarrierWait(_) => WakersKeepOwner(s, e, i);
    case _ => CallerKeepsOwner(s, e, i, l);
  }

  /** A process that holds a mutex keeps it until it, or somebody for it, releases it, waits on a condition with it, or
      the process dies. */
  lemma OwnerKeeps(s: State, e: Event, i: Slot, l: int)
    requires Inv(s) && Enabled(s, e) && Owns(s, i, l) && !TakesAway(s, e, i, l)
    ensures Possible(s, e) && Owns(Step(s, e), i, l)
  {
    hide Inv, Before, Schedule, Enabled;
    StepKeepsInv(s, e);
    BeforeKeepsOwner(s, e, i, l);
    if Reschedules(s, e) {
      ScheduleQueues(s, e, LockQ(l));
    }
  }
}
