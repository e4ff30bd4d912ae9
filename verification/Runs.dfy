/** The invariant over all runs, and what it means. */
module Runs {
  import opened KernelModel
  import opened Placement
  import opened KernelSteps
  import opened KernelInvariant
  import opened Preserve
  import opened StepInv
  import opened LifeInv
  import opened Death

  /** If the step ends in the scheduler, it calls it in a good state; otherwise it leaves a good state. */
  ghost predicate Good(s: State, e: Event)
    requires Callable(s, e)
  {
    if Reschedules(s, e) then Inside(Before(s, e), 0) else Inv(Before(s, e))
  }

  lemma AcquireGood(s: State, l: int)
    requires Inv(s) && Enabled(s, Acquire(l))
    ensures Good(s, Acquire(l))
  {
    if s.locks[l].locked {
      AwaitLockInv(s, l);
    } else {
      TakeInv(s, l);
    }
  }

  lemma BarrierGood(s: State, b: int)
    requires Inv(s) && Enabled(s, BarrierWait(b))
    ensures Good(s, BarrierWait(b))
  {
    if s.barriers[b].now + 1 < s.barriers[b].goal {
      ArriveBlocks(s, b);
    } else if s.barriers[b].now + 1 == s.barriers[b].goal {
      ArriveOpens(s, b);
    } else {
      ArriveOver(s, b);
    }
  }

  lemma LifeGood(s: State, e: Event)
    requires Inv(s) && Enabled(s, e)
    requires e.Tick? || e.Advance? || e.Sleep? || e.Spawn? || e.Wait? || e.Kill? || e.Exit?
    ensures Good(s, e)
  {
    match e
    case Tick =>
    case Advance(d) => AdvanceInv(s, d);
    case Sleep(n) => SleepInv(s, n);
    case Spawn => SpawnInv(s);
    case Wait(pid) => WaitInv(s, pid);
    case Kill(pid) => KillInside(s, pid);
    case Exit => ExitInside(s);
  }

  lemma ObjectGood(s: State, e: Event)
    requires Inv(s) && Enabled(s, e)
    requires e.Release? || e.CondWait? || e.Signal? || e.Broadcast? || e.SemUp? || e.SemDown?
    ensures Good(s, e)
  {
    match e
    case Release(l) => ReleaseInv(s, l);
    case CondWait(l, c) => CondWaitInv(s, l, c);
    case Signal(c) => SignalInv(s, c);
    case Broadcast(c) => BroadcastInv(s, c);
    case SemUp(x) => UpInv(s, x);
    case SemDown(x) => DownInv(s, x);
  }

  lemma BeforeInv(s: State, e: Event)
    requires Inv(s) && Enabled(s, e)
    ensures Good(s, e)
  {
    if e.Acquire? {
      AcquireGood(s, e.lock);
    } else if e.BarrierWait? {
      BarrierGood(s, e.barrier);
    } else if e.Release? || e.CondWait? || e.Signal? || e.Broadcast? || e.SemUp? || e.SemDown? {
      ObjectGood(s, e);
    } else {
      LifeGood(s, e);
    }
  }

  /** Whatever an enabled step is, it can be done, in particular the scheduler finds a process to run, and it keeps
      the invariant. */
  lemma StepKeepsInv(s: State, e: Event)
    requires Inv(s) && Enabled(s, e)
    ensures Possible(s, e) && Inv(Step(s, e))
  {
    BeforeInv(s, e);
    if Reschedules(s, e) {
      ScheduleInv(Before(s, e));
    }
  }

  /** A step that ends in the scheduler calls it where it works. */
  lemma ReadyToSchedule(s: State, e: Event)
    requires Inv(s) && Enabled(s, e) && Reschedules(s, e)
    ensures Possible(s, e) && Mid(Before(s, e)) && CanSchedule(Before(s, e))
  {
    BeforeInv(s, e);
    StepKeepsInv(s, e);
  }

  /** Waiting for a process in the table can always be done, whether or not the process is alive. */
  lemma WaitIsPossible(s: State, pid: int)
    requires Inv(s) && Callable(s, Wait(pid)) && s.current != 1
    ensures Mid(WaitFor(s, pid)) && CanSchedule(WaitFor(s, pid)) && Possible(s, Wait(pid))
  {
    ParksMid(s, WaitFor(s, pid), WaitQ(Scan(s, pid)));
    ScheduleSettles(WaitFor(s, pid));
  }

  lemma {:induction false} RunKeepsInv(s: State, run: seq<Event>)
    requires Inv(s) && Legal(s, run)
    ensures Inv(Exec(s, run))
  {
    if run == [] {
    } else {
      RunKeepsInv(s, run[..|run| - 1]);
      StepKeepsInv(Exec(s, run[..|run| - 1]), run[|run| - 1]);
    }
  }

  // ---------- the first state ----------

  function ShellProc(): Proc {
    Proc(1, Ready, 3, 0, -1, None, NOTHING_OWNED, None, User)
  }

  function FreeLocks(n: nat): (r: seq<Lock>)
    ensures |r| == n
  {
    seq(n, _ => Lock(false, -1))
  }

  function NobodyWaiting(n: nat): (r: seq<int>)
    ensures |r| == n
  {
    seq(n, _ => 0)
  }

  function InitialSems(vals: seq<nat>): (r: seq<int>)
    ensures |r| == |vals|
  {
    seq(|vals|, x requires 0 <= x < |vals| => vals[x])
  }

  function NobodyArrived(goals: seq<int>): (r: seq<Barrier>)
    ensures |r| == |goals|
  {
    seq(|goals|, b requires 0 <= b < |goals| => Barrier(goals[b], 0))
  }

  /** The queues start-up makes; the memory of the others is zero, which is an empty queue too. */
  const BOOT_QUEUES: map<QueueId, seq<Slot>> :=
    map[ReadyQ(1) := [], ReadyQ(2) := [], ReadyQ(3) := [1], SleepQ := [], WaitQ(1) := []]

  /** The tables as start-up leaves them: the shell is ready at priority 3, the other slots are free. */
  function Boot(locks: nat, conds: nat, sems: seq<nat>, goals: seq<int>): State {
    State(
      [ZERO_PROC, ShellProc().(on := Some(ReadyQ(3)))] + seq(NUM_MAX_TASK - 2, _ => ZERO_PROC.(status := NotExist)),
      BOOT_QUEUES,
      0, 2, 0,
      FreeLocks(locks), NobodyWaiting(conds), InitialSems(sems), NobodyArrived(goals))
  }

  /** The first scheduler call, which leaves the boot context for good, establishes the invariant. */
  lemma BootInv(locks: nat, conds: nat, sems: seq<nat>, goals: seq<int>)
    ensures CanSchedule(Boot(locks, conds, sems, goals)) && Inv(Schedule(Boot(locks, conds, sems, goals)))
  {
    var s := Boot(locks, conds, sems, goals);
    forall q
      ensures QueueOk(s, q) && WaitersOk(s, 0, q) && CountOk(s, q)
    {
    }
    forall i: Slot
      ensures Linked(s, i) && FreeOk(s, i) && OwnerOk(s, 0, i)
    {
    }
    forall l | LockRange(s, l)
      ensures LockOk(s, l)
    {
    }
    ScheduleInv(s);
  }

  ghost predicate Reaches(boot: State, run: seq<Event>, s: State) {
    CanSchedule(boot) && Legal(Schedule(boot), run) && Exec(Schedule(boot), run) == s
  }

  /** The states the kernel can be in. */
  ghost predicate Reachable(s: State) {
    exists locks: nat, conds: nat, sems: seq<nat>, goals: seq<int>, run ::
      Reaches(Boot(locks, conds, sems, goals), run, s)
  }

  lemma ReachableBy(locks: nat, conds: nat, sems: seq<nat>, goals: seq<int>, run: seq<Event>, s: State)
    requires Reaches(Boot(locks, conds, sems, goals), run, s)
    ensures Reachable(s)
  {
  }

  lemma ReachableInv(s: State)
    requires Reachable(s)
    ensures Inv(s)
  {
    var locks: nat, conds: nat, sems: seq<nat>, goals: seq<int>, run :|
      Reaches(Boot(locks, conds, sems, goals), run, s);
    BootInv(locks, conds, sems, goals);
    RunKeepsInv(Schedule(Boot(locks, conds, sems, goals)), run);
  }

  // ---------- exactly one place ----------

  ghost predicate Nowhere(s: State, i: Slot) {
    forall q :: i !in Items(s, q)
  }

  /** In this queue once, and in no other. */
  ghost predicate OnlyIn(s: State, i: Slot, q: QueueId) {
    i in Items(s, q) && NoDup(Items(s, q)) && forall r | r != q :: i !in Items(s, r)
  }

  ghost predicate InOneWaitQueue(s: State, i: Slot) {
    exists q :: IsBlocking(q) && OnlyIn(s, i, q)
  }

  lemma PlaceOf(s: State, i: Slot)
    requires Struct(s)
    ensures s.pcb[i].on == None ==> Nowhere(s, i)
    ensures s.pcb[i].on.Some? ==> OnlyIn(s, i, s.pcb[i].on.value)
  {
    assert Linked(s, i);
    if s.pcb[i].on.Some? {
      assert QueueOk(s, s.pcb[i].on.value);
    }
    forall q
      ensures i in Items(s, q) ==> s.pcb[i].on == Some(q)
    {
      assert QueueOk(s, q);
    }
  }

  /** In every state of every run each process is in exactly the place its status names. */
  lemma ExactlyOnePlace(s: State, i: Slot)
    requires Reachable(s) && 0 < i
    ensures s.pcb[i].status == Running <==> i == s.current
    ensures s.pcb[i].status == Running ==> Nowhere(s, i)
    ensures s.pcb[i].status == Ready ==> 1 <= s.pcb[i].priority <= 3 && OnlyIn(s, i, ReadyQ(s.pcb[i].priority))
    ensures s.pcb[i].status == Sleeping ==> OnlyIn(s, i, SleepQ)
    ensures s.pcb[i].status == Blocked ==> InOneWaitQueue(s, i)
    ensures s.pcb[i].status == NotExist ==> Nowhere(s, i)
    ensures s.pcb[i].status != Exited
  {
    ReachableInv(s);
    PlaceOf(s, i);
  }

  // ---------- mutual exclusion ----------

  ghost predicate ListedOnce(owned: Owned, l: int) {
    exists j :: 0 <= j < MAX_MUTEX_OWN && owned[j] == Some(l)
      && forall k | 0 <= k < MAX_MUTEX_OWN && k != j :: owned[k] != Some(l)
  }

  /** This process, and no other, holds the mutex; it is alive, lists it once, and is what a search for the recorded
      owner finds. */
  ghost predicate SoleHolder(s: State, l: int, h: Slot)
    requires LockRange(s, l)
  {
    && Alive(s, h) && ListedOnce(s.pcb[h].owned, l) && Scan(s, s.locks[l].owner) == h
    && forall i: Slot | Owns(s, i, l) :: i == h
  }

  lemma ListsOnce(owned: Owned, l: int)
    requires Some(l) in owned
    requires forall j, k | 0 <= j < k < MAX_MUTEX_OWN && owned[j] == owned[k] :: owned[j] == None
    ensures ListedOnce(owned, l)
  {
    var j :| 0 <= j < MAX_MUTEX_OWN && owned[j] == Some(l);
    forall k | 0 <= k < MAX_MUTEX_OWN && k != j
      ensures owned[k] != Some(l)
    {
      assert j < k ==> !(owned[j] == owned[k]);
      assert k < j ==> !(owned[k] == owned[j]);
    }
  }

  lemma OwnerIsFound(s: State, l: int, i: Slot)
    requires PidsOk(s) && LockRange(s, l) && 2 <= i && Alive(s, i) && s.locks[l].owner == s.pcb[i].pid
    ensures Scan(s, s.locks[l].owner) == i
  {
  }

  lemma OwnedBy(s: State, l: int, i: Slot)
    requires Inv(s) && LockRange(s, l) && Owns(s, i, l)
    ensures s.locks[l].locked && Scan(s, s.locks[l].owner) == i && Alive(s, i) && ListedOnce(s.pcb[i].owned, l)
  {
    assert OwnerOk(s, 0, i) && LockOk(s, l);
    ListsOnce(s.pcb[i].owned, l);
    hide Inv, ListedOnce, Scan;
    OwnerIsFound(s, l, i);
  }

  /** In every state of every run: a locked mutex has a sole holder; a free mutex is held by nobody and nobody waits
      for it. */
  lemma MutexSafety(s: State, l: int)
    requires Reachable(s) && LockRange(s, l)
    ensures s.locks[l].locked ==> exists h: Slot :: SoleHolder(s, l, h)
    ensures !s.locks[l].locked ==>
      s.locks[l].owner == -1 && Items(s, LockQ(l)) == [] && forall i: Slot :: !Owns(s, i, l)
  {
    ReachableInv(s);
    assert LockOk(s, l);
    hide Inv, Reachable, ListedOnce;
    forall i: Slot | Owns(s, i, l)
      ensures s.locks[l].locked && Scan(s, s.locks[l].owner) == i
    {
      OwnedBy(s, l, i);
    }
    if s.locks[l].locked {
      var h: Slot := Scan(s, s.locks[l].owner);
      OwnedBy(s, l, h);
      assert SoleHolder(s, l, h);
    }
  }

  /** A signal that counts a waiter finds one. */
  lemma SignalIsAlwaysCallable(s: State, c: int)
    requires Reachable(s) && 0 <= c < |s.conds|
    ensures Callable(s, Signal(c))
  {
    ReachableInv(s);
    assert CountOk(s, CondQ(c));
  }

  /** An up of a semaphore that stops somebody finds somebody. */
  lemma UpIsAlwaysCallable(s: State, x: int)
    requires Reachable(s) && 0 <= x < |s.sems|
    ensures Callable(s, SemUp(x))
  {
    ReachableInv(s);
    assert CountOk(s, SemQ(x));
  }

  /** A process blocked on a mutex waits for one that somebody holds. */
  lemma NobodyIsStranded(s: State, i: Slot, l: int)
    requires Reachable(s) && i in Items(s, LockQ(l))
    ensures LockRange(s, l) && s.locks[l].locked && s.pcb[i].status == Blocked && s.pcb[i].lockWaiting == Some(l)
  {
    ReachableInv(s);
    assert WaitersOk(s, 0, LockQ(l));
    assert WaiterOk(s, 0, LockQ(l), i);
    assert LockOk(s, l);
    WaitersAreBlocked(s, LockQ(l), i);
  }
}
