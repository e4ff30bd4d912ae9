/** Sleeping: nobody is woken early, and nobody oversleeps a scheduler pass. */
module SleepLaws {
  import opened KernelModel
  import opened Placement
  import opened KernelSteps
  import opened KernelInvariant
  import opened Preserve
  import opened StepInv
  import opened LifeInv
  import opened Death
  import opened Legacy
  import opened Runs
  import opened Frame

  // ---------- sleepers ----------

  /** Asleep until the timer passes a. */
  predicate Dozing(s: State, i: Slot, a: int) {
    s.pcb[i].status == Sleeping && s.pcb[i].alarm == a
  }

  /** Sleepers keep status and alarm. */
  ghost predicate SleepersKept(s: State, t: State) {
    forall i: Slot, a | Dozing(s, i, a) :: Dozing(t, i, a)
  }

  lemma DrainSleepers(s: State, t: State, id: QueueId)
    requires Mid(s) && IsBlocking(id) && Drained(s, t, id)
    ensures SleepersKept(s, t)
  {
    forall i: Slot | s.pcb[i].status == Sleeping
      ensures t.pcb[i] == s.pcb[i]
    {
      if i in Items(s, id) {
        WaitersAreBlocked(s, id, i);
      }
    }
  }

  lemma HeirsAreBlocked(s: State, i: Slot, k: Slot)
    requires Inv(s) && k in Heirs(s, i)
    ensures s.pcb[k].status == Blocked
  {
    DelMembers(s, WaitQ(i), i);
    if k in Items(s, WaitQ(i)) {
      WaitersAreBlocked(s, WaitQ(i), k);
    } else {
      var x := s.(queue := map q | q in s.queue :: Del(s.queue[q], i));
      HeldHeirsAre(s, x, i, 0);
      LockHeirsMembers(x, s.pcb[i].owned, 0, k);
      var l :| ListedFrom(s.pcb[i].owned, 0, l) && k in Items(x, LockQ(l));
      DelMembers(s, LockQ(l), i);
      WaitersAreBlocked(s, LockQ(l), k);
    }
  }

  lemma DeathSleepers(s: State, i: Slot)
    requires Inv(s) && 2 <= i && Killable(s, i)
    ensures forall k: Slot, a | k != i && Dozing(s, k, a) :: Dozing(Die(Unqueue(s, i), i), k, a)
  {
    hide Inv, Die, Unqueue;
    DieEffect(s, i);
    forall k: Slot, a | k != i && Dozing(s, k, a)
      ensures Dozing(Die(Unqueue(s, i), i), k, a)
    {
      assert ProcAfter(s, Die(Unqueue(s, i), i), i, k);
      if k in Heirs(s, i) {
        HeirsAreBlocked(s, i, k);
      }
    }
  }

  lemma ReleaseSleepers(s: State, l: int)
    requires Mid(s) && LockRange(s, l) && Scan(s, s.locks[l].owner) < NUM_MAX_TASK
    ensures SleepersKept(s, ReleaseLock(s, l))
  {
    ReleaseEffect(s, l);
    ReleasedFrees(s, ReleaseLock(s, l), l);
    var t := ReleaseLock(s, l);
    forall i: Slot, a | Dozing(s, i, a)
      ensures Dozing(t, i, a)
    {
      if i in Items(s, LockQ(l)) {
        WaitersAreBlocked(s, LockQ(l), i);
      }
      ReleaseKeeps(s, l);
    }
  }

  lemma UnblockOneSleepers(s: State, id: QueueId)
    requires Mid(s) && IsBlocking(id) && Items(s, id) != []
    ensures SleepersKept(s, UnblockOne(s, id))
  {
    WaitersAreBlocked(s, id, Items(s, id)[0]);
  }

  lemma ParksSleepers(s: State, t: State, id: QueueId)
    requires Settled(s) && Parks(s, t, id)
    ensures SleepersKept(s, t)
  {
  }

  lemma CondWaitSleepers(s: State, l: int, c: int)
    requires Inv(s) && Enabled(s, CondWait(l, c))
    ensures SleepersKept(s, AwaitCond(s, l, c))
  {
    var t := QueuedOnCond(s, l, c);
    QueuedInside(s, l, c);
    ParksSleepers(s, t, CondQ(c));
    assert LockOk(t, l);
    hide ReleaseLock;
    ReleaseSleepers(t, l);
  }

  lemma OpenSleepers(s: State, b: int)
    requires Mid(s) && 0 <= b < |s.barriers|
    ensures SleepersKept(s, UnblockAll(Counted(s, b), BarQ(b)))
  {
    var u := Counted(s, b);
    SameLinksStruct(s, u);
    UnblockAllEffect(u, BarQ(b));
    DrainSleepers(u, UnblockAll(u, BarQ(b)), BarQ(b));
  }

  lemma ArriveSleepers(s: State, b: int)
    requires Inv(s) && Enabled(s, BarrierWait(b))
    ensures SleepersKept(s, Arrive(s, b))
  {
    hide UnblockAll, Struct, Sync;
    OpenSleepers(s, b);
  }

  lemma ExitSleepers(s: State)
    requires Inv(s) && Enabled(s, Exit)
    ensures forall k: Slot, a | k != s.current && Dozing(s, k, a) :: Dozing(Die(s, s.current), k, a)
  {
    assert Unqueue(s, s.current) == s;
    hide Inv, Die;
    DeathSleepers(s, s.current);
  }

  lemma WakingSleepers(s: State, e: Event)
    requires Inv(s) && Enabled(s, e) && (e.Signal? || e.Broadcast? || e.SemUp? || e.Release?)
    ensures SleepersKept(s, Before(s, e))
  {
    match e
    case Signal(c) =>
      if s.conds[c] > 0 {
        UnblockOneSleepers(s, CondQ(c));
      }
    case Broadcast(c) =>
      UnblockAllEffect(s, CondQ(c));
      DrainSleepers(s, UnblockAll(s, CondQ(c)), CondQ(c));
    case SemUp(x) =>
      var u := s.(sems := s.sems[x := s.sems[x] + 1]);
      SameLinksStruct(s, u);
      if s.sems[x] < 0 {
        UnblockOneSleepers(u, SemQ(x));
      }
    case Release(l) =>
      assert LockOk(s, l);
      ReleaseSleepers(s, l);
  }

  lemma CallerSleepers(s: State, e: Event)
    requires Settled(s) && Callable(s, e)
    requires e.Tick? || e.Advance? || e.Sleep? || e.Spawn? || e.Wait? || e.Acquire? || e.SemDown?
    ensures SleepersKept(s, Before(s, e))
  {
  }

  lemma BeforeSleepers(s: State, e: Event, i: Slot, a: int)
    requires Inv(s) && Enabled(s, e) && Dozing(s, i, a) && (e.Kill? ==> Scan(s, e.pid) != i)
    ensures Dozing(Before(s, e), i, a)
  {
    hide Sync, Struct, OthersPlaced, Die, Unqueue, ReleaseLock, AwaitCond, Arrive;
    match e
    case Kill(pid) => DeathSleepers(s, Scan(s, pid));
    case Exit => ExitSleepers(s);
    case CondWait(l, c) => CondWaitSleepers(s, l, c);
    case BarrierWait(b) => ArriveSleepers(s, b);
    case Signal(_) => WakingSleepers(s, e);
    case Broadcast(_) => WakingSleepers(s, e);
    case SemUp(_) => WakingSleepers(s, e);
    case Release(_) => WakingSleepers(s, e);
    case _ => CallerSleepers(s, e);
  }

  lemma SleeperIsQueued(s: State, i: Slot)
    requires Mid(s) && s.pcb[i].status == Sleeping && 0 < i
    ensures i in Items(s, SleepQ) && forall q | q != SleepQ :: i !in Items(s, q)
  {
    PlaceOf(s, i);
  }

  lemma CheckedSleeper(s: State, i: Slot, a: int)
    requires Mid(s) && Dozing(s, i, a) && 0 < i
    ensures var t := CheckSleeping(Yield(s));
      && Scheduling(t)
      && if a >= Timer(s) then Dozing(t, i, a) else t.pcb[i].status == Ready && t.pcb[i].on.Some?
  {
    YieldScheduling(s);
    var u := Yield(s);
    CheckSleepingEffect(u);
    CheckSleepingScheduling(u);
    SleeperIsQueued(s, i);
  }

  lemma RequeueKeepsStatus(s: State, i: Slot)
    ensures var t := Requeue(Demote(s)); t.pcb[i].status == s.pcb[i].status && t.pcb[i].alarm == s.pcb[i].alarm
  {
  }

  lemma DispatchKeepsSleepers(s: State, i: Slot)
    requires AllPlaced(s) && Items(s, PickQueue(s)) != []
    ensures s.pcb[i].status == Sleeping && 0 < i ==> Dispatch(s).pcb[i] == s.pcb[i]
    ensures s.pcb[i].status == Ready ==> Dispatch(s).pcb[i].status != Sleeping
  {
    assert QueueOk(s, PickQueue(s)) && Items(s, PickQueue(s))[0] in Items(s, PickQueue(s));
  }

  /** A scheduler pass wakes a sleeper exactly if its alarm is due. */
  lemma ScheduleSleepers(s: State, i: Slot, a: int)
    requires Mid(s) && CanSchedule(s) && Dozing(s, i, a) && 0 < i
    ensures a >= Timer(s) ==> Dozing(Schedule(s), i, a)
    ensures a < Timer(s) ==> Schedule(s).pcb[i].status != Sleeping
  {
    hide Mid, Struct, CheckSleeping, Yield, Requeue, Demote, Dispatch, AllPlaced, OthersPlaced;
    CheckedSleeper(s, i, a);
    var t := CheckSleeping(Yield(s));
    RequeuePlaces(t);
    RequeueKeepsStatus(t, i);
    DispatchKeepsSleepers(BeforeDispatch(s), i);
  }

  // ---------- sleep over runs ----------

  /** One step: a sleeper sleeps on, or is killed, or the timer has passed its alarm. */
  lemma SleepStep(s: State, e: Event, i: Slot, a: int)
    requires Inv(s) && Enabled(s, e) && Dozing(s, i, a) && 0 < i && (e.Kill? ==> Scan(s, e.pid) != i)
    ensures Possible(s, e) && (Dozing(Step(s, e), i, a) || a < Timer(Step(s, e)))
    ensures Step(s, e).pcb[i].pid == s.pcb[i].pid
  {
    hide Inv, Enabled, Before, Mid, Schedule;
    StepKeepsInv(s, e);
    BeforeSleepers(s, e, i, a);
    StepFramed(s, e);
    if Reschedules(s, e) {
      ReadyToSchedule(s, e);
      ScheduleSleepers(Before(s, e), i, a);
      ScheduleKeeps(Before(s, e));
    }
  }

  lemma TimePasses(s: State, e: Event)
    requires Possible(s, e)
    ensures s.time <= Step(s, e).time && Timer(s) <= Timer(Step(s, e))
  {
    StepFramed(s, e);
  }

  /** Asleep still, as the process it was, or due. */
  predicate SleptOn(s: State, i: Slot, pid: int, a: int) {
    (Dozing(s, i, a) && s.pcb[i].pid == pid) || a < Timer(s)
  }

  lemma {:induction false} SleepRun(s: State, run: seq<Event>, i: Slot, a: int)
    requires Inv(s) && Legal(s, run) && Dozing(s, i, a) && 0 < i && Kill(s.pcb[i].pid) !in run
    ensures SleptOn(Exec(s, run), i, s.pcb[i].pid, a)
  {
    if run == [] {
    } else {
      hide Inv, Step, Enabled, Possible;
      var earlier, e := run[..|run| - 1], run[|run| - 1];
      assert e in run && forall x | x in earlier :: x in run;
      SleepRun(s, earlier, i, a);
      RunKeepsInv(s, earlier);
      var u := Exec(s, earlier);
      TimePasses(u, e);
      if Dozing(u, i, a) && u.pcb[i].pid == s.pcb[i].pid {
        SleepStep(u, e, i, a);
      }
    }
  }

  /** The caller's own scheduler pass does not wake it. */
  lemma FallsAsleep(s: State, n: nat)
    requires Inv(s) && Enabled(s, Event.Sleep(n))
    ensures Possible(s, Event.Sleep(n))
    ensures var t := Step(s, Event.Sleep(n));
      Inv(t) && Dozing(t, s.current, n + Timer(s)) && t.pcb[s.current].pid == s.pcb[s.current].pid && 0 < s.current
  {
    var e := Event.Sleep(n);
    assert OnCpu(s, Running) && s.current != 0;
    hide Inv, Enabled, Mid, Schedule;
    StepKeepsInv(s, e);
    ReadyToSchedule(s, e);
    ScheduleSleepers(Before(s, e), s.current, n + Timer(s));
    StepFramed(s, e);
  }

  lemma TimerBound(t0: nat, t1: nat, n: nat)
    requires n + t0 / TIMER_UNIT < t1 / TIMER_UNIT
    ensures t1 - t0 > n * TIMER_UNIT
  {
  }

  /** Sleep never ends early: in every later state, unless the process has been killed, it is still asleep or more
      than n seconds' worth of time has passed since it called. */
  lemma SleepNeverEndsEarly(s: State, n: nat, run: seq<Event>)
    requires Inv(s) && Enabled(s, Event.Sleep(n)) && Possible(s, Event.Sleep(n)) && Legal(Step(s, Event.Sleep(n)), run)
    requires Kill(s.pcb[s.current].pid) !in run
    ensures var t := Exec(Step(s, Event.Sleep(n)), run);
      t.pcb[s.current].status == Sleeping || t.time - s.time > n * TIMER_UNIT
  {
    hide Inv, Step, Enabled, Possible, Legal, Exec;
    FallsAsleep(s, n);
    var u := Step(s, Event.Sleep(n));
    SleepRun(u, run, s.current, n + Timer(s));
    var t := Exec(u, run);
    if n + Timer(s) < Timer(t) {
      TimerBound(s.time, t.time, n);
    }
  }

  lemma AsleepIsSleeping(s: State, i: Slot)
    requires Settled(s) && i in Items(s, SleepQ)
    ensures s.pcb[i].status == Sleeping && 0 < i
  {
    assert QueueOk(s, SleepQ);
  }

  /** The scheduler puts nobody to sleep. */
  lemma WasAsleep(s: State, i: Slot)
    requires Mid(s) && CanSchedule(s) && Schedule(s).pcb[i].status == Sleeping && 0 < i
    ensures s.pcb[i].status == Sleeping
  {
    var u := Yield(s);
    YieldScheduling(s);
    CheckSleepingEffect(u);
    RequeueKeepsStatus(CheckSleeping(u), i);
    hide Mid, CheckSleeping, Requeue, Demote, Struct;
  }

  /** After a scheduler pass nobody in the sleep queue is overdue. */
  lemma NobodyOversleeps(s: State, i: Slot)
    requires Mid(s) && CanSchedule(s) && i in Items(Schedule(s), SleepQ) && ShellReady(s)
    ensures !Due(Schedule(s), i)
  {
    hide Schedule;
    ScheduleSettles(s);
    AsleepIsSleeping(Schedule(s), i);
    WasAsleep(s, i);
    ScheduleSleepers(s, i, s.pcb[i].alarm);
    ScheduleKeeps(s);
  }

  /** Those who are woken are exactly the due ones of the sleepers, and the others stay. */
  lemma {:induction false} DueAreSplit(s: State, sleepers: seq<Slot>, i: Slot)
    ensures i in Overdue(s, sleepers) <==> i in sleepers && Due(s, i)
    ensures i in StillAsleep(s, sleepers) <==> i in sleepers && !Due(s, i)
  {
    if sleepers == [] {
    } else {
      assert sleepers == [sleepers[0]] + sleepers[1..];
      DueAreSplit(s, sleepers[1..], i);
    }
  }

  /** One comes before the other in the sequence. */
  ghost predicate InOrder(q: seq<Slot>, i: Slot, j: Slot) {
    exists a, b :: 0 <= a < b < |q| && q[a] == i && q[b] == j
  }

  lemma OrderGrows(q: seq<Slot>, first: seq<Slot>, i: Slot, j: Slot)
    requires InOrder(q, i, j)
    ensures InOrder(first + q, i, j)
  {
    var a, b :| 0 <= a < b < |q| && q[a] == i && q[b] == j;
    assert (first + q)[|first| + a] == i && (first + q)[|first| + b] == j;
  }

  lemma FirstComesFirst(q: seq<Slot>, i: Slot, j: Slot)
    requires j in q
    ensures InOrder([i] + q, i, j)
  {
    var b :| 0 <= b < |q| && q[b] == j;
    assert ([i] + q)[0] == i && ([i] + q)[b + 1] == j;
  }

  /** They are woken in the order in which they fell asleep, and the others keep their order too. */
  lemma {:induction false} WakingKeepsOrder(s: State, sleepers: seq<Slot>, a: nat, b: nat)
    requires a < b < |sleepers|
    ensures Due(s, sleepers[a]) && Due(s, sleepers[b]) ==> InOrder(Overdue(s, sleepers), sleepers[a], sleepers[b])
    ensures !Due(s, sleepers[a]) && !Due(s, sleepers[b]) ==> InOrder(StillAsleep(s, sleepers), sleepers[a], sleepers[b])
    decreases a
  {
    var rest := sleepers[1..];
    if a == 0 {
      DueAreSplit(s, rest, sleepers[b]);
      assert rest[b - 1] == sleepers[b];
      if Due(s, sleepers[0]) && Due(s, sleepers[b]) {
        FirstComesFirst(Overdue(s, rest), sleepers[0], sleepers[b]);
      } else if !Due(s, sleepers[0]) && !Due(s, sleepers[b]) {
        FirstComesFirst(StillAsleep(s, rest), sleepers[0], sleepers[b]);
      }
    } else {
      WakingKeepsOrder(s, rest, a - 1, b - 1);
      if Due(s, sleepers[a]) && Due(s, sleepers[b]) {
        OrderGrows(Overdue(s, rest), if Due(s, sleepers[0]) then [sleepers[0]] else [], sleepers[a], sleepers[b]);
      } else if !Due(s, sleepers[a]) && !Due(s, sleepers[b]) {
        OrderGrows(StillAsleep(s, rest), if Due(s, sleepers[0]) then [] else [sleepers[0]], sleepers[a], sleepers[b]);
      }
    }
  }
}
