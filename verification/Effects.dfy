/** The whole effect of every step on the queues: who leaves which queue, who becomes ready and in what order, what
    becomes of the caller, and who runs next. */
module Effects {
  import opened KernelModel
  import opened Placement
  import opened KernelSteps
  import opened KernelInvariant
  import opened Preserve
  import opened StepInv
  import opened LifeInv
  import opened Death
  import opened Legacy
  import opened Runs
  import opened Frame
  import opened SchedulerLaws

  // ---------- what a step does, in terms of the state before it ----------

  /** What becomes of the caller: it runs on, gives way to others but stays ready, joins a queue, or dies. Unless it
      runs on the scheduler chooses who runs next. */
  datatype Fate = RunsOn | GivesWay | Joins(queue: QueueId) | Dies

  function FateOf(s: State, e: Event): Fate
    requires Callable(s, e)
  {
    match e
    case Tick => GivesWay
    case Advance(_) => RunsOn
    case Sleep(_) => Joins(SleepQ)
    case Spawn => GivesWay
    case Wait(pid) => Joins(WaitQ(Scan(s, pid)))
    case Kill(pid) => if Scan(s, pid) == s.current then Dies else GivesWay
    case Exit => Dies
    case Acquire(l) => if s.locks[l].locked then Joins(LockQ(l)) else RunsOn
    case Release(_) => RunsOn
    case CondWait(_, c) => Joins(CondQ(c))
    case Signal(_) => RunsOn
    case Broadcast(_) => RunsOn
    case SemUp(_) => GivesWay
    case SemDown(x) => if s.sems[x] >= 1 then GivesWay else Joins(SemQ(x))
    case BarrierWait(b) =>
      var arrived, goal := s.barriers[b].now + 1, s.barriers[b].goal;
      if arrived < goal then Joins(BarQ(b)) else if arrived == goal then GivesWay else RunsOn
  }

  function First(queue: seq<Slot>): seq<Slot> {
    if queue == [] then [] else [queue[0]]
  }

  function AllButFirst(queue: seq<Slot>): seq<Slot> {
    if queue == [] then [] else queue[1..]
  }

  /** Who becomes ready, in the order in which they join the end of the first ready queue. */
  function Readied(s: State, e: Event): seq<Slot>
    requires Callable(s, e)
  {
    match e
    case Spawn => [FreeSlot(s)]
    case Kill(pid) => Heirs(s, Scan(s, pid))
    case Exit => Heirs(s, s.current)
    case Release(l) => Items(s, LockQ(l))
    case CondWait(l, _) => Items(s, LockQ(l))
    case Signal(c) => First(Items(s, CondQ(c)))
    case Broadcast(c) => Items(s, CondQ(c))
    case SemUp(x) => First(Items(s, SemQ(x)))
    case BarrierWait(b) => if s.barriers[b].now + 1 == s.barriers[b].goal then Items(s, BarQ(b)) else []
    case _ => []
  }

  /** Who stays in a queue when process i dies. */
  function Outliving(s: State, i: Slot, q: QueueId): seq<Slot> {
    if q == WaitQ(i) || (q.LockQ? && Owns(s, i, q.lock)) then [] else Del(Items(s, q), i)
  }

  /** Who stays in a queue. */
  function Remaining(s: State, e: Event, q: QueueId): seq<Slot>
    requires Callable(s, e)
  {
    match e
    case Kill(pid) => Outliving(s, Scan(s, pid), q)
    case Exit => Outliving(s, s.current, q)
    case Release(l) => if q == LockQ(l) then [] else Items(s, q)
    case CondWait(l, _) => if q == LockQ(l) then [] else Items(s, q)
    case Signal(c) => if q == CondQ(c) then AllButFirst(Items(s, q)) else Items(s, q)
    case Broadcast(c) => if q == CondQ(c) then [] else Items(s, q)
    case SemUp(x) => if q == SemQ(x) then AllButFirst(Items(s, q)) else Items(s, q)
    case BarrierWait(b) =>
      if q == BarQ(b) && s.barriers[b].now + 1 == s.barriers[b].goal then [] else Items(s, q)
    case _ => Items(s, q)
  }

  /** A queue when the step is done, but for the scheduler. */
  function LaterQueue(s: State, e: Event, q: QueueId): seq<Slot>
    requires Callable(s, e)
  {
    Remaining(s, e, q)
    + (if q == ReadyQ(1) then Readied(s, e) else [])
    + (if FateOf(s, e) == Joins(q) then [s.current] else [])
  }

  // ---------- each step, but for the scheduler ----------

  ghost predicate Moved(s: State, e: Event, u: State)
    requires Callable(s, e)
  {
    && u.current == s.current
    && forall q :: Items(u, q) == LaterQueue(s, e, q)
  }

  lemma LaterIs(s: State, e: Event, q: QueueId, stay: seq<Slot>, ready: seq<Slot>)
    requires Callable(s, e) && Remaining(s, e, q) == stay && (q == ReadyQ(1) ==> Readied(s, e) == ready)
    ensures q != ReadyQ(1) && FateOf(s, e) != Joins(q) ==> LaterQueue(s, e, q) == stay
    ensures q == ReadyQ(1) && FateOf(s, e) != Joins(q) ==> LaterQueue(s, e, q) == stay + ready
    ensures q != ReadyQ(1) && FateOf(s, e) == Joins(q) ==> LaterQueue(s, e, q) == stay + [s.current]
  {
    assert stay + [] == stay && stay + ready + [] == stay + ready;
  }

  /** Nobody becomes ready and nobody but the caller moves. */
  lemma CallerMoves(s: State, e: Event, u: State, id: QueueId)
    requires Callable(s, e) && u.current == s.current
    requires (forall q :: Remaining(s, e, q) == Items(s, q)) && Readied(s, e) == [] && id != ReadyQ(1)
    requires FateOf(s, e) == Joins(id) && Items(u, id) == Items(s, id) + [s.current]
    requires forall q | q != id :: Items(u, q) == Items(s, q)
    ensures Moved(s, e, u)
  {
    hide Items, Remaining, Readied, FateOf;
    forall q
      ensures Items(u, q) == LaterQueue(s, e, q)
    {
      assert Items(s, q) + [] == Items(s, q);
      LaterIs(s, e, q, Items(s, q), []);
    }
  }

  /** No queue changes. */
  lemma NobodyMoves(s: State, e: Event, u: State)
    requires Callable(s, e) && u.current == s.current && FateOf(s, e) in {RunsOn, GivesWay}
    requires (forall q :: Remaining(s, e, q) == Items(s, q)) && Readied(s, e) == []
    requires forall q :: Items(u, q) == Items(s, q)
    ensures Moved(s, e, u)
  {
    hide Items, Remaining, Readied, FateOf;
    forall q
      ensures Items(u, q) == LaterQueue(s, e, q)
    {
      assert Items(s, q) + [] == Items(s, q);
      LaterIs(s, e, q, Items(s, q), []);
    }
  }

  /** Some of one queue become ready, and the caller stays out of the queues. */
  lemma WaitersMove(s: State, e: Event, u: State, id: QueueId, woken: seq<Slot>, rest: seq<Slot>)
    requires Callable(s, e) && u.current == s.current && FateOf(s, e) in {RunsOn, GivesWay}
    requires Readied(s, e) == woken && Remaining(s, e, id) == rest && id != ReadyQ(1)
    requires forall q | q != id :: Remaining(s, e, q) == Items(s, q)
    requires Items(u, id) == rest && Items(u, ReadyQ(1)) == Items(s, ReadyQ(1)) + woken
    requires forall q | q != id && q != ReadyQ(1) :: Items(u, q) == Items(s, q)
    ensures Moved(s, e, u)
  {
    hide Items, Remaining, Readied, FateOf;
    forall q
      ensures Items(u, q) == LaterQueue(s, e, q)
    {
      LaterIs(s, e, q, Remaining(s, e, q), woken);
    }
  }

  lemma SpawnMoves(s: State)
    requires Inv(s) && Enabled(s, Spawn)
    ensures Moved(s, Spawn, Before(s, Spawn))
  {
    var i := FreeSlot(s);
    NobodyWaitsForTheDead(s, i);
    WaitersMove(s, Spawn, Before(s, Spawn), WaitQ(i), [i], []);
  }

  lemma ReleaseMoves(s: State, l: int)
    requires Inv(s) && Enabled(s, Release(l))
    ensures Moved(s, Release(l), Before(s, Release(l)))
  {
    assert LockOk(s, l);
    hide ReleaseLock;
    ReleaseEffect(s, l);
    ReleasedFrees(s, ReleaseLock(s, l), l);
    WaitersMove(s, Release(l), Before(s, Release(l)), LockQ(l), Items(s, LockQ(l)), []);
  }

  lemma LockedHasOwner(s: State, l: int)
    requires Inside(s, 0) && LockRange(s, l) && s.locks[l].locked
    ensures Struct(s) && Scan(s, s.locks[l].owner) < NUM_MAX_TASK
  {
    assert LockOk(s, l);
  }

  lemma CondWaitQueues(s: State, e: Event, a: State, u: State, l: int, c: int)
    requires e == CondWait(l, c) && Callable(s, e) && Parks(s, a, CondQ(c)) && u.current == a.current
    requires Items(u, LockQ(l)) == [] && Items(u, ReadyQ(1)) == Items(a, ReadyQ(1)) + Items(a, LockQ(l))
    requires forall q | q != LockQ(l) && q != ReadyQ(1) :: Items(u, q) == Items(a, q)
    ensures Moved(s, e, u)
  {
    hide Items;
    forall q
      ensures Items(u, q) == LaterQueue(s, e, q)
    {
      LaterIs(s, e, q, Remaining(s, e, q), Items(s, LockQ(l)));
    }
  }

  lemma CondWaitMoves(s: State, l: int, c: int)
    requires Inv(s) && Enabled(s, CondWait(l, c))
    ensures Moved(s, CondWait(l, c), Before(s, CondWait(l, c)))
  {
    var e, a := CondWait(l, c), QueuedOnCond(s, l, c);
    QueuedParks(s, l, c);
    QueuedInside(s, l, c);
    LockedHasOwner(a, l);
    var u := ReleaseLock(a, l);
    assert Before(s, e) == u;
    hide ReleaseLock, QueuedOnCond, Inv, Mid, Sync, Struct;
    ReleaseEffect(a, l);
    ReleasedFrees(a, u, l);
    CondWaitQueues(s, e, a, u, l, c);
  }

  lemma SignalMoves(s: State, c: int)
    requires Inv(s) && Enabled(s, Signal(c))
    ensures Moved(s, Signal(c), Before(s, Signal(c)))
  {
    assert CountOk(s, CondQ(c));
    var u, q := Before(s, Signal(c)), Items(s, CondQ(c));
    if q == [] {
      assert u == s && Items(s, ReadyQ(1)) + [] == Items(s, ReadyQ(1));
    } else {
      WakeEffect(s, q[0], CondQ(c), 0);
    }
    hide Inv, Before, SignalCond;
    WaitersMove(s, Signal(c), u, CondQ(c), First(q), AllButFirst(q));
  }

  lemma BroadcastMoves(s: State, c: int)
    requires Inv(s) && Enabled(s, Broadcast(c))
    ensures Moved(s, Broadcast(c), Before(s, Broadcast(c)))
  {
    assert CountOk(s, CondQ(c));
    var u, q := Before(s, Broadcast(c)), Items(s, CondQ(c));
    hide UnblockAll;
    if q == [] {
      assert u == s && Items(s, ReadyQ(1)) + [] == Items(s, ReadyQ(1));
    } else {
      UnblockAllEffect(s, CondQ(c));
    }
    hide Inv, Before, BroadcastCond;
    WaitersMove(s, Broadcast(c), u, CondQ(c), q, []);
  }

  lemma UpDrains(s: State, x: int)
    requires Inv(s) && Enabled(s, SemUp(x))
    ensures var u, q := Before(s, SemUp(x)), Items(s, SemQ(x));
      && u.current == s.current && Items(u, SemQ(x)) == AllButFirst(q)
      && Items(u, ReadyQ(1)) == Items(s, ReadyQ(1)) + First(q)
      && forall id | id != SemQ(x) && id != ReadyQ(1) :: Items(u, id) == Items(s, id)
  {
    assert CountOk(s, SemQ(x));
    var r, q := s.(sems := s.sems[x := s.sems[x] + 1]), Items(s, SemQ(x));
    SameLinksStruct(s, r);
    assert forall id :: Items(r, id) == Items(s, id);
    if q == [] {
      assert Items(s, ReadyQ(1)) + [] == Items(s, ReadyQ(1));
    } else {
      WakeEffect(r, q[0], SemQ(x), 0);
    }
    hide Inv, Struct;
  }

  lemma UpMoves(s: State, x: int)
    requires Inv(s) && Enabled(s, SemUp(x))
    ensures Moved(s, SemUp(x), Before(s, SemUp(x)))
  {
    UpDrains(s, x);
    var q := Items(s, SemQ(x));
    hide Inv, Before, Up;
    WaitersMove(s, SemUp(x), Before(s, SemUp(x)), SemQ(x), First(q), AllButFirst(q));
  }

  lemma DownMoves(s: State, x: int)
    requires Inv(s) && Enabled(s, SemDown(x))
    ensures Moved(s, SemDown(x), Before(s, SemDown(x)))
  {
    var u := Before(s, SemDown(x));
    if s.sems[x] >= 1 {
      NobodyMoves(s, SemDown(x), u);
    } else {
      CallerMoves(s, SemDown(x), u, SemQ(x));
    }
  }

  lemma ArriveDrains(s: State, b: int)
    requires Struct(s) && 0 <= b < |s.barriers| && s.barriers[b].now + 1 == s.barriers[b].goal
    ensures var u := Arrive(s, b);
      && u.current == s.current && Items(u, BarQ(b)) == []
      && Items(u, ReadyQ(1)) == Items(s, ReadyQ(1)) + Items(s, BarQ(b))
      && forall q | q != BarQ(b) && q != ReadyQ(1) :: Items(u, q) == Items(s, q)
  {
    var a := Counted(s, b);
    SameLinksStruct(s, a);
    UnblockAllEffect(a, BarQ(b));
    assert forall q :: Items(a, q) == Items(s, q);
    hide UnblockAll, Struct;
    assert forall q :: Items(Arrive(s, b), q) == Items(UnblockAll(a, BarQ(b)), q);
  }

  lemma ArriveMoves(s: State, b: int)
    requires Inv(s) && Enabled(s, BarrierWait(b))
    ensures Moved(s, BarrierWait(b), Before(s, BarrierWait(b)))
  {
    var e, u := BarrierWait(b), Before(s, BarrierWait(b));
    hide UnblockAll;
    if s.barriers[b].now + 1 < s.barriers[b].goal {
      CallerMoves(s, e, u, BarQ(b));
    } else if s.barriers[b].now + 1 == s.barriers[b].goal {
      ArriveDrains(s, b);
      hide Inv, Before;
      WaitersMove(s, e, u, BarQ(b), Items(s, BarQ(b)), []);
    } else {
      NobodyMoves(s, e, u);
    }
  }

  /** It is process i that dies in this step. */
  predicate DiesIn(s: State, e: Event, i: Slot) {
    (e.Kill? && i == Scan(s, e.pid)) || (e.Exit? && i == s.current)
  }

  lemma DeathMovesQueue(s: State, e: Event, u: State, i: Slot, q: QueueId)
    requires Callable(s, e) && DiesIn(s, e, i) && QueueAfter(s, u, i, q)
    ensures Items(u, q) == LaterQueue(s, e, q)
  {
    hide Del, Heirs, Items, Scan, Owns;
    LaterIs(s, e, q, Outliving(s, i, q), Heirs(s, i));
  }

  lemma DeathMoves(s: State, e: Event, i: Slot)
    requires Callable(s, e) && DiesIn(s, e, i) && Deceased(s, Before(s, e), i)
    ensures Moved(s, e, Before(s, e))
  {
    var u := Before(s, e);
    hide Before, Del, Heirs, LaterQueue, Callable, QueueAfter;
    forall q
      ensures Items(u, q) == LaterQueue(s, e, q)
    {
      assert QueueAfter(s, u, i, q);
      DeathMovesQueue(s, e, u, i, q);
    }
  }

  lemma AsideMoves(s: State, e: Event)
    requires Callable(s, e) && (e.Tick? || e.Advance? || e.Sleep? || e.Wait?)
    ensures Moved(s, e, Before(s, e))
  {
    match e
    case Tick => NobodyMoves(s, e, s);
    case Advance(_) => NobodyMoves(s, e, Before(s, e));
    case Sleep(_) => CallerMoves(s, e, Before(s, e), SleepQ);
    case Wait(pid) => CallerMoves(s, e, Before(s, e), WaitQ(Scan(s, pid)));
  }

  lemma LifeMoves(s: State, e: Event)
    requires Inv(s) && Enabled(s, e)
    requires e.Tick? || e.Advance? || e.Sleep? || e.Spawn? || e.Wait? || e.Kill? || e.Exit?
    ensures Moved(s, e, Before(s, e))
  {
    if e.Kill? {
      KillEffect(s, e.pid);
      DeathMoves(s, e, Scan(s, e.pid));
    } else if e.Exit? {
      ExitEffect(s);
      DeathMoves(s, e, s.current);
    } else if e.Spawn? {
      SpawnMoves(s);
    } else {
      AsideMoves(s, e);
    }
  }

  lemma AcquireMoves(s: State, l: int)
    requires Enabled(s, Acquire(l))
    ensures Moved(s, Acquire(l), Before(s, Acquire(l)))
  {
    if s.locks[l].locked {
      CallerMoves(s, Acquire(l), Before(s, Acquire(l)), LockQ(l));
    } else {
      NobodyMoves(s, Acquire(l), Before(s, Acquire(l)));
    }
  }

  lemma ObjectMoves(s: State, e: Event)
    requires Inv(s) && Enabled(s, e)
    requires e.Acquire? || e.Release? || e.CondWait? || e.Signal? || e.Broadcast? || e.SemUp? || e.SemDown?
      || e.BarrierWait?
    ensures Moved(s, e, Before(s, e))
  {
    match e
    case Acquire(l) => AcquireMoves(s, l);
    case Release(l) => ReleaseMoves(s, l);
    case CondWait(l, c) => CondWaitMoves(s, l, c);
    case Signal(c) => SignalMoves(s, c);
    case Broadcast(c) => BroadcastMoves(s, c);
    case SemUp(x) => UpMoves(s, x);
    case SemDown(x) => DownMoves(s, x);
    case BarrierWait(b) => ArriveMoves(s, b);
  }

  /** What every step does to every queue before the scheduler, if it calls it. */
  lemma BeforeMoves(s: State, e: Event)
    requires Inv(s) && Enabled(s, e)
    ensures Moved(s, e, Before(s, e))
  {
    if e.Tick? || e.Advance? || e.Sleep? || e.Spawn? || e.Wait? || e.Kill? || e.Exit? {
      LifeMoves(s, e);
    } else {
      ObjectMoves(s, e);
    }
  }

  // ---------- each step with the scheduler ----------

  /** A ready queue when the choice is made: after whom the step made ready come the sleepers who are due, and last the
      caller if it gave way, one queue below its own. */
  function ReadyLine(s: State, e: Event, p: int): seq<Slot>
    requires Callable(s, e)
  {
    LaterQueue(s, e, ReadyQ(p))
    + (if p == 1 then Overdue(s, Remaining(s, e, SleepQ)) else [])
    + (if FateOf(s, e) == GivesWay && p == Demoted(s.pcb[s.current].priority) then [s.current] else [])
  }

  /** Those of the sleepers who are not due, and the caller if it has gone to sleep. */
  function Sleepers(s: State, e: Event): seq<Slot>
    requires Callable(s, e)
  {
    StillAsleep(s, Remaining(s, e, SleepQ)) + (if FateOf(s, e) == Joins(SleepQ) then [s.current] else [])
  }

  lemma IsRunning(s: State)
    requires Inv(s)
    ensures OnCpu(s, Running) && s.current != 0 && Struct(s)
    ensures forall q :: s.current !in Items(s, q)
  {
    forall q
      ensures s.current !in Items(s, q)
    {
      RunningIsNowhere(s, q);
    }
  }

  lemma {:induction false} HeirsWaitBlocked(s: State, i: Slot, k: Slot, j: nat)
    requires j <= MAX_MUTEX_OWN && k in HeldHeirs(s, i, j) && Struct(s)
    ensures exists q :: k in Items(s, q)
    decreases MAX_MUTEX_OWN - j
  {
    if j < MAX_MUTEX_OWN {
      if k in HeldHeirs(s, i, j + 1) {
        HeirsWaitBlocked(s, i, k, j + 1);
      } else {
        DelMembers(s, LockQ(s.pcb[i].owned[j].value), i);
      }
    }
  }

  /** Those a death wakes were in queues. */
  lemma HeirsAreQueued(s: State, i: Slot)
    requires Inv(s)
    ensures s.current !in Heirs(s, i)
  {
    DelMembers(s, WaitQ(i), i);
    if s.current in HeldHeirs(s, i, 0) {
      HeirsWaitBlocked(s, i, s.current, 0);
    }
    IsRunning(s);
    hide Inv;
  }

  lemma DeathCaller(s: State, e: Event)
    requires Inv(s) && Enabled(s, e) && (e.Kill? || e.Exit?)
    ensures var u, c := Before(s, e), s.current;
      && u.current == c && (u.pcb[c].status == Running <==> FateOf(s, e) in {GivesWay, RunsOn})
      && (u.pcb[c].status == Running ==> u.pcb[c].priority == s.pcb[c].priority)
  {
    IsRunning(s);
    var i := if e.Kill? then Scan(s, e.pid) else s.current;
    if e.Kill? {
      KillEffect(s, e.pid);
    } else {
      ExitEffect(s);
    }
    assert ProcAfter(s, Before(s, e), i, s.current);
    HeirsAreQueued(s, i);
    hide Before, Inv, Heirs;
  }

  /** Waking others does not touch the caller. */
  lemma DrainedCaller(s: State, t: State, id: QueueId)
    requires Drained(s, t, id) && s.current !in Items(s, id)
    ensures t.pcb[s.current] == s.pcb[s.current] && t.current == s.current
  {
  }

  lemma WokenCaller(s: State, id: QueueId)
    requires Struct(s) && id != ReadyQ(1) && Items(s, id) != [] && s.current !in Items(s, id)
    ensures UnblockOne(s, id).pcb[s.current] == s.pcb[s.current] && UnblockOne(s, id).current == s.current
  {
    assert Items(s, id)[0] in Items(s, id);
    WakeEffect(s, Items(s, id)[0], id, 0);
  }

  lemma ReleaseCaller(a: State, l: int)
    requires Struct(a) && LockRange(a, l) && Scan(a, a.locks[l].owner) < NUM_MAX_TASK
      && a.current !in Items(a, LockQ(l))
    ensures var u, c := ReleaseLock(a, l), a.current;
      u.current == c && u.pcb[c].status == a.pcb[c].status && u.pcb[c].priority == a.pcb[c].priority
  {
    hide ReleaseLock;
    ReleaseEffect(a, l);
    ReleasedFrees(a, ReleaseLock(a, l), l);
  }

  lemma CondWaitCaller(s: State, l: int, c: int)
    requires Inv(s) && Enabled(s, CondWait(l, c))
    ensures var u := Before(s, CondWait(l, c)); u.current == s.current && u.pcb[s.current].status == Blocked
  {
    var a := QueuedOnCond(s, l, c);
    QueuedParks(s, l, c);
    QueuedInside(s, l, c);
    LockedHasOwner(a, l);
    IsRunning(s);
    assert Before(s, CondWait(l, c)) == ReleaseLock(a, l);
    hide ReleaseLock, QueuedOnCond, Inv, Mid, Sync, Struct;
    ReleaseCaller(a, l);
  }

  lemma LockCaller(s: State, e: Event)
    requires Inv(s) && Enabled(s, e) && (e.Acquire? || e.Release? || e.CondWait? || e.Signal? || e.Broadcast?)
    ensures var u, c := Before(s, e), s.current;
      && u.current == c && (u.pcb[c].status == Running <==> FateOf(s, e) in {GivesWay, RunsOn})
      && (u.pcb[c].status == Running ==> u.pcb[c].priority == s.pcb[c].priority)
  {
    IsRunning(s);
    match e
    case Acquire(_) =>
    case Release(l) =>
      assert LockOk(s, l);
      ReleaseCaller(s, l);
    case CondWait(l, c) => CondWaitCaller(s, l, c);
    case Signal(c) =>
      if s.conds[c] > 0 {
        WokenCaller(s, CondQ(c));
      }
    case Broadcast(c) =>
      UnblockAllEffect(s, CondQ(c));
      DrainedCaller(s, UnblockAll(s, CondQ(c)), CondQ(c));
  }

  lemma UpCaller(s: State, x: int)
    requires Inv(s) && Enabled(s, SemUp(x)) && s.current !in Items(s, SemQ(x))
    ensures var u := Before(s, SemUp(x)); u.current == s.current && u.pcb[s.current] == s.pcb[s.current]
  {
    var r := s.(sems := s.sems[x := s.sems[x] + 1]);
    SameLinksStruct(s, r);
    if r.sems[x] <= 0 {
      assert Items(r, SemQ(x)) == Items(s, SemQ(x));
      assert CountOk(s, SemQ(x));
      hide UnblockOne;
      WokenCaller(r, SemQ(x));
    }
  }

  lemma ArriveCaller(s: State, b: int)
    requires Inv(s) && Enabled(s, BarrierWait(b)) && s.current !in Items(s, BarQ(b))
    requires s.barriers[b].now + 1 == s.barriers[b].goal
    ensures var u := Before(s, BarrierWait(b)); u.current == s.current && u.pcb[s.current] == s.pcb[s.current]
  {
    var a := Counted(s, b);
    SameLinksStruct(s, a);
    assert Items(a, BarQ(b)) == Items(s, BarQ(b));
    hide UnblockAll;
    UnblockAllEffect(a, BarQ(b));
    DrainedCaller(a, UnblockAll(a, BarQ(b)), BarQ(b));
  }

  lemma SyncCaller(s: State, e: Event)
    requires Inv(s) && Enabled(s, e) && (e.SemUp? || e.SemDown? || e.BarrierWait?)
    ensures var u, c := Before(s, e), s.current;
      && u.current == c && (u.pcb[c].status == Running <==> FateOf(s, e) in {GivesWay, RunsOn})
      && (u.pcb[c].status == Running ==> u.pcb[c].priority == s.pcb[c].priority)
  {
    IsRunning(s);
    match e
    case SemUp(x) => UpCaller(s, x);
    case SemDown(_) =>
    case BarrierWait(b) =>
      if s.barriers[b].now + 1 == s.barriers[b].goal {
        ArriveCaller(s, b);
      }
  }

  /** What the scheduler sees of the caller. */
  lemma CallerLater(s: State, e: Event)
    requires Inv(s) && Enabled(s, e)
    ensures var u, c := Before(s, e), s.current;
      && u.current == c && (u.pcb[c].status == Running <==> FateOf(s, e) in {GivesWay, RunsOn})
      && (u.pcb[c].status == Running ==> u.pcb[c].priority == s.pcb[c].priority)
  {
    if e.Kill? || e.Exit? {
      DeathCaller(s, e);
    } else if e.Acquire? || e.Release? || e.CondWait? || e.Signal? || e.Broadcast? {
      LockCaller(s, e);
    } else if e.SemUp? || e.SemDown? || e.BarrierWait? {
      SyncCaller(s, e);
    } else {
      hide Inv;
      assert OnCpu(s, Running) && s.current != 0 by {
        IsRunning(s);
      }
    }
  }

  lemma {:induction false} CallerNotDue(u: State, sleepers: seq<Slot>, c: Slot)
    requires !Due(u, c)
    ensures Overdue(u, sleepers + [c]) == Overdue(u, sleepers)
    ensures StillAsleep(u, sleepers + [c]) == StillAsleep(u, sleepers) + [c]
  {
    if sleepers == [] {
      assert [] + [c] == [c] && [c][1..] == [];
    } else {
      assert (sleepers + [c])[1..] == sleepers[1..] + [c];
      CallerNotDue(u, sleepers[1..], c);
    }
  }

  lemma JoinsSleep(s: State, e: Event)
    requires Callable(s, e) && FateOf(s, e) == Joins(SleepQ)
    ensures e.Sleep? && !Due(Before(s, e), s.current)
  {
  }

  lemma StaysWasThere(s: State, e: Event, q: QueueId, i: Slot)
    requires Struct(s) && Callable(s, e) && i in Remaining(s, e, q)
    ensures i in Items(s, q)
  {
    if e.Kill? {
      DelMembers(s, q, Scan(s, e.pid));
    } else if e.Exit? {
      DelMembers(s, q, s.current);
    }
  }

  lemma AlarmsStay(s: State, e: Event)
    requires Inv(s) && Enabled(s, e) && !e.Advance?
    ensures Before(s, e).time == s.time
    ensures forall i | i in Remaining(s, e, SleepQ) :: Before(s, e).pcb[i].alarm == s.pcb[i].alarm
  {
    BeforeFramed(s, e);
    forall i | i in Remaining(s, e, SleepQ)
      ensures i in Items(s, SleepQ) && i != s.current && i != Spawned(s, e)
    {
      StaysWasThere(s, e, SleepQ, i);
      IsRunning(s);
      if e.Spawn? {
        NobodyWaitsForTheDead(s, FreeSlot(s));
        assert QueueOk(s, SleepQ);
      }
    }
    hide Inv, Before;
  }

  /** Alarms are the same, and the caller's own, if it has just gone to sleep, is not due. */
  lemma SleepersSplit(s: State, e: Event)
    requires Inv(s) && Enabled(s, e) && !e.Advance?
    ensures var u, q := Before(s, e), LaterQueue(s, e, SleepQ);
      Overdue(u, q) == Overdue(s, Remaining(s, e, SleepQ)) && StillAsleep(u, q) == Sleepers(s, e)
  {
    var u, rest := Before(s, e), Remaining(s, e, SleepQ);
    AlarmsStay(s, e);
    SplitSame(s, u, rest);
    LaterIs(s, e, SleepQ, rest, []);
    if FateOf(s, e) == Joins(SleepQ) {
      JoinsSleep(s, e);
      CallerNotDue(u, rest, s.current);
    } else {
      assert StillAsleep(s, rest) + [] == StillAsleep(s, rest);
    }
  }

  lemma NoAdvance(s: State, e: Event)
    requires Callable(s, e) && FateOf(s, e) != RunsOn
    ensures !e.Advance?
  {
  }

  lemma LineAgrees(s: State, e: Event, p: int)
    requires Inv(s) && Enabled(s, e) && FateOf(s, e) != RunsOn
    ensures InLine(Before(s, e), p) == ReadyLine(s, e, p)
  {
    CallerLater(s, e);
    BeforeMoves(s, e);
    IsRunning(s);
    NoAdvance(s, e);
    SleepersSplit(s, e);
    hide Inv, Before, LaterQueue, Remaining, FateOf, Overdue, StillAsleep, Demoted;
  }

  lemma FateTells(s: State, e: Event)
    requires Enabled(s, e)
    ensures Reschedules(s, e) <==> FateOf(s, e) != RunsOn
  {
  }

  lemma SchedulerIsCalled(s: State, e: Event)
    requires Inv(s) && Enabled(s, e)
    ensures Reschedules(s, e) <==> FateOf(s, e) != RunsOn
    ensures Possible(s, e) && Step(s, e) == if Reschedules(s, e) then Schedule(Before(s, e)) else Before(s, e)
    ensures Reschedules(s, e) ==> Mid(Before(s, e)) && ShellReady(Before(s, e))
  {
    FateTells(s, e);
    hide FateOf, Reschedules, Before, Inv, Mid, ShellReady, Enabled;
    StepKeepsInv(s, e);
    BeforeInv(s, e);
  }

  /** Where everybody is after a step in which the caller runs on: only the queues have moved. */
  lemma StepRunsOn(s: State, e: Event)
    requires Inv(s) && Enabled(s, e) && FateOf(s, e) == RunsOn
    ensures Possible(s, e)
    ensures var t := Step(s, e);
      t.current == s.current && forall q :: Items(t, q) == LaterQueue(s, e, q)
  {
    SchedulerIsCalled(s, e);
    BeforeMoves(s, e);
  }

  /** And after every other step: the first process of the best ready line runs, the rest of the lines wait, whoever was
      due is awake, and every other queue is exactly as the step left it. */
  lemma StepMoves(s: State, e: Event)
    requires Inv(s) && Enabled(s, e) && FateOf(s, e) != RunsOn
    ensures Possible(s, e)
    ensures var t := Step(s, e);
      && Chosen(t, ReadyLine(s, e, 1), ReadyLine(s, e, 2), ReadyLine(s, e, 3))
      && Items(t, SleepQ) == Sleepers(s, e)
      && forall q | IsBlocking(q) :: Items(t, q) == LaterQueue(s, e, q)
  {
    SchedulerIsCalled(s, e);
    BeforeMoves(s, e);
    NoAdvance(s, e);
    SleepersSplit(s, e);
    hide Inv, Enabled, Before, Step, Possible, Schedule, CanSchedule, Mid, ShellReady, Chosen, InLine, ReadyLine,
      LaterQueue, Reschedules, FateOf, Sleepers, StillAsleep, Overdue, Remaining;
    PassMoves(Before(s, e));
    LineAgrees(s, e, 1);
    LineAgrees(s, e, 2);
    LineAgrees(s, e, 3);
  }
}
