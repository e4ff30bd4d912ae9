/** The system calls and interrupts as atomic steps. Kernel code runs with interrupts off, so everything a process
    does between two scheduler calls happens at once: a step is what the current process does (`Before`) followed,
    for most steps, by one pass of the scheduler. */
module KernelSteps {
  import opened KernelModel

  datatype Event =
    | Tick
    | Advance(ticks: nat)
    | Sleep(seconds: nat)
    | Spawn
    | Wait(pid: int)
    | Kill(pid: int)
    | Exit
    | Acquire(lock: int)
    | Release(lock: int)
    | CondWait(lock: int, cond: int)
    | Signal(cond: int)
    | Broadcast(cond: int)
    | SemUp(sem: int)
    | SemDown(sem: int)
    | BarrierWait(barrier: int)

  // ---------- searching the PCB table ----------

  function ScanFrom(s: State, pid: int, i: nat): (r: nat)
    requires i <= NUM_MAX_TASK
    ensures i <= r <= NUM_MAX_TASK
    ensures r < NUM_MAX_TASK ==> s.pcb[r].pid == pid
    ensures forall j | i <= j < r :: s.pcb[j].pid != pid
    decreases NUM_MAX_TASK - i
  {
    if i == NUM_MAX_TASK || s.pcb[i].pid == pid then i else ScanFrom(s, pid, i + 1)
  }

  /** The slot a process id is found in; the search starts at slot 2 and ends past the table if it fails. */
  function Scan(s: State, pid: int): (r: nat)
    ensures 2 <= r <= NUM_MAX_TASK
    ensures r < NUM_MAX_TASK ==> s.pcb[r].pid == pid
    ensures forall j | 2 <= j < r :: s.pcb[j].pid != pid
  {
    ScanFrom(s, pid, 2)
  }

  function FreeFrom(s: State, i: nat): (r: nat)
    requires i <= NUM_MAX_TASK
    ensures i <= r <= NUM_MAX_TASK
    ensures r < NUM_MAX_TASK ==> s.pcb[r].status == NotExist
    ensures forall j | i <= j < r :: s.pcb[j].status != NotExist
    decreases NUM_MAX_TASK - i
  {
    if i == NUM_MAX_TASK || s.pcb[i].status == NotExist then i else FreeFrom(s, i + 1)
  }

  /** The first slot a new process can use. */
  function FreeSlot(s: State): (r: nat)
    ensures 2 <= r <= NUM_MAX_TASK
    ensures r < NUM_MAX_TASK ==> s.pcb[r].status == NotExist
    ensures forall j | 2 <= j < r :: s.pcb[j].status != NotExist
  {
    FreeFrom(s, 2)
  }

  // ---------- mutexes ----------

  function EntryFrom(owned: Owned, j: nat): (r: nat)
    requires j <= MAX_MUTEX_OWN
    ensures j <= r <= MAX_MUTEX_OWN
    ensures r < MAX_MUTEX_OWN ==> owned[r] == None
    ensures forall k | j <= k < r :: owned[k] != None
    decreases MAX_MUTEX_OWN - j
  {
    if j == MAX_MUTEX_OWN || owned[j] == None then j else EntryFrom(owned, j + 1)
  }

  /** The first free place in the list of locks a process holds. */
  function FreeEntry(owned: Owned): (r: nat)
    ensures r <= MAX_MUTEX_OWN
    ensures r < MAX_MUTEX_OWN ==> owned[r] == None
    ensures forall k | 0 <= k < r :: owned[k] != None
  {
    EntryFrom(owned, 0)
  }

  function Drop(owned: Owned, l: int): Owned {
    seq(MAX_MUTEX_OWN, j requires 0 <= j < MAX_MUTEX_OWN => if owned[j] == Some(l) then None else owned[j])
  }

  function LockRange(s: State, l: int): bool {
    0 <= l < |s.locks|
  }

  /** Frees a lock on behalf of whoever owns it and wakes everybody who waits for it. */
  function ReleaseLock(s: State, l: int): State {
    if !LockRange(s, l) || Scan(s, s.locks[l].owner) == NUM_MAX_TASK then s
    else
      var j := Scan(s, s.locks[l].owner);
      var a := SetProc(s, j, s.pcb[j].(owned := Drop(s.pcb[j].owned, l)));
      UnblockAll(a, LockQ(l)).(locks := s.locks[l := Lock(false, -1)])
  }

  function Take(s: State, l: int): State
    requires LockRange(s, l) && FreeEntry(s.pcb[s.current].owned) < MAX_MUTEX_OWN
  {
    var p := s.pcb[s.current];
    SetProc(s, s.current, p.(lockWaiting := None, cont := User, owned := p.owned[FreeEntry(p.owned) := Some(l)]))
    .(locks := s.locks[l := Lock(true, p.pid)])
  }

  function AwaitLock(s: State, l: int): State {
    var t := Block(s, LockQ(l));
    SetProc(t, t.current, t.pcb[t.current].(lockWaiting := Some(l), cont := Acquiring(l)))
  }

  // ---------- process life cycle ----------

  function Doze(s: State, seconds: nat): State {
    var p := s.pcb[s.current].(status := Sleeping, alarm := seconds + Timer(s));
    Push(SetProc(s, s.current, p), SleepQ, s.current)
  }

  function NewProc(pid: int): Proc {
    Proc(pid, Ready, 1, 0, -1, None, NOTHING_OWNED, None, User)
  }

  function SpawnAt(s: State, i: Slot): State {
    var t := SetItems(SetProc(s, i, NewProc(s.nextPid).(alarm := s.pcb[i].alarm)), WaitQ(i), []);
    Push(t, ReadyQ(1), i).(nextPid := s.nextPid + 1)
  }

  function WaitFor(s: State, pid: int): State
    requires Scan(s, pid) < NUM_MAX_TASK
  {
    var t := Block(s, WaitQ(Scan(s, pid)));
    SetProc(t, t.current, t.pcb[t.current].(waitingPid := pid))
  }

  /** Takes a process out of the queue its status says it is in. */
  function Unqueue(s: State, i: Slot): State {
    var p := s.pcb[i];
    match p.status
    case Ready => Remove(s, ReadyQ(p.priority), i)
    case Blocked =>
      if p.lockWaiting.Some? then Remove(s, LockQ(p.lockWaiting.value), i)
      else Remove(s, WaitQ(Scan(s, p.waitingPid)), i)
    case Sleeping => Remove(s, SleepQ, i)
    case _ => s
  }

  function Bury(s: State, i: Slot): State {
    SetProc(s, i, s.pcb[i].(status := NotExist))
  }

  function ClearWaiting(s: State, items: seq<Slot>): State
    decreases |items|
  {
    if items == [] then s
    else ClearWaiting(SetProc(s, items[0], s.pcb[items[0]].(waitingPid := -1)), items[1..])
  }

  function WakeWaiters(s: State, i: Slot): State {
    UnblockAll(ClearWaiting(s, Items(s, WaitQ(i))), WaitQ(i))
  }

  function ReleaseOwned(s: State, i: Slot, j: nat): State
    requires j <= MAX_MUTEX_OWN
    decreases MAX_MUTEX_OWN - j
  {
    if j == MAX_MUTEX_OWN then s
    else if s.pcb[i].owned[j] == None then ReleaseOwned(s, i, j + 1)
    else ReleaseOwned(ReleaseLock(s, s.pcb[i].owned[j].value), i, j + 1)
  }

  /** What dying does, apart from leaving a queue: wake those who wait for the process, then free its locks. */
  function Die(s: State, i: Slot): State {
    ReleaseOwned(WakeWaiters(Bury(s, i), i), i, 0)
  }

  // ---------- the other synchronization objects ----------

  function AwaitCond(s: State, l: int, c: int): State
    requires 0 <= c < |s.conds|
  {
    var t := Block(s.(conds := s.conds[c := s.conds[c] + 1]), CondQ(c));
    ReleaseLock(SetProc(t, t.current, t.pcb[t.current].(cont := Acquiring(l))), l)
  }

  function SignalCond(s: State, c: int): State
    requires 0 <= c < |s.conds| && (s.conds[c] > 0 ==> Items(s, CondQ(c)) != [])
  {
    if s.conds[c] > 0 then
      var t := UnblockOne(s, CondQ(c));
      t.(conds := s.conds[c := s.conds[c] - 1])
    else s
  }

  function BroadcastCond(s: State, c: int): State
    requires 0 <= c < |s.conds|
  {
    if s.conds[c] > 0 then UnblockAll(s, CondQ(c)).(conds := s.conds[c := 0]) else s
  }

  function Up(s: State, x: int): State
    requires 0 <= x < |s.sems| && (s.sems[x] < 0 ==> Items(s, SemQ(x)) != [])
  {
    var t := s.(sems := s.sems[x := s.sems[x] + 1]);
    if t.sems[x] <= 0 then UnblockOne(t, SemQ(x)) else t
  }

  function Down(s: State, x: int): State
    requires 0 <= x < |s.sems|
  {
    var t := s.(sems := s.sems[x := s.sems[x] - 1]);
    if t.sems[x] < 0 then Block(t, SemQ(x)) else t
  }

  function Arrive(s: State, b: int): State
    requires 0 <= b < |s.barriers|
  {
    var bar := s.barriers[b].(now := s.barriers[b].now + 1);
    var t := s.(barriers := s.barriers[b := bar]);
    if bar.now < bar.goal then Block(t, BarQ(b))
    else if bar.now == bar.goal then UnblockAll(t, BarQ(b)).(barriers := s.barriers[b := bar.(now := 0)])
    else t
  }

  // ---------- steps ----------

  /** What the program demands of the caller: numbers that name something, a free slot, a free place for a lock,
      a victim that is not blocked on a semaphore, a condition or a barrier. Where one of these fails the program
      reads past its tables or stops in an endless loop. */
  predicate Callable(s: State, e: Event) {
    match e
    case Spawn => FreeSlot(s) < NUM_MAX_TASK
    case Wait(pid) => Scan(s, pid) < NUM_MAX_TASK
    case Kill(pid) =>
      && Scan(s, pid) < NUM_MAX_TASK
      && var p := s.pcb[Scan(s, pid)];
         p.status == Blocked ==> p.lockWaiting.Some? || p.waitingPid != -1
    case Acquire(l) =>
      LockRange(s, l) && (!s.locks[l].locked ==> FreeEntry(s.pcb[s.current].owned) < MAX_MUTEX_OWN)
    case Release(l) => LockRange(s, l) && s.locks[l].locked
    case CondWait(l, c) => LockRange(s, l) && 0 <= c < |s.conds| && s.locks[l].locked
    case Signal(c) => 0 <= c < |s.conds| && (s.conds[c] > 0 ==> Items(s, CondQ(c)) != [])
    case Broadcast(c) => 0 <= c < |s.conds|
    case SemUp(x) => 0 <= x < |s.sems| && (s.sems[x] < 0 ==> Items(s, SemQ(x)) != [])
    case SemDown(x) => 0 <= x < |s.sems|
    case BarrierWait(b) => 0 <= b < |s.barriers|
    case _ => true
  }

  /** The shell, in slot 1, starts and kills processes and handles the keyboard; it never blocks. */
  predicate ShellMay(e: Event) {
    e.Tick? || e.Advance? || e.Spawn? || e.Kill? || e.Signal? || e.Broadcast? || e.SemUp?
  }

  /** Who may do what: a process woken inside a mutex acquisition tries again, the shell does not block, and one
      waits for living processes only. */
  predicate Enabled(s: State, e: Event) {
    && Callable(s, e)
    && (e.Advance? || s.pcb[s.current].cont == User || e == Acquire(s.pcb[s.current].cont.lock))
    && (s.current == 1 ==> ShellMay(e))
    && (e.Wait? ==> s.pcb[Scan(s, e.pid)].status != NotExist)
  }

  predicate Reschedules(s: State, e: Event) {
    match e
    case Advance(_) => false
    case Acquire(l) => LockRange(s, l) && s.locks[l].locked
    case Release(_) => false
    case Signal(_) => false
    case Broadcast(_) => false
    case BarrierWait(b) => 0 <= b < |s.barriers| && s.barriers[b].now < s.barriers[b].goal
    case _ => true
  }

  /** The state when the scheduler is called, or the final state of a step that does not call it. */
  function Before(s: State, e: Event): State
    requires Callable(s, e)
  {
    match e
    case Tick => s
    case Advance(d) => s.(time := s.time + d)
    case Sleep(n) => Doze(s, n)
    case Spawn => SpawnAt(s, FreeSlot(s))
    case Wait(pid) => WaitFor(s, pid)
    case Kill(pid) => Die(Unqueue(s, Scan(s, pid)), Scan(s, pid))
    case Exit => Die(s, s.current)
    case Acquire(l) => if s.locks[l].locked then AwaitLock(s, l) else Take(s, l)
    case Release(l) => ReleaseLock(s, l)
    case CondWait(l, c) => AwaitCond(s, l, c)
    case Signal(c) => SignalCond(s, c)
    case Broadcast(c) => BroadcastCond(s, c)
    case SemUp(x) => Up(s, x)
    case SemDown(x) => Down(s, x)
    case BarrierWait(b) => Arrive(s, b)
  }

  predicate Possible(s: State, e: Event) {
    Callable(s, e) && (Reschedules(s, e) ==> CanSchedule(Before(s, e)))
  }

  function Step(s: State, e: Event): State
    requires Possible(s, e)
  {
    if Reschedules(s, e) then Schedule(Before(s, e)) else Before(s, e)
  }

  // ---------- runs ----------

  /** A run is legal if each step is enabled, and can be done, in the state the earlier ones lead to. */
  predicate Legal(s: State, run: seq<Event>)
    decreases |run|, 0
  {
    run == [] ||
    var earlier := run[..|run| - 1];
    Legal(s, earlier) && Enabled(Exec(s, earlier), run[|run| - 1]) && Possible(Exec(s, earlier), run[|run| - 1])
  }

  function Exec(s: State, run: seq<Event>): State
    requires Legal(s, run)
    decreases |run|, 1
  {
    if run == [] then s else Step(Exec(s, run[..|run| - 1]), run[|run| - 1])
  }
}
