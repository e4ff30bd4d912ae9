/** The kernel's data as values, and its queue, wake-up and scheduling operations as functions of them.
    The class in Machine.dfy does the same work in place, on linked PCBs, and is proved against these functions. */
module KernelModel {

  const NUM_MAX_TASK := 16
  const MAX_MUTEX_OWN := 5
  const TIMER_UNIT := 10_000_000
  const TICK_LENGTH := 100_000

  datatype Option<+T> = None | Some(value: T)

  datatype Status = Blocked | Running | Ready | Exited | Sleeping | NotExist

  /** An index into the PCB table. Slot 0 is the boot context, slot 1 the shell. */
  type Slot = i: int | 0 <= i < NUM_MAX_TASK

  /** Every queue of the kernel: three ready queues by priority, the sleep queue, and one wait queue for each
      process, mutex, condition, semaphore and barrier. */
  datatype QueueId =
    | ReadyQ(priority: int)
    | SleepQ
    | WaitQ(slot: int)
    | LockQ(lock: int)
    | CondQ(cond: int)
    | SemQ(sem: int)
    | BarQ(barrier: int)

  /** Where a process goes on when it is scheduled again: back to its own code, or round the loop of the
      mutex acquisition it was blocked in. */
  datatype Cont = User | Acquiring(lock: int)

  type Owned = o: seq<Option<int>> | |o| == MAX_MUTEX_OWN
    witness [None, None, None, None, None]

  const NOTHING_OWNED: Owned := [None, None, None, None, None]

  /** A PCB. `on` is the queue it is linked into and `cont` its kernel continuation; the other fields are the
      program's own. */
  datatype Proc = Proc(
    pid: int,
    status: Status,
    priority: int,
    alarm: int,
    waitingPid: int,
    lockWaiting: Option<int>,
    owned: Owned,
    on: Option<QueueId>,
    cont: Cont)

  /** A PCB whose memory is still zero, as the loader leaves it. */
  const ZERO_PROC := Proc(0, Blocked, 0, 0, 0, None, NOTHING_OWNED, None, User)

  /** The PCB table. */
  type Table = t: seq<Proc> | |t| == NUM_MAX_TASK
    ghost witness seq(NUM_MAX_TASK, _ => ZERO_PROC)

  datatype Lock = Lock(locked: bool, owner: int)

  datatype Barrier = Barrier(goal: int, now: int)

  /** The whole kernel. */
  datatype State = State(
    pcb: Table,
    queue: map<QueueId, seq<Slot>>,
    current: Slot,
    nextPid: int,
    time: nat,
    locks: seq<Lock>,
    conds: seq<int>,
    sems: seq<int>,
    barriers: seq<Barrier>)

  // ---------- queues ----------

  function Items(s: State, id: QueueId): seq<Slot> {
    if id in s.queue then s.queue[id] else []
  }

  function SetProc(s: State, i: Slot, p: Proc): State {
    s.(pcb := s.pcb[i := p])
  }

  function SetItems(s: State, id: QueueId, items: seq<Slot>): State {
    s.(queue := s.queue[id := items])
  }

  /** The sequence without the first occurrence of an element. */
  function Del(items: seq<Slot>, i: Slot): seq<Slot> {
    if items == [] then []
    else if items[0] == i then items[1..]
    else [items[0]] + Del(items[1..], i)
  }

  function Push(s: State, id: QueueId, i: Slot): State {
    SetProc(SetItems(s, id, Items(s, id) + [i]), i, s.pcb[i].(on := Some(id)))
  }

  function Remove(s: State, id: QueueId, i: Slot): State {
    SetProc(SetItems(s, id, Del(Items(s, id), i)), i, s.pcb[i].(on := None))
  }

  // ---------- blocking and waking ----------

  /** A woken process is ready at the highest priority. */
  function Wake(s: State, i: Slot): State {
    Push(SetProc(s, i, s.pcb[i].(status := Ready, priority := 1)), ReadyQ(1), i)
  }

  function Block(s: State, id: QueueId): State {
    Push(SetProc(s, s.current, s.pcb[s.current].(status := Blocked)), id, s.current)
  }

  function UnblockOne(s: State, id: QueueId): State
    requires Items(s, id) != []
  {
    var i := Items(s, id)[0];
    Wake(Remove(s, id, i), i)
  }

  function UnblockAll(s: State, id: QueueId): State
    requires id != ReadyQ(1)
    decreases |Items(s, id)|
  {
    if Items(s, id) == [] then s else UnblockAll(UnblockOne(s, id), id)
  }

  // ---------- scheduling ----------

  function Timer(s: State): int {
    s.time / TIMER_UNIT
  }

  function Due(s: State, i: Slot): bool {
    s.pcb[i].alarm < Timer(s)
  }

  /** Walks the given sleepers in order and wakes those whose alarm has passed. */
  function WakeDue(s: State, sleepers: seq<Slot>): State
    decreases |sleepers|
  {
    if sleepers == [] then s
    else if Due(s, sleepers[0]) then WakeDue(Wake(Remove(s, SleepQ, sleepers[0]), sleepers[0]), sleepers[1..])
    else WakeDue(s, sleepers[1..])
  }

  function CheckSleeping(s: State): State {
    WakeDue(s, Items(s, SleepQ))
  }

  /** A process that is interrupted while running becomes ready. */
  function Yield(s: State): State {
    var p := s.pcb[s.current];
    if p.status == Running then SetProc(s, s.current, p.(status := Ready)) else s
  }

  function Demoted(priority: int): int {
    if priority <= 2 then priority + 1 else 3
  }

  function Demote(s: State): State {
    var p := s.pcb[s.current];
    SetProc(s, s.current, p.(priority := Demoted(p.priority)))
  }

  function Requeue(s: State): State {
    var p := s.pcb[s.current];
    if s.current != 0 && p.status != Blocked && p.status != Sleeping && p.status != NotExist
    then Push(s, ReadyQ(p.priority), s.current)
    else s
  }

  /** The ready queue the next process is taken from; the lowest one is not tested for emptiness. */
  function PickQueue(s: State): QueueId {
    if Items(s, ReadyQ(1)) != [] then ReadyQ(1)
    else if Items(s, ReadyQ(2)) != [] then ReadyQ(2)
    else ReadyQ(3)
  }

  function Dispatch(s: State): State
    requires Items(s, PickQueue(s)) != []
  {
    var i := Items(s, PickQueue(s))[0];
    var t := Remove(s, PickQueue(s), i);
    SetProc(t, i, t.pcb[i].(status := Running)).(current := i)
  }

  function BeforeDispatch(s: State): State {
    Requeue(Demote(CheckSleeping(Yield(s))))
  }

  predicate CanSchedule(s: State) {
    Items(BeforeDispatch(s), PickQueue(BeforeDispatch(s))) != []
  }

  function Schedule(s: State): State
    requires CanSchedule(s)
  {
    Dispatch(BeforeDispatch(s))
  }
}
