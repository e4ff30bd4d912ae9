/** Every PCB has one pair of links, so it may be in one queue at most. This module states where each PCB has to
    be, according to its status, and proves that queueing, waking and scheduling keep it there. */
module Placement {
  import opened Basics
  import opened KernelModel

  // ---------- the shape of the queues ----------

  ghost predicate NoDup(items: seq<Slot>) {
    forall j, k | 0 <= j < k < |items| :: items[j] != items[k]
  }

  ghost predicate QueueOk(s: State, id: QueueId) {
    NoDup(Items(s, id)) && forall i | i in Items(s, id) :: s.pcb[i].on == Some(id)
  }

  predicate Linked(s: State, i: Slot) {
    s.pcb[i].on.Some? ==> i in Items(s, s.pcb[i].on.value)
  }

  /** The queues and the `on` fields of the PCBs tell the same story. */
  ghost predicate Struct(s: State) {
    (forall id :: QueueOk(s, id)) && (forall i: Slot :: Linked(s, i))
  }

  lemma {:induction false} DelAt(items: seq<Slot>, k: nat)
    requires k < |items| && NoDup(items)
    ensures Del(items, items[k]) == items[..k] + items[k + 1..]
    decreases k
  {
    if k > 0 {
      DelAt(items[1..], k - 1);
      assert items[1..][..k - 1] == items[1..k];
    }
  }

  lemma DelNoDup(items: seq<Slot>, i: Slot)
    requires i in items && NoDup(items)
    ensures NoDup(Del(items, i)) && |Del(items, i)| == |items| - 1
    ensures forall j: Slot :: j in Del(items, i) <==> j in items && j != i
  {
    var k :| 0 <= k < |items| && items[k] == i;
    DelAt(items, k);
    forall j | j in items && j != i
      ensures j in Del(items, i)
    {
      var m :| 0 <= m < |items| && items[m] == j;
      assert Del(items, i)[if m < k then m else m - 1] == j;
    }
  }

  /** Struct looks at the queues and the `on` fields only. */
  lemma SameLinksStruct(s: State, t: State)
    requires Struct(s) && t.queue == s.queue && forall i: Slot :: t.pcb[i].on == s.pcb[i].on
    ensures Struct(t)
  {
    forall q
      ensures QueueOk(t, q)
    {
      assert QueueOk(s, q);
    }
    forall j: Slot
      ensures Linked(t, j)
    {
      assert Linked(s, j);
    }
  }

  lemma PushStruct(s: State, id: QueueId, i: Slot)
    requires Struct(s) && s.pcb[i].on == None
    ensures Struct(Push(s, id, i))
  {
    var t := Push(s, id, i);
    assert QueueOk(s, id);
    forall q
      ensures QueueOk(t, q)
    {
      assert QueueOk(s, q);
    }
    forall j: Slot
      ensures Linked(t, j)
    {
      assert Linked(s, j);
      assert t.pcb[j].on == Some(id) ==> j in Items(s, id) || j == i;
    }
  }

  lemma RemoveStruct(s: State, id: QueueId, i: Slot)
    requires Struct(s) && s.pcb[i].on == Some(id)
    ensures Struct(Remove(s, id, i))
    ensures i !in Items(Remove(s, id, i), id)
    ensures |Items(Remove(s, id, i), id)| == |Items(s, id)| - 1
  {
    var t := Remove(s, id, i);
    assert QueueOk(s, id) && Linked(s, i);
    DelNoDup(Items(s, id), i);
    forall q
      ensures QueueOk(t, q)
    {
      assert QueueOk(s, q);
    }
    forall j: Slot
      ensures Linked(t, j)
    {
      assert Linked(s, j);
    }
  }

  // ---------- status and place ----------

  predicate IsBlocking(id: QueueId) {
    !id.ReadyQ? && !id.SleepQ?
  }

  /** A process that is not running is where its status says, and only there. */
  predicate Placed(p: Proc) {
    match p.status
    case Ready => p.on == Some(ReadyQ(p.priority)) && 1 <= p.priority <= 3
    case Sleeping => p.on == Some(SleepQ)
    case Blocked => p.on.Some? && IsBlocking(p.on.value)
    case NotExist => p.on == None
    case Running => false
    case Exited => false
  }

  ghost predicate OthersPlaced(s: State) {
    && s.pcb[0].on == None
    && forall i: Slot | 0 < i && i != s.current :: Placed(s.pcb[i])
  }

  /** Where the current process may be when the scheduler is called. */
  predicate Parked(s: State) {
    var p := s.pcb[s.current];
    s.current != 0 ==>
      && Placed(p)
      && p.status != Ready
      && (p.status == Sleeping ==> !Due(s, s.current))
  }

  predicate OnCpu(s: State, status: Status) {
    var p := s.pcb[s.current];
    p.status == status && p.on == None && 1 <= p.priority <= 3
  }

  /** Holds between the primitives of one atomic step: everybody else is placed; the current process is running
      or already put aside. */
  ghost predicate Mid(s: State) {
    Struct(s) && OthersPlaced(s) && (OnCpu(s, Running) || Parked(s))
  }

  /** Holds between steps: moreover the current process is the running one. */
  ghost predicate Settled(s: State) {
    Struct(s) && OthersPlaced(s) && OnCpu(s, Running) && s.current != 0
  }

  /** During scheduling the interrupted process is ready but in no queue yet. */
  ghost predicate Scheduling(s: State) {
    Struct(s) && OthersPlaced(s) && (OnCpu(s, Ready) || Parked(s))
  }

  /** The shell is always able to run. */
  predicate ShellReady(s: State) {
    s.pcb[1].status == Ready || s.pcb[1].status == Running
  }

  // ---------- primitives ----------

  /** What blocking, waking and scheduling leave alone. */
  ghost predicate SameButPlace(s: State, t: State) {
    && t.nextPid == s.nextPid && t.locks == s.locks && t.conds == s.conds && t.sems == s.sems
    && t.barriers == s.barriers
    && forall i: Slot ::
      && t.pcb[i].pid == s.pcb[i].pid
      && t.pcb[i].waitingPid == s.pcb[i].waitingPid
      && t.pcb[i].lockWaiting == s.pcb[i].lockWaiting
      && t.pcb[i].owned == s.pcb[i].owned
      && t.pcb[i].cont == s.pcb[i].cont
      && (t.pcb[i].status == NotExist <==> s.pcb[i].status == NotExist)
  }

  lemma WakeStruct(s: State, i: Slot, id: QueueId)
    requires Struct(s) && s.pcb[i].on == Some(id) && id != ReadyQ(1)
    ensures Struct(Wake(Remove(s, id, i), i))
    ensures |Items(Wake(Remove(s, id, i), i), id)| == |Items(s, id)| - 1
  {
    RemoveStruct(s, id, i);
    var t := Remove(s, id, i);
    var u := SetProc(t, i, t.pcb[i].(status := Ready, priority := 1));
    SameLinksStruct(t, u);
    PushStruct(u, ReadyQ(1), i);
  }

  /** Waking the head of a wait queue. */
  lemma UnblockOneMid(s: State, id: QueueId)
    requires Struct(s) && OthersPlaced(s) && IsBlocking(id) && Items(s, id) != []
    requires Items(s, id)[0] != s.current && Items(s, id)[0] != 0
    ensures Struct(UnblockOne(s, id)) && OthersPlaced(UnblockOne(s, id)) && SameButPlace(s, UnblockOne(s, id))
    ensures UnblockOne(s, id).pcb[s.current] == s.pcb[s.current] && UnblockOne(s, id).current == s.current
    ensures Items(UnblockOne(s, id), id) == Items(s, id)[1..]
    ensures Items(UnblockOne(s, id), ReadyQ(1)) == Items(s, ReadyQ(1)) + [Items(s, id)[0]]
    ensures forall q | q != id && q != ReadyQ(1) :: Items(UnblockOne(s, id), q) == Items(s, q)
  {
    assert QueueOk(s, id) && Items(s, id)[0] in Items(s, id);
    WakeStruct(s, Items(s, id)[0], id);
  }

  /** Scheduling does not touch the wait queues and blocks nobody. */
  ghost predicate SameBlocking(s: State, t: State) {
    && SameButPlace(s, t)
    && (forall id | IsBlocking(id) :: Items(t, id) == Items(s, id))
    && (forall i: Slot :: t.pcb[i].status == Blocked <==> s.pcb[i].status == Blocked)
  }

  // ---------- the walk over the sleep queue ----------

  function Overdue(s: State, sleepers: seq<Slot>): seq<Slot> {
    if sleepers == [] then []
    else (if Due(s, sleepers[0]) then [sleepers[0]] else []) + Overdue(s, sleepers[1..])
  }

  function StillAsleep(s: State, sleepers: seq<Slot>): seq<Slot> {
    if sleepers == [] then []
    else (if Due(s, sleepers[0]) then [] else [sleepers[0]]) + StillAsleep(s, sleepers[1..])
  }

  lemma {:induction false} SplitSame(s: State, t: State, sleepers: seq<Slot>)
    requires t.time == s.time && forall i | i in sleepers :: t.pcb[i].alarm == s.pcb[i].alarm
    ensures Overdue(t, sleepers) == Overdue(s, sleepers) && StillAsleep(t, sleepers) == StillAsleep(s, sleepers)
  {
    if sleepers == [] {
    } else {
      SplitSame(s, t, sleepers[1..]);
    }
  }

  /** What a woken process looks like. */
  function Woken(p: Proc): Proc {
    p.(status := Ready, priority := 1, on := Some(ReadyQ(1)))
  }

  lemma WakeShape(s: State, i: Slot, id: QueueId)
    requires id != ReadyQ(1)
    ensures
      var t := Wake(Remove(s, id, i), i);
      && t == s.(pcb := s.pcb[i := Woken(s.pcb[i])], queue := t.queue)
      && Items(t, id) == Del(Items(s, id), i)
      && Items(t, ReadyQ(1)) == Items(s, ReadyQ(1)) + [i]
      && forall q | q != id && q != ReadyQ(1) :: Items(t, q) == Items(s, q)
  {
  }

  /** One wake-up from any queue but the first ready queue: only that queue, the first ready queue and the woken
      PCB change. */
  lemma WakeEffect(s: State, i: Slot, id: QueueId, k: nat)
    requires Struct(s) && id != ReadyQ(1) && k < |Items(s, id)| && Items(s, id)[k] == i
    ensures
      var t := Wake(Remove(s, id, i), i);
      && Struct(t)
      && t == s.(pcb := s.pcb[i := Woken(s.pcb[i])], queue := t.queue)
      && Items(t, id) == Items(s, id)[..k] + Items(s, id)[k + 1..]
      && Items(t, ReadyQ(1)) == Items(s, ReadyQ(1)) + [i]
      && forall q | q != id && q != ReadyQ(1) :: Items(t, q) == Items(s, q)
  {
    assert QueueOk(s, id) && i in Items(s, id);
    WakeStruct(s, i, id);
    DelAt(Items(s, id), k);
    hide Struct, QueueOk, Linked, Del, Wake, Remove, Items, NoDup;
    WakeShape(s, i, id);
  }

  /** The walk is a stable partition: the overdue sleepers move, in order, to the end of the first ready queue and
      the others keep their order. */
  ghost predicate Partitioned(s: State, t: State, kept: seq<Slot>, sleepers: seq<Slot>) {
    && Struct(t)
    && t == s.(pcb := t.pcb, queue := t.queue)
    && Items(t, SleepQ) == kept + StillAsleep(s, sleepers)
    && Items(t, ReadyQ(1)) == Items(s, ReadyQ(1)) + Overdue(s, sleepers)
    && (forall q | q != SleepQ && q != ReadyQ(1) :: Items(t, q) == Items(s, q))
    && (forall i: Slot :: t.pcb[i] == if i in sleepers && Due(s, i) then Woken(s.pcb[i]) else s.pcb[i])
  }

  lemma OnlyOnce(s: State, kept: seq<Slot>, sleepers: seq<Slot>)
    requires Struct(s) && Items(s, SleepQ) == kept + sleepers && sleepers != []
    ensures sleepers[0] !in sleepers[1..] && sleepers == [sleepers[0]] + sleepers[1..]
  {
    assert QueueOk(s, SleepQ);
    assert forall k | 0 <= k < |sleepers| :: Items(s, SleepQ)[|kept| + k] == sleepers[k];
  }

  lemma SplitFirst(s: State, s1: State, sleepers: seq<Slot>)
    requires sleepers != [] && Due(s, sleepers[0]) && s1.time == s.time
    requires s1.pcb == s.pcb[sleepers[0] := Woken(s.pcb[sleepers[0]])]
    ensures Overdue(s, sleepers) == [sleepers[0]] + Overdue(s1, sleepers[1..])
    ensures StillAsleep(s, sleepers) == StillAsleep(s1, sleepers[1..])
    ensures Overdue(s1, sleepers[1..]) == Overdue(s, sleepers[1..])
  {
    SplitSame(s, s1, sleepers[1..]);
    assert [] + StillAsleep(s, sleepers[1..]) == StillAsleep(s, sleepers[1..]);
  }

  lemma WakeDueStep(s: State, s1: State, t: State, kept: seq<Slot>, sleepers: seq<Slot>)
    requires Struct(s) && Items(s, SleepQ) == kept + sleepers && sleepers != [] && Due(s, sleepers[0])
    requires s1 == s.(pcb := s.pcb[sleepers[0] := Woken(s.pcb[sleepers[0]])], queue := s1.queue)
    requires Items(s1, ReadyQ(1)) == Items(s, ReadyQ(1)) + [sleepers[0]]
    requires forall q | q != SleepQ && q != ReadyQ(1) :: Items(s1, q) == Items(s, q)
    requires Partitioned(s1, t, kept, sleepers[1..])
    ensures Partitioned(s, t, kept, sleepers)
  {
    var i, rest := sleepers[0], sleepers[1..];
    OnlyOnce(s, kept, sleepers);
    SplitFirst(s, s1, sleepers);
    ConcatAssoc(Items(s, ReadyQ(1)), [i], Overdue(s, rest));
    hide Struct, QueueOk, Items, Overdue, StillAsleep, Timer;
    forall k: Slot
      ensures t.pcb[k] == if k in sleepers && Due(s, k) then Woken(s.pcb[k]) else s.pcb[k]
    {
      assert k in sleepers <==> k == i || k in rest;
    }
  }

  lemma {:induction false} WakeDueEffect(s: State, kept: seq<Slot>, sleepers: seq<Slot>)
    requires Struct(s) && Items(s, SleepQ) == kept + sleepers
    ensures Partitioned(s, WakeDue(s, sleepers), kept, sleepers)
    decreases |sleepers|
  {
    var t := WakeDue(s, sleepers);
    if sleepers == [] {
      assert kept + sleepers == kept;
    } else if Due(s, sleepers[0]) {
      var s1 := Wake(Remove(s, SleepQ, sleepers[0]), sleepers[0]);
      WakeEffect(s, sleepers[0], SleepQ, |kept|);
      assert Items(s1, SleepQ) == kept + sleepers[1..];
      WakeDueEffect(s1, kept, sleepers[1..]);
      WakeDueStep(s, s1, t, kept, sleepers);
    } else {
      assert Items(s, SleepQ) == (kept + [sleepers[0]]) + sleepers[1..];
      WakeDueEffect(s, kept + [sleepers[0]], sleepers[1..]);
      ConcatAssoc(kept, [sleepers[0]], StillAsleep(s, sleepers[1..]));
      assert sleepers == [sleepers[0]] + sleepers[1..];
    }
  }

  lemma CheckSleepingEffect(s: State)
    requires Struct(s)
    ensures Partitioned(s, CheckSleeping(s), [], Items(s, SleepQ))
  {
    assert [] + Items(s, SleepQ) == Items(s, SleepQ);
    WakeDueEffect(s, [], Items(s, SleepQ));
  }

  // ---------- waking a whole wait queue ----------

  ghost predicate Drained(s: State, t: State, id: QueueId) {
    && Struct(t)
    && t == s.(pcb := t.pcb, queue := t.queue)
    && Items(t, id) == []
    && Items(t, ReadyQ(1)) == Items(s, ReadyQ(1)) + Items(s, id)
    && (forall q | q != id && q != ReadyQ(1) :: Items(t, q) == Items(s, q))
    && (forall i: Slot :: t.pcb[i] == if i in Items(s, id) then Woken(s.pcb[i]) else s.pcb[i])
  }

  lemma UnblockAllStep(s: State, t: State, id: QueueId)
    requires Struct(s) && id != ReadyQ(1) && Items(s, id) != []
    requires Drained(UnblockOne(s, id), t, id)
    ensures Drained(s, t, id)
  {
    var items := Items(s, id);
    var i := items[0];
    WakeEffect(s, i, id, 0);
    assert QueueOk(s, id);
    assert i !in items[1..];
    assert items == [i] + items[1..];
    ConcatAssoc(Items(s, ReadyQ(1)), [i], items[1..]);
    hide Struct, QueueOk, UnblockOne, Items;
  }

  lemma {:induction false} UnblockAllEffect(s: State, id: QueueId)
    requires Struct(s) && id != ReadyQ(1)
    ensures Drained(s, UnblockAll(s, id), id)
    decreases |Items(s, id)|
  {
    if Items(s, id) == [] {
    } else {
      WakeEffect(s, Items(s, id)[0], id, 0);
      UnblockAllEffect(UnblockOne(s, id), id);
      UnblockAllStep(s, UnblockAll(s, id), id);
    }
  }

  lemma DrainPlaces(s: State, t: State, id: QueueId)
    requires OthersPlaced(s) && Struct(s) && IsBlocking(id) && s.current !in Items(s, id) && Drained(s, t, id)
    ensures OthersPlaced(t) && SameButPlace(s, t)
    ensures t.pcb[s.current] == s.pcb[s.current]
  {
    assert QueueOk(s, id);
  }

  lemma WaitersAreBlocked(s: State, id: QueueId, i: Slot)
    requires Mid(s) && IsBlocking(id) && i in Items(s, id)
    ensures i != 0 && s.pcb[i].status == Blocked && s.pcb[i].on == Some(id)
    ensures i == s.current ==> Parked(s)
  {
    assert QueueOk(s, id);
  }

  // ---------- one pass of the scheduler ----------

  ghost predicate AllPlaced(s: State) {
    Struct(s) && s.pcb[0].on == None && forall i: Slot | 0 < i :: Placed(s.pcb[i])
  }

  lemma YieldScheduling(s: State)
    requires Mid(s)
    ensures Scheduling(Yield(s)) && SameBlocking(s, Yield(s))
  {
    SameLinksStruct(s, Yield(s));
  }

  lemma SleepersAreAsleep(s: State, i: Slot)
    requires Scheduling(s) && i in Items(s, SleepQ)
    ensures i != 0 && s.pcb[i].status == Sleeping && (i == s.current ==> !Due(s, i))
  {
    assert QueueOk(s, SleepQ);
  }

  lemma PartitionPlaces(s: State, t: State)
    requires Scheduling(s) && Partitioned(s, t, [], Items(s, SleepQ))
    ensures Scheduling(t) && SameBlocking(s, t)
    ensures t.current == s.current && t.pcb[s.current] == s.pcb[s.current]
  {
    forall i: Slot
      ensures t.pcb[i] == s.pcb[i] || (i != 0 && i != s.current && s.pcb[i].status == Sleeping
        && t.pcb[i] == Woken(s.pcb[i]))
    {
      if i in Items(s, SleepQ) {
        SleepersAreAsleep(s, i);
      }
    }
  }

  lemma CheckSleepingScheduling(s: State)
    requires Scheduling(s)
    ensures Scheduling(CheckSleeping(s)) && SameBlocking(s, CheckSleeping(s))
    ensures CheckSleeping(s).current == s.current && CheckSleeping(s).pcb[s.current] == s.pcb[s.current]
  {
    CheckSleepingEffect(s);
    PartitionPlaces(s, CheckSleeping(s));
  }

  lemma RequeuePlaces(s: State)
    requires Scheduling(s)
    ensures AllPlaced(Requeue(Demote(s))) && SameBlocking(s, Requeue(Demote(s)))
    ensures OnCpu(s, Ready) && s.current != 0 ==> Requeue(Demote(s)).pcb[s.current].status == Ready
  {
    SameLinksStruct(s, Demote(s));
    if OnCpu(s, Ready) && s.current != 0 {
      PushStruct(Demote(s), ReadyQ(Demote(s).pcb[s.current].priority), s.current);
    }
  }

  lemma DispatchSettles(s: State)
    requires AllPlaced(s) && Items(s, PickQueue(s)) != []
    ensures Settled(Dispatch(s)) && SameBlocking(s, Dispatch(s))
    ensures ShellReady(s) ==> ShellReady(Dispatch(s))
  {
    var i := Items(s, PickQueue(s))[0];
    assert QueueOk(s, PickQueue(s)) && i in Items(s, PickQueue(s));
    RemoveStruct(s, PickQueue(s), i);
    var t := Remove(s, PickQueue(s), i);
    SameLinksStruct(t, Dispatch(s));
  }

  lemma SomeoneReady(s: State, i: Slot)
    requires AllPlaced(s) && s.pcb[i].status == Ready && i != 0
    ensures Items(s, PickQueue(s)) != []
  {
    assert Linked(s, i);
  }

  lemma ShellStaysReady(s: State, t: State)
    requires Mid(s) && ShellReady(s) && t == CheckSleeping(Yield(s)) && Scheduling(t)
    ensures Requeue(Demote(t)).pcb[1].status == Ready
  {
    YieldScheduling(s);
    CheckSleepingScheduling(Yield(s));
    CheckSleepingEffect(Yield(s));
  }

  /** If the shell never blocks, the scheduler always finds a process to run, and afterwards exactly the chosen
      process is running and everybody else is where its status says. */
  lemma ScheduleSettles(s: State)
    requires Mid(s) && ShellReady(s)
    ensures CanSchedule(s)
    ensures Settled(Schedule(s)) && SameBlocking(s, Schedule(s)) && ShellReady(Schedule(s))
  {
    YieldScheduling(s);
    CheckSleepingScheduling(Yield(s));
    var t := CheckSleeping(Yield(s));
    RequeuePlaces(t);
    ShellStaysReady(s, t);
    SomeoneReady(BeforeDispatch(s), 1);
    DispatchSettles(BeforeDispatch(s));
  }
}
