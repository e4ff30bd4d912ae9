/** The kernel in its own form: the queues are linked through the PCBs, the tables are updated in place, loops walk the
    links. Every method is proved to do what the corresponding function of KernelModel and KernelSteps says. */
module Machine {
  import opened KernelModel
  import opened Placement
  import opened KernelSteps
  import opened Links
  import opened KernelInvariant
  import opened LifeInv
  import opened Death
  import opened Runs
  import opened Initialization

  class Kernel {
    const table: QueueTable
    const numLocks: nat
    const numConds: nat
    const numSems: nat
    const numBarriers: nat
    var pcb: Table
    var currentRunning: Slot
    var nextPid: int
    var timeElapsed: nat
    var locks: seq<Lock>
    var conds: seq<int>
    var sems: seq<int>
    var barriers: seq<Barrier>

    /** The value the kernel's memory stands for. */
    ghost function View(): State
      reads this, table`items
    {
      State(pcb, table.items, currentRunning, nextPid, timeElapsed, locks, conds, sems, barriers)
    }

    /** The queue names of a machine of this size. */
    static ghost predicate Exists(id: QueueId, nLocks: nat, nConds: nat, nSems: nat, nBarriers: nat) {
      match id
      case ReadyQ(p) => 1 <= p <= 3
      case SleepQ => true
      case WaitQ(i) => 0 <= i < NUM_MAX_TASK
      case LockQ(l) => 0 <= l < nLocks
      case CondQ(c) => 0 <= c < nConds
      case SemQ(x) => 0 <= x < nSems
      case BarQ(b) => 0 <= b < nBarriers
    }

    /** The queues that exist. */
    ghost predicate Names(id: QueueId) {
      Exists(id, numLocks, numConds, numSems, numBarriers)
    }

    ghost predicate Valid()
      reads this, table, table.Repr
    {
      && this !in table.Repr
      && table.Valid()
      && Struct(View())
      && (forall i: Slot :: table.nodes[i].on == pcb[i].on)
      && (forall id | Names(id) :: id in table.queues)
      && |locks| == numLocks && |conds| == numConds && |sems| == numSems && |barriers| == numBarriers
    }

    static function ZeroTable(): (pcb: Table)
      ensures forall i: Slot :: pcb[i] == ZERO_PROC
    {
      seq(NUM_MAX_TASK, _ => ZERO_PROC)
    }

    static function NameSet(nLocks: nat, nConds: nat, nSems: nat, nBarriers: nat): (ids: set<QueueId>)
      ensures forall id | Exists(id, nLocks, nConds, nSems, nBarriers) :: id in ids
    {
      {ReadyQ(1), ReadyQ(2), ReadyQ(3), SleepQ} + (set i | 0 <= i < NUM_MAX_TASK :: WaitQ(i))
      + (set l | 0 <= l < nLocks :: LockQ(l)) + (set c | 0 <= c < nConds :: CondQ(c))
      + (set x | 0 <= x < nSems :: SemQ(x)) + (set b | 0 <= b < nBarriers :: BarQ(b))
    }

    /** Memory as it is loaded, with the synchronization objects in their initial state. */
    constructor (table: QueueTable, nLocks: nat, nConds: nat, semVals: seq<nat>, goals: seq<int>)
      requires table.Valid() && table.items == map[] && forall i: Slot :: table.nodes[i].on == None
      requires table.queues.Keys == NameSet(nLocks, nConds, |semVals|, |goals|)
      ensures Loaded() && this.table == table
      ensures View() == State(pcb, map[], 0, 0, 0,
        FreeLocks(nLocks), NobodyWaiting(nConds), InitialSems(semVals), NobodyArrived(goals))
    {
      hide NameSet, FreeLocks, NobodyWaiting, InitialSems, NobodyArrived, ZeroTable, QueueTable.Valid;
      this.table := table;
      numLocks, numConds, numSems, numBarriers := nLocks, nConds, |semVals|, |goals|;
      pcb := ZeroTable();
      currentRunning, nextPid, timeElapsed := 0, 0, 0;
      locks, conds := FreeLocks(nLocks), NobodyWaiting(nConds);
      sems, barriers := InitialSems(semVals), NobodyArrived(goals);
    }

    ghost predicate Loaded()
      reads this, table, table.Repr
    {
      && this !in table.Repr && table.Valid() && table.items == map[]
      && (forall i: Slot :: pcb[i] == ZERO_PROC && table.nodes[i].on == None)
      && table.queues.Keys == NameSet(numLocks, numConds, numSems, numBarriers)
      && |locks| == numLocks && |conds| == numConds && |sems| == numSems && |barriers| == numBarriers
    }

    static lemma BootTable(p: Table, nLocks: nat, nConds: nat, semVals: seq<nat>, goals: seq<int>)
      requires p[0] == ZERO_PROC && p[1] == ShellProc().(on := Some(ReadyQ(3)))
      requires forall j: Slot | 2 <= j :: p[j] == ZERO_PROC.(status := NotExist)
      ensures p == Boot(nLocks, nConds, semVals, goals).pcb
    {
    }

    static lemma ShellIsQueued(before: map<QueueId, seq<Slot>>, after: map<QueueId, seq<Slot>>)
      requires before == BOOT_QUEUES[ReadyQ(3) := []] && after == before[ReadyQ(3) := before[ReadyQ(3)] + [1]]
      ensures after == BOOT_QUEUES
    {
      assert before[ReadyQ(3)] + [1] == [1];
    }

    /** Writes fields of a PCB other than its links. */
    method SetPcb(i: Slot, v: Proc)
      requires Valid() && v.on == pcb[i].on
      modifies this`pcb
      ensures Valid() && View() == SetProc(old(View()), i, v)
    {
      SameLinksStruct(View(), SetProc(View(), i, v));
      pcb := pcb[i := v];
    }

    method FreeSlots()
      requires Valid() && forall j: Slot :: pcb[j] == ZERO_PROC
      modifies this`pcb
      ensures Valid() && View() == old(View()).(pcb := pcb)
      ensures forall j: Slot :: pcb[j] == if 2 <= j then ZERO_PROC.(status := NotExist) else ZERO_PROC
    {
      hide Struct, Valid;
      var i := 2;
      while i < NUM_MAX_TASK
        invariant 2 <= i <= NUM_MAX_TASK && Valid() && View() == old(View()).(pcb := pcb)
        invariant forall j: Slot :: pcb[j] == if 2 <= j < i then ZERO_PROC.(status := NotExist) else ZERO_PROC
      {
        SetPcb(i, pcb[i].(status := NotExist));
        i := i + 1;
      }
    }

    method StartAs(current: Slot, pid: int)
      requires Valid()
      modifies this`currentRunning, this`nextPid
      ensures Valid() && View() == old(View()).(current := current, nextPid := pid)
    {
      SameLinksStruct(View(), View().(current := current, nextPid := pid));
      currentRunning, nextPid := current, pid;
    }

    static lemma InitKeepsStruct(s: State, id: QueueId)
      requires Struct(s)
      ensures Struct(SetItems(s, id, [])) <==> Items(s, id) == []
    {
      if Items(s, id) == [] {
        SameItemsStruct(s, SetItems(s, id, []));
      } else {
        var i := Items(s, id)[0];
        assert QueueOk(s, id) && i in Items(s, id);
        assert !Linked(SetItems(s, id, []), i);
      }
    }

    /** Empties a queue. If somebody was in it the PCBs and the queues do not agree any more. */
    method QueueInit(id: QueueId)
      requires Valid() && Names(id)
      modifies table`items, table.Repr
      ensures View() == SetItems(old(View()), id, [])
      ensures Valid() <==> Items(old(View()), id) == []
    {
      ghost var s := View();
      table.Init(id);
      InitKeepsStruct(s, id);
    }

    method InitQueues()
      requires Valid() && View().queue == map[]
      modifies table`items, table.Repr
      ensures Valid() && View() == old(View()).(queue := BOOT_QUEUES[ReadyQ(3) := []])
    {
      hide Struct, Valid;
      assert Names(ReadyQ(1)) && Names(ReadyQ(2)) && Names(ReadyQ(3)) && Names(SleepQ) && Names(WaitQ(1));
      QueueInit(ReadyQ(1));
      QueueInit(ReadyQ(2));
      QueueInit(ReadyQ(3));
      QueueInit(SleepQ);
      QueueInit(WaitQ(1));
      assert View().queue == BOOT_QUEUES[ReadyQ(3) := []];
    }

    method QueuePush(id: QueueId, i: Slot)
      requires Valid() && Names(id) && pcb[i].on == None
      modifies this`pcb, table`items, table.Repr
      ensures Valid() && View() == Push(old(View()), id, i)
    {
      ghost var t := Push(View(), id, i);
      PushStruct(View(), id, i);
      table.Push(id, i);
      pcb := pcb[i := pcb[i].(on := Some(id))];
      assert View() == t;
    }

    static lemma EmptyStruct(v: State)
      requires v.queue == map[] && forall i: Slot :: v.pcb[i].on == None
      ensures Struct(v)
    {
      forall id
        ensures QueueOk(v, id)
      {
      }
    }

    lemma LoadedValid()
      requires Loaded()
      ensures Valid()
    {
      EmptyStruct(View());
      forall id | Names(id)
        ensures id in table.queues
      {
        assert id in NameSet(numLocks, numConds, numSems, numBarriers);
      }
    }

    /** Fills the table; slot 0, which runs start-up, is the current one. */
    method InitPcb()
      requires Loaded()
      modifies this`pcb, this`currentRunning, this`nextPid, table`items, table.Repr
      ensures Valid() && View() == old(View()).(pcb := pcb, queue := BOOT_QUEUES, current := 0, nextPid := 2)
      ensures pcb[0] == ZERO_PROC && pcb[1] == ShellProc().(on := Some(ReadyQ(3)))
      ensures forall j: Slot | 2 <= j :: pcb[j] == ZERO_PROC.(status := NotExist)
    {
      hide Struct, Valid;
      LoadedValid();
      StartAs(0, nextPid);
      InitQueues();
      FreeSlots();
      SetPcb(1, ShellProc());
      QueuePush(ReadyQ(3), 1);
      ShellIsQueued(BOOT_QUEUES[ReadyQ(3) := []], View().queue);
      StartAs(0, 2);
    }

    /** Start-up: every queue is empty, every slot from 2 on is free, and the shell, in slot 1, is made ready at
        priority 3. */
    static method Start(nLocks: nat, nConds: nat, semVals: seq<nat>, goals: seq<int>) returns (k: Kernel)
      ensures k.Valid() && fresh(k) && fresh(k.table) && fresh(k.table.Repr)
      ensures k.View() == Boot(nLocks, nConds, semVals, goals)
    {
      var table := new QueueTable(NameSet(nLocks, nConds, |semVals|, |goals|));
      k := new Kernel(table, nLocks, nConds, semVals, goals);
      k.InitPcb();
      BootTable(k.pcb, nLocks, nConds, semVals, goals);
    }

    lemma Sizes()
      requires Valid()
      ensures |locks| == numLocks && |conds| == numConds && |sems| == numSems && |barriers| == numBarriers
      ensures Struct(View())
    {
    }

    // ---------- queues ----------

    lemma HeadIs(id: QueueId)
      requires Valid() && Names(id)
      ensures id in table.queues && |table.nodes| == NUM_MAX_TASK
      ensures table.queues[id].head == table.NodeAt(Items(View(), id), 0)
    {
      table.HeadIs(id);
    }

    lemma NextIs(id: QueueId, k: nat)
      requires Valid() && Names(id) && k < |Items(View(), id)|
      ensures |table.nodes| == NUM_MAX_TASK
      ensures table.nodes[Items(View(), id)[k]].next == table.NodeAt(Items(View(), id), k + 1)
      ensures table.nodes[Items(View(), id)[k]].slot == Items(View(), id)[k]
    {
      table.NextIs(id, k);
    }

    method QueueIsEmpty(id: QueueId) returns (empty: bool)
      requires Valid() && Names(id)
      ensures empty <==> Items(View(), id) == []
    {
      empty := table.IsEmpty(id);
    }

    method QueueDequeue(id: QueueId) returns (i: Slot)
      requires Valid() && Names(id) && Items(View(), id) != []
      modifies this`pcb, table`items, table.Repr
      ensures i == Items(old(View()), id)[0]
      ensures Valid() && View() == Remove(old(View()), id, i)
    {
      ghost var t := Remove(View(), id, Items(View(), id)[0]);
      assert QueueOk(View(), id) && Items(View(), id)[0] in Items(View(), id);
      RemoveStruct(View(), id, Items(View(), id)[0]);
      i := table.Dequeue(id);
      pcb := pcb[i := pcb[i].(on := None)];
      assert View() == t;
    }

    method QueueRemove(id: QueueId, ghost k: nat, i: Slot) returns (next: Node?)
      requires Valid() && Names(id) && k < |Items(View(), id)| && Items(View(), id)[k] == i
      modifies this`pcb, table`items, table.Repr
      ensures |table.nodes| == NUM_MAX_TASK
      ensures next == table.NodeAt(Items(old(View()), id), k + 1) && table.nodes[i].next == null
      ensures Valid() && View() == Remove(old(View()), id, i)
    {
      assert QueueOk(View(), id) && i in Items(View(), id);
      RemoveStruct(View(), id, i);
      DelAt(Items(View(), id), k);
      ghost var t := Remove(View(), id, i);
      next := table.Remove(id, k, i);
      pcb := pcb[i := pcb[i].(on := None)];
      assert View() == t;
    }

    // ---------- blocking and waking ----------

    method DoBlock(id: QueueId)
      requires Valid() && Names(id) && pcb[currentRunning].on == None
      modifies this`pcb, table`items, table.Repr
      ensures Valid() && View() == Block(old(View()), id)
    {
      hide Valid, Struct;
      SetPcb(currentRunning, pcb[currentRunning].(status := Blocked));
      QueuePush(id, currentRunning);
    }

    method MakeReady(i: Slot)
      requires Valid() && pcb[i].on == None
      modifies this`pcb, table`items, table.Repr
      ensures Valid() && View() == Wake(old(View()), i)
    {
      hide Valid, Struct;
      SetPcb(i, pcb[i].(status := Ready, priority := 1));
      assert Names(ReadyQ(1));
      QueuePush(ReadyQ(1), i);
    }

    method DoUnblockOne(id: QueueId)
      requires Valid() && Names(id) && id != ReadyQ(1) && Items(View(), id) != []
      modifies this`pcb, table`items, table.Repr
      ensures Valid() && View() == UnblockOne(old(View()), id)
      ensures |Items(View(), id)| == |Items(old(View()), id)| - 1
    {
      hide Valid, Struct;
      Sizes();
      WakeEffect(View(), Items(View(), id)[0], id, 0);
      var i := QueueDequeue(id);
      MakeReady(i);
    }

    method DoUnblockAll(id: QueueId)
      requires Valid() && Names(id) && id != ReadyQ(1)
      modifies this`pcb, table`items, table.Repr
      ensures Valid() && View() == UnblockAll(old(View()), id)
    {
      hide Valid, Struct;
      var empty := QueueIsEmpty(id);
      while !empty
        invariant Valid() && UnblockAll(View(), id) == UnblockAll(old(View()), id)
        invariant empty <==> Items(View(), id) == []
        invariant unchanged(this`currentRunning, this`nextPid, this`timeElapsed)
        invariant unchanged(this`locks, this`conds, this`sems, this`barriers)
        decreases |Items(View(), id)|
      {
        DoUnblockOne(id);
        empty := QueueIsEmpty(id);
      }
    }

    // ---------- scheduling ----------

    method WakeSleeper(ghost k: nat, i: Slot) returns (next: Node?)
      requires Valid() && k < |Items(View(), SleepQ)| && Items(View(), SleepQ)[k] == i
      modifies this`pcb, table`items, table.Repr
      ensures |table.nodes| == NUM_MAX_TASK && next == table.NodeAt(Items(old(View()), SleepQ), k + 1)
      ensures Valid() && View() == Wake(Remove(old(View()), SleepQ, i), i)
      ensures Items(View(), SleepQ) == Items(old(View()), SleepQ)[..k] + Items(old(View()), SleepQ)[k + 1..]
    {
      assert Names(SleepQ);
      WakeEffect(View(), i, SleepQ, k);
      next := QueueRemove(SleepQ, k, i);
      MakeReady(i);
    }

    /** One round of the walk: p is the node of the first of the sleepers that are left. */
    method PassSleeper(ghost kept: seq<Slot>, ghost rest: seq<Slot>, p: Node)
      returns (next: Node?, ghost newKept: seq<Slot>)
      requires Valid() && Items(View(), SleepQ) == kept + rest && rest != []
      requires |table.nodes| == NUM_MAX_TASK && p == table.NodeAt(rest, 0)
      modifies this`pcb, table`items, table.Repr
      ensures Valid() && Items(View(), SleepQ) == newKept + rest[1..]
      ensures |table.nodes| == NUM_MAX_TASK && next == table.NodeAt(rest[1..], 0)
      ensures WakeDue(View(), rest[1..]) == WakeDue(old(View()), rest)
    {
      hide Valid, Wake, Remove;
      NextIs(SleepQ, |kept|);
      newKept := kept;
      var i := p.slot;
      if pcb[i].alarm < timeElapsed / TIMER_UNIT {
        next := WakeSleeper(|kept|, i);
      } else {
        next := p.next;
        newKept := kept + [i];
      }
    }

    /** Walks the sleep queue along its links while it takes elements out of it. */
    method CheckSleeping()
      requires Valid()
      modifies this`pcb, table`items, table.Repr
      ensures Valid() && View() == KernelModel.CheckSleeping(old(View()))
    {
      hide Valid;
      ghost var kept, rest := [], Items(View(), SleepQ);
      HeadIs(SleepQ);
      var p := table.queues[SleepQ].head;
      while p != null
        invariant Valid() && Items(View(), SleepQ) == kept + rest
        invariant |table.nodes| == NUM_MAX_TASK && p == table.NodeAt(rest, 0)
        invariant WakeDue(View(), rest) == KernelModel.CheckSleeping(old(View()))
        decreases |rest|
      {
        p, kept := PassSleeper(kept, rest, p);
        rest := rest[1..];
      }
    }

    method DemoteCurrent()
      requires Valid() && Scheduling(View())
      modifies this`pcb, table`items, table.Repr
      ensures Valid() && View() == Requeue(Demote(old(View())))
    {
      hide Valid, Struct;
      var priority := pcb[currentRunning].priority;
      SetPcb(currentRunning, pcb[currentRunning].(priority := if priority <= 2 then priority + 1 else 3));
      var status := pcb[currentRunning].status;
      if currentRunning != 0 && status != Blocked && status != Sleeping && status != NotExist {
        assert Names(ReadyQ(pcb[currentRunning].priority));
        QueuePush(ReadyQ(pcb[currentRunning].priority), currentRunning);
      }
    }

    /** The first half of a scheduler pass: sleepers are woken, the current process is demoted and queued again. */
    method PutBack()
      requires Valid() && Mid(View())
      modifies this`pcb, table`items, table.Repr
      ensures Valid() && View() == BeforeDispatch(old(View()))
    {
      ghost var s := View();
      YieldScheduling(s);
      CheckSleepingScheduling(Yield(s));
      if pcb[currentRunning].status == Running {
        SetPcb(currentRunning, pcb[currentRunning].(status := Ready));
      }
      assert View() == Yield(s);
      CheckSleeping();
      DemoteCurrent();
    }

    /** The second half: the first process of the highest non-empty ready queue runs. */
    method TakeNext() returns (next: Slot)
      requires Valid() && Items(View(), PickQueue(View())) != []
      modifies this`pcb, table`items, table.Repr
      ensures next == Items(old(View()), PickQueue(old(View())))[0]
      ensures Valid() && View() == Remove(old(View()), PickQueue(old(View())), next)
    {
      assert Names(ReadyQ(1)) && Names(ReadyQ(2)) && Names(ReadyQ(3));
      var empty1 := QueueIsEmpty(ReadyQ(1));
      var empty2 := QueueIsEmpty(ReadyQ(2));
      var id := if !empty1 then ReadyQ(1) else if !empty2 then ReadyQ(2) else ReadyQ(3);
      assert id == PickQueue(View());
      next := QueueDequeue(id);
    }

    method RunNext()
      requires Valid() && Items(View(), PickQueue(View())) != []
      modifies this`pcb, this`currentRunning, table`items, table.Repr
      ensures Valid() && View() == Dispatch(old(View()))
    {
      var next := TakeNext();
      SetPcb(next, pcb[next].(status := Running));
      ghost var t := View();
      currentRunning := next;
      SameLinksStruct(t, View());
    }

    method Scheduler()
      requires Valid() && Mid(View()) && CanSchedule(View())
      modifies this`pcb, this`currentRunning, table`items, table.Repr
      ensures Valid() && View() == Schedule(old(View()))
    {
      PutBack();
      RunNext();
    }

    // ---------- system calls ----------

    /** The kernel is in a good state and the current process may take this step. */
    ghost predicate Accepts(e: Event)
      reads this, table, table.Repr
    {
      Valid() && Inv(View()) && Enabled(View(), e)
    }

    /** The step that starts in s has been done. */
    ghost predicate Did(s: State, e: Event)
      reads this, table, table.Repr
    {
      Valid() && Possible(s, e) && View() == Step(s, e)
    }

    method IrqTimer()
      requires Accepts(Tick)
      modifies this`pcb, this`currentRunning, table`items, table.Repr
      ensures Did(old(View()), Tick)
    {
      StepKeepsInv(View(), Tick);
      Scheduler();
    }

    method Elapse(ticks: nat)
      requires Accepts(Advance(ticks))
      modifies this`timeElapsed
      ensures Did(old(View()), Advance(ticks))
    {
      ghost var s := View();
      timeElapsed := timeElapsed + ticks;
      SameLinksStruct(s, View());
    }

    method GoToSleep(seconds: nat)
      requires Valid() && pcb[currentRunning].on == None
      modifies this`pcb, table`items, table.Repr
      ensures Valid() && View() == Doze(old(View()), seconds)
    {
      hide Valid, Struct;
      SetPcb(currentRunning, pcb[currentRunning].(status := Sleeping, alarm := seconds + timeElapsed / TIMER_UNIT));
      assert Names(SleepQ);
      QueuePush(SleepQ, currentRunning);
    }

    method DoSleep(seconds: nat)
      requires Accepts(Event.Sleep(seconds))
      modifies this`pcb, this`currentRunning, table`items, table.Repr
      ensures Did(old(View()), Event.Sleep(seconds))
    {
      ReadyToSchedule(View(), Event.Sleep(seconds));
      GoToSleep(seconds);
      Scheduler();
    }

    method FindFree() returns (i: nat)
      ensures i == FreeSlot(View())
    {
      i := 2;
      while i < NUM_MAX_TASK && pcb[i].status != NotExist
        invariant 2 <= i <= NUM_MAX_TASK && FreeFrom(View(), i) == FreeSlot(View())
      {
        i := i + 1;
      }
    }

    method FindPid(pid: int) returns (i: nat)
      ensures i == Scan(View(), pid)
    {
      i := 2;
      while i < NUM_MAX_TASK && pcb[i].pid != pid
        invariant 2 <= i <= NUM_MAX_TASK && ScanFrom(View(), pid, i) == Scan(View(), pid)
      {
        i := i + 1;
      }
    }

    method CountPid()
      requires Valid()
      modifies this`nextPid
      ensures Valid() && View() == old(View()).(nextPid := old(nextPid) + 1)
    {
      SameLinksStruct(View(), View().(nextPid := nextPid + 1));
      nextPid := nextPid + 1;
    }

    method FillSlot(i: Slot)
      requires Valid() && Items(View(), WaitQ(i)) == [] && pcb[i].on == None
      modifies this`pcb, this`nextPid, table`items, table.Repr
      ensures Valid() && View() == SpawnAt(old(View()), i)
    {
      hide Valid, Struct;
      SetPcb(i, NewProc(nextPid).(alarm := pcb[i].alarm));
      QueueInit(WaitQ(i));
      assert Names(ReadyQ(1));
      QueuePush(ReadyQ(1), i);
      CountPid();
    }

    method DoSpawn()
      requires Accepts(Spawn)
      modifies this`pcb, this`currentRunning, this`nextPid, table`items, table.Repr
      ensures Did(old(View()), Spawn)
    {
      ReadyToSchedule(View(), Spawn);
      var i := FindFree();
      NobodyWaitsForTheDead(View(), i);
      FillSlot(i);
      Scheduler();
    }

    method BlockOnPid(pid: int)
      requires Valid() && pcb[currentRunning].on == None && Scan(View(), pid) < NUM_MAX_TASK
      modifies this`pcb, table`items, table.Repr
      ensures Valid() && View() == WaitFor(old(View()), pid)
    {
      hide Valid, Struct;
      var i := FindPid(pid);
      assert Names(WaitQ(i));
      DoBlock(WaitQ(i));
      SetPcb(currentRunning, pcb[currentRunning].(waitingPid := pid));
    }

    /** Does not test whether the process is alive. */
    method DoWait(pid: int)
      requires Valid() && Inv(View()) && Callable(View(), Wait(pid)) && currentRunning != 1
      modifies this`pcb, this`currentRunning, table`items, table.Repr
      ensures Did(old(View()), Wait(pid))
    {
      WaitIsPossible(View(), pid);
      BlockOnPid(pid);
      Scheduler();
    }

    // ---------- mutexes ----------

    method Disinherit(j: Slot, l: int)
      requires Valid()
      modifies this`pcb
      ensures Valid() && View() == SetProc(old(View()), j, old(pcb[j]).(owned := Drop(old(pcb[j].owned), l)))
    {
      var owned: Owned := pcb[j].owned;
      var i := 0;
      while i < MAX_MUTEX_OWN
        invariant 0 <= i <= MAX_MUTEX_OWN
        invariant forall k | 0 <= k < MAX_MUTEX_OWN ::
          owned[k] == if k < i then Drop(pcb[j].owned, l)[k] else pcb[j].owned[k]
      {
        if owned[i] == Some(l) {
          owned := owned[i := None];
        }
        i := i + 1;
      }
      assert owned == Drop(pcb[j].owned, l);
      SetPcb(j, pcb[j].(owned := owned));
    }

    method SetLock(l: int, v: Lock)
      requires Valid() && 0 <= l < |locks|
      modifies this`locks
      ensures Valid() && View() == old(View()).(locks := old(locks)[l := v])
    {
      SameLinksStruct(View(), View().(locks := locks[l := v]));
      locks := locks[l := v];
    }

    /** Waking does not look at the mutexes. */
    static lemma {:induction false} UnblockAllLocks(s: State, id: QueueId, locks: seq<Lock>)
      requires id != ReadyQ(1)
      ensures UnblockAll(s.(locks := locks), id) == UnblockAll(s, id).(locks := locks)
      decreases |Items(s, id)|
    {
      if Items(s, id) == [] {
      } else {
        assert UnblockOne(s.(locks := locks), id) == UnblockOne(s, id).(locks := locks);
        UnblockAllLocks(UnblockOne(s, id), id, locks);
      }
    }

    /** Frees a mutex for its owner, who need not be the caller. */
    method MutexRelease(l: int)
      requires Valid() && LockRange(View(), l) && Scan(View(), locks[l].owner) < NUM_MAX_TASK
      modifies this`pcb, this`locks, table`items, table.Repr
      ensures Valid() && View() == ReleaseLock(old(View()), l)
    {
      hide Valid, Struct;
      Sizes();
      var j := FindPid(locks[l].owner);
      Disinherit(j, l);
      assert Names(LockQ(l));
      ghost var a := View();
      SetLock(l, Lock(false, locks[l].owner));
      DoUnblockAll(LockQ(l));
      SetLock(l, Lock(false, -1));
      UnblockAllLocks(a, LockQ(l), a.locks[l := Lock(false, a.locks[l].owner)]);
    }

    method FindEntry() returns (i: nat)
      ensures i == FreeEntry(pcb[currentRunning].owned)
    {
      i := 0;
      while i < MAX_MUTEX_OWN && pcb[currentRunning].owned[i] != None
        invariant 0 <= i <= MAX_MUTEX_OWN
        invariant EntryFrom(pcb[currentRunning].owned, i) == FreeEntry(pcb[currentRunning].owned)
      {
        i := i + 1;
      }
    }

    method BlockOnLock(l: int)
      requires Valid() && 0 <= l < |locks| && pcb[currentRunning].on == None
      modifies this`pcb, table`items, table.Repr
      ensures Valid() && View() == AwaitLock(old(View()), l)
    {
      hide Valid, Struct;
      Sizes();
      assert Names(LockQ(l));
      DoBlock(LockQ(l));
      SetPcb(currentRunning, pcb[currentRunning].(lockWaiting := Some(l), cont := Acquiring(l)));
    }

    method TakeLock(l: int)
      requires Valid() && 0 <= l < |locks| && FreeEntry(pcb[currentRunning].owned) < MAX_MUTEX_OWN
      modifies this`pcb, this`locks
      ensures Valid() && View() == Take(old(View()), l)
    {
      hide Valid, Struct;
      Sizes();
      SetLock(l, Lock(true, pcb[currentRunning].pid));
      var i := FindEntry();
      var p := pcb[currentRunning];
      SetPcb(currentRunning, p.(lockWaiting := None, cont := User, owned := p.owned[i := Some(l)]));
    }

    /** One round of the acquisition loop: take the mutex if it is free, else block; who was blocked comes back for
        another round when it runs again. */
    method MutexAcquire(l: int)
      requires Accepts(Acquire(l))
      modifies this`pcb, this`locks, this`currentRunning, table`items, table.Repr
      ensures Did(old(View()), Acquire(l))
    {
      if locks[l].locked {
        ReadyToSchedule(View(), Acquire(l));
        BlockOnLock(l);
        Scheduler();
      } else {
        TakeLock(l);
      }
    }

    method DoMutexRelease(l: int)
      requires Accepts(Release(l))
      modifies this`pcb, this`locks, table`items, table.Repr
      ensures Did(old(View()), Release(l))
    {
      assert LockOk(View(), l);
      MutexRelease(l);
    }

    // ---------- conditions ----------

    method SetCond(c: int, n: int)
      requires Valid() && 0 <= c < |conds|
      modifies this`conds
      ensures Valid() && View() == old(View()).(conds := old(conds)[c := n])
    {
      SameLinksStruct(View(), View().(conds := conds[c := n]));
      conds := conds[c := n];
    }

    method QueueOnCond(l: int, c: int)
      requires Valid() && 0 <= c < |conds| && pcb[currentRunning].on == None
      modifies this`pcb, this`conds, table`items, table.Repr
      ensures Valid() && View() == QueuedOnCond(old(View()), l, c)
    {
      hide Valid, Struct;
      Sizes();
      SetCond(c, conds[c] + 1);
      assert Names(CondQ(c));
      DoBlock(CondQ(c));
      SetPcb(currentRunning, pcb[currentRunning].(cont := Acquiring(l)));
    }

    /** Up to the scheduler call; the mutex is acquired again when the process comes back. */
    method ConditionWait(l: int, c: int)
      requires Accepts(CondWait(l, c))
      modifies this`pcb, this`locks, this`conds, this`currentRunning, table`items, table.Repr
      ensures Did(old(View()), CondWait(l, c))
    {
      ghost var s := View();
      ReadyToSchedule(s, CondWait(l, c));
      QueuedInside(s, l, c);
      QueueOnCond(l, c);
      assert LockOk(View(), l);
      MutexRelease(l);
      assert View() == AwaitCond(s, l, c);
      Scheduler();
    }

    method ConditionSignal(c: int)
      requires Accepts(Signal(c))
      modifies this`pcb, this`conds, table`items, table.Repr
      ensures Did(old(View()), Signal(c))
    {
      hide Valid, Struct, Mid, Settled, Sync;
      Sizes();
      if conds[c] > 0 {
        assert Names(CondQ(c));
        DoUnblockOne(CondQ(c));
        SetCond(c, conds[c] - 1);
      }
    }

    method ConditionBroadcast(c: int)
      requires Accepts(Broadcast(c))
      modifies this`pcb, this`conds, table`items, table.Repr
      ensures Did(old(View()), Broadcast(c))
    {
      hide Valid, Struct, Mid, Settled, Sync;
      Sizes();
      if conds[c] > 0 {
        assert Names(CondQ(c));
        DoUnblockAll(CondQ(c));
        Sizes();
        SetCond(c, 0);
      }
    }

    // ---------- semaphores ----------

    method SetSem(x: int, n: int)
      requires Valid() && 0 <= x < |sems|
      modifies this`sems
      ensures Valid() && View() == old(View()).(sems := old(sems)[x := n])
    {
      SameLinksStruct(View(), View().(sems := sems[x := n]));
      sems := sems[x := n];
    }

    method RaiseSem(x: int)
      requires Valid() && Callable(View(), SemUp(x))
      modifies this`pcb, this`sems, table`items, table.Repr
      ensures Valid() && View() == Up(old(View()), x)
    {
      hide Valid, Struct;
      Sizes();
      SetSem(x, sems[x] + 1);
      if sems[x] <= 0 {
        assert Names(SemQ(x));
        DoUnblockOne(SemQ(x));
      }
    }

    method SemaphoreUp(x: int)
      requires Accepts(SemUp(x))
      modifies this`pcb, this`sems, this`currentRunning, table`items, table.Repr
      ensures Did(old(View()), SemUp(x))
    {
      ReadyToSchedule(View(), SemUp(x));
      RaiseSem(x);
      Scheduler();
    }

    method LowerSem(x: int)
      requires Valid() && 0 <= x < |sems| && pcb[currentRunning].on == None
      modifies this`pcb, this`sems, table`items, table.Repr
      ensures Valid() && View() == Down(old(View()), x)
    {
      hide Valid, Struct;
      Sizes();
      SetSem(x, sems[x] - 1);
      if sems[x] < 0 {
        assert Names(SemQ(x));
        DoBlock(SemQ(x));
      }
    }

    method SemaphoreDown(x: int)
      requires Accepts(SemDown(x))
      modifies this`pcb, this`sems, this`currentRunning, table`items, table.Repr
      ensures Did(old(View()), SemDown(x))
    {
      ReadyToSchedule(View(), SemDown(x));
      LowerSem(x);
      Scheduler();
    }

    // ---------- barriers ----------

    method SetBarrier(b: int, v: Barrier)
      requires Valid() && 0 <= b < |barriers|
      modifies this`barriers
      ensures Valid() && View() == old(View()).(barriers := old(barriers)[b := v])
    {
      SameLinksStruct(View(), View().(barriers := barriers[b := v]));
      barriers := barriers[b := v];
    }

    method ArriveAt(b: int)
      requires Valid() && 0 <= b < |barriers| && pcb[currentRunning].on == None
      modifies this`pcb, this`barriers, table`items, table.Repr
      ensures Valid() && View() == Arrive(old(View()), b)
    {
      hide Valid, Struct;
      Sizes();
      SetBarrier(b, barriers[b].(now := barriers[b].now + 1));
      assert Names(BarQ(b));
      if barriers[b].now < barriers[b].goal {
        DoBlock(BarQ(b));
      } else if barriers[b].now == barriers[b].goal {
        DoUnblockAll(BarQ(b));
        SetBarrier(b, barriers[b].(now := 0));
      }
    }

    method BarrierArrive(b: int)
      requires Accepts(BarrierWait(b))
      modifies this`pcb, this`barriers, this`currentRunning, table`items, table.Repr
      ensures Did(old(View()), BarrierWait(b))
    {
      var waits := barriers[b].now + 1 <= barriers[b].goal;
      if waits {
        ReadyToSchedule(View(), BarrierWait(b));
      }
      ArriveAt(b);
      if waits {
        Scheduler();
      }
    }

    // ---------- death ----------

    /** Walks a queue for the process with this id and takes it out; the walk ends there because the links of the
        removed PCB are cleared. */
    method RemovePid(id: QueueId, pid: int, ghost i: Slot)
      requires Valid() && Names(id) && i in Items(View(), id) && pcb[i].pid == pid
      requires forall j | j in Items(View(), id) && pcb[j].pid == pid :: j == i
      modifies this`pcb, table`items, table.Repr
      ensures Valid() && View() == KernelModel.Remove(old(View()), id, i)
    {
      hide Valid, Struct;
      ghost var items, k, removed := Items(View(), id), 0, false;
      HeadIs(id);
      var p := table.queues[id].head;
      while p != null
        invariant Valid() && |table.nodes| == NUM_MAX_TASK && 0 <= k <= |items|
        invariant removed ==> p == null && View() == KernelModel.Remove(old(View()), id, i)
        invariant !removed ==>
          View() == old(View()) && p == table.NodeAt(items, k) && forall m | 0 <= m < k :: items[m] != i
        decreases |items| - k, p != null
      {
        NextIs(id, k);
        var j := p.slot;
        if pcb[j].pid == pid {
          var next := QueueRemove(id, k, j);
          removed := true;
        }
        p := p.next;
        k := k + 1;
      }
    }

    /** The queue the search is made in exists and holds the process once. */
    lemma TakeOutNames(i: Slot)
      requires Valid() && Inv(View()) && 2 <= i && Killable(View(), i)
      ensures QueueByStatus(View(), i).Some? ==>
        var id := QueueByStatus(View(), i).value;
        && Names(id) && i in Items(View(), id)
        && forall j | j in Items(View(), id) && pcb[j].pid == pcb[i].pid :: j == i
    {
      UnqueueFindsIt(View(), i);
      if pcb[i].on.Some? {
        OnlyOneWithPid(View(), i, pcb[i].on.value);
        assert WaitersOk(View(), 0, pcb[i].on.value);
        assert WaiterOk(View(), 0, pcb[i].on.value, i);
      }
    }

    method TakeOut(i: Slot)
      requires Valid() && Inv(View()) && 2 <= i && Killable(View(), i)
      modifies this`pcb, table`items, table.Repr
      ensures Valid() && View() == Unqueue(old(View()), i)
    {
      hide Valid, Struct, Sync, Inv;
      TakeOutNames(i);
      var p := pcb[i];
      if p.status == Ready {
        RemovePid(ReadyQ(p.priority), p.pid, i);
      } else if p.status == Blocked {
        if p.lockWaiting.Some? {
          RemovePid(LockQ(p.lockWaiting.value), p.pid, i);
        } else {
          var j := FindPid(p.waitingPid);
          RemovePid(WaitQ(j), p.pid, i);
        }
      } else if p.status == Sleeping {
        RemovePid(SleepQ, p.pid, i);
      }
    }

    /** Those who wait for the process no longer wait for anything. */
    method ClearWaiters(i: Slot)
      requires Valid()
      modifies this`pcb, table`items, table.Repr
      ensures Valid() && View() == ClearWaiting(old(View()), Items(old(View()), WaitQ(i)))
    {
      hide Valid, Struct;
      HeadIs(WaitQ(i));
      ghost var k, items := 0, Items(View(), WaitQ(i));
      var p := table.queues[WaitQ(i)].head;
      while p != null
        invariant Valid() && |table.nodes| == NUM_MAX_TASK && 0 <= k <= |items|
        invariant p == table.NodeAt(items, k) && Items(View(), WaitQ(i)) == items
        invariant ClearWaiting(View(), items[k..]) == ClearWaiting(old(View()), items)
        decreases |items| - k
      {
        NextIs(WaitQ(i), k);
        var j := p.slot;
        SetPcb(j, pcb[j].(waitingPid := -1));
        p := p.next;
        k := k + 1;
      }
      assert items[k..] == [];
    }

    /** Frees, one after the other, the mutexes on the list of a process that is dying. */
    method ReleaseAll(i: Slot)
      requires Valid() && Dying(View(), i)
      modifies this`pcb, this`locks, table`items, table.Repr
      ensures Valid() && View() == ReleaseOwned(old(View()), i, 0)
    {
      hide Valid, Struct, Mid, Sync;
      var j := 0;
      while j < MAX_MUTEX_OWN
        invariant 0 <= j <= MAX_MUTEX_OWN && Valid() && Dying(View(), i)
        invariant ReleaseOwned(View(), i, j) == ReleaseOwned(old(View()), i, 0)
      {
        if pcb[i].owned[j] != None {
          FreeOne(View(), i, j);
          MutexRelease(pcb[i].owned[j].value);
        }
        j := j + 1;
      }
    }

    /** Dies: leaves its queue, wakes those who wait for it, frees its mutexes. */
    method Perish(i: Slot)
      requires Valid() && Inv(View()) && 2 <= i && Killable(View(), i)
      modifies this`pcb, this`locks, table`items, table.Repr
      ensures Valid() && View() == Die(Unqueue(old(View()), i), i)
    {
      hide Valid, Struct, Mid, Sync, Inv, Buried, Drained;
      ghost var s := View();
      BuriedEffect(s, i);
      WakeWaitersDying(s, ClearWaiting(Bury(Unqueue(s, i), i), Items(Bury(Unqueue(s, i), i), WaitQ(i))), i);
      TakeOut(i);
      SetPcb(i, pcb[i].(status := NotExist));
      ClearWaiters(i);
      DoUnblockAll(WaitQ(i));
      ReleaseAll(i);
    }

    method DoKill(pid: int)
      requires Accepts(Kill(pid))
      modifies this`pcb, this`locks, this`currentRunning, table`items, table.Repr
      ensures Did(old(View()), Kill(pid))
    {
      hide Valid, Struct, Mid, Sync, Inv;
      ReadyToSchedule(View(), Kill(pid));
      var i := FindPid(pid);
      Perish(i);
      Scheduler();
    }

    method DoExit()
      requires Accepts(Exit)
      modifies this`pcb, this`locks, this`currentRunning, table`items, table.Repr
      ensures Did(old(View()), Exit)
    {
      hide Valid, Struct, Mid, Sync;
      ReadyToSchedule(View(), Exit);
      Perish(currentRunning);
      Scheduler();
    }

    // ---------- initialization of synchronization objects ----------

    // None of these looks at the object first. Each says in which cases the kernel is in order after.

    method MutexInit(l: int)
      requires Valid() && 0 <= l < |locks|
      modifies this`locks, table`items, table.Repr
      ensures View() == NewLock(old(View()), l)
      ensures Valid() <==> Items(old(View()), LockQ(l)) == []
      ensures old(Inv(View())) ==> (Inv(View()) <==> !old(locks)[l].locked)
    {
      hide Valid, Struct, Inv;
      Sizes();
      ghost var s := View();
      if Inv(s) {
        NewLockIsSafeIfFree(s, l);
      }
      SetLock(l, Lock(false, -1));
      QueueInit(LockQ(l));
    }

    method ConditionInit(c: int)
      requires Valid() && 0 <= c < |conds|
      modifies this`conds, table`items, table.Repr
      ensures View() == NewCond(old(View()), c)
      ensures Valid() <==> Items(old(View()), CondQ(c)) == []
      ensures old(Inv(View())) ==> (Inv(View()) <==> Items(old(View()), CondQ(c)) == [])
    {
      hide Valid, Struct, Inv;
      Sizes();
      ghost var s := View();
      if Inv(s) {
        NewCondIsSafeIfEmpty(s, c);
      }
      SetCond(c, 0);
      QueueInit(CondQ(c));
    }

    /** A negative initial value is refused: nothing is written. */
    method SemaphoreInit(x: int, val: int)
      requires Valid() && 0 <= x < |sems|
      modifies this`sems, table`items, table.Repr
      ensures View() == NewSem(old(View()), x, val)
      ensures Valid() <==> val < 0 || Items(old(View()), SemQ(x)) == []
      ensures old(Inv(View())) ==> (Inv(View()) <==> val < 0 || Items(old(View()), SemQ(x)) == [])
    {
      hide Valid, Struct, Inv;
      Sizes();
      ghost var s := View();
      if Inv(s) {
        NewSemIsSafeIfEmpty(s, x, val);
      }
      if val >= 0 {
        SetSem(x, val);
        QueueInit(SemQ(x));
      }
    }

    method BarrierInit(b: int, goal: int)
      requires Valid() && 0 <= b < |barriers|
      modifies this`barriers, table`items, table.Repr
      ensures View() == NewBarrier(old(View()), b, goal)
      ensures Valid() <==> Items(old(View()), BarQ(b)) == []
      ensures old(Inv(View())) ==> (Inv(View()) <==> Items(old(View()), BarQ(b)) == [])
    {
      hide Valid, Struct, Inv;
      Sizes();
      ghost var s := View();
      if Inv(s) {
        NewBarrierIsSafeIfEmpty(s, b, goal);
      }
      SetBarrier(b, Barrier(goal, 0));
      QueueInit(BarQ(b));
    }
  }
}
