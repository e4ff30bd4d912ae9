/** What steps leave alone. */
module Frame {
  import opened KernelModel
  import opened KernelSteps

  predicate SameSizes(s: State, t: State) {
    |t.locks| == |s.locks| && |t.conds| == |s.conds| && |t.sems| == |s.sems| && |t.barriers| == |s.barriers|
  }

  /** Ids, alarms, continuations and the clock are the same, and no object appears or disappears. */
  ghost predicate Keeps(s: State, t: State) {
    && SameSizes(s, t)
    && t.nextPid == s.nextPid && t.time == s.time
    && forall i: Slot ::
      t.pcb[i].pid == s.pcb[i].pid && t.pcb[i].alarm == s.pcb[i].alarm && t.pcb[i].cont == s.pcb[i].cont
  }

  /** Everybody but perhaps slot d is alive still. */
  ghost predicate Survive(s: State, t: State, d: nat) {
    forall i: Slot | i != d && s.pcb[i].status != NotExist :: t.pcb[i].status != NotExist
  }

  lemma UnblockOneKeeps(s: State, id: QueueId)
    requires id != ReadyQ(1) && Items(s, id) != []
    ensures var t := UnblockOne(s, id); Survive(s, t, NUM_MAX_TASK) && Keeps(s, t) && t.current == s.current
  {
  }

  lemma {:induction false} UnblockAllKeeps(s: State, id: QueueId)
    requires id != ReadyQ(1)
    ensures Survive(s, UnblockAll(s, id), NUM_MAX_TASK)
    ensures Keeps(s, UnblockAll(s, id)) && UnblockAll(s, id).current == s.current
    decreases |Items(s, id)|
  {
    if Items(s, id) == [] {
    } else {
      UnblockOneKeeps(s, id);
      UnblockAllKeeps(UnblockOne(s, id), id);
    }
  }

  lemma WakeDueKeeps(s: State, sleepers: seq<Slot>)
    ensures Survive(s, WakeDue(s, sleepers), NUM_MAX_TASK)
    ensures Keeps(s, WakeDue(s, sleepers)) && WakeDue(s, sleepers).current == s.current
    decreases |sleepers|
  {
    if sleepers == [] {
    } else {
      if Due(s, sleepers[0]) {
        WakeDueKeeps(Wake(Remove(s, SleepQ, sleepers[0]), sleepers[0]), sleepers[1..]);
      } else {
        WakeDueKeeps(s, sleepers[1..]);
      }
    }
  }

  lemma PutBackKeeps(s: State)
    ensures Keeps(s, BeforeDispatch(s)) && Survive(s, BeforeDispatch(s), NUM_MAX_TASK)
  {
    var y := Yield(s);
    WakeDueKeeps(y, Items(y, SleepQ));
    hide WakeDue;
    var t := CheckSleeping(y);
    assert Keeps(s, t) && Survive(s, t, NUM_MAX_TASK);
  }

  lemma ScheduleKeeps(s: State)
    requires CanSchedule(s)
    ensures Keeps(s, Schedule(s)) && Survive(s, Schedule(s), NUM_MAX_TASK)
  {
    PutBackKeeps(s);
    hide BeforeDispatch;
  }

  lemma ReleaseKeeps(s: State, l: int)
    ensures Survive(s, ReleaseLock(s, l), NUM_MAX_TASK)
    ensures Keeps(s, ReleaseLock(s, l)) && ReleaseLock(s, l).current == s.current
  {
    if LockRange(s, l) && Scan(s, s.locks[l].owner) < NUM_MAX_TASK {
      var j := Scan(s, s.locks[l].owner);
      UnblockAllKeeps(SetProc(s, j, s.pcb[j].(owned := Drop(s.pcb[j].owned, l))), LockQ(l));
    }
  }

  lemma {:induction false} ClearKeeps(s: State, items: seq<Slot>)
    ensures Survive(s, ClearWaiting(s, items), NUM_MAX_TASK)
    ensures Keeps(s, ClearWaiting(s, items)) && ClearWaiting(s, items).current == s.current
    decreases |items|
  {
    if items == [] {
    } else {
      ClearKeeps(SetProc(s, items[0], s.pcb[items[0]].(waitingPid := -1)), items[1..]);
    }
  }

  lemma {:induction false} ReleaseOwnedKeeps(s: State, i: Slot, j: nat)
    requires j <= MAX_MUTEX_OWN
    ensures Survive(s, ReleaseOwned(s, i, j), NUM_MAX_TASK)
    ensures Keeps(s, ReleaseOwned(s, i, j)) && ReleaseOwned(s, i, j).current == s.current
    decreases MAX_MUTEX_OWN - j
  {
    if j == MAX_MUTEX_OWN {
    } else {
      if s.pcb[i].owned[j] == None {
        ReleaseOwnedKeeps(s, i, j + 1);
      } else {
        ReleaseKeeps(s, s.pcb[i].owned[j].value);
        ReleaseOwnedKeeps(ReleaseLock(s, s.pcb[i].owned[j].value), i, j + 1);
      }
    }
  }

  lemma DieKeeps(s: State, i: Slot)
    ensures Survive(s, Die(s, i), i)
    ensures Keeps(s, Die(s, i)) && Die(s, i).current == s.current
  {
    var a := Bury(s, i);
    var b := ClearWaiting(a, Items(a, WaitQ(i)));
    ClearKeeps(a, Items(a, WaitQ(i)));
    UnblockAllKeeps(b, WaitQ(i));
    ReleaseOwnedKeeps(WakeWaiters(a, i), i, 0);
  }

  /** The slot a step gives a new process to, if it does. */
  function Spawned(s: State, e: Event): nat {
    if e.Spawn? then FreeSlot(s) else NUM_MAX_TASK
  }

  /** Who dies in a step, if anybody does. */
  function Victim(s: State, e: Event): nat {
    if e.Kill? then Scan(s, e.pid) else if e.Exit? then s.current else NUM_MAX_TASK
  }

  /** A step kills nobody but its victim, changes the id of no process but a new one, the alarm of none but a new
      sleeper, the continuation of none but the caller and a new process, and the clock only where the environment
      advances it. */
  ghost predicate Framed(s: State, t: State, e: Event) {
    && SameSizes(s, t) && Survive(s, t, Victim(s, e))
    && t.nextPid == s.nextPid + (if e.Spawn? then 1 else 0)
    && t.time == s.time + (if e.Advance? then e.ticks else 0)
    && forall i: Slot | i != Spawned(s, e) ::
      && t.pcb[i].pid == s.pcb[i].pid
      && (i != s.current || !e.Sleep? ==> t.pcb[i].alarm == s.pcb[i].alarm)
      && (i != s.current || !(e.Acquire? || e.CondWait?) ==> t.pcb[i].cont == s.pcb[i].cont)
  }

  lemma BlockKeeps(s: State, id: QueueId)
    ensures Survive(s, Block(s, id), NUM_MAX_TASK)
    ensures Keeps(s, Block(s, id)) && Block(s, id).current == s.current
  {
  }

  lemma CondWaitFramed(s: State, l: int, c: int)
    requires Callable(s, CondWait(l, c))
    ensures Framed(s, Before(s, CondWait(l, c)), CondWait(l, c))
  {
    hide ReleaseLock, Block;
    var u := s.(conds := s.conds[c := s.conds[c] + 1]);
    var t := Block(u, CondQ(c));
    BlockKeeps(u, CondQ(c));
    ReleaseKeeps(SetProc(t, t.current, t.pcb[t.current].(cont := Acquiring(l))), l);
  }

  lemma ArriveKeeps(s: State, b: int)
    requires 0 <= b < |s.barriers|
    ensures Keeps(s, Arrive(s, b)) && Survive(s, Arrive(s, b), NUM_MAX_TASK)
  {
    hide UnblockAll, Block;
    var bar := s.barriers[b].(now := s.barriers[b].now + 1);
    var t := s.(barriers := s.barriers[b := bar]);
    if bar.now < bar.goal {
      BlockKeeps(t, BarQ(b));
    } else if bar.now == bar.goal {
      UnblockAllKeeps(t, BarQ(b));
    }
  }

  lemma UnqueueKeeps(s: State, i: Slot)
    ensures Keeps(s, Unqueue(s, i)) && Survive(s, Unqueue(s, i), i)
  {
  }

  lemma DeathKeeps(s: State, i: Slot)
    ensures Keeps(s, Die(Unqueue(s, i), i)) && Survive(s, Die(Unqueue(s, i), i), i)
  {
    hide Unqueue, Die;
    UnqueueKeeps(s, i);
    DieKeeps(Unqueue(s, i), i);
  }

  lemma UpKeeps(s: State, x: int)
    requires Callable(s, SemUp(x))
    ensures Keeps(s, Up(s, x)) && Survive(s, Up(s, x), NUM_MAX_TASK)
  {
  }

  lemma SignalKeeps(s: State, c: int)
    requires Callable(s, Signal(c))
    ensures Keeps(s, SignalCond(s, c)) && Survive(s, SignalCond(s, c), NUM_MAX_TASK)
  {
  }

  lemma WaitKeeps(s: State, pid: int)
    requires Callable(s, Wait(pid))
    ensures Keeps(s, WaitFor(s, pid)) && Survive(s, WaitFor(s, pid), NUM_MAX_TASK)
  {
    BlockKeeps(s, WaitQ(Scan(s, pid)));
    hide Block;
  }

  lemma BroadcastKeeps(s: State, c: int)
    requires Callable(s, Broadcast(c))
    ensures Keeps(s, BroadcastCond(s, c)) && Survive(s, BroadcastCond(s, c), NUM_MAX_TASK)
  {
    UnblockAllKeeps(s, CondQ(c));
  }

  /** The steps that keep all of this as it is, up to the scheduler call. */
  lemma PlainKeeps(s: State, e: Event)
    requires Callable(s, e) && !e.Advance? && !e.Sleep? && !e.Spawn? && !e.Acquire? && !e.CondWait?
    ensures Keeps(s, Before(s, e)) && Survive(s, Before(s, e), Victim(s, e))
  {
    hide Up, SignalCond, WaitFor, BroadcastCond, Arrive, Die, Unqueue, ReleaseLock;
    match e
    case Kill(pid) => DeathKeeps(s, Scan(s, pid));
    case Exit => DieKeeps(s, s.current);
    case Release(l) => ReleaseKeeps(s, l);
    case Broadcast(c) => BroadcastKeeps(s, c);
    case BarrierWait(b) => ArriveKeeps(s, b);
    case SemUp(x) => UpKeeps(s, x);
    case Signal(c) => SignalKeeps(s, c);
    case Wait(pid) => WaitKeeps(s, pid);
    case _ =>
  }

  lemma BeforeFramed(s: State, e: Event)
    requires Callable(s, e)
    ensures Framed(s, Before(s, e), e)
  {
    if e.CondWait? {
      CondWaitFramed(s, e.lock, e.cond);
    } else if !e.Advance? && !e.Sleep? && !e.Spawn? && !e.Acquire? {
      PlainKeeps(s, e);
    }
  }

  /** Every step, with the scheduler pass it may end in, changes no more than that. */
  lemma StepFramed(s: State, e: Event)
    requires Possible(s, e)
    ensures Framed(s, Step(s, e), e)
  {
    BeforeFramed(s, e);
    if Reschedules(s, e) {
      ScheduleKeeps(Before(s, e));
    }
  }
}
