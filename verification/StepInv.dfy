/** Blocking, waking, sleeping, signalling and arriving keep the invariant. */
module StepInv {
  import opened KernelModel
  import opened Placement
  import opened KernelSteps
  import opened KernelInvariant
  import opened Preserve

  // ---------- ticks, sleep ----------

  lemma AdvanceInv(s: State, d: nat)
    requires Inv(s)
    ensures Inv(s.(time := s.time + d))
  {
    var t := s.(time := s.time + d);
    SameLinksStruct(s, t);
    SameBlockingSync(s, t, 0);
  }

  lemma SleepSync(s: State, n: nat)
    requires Sync(s, 0) && s.pcb[s.current].status == Running
    ensures Sync(Before(s, Sleep(n)), 0)
  {
    SameBlockingSync(s, Before(s, Sleep(n)), 0);
  }

  /** The sleeper's alarm is not yet due: its own scheduler pass does not wake it. */
  lemma SleepInv(s: State, n: nat)
    requires Inv(s) && s.current != 1
    ensures Mid(Before(s, Sleep(n))) && Sync(Before(s, Sleep(n)), 0) && ShellReady(Before(s, Sleep(n)))
  {
    var p := s.pcb[s.current].(status := Sleeping, alarm := n + Timer(s));
    SameLinksStruct(s, SetProc(s, s.current, p));
    PushStruct(SetProc(s, s.current, p), SleepQ, s.current);
    SleepSync(s, n);
  }

  // ---------- steps that block the caller ----------

  /** A caller that is put into a wait queue without a counter leaves the counters right. */
  lemma ParkedCounts(s: State, t: State, id: QueueId)
    requires Counts(s) && (id.WaitQ? || id.LockQ?) && (forall q | q != id :: Items(t, q) == Items(s, q))
    requires t.conds == s.conds && t.sems == s.sems && t.barriers == s.barriers
    ensures Counts(t)
  {
    forall q
      ensures CountOk(t, q)
    {
      assert CountOk(s, q);
    }
  }

  lemma WaitShape(s: State, pid: int)
    requires Callable(s, Wait(pid)) && s.current != 1
    ensures Parks(s, WaitFor(s, pid), WaitQ(Scan(s, pid)))
  {
  }

  lemma WaitParks(s: State, pid: int)
    requires Inv(s) && Enabled(s, Wait(pid))
    ensures var t, id := WaitFor(s, pid), WaitQ(Scan(s, pid));
      && Parks(s, t, id) && WaiterOk(t, 0, id, s.current) && Counts(t) && s.current != 1
  {
    WaitShape(s, pid);
    assert FreeOk(s, s.current) && WaiterOk(WaitFor(s, pid), 0, WaitQ(Scan(s, pid)), s.current);
    assert WaitFor(s, pid).conds == s.conds && WaitFor(s, pid).sems == s.sems && WaitFor(s, pid).barriers == s.barriers;
    hide Counts, WaitFor, Scan, Settled, Struct, OthersPlaced, PidsOk, LocksOk, Reasons;
    ParkedCounts(s, WaitFor(s, pid), WaitQ(Scan(s, pid)));
  }

  lemma WaitInv(s: State, pid: int)
    requires Inv(s) && Enabled(s, Wait(pid))
    ensures Mid(Before(s, Wait(pid))) && Sync(Before(s, Wait(pid)), 0) && ShellReady(Before(s, Wait(pid)))
  {
    WaitParks(s, pid);
    var t := Before(s, Wait(pid));
    assert t == WaitFor(s, pid);
    hide Before, WaitFor, Enabled, Counts, Parks, PidsOk, LocksOk, Reasons, Settled, Struct, OthersPlaced, WaiterOk,
      Scan;
    ParksMid(s, t, WaitQ(Scan(s, pid)));
    ParksSync(s, t, WaitQ(Scan(s, pid)));
  }

  lemma AwaitShape(s: State, l: int)
    requires s.current != 1
    ensures Parks(s, AwaitLock(s, l), LockQ(l))
  {
  }

  lemma CallerFree(s: State, l: int)
    requires Inv(s) && Enabled(s, Acquire(l))
    ensures s.current != 1 && s.pcb[s.current].waitingPid == -1 && LockRange(s, l) && Counts(s)
  {
    assert FreeOk(s, s.current);
  }

  lemma AwaitReason(s: State, l: int)
    requires LockRange(s, l) && s.pcb[s.current].waitingPid == -1
    ensures var t := AwaitLock(s, l);
      WaiterOk(t, 0, LockQ(l), s.current) && t.conds == s.conds && t.sems == s.sems && t.barriers == s.barriers
  {
  }

  lemma AwaitParks(s: State, l: int)
    requires Inv(s) && Enabled(s, Acquire(l)) && s.locks[l].locked
    ensures var t := AwaitLock(s, l);
      Parks(s, t, LockQ(l)) && WaiterOk(t, 0, LockQ(l), s.current) && Counts(t) && s.current != 1
  {
    CallerFree(s, l);
    hide Counts, Inv, AwaitLock, WaiterOk;
    AwaitShape(s, l);
    AwaitReason(s, l);
    ParkedCounts(s, AwaitLock(s, l), LockQ(l));
  }

  lemma AwaitLockInv(s: State, l: int)
    requires Inv(s) && Enabled(s, Acquire(l)) && s.locks[l].locked
    ensures Mid(AwaitLock(s, l)) && Sync(AwaitLock(s, l), 0) && ShellReady(AwaitLock(s, l))
  {
    AwaitParks(s, l);
    var t := AwaitLock(s, l);
    hide AwaitLock, Enabled, Counts, Parks, PidsOk, LocksOk, Reasons, Settled, Struct, OthersPlaced, WaiterOk;
    ParksMid(s, t, LockQ(l));
    ParksSync(s, t, LockQ(l));
  }

  lemma DownCounts(s: State, x: int)
    requires Counts(s) && 0 <= x < |s.sems|
    ensures Counts(Down(s, x))
  {
    assert CountOk(s, SemQ(x));
    forall q
      ensures CountOk(Down(s, x), q)
    {
      assert CountOk(s, q);
    }
  }

  /** Only counters differ. */
  lemma CountersOnly(s: State, t: State)
    requires t == s.(conds := t.conds, sems := t.sems, barriers := t.barriers)
    requires |t.conds| == |s.conds| && |t.sems| == |s.sems| && |t.barriers| == |s.barriers|
    requires Mid(s) && PidsOk(s) && LocksOk(s, 0) && Reasons(s, 0)
    ensures Mid(t) && PidsOk(t) && LocksOk(t, 0) && Reasons(t, 0)
  {
    SameLinksStruct(s, t);
    IdentityFrame(s, t, 0);
    SameReasons(s, t, 0);
  }

  lemma DownInv(s: State, x: int)
    requires Inv(s) && Enabled(s, SemDown(x))
    ensures Mid(Down(s, x)) && Sync(Down(s, x), 0) && ShellReady(Down(s, x))
  {
    var t := Down(s, x);
    assert FreeOk(s, s.current) && CountOk(s, SemQ(x));
    if s.sems[x] < 1 {
      ParksMid(s, t, SemQ(x));
      ParksSync(s, t, SemQ(x));
    } else {
      CountersOnly(s, t);
    }
    DownCounts(s, x);
  }

  // ---------- steps that wake ----------

  /** Waking waiters of one queue keeps everything but, perhaps, the counter of that queue. */
  lemma DrainInv(s: State, t: State, d: Slot, id: QueueId)
    requires Mid(s) && PidsOk(s) && LocksOk(s, d) && Reasons(s, d) && ShellReady(s)
    requires IsBlocking(id) && (id.WaitQ? ==> id.slot == d) && s.current !in Items(s, id) && Drained(s, t, id)
    ensures Mid(t) && PidsOk(t) && LocksOk(t, d) && Reasons(t, d) && ShellReady(t)
  {
    DrainedWakes(s, t, id);
    WakesReasons(s, t, d, id);
    DrainPlaces(s, t, id);
    IdentityFrame(s, t, d);
  }

  lemma UnblockOneInv(s: State, id: QueueId)
    requires Mid(s) && PidsOk(s) && LocksOk(s, 0) && Reasons(s, 0) && ShellReady(s)
    requires IsBlocking(id) && !id.WaitQ? && s.current !in Items(s, id) && Items(s, id) != []
    ensures Mid(UnblockOne(s, id)) && PidsOk(UnblockOne(s, id)) && LocksOk(UnblockOne(s, id), 0)
    ensures Reasons(UnblockOne(s, id), 0) && ShellReady(UnblockOne(s, id))
  {
    var t := UnblockOne(s, id);
    WaitersAreBlocked(s, id, Items(s, id)[0]);
    UnblockOneMid(s, id);
    WakeEffect(s, Items(s, id)[0], id, 0);
    assert Wakes(s, t, id);
    WakesReasons(s, t, 0, id);
    IdentityFrame(s, t, 0);
  }

  /** A running process is in no queue. */
  lemma RunningIsNowhere(s: State, id: QueueId)
    requires Struct(s) && OnCpu(s, Running)
    ensures s.current !in Items(s, id)
  {
    assert QueueOk(s, id);
  }

  lemma UpCounts(s: State, u: State, x: int)
    requires Counts(s) && Struct(u) && Callable(s, SemUp(x)) && u == s.(sems := s.sems[x := s.sems[x] + 1])
    ensures Counts(Up(s, x))
  {
    assert CountOk(s, SemQ(x));
    assert Items(u, SemQ(x)) == Items(s, SemQ(x));
    if u.sems[x] <= 0 {
      WakeEffect(u, Items(u, SemQ(x))[0], SemQ(x), 0);
    }
    var t := Up(s, x);
    assert |Items(t, SemQ(x))| == if s.sems[x] < 0 then -s.sems[x] - 1 else 0;
    assert forall q | q != SemQ(x) && q != ReadyQ(1) :: Items(t, q) == Items(s, q);
    assert t.conds == s.conds && t.barriers == s.barriers && t.sems == u.sems;
    hide Up, UnblockOne, Struct, Items;
    forall q
      ensures CountOk(t, q)
    {
      assert CountOk(s, q);
    }
  }

  lemma UpInv(s: State, x: int)
    requires Inv(s) && Enabled(s, SemUp(x))
    ensures Mid(Up(s, x)) && Sync(Up(s, x), 0) && ShellReady(Up(s, x))
  {
    var u := s.(sems := s.sems[x := s.sems[x] + 1]);
    var t := Up(s, x);
    CountersOnly(s, u);
    UpCounts(s, u, x);
    assert CountOk(s, SemQ(x));
    if u.sems[x] <= 0 {
      RunningIsNowhere(s, SemQ(x));
      UnblockOneInv(u, SemQ(x));
    }
    hide Counts, LocksOk, Reasons, PidsOk, UnblockOne, ShellReady, OthersPlaced, Struct;
  }

  lemma SignalCounts(s: State, c: int)
    requires Counts(s) && Struct(s) && Callable(s, Signal(c))
    ensures Counts(SignalCond(s, c))
  {
    assert CountOk(s, CondQ(c));
    if s.conds[c] > 0 {
      WakeEffect(s, Items(s, CondQ(c))[0], CondQ(c), 0);
    }
    forall q
      ensures CountOk(SignalCond(s, c), q)
    {
      assert CountOk(s, q);
    }
  }

  lemma SignalInv(s: State, c: int)
    requires Inv(s) && Enabled(s, Signal(c))
    ensures Inv(SignalCond(s, c))
  {
    var t := SignalCond(s, c);
    assert CountOk(s, CondQ(c));
    if s.conds[c] > 0 {
      var u := UnblockOne(s, CondQ(c));
      RunningIsNowhere(s, CondQ(c));
      UnblockOneInv(s, CondQ(c));
      UnblockOneMid(s, CondQ(c));
      CountersOnly(u, t);
    }
    SignalCounts(s, c);
  }

  lemma BroadcastCounts(s: State, c: int)
    requires Counts(s) && Struct(s) && Callable(s, Broadcast(c))
    ensures Counts(BroadcastCond(s, c))
  {
    hide UnblockAll, Struct;
    UnblockAllEffect(s, CondQ(c));
    assert CountOk(s, CondQ(c));
    forall q
      ensures CountOk(BroadcastCond(s, c), q)
    {
      assert CountOk(s, q);
    }
  }

  lemma BroadcastInv(s: State, c: int)
    requires Inv(s) && Enabled(s, Broadcast(c))
    ensures Inv(BroadcastCond(s, c))
  {
    var t := BroadcastCond(s, c);
    BroadcastCounts(s, c);
    assert CountOk(s, CondQ(c));
    hide Counts, UnblockAll;
    if s.conds[c] > 0 {
      var u := UnblockAll(s, CondQ(c));
      RunningIsNowhere(s, CondQ(c));
      UnblockAllEffect(s, CondQ(c));
      DrainInv(s, u, 0, CondQ(c));
      CountersOnly(u, t);
    }
    BroadcastCounts(s, c);
  }

  /** The barrier counts the caller in. */
  function Counted(s: State, b: int): State
    requires 0 <= b < |s.barriers|
  {
    s.(barriers := s.barriers[b := s.barriers[b].(now := s.barriers[b].now + 1)])
  }

  lemma ArriveBlocks(s: State, b: int)
    requires Inv(s) && Enabled(s, BarrierWait(b)) && s.barriers[b].now + 1 < s.barriers[b].goal
    ensures Mid(Arrive(s, b)) && Sync(Arrive(s, b), 0) && ShellReady(Arrive(s, b))
  {
    var t := Block(Counted(s, b), BarQ(b));
    assert t == Arrive(s, b);
    assert FreeOk(s, s.current);
    ParksMid(s, t, BarQ(b));
    ParksSync(s, t, BarQ(b));
    forall q
      ensures CountOk(t, q)
    {
      assert CountOk(s, q);
    }
  }

  lemma DrainCount(s: State, t: State, id: QueueId, q: QueueId)
    requires Drained(s, t, id) && q != id && CountOk(s, q)
    ensures CountOk(t, q)
  {
  }

  lemma ArriveOpensCounts(s: State, u: State, v: State, b: int)
    requires Counts(s) && 0 <= b < |s.barriers| && s.barriers[b].now + 1 == s.barriers[b].goal
    requires u == Counted(s, b) && Drained(u, v, BarQ(b))
    ensures Counts(v.(barriers := s.barriers[b := s.barriers[b].(now := 0)]))
  {
    var t := v.(barriers := s.barriers[b := s.barriers[b].(now := 0)]);
    forall q
      ensures CountOk(t, q)
    {
      assert CountOk(s, q);
      assert Items(t, q) == Items(v, q);
      if q != BarQ(b) {
        assert CountOk(u, q);
        DrainCount(u, v, BarQ(b), q);
      }
    }
  }

  lemma ArriveOpens(s: State, b: int)
    requires Inv(s) && Enabled(s, BarrierWait(b)) && s.barriers[b].now + 1 == s.barriers[b].goal
    ensures Mid(Arrive(s, b)) && Sync(Arrive(s, b), 0) && ShellReady(Arrive(s, b))
  {
    var u := Counted(s, b);
    var v := UnblockAll(u, BarQ(b));
    CountersOnly(s, u);
    RunningIsNowhere(u, BarQ(b));
    UnblockAllEffect(u, BarQ(b));
    DrainInv(u, v, 0, BarQ(b));
    CountersOnly(v, Arrive(s, b));
    ArriveOpensCounts(s, u, v, b);
  }

  lemma ArriveOver(s: State, b: int)
    requires Inv(s) && Enabled(s, BarrierWait(b)) && s.barriers[b].now + 1 > s.barriers[b].goal
    ensures Inv(Arrive(s, b))
  {
    CountersOnly(s, Arrive(s, b));
    forall q
      ensures CountOk(Arrive(s, b), q)
    {
      assert CountOk(s, q);
    }
  }
}
