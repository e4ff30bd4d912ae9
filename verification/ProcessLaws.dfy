/** Process ids, and waiting for a process that is dead. */
module ProcessLaws {
  import opened KernelModel
  import opened Placement
  import opened KernelSteps
  import opened KernelInvariant
  import opened Runs
  import opened Frame

  // ---------- process ids ----------

  /** An id that has been handed out. */
  predicate HandedOut(s: State, pid: int) {
    2 <= pid < s.nextPid
  }

  /** Ids are unique, and only one slot may have got another id, which is new. */
  lemma SamePlace(s: State, t: State, fresh': nat, pid: int)
    requires PidsOk(s) && HandedOut(s, pid) && Scan(t, pid) < NUM_MAX_TASK
    requires forall i: Slot | i != fresh' :: t.pcb[i].pid == s.pcb[i].pid
    requires fresh' < NUM_MAX_TASK ==> t.pcb[fresh'].pid == s.nextPid
    ensures Scan(s, pid) == Scan(t, pid)
  {
    var i: Slot := Scan(t, pid);
    assert t.pcb[i].pid == pid && s.pcb[i].pid == pid;
    assert s.pcb[Scan(s, pid)].pid == pid;
  }

  lemma SpawnedPid(s: State, t: State)
    requires Possible(s, Spawn) && t == Step(s, Spawn)
    ensures t.pcb[FreeSlot(s)].pid == s.nextPid
  {
    ScheduleKeeps(Before(s, Spawn));
  }

  /** A search for an id that has been handed out finds the slot it found before, or nothing any more. */
  lemma PidStep(s: State, e: Event, pid: int)
    requires Inv(s) && Enabled(s, e) && HandedOut(s, pid)
    ensures Possible(s, e) && HandedOut(Step(s, e), pid)
    ensures Scan(Step(s, e), pid) == Scan(s, pid) || Scan(Step(s, e), pid) == NUM_MAX_TASK
  {
    StepKeepsInv(s, e);
    StepFramed(s, e);
    var t := Step(s, e);
    assert PidsOk(s) && PidsOk(t);
    if e.Spawn? {
      SpawnedPid(s, t);
    }
    hide Inv, Step, Enabled, Possible, Scan;
    if Scan(t, pid) < NUM_MAX_TASK {
      SamePlace(s, t, Spawned(s, e), pid);
    }
  }

  lemma NobodyHas(s: State, pid: int)
    requires PidsOk(s) && s.nextPid <= pid
    ensures Scan(s, pid) == NUM_MAX_TASK
  {
  }

  lemma FoundThere(t: State, i: Slot, pid: int)
    requires PidsOk(t) && 2 <= i && t.pcb[i].pid == pid && 2 <= pid
    ensures Scan(t, pid) == i
  {
    assert t.pcb[Scan(t, pid)].pid == pid;
  }

  /** A new process gets an id nobody had, and a search for it finds the process. */
  lemma SpawnGivesNewPid(s: State)
    requires Inv(s) && Enabled(s, Spawn)
    ensures Possible(s, Spawn) && HandedOut(Step(s, Spawn), s.nextPid)
    ensures Scan(s, s.nextPid) == NUM_MAX_TASK && Scan(Step(s, Spawn), s.nextPid) == FreeSlot(s)
  {
    StepKeepsInv(s, Spawn);
    StepFramed(s, Spawn);
    var t := Step(s, Spawn);
    assert PidsOk(s) && PidsOk(t);
    SpawnedPid(s, t);
    hide Inv, Step, Enabled, Possible;
    NobodyHas(s, s.nextPid);
    FoundThere(t, FreeSlot(s), s.nextPid);
  }

  /** Over any run an id means the process it was given to, or nobody: ids are never shared or given again. */
  lemma {:induction false} PidRun(s: State, run: seq<Event>, pid: int)
    requires Inv(s) && Legal(s, run) && HandedOut(s, pid)
    ensures HandedOut(Exec(s, run), pid)
    ensures Scan(Exec(s, run), pid) == Scan(s, pid) || Scan(Exec(s, run), pid) == NUM_MAX_TASK
  {
    if run == [] {
    } else {
      hide Inv, Step, Enabled;
      PidRun(s, run[..|run| - 1], pid);
      RunKeepsInv(s, run[..|run| - 1]);
      PidStep(Exec(s, run[..|run| - 1]), run[|run| - 1], pid);
    }
  }

  /** The id a blocked process waits for names the process whose queue it is in, and that process is alive. */
  lemma WaitsForTheLiving(s: State, i: Slot, t: Slot)
    requires Reachable(s) && i in Items(s, WaitQ(t))
    ensures Scan(s, s.pcb[i].waitingPid) == t && Alive(s, t) && s.pcb[i].status == Blocked
  {
    ReachableInv(s);
    assert WaitersOk(s, 0, WaitQ(t));
    assert WaiterOk(s, 0, WaitQ(t), i);
    WaitersAreBlocked(s, WaitQ(t), i);
  }

  // ---------- waiting for the dead ----------

  lemma StepIsSchedule(s: State, pid: int)
    requires Possible(s, Wait(pid))
    ensures CanSchedule(WaitFor(s, pid)) && Step(s, Wait(pid)) == Schedule(WaitFor(s, pid))
  {
  }

  /** The caller has just entered the queue of the dead process d. */
  predicate DeadAwaited(s: State, t: State, d: nat) {
    && 2 <= d < NUM_MAX_TASK && !Alive(t, d) && d != s.current
    && s.current in Items(t, WaitQ(d)) && t.pcb[s.current].status == Blocked
  }

  lemma ParkedAtDead(s: State, pid: int)
    requires Inv(s) && Callable(s, Wait(pid)) && s.current != 1 && !Alive(s, Scan(s, pid))
    ensures ShellReady(WaitFor(s, pid))
    ensures DeadAwaited(s, WaitFor(s, pid), Scan(s, pid))
  {
  }

  /** Somebody in the queue of a dead process: the invariant does not hold. */
  lemma WaitsForNobody(u: State, k: Slot, d: Slot)
    requires Settled(u) && k in Items(u, WaitQ(d)) && u.pcb[k].status == Blocked && !Alive(u, d) && 2 <= d
    ensures !Inv(u) && u.pcb[k].on == Some(WaitQ(d)) && u.current != k
  {
    assert QueueOk(u, WaitQ(d));
    assert !WaiterOk(u, 0, WaitQ(d), k);
    assert !WaitersOk(u, 0, WaitQ(d));
  }

  lemma DeadAwaitedLater(s: State, t: State, d: nat)
    requires Mid(t) && ShellReady(t) && DeadAwaited(s, t, d)
    ensures CanSchedule(t)
    ensures var u := Schedule(t);
      && !Inv(u) && Settled(u) && SameButPlace(t, u) && u.current != s.current
      && s.current in Items(u, WaitQ(d)) && u.pcb[s.current].status == Blocked
      && u.pcb[s.current].on == Some(WaitQ(d))
  {
    ScheduleSettles(t);
    var u := Schedule(t);
    hide Schedule, CanSchedule, Mid, Inv, Struct, OthersPlaced;
    assert IsBlocking(WaitQ(d)) && Items(u, WaitQ(d)) == Items(t, WaitQ(d));
    WaitsForNobody(u, s.current, d);
  }

  lemma WaitForDead(s: State, pid: int)
    requires Inv(s) && Callable(s, Wait(pid)) && s.current != 1 && !Alive(s, Scan(s, pid))
    ensures Possible(s, Wait(pid)) && !Inv(Step(s, Wait(pid)))
    ensures var t := Step(s, Wait(pid));
      && Settled(t) && SameButPlace(WaitFor(s, pid), t) && t.current != s.current
      && s.current in Items(t, WaitQ(Scan(s, pid))) && t.pcb[s.current].status == Blocked
      && t.pcb[s.current].on == Some(WaitQ(Scan(s, pid)))
  {
    hide Inv, Scan, WaitFor, Schedule, CanSchedule, Mid, Settled;
    WaitIsPossible(s, pid);
    StepIsSchedule(s, pid);
    ParkedAtDead(s, pid);
    DeadAwaitedLater(s, WaitFor(s, pid), Scan(s, pid));
  }

  /** Whether waiting is safe depends on one thing the program does not test: that the process is alive. */
  lemma WaitIsSafeIfAlive(s: State, pid: int)
    requires Inv(s) && Callable(s, Wait(pid)) && s.current != 1 && s.pcb[s.current].cont == User
    ensures Possible(s, Wait(pid))
    ensures Inv(Step(s, Wait(pid))) <==> Alive(s, Scan(s, pid))
  {
    if Alive(s, Scan(s, pid)) {
      StepKeepsInv(s, Wait(pid));
    } else {
      WaitForDead(s, pid);
    }
  }

  lemma SameFreeSlot(s: State, t: State)
    requires forall i: Slot :: t.pcb[i].status == NotExist <==> s.pcb[i].status == NotExist
    ensures FreeSlot(t) == FreeSlot(s)
  {
  }

  lemma FreeAfterWait(s: State, u: State, pid: int)
    requires Scan(s, pid) < NUM_MAX_TASK && s.pcb[s.current].status == Running && SameButPlace(WaitFor(s, pid), u)
    ensures FreeSlot(u) == FreeSlot(s)
  {
    SameFreeSlot(s, WaitFor(s, pid));
    SameFreeSlot(WaitFor(s, pid), u);
  }

  lemma WaitsInFreeSlot(s: State, pid: int)
    requires Inv(s) && Callable(s, Wait(pid)) && s.current != 1 && !Alive(s, Scan(s, pid))
    requires Scan(s, pid) == FreeSlot(s)
    ensures Possible(s, Wait(pid)) && Callable(Step(s, Wait(pid)), Spawn)
    ensures var u := Step(s, Wait(pid));
      && FreeSlot(u) == FreeSlot(s) && u.pcb[s.current].status == Blocked
      && u.pcb[s.current].on == Some(WaitQ(FreeSlot(s))) && OnlyIn(u, s.current, WaitQ(FreeSlot(s)))
  {
    assert OnCpu(s, Running);
    hide Inv, Step, SpawnAt, Struct, OthersPlaced, SameButPlace, WaitFor, OnlyIn;
    WaitForDead(s, pid);
    var u := Step(s, Wait(pid));
    FreeAfterWait(s, u, pid);
    PlaceOf(u, s.current);
  }

  lemma SpawnLoses(s: State, i: Slot, k: Slot)
    requires OnlyIn(s, k, WaitQ(i)) && s.pcb[k].status == Blocked && s.pcb[i].status == NotExist
    ensures SpawnAt(s, i).pcb[k].status == Blocked && forall q :: k !in Items(SpawnAt(s, i), q)
  {
    forall q
      ensures k !in Items(SpawnAt(s, i), q)
    {
      if q != WaitQ(i) {
        assert k !in Items(s, q);
      }
    }
  }

  /** What goes wrong: as soon as the dead process's slot is used again the waiter is in no queue although it is
      blocked, so nobody will ever wake it. */
  lemma WaiterIsLost(s: State, pid: int)
    requires Inv(s) && Callable(s, Wait(pid)) && s.current != 1 && !Alive(s, Scan(s, pid))
    requires Scan(s, pid) == FreeSlot(s)
    ensures Possible(s, Wait(pid)) && Callable(Step(s, Wait(pid)), Spawn)
    ensures var t := Before(Step(s, Wait(pid)), Spawn);
      t.pcb[s.current].status == Blocked && forall q :: s.current !in Items(t, q)
  {
    WaitsInFreeSlot(s, pid);
    hide *;
    SpawnLoses(Step(s, Wait(pid)), FreeSlot(s), s.current);
  }
}
