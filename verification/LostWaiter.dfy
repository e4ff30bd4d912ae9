/** What becomes of a process that waits for a dead one. Nothing here supposes the kernel invariant, which does not hold
    any more: it is shown for every later step that nobody wakes the waiter. */
module LostWaiter {
  import opened KernelModel
  import opened Placement
  import opened KernelSteps
  import opened KernelInvariant
  import opened Runs
  import opened ProcessLaws
  import opened Scenes
  import opened Steadiness

  /** Process k is blocked, does not run, and is in no queue, or only in that of a dead process whose slot has not been
      used again. */
  ghost predicate Lost(s: State, k: Slot, d: Slot, pid: int) {
    && s.pcb[k].status == Blocked && Away(s, k, d)
    && (k in Items(s, WaitQ(d)) ==> s.pcb[d].status == NotExist && s.pcb[d].pid == pid && Away(s, d, d))
  }

  lemma SpawnEmpties(s: State)
    requires Callable(s, Spawn)
    ensures Items(Before(s, Spawn), WaitQ(FreeSlot(s))) == []
  {
  }

  lemma SlotIsUsed(s: State, k: Slot, d: Slot)
    requires Possible(s, Spawn) && Away(s, k, d) && FreeSlot(s) == d && k != d
    ensures k !in Items(Step(s, Spawn), WaitQ(d))
  {
    hide Schedule, CanSchedule, Before;
    SpawnEmpties(s);
    BeforeSteady(s, Spawn, k, d);
    ScheduleSteady(Before(s, Spawn), k, d);
  }

  /** Only a kill of the dead process, or of the waiter, can help. */
  lemma LostStep(s: State, e: Event, k: Slot, d: Slot, pid: int)
    requires Possible(s, e) && Lost(s, k, d, pid) && e != Kill(pid) && e != Kill(s.pcb[k].pid)
    ensures Lost(Step(s, e), k, d, pid) && Step(s, e).pcb[k].pid == s.pcb[k].pid
  {
    hide Before, Schedule, CanSchedule, Step;
    assert Harmless(s, e, k, d);
    StepSteady(s, e, k, d);
    if k in Items(s, WaitQ(d)) {
      if e.Spawn? && FreeSlot(s) == d {
        SlotIsUsed(s, k, d);
      } else {
        StepSteady(s, e, d, d);
      }
    }
  }

  lemma {:induction false} LostRun(s: State, run: seq<Event>, k: Slot, d: Slot, pid: int)
    requires Legal(s, run) && Lost(s, k, d, pid) && Kill(pid) !in run && Kill(s.pcb[k].pid) !in run
    ensures Lost(Exec(s, run), k, d, pid) && Exec(s, run).pcb[k].pid == s.pcb[k].pid
  {
    if run == [] {
    } else {
      var earlier, e := run[..|run| - 1], run[|run| - 1];
      assert e in run;
      LostRun(s, earlier, k, d, pid);
      hide Lost, Step, Enabled, Possible;
      LostStep(Exec(s, earlier), e, k, d, pid);
    }
  }

  lemma WaitKeepsPids(s: State, u: State, pid: int)
    requires Inv(s) && Scan(s, pid) < NUM_MAX_TASK && !Alive(s, Scan(s, pid)) && SameButPlace(WaitFor(s, pid), u)
    requires u.pcb[s.current].status == Blocked && Settled(u)
    ensures var d := Scan(s, pid);
      && u.pcb[d].status == NotExist && u.pcb[d].pid == pid && d != u.current
      && u.pcb[s.current].pid == s.pcb[s.current].pid
  {
  }

  lemma WaitLoses(s: State, pid: int)
    requires Inv(s) && Callable(s, Wait(pid)) && s.current != 1 && !Alive(s, Scan(s, pid))
    ensures Possible(s, Wait(pid)) && Lost(Step(s, Wait(pid)), s.current, Scan(s, pid), pid)
    ensures Step(s, Wait(pid)).pcb[s.current].pid == s.pcb[s.current].pid
  {
    WaitForDead(s, pid);
    var u, d := Step(s, Wait(pid)), Scan(s, pid);
    WaitKeepsPids(s, u, pid);
    hide Inv, Step, Callable, Possible, SameButPlace, OthersPlaced, Struct;
    DeadIsAway(u, d);
    QueuedIsAway(u, s.current, d);
  }

  /** A process that waits for a dead one never runs again: in every state of every run after that, unless it or the
      dead process is killed, it is blocked; and once the dead process's slot has been used again it is in no queue. */
  lemma WaiterNeverReturns(s: State, pid: int, run: seq<Event>)
    requires Inv(s) && Callable(s, Wait(pid)) && s.current != 1 && !Alive(s, Scan(s, pid))
    requires Possible(s, Wait(pid)) && Legal(Step(s, Wait(pid)), run)
    requires Kill(pid) !in run && Kill(s.pcb[s.current].pid) !in run
    ensures var t := Exec(Step(s, Wait(pid)), run);
      && t.pcb[s.current].status == Blocked && t.current != s.current
      && (Alive(t, Scan(s, pid)) ==> forall q :: s.current !in Items(t, q))
  {
    WaitLoses(s, pid);
    hide Inv, Step, Callable;
    LostRun(Step(s, Wait(pid)), run, s.current, Scan(s, pid), pid);
  }

  lemma TrapAfter(b: State, run: seq<Event>) returns (t: State)
    requires CanSchedule(b) && LeadsToTrap(Schedule(b), run)
    ensures Reaches(b, run, t) && Trap(t)
  {
    t := Exec(Schedule(b), run);
  }

  lemma TrapIsReachable(locks: nat, conds: nat, sems: seq<nat>, goals: seq<int>) returns (s: State)
    ensures Reachable(s) && Trap(s)
  {
    DeadMayBeWaitedFor(locks, conds, sems, goals);
    var b := Boot(locks, conds, sems, goals);
    s := TrapAfter(b, [Spawn, Spawn, Exit]);
    hide *;
    ReachableBy(locks, conds, sems, goals, [Spawn, Spawn, Exit], s);
  }

  lemma Trapped(s: State)
    requires Trap(s)
    ensures s.current == 2 && Callable(s, Wait(3)) && Possible(s, Wait(3))
    ensures !Inv(Step(s, Wait(3))) && Callable(Step(s, Wait(3)), Spawn)
    ensures forall q :: 2 !in Items(Before(Step(s, Wait(3)), Spawn), q)
  {
    WaitForDead(s, 3);
    WaiterIsLost(s, 3);
  }

  /** It does happen: from every start-up a process gets into this position, and the next spawn takes it out of the only
      queue it is in. */
  lemma SomebodyIsLost(locks: nat, conds: nat, sems: seq<nat>, goals: seq<int>) returns (s: State)
    ensures Reachable(s) && s.current == 2 && Callable(s, Wait(3)) && Possible(s, Wait(3))
    ensures !Inv(Step(s, Wait(3))) && Callable(Step(s, Wait(3)), Spawn)
    ensures forall q :: 2 !in Items(Before(Step(s, Wait(3)), Spawn), q)
  {
    s := TrapIsReachable(locks, conds, sems, goals);
    Trapped(s);
  }
}
