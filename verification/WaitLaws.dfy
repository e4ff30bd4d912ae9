/** Waiting for a process: who waits is blocked in its queue for as long as the process lives, and its death ends the
    wait. */
module WaitLaws {
  import opened KernelModel
  import opened Placement
  import opened KernelSteps
  import opened KernelInvariant
  import opened Death
  import opened Legacy
  import opened Runs
  import opened Frame
  import opened ProcessLaws
  import opened Steadiness

  /** The id names a process that is alive. */
  predicate Living(s: State, pid: int) {
    Scan(s, pid) < NUM_MAX_TASK && Alive(s, Scan(s, pid))
  }

  /** Process i does not run: it is blocked in the queue of the living process d, which has the id. */
  ghost predicate Awaits(s: State, i: Slot, d: Slot, pid: int) {
    && s.pcb[i].status == Blocked && s.current != i && OnlyIn(s, i, WaitQ(d))
    && Scan(s, pid) == d && Alive(s, d)
  }

  // ---------- one step ----------

  lemma ShellStays(s: State, e: Event)
    requires Inv(s) && Enabled(s, e) && Reschedules(s, e)
    ensures ShellReady(Before(s, e))
  {
    hide Before, Mid, ShellReady, Sync, Enabled;
    BeforeInv(s, e);
  }

  lemma StepSettles(s: State, e: Event)
    requires Inv(s) && Enabled(s, e) && Reschedules(s, e)
    ensures Possible(s, e) && SameBlocking(Before(s, e), Step(s, e))
  {
    hide Inv, Before, Schedule, Enabled, SameBlocking, Mid, ShellReady;
    ReadyToSchedule(s, e);
    ShellStays(s, e);
    ScheduleSettles(Before(s, e));
  }

  /** Whoever is in no queue but this and is blocked, is in it. */
  lemma BlockedIsThere(s: State, i: Slot, d: Slot)
    requires Inv(s) && Away(s, i, d) && s.pcb[i].status == Blocked && 0 < i
    ensures OnlyIn(s, i, WaitQ(d)) && s.current != i && Alive(s, d) && s.pcb[i].waitingPid == s.pcb[d].pid && 2 <= d
  {
    assert Placed(s.pcb[i]);
    var q := s.pcb[i].on.value;
    assert Linked(s, i);
    PlaceOf(s, i);
    assert q == WaitQ(d);
    assert WaitersOk(s, 0, WaitQ(d));
    assert WaiterOk(s, 0, WaitQ(d), i);
  }

  lemma AwaiterIsAway(s: State, e: Event, i: Slot, d: Slot, pid: int)
    requires Inv(s) && Enabled(s, e) && Awaits(s, i, d, pid) && e != Kill(s.pcb[i].pid) && Victim(s, e) != d
    ensures Away(s, i, d) && Harmless(s, e, i, d) && Spawned(s, e) != d && Spawned(s, e) != i && 0 < i
  {
    assert QueueOk(s, WaitQ(d));
    QueuedIsAway(s, i, d);
    assert Settled(s) && s.pcb[0].on == None;
  }

  lemma PidOfSlot(s: State, d: Slot)
    requires Inv(s) && Alive(s, d) && 2 <= d
    ensures 2 <= s.pcb[d].pid < s.nextPid && Scan(s, s.pcb[d].pid) == d
  {
    assert PidsOk(s);
    FoundThere(s, d, s.pcb[d].pid);
  }

  lemma PidsOkOf(s: State)
    requires Inv(s)
    ensures PidsOk(s)
  {
  }

  lemma StillAwaits(s: State, e: Event, i: Slot, d: Slot, pid: int)
    requires Inv(s) && Enabled(s, e) && Awaits(s, i, d, pid) && e != Kill(s.pcb[i].pid) && Victim(s, e) != d
    ensures Possible(s, e) && Awaits(Step(s, e), i, d, pid) && Step(s, e).pcb[i].pid == s.pcb[i].pid
  {
    hide Inv, Step, Enabled, Possible, Harmless, Away;
    AwaiterIsAway(s, e, i, d, pid);
    StepKeepsInv(s, e);
    StepSteady(s, e, i, d);
    StepFramed(s, e);
    var t := Step(s, e);
    BlockedIsThere(t, i, d);
    PidOfSlot(s, d);
    PidsOkOf(t);
    FoundThere(t, d, pid);
  }

  // ---------- the end of a process ----------

  lemma DiesInStep(s: State, e: Event)
    requires Inv(s) && Enabled(s, e) && (e.Kill? || e.Exit?)
    ensures Victim(s, e) < NUM_MAX_TASK && Deceased(s, Before(s, e), Victim(s, e))
  {
    if e.Kill? {
      KillEffect(s, e.pid);
    } else {
      ExitEffect(s);
    }
  }

  lemma VictimIsDead(s: State, e: Event, d: Slot)
    requires Inv(s) && Enabled(s, e) && Victim(s, e) == d
    ensures Possible(s, e) && !Alive(Step(s, e), d)
  {
    DiesInStep(s, e);
    StepSettles(s, e);
    assert ProcAfter(s, Before(s, e), d, d);
    hide Inv, Enabled, Before, Step, Possible;
  }

  lemma DeadStaysDead(s: State, e: Event, d: Slot)
    requires Inv(s) && Enabled(s, e) && !Alive(s, d) && 2 <= d && Victim(s, e) != d && Spawned(s, e) != d
    ensures Possible(s, e) && !Alive(Step(s, e), d)
  {
    assert d != s.current;
    DeadIsAway(s, d);
    hide Inv, Step, Enabled, Possible, Away;
    StepKeepsInv(s, e);
    StepSteady(s, e, d, d);
  }

  /** An id that names nobody alive never does again. */
  lemma GoneStaysGone(s: State, e: Event, pid: int)
    requires Inv(s) && Enabled(s, e) && HandedOut(s, pid) && !Living(s, pid)
    ensures Possible(s, e) && !Living(Step(s, e), pid) && HandedOut(Step(s, e), pid)
  {
    hide Inv, Step, Enabled, Possible;
    PidStep(s, e, pid);
    var t, d := Step(s, e), Scan(s, pid);
    if d < NUM_MAX_TASK && Scan(t, pid) == d {
      if Victim(s, e) == d {
        VictimIsDead(s, e, d);
      } else if Spawned(s, e) == d {
        SpawnedPid(s, t);
      } else {
        DeadStaysDead(s, e, d);
      }
    }
  }

  lemma WokenBefore(s: State, e: Event, i: Slot, d: Slot)
    requires Inv(s) && Enabled(s, e) && i in Items(s, WaitQ(d)) && Victim(s, e) == d && i != d
    ensures var t := Before(s, e); t.pcb[i].status == Ready && t.pcb[i].waitingPid == -1
  {
    DiesInStep(s, e);
    DelMembers(s, WaitQ(d), d);
    assert ProcAfter(s, Before(s, e), d, i);
    hide Before, Inv, Enabled;
    assert i in Heirs(s, d);
  }

  /** The step in which the process dies wakes who waits for it. */
  lemma DeathEndsWait(s: State, e: Event, i: Slot, d: Slot, pid: int)
    requires Inv(s) && Enabled(s, e) && Awaits(s, i, d, pid) && e != Kill(s.pcb[i].pid) && Victim(s, e) == d
    ensures Possible(s, e)
    ensures var t := Step(s, e);
      !Living(t, pid) && Alive(t, i) && t.pcb[i].status != Blocked && t.pcb[i].waitingPid == -1
  {
    VictimIsDead(s, e, d);
    WokenBefore(s, e, i, d);
    StepSettles(s, e);
    hide Inv, Enabled, Before, Step, Possible;
    PidOfSlot(s, d);
    PidStep(s, e, pid);
  }

  // ---------- over runs ----------

  lemma AwaitStep(s: State, e: Event, i: Slot, d: Slot, pid: int)
    requires Inv(s) && Enabled(s, e) && Awaits(s, i, d, pid) && HandedOut(s, pid) && e != Kill(s.pcb[i].pid)
    ensures Possible(s, e)
    ensures var t := Step(s, e);
      HandedOut(t, pid) && (Living(t, pid) ==> Awaits(t, i, d, pid) && t.pcb[i].pid == s.pcb[i].pid)
  {
    hide Inv, Step, Enabled, Possible, Awaits, Living;
    PidStep(s, e, pid);
    if Victim(s, e) == d {
      DeathEndsWait(s, e, i, d, pid);
    } else {
      StillAwaits(s, e, i, d, pid);
    }
  }

  lemma {:induction false} AwaitRun(s: State, run: seq<Event>, i: Slot, d: Slot, pid: int)
    requires Inv(s) && Legal(s, run) && Awaits(s, i, d, pid) && HandedOut(s, pid) && Kill(s.pcb[i].pid) !in run
    ensures var t := Exec(s, run);
      HandedOut(t, pid) && (Living(t, pid) ==> Awaits(t, i, d, pid) && t.pcb[i].pid == s.pcb[i].pid)
  {
    hide Inv, Step, Enabled, Possible, Awaits, Living, HandedOut;
    if run == [] {
    } else {
      var earlier, e := run[..|run| - 1], run[|run| - 1];
      assert e in run;
      AwaitRun(s, earlier, i, d, pid);
      RunKeepsInv(s, earlier);
      var u := Exec(s, earlier);
      if !Living(u, pid) {
        GoneStaysGone(u, e, pid);
      } else {
        AwaitStep(u, e, i, d, pid);
      }
    }
  }

  lemma StaysParked(t: State, u: State, i: Slot, d: Slot)
    requires SameBlocking(t, u) && t.pcb[i].status == Blocked && i in Items(t, WaitQ(d))
    ensures u.pcb[i].status == Blocked && i in Items(u, WaitQ(d))
    ensures u.pcb[i].pid == t.pcb[i].pid && u.pcb[d].pid == t.pcb[d].pid
  {
    assert IsBlocking(WaitQ(d));
  }

  lemma ParkedAt(s: State, pid: int, d: Slot)
    requires Enabled(s, Wait(pid)) && Scan(s, pid) == d
    ensures var t := Before(s, Wait(pid));
      && t.pcb[s.current].status == Blocked && s.current in Items(t, WaitQ(d))
      && t.pcb[s.current].pid == s.pcb[s.current].pid && t.pcb[d].pid == pid
    ensures Alive(s, d) && s.pcb[d].pid == pid && 2 <= d && Reschedules(s, Wait(pid))
  {
  }

  lemma InQueueIsThere(u: State, i: Slot, d: Slot)
    requires Inv(u) && i in Items(u, WaitQ(d)) && u.pcb[i].status == Blocked
    ensures OnlyIn(u, i, WaitQ(d)) && u.current != i && Alive(u, d)
  {
    assert QueueOk(u, WaitQ(d));
    PlaceOf(u, i);
    assert WaitersOk(u, 0, WaitQ(d));
    assert WaiterOk(u, 0, WaitQ(d), i);
  }

  lemma BeginsToAwait(s: State, pid: int)
    requires Inv(s) && Enabled(s, Wait(pid))
    ensures Possible(s, Wait(pid)) && HandedOut(Step(s, Wait(pid)), pid)
    ensures var t := Step(s, Wait(pid));
      Awaits(t, s.current, Scan(s, pid), pid) && t.pcb[s.current].pid == s.pcb[s.current].pid
  {
    var d: Slot := Scan(s, pid);
    hide Inv, Before, Step, Enabled, Possible, Scan, OnlyIn, SameBlocking, Reschedules;
    ParkedAt(s, pid, d);
    PidOfSlot(s, d);
    StepKeepsInv(s, Wait(pid));
    StepSettles(s, Wait(pid));
    PidStep(s, Wait(pid), pid);
    var u := Step(s, Wait(pid));
    StaysParked(Before(s, Wait(pid)), u, s.current, d);
    InQueueIsThere(u, s.current, d);
    PidsOkOf(u);
    FoundThere(u, d, pid);
  }

  /** A process that waits for another does not run again until that one has died: in every state of every later run,
      unless it is killed itself, it is blocked in the other's queue and nowhere else for as long as the id it waits
      for names a living process. */
  lemma WaitLastsAsLong(s: State, pid: int, run: seq<Event>)
    requires Inv(s) && Enabled(s, Wait(pid)) && Possible(s, Wait(pid)) && Legal(Step(s, Wait(pid)), run)
    requires Kill(s.pcb[s.current].pid) !in run
    ensures var t := Exec(Step(s, Wait(pid)), run);
      Living(t, pid) ==> Awaits(t, s.current, Scan(s, pid), pid)
  {
    var d: Slot := Scan(s, pid);
    hide Inv, Step, Enabled, Possible, Legal, Exec, Awaits, Living, Scan;
    BeginsToAwait(s, pid);
    StepKeepsInv(s, Wait(pid));
    AwaitRun(Step(s, Wait(pid)), run, s.current, d, pid);
  }
}
