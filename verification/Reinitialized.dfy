/** A task that initializes a mutex and then takes it, started twice: the second initialization finds the mutex held. */
module Reinitialized {
  import opened KernelModel
  import opened KernelSteps
  import opened KernelInvariant
  import opened Runs
  import opened Scenes
  import opened Initialization

  /** Process 2 holds mutex 0, nobody waits for it, and process 3 runs. */
  ghost predicate HeldByTwo(s: State) {
    && Scene(s, 3, 1, [2], [1], [], 4) && LockRange(s, 0) && s.locks[0] == Lock(true, 2)
    && s.pcb[3].owned == NOTHING_OWNED
  }

  ghost predicate LeadsToHeld(s: State, run: seq<Event>) {
    Legal(s, run) && HeldByTwo(Exec(s, run))
  }

  ghost predicate AllFree(s: State) {
    forall l | LockRange(s, l) :: s.locks[l] == Lock(false, -1)
  }

  lemma TakesFirst(s: State)
    requires Scene(s, 2, 1, [], [1], [], 3) && AllFree(s) && LockRange(s, 0)
    ensures Enabled(s, Acquire(0)) && Possible(s, Acquire(0))
    ensures var t := Step(s, Acquire(0));
      Scene(t, 2, 1, [], [1], [], 3) && t.locks == s.locks[0 := Lock(true, 2)]
  {
    HoldsNothing(s, 2);
    TakeScene(s, 2, 1, [], [1], [], 3, 0);
    assert s.pcb[2].pid == 2;
    hide Scene, Step, Enabled, Possible;
  }

  lemma ThirdHoldsNothing(s: State)
    requires Scene(s, 3, 1, [2], [1], [], 4)
    requires forall l | LockRange(s, l) && s.locks[l].locked :: s.locks[l].owner == 2
    ensures s.pcb[3].owned == NOTHING_OWNED
  {
    assert s.pcb[3].pid == 3;
    HoldsNothing(s, 3);
  }

  lemma AnotherStarts(s: State)
    requires Scene(s, 2, 1, [], [1], [], 3) && LockRange(s, 0) && s.locks[0] == Lock(true, 2)
    requires forall l | LockRange(s, l) && l != 0 :: s.locks[l] == Lock(false, -1)
    ensures Enabled(s, Spawn) && Possible(s, Spawn) && HeldByTwo(Step(s, Spawn))
  {
    hide Scene, Step, Enabled, Possible;
    SpawnScene(s, 2, 1, [], [1], [], 3);
    assert [] + [2] == [2];
    ThirdHoldsNothing(Step(s, Spawn));
  }

  lemma ThreeSteps(s: State, a: Event, b: Event, c: Event)
    requires Enabled(s, a) && Possible(s, a)
    requires var t := Step(s, a); Enabled(t, b) && Possible(t, b)
    requires var u := Step(Step(s, a), b); Enabled(u, c) && Possible(u, c)
    ensures Legal(s, [a, b, c]) && Exec(s, [a, b, c]) == Step(Step(Step(s, a), b), c)
  {
    hide Step, Enabled, Possible;
    assert Legal(s, []) && Exec(s, []) == s;
    LegalMore(s, [], a);
    LegalMore(s, [] + [a], b);
    LegalMore(s, [] + [a] + [b], c);
    assert [] + [a] + [b] + [c] == [a, b, c];
  }

  lemma SpawnAcquireSpawn(s: State)
    requires Scene(s, 1, 3, [], [], [], 2) && AllFree(s) && LockRange(s, 0)
    ensures LeadsToHeld(s, [Spawn, Acquire(0), Spawn])
  {
    hide Scene, Legal, Exec, Step, Enabled, Possible, HeldByTwo;
    StartsHere(s, 2);
    SpawnScene(s, 1, 3, [], [], [], 2);
    assert [] + [1] == [1];
    var t := Step(s, Spawn);
    TakesFirst(t);
    AnotherStarts(Step(t, Acquire(0)));
    ThreeSteps(s, Spawn, Acquire(0), Spawn);
  }

  lemma HeldUnawaited(s: State)
    requires HeldByTwo(s)
    ensures Inv(s) && s.current == 3 && LockRange(s, 0) && s.locks[0].locked && Items(s, LockQ(0)) == []
    ensures Scan(s, s.locks[0].owner) == 2 && FreeEntry(s.pcb[3].owned) < MAX_MUTEX_OWN
  {
    assert s.pcb[2].pid == 2;
    assert s.pcb[3].owned[0] == None;
  }

  lemma HeldState(b: State, run: seq<Event>) returns (s: State)
    requires CanSchedule(b) && LeadsToHeld(Schedule(b), run)
    ensures Reaches(b, run, s) && HeldByTwo(s)
  {
    s := Exec(Schedule(b), run);
  }

  lemma SecondStart(locks: nat, conds: nat, sems: seq<nat>, goals: seq<int>) returns (s: State)
    requires 1 <= locks
    ensures Reachable(s) && HeldByTwo(s)
  {
    var b := Boot(locks, conds, sems, goals);
    BootScene(locks, conds, sems, goals);
    assert AllFree(b);
    hide Scene, Schedule, CanSchedule, LeadsToHeld, HeldByTwo, Boot, Reachable, Reaches;
    SpawnAcquireSpawn(Schedule(b));
    s := HeldState(b, [Spawn, Acquire(0), Spawn]);
    ReachableBy(locks, conds, sems, goals, [Spawn, Acquire(0), Spawn], s);
  }

  /** From every start-up with a mutex the run spawn, acquire, spawn reaches a state in which a process runs that may
      initialize a mutex another holds and nobody waits for. If it does the kernel is out of order, and its next
      acquisition gives the mutex a second holder. */
  lemma ReinitializedMutexIsShared(locks: nat, conds: nat, sems: seq<nat>, goals: seq<int>) returns (s: State)
    requires 1 <= locks
    ensures Reachable(s) && LockRange(s, 0) && s.locks[0].locked && Items(s, LockQ(0)) == [] && s.current == 3
    ensures var t := NewLock(s, 0);
      && !Inv(t) && Callable(t, Acquire(0))
      && Owns(Before(t, Acquire(0)), 2, 0) && Owns(Before(t, Acquire(0)), 3, 0)
  {
    s := SecondStart(locks, conds, sems, goals);
    HeldUnawaited(s);
    hide Inv, Reachable, HeldByTwo;
    HeldLockLost(s, 0);
    TwoHolders(s, 0);
  }
}
