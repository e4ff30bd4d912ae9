/** Short runs from start-up: the states in which the program does what it should not are reached. */
module Scenes {
  import opened KernelModel
  import opened Placement
  import opened KernelSteps
  import opened KernelInvariant
  import opened Legacy
  import opened Runs
  import opened Frame
  import opened WaitingTime

  // ---------- states early in a run ----------

  predicate IsReadyOrSleep(q: QueueId) {
    q == ReadyQ(1) || q == ReadyQ(2) || q == ReadyQ(3) || q == SleepQ
  }

  /** These are the queues, and nobody is in any other. */
  ghost predicate Queued(s: State, two: seq<Slot>, three: seq<Slot>, asleep: seq<Slot>) {
    && Q(s, 1) == [] && Q(s, 2) == two && Q(s, 3) == three && Items(s, SleepQ) == asleep
    && forall q | !IsReadyOrSleep(q) :: Items(s, q) == []
  }

  /** The slots below n have been given out in order; nobody is acquiring a mutex, and no alarm is due. */
  ghost predicate Staffed(s: State, n: nat) {
    && s.nextPid == n && s.time == 0
    && (forall i: Slot | 2 <= i < n :: s.pcb[i].pid == i)
    && (forall i: Slot :: s.pcb[i].alarm >= 0 && s.pcb[i].cont == User)
    && (forall i: Slot | 1 <= i :: s.pcb[i].status == NotExist <==> n <= i)
  }

  ghost predicate OnTheCpu(s: State, c: Slot, priority: int) {
    s.current == c && 1 <= c && s.pcb[c].status == Running && s.pcb[c].priority == priority && s.pcb[c].cont == User
  }

  ghost predicate Scene(s: State, c: Slot, priority: int, two: seq<Slot>, three: seq<Slot>, asleep: seq<Slot>, n: nat) {
    Inv(s) && OnTheCpu(s, c, priority) && Queued(s, two, three, asleep) && Staffed(s, n) && 2 <= n <= NUM_MAX_TASK
  }

  // ---------- one scheduler pass with nobody due ----------

  /** The queue after the interrupted process has been put back, unless it has gone elsewhere. */
  function Line(u: State, q: QueueId): seq<Slot> {
    var p := u.pcb[u.current];
    if u.current != 0 && p.status != Blocked && p.status != Sleeping && p.status != NotExist
      && q == ReadyQ(Demoted(p.priority))
    then Items(u, q) + [u.current] else Items(u, q)
  }

  function From(u: State): QueueId {
    if Line(u, ReadyQ(1)) != [] then ReadyQ(1) else if Line(u, ReadyQ(2)) != [] then ReadyQ(2) else ReadyQ(3)
  }

  lemma DispatchLine(d: State)
    requires Items(d, PickQueue(d)) != []
    ensures var t, from := Dispatch(d), PickQueue(d);
      && t.current == Items(d, from)[0] && t.locks == d.locks && t.conds == d.conds
      && (forall q :: Items(t, q) == if q == from then Items(d, q)[1..] else Items(d, q))
      && (forall i: Slot :: t.pcb[i].priority == d.pcb[i].priority)
  {
  }

  lemma PutBackLine(u: State)
    ensures var d := Requeue(Demote(Yield(u)));
      && (forall q :: Items(d, q) == Line(u, q))
      && (forall i: Slot | i != u.current :: d.pcb[i].priority == u.pcb[i].priority)
      && d.locks == u.locks && d.conds == u.conds
  {
  }

  lemma QuietPass(u: State)
    requires CanSchedule(u) && forall i | i in Items(u, SleepQ) :: !Due(u, i)
    ensures var t := Schedule(u);
      && Line(u, From(u)) != [] && t.current == Line(u, From(u))[0]
      && (forall q :: Items(t, q) == if q == From(u) then Line(u, q)[1..] else Line(u, q))
      && (forall i: Slot | i != u.current :: t.pcb[i].priority == u.pcb[i].priority)
      && t.locks == u.locks && t.conds == u.conds
  {
    var y := Yield(u);
    assert Items(y, SleepQ) == Items(u, SleepQ) && forall i: Slot :: Due(y, i) == Due(u, i);
    NobodyDue(y, Items(y, SleepQ));
    PutBackLine(u);
    hide WakeDue, Line, Requeue, Demote, Yield, Dispatch, Items;
    DispatchLine(Requeue(Demote(y)));
  }

  /** The scheduler changes nothing of this. */
  lemma ScheduleStaff(u: State, n: nat)
    requires Mid(u) && CanSchedule(u) && ShellReady(u) && Staffed(u, n)
    ensures Staffed(Schedule(u), n)
  {
    hide Schedule, CanSchedule, Mid, ShellReady, Settled, Struct;
    ScheduleSettles(u);
    ScheduleKeeps(u);
    assert Schedule(u).nextPid == n && Schedule(u).time == 0;
  }

  lemma BootStaff(locks: nat, conds: nat, sems: seq<nat>, goals: seq<int>)
    requires CanSchedule(Boot(locks, conds, sems, goals))
    ensures Staffed(Schedule(Boot(locks, conds, sems, goals)), 2)
  {
  }

  lemma BootScene(locks: nat, conds: nat, sems: seq<nat>, goals: seq<int>)
    ensures var b := Boot(locks, conds, sems, goals);
      && CanSchedule(b) && Scene(Schedule(b), 1, 3, [], [], [], 2)
      && Schedule(b).locks == b.locks && Schedule(b).conds == b.conds
  {
    var b := Boot(locks, conds, sems, goals);
    BootInv(locks, conds, sems, goals);
    QuietPass(b);
    assert Line(b, ReadyQ(3))[1..] == [];
    ScheduleKeeps(b);
    BootStaff(locks, conds, sems, goals);
    hide Schedule, CanSchedule;
  }

  // ---------- spawn ----------

  lemma SpawnedStaff(s: State, n: Slot)
    requires Staffed(s, n) && 2 <= n
    ensures Staffed(SpawnAt(s, n), n + 1)
  {
  }

  lemma FirstFree(s: State, n: nat)
    requires Staffed(s, n) && 2 <= n <= NUM_MAX_TASK
    ensures FreeSlot(s) == n
  {
    if n < NUM_MAX_TASK {
      assert s.pcb[n].status == NotExist;
    }
    if FreeSlot(s) < NUM_MAX_TASK {
      assert s.pcb[FreeSlot(s)].status == NotExist;
    }
  }

  function Wanted(q: QueueId, two: seq<Slot>, three: seq<Slot>, asleep: seq<Slot>): seq<Slot> {
    match q
    case ReadyQ(p) => if p == 2 then two else if p == 3 then three else []
    case SleepQ => asleep
    case _ => []
  }

  lemma SpawnedQueues(s: State, c: Slot, p: int, two: seq<Slot>, three: seq<Slot>, asleep: seq<Slot>, n: Slot)
    requires OnTheCpu(s, c, p) && Queued(s, two, three, asleep) && 1 <= p <= 3 && n != c
    ensures var u, two', three' := SpawnAt(s, n), if p == 1 then two + [c] else two,
      if p == 1 then three else three + [c];
      && u.current == c && u.pcb[n].priority == 1
      && forall q :: Line(u, q) == (if q == From(u) then [n] else []) + Wanted(q, two', three', asleep)
  {
    var u := SpawnAt(s, n);
    assert Line(u, ReadyQ(1)) == [n];
    forall q
      ensures Line(u, q) == (if q == From(u) then [n] else [])
        + Wanted(q, if p == 1 then two + [c] else two, if p == 1 then three else three + [c], asleep)
    {
      assert Items(s, q) == Wanted(q, two, three, asleep);
    }
  }

  lemma SpawnReady(s: State, n: Slot)
    requires Inv(s) && Staffed(s, n) && 2 <= n && s.pcb[s.current].cont == User
    ensures Enabled(s, Spawn) && Possible(s, Spawn) && Inv(Step(s, Spawn))
    ensures var u := SpawnAt(s, n); Mid(u) && ShellReady(u) && CanSchedule(u) && Step(s, Spawn) == Schedule(u)
  {
    FirstFree(s, n);
    assert Enabled(s, Spawn);
    StepKeepsInv(s, Spawn);
    BeforeInv(s, Spawn);
  }

  lemma SceneFacts(s: State, c: Slot, p: int, two: seq<Slot>, three: seq<Slot>, asleep: seq<Slot>, n: nat)
    requires Scene(s, c, p, two, three, asleep, n)
    ensures Inv(s) && OnTheCpu(s, c, p) && Queued(s, two, three, asleep) && Staffed(s, n) && 2 <= n <= NUM_MAX_TASK
    ensures 1 <= p <= 3 && s.current == c && s.pcb[s.current].cont == User
  {
  }

  lemma SpawnedRest(s: State, n: Slot)
    ensures var u := SpawnAt(s, n);
      u.locks == s.locks && u.conds == s.conds && u.current == s.current && u.pcb[n].priority == 1
  {
  }

  lemma SceneOf(t: State, c: Slot, p: int, two: seq<Slot>, three: seq<Slot>, asleep: seq<Slot>, n: nat)
    requires Inv(t) && Staffed(t, n) && 2 <= n <= NUM_MAX_TASK
    requires t.current == c && t.pcb[c].priority == p
    requires forall q :: Items(t, q) == Wanted(q, two, three, asleep)
    ensures Scene(t, c, p, two, three, asleep, n)
  {
  }

  /** The pass takes the first process of the best queue: the queues after it. */
  lemma PassedQueues(s: State, next: Slot, two: seq<Slot>, three: seq<Slot>, asleep: seq<Slot>)
    requires CanSchedule(s) && forall i: Slot :: !Due(s, i)
    requires forall id :: Line(s, id) == (if id == From(s) then [next] else []) + Wanted(id, two, three, asleep)
    ensures var t := Schedule(s);
      t.current == next && t.locks == s.locks && t.conds == s.conds
      && forall id :: Items(t, id) == Wanted(id, two, three, asleep)
  {
    hide Schedule, CanSchedule, Line, From, Due;
    QuietPass(s);
    forall id
      ensures Items(Schedule(s), id) == Wanted(id, two, three, asleep)
    {
      var w := Wanted(id, two, three, asleep);
      assert ([next] + w)[1..] == w && [] + w == w;
    }
  }

  /** The whole scene after it, if another process was current before. */
  lemma PassedScene(u: State, c: Slot, p: int, two: seq<Slot>, three: seq<Slot>, asleep: seq<Slot>, n: nat)
    requires CanSchedule(u) && (forall i: Slot :: !Due(u, i)) && Inv(Schedule(u)) && Staffed(Schedule(u), n)
      && 2 <= n <= NUM_MAX_TASK
    requires forall q :: Line(u, q) == (if q == From(u) then [c] else []) + Wanted(q, two, three, asleep)
    requires c != u.current && u.pcb[c].priority == p
    ensures Scene(Schedule(u), c, p, two, three, asleep, n)
    ensures Schedule(u).locks == u.locks && Schedule(u).conds == u.conds
  {
    hide Schedule, CanSchedule, Inv, Line, Due, From;
    QuietPass(u);
    PassedQueues(u, c, two, three, asleep);
    hide Wanted;
    SceneOf(Schedule(u), c, p, two, three, asleep, n);
  }

  lemma QuietStaff(u: State, n: nat)
    requires Staffed(u, n)
    ensures forall i: Slot :: !Due(u, i)
  {
  }

  lemma SpawnScene(s: State, c: Slot, p: int, two: seq<Slot>, three: seq<Slot>, asleep: seq<Slot>, n: Slot)
    requires Scene(s, c, p, two, three, asleep, n) && c < n
    ensures Enabled(s, Spawn) && Possible(s, Spawn)
    ensures Scene(Step(s, Spawn), n, 1, if p == 1 then two + [c] else two, if p == 1 then three else three + [c],
      asleep, n + 1)
    ensures Step(s, Spawn).locks == s.locks && Step(s, Spawn).conds == s.conds
  {
    hide OnTheCpu, Queued, Staffed, Inv, Scene, SpawnAt, Step, Schedule, Enabled, Possible, CanSchedule, Mid,
      ShellReady, Line, From, Due, Wanted;
    SceneFacts(s, c, p, two, three, asleep, n);
    SpawnReady(s, n);
    SpawnedStaff(s, n);
    SpawnedRest(s, n);
    SpawnedQueues(s, c, p, two, three, asleep, n);
    var u := SpawnAt(s, n);
    var two', three' := if p == 1 then two + [c] else two, if p == 1 then three else three + [c];
    QuietStaff(u, n + 1);
    ScheduleStaff(u, n + 1);
    PassedScene(u, n, 1, two', three', asleep, n + 1);
  }

  // ---------- sleep ----------

  lemma DozedStaff(s: State, n: nat, seconds: nat)
    requires Staffed(s, n) && s.current < n && 1 <= s.current && Alive(s, s.current)
    ensures Staffed(Doze(s, seconds), n)
  {
  }

  lemma DozedQueues(s: State, c: Slot, asleep: seq<Slot>, seconds: nat)
    requires OnTheCpu(s, c, 1) && Queued(s, [], [1], asleep)
    ensures var u := Doze(s, seconds);
      && u.current == c
      && forall q :: Line(u, q) == (if q == From(u) then [1] else []) + Wanted(q, [], [], asleep + [c])
  {
    var u := Doze(s, seconds);
    assert Line(u, ReadyQ(1)) == [] && Line(u, ReadyQ(2)) == [];
    forall q
      ensures Line(u, q) == (if q == From(u) then [1] else []) + Wanted(q, [], [], asleep + [c])
    {
      assert Items(s, q) == Wanted(q, [], [1], asleep);
    }
  }

  lemma SleepReady(s: State, seconds: nat)
    requires Inv(s) && s.pcb[s.current].cont == User && s.current != 1
    ensures var e, u := Event.Sleep(seconds), Doze(s, seconds);
      && Enabled(s, e) && Possible(s, e) && Inv(Step(s, e))
      && Mid(u) && ShellReady(u) && CanSchedule(u) && Step(s, e) == Schedule(u)
  {
    var e := Event.Sleep(seconds);
    assert Enabled(s, e);
    StepKeepsInv(s, e);
    BeforeInv(s, e);
  }

  lemma ShellAtThree(s: State)
    requires Inv(s) && 1 in Q(s, 3)
    ensures s.pcb[1].priority == 3
  {
    assert QueueOk(s, ReadyQ(3));
  }

  lemma ShellBehind(s: State, c: Slot, asleep: seq<Slot>)
    requires Inv(s) && OnTheCpu(s, c, 1) && Queued(s, [], [1], asleep)
    ensures s.pcb[1].priority == 3 && Alive(s, c)
  {
    assert 1 in [1] && 1 in Q(s, 3);
    ShellAtThree(s);
  }

  lemma DozedShell(s: State, seconds: nat)
    requires s.current != 1
    ensures Doze(s, seconds).pcb[1] == s.pcb[1]
  {
  }

  /** A process that goes to sleep at once leaves the processor to the shell. */
  lemma SleepScene(s: State, c: Slot, asleep: seq<Slot>, n: nat, seconds: nat)
    requires Scene(s, c, 1, [], [1], asleep, n) && 2 <= c < n
    ensures var e := Event.Sleep(seconds);
      Enabled(s, e) && Possible(s, e) && Scene(Step(s, e), 1, 3, [], [], asleep + [c], n)
  {
    hide OnTheCpu, Queued, Staffed, Inv, Scene, Doze, Step, Schedule, Enabled, Possible, CanSchedule, Mid, ShellReady,
      Line, From, Due, Wanted;
    SceneFacts(s, c, 1, [], [1], asleep, n);
    ShellBehind(s, c, asleep);
    SleepReady(s, seconds);
    DozedStaff(s, n, seconds);
    DozedQueues(s, c, asleep, seconds);
    DozedShell(s, seconds);
    var u := Doze(s, seconds);
    QuietStaff(u, n);
    ScheduleStaff(u, n);
    PassedScene(u, 1, 3, [], [], asleep + [c], n);
  }

  // ---------- an interrupt, and taking a mutex ----------

  lemma TickIsQuiet(s: State, c: Slot, p: int, two: seq<Slot>, three: seq<Slot>, asleep: seq<Slot>, n: nat)
    requires Scene(s, c, p, two, three, asleep, n)
    ensures Enabled(s, Tick) && Possible(s, Tick) && Step(s, Tick) == Schedule(s) && Inv(Schedule(s))
    ensures Mid(s) && CanSchedule(s) && ShellReady(s) && Staffed(s, n) && 2 <= n <= NUM_MAX_TASK
    ensures Ticked(s, Schedule(s)) && OnCpu(s, Running) && s.current != 0 && forall i: Slot :: !Due(s, i)
  {
    QuietStaff(s, n);
    assert Enabled(s, Tick);
    QuietTick(s);
    hide Ticked;
  }

  lemma LineRejoined(s: State, p: int)
    requires OnCpu(s, Running) && s.current != 0
    ensures Line(s, ReadyQ(p)) == Rejoined(s, p) && Rejoined(s, 1) == Q(s, 1)
  {
  }

  /** Who runs after a quiet tick has the priority of the queue it was taken from. */
  lemma TickedPriority(s: State, t: State, q: int)
    requires Ticked(s, t) && OnCpu(s, Running) && s.current != 0 && From(s) == ReadyQ(q)
    ensures t.pcb[t.current].priority == q
  {
    hide Line, Rejoined, Q, OnCpu;
    LineRejoined(s, 1);
    LineRejoined(s, 2);
  }

  /** A timer interrupt when nobody is due. */
  lemma TickScene(s: State, c: Slot, p: int, two: seq<Slot>, three: seq<Slot>, asleep: seq<Slot>, n: nat,
      next: Slot, q: int, two': seq<Slot>, three': seq<Slot>)
    requires Scene(s, c, p, two, three, asleep, n) && From(s) == ReadyQ(q)
    requires forall id :: Line(s, id) == (if id == From(s) then [next] else []) + Wanted(id, two', three', asleep)
    ensures Enabled(s, Tick) && Possible(s, Tick) && Scene(Step(s, Tick), next, q, two', three', asleep, n)
    ensures Step(s, Tick).locks == s.locks && Step(s, Tick).conds == s.conds
  {
    hide Inv, Scene, Staffed, Mid, ShellReady, Schedule, CanSchedule, Line, From, Due, Ticked, Step, Enabled, Possible,
      OnCpu, Wanted;
    TickIsQuiet(s, c, p, two, three, asleep, n);
    ScheduleStaff(s, n);
    TickedPriority(s, Schedule(s), q);
    PassedQueues(s, next, two', three', asleep);
    SceneOf(Schedule(s), next, q, two', three', asleep, n);
  }

  lemma TakesFree(s: State, l: int)
    requires LockRange(s, l) && !s.locks[l].locked && 2 <= s.current && s.pcb[s.current].cont == User
    requires FreeEntry(s.pcb[s.current].owned) < MAX_MUTEX_OWN
    ensures Enabled(s, Acquire(l)) && Possible(s, Acquire(l)) && Step(s, Acquire(l)) == Take(s, l)
  {
  }

  /** Taking a free mutex leaves the scene as it is. */
  lemma TakeScene(s: State, c: Slot, p: int, two: seq<Slot>, three: seq<Slot>, asleep: seq<Slot>, n: nat, l: int)
    requires Scene(s, c, p, two, three, asleep, n) && 2 <= c && LockRange(s, l) && !s.locks[l].locked
    requires FreeEntry(s.pcb[c].owned) < MAX_MUTEX_OWN
    ensures Enabled(s, Acquire(l)) && Possible(s, Acquire(l)) && Step(s, Acquire(l)) == Take(s, l)
    ensures Scene(Take(s, l), c, p, two, three, asleep, n)
  {
    hide Inv;
    TakesFree(s, l);
    StepKeepsInv(s, Acquire(l));
  }

  /** Who is the recorded owner of no mutex lists none. */
  lemma HoldsNothing(s: State, i: Slot)
    requires Inv(s) && forall l | LockRange(s, l) && s.locks[l].locked :: s.locks[l].owner != s.pcb[i].pid
    ensures s.pcb[i].owned == NOTHING_OWNED
  {
    assert OwnerOk(s, 0, i);
    assert forall l | LockRange(s, l) :: LockOk(s, l);
    assert forall l :: !Owns(s, i, l);
    assert forall j | 0 <= j < MAX_MUTEX_OWN :: s.pcb[i].owned[j].Some? ==> Owns(s, i, s.pcb[i].owned[j].value);
  }

  // ---------- runs from start-up ----------

  lemma LegalMore(s: State, run: seq<Event>, e: Event)
    requires Legal(s, run) && Enabled(Exec(s, run), e) && Possible(Exec(s, run), e)
    ensures Legal(s, run + [e]) && Exec(s, run + [e]) == Step(Exec(s, run), e)
  {
    assert (run + [e])[..|run|] == run;
  }

  /** The state a legal run leads to is this scene. */
  ghost predicate Leads(s: State, run: seq<Event>, c: Slot, p: int, two: seq<Slot>, three: seq<Slot>,
      asleep: seq<Slot>, n: nat)
  {
    Legal(s, run) && Scene(Exec(s, run), c, p, two, three, asleep, n)
  }

  lemma ShellSpawnsAside(s: State, run: seq<Event>, asleep: seq<Slot>, n: Slot)
    requires Leads(s, run, 1, 3, [], [], asleep, n) && 2 <= n
    ensures Leads(s, run + [Spawn], n, 1, [], [1], asleep, n + 1)
  {
    hide Scene, Legal, Exec, Step, Enabled, Possible;
    SpawnScene(Exec(s, run), 1, 3, [], [], asleep, n);
    LegalMore(s, run, Spawn);
    assert [] + [1] == [1];
  }

  lemma NewcomerSleeps(s: State, run: seq<Event>, asleep: seq<Slot>, n: Slot)
    requires Leads(s, run, n, 1, [], [1], asleep, n + 1) && 2 <= n
    ensures Leads(s, run + [Event.Sleep(1)], 1, 3, [], [], asleep + [n], n + 1)
  {
    hide Scene, Legal, Exec, Step, Enabled, Possible;
    SleepScene(Exec(s, run), n, asleep, n + 1, 1);
    LegalMore(s, run, Event.Sleep(1));
  }

  /** The shell starts one more process, which goes to sleep. */
  lemma OneMoreSleeper(s: State, run: seq<Event>, asleep: seq<Slot>, n: Slot)
    requires Leads(s, run, 1, 3, [], [], asleep, n) && 2 <= n
    ensures Leads(s, run + [Spawn] + [Event.Sleep(1)], 1, 3, [], [], asleep + [n], n + 1)
  {
    hide Leads;
    ShellSpawnsAside(s, run, asleep, n);
    NewcomerSleeps(s, run + [Spawn], asleep, n);
  }

  lemma StartsHere(s: State, n: nat)
    requires Scene(s, 1, 3, [], [], [], n)
    ensures Leads(s, [], 1, 3, [], [], [], n)
  {
  }

  lemma OneMoreNap(s: State, run: seq<Event>, asleep: seq<Slot>, n: Slot, longer: seq<Slot>) returns (more: seq<Event>)
    requires Leads(s, run, 1, 3, [], [], asleep, n) && 2 <= n && longer == asleep + [n]
    ensures Leads(s, more, 1, 3, [], [], longer, n + 1)
  {
    hide Leads;
    OneMoreSleeper(s, run, asleep, n);
    more := run + [Spawn] + [Event.Sleep(1)];
  }

  lemma ThreeSleepers(s: State) returns (run: seq<Event>)
    requires Scene(s, 1, 3, [], [], [], 2)
    ensures Leads(s, run, 1, 3, [], [], [2, 3, 4], 5)
  {
    StartsHere(s, 2);
    hide *;
    run := OneMoreNap(s, [], [], 2, [2]);
    run := OneMoreNap(s, run, [2], 3, [2, 3]);
    run := OneMoreNap(s, run, [2, 3], 4, [2, 3, 4]);
  }

  lemma MiddleSleeper(s: State)
    requires Scene(s, 1, 3, [], [], [2, 3, 4], 5)
    ensures Enabled(s, Kill(3)) && Scan(s, 3) == 3
  {
    assert s.pcb[2].pid == 2 && s.pcb[3].pid == 3;
    assert QueueOk(s, SleepQ) && 3 in Items(s, SleepQ);
  }

  /** A reachable state in which the shell may kill the middle one of three sleepers, so that the removal takes an
      element from the middle of a queue. */
  lemma KillFromTheMiddle(locks: nat, conds: nat, sems: seq<nat>, goals: seq<int>) returns (s: State)
    ensures Reachable(s) && Enabled(s, Kill(3)) && Items(s, SleepQ) == [2, 3, 4] && Scan(s, 3) == 3
  {
    var b := Boot(locks, conds, sems, goals);
    BootScene(locks, conds, sems, goals);
    var s0 := Schedule(b);
    var three := ThreeSleepers(s0);
    s := Exec(s0, three);
    assert Reaches(b, three, s);
    hide *;
    ReachableBy(locks, conds, sems, goals, three, s);
    MiddleSleeper(s);
  }

  // ---------- a dead process is waited for ----------

  /** Process 2 runs, process 3 is dead, its id is still in the table, and its slot is the next to be used. */
  ghost predicate Trap(s: State) {
    && Inv(s) && s.current == 2 && s.pcb[2].cont == User
    && Callable(s, Wait(3)) && Scan(s, 3) == 3 && !Alive(s, 3) && FreeSlot(s) == 3
  }

  lemma ExitReady(s: State)
    requires Scene(s, 3, 1, [2], [1], [], 4)
    ensures Enabled(s, Exit) && Possible(s, Exit) && Inv(Step(s, Exit)) && Framed(s, Step(s, Exit), Exit)
    ensures var u := Before(s, Exit);
      && Mid(u) && CanSchedule(u) && ShellReady(u) && Step(s, Exit) == Schedule(u)
      && Deceased(s, u, 3) && u.current == 3
  {
    StepKeepsInv(s, Exit);
    BeforeInv(s, Exit);
    ExitEffect(s);
    StepFramed(s, Exit);
  }

  lemma {:induction false} NoHeldHeirs(s: State, i: Slot, j: nat)
    requires j <= MAX_MUTEX_OWN && forall l :: Items(s, LockQ(l)) == []
    ensures HeldHeirs(s, i, j) == []
    decreases MAX_MUTEX_OWN - j
  {
    if j == MAX_MUTEX_OWN {
    } else {
      NoHeldHeirs(s, i, j + 1);
    }
  }

  lemma NoHeirs(s: State)
    requires Scene(s, 3, 1, [2], [1], [], 4)
    ensures Heirs(s, 3) == []
  {
    NoHeldHeirs(s, 3, 0);
  }

  lemma ExitLine(s: State, u: State)
    requires Scene(s, 3, 1, [2], [1], [], 4) && Deceased(s, u, 3) && u.current == 3
    ensures Line(u, From(u)) == [2] && (forall i: Slot :: !Due(u, i)) && !Alive(u, 3)
  {
    NoHeirs(s);
    forall i: Slot
      ensures u.pcb[i].alarm >= 0 && (i == 3 ==> u.pcb[i].status == NotExist)
    {
      assert ProcAfter(s, u, 3, i);
    }
    assert QueueAfter(s, u, 3, ReadyQ(1)) && QueueAfter(s, u, 3, ReadyQ(2));
    assert Del([2], 3) == [2] + Del([2][1..], 3) == [2];
  }

  lemma TwoAndThree(s: State)
    requires Scene(s, 3, 1, [2], [1], [], 4)
    ensures s.pcb[2].pid == 2 && s.pcb[3].pid == 3 && s.pcb[2].cont == User && Alive(s, 2)
  {
  }

  lemma Trapped(s: State, u: State, t: State)
    requires Inv(t) && t.current == 2 && SameButPlace(u, t) && !Alive(u, 3) && Framed(s, t, Exit)
    requires s.pcb[2].pid == 2 && s.pcb[3].pid == 3 && s.pcb[2].cont == User && Alive(s, 2)
    requires s.current == 3
    ensures Trap(t)
  {
    assert t.pcb[3].status == NotExist && Alive(t, 2) && t.pcb[2].pid == 2 && t.pcb[3].pid == 3;
    assert FreeSlot(t) == 3 && Scan(t, 3) == 3;
  }

  lemma ExitScene(s: State)
    requires Scene(s, 3, 1, [2], [1], [], 4)
    ensures Enabled(s, Exit) && Possible(s, Exit) && Trap(Step(s, Exit))
  {
    hide Inv, Mid, Schedule, CanSchedule, Line, From, Scene, Deceased, Step, Enabled, Possible, ShellReady;
    ExitReady(s);
    var u := Before(s, Exit);
    ExitLine(s, u);
    QuietPass(u);
    ScheduleSettles(u);
    TwoAndThree(s);
    Trapped(s, u, Step(s, Exit));
  }

  ghost predicate LeadsToTrap(s: State, run: seq<Event>) {
    Legal(s, run) && Trap(Exec(s, run))
  }

  lemma SameRun(run: seq<Event>)
    requires run == [] + [Spawn] + [Spawn] + [Exit]
    ensures run == [Spawn, Spawn, Exit]
  {
  }

  lemma ProcessSpawns(s: State, run: seq<Event>, c: Slot, n: Slot)
    requires Leads(s, run, c, 1, [], [1], [], n) && 2 <= c < n
    ensures Leads(s, run + [Spawn], n, 1, [c], [1], [], n + 1)
  {
    hide Scene, Legal, Exec, Step, Enabled, Possible;
    SpawnScene(Exec(s, run), c, 1, [], [1], [], n);
    LegalMore(s, run, Spawn);
    assert [] + [c] == [c];
  }

  lemma LeavesTrap(s: State, run: seq<Event>)
    requires Leads(s, run, 3, 1, [2], [1], [], 4)
    ensures LeadsToTrap(s, run + [Exit])
  {
    hide Scene, Legal, Exec, Step, Enabled, Possible, Trap;
    ExitScene(Exec(s, run));
    LegalMore(s, run, Exit);
  }

  lemma SpawnSpawnExit(s: State)
    requires Scene(s, 1, 3, [], [], [], 2)
    ensures LeadsToTrap(s, [Spawn, Spawn, Exit])
  {
    StartsHere(s, 2);
    hide *;
    ShellSpawnsAside(s, [], [], 2);
    ProcessSpawns(s, [] + [Spawn], 2, 3);
    LeavesTrap(s, [] + [Spawn] + [Spawn]);
    SameRun([] + [Spawn] + [Spawn] + [Exit]);
  }

  /** From every start-up, the run in which the shell starts a process, that process starts another, and the other exits
      leads to a state in which the first may wait for the dead one. */
  lemma DeadMayBeWaitedFor(locks: nat, conds: nat, sems: seq<nat>, goals: seq<int>)
    ensures CanSchedule(Boot(locks, conds, sems, goals))
    ensures LeadsToTrap(Schedule(Boot(locks, conds, sems, goals)), [Spawn, Spawn, Exit])
  {
    BootScene(locks, conds, sems, goals);
    SpawnSpawnExit(Schedule(Boot(locks, conds, sems, goals)));
  }
}
