/** What semaphores and barriers promise over whole runs, in terms of who called them. */
module SyncLaws {
  import opened Basics
  import opened KernelModel
  import opened Placement
  import opened KernelSteps
  import opened KernelInvariant
  import opened StepInv
  import opened Runs
  import opened Objects
  import opened Frame
  import opened Initialization

  function Count(run: seq<Event>, e: Event): nat {
    if run == [] then 0 else Count(run[..|run| - 1], e) + if run[|run| - 1] == e then 1 else 0
  }

  // ---------- one step of a semaphore ----------

  predicate HasSem(s: State, x: int) {
    0 <= x < |s.sems|
  }

  /** Who gets past the semaphore in this step: a caller that finds it positive, or the first one waiting when it is
      raised. */
  function Passing(s: State, e: Event, x: int): seq<Slot> {
    if !HasSem(s, x) then []
    else if e == SemDown(x) && s.sems[x] > 0 then [s.current]
    else if e == SemUp(x) && s.sems[x] < 0 then Items(s, SemQ(x))[..Least(1, |Items(s, SemQ(x))|)]
    else []
  }

  /** Who is stopped by it in this step. */
  function Stopping(s: State, e: Event, x: int): seq<Slot> {
    if HasSem(s, x) && e == SemDown(x) && s.sems[x] <= 0 then [s.current] else []
  }

  /** Who is let go by it in this step after having been stopped. */
  function Resuming(s: State, e: Event, x: int): seq<Slot> {
    if e == SemUp(x) then Passing(s, e, x) else []
  }

  lemma DownItems(s: State, x: int)
    requires HasSem(s, x)
    ensures var t := Down(s, x); |t.sems| == |s.sems| && t.sems[x] == s.sems[x] - 1
    ensures Items(Down(s, x), SemQ(x)) == Items(s, SemQ(x)) + Stopping(s, SemDown(x), x)
  {
  }

  lemma DownOnCall(s: State, x: int)
    requires Callable(s, SemDown(x))
    ensures HasSem(s, x) && Before(s, SemDown(x)) == Down(s, x)
    ensures var t := Down(s, x); |t.sems| == |s.sems| && t.sems[x] == s.sems[x] - 1
    ensures Items(Down(s, x), SemQ(x)) == Items(s, SemQ(x)) + Stopping(s, SemDown(x), x)
  {
    DownItems(s, x);
  }

  lemma SemDownStep(s: State, x: int)
    requires Inv(s) && Enabled(s, SemDown(x))
    ensures Possible(s, SemDown(x))
    ensures var t := Step(s, SemDown(x)); |t.sems| == |s.sems| && t.sems[x] == s.sems[x] - 1
    ensures Items(Step(s, SemDown(x)), SemQ(x)) == Items(s, SemQ(x)) + Stopping(s, SemDown(x), x)
  {
    DownOnCall(s, x);
    hide Inv, Down, Step, Items, Stopping, Enabled, Possible, Before;
    ScheduleQueues(s, SemDown(x), SemQ(x));
  }

  lemma UpEffect(s: State, x: int)
    requires Struct(s) && Callable(s, SemUp(x)) && CountOk(s, SemQ(x))
    ensures var t := Up(s, x); |t.sems| == |s.sems| && t.sems[x] == s.sems[x] + 1
    ensures Items(s, SemQ(x)) == Resuming(s, SemUp(x), x) + Items(Up(s, x), SemQ(x))
    ensures s.sems[x] < 0 ==> |Passing(s, SemUp(x), x)| == 1
  {
    var u := s.(sems := s.sems[x := s.sems[x] + 1]);
    SameLinksStruct(s, u);
    if s.sems[x] < 0 {
      WakeEffect(u, Items(u, SemQ(x))[0], SemQ(x), 0);
    }
  }

  lemma SemUpStep(s: State, x: int)
    requires Inv(s) && Enabled(s, SemUp(x))
    ensures Possible(s, SemUp(x))
    ensures var t := Step(s, SemUp(x)); |t.sems| == |s.sems| && t.sems[x] == s.sems[x] + 1
    ensures Items(s, SemQ(x)) == Resuming(s, SemUp(x), x) + Items(Step(s, SemUp(x)), SemQ(x))
    ensures s.sems[x] < 0 ==> |Passing(s, SemUp(x), x)| == 1
  {
    hide Up, Struct;
    ScheduleQueues(s, SemUp(x), SemQ(x));
    assert CountOk(s, SemQ(x));
    UpEffect(s, x);
  }

  lemma SemRange(s: State, e: Event, x: int)
    requires Possible(s, e) && HasSem(s, x)
    ensures HasSem(Step(s, e), x)
  {
    StepFramed(s, e);
  }

  /** One step, as seen by semaphore x. */
  lemma SemStep(s: State, e: Event, x: int)
    requires Inv(s) && Enabled(s, e) && HasSem(s, x)
    ensures Possible(s, e) && HasSem(Step(s, e), x)
    ensures Step(s, e).sems[x] ==
            s.sems[x] + (if e == SemUp(x) then 1 else 0) - (if e == SemDown(x) then 1 else 0)
    ensures Items(s, SemQ(x)) + Stopping(s, e, x) == Resuming(s, e, x) + Items(Step(s, e), SemQ(x))
    ensures |Passing(s, e, x)| ==
            if (e == SemDown(x) && s.sems[x] > 0) || (e == SemUp(x) && s.sems[x] < 0) then 1 else 0
  {
    hide Inv, Step, Before;
    if e == SemDown(x) {
      SemDownStep(s, x);
    } else if e == SemUp(x) {
      SemUpStep(s, x);
    } else {
      StepQueues(s, e, SemQ(x));
      SemRange(s, e, x);
    }
  }

  // ---------- semaphores over runs ----------

  /** Everybody who got past the semaphore, in order. */
  function Passed(s: State, run: seq<Event>, x: int): seq<Slot>
    requires Legal(s, run)
  {
    if run == [] then []
    else Passed(s, run[..|run| - 1], x) + Passing(Exec(s, run[..|run| - 1]), run[|run| - 1], x)
  }

  /** Everybody who was stopped by it, in order. */
  function Stopped(s: State, run: seq<Event>, x: int): seq<Slot>
    requires Legal(s, run)
  {
    if run == [] then []
    else Stopped(s, run[..|run| - 1], x) + Stopping(Exec(s, run[..|run| - 1]), run[|run| - 1], x)
  }

  /** Everybody who was let go after having been stopped, in order. */
  function Resumed(s: State, run: seq<Event>, x: int): seq<Slot>
    requires Legal(s, run)
  {
    if run == [] then []
    else Resumed(s, run[..|run| - 1], x) + Resuming(Exec(s, run[..|run| - 1]), run[|run| - 1], x)
  }

  /** The value is v plus the ups minus the downs; those it stopped are let go in the order they came, the others
      still wait in that order; and exactly min(downs, v + ups) callers have got past it. */
  ghost predicate SemHistory(v: int, s: State, x: int, ups: nat, downs: nat,
                             passed: seq<Slot>, stopped: seq<Slot>, resumed: seq<Slot>) {
    && HasSem(s, x) && s.sems[x] == v + ups - downs
    && stopped == resumed + Items(s, SemQ(x))
    && |passed| == Least(downs, v + ups)
  }

  lemma SemHistoryStep(v: nat, s: State, e: Event, x: int, ups: nat, downs: nat,
                       passed: seq<Slot>, stopped: seq<Slot>, resumed: seq<Slot>)
    requires Inv(s) && Enabled(s, e) && SemHistory(v, s, x, ups, downs, passed, stopped, resumed)
    ensures Possible(s, e)
    ensures SemHistory(v, Step(s, e), x,
      ups + (if e == SemUp(x) then 1 else 0), downs + (if e == SemDown(x) then 1 else 0),
      passed + Passing(s, e, x), stopped + Stopping(s, e, x), resumed + Resuming(s, e, x))
  {
    hide Inv, Step, Enabled, Possible;
    SemStep(s, e, x);
    PassThrough(stopped, resumed, Items(s, SemQ(x)), Stopping(s, e, x), Resuming(s, e, x), Items(Step(s, e), SemQ(x)));
  }

  lemma SemCounts(s: State, x: int)
    requires Inv(s) && HasSem(s, x)
    ensures |Items(s, SemQ(x))| == if s.sems[x] < 0 then -s.sems[x] else 0
  {
    assert CountOk(s, SemQ(x));
  }

  /** The law of a semaphore that starts at v >= 0, over every run. */
  lemma {:induction false} SemaphoreLaw(s: State, run: seq<Event>, x: int)
    requires Inv(s) && Legal(s, run) && HasSem(s, x) && s.sems[x] >= 0
    ensures SemHistory(s.sems[x], Exec(s, run), x, Count(run, SemUp(x)), Count(run, SemDown(x)),
      Passed(s, run, x), Stopped(s, run, x), Resumed(s, run, x))
  {
    if run == [] {
      SemCounts(s, x);
    } else {
      hide Inv, Step, SemHistory, Enabled;
      var earlier, e := run[..|run| - 1], run[|run| - 1];
      SemaphoreLaw(s, earlier, x);
      RunKeepsInv(s, earlier);
      SemHistoryStep(s.sems[x], Exec(s, earlier), e, x, Count(earlier, SemUp(x)), Count(earlier, SemDown(x)),
        Passed(s, earlier, x), Stopped(s, earlier, x), Resumed(s, earlier, x));
    }
  }

  // ---------- mutual exclusion by a semaphore ----------

  function Members(items: seq<Slot>): set<Slot> {
    set i | i in items
  }

  function InsideAfter(inside: set<Slot>, s: State, e: Event, x: int): set<Slot> {
    (if e == SemUp(x) then inside - {s.current} else inside) + Members(Passing(s, e, x))
  }

  /** Who is between a down that let it pass and its next up. */
  function Inside(s: State, run: seq<Event>, x: int): set<Slot>
    requires Legal(s, run)
  {
    if run == [] then {}
    else
      var u, e := Exec(s, run[..|run| - 1]), run[|run| - 1];
      InsideAfter(Inside(s, run[..|run| - 1], x), u, e, x)
  }

  /** Downs and ups are used in pairs: nobody goes in twice, and only who is inside goes out. */
  predicate PairedStep(inside: set<Slot>, s: State, e: Event, x: int) {
    && (e == SemDown(x) ==> s.current !in inside)
    && (e == SemUp(x) ==> s.current in inside)
  }

  predicate Paired(s: State, run: seq<Event>, x: int)
    requires Legal(s, run)
  {
    run == [] ||
    (var earlier := run[..|run| - 1];
     Paired(s, earlier, x) && PairedStep(Inside(s, earlier, x), Exec(s, earlier), run[|run| - 1], x))
  }

  /** Those inside plus the positive part of the value make v; nobody waits who is inside. */
  ghost predicate Balanced(v: int, s: State, x: int, inside: set<Slot>) {
    && HasSem(s, x)
    && |inside| + (if s.sems[x] > 0 then s.sems[x] else 0) == v
    && forall i | i in Items(s, SemQ(x)) :: i !in inside
  }

  lemma StillOutside(s: State, t: State, e: Event, x: int, inside: set<Slot>)
    requires NoDup(Items(s, SemQ(x))) && s.current !in Items(s, SemQ(x)) && PairedStep(inside, s, e, x)
    requires Items(s, SemQ(x)) + Stopping(s, e, x) == Resuming(s, e, x) + Items(t, SemQ(x))
    requires forall i | i in Items(s, SemQ(x)) :: i !in inside
    ensures forall i | i in Items(t, SemQ(x)) :: i !in InsideAfter(inside, s, e, x)
  {
    var first, rest := Items(s, SemQ(x)), Items(t, SemQ(x));
    var p := Passing(s, e, x);
    forall k | 0 <= k < |rest|
      ensures rest[k] !in InsideAfter(inside, s, e, x)
    {
      assert rest[k] == (first + Stopping(s, e, x))[|Resuming(s, e, x)| + k];
    }
  }

  lemma AddMembers(a: set<Slot>, p: seq<Slot>)
    requires |p| <= 1 && forall i | i in p :: i !in a
    ensures |a + Members(p)| == |a| + |p|
  {
    if p == [] {
      assert a + Members(p) == a;
    } else {
      assert Members(p) == {p[0]};
    }
  }

  lemma InsideCount(v: int, s: State, e: Event, x: int, inside: set<Slot>)
    requires Balanced(v, s, x, inside) && PairedStep(inside, s, e, x)
    requires |Items(s, SemQ(x))| == if s.sems[x] < 0 then -s.sems[x] else 0
    requires s.current !in Items(s, SemQ(x))
    ensures |InsideAfter(inside, s, e, x)| == |inside| + |Passing(s, e, x)| - if e == SemUp(x) then 1 else 0
  {
    var p := Passing(s, e, x);
    assert e == SemUp(x) && s.sems[x] < 0 ==> p == [Items(s, SemQ(x))[0]] && p[0] !in inside;
    assert e == SemDown(x) && s.sems[x] > 0 ==> p == [s.current];
    hide Balanced, Passing;
    AddMembers(if e == SemUp(x) then inside - {s.current} else inside, p);
  }

  lemma WaitersDiffer(s: State, x: int)
    requires Inv(s)
    ensures s.current !in Items(s, SemQ(x)) && NoDup(Items(s, SemQ(x)))
  {
    RunningIsNowhere(s, SemQ(x));
    assert QueueOk(s, SemQ(x));
  }

  lemma BalancedStep(v: int, s: State, e: Event, x: int, inside: set<Slot>)
    requires Inv(s) && Enabled(s, e) && Balanced(v, s, x, inside) && PairedStep(inside, s, e, x)
    ensures Possible(s, e) && Balanced(v, Step(s, e), x, InsideAfter(inside, s, e, x))
  {
    hide Inv, Step, Enabled, Possible, Passing;
    SemCounts(s, x);
    WaitersDiffer(s, x);
    SemStep(s, e, x);
    InsideCount(v, s, e, x, inside);
    StillOutside(s, Step(s, e), e, x, inside);
  }

  lemma {:induction false} RunBalanced(s: State, run: seq<Event>, x: int)
    requires Inv(s) && Legal(s, run) && HasSem(s, x) && s.sems[x] >= 0 && Paired(s, run, x)
    ensures Balanced(s.sems[x], Exec(s, run), x, Inside(s, run, x))
  {
    if run == [] {
      SemCounts(s, x);
    } else {
      hide Inv, Step, Balanced, Enabled;
      var earlier, e := run[..|run| - 1], run[|run| - 1];
      RunBalanced(s, earlier, x);
      RunKeepsInv(s, earlier);
      BalancedStep(s.sems[x], Exec(s, earlier), e, x, Inside(s, earlier, x));
    }
  }

  /** A semaphore started at v and used in pairs never lets more than v processes be inside; with v = 1 it is a lock. */
  lemma SemaphoreExcludes(s: State, run: seq<Event>, x: int)
    requires Inv(s) && Legal(s, run) && HasSem(s, x) && s.sems[x] >= 0 && Paired(s, run, x)
    ensures |Inside(s, run, x)| <= s.sems[x]
  {
    RunBalanced(s, run, x);
  }

  // ---------- barriers ----------

  predicate HasBarrier(s: State, b: int) {
    0 <= b < |s.barriers| && s.barriers[b].goal >= 1
  }

  function Arriving(s: State, e: Event, b: int): seq<Slot> {
    if e == BarrierWait(b) then [s.current] else []
  }

  /** Who is let through in this step: if the caller completes the round, everybody waiting and the caller. */
  function Opening(s: State, e: Event, b: int): seq<Slot> {
    if HasBarrier(s, b) && e == BarrierWait(b) && s.barriers[b].now + 1 == s.barriers[b].goal
    then Items(s, BarQ(b)) + [s.current] else []
  }

  lemma ArriveEffect(s: State, b: int)
    requires Struct(s) && HasBarrier(s, b) && s.barriers[b].now < s.barriers[b].goal
    ensures var t := Arrive(s, b); |t.barriers| == |s.barriers| && t.barriers[b].goal == s.barriers[b].goal
    ensures Items(s, BarQ(b)) + [s.current] == Opening(s, BarrierWait(b), b) + Items(Arrive(s, b), BarQ(b))
  {
    SameLinksStruct(s, Counted(s, b));
    UnblockAllEffect(Counted(s, b), BarQ(b));
  }

  lemma BarrierCount(s: State, b: int)
    requires Inv(s) && HasBarrier(s, b)
    ensures Struct(s) && 0 <= s.barriers[b].now < s.barriers[b].goal && |Items(s, BarQ(b))| == s.barriers[b].now
  {
    assert CountOk(s, BarQ(b));
  }

  lemma BarrierArrival(s: State, b: int)
    requires Inv(s) && Enabled(s, BarrierWait(b)) && HasBarrier(s, b)
    ensures var e := BarrierWait(b);
      && Possible(s, e) && HasBarrier(Step(s, e), b) && Step(s, e).barriers[b].goal == s.barriers[b].goal
      && Items(s, BarQ(b)) + [s.current] == Opening(s, e, b) + Items(Step(s, e), BarQ(b))
  {
    hide Inv, Step, Arrive, Struct, Opening;
    BarrierCount(s, b);
    ArriveEffect(s, b);
    ScheduleQueues(s, BarrierWait(b), BarQ(b));
  }

  lemma BarrierStep(s: State, e: Event, b: int)
    requires Inv(s) && Enabled(s, e) && HasBarrier(s, b)
    ensures Possible(s, e) && HasBarrier(Step(s, e), b) && Step(s, e).barriers[b].goal == s.barriers[b].goal
    ensures Items(s, BarQ(b)) + Arriving(s, e, b) == Opening(s, e, b) + Items(Step(s, e), BarQ(b))
  {
    hide Inv, Step, Enabled, Possible;
    if e == BarrierWait(b) {
      BarrierArrival(s, b);
    } else {
      StepQueues(s, e, BarQ(b));
      StepFramed(s, e);
      hide Items;
      assert Items(s, BarQ(b)) + [] == [] + Items(s, BarQ(b));
    }
  }

  function Arrived(s: State, run: seq<Event>, b: int): seq<Slot>
    requires Legal(s, run)
  {
    if run == [] then []
    else Arrived(s, run[..|run| - 1], b) + Arriving(Exec(s, run[..|run| - 1]), run[|run| - 1], b)
  }

  function LetThrough(s: State, run: seq<Event>, b: int): seq<Slot>
    requires Legal(s, run)
  {
    if run == [] then []
    else LetThrough(s, run[..|run| - 1], b) + Opening(Exec(s, run[..|run| - 1]), run[|run| - 1], b)
  }

  /** Everybody who arrived has been let through, in order, except those who still wait; whole rounds are let
      through. */
  ghost predicate Rounds(n: int, s: State, b: int, arrived: seq<Slot>, through: seq<Slot>, rounds: nat) {
    && HasBarrier(s, b) && s.barriers[b].goal == n
    && arrived == through + Items(s, BarQ(b))
    && |through| == n * rounds
  }

  lemma RoundsStep(n: int, s: State, e: Event, b: int, arrived: seq<Slot>, through: seq<Slot>, rounds: nat)
      returns (rounds': nat)
    requires Inv(s) && Enabled(s, e) && Rounds(n, s, b, arrived, through, rounds)
    ensures Possible(s, e)
    ensures Rounds(n, Step(s, e), b, arrived + Arriving(s, e, b), through + Opening(s, e, b), rounds')
  {
    hide Inv, Step, Enabled, Possible, Struct;
    rounds' := if Opening(s, e, b) == [] then rounds else rounds + 1;
    BarrierCount(s, b);
    BarrierStep(s, e, b);
    PassThrough(arrived, through, Items(s, BarQ(b)), Arriving(s, e, b), Opening(s, e, b), Items(Step(s, e), BarQ(b)));
    assert |Opening(s, e, b)| == if Opening(s, e, b) == [] then 0 else n;
  }

  lemma {:induction false} RunRounds(s: State, run: seq<Event>, b: int) returns (rounds: nat)
    requires Inv(s) && Legal(s, run) && HasBarrier(s, b) && Items(s, BarQ(b)) == []
    ensures Rounds(s.barriers[b].goal, Exec(s, run), b, Arrived(s, run, b), LetThrough(s, run, b), rounds)
  {
    if run == [] {
      rounds := 0;
    } else {
      hide Inv, Step, Enabled, Rounds;
      var earlier, e := run[..|run| - 1], run[|run| - 1];
      rounds := RunRounds(s, earlier, b);
      RunKeepsInv(s, earlier);
      rounds := RoundsStep(s.barriers[b].goal, Exec(s, earlier), e, b,
                           Arrived(s, earlier, b), LetThrough(s, earlier, b), rounds);
    }
  }

  lemma MulGrows(n: int, k: int)
    requires 0 < n && 1 <= k
    ensures n <= n * k
  {
  }

  lemma Distribute(n: int, a: int, b: int)
    ensures n * a - n * b == n * (a - b)
  {
  }

  /** How many are left over when a are taken n at a time. */
  function LeftOver(a: nat, n: nat): (r: nat)
    requires 1 <= n
    ensures r <= a && r < n && r == a % n && a - r == n * (a / n)
  {
    assert a == n * (a / n) + a % n;
    a % n
  }

  lemma WholeRounds(n: int, rounds: nat, rest: nat)
    requires rest < n && 0 <= n * rounds
    ensures LeftOver(n * rounds + rest, n) == rest
  {
    var a := n * rounds + rest;
    var q, r := a / n, LeftOver(a, n);
    Distribute(n, q, rounds);
    if q > rounds {
      MulGrows(n, q - rounds);
    } else if q < rounds {
      Distribute(n, rounds, q);
      MulGrows(n, rounds - q);
    }
  }

  lemma InRounds(n: int, rounds: nat, arrived: seq<Slot>, through: seq<Slot>, waiting: seq<Slot>)
    requires arrived == through + waiting && |through| == n * rounds && |waiting| < n
    ensures |waiting| == LeftOver(|arrived|, n)
    ensures through == arrived[..|arrived| - |waiting|] && waiting == arrived[|arrived| - |waiting|..]
  {
    WholeRounds(n, rounds, |waiting|);
  }

  /** A barrier for n processes lets arrivals through in order, n at a time: after any run all but the last
      (arrivals mod n) of them have been let through, and these are the ones that wait. */
  lemma BarrierLaw(s: State, run: seq<Event>, b: int)
    requires Inv(s) && Legal(s, run) && HasBarrier(s, b) && Items(s, BarQ(b)) == []
    ensures var a := Arrived(s, run, b);
      var left := LeftOver(|a|, s.barriers[b].goal);
      LetThrough(s, run, b) == a[..|a| - left] && Items(Exec(s, run), BarQ(b)) == a[|a| - left..]
  {
    hide Inv, Struct, LeftOver, Legal, Exec, Arrived, LetThrough;
    var rounds := RunRounds(s, run, b);
    RunKeepsInv(s, run);
    BarrierCount(Exec(s, run), b);
    InRounds(s.barriers[b].goal, rounds, Arrived(s, run, b), LetThrough(s, run, b), Items(Exec(s, run), BarQ(b)));
  }

  // ---------- from the initialization on ----------

  /** A semaphore nobody waits for, initialized with v, begins a history with that value. */
  lemma NewSemaphoreLaw(s: State, x: int, v: nat, run: seq<Event>)
    requires Inv(s) && HasSem(s, x) && Items(s, SemQ(x)) == [] && Legal(NewSem(s, x, v), run)
    ensures var t := NewSem(s, x, v);
      SemHistory(v, Exec(t, run), x, Count(run, SemUp(x)), Count(run, SemDown(x)),
        Passed(t, run, x), Stopped(t, run, x), Resumed(t, run, x))
  {
    NewSemIsSafeIfEmpty(s, x, v);
    SemaphoreLaw(NewSem(s, x, v), run, x);
  }

  /** A barrier nobody waits for, initialized with a goal, lets through rounds of that many. */
  lemma NewBarrierLaw(s: State, b: int, goal: nat, run: seq<Event>)
    requires Inv(s) && 0 <= b < |s.barriers| && Items(s, BarQ(b)) == [] && goal >= 1
    requires Legal(NewBarrier(s, b, goal), run)
    ensures var t := NewBarrier(s, b, goal);
      var a := Arrived(t, run, b);
      var left := LeftOver(|a|, goal);
      LetThrough(t, run, b) == a[..|a| - left] && Items(Exec(t, run), BarQ(b)) == a[|a| - left..]
  {
    NewBarrierIsSafeIfEmpty(s, b, goal);
    hide Inv, Legal, Exec, Arrived, LetThrough, LeftOver;
    BarrierLaw(NewBarrier(s, b, goal), run, b);
  }
}
