/** Who runs after a call, and where the caller and those it woke are: raising a semaphore, opening a barrier,
    broadcasting. */
module CallerLaws {
  import opened KernelModel
  import opened Placement
  import opened KernelSteps
  import opened KernelInvariant
  import opened Runs
  import opened SchedulerLaws
  import opened Effects

  /** Nobody's alarm has passed. */
  ghost predicate NobodyDue(s: State) {
    forall i | i in Items(s, SleepQ) :: !Due(s, i)
  }

  lemma {:induction false} NobodyOverdue(s: State, sleepers: seq<Slot>)
    requires forall i | i in sleepers :: !Due(s, i)
    ensures Overdue(s, sleepers) == [] && StillAsleep(s, sleepers) == sleepers
  {
    if sleepers == [] {
    } else {
      NobodyOverdue(s, sleepers[1..]);
    }
  }

  /** A ready queue with the caller, who has given way, behind it. */
  function Behind(s: State, p: int): seq<Slot> {
    var lower := if s.pcb[s.current].priority == 1 then 2 else 3;
    if p == lower then Items(s, ReadyQ(p)) + [s.current] else Items(s, ReadyQ(p))
  }

  lemma CallerPriority(s: State)
    requires Inv(s)
    ensures 1 <= s.pcb[s.current].priority <= 3
  {
  }

  lemma LineWhenGivingWay(s: State, e: Event, p: int, woken: seq<Slot>)
    requires Callable(s, e) && (e.SemUp? || e.SemDown? || e.BarrierWait? || e.Tick?) && FateOf(s, e) == GivesWay
    requires Readied(s, e) == woken && 1 <= s.pcb[s.current].priority <= 3
    requires Overdue(s, Items(s, SleepQ)) == []
    ensures ReadyLine(s, e, p) == if p == 1 then Items(s, ReadyQ(1)) + woken else Behind(s, p)
  {
    assert Remaining(s, e, ReadyQ(p)) == Items(s, ReadyQ(p)) && Remaining(s, e, SleepQ) == Items(s, SleepQ);
    LaterIs(s, e, ReadyQ(p), Items(s, ReadyQ(p)), woken);
    hide Readied, Overdue, Remaining, Items;
    var line := LaterQueue(s, e, ReadyQ(p));
    assert line + [] == line;
  }

  /** A caller that gives way, with those it woke, when nobody is due. */
  lemma GivingWay(s: State, e: Event, woken: seq<Slot>)
    requires Inv(s) && Enabled(s, e) && (e.SemUp? || e.SemDown? || e.BarrierWait? || e.Tick?) && NobodyDue(s)
    requires FateOf(s, e) == GivesWay && Readied(s, e) == woken
    ensures Possible(s, e)
    ensures Chosen(Step(s, e), Items(s, ReadyQ(1)) + woken, Behind(s, 2), Behind(s, 3))
  {
    CallerPriority(s);
    NobodyOverdue(s, Items(s, SleepQ));
    hide Inv, Step, Enabled, Possible, Chosen, Readied, Overdue, StillAsleep;
    StepMoves(s, e);
    forall p
      ensures ReadyLine(s, e, p) == if p == 1 then Items(s, ReadyQ(1)) + woken else Behind(s, p)
    {
      LineWhenGivingWay(s, e, p, woken);
    }
  }

  predicate NobodyBefore(s: State, woken: seq<Slot>, lower: int) {
    && Items(s, ReadyQ(1)) == [] && woken == [] && Items(s, ReadyQ(2)) == []
    && (lower == 3 ==> Items(s, ReadyQ(3)) == [])
  }

  predicate EndsWith(queue: seq<Slot>, i: Slot) {
    queue != [] && queue[|queue| - 1] == i
  }

  /** Where the caller is after it gave way: at the end of the next lower ready queue, unless nobody stands before it
      there or in a better one; then it runs again. */
  ghost predicate CallerBehind(s: State, t: State, woken: seq<Slot>) {
    var c, lower := s.current, if s.pcb[s.current].priority == 1 then 2 else 3;
    && (t.current == c <==> NobodyBefore(s, woken, lower))
    && (t.current != c ==>
        && t.pcb[c].status == Ready && t.pcb[c].priority == lower
        && EndsWith(Items(t, ReadyQ(lower)), c))
  }

  lemma LastIsThere(t: State, i: Slot, p: int)
    requires Inv(t) && i in Items(t, ReadyQ(p))
    ensures t.pcb[i].status == Ready && t.pcb[i].priority == p && i != t.current
  {
    assert QueueOk(t, ReadyQ(p));
  }

  lemma ChosenOrLast(t: State, one: seq<Slot>, two: seq<Slot>, three: seq<Slot>, c: Slot, lower: int)
    requires 2 <= lower <= 3 && c !in one && c !in two && c !in three
    requires Chosen(t, one, if lower == 2 then two + [c] else two, if lower == 3 then three + [c] else three)
    ensures t.current == c <==> one == [] && two == [] && (lower == 3 ==> three == [])
    ensures t.current != c ==> EndsWith(Items(t, ReadyQ(lower)), c)
  {
    hide Items;
    if one != [] {
      assert t.current == one[0] && one[0] in one;
    } else if two != [] {
      assert t.current == two[0] && two[0] in two;
    } else if lower == 3 && three != [] {
      assert t.current == three[0] && three[0] in three;
    }
  }

  lemma CallerInLine(s: State, t: State, woken: seq<Slot>)
    requires Inv(s) && Inv(t) && Chosen(t, Items(s, ReadyQ(1)) + woken, Behind(s, 2), Behind(s, 3))
      && s.current !in woken
    ensures CallerBehind(s, t, woken)
  {
    IsRunning(s);
    var c, lower := s.current, if s.pcb[s.current].priority == 1 then 2 else 3;
    var one, two, three := Items(s, ReadyQ(1)), Items(s, ReadyQ(2)), Items(s, ReadyQ(3));
    hide Inv, Items;
    ChosenOrLast(t, one + woken, two, three, c, lower);
    if t.current != c {
      assert c in Items(t, ReadyQ(lower));
      LastIsThere(t, c, lower);
    }
  }

  /** The parts of this, for whichever call. */
  lemma GivesWayWith(s: State, e: Event, woken: seq<Slot>, q: QueueId)
    requires Inv(s) && Enabled(s, e) && (e.SemUp? || e.SemDown? || e.BarrierWait? || e.Tick?) && NobodyDue(s)
    requires FateOf(s, e) == GivesWay && Readied(s, e) == woken && s.current !in woken && IsBlocking(q)
    ensures Possible(s, e)
    ensures var t := Step(s, e);
      && CallerBehind(s, t, woken)
      && Chosen(t, Items(s, ReadyQ(1)) + woken, Behind(s, 2), Behind(s, 3))
      && Items(t, q) == LaterQueue(s, e, q)
  {
    hide Inv, Step, Enabled, Possible, Chosen, CallerBehind, LaterQueue, FateOf, Readied, NobodyDue, Behind, IsBlocking;
    StepKeepsInv(s, e);
    GivingWay(s, e, woken);
    StepMoves(s, e);
    CallerInLine(s, Step(s, e), woken);
  }

  /** Raising a semaphore: the caller gives way, and whoever is woken joins the first ready queue. */
  lemma UpGivesWay(s: State, x: int)
    requires Inv(s) && Enabled(s, SemUp(x)) && NobodyDue(s)
    ensures Possible(s, SemUp(x))
    ensures var t, woken := Step(s, SemUp(x)), First(Items(s, SemQ(x)));
      && CallerBehind(s, t, woken)
      && Chosen(t, Items(s, ReadyQ(1)) + woken, Behind(s, 2), Behind(s, 3))
      && Items(t, SemQ(x)) == AllButFirst(Items(s, SemQ(x)))
  {
    var e, woken := SemUp(x), First(Items(s, SemQ(x)));
    IsRunning(s);
    LaterIs(s, e, SemQ(x), AllButFirst(Items(s, SemQ(x))), []);
    assert s.current !in woken;
    GivesWayWith(s, e, woken, SemQ(x));
  }

  /** The first one woken by it runs at once if the first ready queue is empty; else it waits there, behind the others,
      and the first of them runs. */
  lemma UpWakes(s: State, x: int)
    requires Inv(s) && Enabled(s, SemUp(x)) && NobodyDue(s) && Items(s, SemQ(x)) != []
    ensures Possible(s, SemUp(x))
    ensures var t, w, one := Step(s, SemUp(x)), Items(s, SemQ(x))[0], Items(s, ReadyQ(1));
      && t.pcb[w].priority == 1
      && (one == [] ==> t.current == w && t.pcb[w].status == Running)
      && (one != [] ==>
          t.current == one[0] && Items(t, ReadyQ(1)) == one[1..] + [w] && t.pcb[w].status == Ready)
  {
    hide Inv, Step, Enabled, Possible, CallerBehind, Behind, NobodyDue;
    UpGivesWay(s, x);
    StepKeepsInv(s, SemUp(x));
    var t, w, one := Step(s, SemUp(x)), Items(s, SemQ(x))[0], Items(s, ReadyQ(1));
    IsRunning(t);
    if one != [] {
      assert (one + [w])[1..] == one[1..] + [w];
      assert Items(t, ReadyQ(1))[|one| - 1] == w;
      LastIsThere(t, w, 1);
    }
  }

  /** Passing a semaphore at once gives way too. */
  lemma PassingGivesWay(s: State, x: int)
    requires Inv(s) && Enabled(s, SemDown(x)) && NobodyDue(s) && s.sems[x] >= 1
    ensures Possible(s, SemDown(x)) && CallerBehind(s, Step(s, SemDown(x)), [])
    ensures Chosen(Step(s, SemDown(x)), Items(s, ReadyQ(1)), Behind(s, 2), Behind(s, 3))
  {
    var e := SemDown(x);
    StepKeepsInv(s, e);
    GivingWay(s, e, []);
    hide Inv, Step, Enabled, Possible, Chosen, CallerBehind;
    assert Items(s, ReadyQ(1)) + [] == Items(s, ReadyQ(1));
    CallerInLine(s, Step(s, e), []);
  }

  /** Who completes a round of a barrier gives way to those it lets through, who join the first ready queue in the order
      in which they arrived. */
  lemma OpeningGivesWay(s: State, b: int)
    requires Inv(s) && Enabled(s, BarrierWait(b)) && NobodyDue(s) && s.barriers[b].now + 1 == s.barriers[b].goal
    ensures Possible(s, BarrierWait(b)) && Items(Step(s, BarrierWait(b)), BarQ(b)) == []
    ensures var t, woken := Step(s, BarrierWait(b)), Items(s, BarQ(b));
      && CallerBehind(s, t, woken)
      && Chosen(t, Items(s, ReadyQ(1)) + woken, Behind(s, 2), Behind(s, 3))
  {
    IsRunning(s);
    LaterIs(s, BarrierWait(b), BarQ(b), [], []);
    GivesWayWith(s, BarrierWait(b), Items(s, BarQ(b)), BarQ(b));
  }

  /** A broadcast makes all waiters ready, in the order in which they came, and does nothing else. */
  lemma BroadcastWakesAll(s: State, c: int)
    requires Inv(s) && Enabled(s, Broadcast(c))
    ensures Possible(s, Broadcast(c))
    ensures var t, woken := Step(s, Broadcast(c)), Items(s, CondQ(c));
      && Items(t, ReadyQ(1)) == Items(s, ReadyQ(1)) + woken && Items(t, CondQ(c)) == []
      && (forall q | q != ReadyQ(1) && q != CondQ(c) :: Items(t, q) == Items(s, q))
      && (forall i: Slot | i in woken :: t.pcb[i].status == Ready && t.pcb[i].priority == 1)
      && (forall i: Slot | i !in woken :: t.pcb[i] == s.pcb[i])
      && t.current == s.current
  {
    assert CountOk(s, CondQ(c));
    UnblockAllEffect(s, CondQ(c));
    hide UnblockAll, Inv, Struct;
  }
}
