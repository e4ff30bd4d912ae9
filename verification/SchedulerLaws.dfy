/** One pass of the scheduler, whoever calls it and whoever is due: where everybody is afterwards. */
module SchedulerLaws {
  import opened KernelModel
  import opened Placement

  /** The current process was interrupted while running, and not put aside. */
  predicate Interrupted(u: State) {
    u.current != 0 && u.pcb[u.current].status == Running
  }

  /** A ready queue when the choice is made: those who were in it, in the first one also the sleepers who are due, and
      last the interrupted process, one queue below its own. */
  function InLine(u: State, p: int): seq<Slot> {
    Items(u, ReadyQ(p))
    + (if p == 1 then Overdue(u, Items(u, SleepQ)) else [])
    + (if Interrupted(u) && p == Demoted(u.pcb[u.current].priority) then [u.current] else [])
  }

  /** The first process of the first queue that is not empty runs, at the priority of that queue; the queues are as they
      were otherwise. */
  ghost predicate Chosen(t: State, one: seq<Slot>, two: seq<Slot>, three: seq<Slot>) {
    && one + two + three != [] && t.current == (one + two + three)[0]
    && t.pcb[t.current].priority == (if one != [] then 1 else if two != [] then 2 else 3)
    && Items(t, ReadyQ(1)) == (if one != [] then one[1..] else [])
    && Items(t, ReadyQ(2)) == (if one == [] && two != [] then two[1..] else two)
    && Items(t, ReadyQ(3)) == (if one == [] && two == [] then three[1..] else three)
  }

  lemma YieldedLine(u: State)
    requires Mid(u)
    ensures var y := Yield(u);
      && Scheduling(y) && y.queue == u.queue && y.current == u.current && y.time == u.time
      && y.pcb[y.current].priority == u.pcb[u.current].priority
      && (y.pcb[y.current].status == Ready <==> u.pcb[u.current].status == Running || u.pcb[u.current].status == Ready)
      && forall i: Slot :: y.pcb[i].alarm == u.pcb[i].alarm
  {
    YieldScheduling(u);
  }

  lemma InterruptedIsReady(u: State)
    requires Mid(u)
    ensures u.current != 0 ==> (Yield(u).pcb[u.current].status == Ready <==> Interrupted(u))
    ensures Interrupted(u) ==> 1 <= u.pcb[u.current].priority <= 3
  {
  }

  lemma RequeuedLine(v: State, q: QueueId)
    requires Scheduling(v)
    ensures Items(Requeue(Demote(v)), q) ==
      if v.current != 0 && v.pcb[v.current].status == Ready && q == ReadyQ(Demoted(v.pcb[v.current].priority))
      then Items(v, q) + [v.current] else Items(v, q)
  {
  }

  lemma NotReady()
    ensures forall q | IsBlocking(q) :: !q.ReadyQ? && q != SleepQ
  {
  }

  lemma BeforeDispatchIs(u: State)
    ensures BeforeDispatch(u) == Requeue(Demote(CheckSleeping(Yield(u))))
  {
  }

  lemma LineIs(u: State, p: int, queue: seq<Slot>)
    requires Items(u, ReadyQ(p)) == queue
    ensures InLine(u, p) ==
      (if p == 1 then queue + Overdue(u, Items(u, SleepQ)) else queue)
      + (if Interrupted(u) && p == Demoted(u.pcb[u.current].priority) then [u.current] else [])
  {
    assert queue + [] == queue;
  }

  /** After the due sleepers are woken. */
  lemma WokenLine(u: State)
    requires Mid(u)
    ensures var v := CheckSleeping(Yield(u));
      && Scheduling(v) && v.current == u.current && v.pcb[v.current].priority == u.pcb[u.current].priority
      && (v.current != 0 && v.pcb[v.current].status == Ready <==> Interrupted(u))
      && Items(v, ReadyQ(1)) == Items(u, ReadyQ(1)) + Overdue(u, Items(u, SleepQ))
      && Items(v, SleepQ) == StillAsleep(u, Items(u, SleepQ))
      && forall q | q != ReadyQ(1) && q != SleepQ :: Items(v, q) == Items(u, q)
  {
    YieldedLine(u);
    InterruptedIsReady(u);
    var y := Yield(u);
    CheckSleepingEffect(y);
    CheckSleepingScheduling(y);
    SplitSame(u, y, Items(u, SleepQ));
    assert [] + StillAsleep(y, Items(y, SleepQ)) == StillAsleep(y, Items(y, SleepQ));
    assert forall q :: Items(y, q) == Items(u, q);
    hide Scheduling, Mid, CheckSleeping, Yield, Overdue, StillAsleep, Struct, SameBlocking;
  }

  lemma LineBefore(u: State, p: int)
    requires Mid(u)
    ensures Items(BeforeDispatch(u), ReadyQ(p)) == InLine(u, p)
  {
    hide Scheduling, Mid, Requeue, Demote, CheckSleeping, Yield, Overdue, StillAsleep, Interrupted, Demoted, Items;
    WokenLine(u);
    RequeuedLine(CheckSleeping(Yield(u)), ReadyQ(p));
    LineIs(u, p, Items(u, ReadyQ(p)));
  }

  /** The queues when the choice is made. */
  lemma LinesBefore(u: State)
    requires Mid(u)
    ensures var d := BeforeDispatch(u);
      && (forall p | 1 <= p <= 3 :: Items(d, ReadyQ(p)) == InLine(u, p))
      && Items(d, SleepQ) == StillAsleep(u, Items(u, SleepQ))
      && forall q | IsBlocking(q) :: Items(d, q) == Items(u, q)
  {
    WokenLine(u);
    hide *;
    forall p | 1 <= p <= 3
      ensures Items(BeforeDispatch(u), ReadyQ(p)) == InLine(u, p)
    {
      LineBefore(u, p);
    }
    forall q: QueueId | !q.ReadyQ?
      ensures Items(BeforeDispatch(u), q) == Items(CheckSleeping(Yield(u)), q)
    {
      RequeuedLine(CheckSleeping(Yield(u)), q);
      BeforeDispatchIs(u);
    }
    NotReady();
  }

  lemma DispatchChooses(d: State)
    requires AllPlaced(d) && Items(d, PickQueue(d)) != []
    ensures Chosen(Dispatch(d), Items(d, ReadyQ(1)), Items(d, ReadyQ(2)), Items(d, ReadyQ(3)))
    ensures forall q: QueueId | !q.ReadyQ? :: Items(Dispatch(d), q) == Items(d, q)
  {
    var q := PickQueue(d);
    var i := Items(d, q)[0];
    assert QueueOk(d, q) && i in Items(d, q);
  }

  lemma PassIsPlaced(u: State)
    requires Mid(u) && ShellReady(u)
    ensures AllPlaced(BeforeDispatch(u))
  {
    YieldScheduling(u);
    CheckSleepingScheduling(Yield(u));
    RequeuePlaces(CheckSleeping(Yield(u)));
  }

  /** Who is where after a pass. */
  lemma PassMoves(u: State)
    requires Mid(u) && ShellReady(u)
    ensures CanSchedule(u)
    ensures var t := Schedule(u);
      && Chosen(t, InLine(u, 1), InLine(u, 2), InLine(u, 3))
      && Items(t, SleepQ) == StillAsleep(u, Items(u, SleepQ))
      && forall q | IsBlocking(q) :: Items(t, q) == Items(u, q)
  {
    ScheduleSettles(u);
    LinesBefore(u);
    PassIsPlaced(u);
    hide BeforeDispatch, AllPlaced, Mid, InLine, Chosen, Dispatch, PickQueue, StillAsleep, SameBlocking, Settled;
    DispatchChooses(BeforeDispatch(u));
  }
}
