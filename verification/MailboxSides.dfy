/** Senders wait on one condition of the mailbox and receivers on the other, and each side's signal wakes the other
    side. */
module MailboxSides {
  import opened KernelModel
  import opened Placement
  import opened KernelSteps
  import opened KernelInvariant
  import opened StepInv
  import opened Effects
  import opened Fields
  import opened CondLaws
  import opened Mailbox
  import opened MailboxLaws

  // ---------- when a signal is owed ----------

  /** Four actions of a process that has found room or a byte, undisturbed, with its two writes in either order. */
  function AfterTransfer(b: Buffer, p: Local, first: Action, second: Action): Local
    requires !p.Idle? && p.stage.Cleared?
    requires (first == Move && second == Count) || (first == Count && second == Move)
  {
    var q := NextLocal(b, p, Load);
    var b1, q1 := NextBuffer(b, q, first), NextLocal(b, q, first);
    var b2, q2 := NextBuffer(b1, q1, second), NextLocal(b1, q1, second);
    NextLocal(b2, q2, Test)
  }

  /** After a transfer a receiver owes a signal exactly if the box was full, a sender exactly if it was empty. */
  lemma SignalIsOwed(b: Buffer, p: Local)
    requires BufferOk(b) && !p.Idle? && p.stage.Cleared? && StageOk(b, p)
    ensures var q, r := AfterTransfer(b, p, Move, Count), AfterTransfer(b, p, Count, Move);
      && !q.Idle? && !r.Idle? && q.stage == r.stage
      && (q.stage == Owing <==> b.used == if p.Sending? then 0 else MAIL_CAPACITY)
      && (q.stage == Owing || q.stage == Looking)
  {
  }

  // ---------- whom it wakes ----------

  lemma NotifyIsSignal(box: Box, m: System, c: int)
    requires SystemOk(box, m) && Inside(m, m.kernel.current) && IsNext(Me(m), Notify)
    requires c == if Me(m).Sending? then box.notEmpty else box.notFull
    ensures CanAct(box, m, Notify) && Enabled(m.kernel, Signal(c)) && Possible(m.kernel, Signal(c))
    ensures Act(box, m, Notify).kernel == Step(m.kernel, Signal(c))
  {
    NextIsPossible(box, m, Notify);
    hide Step, Enabled, Possible, Accounted, UsersOk;
  }

  /** A receiver that owes a signal wakes the first of those who wait for room. */
  lemma ReceiverWakesSender(box: Box, m: System)
    requires SystemOk(box, m) && Inside(m, m.kernel.current) && IsNext(Me(m), Notify) && Me(m).Receiving?
    ensures CanAct(box, m, Notify) && WakesFirst(m.kernel, Act(box, m, Notify).kernel, box.notFull)
  {
    NotifyIsSignal(box, m, box.notFull);
    hide Step, Enabled, Possible, Accounted, Inv, Act, CanAct, WakesFirst;
    SignalWakesFirst(m.kernel, box.notFull);
  }

  /** A sender that owes one wakes the first of those who wait for bytes. */
  lemma SenderWakesReceiver(box: Box, m: System)
    requires SystemOk(box, m) && Inside(m, m.kernel.current) && IsNext(Me(m), Notify) && Me(m).Sending?
    ensures CanAct(box, m, Notify) && WakesFirst(m.kernel, Act(box, m, Notify).kernel, box.notEmpty)
  {
    NotifyIsSignal(box, m, box.notEmpty);
    hide Step, Enabled, Possible, Accounted, Inv, Act, CanAct, WakesFirst;
    SignalWakesFirst(m.kernel, box.notEmpty);
  }

  // ---------- who waits where ----------

  lemma AwaitIsCondWait(box: Box, m: System, c: int)
    requires SystemOk(box, m) && Inside(m, m.kernel.current) && IsNext(Me(m), Await)
    requires c == if Me(m).Sending? then box.notFull else box.notEmpty
    ensures CanAct(box, m, Await)
    ensures Enabled(m.kernel, CondWait(box.lock, c)) && Possible(m.kernel, CondWait(box.lock, c))
    ensures Act(box, m, Await).kernel == Step(m.kernel, CondWait(box.lock, c))
  {
    NextIsPossible(box, m, Await);
    hide Step, Enabled, Possible, Accounted, UsersOk;
  }

  /** A sender that found the box full waits for room, a receiver that found it empty waits for bytes, each behind those
      who waited before, and with the mutex free. */
  lemma AwaitJoinsOwnSide(box: Box, m: System)
    requires SystemOk(box, m) && Inside(m, m.kernel.current) && IsNext(Me(m), Await)
    ensures CanAct(box, m, Await)
    ensures var s, t := m.kernel, Act(box, m, Await).kernel;
      var c := if Me(m).Sending? then box.notFull else box.notEmpty;
      Items(t, CondQ(c)) == Items(s, CondQ(c)) + [s.current] && IsFree(t, box.lock)
  {
    AwaitIsCondWait(box, m, if Me(m).Sending? then box.notFull else box.notEmpty);
    hide Step, Enabled, Possible, Accounted, Inv, Act, CanAct, UserOk;
    WaiterIsQueued(m.kernel, box.lock, if Me(m).Sending? then box.notFull else box.notEmpty);
  }

  /** Everybody who waits for room is sending, and everybody who waits for bytes is receiving. */
  ghost predicate Sides(box: Box, m: System) {
    && (forall i | i in Items(m.kernel, CondQ(box.notFull)) :: m.prog[i].Sending?)
    && (forall i | i in Items(m.kernel, CondQ(box.notEmpty)) :: m.prog[i].Receiving?)
  }

  predicate OnSide(box: Box, p: Local, c: int) {
    (c == box.notFull ==> p.Sending?) && (c == box.notEmpty ==> p.Receiving?)
  }

  lemma CannotBeKilled(s: State, c: int, i: Slot)
    requires Inv(s) && i in Items(s, CondQ(c))
    ensures i != s.current && s.pcb[i].status == Blocked && s.pcb[i].lockWaiting == None && s.pcb[i].waitingPid == -1
  {
    RunningIsNowhere(s, CondQ(c));
    WaitersAreBlocked(s, CondQ(c), i);
    assert WaitersOk(s, 0, CondQ(c));
    assert WaiterOk(s, 0, CondQ(c), i);
  }

  lemma KillIsOfAnother(box: Box, m: System, a: Action, i: Slot)
    requires CanAct(box, m, a) && a.Other? && a.event.Kill?
    requires var p := m.kernel.pcb[i]; p.status == Blocked && p.lockWaiting == None && p.waitingPid == -1
    ensures Scan(m.kernel, a.event.pid) != i
  {
    hide CanSchedule, Reschedules;
  }

  /** A waiting process is neither current nor killed. */
  lemma WaiterIsLeft(box: Box, m: System, a: Action, c: int, i: Slot)
    requires UsersOk(box, m) && CanAct(box, m, a) && i in Items(m.kernel, CondQ(c))
    ensures Act(box, m, a).prog[i] == m.prog[i] && i != m.kernel.current
  {
    CannotBeKilled(m.kernel, c, i);
    hide Step, Inv, Items;
    if a.Other? && a.event.Kill? {
      KillIsOfAnother(box, m, a, i);
    }
    hide Enabled, Possible;
  }

  lemma JoinsByWaiting(box: Box, m: System, e: Event, c: int, i: Slot)
    requires UsersOk(box, m) && Enabled(m.kernel, e) && Possible(m.kernel, e) && (c == box.notFull || c == box.notEmpty)
    requires i in Items(Step(m.kernel, e), CondQ(c))
    ensures i in Items(m.kernel, CondQ(c)) || (i == m.kernel.current && e.CondWait? && e.cond == c)
  {
    hide Step, Inv, Enabled, Possible, UserOk, Items;
    CondStep(m.kernel, e, c);
  }

  /** Who is in the queue after an action was in it before, or is the caller, waiting on its own side. */
  lemma JoinsOwnSide(box: Box, m: System, a: Action, c: int, i: Slot)
    requires UsersOk(box, m) && CanAct(box, m, a) && (c == box.notFull || c == box.notEmpty)
    requires i in Items(Act(box, m, a).kernel, CondQ(c)) && box.notFull != box.notEmpty
    ensures i in Items(m.kernel, CondQ(c)) || (
      && a.Await? && i == m.kernel.current && Me(m).Sending? == (c == box.notFull)
      && Act(box, m, a).prog[i] == At(Me(m), Looking))
  {
    if Call(box, m, a).Some? {
      JoinsByWaiting(box, m, Call(box, m, a).value, c, i);
    }
    hide Step, Inv, Enabled, Possible, UserOk, UsersOk;
  }

  lemma AwaitingIsBusy(box: Box, m: System)
    requires CanAct(box, m, Await)
    ensures !Me(m).Idle?
  {
  }

  lemma SideKept(box: Box, m: System, a: Action, c: int, i: Slot)
    requires SystemOk(box, m) && CanAct(box, m, a) && Sides(box, m) && box.notFull != box.notEmpty
    requires (c == box.notFull || c == box.notEmpty) && i in Items(Act(box, m, a).kernel, CondQ(c))
    ensures OnSide(box, Act(box, m, a).prog[i], c)
  {
    hide Act, CanAct, UsersOk, Accounted, Items;
    JoinsOwnSide(box, m, a, c, i);
    if i in Items(m.kernel, CondQ(c)) {
      WaiterIsLeft(box, m, a, c, i);
    } else {
      AwaitingIsBusy(box, m);
    }
  }

  lemma ActKeepsSides(box: Box, m: System, a: Action)
    requires SystemOk(box, m) && CanAct(box, m, a) && Sides(box, m) && box.notFull != box.notEmpty
    ensures Sides(box, Act(box, m, a))
  {
    var t := Act(box, m, a);
    forall c, i | (c == box.notFull || c == box.notEmpty) && i in Items(t.kernel, CondQ(c))
      ensures OnSide(box, t.prog[i], c)
    {
      SideKept(box, m, a, c, i);
    }
  }

  /** Over every run from a box nobody has waited at: senders wait for room and receivers for bytes, so whom a signal
      wakes is on the other side. */
  lemma {:induction false} RunKeepsSides(box: Box, m: System, run: seq<Action>)
    requires Fresh(box, m) && CanRun(box, m, run) && box.notFull != box.notEmpty
    requires Items(m.kernel, CondQ(box.notFull)) == [] && Items(m.kernel, CondQ(box.notEmpty)) == []
    ensures Sides(box, After(box, m, run))
  {
    if run == [] {
    } else {
      var earlier := run[..|run| - 1];
      RunKeepsSides(box, m, earlier);
      RunKeepsSystem(box, m, earlier);
      hide Fresh, Sides, Act, CanAct, SystemOk;
      ActKeepsSides(box, After(box, m, earlier), run[|run| - 1]);
    }
  }

  // ---------- leaving ----------

  lemma FinishIsRelease(box: Box, m: System)
    requires SystemOk(box, m) && Inside(m, m.kernel.current) && IsNext(Me(m), Finish)
    ensures CanAct(box, m, Finish) && Enabled(m.kernel, Release(box.lock)) && Possible(m.kernel, Release(box.lock))
    ensures Act(box, m, Finish).kernel == Step(m.kernel, Release(box.lock))
      && Owns(m.kernel, m.kernel.current, box.lock)
    ensures Inv(m.kernel) && LockRange(m.kernel, box.lock)
  {
    NextIsPossible(box, m, Finish);
    UserKnows(box, m, m.kernel.current);
    hide Step, Enabled, Possible, Accounted, UsersOk;
  }

  lemma ErasedIsGone(s: State, t: State, l: int)
    requires Callable(s, Release(l)) && Settles(s, Release(l), t) && Scan(s, s.locks[l].owner) == s.current
    ensures LockRange(t, l) && t.locks[l] == Lock(false, -1) && !Owns(t, s.current, l)
  {
    assert Of(t.pcb[s.current]) == AttributesLater(s, Release(l), s.current);
  }

  lemma ReleaseFrees(s: State, l: int)
    requires Inv(s) && Enabled(s, Release(l)) && Owns(s, s.current, l) && LockRange(s, l)
    ensures Possible(s, Release(l))
    ensures var t := Step(s, Release(l));
      && LockRange(t, l) && t.locks[l] == Lock(false, -1) && !Owns(t, s.current, l) && t.current == s.current
      && Items(t, ReadyQ(1)) == Items(s, ReadyQ(1)) + Items(s, LockQ(l)) && Items(t, LockQ(l)) == []
  {
    var e := Release(l);
    OwnersLive(s, s.current, l);
    LaterIs(s, e, ReadyQ(1), Items(s, ReadyQ(1)), Items(s, LockQ(l)));
    LaterIs(s, e, LockQ(l), [], []);
    hide Inv, Step, Enabled, Possible, LaterQueue, Scan;
    StepRunsOn(s, e);
    StepFields(s, e);
    ErasedIsGone(s, Step(s, e), l);
  }

  /** Who leaves the box frees its mutex, and everybody who waits to come in is ready, in order. */
  lemma LeavingFrees(box: Box, m: System)
    requires SystemOk(box, m) && Inside(m, m.kernel.current) && IsNext(Me(m), Finish)
    ensures CanAct(box, m, Finish)
    ensures var s, t := m.kernel, Act(box, m, Finish).kernel;
      && LockRange(t, box.lock) && t.locks[box.lock] == Lock(false, -1)
      && !Owns(t, s.current, box.lock) && t.current == s.current
      && Items(t, ReadyQ(1)) == Items(s, ReadyQ(1)) + Items(s, LockQ(box.lock)) && Items(t, LockQ(box.lock)) == []
  {
    hide Step, Enabled, Possible, Inv, Act, CanAct, SystemOk;
    FinishIsRelease(box, m);
    ReleaseFrees(m.kernel, box.lock);
  }
}
