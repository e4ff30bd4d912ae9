/** Lengths that do not divide the capacity: from a fresh box an orderly run leads to a sender that waits with part of
    its message sent. Together with the stack refinement this says exactly for which lengths nobody waits midway. */
module MailboxMidway {
  import opened KernelModel
  import opened KernelSteps
  import opened KernelInvariant
  import opened Runs
  import opened Scenes
  import opened Mailbox
  import opened MailboxLaws
  import opened MailboxBuffer
  import opened MailboxStack

  ghost predicate ComesBy(box: Box, m: System, k: nat, t: System, run: seq<Action>) {
    CanRun(box, m, run) && OrderlyRun(box, m, run, k) && After(box, m, run) == t
  }

  /** An orderly run leads from m to t. */
  ghost predicate Comes(box: Box, m: System, k: nat, t: System) {
    exists run :: ComesBy(box, m, k, t, run)
  }

  lemma StaysThere(box: Box, m: System, k: nat)
    ensures Comes(box, m, k, m)
  {
    assert ComesBy(box, m, k, m, []);
  }

  lemma OneRunMore(box: Box, m: System, k: nat, t: System, run: seq<Action>, a: Action)
    requires ComesBy(box, m, k, t, run) && CanAct(box, t, a) && Orderly(t, a, k)
    ensures ComesBy(box, m, k, Act(box, t, a), run + [a])
  {
    assert (run + [a])[..|run|] == run;
    hide CanAct, Act, Orderly;
  }

  lemma OneActionMore(box: Box, m: System, k: nat, t: System, a: Action)
    requires Comes(box, m, k, t) && SystemOk(box, t) && CanAct(box, t, a) && Orderly(t, a, k)
    ensures Comes(box, m, k, Act(box, t, a)) && SystemOk(box, Act(box, t, a))
  {
    hide SystemOk, CanAct, Act, Orderly, ComesBy;
    ActKeepsSystem(box, t, a);
    var run :| ComesBy(box, m, k, t, run);
    OneRunMore(box, m, k, t, run, a);
  }

  // ---------- one byte ----------

  /** The current process is inside, about to send the byte after the first `done`, and nobody waits for bytes. */
  ghost predicate SendsIn(box: Box, t: System, msg: string, done: nat) {
    && SystemOk(box, t) && Inside(t, t.kernel.current) && Me(t) == Sending(msg, done, Looking)
    && t.kernel.conds[box.notEmpty] == 0
  }

  /** No kill has left its mark. */
  predicate SameKills(t: System, u: System) {
    u.torn == t.torn && u.lost == t.lost && u.phantom == t.phantom
  }

  predicate Unmarked(t: System) {
    t.torn == 0 && t.lost == multiset{} && t.phantom == multiset{}
  }

  predicate IsQuick(a: Action) {
    a.Look? || a.Load? || a.Move? || a.Count? || a.Test?
  }

  lemma QuickAction(box: Box, m: System, k: nat, t: System, a: Action)
    requires Comes(box, m, k, t) && SystemOk(box, t) && Inside(t, t.kernel.current) && IsNext(Me(t), a) && IsQuick(a)
    ensures CanAct(box, t, a)
    ensures var u := Act(box, t, a);
      && Comes(box, m, k, u) && SystemOk(box, u) && u.kernel == t.kernel
      && u.buffer == NextBuffer(t.buffer, Me(t), a) && Me(u) == NextLocal(t.buffer, Me(t), a)
      && SameKills(t, u)
  {
    assert CanAct(box, t, a) && Orderly(t, a, k);
    OneActionMore(box, m, k, t, a);
    hide SystemOk, Comes, NextBuffer, NextLocal;
  }

  lemma SignalDoesNothing(s: State, c: int)
    requires Callable(s, Signal(c)) && s.conds[c] == 0
    ensures Possible(s, Signal(c)) && Step(s, Signal(c)) == s
  {
  }

  lemma SilentSignal(box: Box, m: System, k: nat, t: System)
    requires Comes(box, m, k, t) && SystemOk(box, t) && Inside(t, t.kernel.current) && IsNext(Me(t), Notify)
    requires Me(t).Sending? && t.kernel.conds[box.notEmpty] == 0
    ensures CanAct(box, t, Notify)
    ensures var u := Act(box, t, Notify);
      && Comes(box, m, k, u) && SystemOk(box, u) && u.kernel == t.kernel && u.buffer == t.buffer
      && Me(u) == At(Me(t), Looking)
  {
    NextIsPossible(box, t, Notify);
    assert Orderly(t, Notify, k);
    SignalDoesNothing(t.kernel, box.notEmpty);
    hide SystemOk, Comes, Step, Enabled, Possible;
    OneActionMore(box, m, k, t, Notify);
  }

  /** The sender's own steps of one transfer. */
  lemma LocalSteps(b: Buffer, msg: string, done: nat)
    requires done < |msg|
    ensures var p, at := Sending(msg, done, Cleared), b.used;
      && NextLocal(b, p, Load) == Sending(msg, done, Moving(at, false, false)) && NextBuffer(b, p, Load) == b
      && NextLocal(b, Sending(msg, done, Moving(at, false, false)), Move) ==
        Sending(msg, done + 1, Moving(at, true, false))
  {
  }

  lemma LastLocalStep(b: Buffer, msg: string, done: nat, at: int)
    ensures NextLocal(b, Sending(msg, done, Moving(at, true, false)), Count) ==
      Sending(msg, done, Moving(at, true, true))
  {
  }

  lemma Transfer(box: Box, m: System, k: nat, t: System, msg: string, done: nat) returns (u: System)
    requires Comes(box, m, k, t) && SystemOk(box, t) && Inside(t, t.kernel.current)
      && Me(t) == Sending(msg, done, Cleared)
    requires done < |msg| && t.buffer.used < MAIL_CAPACITY
    ensures Comes(box, m, k, u) && SystemOk(box, u) && u.kernel == t.kernel
    ensures u.buffer == Store(t.buffer, msg[done]) && Me(u) == Sending(msg, done + 1, Moving(t.buffer.used, true, true))
  {
    assert BufferOk(t.buffer);
    TransferStores(t.buffer, Me(t));
    LocalSteps(t.buffer, msg, done);
    hide SystemOk, Comes, Act, CanAct, Store, BufferOk, NextLocal, NextBuffer;
    QuickAction(box, m, k, t, Load);
    u := Act(box, t, Load);
    QuickAction(box, m, k, u, Move);
    u := Act(box, u, Move);
    LastLocalStep(u.buffer, msg, done + 1, t.buffer.used);
    QuickAction(box, m, k, u, Count);
    u := Act(box, u, Count);
  }

  lemma SendByteCleared(box: Box, m: System, k: nat, t: System, msg: string, done: nat) returns (u: System)
    requires Comes(box, m, k, t) && SystemOk(box, t) && Inside(t, t.kernel.current)
      && Me(t) == Sending(msg, done, Cleared)
    requires t.kernel.conds[box.notEmpty] == 0 && done < |msg| && t.buffer.used < MAIL_CAPACITY
    ensures Comes(box, m, k, u) && SendsIn(box, u, msg, done + 1) && u.kernel == t.kernel
    ensures u.buffer == Store(t.buffer, msg[done])
  {
    hide SystemOk, Comes, Act, CanAct, Store, BufferOk;
    var moved := Transfer(box, m, k, t, msg, done);
    QuickAction(box, m, k, moved, Test);
    u := Act(box, moved, Test);
    assert Me(u) == Sending(msg, done + 1, Owing) || Me(u) == Sending(msg, done + 1, Looking);
    if Me(u).stage == Owing {
      SilentSignal(box, m, k, u);
      u := Act(box, u, Notify);
    }
  }

  /** Undisturbed, a sender stores its byte. */
  lemma SendByte(box: Box, m: System, k: nat, t: System, msg: string, done: nat) returns (u: System)
    requires Comes(box, m, k, t) && SendsIn(box, t, msg, done) && done < |msg| && t.buffer.used < MAIL_CAPACITY
    ensures Comes(box, m, k, u) && SendsIn(box, u, msg, done + 1) && u.kernel == t.kernel
    ensures u.buffer == Store(t.buffer, msg[done])
  {
    hide SystemOk, Comes;
    QuickAction(box, m, k, t, Look);
    u := Act(box, t, Look);
    assert Me(u) == Sending(msg, done, Cleared);
    u := SendByteCleared(box, m, k, u, msg, done);
  }

  lemma {:induction false} SendBytes(box: Box, m: System, k: nat, t: System, msg: string, done: nat, n: nat)
    returns (u: System)
    requires Comes(box, m, k, t) && SendsIn(box, t, msg, done) && done + n <= |msg|
      && t.buffer.used + n <= MAIL_CAPACITY
    ensures Comes(box, m, k, u) && SendsIn(box, u, msg, done + n) && u.kernel == t.kernel
    ensures u.buffer.used == t.buffer.used + n
    decreases n
  {
    hide Comes, SendsIn;
    if n == 0 {
      u := t;
    } else {
      u := SendByte(box, m, k, t, msg, done);
      u := SendBytes(box, m, k, u, msg, done + 1, n - 1);
    }
  }

  // ---------- one message ----------

  /** The current process could use the box: the mutex is free, and it can hold one more. */
  ghost predicate MayUse(box: Box, t: System) {
    && SystemOk(box, t) && 2 <= t.kernel.current && Me(t).Idle?
    && t.kernel.pcb[t.kernel.current].cont == User
    && t.kernel.locks[box.lock] == Lock(false, -1) && t.kernel.conds[box.notEmpty] == 0
    && FreeEntry(t.kernel.pcb[t.kernel.current].owned) < MAX_MUTEX_OWN
  }

  lemma MaySend(box: Box, t: System, msg: string, k: nat)
    requires MayUse(box, t) && |msg| == k
    ensures SystemOk(box, t) && CanAct(box, t, Send(msg)) && Orderly(t, Send(msg), k)
    ensures Act(box, t, Send(msg)) == Become(t, Sending(msg, 0, Looking)).(kernel := Take(t.kernel, box.lock))
  {
    hide Accounted, Inv, UserOk, Take, Schedule;
    TakesFree(t.kernel, box.lock);
    hide Step, Enabled, Possible;
  }

  lemma SentIn(box: Box, t: System, u: System, msg: string)
    requires MayUse(box, t) && SystemOk(box, u)
    requires u == Become(t, Sending(msg, 0, Looking)).(kernel := Take(t.kernel, box.lock))
    ensures SendsIn(box, u, msg, 0) && u.buffer == t.buffer && SameKills(t, u)
  {
    hide SystemOk;
  }

  lemma GetsIn(box: Box, m: System, k: nat, t: System, msg: string) returns (u: System)
    requires Comes(box, m, k, t) && MayUse(box, t) && |msg| == k
    ensures Comes(box, m, k, u) && SendsIn(box, u, msg, 0)
    ensures u.kernel == Take(t.kernel, box.lock) && u.buffer == t.buffer && SameKills(t, u)
  {
    hide *;
    MaySend(box, t, msg, k);
    OneActionMore(box, m, k, t, Send(msg));
    u := Act(box, t, Send(msg));
    SentIn(box, t, u, msg);
  }

  lemma TakeAndRelease(s: State, l: int)
    requires Inv(s) && LockRange(s, l) && s.locks[l] == Lock(false, -1) && 2 <= s.current
    requires FreeEntry(s.pcb[s.current].owned) < MAX_MUTEX_OWN
    ensures var t := ReleaseLock(Take(s, l), l);
      && t.current == s.current && t.pcb[s.current].cont == User && t.conds == s.conds
      && t.locks == s.locks && FreeEntry(t.pcb[s.current].owned) < MAX_MUTEX_OWN
  {
    var u := Take(s, l);
    assert LockOk(s, l) && Alive(s, s.current) && PidsOk(u);
    OwnerIsFound(u, l, s.current);
    assert Items(u, LockQ(l)) == [];
    var j := FreeEntry(s.pcb[s.current].owned);
    assert u.pcb[s.current].owned[j] == Some(l);
    var t := ReleaseLock(u, l);
    assert t.pcb[s.current].owned[j] == None;
  }

  lemma MayFinish(box: Box, t: System, msg: string, k: nat)
    requires SendsIn(box, t, msg, |msg|)
    ensures SystemOk(box, t) && CanAct(box, t, Finish) && Orderly(t, Finish, k)
  {
    NextIsPossible(box, t, Finish);
  }

  lemma FinishDoes(box: Box, t: System)
    requires CanAct(box, t, Finish)
    ensures var u := Act(box, t, Finish);
      u.buffer == t.buffer && u.kernel == ReleaseLock(t.kernel, box.lock) && u.prog == t.prog[t.kernel.current := Idle]
  {
    hide ReleaseLock, Enabled;
  }

  lemma GetsOut(box: Box, m: System, k: nat, t: System, msg: string) returns (u: System)
    requires Comes(box, m, k, t) && SendsIn(box, t, msg, |msg|)
    ensures Comes(box, m, k, u) && SystemOk(box, u) && u.buffer == t.buffer
    ensures u.kernel == ReleaseLock(t.kernel, box.lock) && u.prog == t.prog[t.kernel.current := Idle]
  {
    MayFinish(box, t, msg, k);
    FinishDoes(box, t);
    hide *;
    OneActionMore(box, m, k, t, Finish);
    u := Act(box, t, Finish);
  }

  lemma BackOut(box: Box, t: System, u: System, left: System, msg: string)
    requires MayUse(box, t) && SendsIn(box, u, msg, |msg|) && u.kernel == Take(t.kernel, box.lock)
      && SystemOk(box, left)
    requires left.kernel == ReleaseLock(u.kernel, box.lock) && left.prog == u.prog[u.kernel.current := Idle]
    ensures MayUse(box, left)
  {
    hide Accounted, UserOk, ReleaseLock;
    TakeAndRelease(t.kernel, box.lock);
    assert u.kernel.current == t.kernel.current;
    hide SystemOk, Take;
  }

  lemma SendMessage(box: Box, m: System, k: nat, t: System, msg: string) returns (u: System)
    requires Comes(box, m, k, t) && MayUse(box, t) && |msg| == k && t.buffer.used + k <= MAIL_CAPACITY
    ensures Comes(box, m, k, u) && MayUse(box, u) && u.buffer.used == t.buffer.used + k
  {
    hide Comes, MayUse, SendsIn, SystemOk, ReleaseLock, Take;
    u := GetsIn(box, m, k, t, msg);
    u := SendBytes(box, m, k, u, msg, 0, k);
    var left := GetsOut(box, m, k, u, msg);
    BackOut(box, t, u, left, msg);
    u := left;
  }

  lemma {:induction false} SendMessages(box: Box, m: System, k: nat, t: System, n: nat) returns (u: System)
    requires Comes(box, m, k, t) && MayUse(box, t) && t.buffer.used + k * n <= MAIL_CAPACITY
    ensures Comes(box, m, k, u) && MayUse(box, u) && u.buffer.used == t.buffer.used + k * n
    decreases n
  {
    hide Comes, MayUse;
    if n == 0 {
      u := t;
    } else {
      assert k * n == k + k * (n - 1) && k * (n - 1) >= 0;
      u := SendMessage(box, m, k, t, seq(k, _ => 'm'));
      u := SendMessages(box, m, k, u, n - 1);
    }
  }

  // ---------- from a fresh box ----------

  const BOX := Box(0, 0, 1)

  ghost predicate WaitsMidway(box: Box, t: System) {
    CanAct(box, t, Await) && !Untouched(Me(t))
  }

  lemma FreshIsOk(m: System)
    requires Fresh(BOX, m)
    ensures SystemOk(BOX, m)
  {
    assert CanRun(BOX, m, []) && After(BOX, m, []) == m;
    RunKeepsSystem(BOX, m, []);
  }

  lemma ShellStarts() returns (m: System)
    ensures Fresh(BOX, m) && SystemOk(BOX, m) && Me(m).Idle? && m.buffer.used == 0 && forall i: Slot :: m.prog[i].Idle?
    ensures Unmarked(m)
    ensures Scene(m.kernel, 1, 3, [], [], [], 2) && m.kernel.locks == [Lock(false, -1)] && m.kernel.conds == [0, 0]
  {
    FirstBoxIsFresh(1, 2, [], []);
    BootScene(1, 2, [], []);
    m := FirstBox(1, 2, [], []);
    assert Boot(1, 2, [], []).locks == [Lock(false, -1)] && Boot(1, 2, [], []).conds == [0, 0];
    hide Schedule, CanSchedule, Boot, Scene, Inv, SystemOk;
    FreshIsOk(m);
  }

  lemma SpawnIsOther(m: System, k: nat)
    requires Me(m).Idle? && Enabled(m.kernel, Spawn) && Possible(m.kernel, Spawn)
    ensures CanAct(BOX, m, Other(Spawn)) && Orderly(m, Other(Spawn), k)
    ensures Act(BOX, m, Other(Spawn)) == m.(kernel := Step(m.kernel, Spawn))
  {
    hide Step, Enabled, Possible;
  }

  lemma StartedMayUse(m: System, u: System)
    requires SystemOk(BOX, u) && u == m.(kernel := u.kernel) && forall i: Slot :: m.prog[i].Idle?
    requires Scene(u.kernel, 2, 1, [], [1], [], 3)
    requires u.kernel.locks == [Lock(false, -1)] && u.kernel.conds == [0, 0]
    ensures MayUse(BOX, u) && u.buffer == m.buffer && SameKills(m, u)
  {
    HoldsNothing(u.kernel, 2);
    hide SystemOk, Queued, Inv;
  }

  lemma Spawning(m: System, k: nat) returns (u: System)
    requires Comes(BOX, m, k, m) && SystemOk(BOX, m) && Me(m).Idle? && (forall i: Slot :: m.prog[i].Idle?)
      && m.buffer.used == 0
    requires Enabled(m.kernel, Spawn) && Possible(m.kernel, Spawn) && m.kernel.conds == [0, 0]
      && m.kernel.locks == [Lock(false, -1)]
    requires Scene(Step(m.kernel, Spawn), 2, 1, [], [1], [], 3)
    requires Step(m.kernel, Spawn).locks == m.kernel.locks && Step(m.kernel, Spawn).conds == m.kernel.conds
    ensures Comes(BOX, m, k, u) && MayUse(BOX, u) && u.buffer.used == 0 && SameKills(m, u)
    ensures Scene(u.kernel, 2, 1, [], [1], [], 3)
  {
    SpawnIsOther(m, k);
    hide *;
    OneActionMore(BOX, m, k, m, Other(Spawn));
    u := Act(BOX, m, Other(Spawn));
    StartedMayUse(m, u);
  }

  /** The shell starts a process, and the process could use the box. */
  lemma ProcessStarts(k: nat) returns (m: System, u: System)
    ensures Fresh(BOX, m) && Comes(BOX, m, k, u) && MayUse(BOX, u) && u.buffer.used == 0 && Unmarked(u)
    ensures Scene(u.kernel, 2, 1, [], [1], [], 3)
  {
    hide Comes, Inv, Step, Possible, Enabled, Scene, Fresh, SystemOk, MayUse, Boot, Schedule, Inside, BufferOk, HasBox;
    m := ShellStarts();
    StaysThere(BOX, m, k);
    SpawnScene(m.kernel, 1, 3, [], [], [], 2);
    assert [] + [1] == [1];
    u := Spawning(m, k);
  }

  lemma FillIsNat(box: Box, t: System)
    requires MayUse(box, t)
    ensures t.buffer.used >= 0
  {
    hide Accounted, Inv, UserOk;
  }

  lemma BarredMayWait(box: Box, t: System)
    requires SystemOk(box, t) && Inside(t, t.kernel.current) && IsNext(Me(t), Await)
    ensures CanAct(box, t, Await)
  {
    NextIsPossible(box, t, Await);
  }

  lemma FindsItFull(box: Box, m: System, k: nat, t: System, msg: string, done: nat) returns (u: System)
    requires Comes(box, m, k, t) && SendsIn(box, t, msg, done) && t.buffer.used == MAIL_CAPACITY && 0 < done < |msg|
    ensures Comes(box, m, k, u) && WaitsMidway(box, u)
  {
    hide SystemOk, Comes, Act, CanAct;
    QuickAction(box, m, k, t, Look);
    u := Act(box, t, Look);
    assert Me(u) == Sending(msg, done, Barred);
    BarredMayWait(box, u);
  }

  /** A sender of one more message fills the box and looks again. */
  lemma FillsAndWaits(box: Box, m: System, k: nat, t: System) returns (u: System)
    requires Comes(box, m, k, t) && MayUse(box, t) && t.buffer.used < MAIL_CAPACITY && MAIL_CAPACITY - t.buffer.used < k
    ensures Comes(box, m, k, u) && WaitsMidway(box, u)
  {
    var msg: string := seq(k, _ => 'm');
    var n := MAIL_CAPACITY - t.buffer.used;
    FillIsNat(box, t);
    hide Comes, MayUse, SendsIn, Take, WaitsMidway, SystemOk, Inside;
    u := GetsIn(box, m, k, t, msg);
    u := SendBytes(box, m, k, u, msg, 0, n);
    u := FindsItFull(box, m, k, u, msg, n);
  }

  lemma LeftOver(k: nat)
    requires 1 <= k && !Divides(k)
    ensures k * Slots(k) < MAIL_CAPACITY && MAIL_CAPACITY - k * Slots(k) < k
  {
    assert k * Slots(k) + MAIL_CAPACITY % k == MAIL_CAPACITY;
  }

  /** For every length that does not divide the capacity, above it or below, somebody can come to wait midway. */
  lemma OtherLengthsWaitMidway(k: nat) returns (m: System, u: System)
    requires 1 <= k && !Divides(k)
    ensures Fresh(BOX, m) && Comes(BOX, m, k, u) && WaitsMidway(BOX, u)
  {
    m, u := ProcessStarts(k);
    LeftOver(k);
    hide *;
    u := SendMessages(BOX, m, k, u, Slots(k));
    u := FillsAndWaits(BOX, m, k, u);
  }

  /** If the length divides it, nobody ever does. */
  lemma DividingLengthsDoNot(box: Box, m: System, k: nat, t: System)
    requires Fresh(box, m) && Divides(k) && Comes(box, m, k, t)
    ensures !WaitsMidway(box, t)
  {
    var run :| ComesBy(box, m, k, t, run);
    RunFollows(box, m, run, k);
    RunKeepsSystem(box, m, run);
    hide CanRun, OrderlyRun, After, Fresh, SystemOk, Refines, Replay;
    if CanAct(box, t, Await) {
      NobodyWaitsMidway(box, t, Replay(t.log, Slots(k)).value, k);
    }
  }

  /** Nobody can come to wait midway, in any orderly run from any fresh box, if and only if the length of the messages
      divides the capacity. */
  lemma WaitingMidway(k: nat)
    requires 1 <= k
    ensures Divides(k) <==> forall m, t | Fresh(BOX, m) && Comes(BOX, m, k, t) :: !WaitsMidway(BOX, t)
  {
    hide Fresh, Comes, WaitsMidway, Divides;
    if Divides(k) {
      forall m, t | Fresh(BOX, m) && Comes(BOX, m, k, t)
        ensures !WaitsMidway(BOX, t)
      {
        DividingLengthsDoNot(BOX, m, k, t);
      }
    } else {
      var m, u := OtherLengthsWaitMidway(k);
    }
  }
}
