/** A kill between the two writes of a transfer does occur: a run from a fresh box leads to it, and a byte is lost. */
module MailboxTorn {
  import opened KernelModel
  import opened Placement
  import opened KernelSteps
  import opened KernelInvariant
  import opened Runs
  import opened Scenes
  import opened Mailbox
  import opened MailboxLaws
  import opened MailboxStack
  import opened MailboxMidway

  /** Process 2 is inside; it has written the byte 'm' and not yet counted it. */
  ghost predicate WritesFirst(t: System, msg: string) {
    && SystemOk(BOX, t) && Unmarked(t) && t.prog[2] == Sending(msg, 1, Moving(0, true, false))
    && t.buffer.bytes[0] == 'm'
  }

  lemma FirstSteps(b: Buffer, msg: string)
    requires b.used == 0 && msg != [] && msg[0] == 'm'
    ensures var p, q, r := Sending(msg, 0, Looking), Sending(msg, 0, Cleared), Sending(msg, 0, Moving(0, false, false));
      && NextLocal(b, p, Look) == q && NextLocal(b, q, Load) == r
      && NextLocal(b, r, Move) == Sending(msg, 1, Moving(0, true, false))
      && NextBuffer(b, p, Look) == b && NextBuffer(b, q, Load) == b
      && (|b.bytes| == MAIL_CAPACITY ==> NextBuffer(b, r, Move).bytes[..1] == ['m'])
  {
  }

  /** Undisturbed, a sender writes the first byte of its message. */
  lemma FirstByte(m: System, k: nat, t: System, msg: string) returns (u: System)
    requires Comes(BOX, m, k, t) && SendsIn(BOX, t, msg, 0) && Unmarked(t) && t.buffer.used == 0
    requires t.kernel.current == 2 && msg != [] && msg[0] == 'm'
    ensures Comes(BOX, m, k, u) && WritesFirst(u, msg) && u.kernel == t.kernel
  {
    FirstSteps(t.buffer, msg);
    hide SystemOk, Comes, Act, CanAct, NextLocal, NextBuffer;
    QuickAction(BOX, m, k, t, Look);
    u := Act(BOX, t, Look);
    QuickAction(BOX, m, k, u, Load);
    u := Act(BOX, u, Load);
    QuickAction(BOX, m, k, u, Move);
    u := Act(BOX, u, Move);
  }

  // ---------- two interrupts ----------

  /** A timer interrupt is an action of its own, and changes the kernel only. */
  lemma Interrupt(m: System, k: nat, t: System, msg: string)
    requires Comes(BOX, m, k, t) && WritesFirst(t, msg) && Enabled(t.kernel, Tick) && Possible(t.kernel, Tick)
    ensures CanAct(BOX, t, Other(Tick))
    ensures var u := Act(BOX, t, Other(Tick));
      Comes(BOX, m, k, u) && WritesFirst(u, msg) && u.kernel == Step(t.kernel, Tick)
  {
    hide SystemOk, Comes, Step, Enabled, Possible;
    assert Orderly(t, Other(Tick), k);
    OneActionMore(BOX, m, k, t, Other(Tick));
  }

  lemma FirstTick(s: State)
    requires Scene(s, 2, 1, [], [1], [], 3)
    ensures Enabled(s, Tick) && Possible(s, Tick) && Scene(Step(s, Tick), 2, 2, [], [1], [], 3)
  {
    assert Line(s, ReadyQ(1)) == [] && Line(s, ReadyQ(2)) == [2];
    forall id
      ensures Line(s, id) == (if id == From(s) then [2] else []) + Wanted(id, [], [1], [])
    {
      assert Items(s, id) == Wanted(id, [], [1], []);
    }
    hide Scene, Line, Wanted, Step, Enabled, Possible;
    TickScene(s, 2, 1, [], [1], [], 3, 2, 2, [], [1]);
  }

  lemma SecondTick(s: State)
    requires Scene(s, 2, 2, [], [1], [], 3)
    ensures Enabled(s, Tick) && Possible(s, Tick) && Scene(Step(s, Tick), 1, 3, [], [2], [], 3)
  {
    assert Line(s, ReadyQ(1)) == [] && Line(s, ReadyQ(2)) == [] && Line(s, ReadyQ(3)) == [1, 2];
    forall id
      ensures Line(s, id) == (if id == From(s) then [1] else []) + Wanted(id, [], [2], [])
    {
      assert Items(s, id) == Wanted(id, [], [1], []);
    }
    hide Scene, Line, Wanted, Step, Enabled, Possible;
    TickScene(s, 2, 2, [], [1], [], 3, 1, 3, [], [2]);
  }

  lemma TwoInterrupts(m: System, k: nat, t: System, msg: string) returns (u: System)
    requires Comes(BOX, m, k, t) && WritesFirst(t, msg) && Scene(t.kernel, 2, 1, [], [1], [], 3)
    ensures Comes(BOX, m, k, u) && WritesFirst(u, msg) && Scene(u.kernel, 1, 3, [], [2], [], 3)
  {
    hide Scene, WritesFirst, Comes, Act, CanAct, Step, Enabled, Possible;
    FirstTick(t.kernel);
    Interrupt(m, k, t, msg);
    u := Act(BOX, t, Other(Tick));
    SecondTick(u.kernel);
    Interrupt(m, k, u, msg);
    u := Act(BOX, u, Other(Tick));
  }

  // ---------- the kill ----------

  /** The shell may kill process 2. */
  lemma ShellMayKill(s: State)
    requires Scene(s, 1, 3, [], [2], [], 3)
    ensures Scan(s, 2) == 2 && Enabled(s, Kill(2)) && s.pcb[2].cont == User
  {
    assert s.pcb[2].pid == 2;
    assert 2 in [2] && 2 in Items(s, ReadyQ(3)) && QueueOk(s, ReadyQ(3));
  }

  lemma ShellIsIdle(t: System)
    requires SystemOk(BOX, t)
    ensures t.prog[1].Idle?
  {
    hide Inv, Accounted;
    assert UserOk(BOX, t, 1);
  }

  lemma KillCanAct(t: System, msg: string)
    requires WritesFirst(t, msg) && Scene(t.kernel, 1, 3, [], [2], [], 3)
    ensures CanAct(BOX, t, Other(Kill(2))) && Inside(t, 2) && Scan(t.kernel, 2) == 2
  {
    hide Inv, Enabled, Possible, UsersOk, Accounted, Queued, Staffed;
    ShellMayKill(t.kernel);
    ShellIsIdle(t);
    StepKeepsInv(t.kernel, Kill(2));
  }

  /** What it leaves: one byte was sent and is neither taken nor live. */
  ghost predicate LosesOne(t: System) {
    && BufferOk(t.buffer) && t.torn == 1 && t.lost == multiset{'m'}
    && t.sent != t.taken + multiset(Held(t.buffer))
  }

  lemma ExactSoFar(t: System, msg: string)
    requires WritesFirst(t, msg) && Inside(t, 2)
    ensures t.sent == t.taken + multiset(Content(t.buffer, t.prog[2]))
  {
    var content := multiset(Content(t.buffer, t.prog[2]));
    assert Balanced(t, Content(t.buffer, t.prog[2]));
    hide UsersOk, Content;
    assert t.sent + multiset{} == t.sent && t.taken + content + multiset{} == t.taken + content;
  }

  lemma KillLoses(t: System, msg: string)
    requires WritesFirst(t, msg) && CanAct(BOX, t, Other(Kill(2))) && Inside(t, 2) && Scan(t.kernel, 2) == 2
    ensures Half(t.prog[2]) && LosesOne(Act(BOX, t, Other(Kill(2))))
  {
    KillActs(BOX, t, 2);
    ExactSoFar(t, msg);
    hide CanAct, Act, SystemOk, Content, Held;
    KillIsExact(BOX, t, 2);
  }

  lemma UserTakes(t: System)
    requires MayUse(BOX, t) && Scene(t.kernel, 2, 1, [], [1], [], 3)
    ensures Scene(Take(t.kernel, 0), 2, 1, [], [1], [], 3) && Take(t.kernel, 0).current == 2
  {
    hide Accounted, UserOk, Inv, Take, Step, Enabled, Possible, Scene;
    SceneFacts(t.kernel, 2, 1, [], [1], [], 3);
    TakeScene(t.kernel, 2, 1, [], [1], [], 3, 0);
    SceneFacts(Take(t.kernel, 0), 2, 1, [], [1], [], 3);
  }

  /** For every message length a run from a fresh box leads to a process between its two writes and to the shell, which
      may kill it; if it does, the byte is lost and the account is not exact. */
  lemma KillMayTear(k: nat) returns (m: System, u: System)
    requires 1 <= k
    ensures Fresh(BOX, m) && Comes(BOX, m, k, u) && Inside(u, 2) && Half(u.prog[2])
    ensures CanAct(BOX, u, Other(Kill(2))) && Scan(u.kernel, 2) == 2 && LosesOne(Act(BOX, u, Other(Kill(2))))
  {
    var msg: string := seq(k, _ => 'm');
    hide Scene, WritesFirst, Comes, Act, CanAct, Fresh, LosesOne, Half, Inside, SendsIn;
    m, u := ProcessStarts(k);
    UserTakes(u);
    u := GetsIn(BOX, m, k, u, msg);
    u := FirstByte(m, k, u, msg);
    u := TwoInterrupts(m, k, u, msg);
    KillCanAct(u, msg);
    KillLoses(u, msg);
  }
}
