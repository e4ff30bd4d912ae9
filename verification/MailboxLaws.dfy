/** The mailbox under every interleaving of its single reads and writes: the mutex keeps what a process has read true
    until it writes, so the fill level stays in range and every byte is accounted for. A kill breaks the account exactly
    if it falls between the two writes of a transfer. */
module MailboxLaws {
  import opened KernelModel
  import opened KernelSteps
  import opened KernelInvariant
  import opened Runs
  import opened Frame
  import opened CondLaws
  import opened Mailbox

  lemma OneOwner(s: State, i: Slot, j: Slot, l: int)
    requires Inv(s) && Owns(s, i, l) && Owns(s, j, l)
    ensures i == j
  {
    OwnersLive(s, i, l);
    OwnersLive(s, j, l);
  }

  /** At most one process is inside. */
  lemma OneInside(box: Box, m: System, i: Slot, j: Slot)
    requires UsersOk(box, m) && Inside(m, i) && Inside(m, j)
    ensures i == j && Owns(m.kernel, i, box.lock)
  {
    assert UserOk(box, m, i) && UserOk(box, m, j);
    OneOwner(m.kernel, i, j, box.lock);
  }

  lemma StepKeepsCont(s: State, e: Event, i: Slot)
    requires Inv(s) && Enabled(s, e) && Alive(s, i) && 2 <= i && Victim(s, e) != i
    requires i == s.current ==> !e.Acquire? && !e.CondWait?
    ensures Possible(s, e) && Step(s, e).pcb[i].cont == s.pcb[i].cont && Alive(Step(s, e), i)
  {
    hide Inv, Step;
    StepKeepsInv(s, e);
    StepFramed(s, e);
  }

  lemma AcquireCont(s: State, l: int)
    requires Possible(s, Acquire(l))
    ensures var t := Step(s, Acquire(l)); t.pcb[s.current].cont == User || t.pcb[s.current].cont == Acquiring(l)
  {
    hide Schedule;
    if s.locks[l].locked {
      ScheduleKeeps(Before(s, Acquire(l)));
    }
  }

  lemma CallerIsProcess(s: State, l: int)
    requires Inv(s) && Enabled(s, Acquire(l))
    ensures 2 <= s.current && Alive(s, s.current)
  {
  }

  /** The user a call frees from the mailbox: none, the killed one, or the caller. */
  lemma CallTakesAway(box: Box, m: System, a: Action, i: Slot)
    requires UsersOk(box, m) && CanAct(box, m, a) && i != m.kernel.current && Inside(m, i)
    requires Call(box, m, a).Some? && TakesAway(m.kernel, Call(box, m, a).value, i, box.lock)
    ensures a.Other? && a.event.Kill? && Scan(m.kernel, a.event.pid) == i
  {
    if !a.Other? {
      OneInside(box, m, i, m.kernel.current);
    }
  }

  predicate IsLoop(a: Action) {
    !a.Other? && !a.Send? && !a.Receive? && !a.Retry?
  }

  /** An action touches the shared fields only from inside. */
  lemma BufferStays(box: Box, m: System, a: Action, i: Slot)
    requires UsersOk(box, m) && CanAct(box, m, a) && i != m.kernel.current && Inside(m, i)
    ensures Act(box, m, a).buffer == m.buffer
  {
    if IsLoop(a) {
      OneInside(box, m, i, m.kernel.current);
    }
  }

  lemma OtherUser(box: Box, m: System, a: Action, i: Slot)
    requires UsersOk(box, m) && CanAct(box, m, a) && i != m.kernel.current && !Act(box, m, a).prog[i].Idle?
    ensures Act(box, m, a).prog[i] == m.prog[i]
    ensures Act(box, m, a).kernel.pcb[i].cont == m.kernel.pcb[i].cont
    ensures UserOk(box, Act(box, m, a), i)
  {
    hide Inv, Step, Enabled, Possible, StageOk, ProgressOk;
    assert UserOk(box, m, i);
    if Inside(m, i) {
      BufferStays(box, m, a, i);
    }
    if Call(box, m, a).Some? {
      var e := Call(box, m, a).value;
      StepKeepsCont(m.kernel, e, i);
      if Inside(m, i) {
        if TakesAway(m.kernel, e, i, box.lock) {
          CallTakesAway(box, m, a, i);
        }
        OwnerKeeps(m.kernel, e, i, box.lock);
      }
    }
  }

  lemma EnteringLocal(box: Box, m: System, a: Action)
    requires UsersOk(box, m) && CanAct(box, m, a) && (a.Send? || a.Receive? || a.Retry?)
    ensures var p := Work(m, a).prog[m.kernel.current]; !p.Idle? && p.stage == Looking && ProgressOk(p)
  {
    hide Inv, Step, Enabled, Possible;
    assert UserOk(box, m, m.kernel.current);
  }

  lemma LookingIsOk(box: Box, t: System, i: Slot)
    requires 2 <= i && Alive(t.kernel, i) && !t.prog[i].Idle? && t.prog[i].stage == Looking && ProgressOk(t.prog[i])
    requires if t.kernel.pcb[i].cont == User then Owns(t.kernel, i, box.lock)
      else t.kernel.pcb[i].cont == Acquiring(box.lock)
    ensures UserOk(box, t, i)
  {
  }

  lemma CallerSurvives(s: State, l: int)
    requires Possible(s, Acquire(l)) && Alive(s, s.current)
    ensures Alive(Step(s, Acquire(l)), s.current)
  {
    hide Step;
    StepFramed(s, Acquire(l));
  }

  lemma TriesForMutex(s: State, l: int)
    requires Inv(s) && Enabled(s, Acquire(l))
    ensures Possible(s, Acquire(l))
    ensures var t, i := Step(s, Acquire(l)), s.current;
      && Alive(t, i)
      && (t.pcb[i].cont == Acquiring(l) || (t.pcb[i].cont == User && Owns(t, i, l)))
  {
    CallerIsProcess(s, l);
    hide Inv, Step, Enabled, Framed;
    StepKeepsInv(s, Acquire(l));
    AcquireCont(s, l);
    AcquireRound(s, l);
    CallerSurvives(s, l);
  }

  lemma EnteringUser(box: Box, m: System, a: Action)
    requires UsersOk(box, m) && CanAct(box, m, a) && (a.Send? || a.Receive? || a.Retry?)
    ensures UserOk(box, Act(box, m, a), m.kernel.current)
  {
    hide Inv, Step, Enabled, Possible, ProgressOk, UserOk, StageOk;
    CallerIsProcess(m.kernel, box.lock);
    TriesForMutex(m.kernel, box.lock);
    EnteringLocal(box, m, a);
    LookingIsOk(box, Act(box, m, a), m.kernel.current);
  }

  /** One action of the loop, as far as it is not a system call: what the process knows stays true, the fill level in
      range, and the content it sees changes by the byte it moves. */
  lemma LoopStep(b: Buffer, p: Local, a: Action)
    requires BufferOk(b) && IsNext(p, a) && !a.Finish? && StageOk(b, p) && ProgressOk(p)
    ensures var c, q := NextBuffer(b, p, a), NextLocal(b, p, a);
      && BufferOk(c) && !q.Idle? && StageOk(c, q) && ProgressOk(q)
      && Content(c, q) == (
        if !a.Move? then Content(b, p)
        else if p.Sending? then Content(b, p) + [Carried(b, p)]
        else Content(b, p)[..|Content(b, p)| - 1])
    ensures a.Move? && p.Receiving? ==> Content(b, p) != [] && Content(b, p)[|Content(b, p)| - 1] == Carried(b, p)
    ensures a.Notify? || a.Await? ==> NextLocal(b, p, a) == At(p, Looking) && Content(b, p) == Held(b)
  {
  }

  lemma LoopingUser(box: Box, m: System, a: Action)
    requires UsersOk(box, m) && CanAct(box, m, a) && IsLoop(a) && !a.Finish? && !a.Await?
    ensures UserOk(box, Act(box, m, a), m.kernel.current) && Inside(Act(box, m, a), m.kernel.current)
  {
    hide Inv, Step, Enabled, Possible;
    assert UserOk(box, m, m.kernel.current);
    LoopStep(m.buffer, Me(m), a);
    hide StageOk, ProgressOk, NextLocal, NextBuffer;
    if a.Notify? {
      var e := Call(box, m, a).value;
      StepKeepsCont(m.kernel, e, m.kernel.current);
      OwnerKeeps(m.kernel, e, m.kernel.current, box.lock);
    }
  }

  /** Between its own actions, a process inside may be interrupted by the timer. */
  lemma InterruptedUser(box: Box, m: System, e: Event)
    requires UsersOk(box, m) && CanAct(box, m, Other(e))
    ensures UserOk(box, Act(box, m, Other(e)), m.kernel.current)
    ensures !Me(m).Idle? ==> Act(box, m, Other(e)) == m.(kernel := Act(box, m, Other(e)).kernel)
    ensures !Me(m).Idle? ==>
      Act(box, m, Other(e)).kernel.pcb[m.kernel.current].cont == m.kernel.pcb[m.kernel.current].cont
  {
    hide Inv, Step, Enabled, Possible, StageOk, ProgressOk;
    assert UserOk(box, m, m.kernel.current);
    if !Me(m).Idle? {
      StepKeepsCont(m.kernel, e, m.kernel.current);
      if Inside(m, m.kernel.current) {
        OwnerKeeps(m.kernel, e, m.kernel.current, box.lock);
      }
    }
  }

  lemma WaitingUser(box: Box, m: System)
    requires UsersOk(box, m) && CanAct(box, m, Await)
    ensures UserOk(box, Act(box, m, Await), m.kernel.current)
    ensures !Inside(Act(box, m, Await), m.kernel.current)
  {
    hide Inv, Step, Enabled, Possible;
    assert UserOk(box, m, m.kernel.current);
    StepFramed(m.kernel, Call(box, m, Await).value);
    WaiterIsQueued(m.kernel, box.lock, Call(box, m, Await).value.cond);
  }

  lemma GoneUser(box: Box, m: System)
    requires CanAct(box, m, Finish)
    ensures UserOk(box, Act(box, m, Finish), m.kernel.current)
  {
    hide Step, Enabled, Possible;
  }

  lemma CallerAfter(box: Box, m: System, a: Action)
    requires UsersOk(box, m) && CanAct(box, m, a)
    ensures UserOk(box, Act(box, m, a), m.kernel.current)
  {
    hide Inv, Step, Enabled, Possible, UserOk, UsersOk, StageOk, ProgressOk;
    if a.Send? || a.Receive? || a.Retry? {
      EnteringUser(box, m, a);
    } else if a.Other? {
      InterruptedUser(box, m, a.event);
    } else if a.Await? {
      WaitingUser(box, m);
    } else if a.Finish? {
      GoneUser(box, m);
    } else {
      LoopingUser(box, m, a);
    }
  }

  lemma KernelAfter(box: Box, m: System, a: Action)
    requires UsersOk(box, m) && CanAct(box, m, a)
    ensures Inv(Act(box, m, a).kernel) && HasBox(box, Act(box, m, a).kernel) && BufferOk(Act(box, m, a).buffer)
  {
    hide Inv, Step, Enabled, Possible;
    if Call(box, m, a).Some? {
      StepKeepsInv(m.kernel, Call(box, m, a).value);
      StepFramed(m.kernel, Call(box, m, a).value);
    }
    if IsLoop(a) && !a.Finish? {
      assert UserOk(box, m, m.kernel.current);
      LoopStep(m.buffer, Me(m), a);
    }
  }

  lemma IdleIsOk(box: Box, m: System, i: Slot)
    requires m.prog[i].Idle?
    ensures UserOk(box, m, i)
  {
  }

  lemma ActKeepsUsers(box: Box, m: System, a: Action)
    requires UsersOk(box, m) && CanAct(box, m, a)
    ensures UsersOk(box, Act(box, m, a))
  {
    KernelAfter(box, m, a);
    hide Inv, Step, Enabled, Possible, CanAct, Act, UserOk;
    forall i: Slot
      ensures UserOk(box, Act(box, m, a), i)
    {
      if i == m.kernel.current {
        CallerAfter(box, m, a);
      } else if Act(box, m, a).prog[i].Idle? {
        IdleIsOk(box, Act(box, m, a), i);
      } else {
        OtherUser(box, m, a, i);
      }
    }
  }

  // ---------- who is inside ----------

  /** While one process acts from inside, all others are outside, before and after. */
  lemma OthersOutside(box: Box, m: System, a: Action, i: Slot)
    requires UsersOk(box, m) && CanAct(box, m, a) && IsLoop(a) && i != m.kernel.current
    ensures Act(box, m, a).prog[i] == m.prog[i] && !Inside(m, i) && !Inside(Act(box, m, a), i)
  {
    hide Inv, Step, Enabled, Possible;
    if Inside(m, i) {
      OneInside(box, m, i, m.kernel.current);
    }
    if !m.prog[i].Idle? {
      OtherUser(box, m, a, i);
    }
  }

  /** Nobody was inside when a process gets in. */
  lemma NobodyWasInside(box: Box, m: System, a: Action, i: Slot)
    requires UsersOk(box, m) && CanAct(box, m, a) && (a.Send? || a.Receive? || a.Retry?)
    requires Inside(Act(box, m, a), m.kernel.current)
    ensures !Inside(m, i)
  {
    hide Inv, Step, Enabled, Possible;
    if Inside(m, i) {
      ActKeepsUsers(box, m, a);
      if i != m.kernel.current {
        OtherUser(box, m, a, i);
        OneInside(box, Act(box, m, a), i, m.kernel.current);
      }
    }
  }

  /** Who may come in or go out: the caller, or a process that is killed. */
  function Mover(m: System, a: Action): nat {
    if a.Other? then Victim(m.kernel, a.event) else m.kernel.current
  }

  lemma NobodyElseMoves(box: Box, m: System, a: Action, i: Slot)
    requires UsersOk(box, m) && CanAct(box, m, a) && i != Mover(m, a) && !IsLoop(a)
    ensures var t := Act(box, m, a); t.prog[i] == m.prog[i] && (Inside(t, i) <==> Inside(m, i))
  {
    hide Inv, Step, Enabled, Possible, UserOk;
    if !m.prog[i].Idle? {
      if i == m.kernel.current {
        InterruptedUser(box, m, a.event);
      } else {
        OtherUser(box, m, a, i);
      }
    }
  }

  // ---------- the account ----------

  /** Only one process can be inside: the account is the one it gives. */
  lemma AccountOfOne(t: System, c: Slot)
    requires BufferOk(t.buffer) && |t.lost| + |t.phantom| == t.torn
    requires forall i: Slot | i != c :: !Inside(t, i)
    requires Balanced(t, if Inside(t, c) then Content(t.buffer, t.prog[c]) else Held(t.buffer))
    ensures Accounted(t)
  {
    hide Inside, Balanced, Content;
  }

  lemma PutBalances(m: System, content: string, ch: char)
    requires Balanced(m, content)
    ensures Balanced(m.(sent := m.sent + multiset{ch}), content + [ch])
  {
    assert multiset(content + [ch]) == multiset(content) + multiset{ch};
    assert m.sent + multiset{ch} + m.phantom == (m.sent + m.phantom) + multiset{ch};
    assert m.taken + (multiset(content) + multiset{ch}) + m.lost ==
      (m.taken + multiset(content) + m.lost) + multiset{ch};
  }

  lemma TakeBalances(m: System, content: string, ch: char)
    requires Balanced(m, content + [ch])
    ensures Balanced(m.(taken := m.taken + multiset{ch}), content)
  {
    assert multiset(content + [ch]) == multiset(content) + multiset{ch};
  }

  lemma SameBalance(m: System, t: System, content: string)
    requires t.sent == m.sent && t.taken == m.taken && t.lost == m.lost && t.phantom == m.phantom
    ensures Balanced(t, content) <==> Balanced(m, content)
  {
  }

  lemma MoveBalances(m: System)
    requires BufferOk(m.buffer) && IsNext(Me(m), Move) && StageOk(m.buffer, Me(m)) && ProgressOk(Me(m))
    requires Balanced(m, Content(m.buffer, Me(m)))
    ensures var t := Work(m, Move); BufferOk(t.buffer) && Balanced(t, Content(t.buffer, Me(t)))
  {
    var content, ch := Content(m.buffer, Me(m)), Carried(m.buffer, Me(m));
    LoopStep(m.buffer, Me(m), Move);
    hide StageOk, ProgressOk, NextLocal, NextBuffer, Carried, Content, Balanced;
    if Me(m).Sending? {
      PutBalances(m, content, ch);
      assert m.taken + multiset{} == m.taken;
      SameBalance(m.(sent := m.sent + multiset{ch}), Work(m, Move), content + [ch]);
    } else {
      assert content == content[..|content| - 1] + [ch];
      TakeBalances(m, content[..|content| - 1], ch);
      assert m.sent + multiset{} == m.sent;
      SameBalance(m.(taken := m.taken + multiset{ch}), Work(m, Move), content[..|content| - 1]);
    }
  }

  lemma WorkBalances(m: System, a: Action)
    requires BufferOk(m.buffer) && IsNext(Me(m), a) && StageOk(m.buffer, Me(m)) && ProgressOk(Me(m))
    requires Balanced(m, Content(m.buffer, Me(m)))
    ensures var t := Work(m, a);
      BufferOk(t.buffer) && Balanced(t, if a.Finish? || a.Await? then Held(t.buffer) else Content(t.buffer, Me(t)))
  {
    if a.Move? {
      MoveBalances(m);
    } else if a.Finish? {
      assert Content(m.buffer, Me(m)) == Held(m.buffer);
    } else {
      LoopStep(m.buffer, Me(m), a);
      hide Content, StageOk, ProgressOk, NextLocal, NextBuffer, Carried, Held;
    }
  }

  lemma CallerStays(box: Box, m: System, a: Action)
    requires UsersOk(box, m) && CanAct(box, m, a) && IsLoop(a)
    ensures Inside(Act(box, m, a), m.kernel.current) <==> !a.Finish? && !a.Await?
  {
    hide Inv, Step, Enabled, Possible, UsersOk, StageOk, ProgressOk;
    if a.Await? {
      WaitingUser(box, m);
    } else if !a.Finish? {
      LoopingUser(box, m, a);
    }
  }

  lemma CallerAccount(box: Box, m: System, a: Action)
    requires SystemOk(box, m) && CanAct(box, m, a) && IsLoop(a)
    ensures var t, c := Act(box, m, a), m.kernel.current;
      && BufferOk(t.buffer) && |t.lost| + |t.phantom| == t.torn
      && Balanced(t, if Inside(t, c) then Content(t.buffer, t.prog[c]) else Held(t.buffer))
  {
    assert UserOk(box, m, m.kernel.current) && Balanced(m, Content(m.buffer, Me(m)));
    CallerStays(box, m, a);
    WorkBalances(m, a);
    hide Inv, Step, Enabled, Possible, Accounted, UsersOk, Content, StageOk, ProgressOk, NextLocal, NextBuffer,
      Inside, IsNext, Held;
  }

  lemma AccountInside(box: Box, m: System, a: Action)
    requires SystemOk(box, m) && CanAct(box, m, a) && IsLoop(a)
    ensures BufferOk(Act(box, m, a).buffer) && Accounted(Act(box, m, a))
  {
    var t, c := Act(box, m, a), m.kernel.current;
    KernelAfter(box, m, a);
    CallerAccount(box, m, a);
    hide Inv, Step, Enabled, Possible, Act, CanAct, Inside, Balanced, UsersOk, Content;
    forall i: Slot | i != c
      ensures !Inside(t, i)
    {
      OthersOutside(box, m, a, i);
    }
    AccountOfOne(t, c);
  }

  /** What is live and what the process inside sees. */
  lemma TornContent(b: Buffer, p: Local)
    requires BufferOk(b) && !p.Idle? && StageOk(b, p)
    ensures !Half(p) ==> Held(b) == Content(b, p)
    ensures Half(p) ==> var at := p.stage.at;
      && 0 <= at < |b.bytes|
      && (Loses(p) ==> Held(b) == b.bytes[..at] && Content(b, p) == b.bytes[..at + 1])
      && (Leaves(p) ==> Held(b) == b.bytes[..at + 1] && Content(b, p) == b.bytes[..at])
  {
  }

  lemma OneByteMore(bytes: string, at: nat)
    requires at < |bytes|
    ensures multiset(bytes[..at + 1]) == multiset(bytes[..at]) + multiset{bytes[at]}
  {
    assert bytes[..at + 1] == bytes[..at] + [bytes[at]];
  }

  /** A kill between the two writes leaves one byte too few or too many, which is written down. */
  lemma KillAccount(b: Buffer, p: Local)
    requires BufferOk(b) && !p.Idle? && StageOk(b, p)
    ensures multiset(Held(b)) + Bag(Loses(p), AtStake(b, p)) == multiset(Content(b, p)) + Bag(Leaves(p), AtStake(b, p))
    ensures |Bag(Loses(p), AtStake(b, p))| + |Bag(Leaves(p), AtStake(b, p))| == if Half(p) then 1 else 0
    ensures |Held(b)| == |Content(b, p)| <==> !Half(p)
  {
    TornContent(b, p);
    if Half(p) {
      OneByteMore(b.bytes, p.stage.at);
    }
    hide Content, Held, StageOk;
  }

  lemma KillBalances(m: System, content: string, held: string, loses: multiset<char>, leaves: multiset<char>)
    requires Balanced(m, content) && multiset(held) + loses == multiset(content) + leaves
    ensures Balanced(m.(lost := m.lost + loses, phantom := m.phantom + leaves), held)
  {
    assert m.sent + (m.phantom + leaves) == (m.sent + m.phantom) + leaves;
    assert m.taken + multiset(content) + m.lost + leaves == m.taken + (multiset(content) + leaves) + m.lost;
    assert m.taken + (multiset(held) + loses) + m.lost == m.taken + multiset(held) + (m.lost + loses);
  }

  lemma AccountAfterKill(box: Box, m: System, v: Slot, t: System)
    requires SystemOk(box, m) && Inside(m, v) && t == Killed(m, v).(kernel := t.kernel)
    requires forall i: Slot | i != v :: Inside(t, i) <==> Inside(m, i)
    ensures Accounted(t) && forall i: Slot :: !Inside(t, i)
  {
    assert UserOk(box, m, v) && Balanced(m, Content(m.buffer, m.prog[v]));
    KillAccount(m.buffer, m.prog[v]);
    forall i: Slot
      ensures !Inside(t, i)
    {
      if i != v && Inside(m, i) {
        OneInside(box, m, i, v);
      }
    }
    hide Inv, UsersOk, StageOk, ProgressOk, Content, Held, Half, Loses, Leaves, AtStake, Bag;
    var p := m.prog[v];
    var ch := AtStake(m.buffer, p);
    KillBalances(m, Content(m.buffer, p), Held(m.buffer), Bag(Loses(p), ch), Bag(Leaves(p), ch));
    AccountOfOne(t, v);
  }

  /** An action that moves nothing: entering, an interrupt, a step of somebody else, a kill of a process that is not
      inside. */
  lemma AccountStays(m: System, t: System, c: nat)
    requires BufferOk(m.buffer) && Accounted(m)
    requires t == m.(kernel := t.kernel, prog := t.prog)
    requires forall i: Slot | i != c :: t.prog[i] == m.prog[i] && (Inside(t, i) <==> Inside(m, i))
    requires c < NUM_MAX_TASK ==> !Inside(m, c)
    requires c < NUM_MAX_TASK && Inside(t, c) ==>
      (forall i: Slot :: !Inside(m, i)) && Content(t.buffer, t.prog[c]) == Held(t.buffer)
    ensures Accounted(t)
  {
    hide Inside, Content;
  }

  /** What such an action changes. */
  lemma ShapeAfter(box: Box, m: System, a: Action)
    requires UsersOk(box, m) && CanAct(box, m, a) && !IsLoop(a)
    ensures var t, c := Act(box, m, a), Mover(m, a);
      && (c == NUM_MAX_TASK ==> t == m.(kernel := t.kernel))
      && (a.Other? && c < NUM_MAX_TASK && Inside(m, c) ==> t == Killed(m, c).(kernel := t.kernel))
      && (!a.Other? || (c < NUM_MAX_TASK && !Inside(m, c)) ==>
          && t == m.(kernel := t.kernel, prog := t.prog)
          && !Inside(m, c)
          && (Inside(t, c) ==> !a.Other? && Content(t.buffer, t.prog[c]) == Held(t.buffer)))
  {
    hide Inv, Step, Enabled, Possible;
    if Mover(m, a) < NUM_MAX_TASK {
      assert UserOk(box, m, Mover(m, a));
    }
  }

  lemma AccountOutside(box: Box, m: System, a: Action)
    requires SystemOk(box, m) && CanAct(box, m, a) && !IsLoop(a)
    ensures BufferOk(Act(box, m, a).buffer) && Accounted(Act(box, m, a))
  {
    var t, c := Act(box, m, a), Mover(m, a);
    KernelAfter(box, m, a);
    ShapeAfter(box, m, a);
    hide Inv, Step, Enabled, Possible, Act, CanAct, Accounted, UserOk, Killed, Victim, Content, StageOk, ProgressOk;
    forall i: Slot | i != c
      ensures t.prog[i] == m.prog[i] && (Inside(t, i) <==> Inside(m, i))
    {
      NobodyElseMoves(box, m, a, i);
    }
    if a.Other? && c < NUM_MAX_TASK && Inside(m, c) {
      AccountAfterKill(box, m, c, t);
    } else {
      if c < NUM_MAX_TASK && Inside(t, c) {
        forall i: Slot
          ensures !Inside(m, i)
        {
          NobodyWasInside(box, m, a, i);
        }
      }
      AccountStays(m, t, c);
    }
  }

  lemma ActKeepsSystem(box: Box, m: System, a: Action)
    requires SystemOk(box, m) && CanAct(box, m, a)
    ensures SystemOk(box, Act(box, m, a))
  {
    ActKeepsUsers(box, m, a);
    hide Inv, Act, CanAct, Accounted, UsersOk;
    if IsLoop(a) {
      AccountInside(box, m, a);
    } else {
      AccountOutside(box, m, a);
    }
  }

  // ---------- over runs ----------

  /** The first box as start-up leaves it: empty, filled with the digit zero, its mutex and conditions unused. */
  function FirstBox(locks: nat, conds: nat, sems: seq<nat>, goals: seq<int>): System
    requires CanSchedule(Boot(locks, conds, sems, goals))
  {
    System(Schedule(Boot(locks, conds, sems, goals)), Buffer(seq(MAIL_CAPACITY, _ => '0'), 0),
      seq(NUM_MAX_TASK, _ => Idle), multiset{}, multiset{}, multiset{}, multiset{}, 0, [])
  }

  /** A box on a kernel that has just started is one the laws begin with. */
  lemma FirstBoxIsFresh(locks: nat, conds: nat, sems: seq<nat>, goals: seq<int>)
    requires 1 <= locks && 2 <= conds
    ensures CanSchedule(Boot(locks, conds, sems, goals))
    ensures Fresh(Box(0, 0, 1), FirstBox(locks, conds, sems, goals))
  {
    var b := Boot(locks, conds, sems, goals);
    BootInv(locks, conds, sems, goals);
    ScheduleKeeps(b);
    hide Schedule, Inv, CanSchedule;
    assert SameSizes(b, Schedule(b));
  }

  lemma {:induction false} RunKeepsSystem(box: Box, m: System, run: seq<Action>)
    requires Fresh(box, m) && CanRun(box, m, run)
    ensures SystemOk(box, After(box, m, run))
  {
    if run == [] {
      assert Held(m.buffer) == [];
    } else {
      RunKeepsSystem(box, m, run[..|run| - 1]);
      ActKeepsSystem(box, After(box, m, run[..|run| - 1]), run[|run| - 1]);
    }
  }

  /** The bytes written are those read and the live ones, up to one byte for each kill that fell between the two writes
      of a transfer, and exactly if there was none. */
  ghost predicate Conserved(m: System)
    requires BufferOk(m.buffer)
  {
    && m.sent + m.phantom == m.taken + multiset(Held(m.buffer)) + m.lost
    && |m.lost| + |m.phantom| == m.torn
    && (m.torn == 0 ==> m.sent == m.taken + multiset(Held(m.buffer)))
  }

  lemma AccountIsConserved(m: System)
    requires BufferOk(m.buffer) && Accounted(m) && forall i: Slot :: !Inside(m, i)
    ensures Conserved(m)
  {
    hide Held, Inside, Content;
    if m.torn == 0 {
      assert m.lost == multiset{} && m.phantom == multiset{};
      assert m.sent == m.sent + m.phantom;
      assert m.taken + multiset(Held(m.buffer)) == m.taken + multiset(Held(m.buffer)) + m.lost;
    }
  }

  /** Over every run, kills at any moment included: the fill level stays in range, and whenever nobody is inside the
      bytes are conserved. */
  lemma MailboxConserves(box: Box, m: System, run: seq<Action>)
    requires Fresh(box, m) && CanRun(box, m, run)
    ensures BufferOk(After(box, m, run).buffer)
    ensures (forall i: Slot :: !Inside(After(box, m, run), i)) ==> Conserved(After(box, m, run))
  {
    RunKeepsSystem(box, m, run);
    hide CanRun, After, Inv, Fresh, Held, Inside, Conserved, Content;
    if forall i: Slot :: !Inside(After(box, m, run), i) {
      AccountIsConserved(After(box, m, run));
    }
  }

  lemma UserKnows(box: Box, m: System, i: Slot)
    requires UsersOk(box, m) && Inside(m, i)
    ensures Owns(m.kernel, i, box.lock) && StageOk(m.buffer, m.prog[i]) && ProgressOk(m.prog[i])
  {
    hide Inv, StageOk, ProgressOk;
    assert UserOk(box, m, i);
  }

  lemma OthersStay(box: Box, m: System, pid: int, v: Slot)
    requires UsersOk(box, m) && CanAct(box, m, Other(Kill(pid))) && Mover(m, Other(Kill(pid))) == v
    ensures forall i: Slot | i != v :: Inside(Act(box, m, Other(Kill(pid))), i) <==> Inside(m, i)
  {
    hide Act, CanAct, UsersOk, Inside, Mover;
    forall i: Slot | i != v
      ensures Inside(Act(box, m, Other(Kill(pid))), i) <==> Inside(m, i)
    {
      NobodyElseMoves(box, m, Other(Kill(pid)), i);
    }
  }

  lemma KillActs(box: Box, m: System, pid: int)
    requires SystemOk(box, m) && CanAct(box, m, Other(Kill(pid))) && Inside(m, Scan(m.kernel, pid))
    ensures var t, v := Act(box, m, Other(Kill(pid))), Scan(m.kernel, pid);
      t == Killed(m, v).(kernel := t.kernel) && Mover(m, Other(Kill(pid))) == v && UsersOk(box, m)
  {
    hide Inv, Step, Enabled, Reschedules, CanSchedule, UserOk, Killed;
  }

  lemma KilledKeeps(m: System, v: Slot)
    ensures var t := Killed(m, v); t.buffer == m.buffer && t.sent == m.sent && t.taken == m.taken
  {
  }

  lemma VictimIsSlot(box: Box, m: System, pid: int)
    requires CanAct(box, m, Other(Kill(pid)))
    ensures Scan(m.kernel, pid) < NUM_MAX_TASK
  {
    hide Enabled;
  }

  /** Once the process inside is killed nobody is. */
  lemma KillEmpties(box: Box, m: System, pid: int)
    requires SystemOk(box, m) && CanAct(box, m, Other(Kill(pid))) && Inside(m, Scan(m.kernel, pid))
    ensures var t := Act(box, m, Other(Kill(pid)));
      (forall i: Slot :: !Inside(t, i)) && t.buffer == m.buffer && t.sent == m.sent && t.taken == m.taken
  {
    VictimIsSlot(box, m, pid);
    hide Inv, Act, CanAct, SystemOk, UsersOk, Accounted, Inside, Killed, Mover, BufferOk;
    KillActs(box, m, pid);
    var v := Scan(m.kernel, pid);
    OthersStay(box, m, pid, v);
    AccountAfterKill(box, m, v, Act(box, m, Other(Kill(pid))));
    KilledKeeps(m, v);
  }

  lemma SameSum(taken: multiset<char>, a: string, b: string, lost: multiset<char>, phantom: multiset<char>)
    requires multiset(b) + lost == multiset(a) + phantom && |lost| + |phantom| == if |a| == |b| then 0 else 1
    ensures taken + multiset(a) == taken + multiset(b) <==> |a| == |b|
  {
    if |a| == |b| {
      assert lost == multiset{} && phantom == multiset{};
      assert multiset(b) == multiset(b) + lost && multiset(a) == multiset(a) + phantom;
    } else {
      assert |taken + multiset(a)| == |taken| + |a| && |taken + multiset(b)| == |taken| + |b|;
    }
  }

  /** An account that is exact before a kill of the process inside is exact after it if and only if the process is not
      between its two writes. */
  lemma KillIsExact(box: Box, m: System, pid: int)
    requires SystemOk(box, m) && CanAct(box, m, Other(Kill(pid))) && Inside(m, Scan(m.kernel, pid))
    requires m.sent == m.taken + multiset(Content(m.buffer, m.prog[Scan(m.kernel, pid)]))
    ensures var t := Act(box, m, Other(Kill(pid)));
      && BufferOk(t.buffer) && (forall i: Slot :: !Inside(t, i))
      && (t.sent == t.taken + multiset(Held(t.buffer)) <==> !Half(m.prog[Scan(m.kernel, pid)]))
  {
    var v, t := Scan(m.kernel, pid), Act(box, m, Other(Kill(pid)));
    KillEmpties(box, m, pid);
    UserKnows(box, m, v);
    hide Inv, CanAct, Act, SystemOk, Inside, StageOk, Content, Held, Half, Loses, Leaves, AtStake, Bag;
    var b, p := m.buffer, m.prog[v];
    KillAccount(b, p);
    SameSum(m.taken, Content(b, p), Held(b), Bag(Loses(p), AtStake(b, p)), Bag(Leaves(p), AtStake(b, p)));
  }

  /** The shared fields change only by the hand of the process that holds the mutex. */
  lemma OnlyTheHolderWrites(box: Box, m: System, a: Action)
    requires SystemOk(box, m) && CanAct(box, m, a) && Act(box, m, a).buffer != m.buffer
    ensures Owns(m.kernel, m.kernel.current, box.lock)
    ensures m.kernel.locks[box.lock] == Lock(true, m.kernel.pcb[m.kernel.current].pid)
  {
    assert UserOk(box, m, m.kernel.current);
    OwnersLive(m.kernel, m.kernel.current, box.lock);
  }

  /** The next action in the loop; the two writes in the order byte, fill level. */
  function NextAction(p: Local): Action
    requires !p.Idle?
  {
    match p.stage
    case Looking => if Wants(p) then Look else Finish
    case Cleared => Load
    case Barred => Await
    case Moving(_, moved, counted) => if !moved then Move else if !counted then Count else Test
    case Owing => Notify
    case Stuck => Retry
  }

  lemma HasNext(b: Buffer, p: Local)
    requires !p.Idle? && StageOk(b, p) && ProgressOk(p)
    ensures IsNext(p, NextAction(p))
  {
  }

  lemma CallIsEnabled(box: Box, m: System, a: Action)
    requires UsersOk(box, m) && Inside(m, m.kernel.current) && IsNext(Me(m), a) && Call(box, m, a).Some?
    ensures Enabled(m.kernel, Call(box, m, a).value)
  {
    assert UserOk(box, m, m.kernel.current);
    OwnersLive(m.kernel, m.kernel.current, box.lock);
    CondCount(m.kernel, box.notEmpty);
    CondCount(m.kernel, box.notFull);
  }

  lemma NextIsPossible(box: Box, m: System, a: Action)
    requires UsersOk(box, m) && Inside(m, m.kernel.current) && IsNext(Me(m), a)
    ensures CanAct(box, m, a)
  {
    if Call(box, m, a).Some? {
      CallIsEnabled(box, m, a);
      StepKeepsInv(m.kernel, Call(box, m, a).value);
    }
    hide Inv, Enabled, Possible, UserOk;
  }

  /** The current process inside always has a next action, and whichever it takes the kernel accepts the call it makes:
      the mutex it waits with or releases is locked and its own, and a signal that counts a waiter finds one. It never
      comes to the endless loop. */
  lemma InsideCanGoOn(box: Box, m: System)
    requires SystemOk(box, m) && Inside(m, m.kernel.current)
    ensures exists a :: IsNext(Me(m), a)
    ensures forall a | IsNext(Me(m), a) :: CanAct(box, m, a)
  {
    UserKnows(box, m, m.kernel.current);
    hide Inv, CanAct, Accounted, UserOk, IsNext, NextAction, StageOk, ProgressOk;
    HasNext(m.buffer, Me(m));
    forall a | IsNext(Me(m), a)
      ensures CanAct(box, m, a)
    {
      NextIsPossible(box, m, a);
    }
  }
}
