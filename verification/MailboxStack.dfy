/** When all messages have one length and that length divides the capacity, the mailbox is a bounded stack of whole
    messages: however senders and receivers interleave, every transfer takes effect at once when it ends. */
module MailboxStack {
  import opened Basics
  import opened KernelModel
  import opened KernelSteps
  import opened KernelInvariant
  import opened Frame
  import opened Mailbox
  import opened MailboxLaws
  import opened Strings

  // ---------- the bounded stack ----------

  function Apply(stack: seq<string>, op: Op, capacity: nat): Option<seq<string>> {
    match op
    case Pushed(msg) => if |stack| < capacity then Some(stack + [msg]) else None
    case Popped(msg) =>
      if stack != [] && stack[|stack| - 1] == msg then Some(stack[..|stack| - 1]) else None
  }

  /** What a history of transfers leaves on a stack of at most `capacity` messages, if the stack allows that history:
      nothing is pushed on a full stack, and what is popped is the message on top. */
  function Replay(log: seq<Op>, capacity: nat): (r: Option<seq<string>>)
    ensures r.Some? ==> |r.value| <= capacity
  {
    if log == [] then Some([])
    else
      match Replay(log[..|log| - 1], capacity)
      case None => None
      case Some(stack) => Apply(stack, log[|log| - 1], capacity)
  }

  lemma ReplayOne(log: seq<Op>, op: Op, capacity: nat)
    requires Replay(log, capacity).Some?
    ensures Replay(log + [op], capacity) == Apply(Replay(log, capacity).value, op, capacity)
  {
    assert (log + [op])[..|log|] == log;
  }

  function Flat(stack: seq<string>): string {
    if stack == [] then [] else Flat(stack[..|stack| - 1]) + stack[|stack| - 1]
  }

  ghost predicate Uniform(stack: seq<string>, k: nat) {
    forall j | 0 <= j < |stack| :: |stack[j]| == k
  }

  lemma {:induction false} FlatLength(stack: seq<string>, k: nat)
    requires Uniform(stack, k)
    ensures |Flat(stack)| == k * |stack|
  {
    if stack == [] {
    } else {
      var n := |stack| - 1;
      FlatLength(stack[..n], k);
      assert |stack[n]| == k;
      calc {
        |Flat(stack)|;
        k * n + k;
        k * (n + 1);
      }
    }
  }

  lemma FlatPush(stack: seq<string>, msg: string)
    ensures Flat(stack + [msg]) == Flat(stack) + msg
  {
    assert (stack + [msg])[..|stack|] == stack;
  }

  // ---------- orderly use ----------

  /** All messages have length k, and nobody is killed inside the mailbox. */
  predicate Orderly(m: System, a: Action, k: nat) {
    match a
    case Send(msg) => |msg| == k
    case Receive(want) => want == k
    case Other(Kill(pid)) => Scan(m.kernel, pid) < NUM_MAX_TASK ==> !Inside(m, Scan(m.kernel, pid))
    case _ => true
  }

  ghost predicate OrderlyRun(box: Box, m: System, run: seq<Action>, k: nat)
    requires CanRun(box, m, run)
  {
    run == [] ||
    (OrderlyRun(box, m, run[..|run| - 1], k) && Orderly(After(box, m, run[..|run| - 1]), run[|run| - 1], k))
  }

  // ---------- the refinement ----------

  predicate Untouched(p: Local) {
    (p.Sending? ==> p.done == 0) && (p.Receiving? ==> p.got == [])
  }

  predicate FixedLength(p: Local, k: nat) {
    (p.Sending? ==> |p.msg| == k && p.done <= k) && (p.Receiving? ==> p.want == k && |p.got| <= k)
  }

  /** How the content of the box stands to the stack while one process is inside. */
  predicate Matches(content: string, p: Local, stack: seq<string>) {
    && (p.Sending? && p.done <= |p.msg| ==> content == Flat(stack) + p.msg[..p.done])
    && (p.Receiving? ==> content + Reverse(p.got) == Flat(stack))
  }

  ghost predicate Refines(m: System, stack: seq<string>, k: nat)
    requires BufferOk(m.buffer)
  {
    && Uniform(stack, k)
    && (forall i: Slot :: FixedLength(m.prog[i], k) && (!Inside(m, i) ==> Untouched(m.prog[i])))
    && (forall i: Slot | Inside(m, i) :: Matches(Content(m.buffer, m.prog[i]), m.prog[i], stack))
    && ((forall i: Slot :: !Inside(m, i)) ==> Held(m.buffer) == Flat(stack))
  }

  predicate Divides(k: nat) {
    1 <= k && MAIL_CAPACITY % k == 0
  }

  /** How many messages fit. */
  function Slots(k: nat): nat
    requires 1 <= k
  {
    MAIL_CAPACITY / k
  }

  lemma NoneBetween(k: nat, n: nat, d: nat)
    requires Divides(k) && k * n + d == MAIL_CAPACITY && d < k
    ensures d == 0
  {
    var q := Slots(k);
    assert k * q == MAIL_CAPACITY;
    if n < q {
      MulMono(k, n + 1, q);
    } else {
      MulMono(k, q, n);
    }
  }

  lemma RoomForOne(k: nat, n: nat)
    requires 1 <= k && k * n + k <= MAIL_CAPACITY
    ensures n < Slots(k)
  {
    var q := Slots(k);
    assert k * (q + 1) == k * q + k > MAIL_CAPACITY;
    if q <= n {
      MulMono(k, q + 1, n + 1);
    }
  }

  lemma UserMatches(m: System, i: Slot, stack: seq<string>, k: nat)
    requires BufferOk(m.buffer) && Refines(m, stack, k) && Inside(m, i)
    ensures FixedLength(m.prog[i], k) && Matches(Content(m.buffer, m.prog[i]), m.prog[i], stack) && Uniform(stack, k)
  {
    hide FixedLength, Matches, Content, Uniform;
  }

  /** A process that has found the box full, or empty, is at a message boundary: a sender has sent nothing yet, or
      all. */
  lemma BarredIsUntouched(b: Buffer, p: Local, stack: seq<string>, k: nat)
    requires BufferOk(b) && !p.Idle? && p.stage.Barred? && StageOk(b, p) && ProgressOk(p) && Divides(k)
    requires FixedLength(p, k) && Matches(Content(b, p), p, stack) && Uniform(stack, k)
    ensures Untouched(p)
  {
    FlatLength(stack, k);
    hide Flat, Reverse;
    if p.Sending? {
      NoneBetween(k, |stack|, p.done);
    } else if |stack| >= 1 {
      MulMono(k, 1, |stack|);
    }
  }

  /** No process waits when it has sent or received part of its message. */
  lemma NobodyWaitsMidway(box: Box, m: System, stack: seq<string>, k: nat)
    requires SystemOk(box, m) && Refines(m, stack, k) && Divides(k)
    requires CanAct(box, m, Await)
    ensures Untouched(Me(m))
  {
    hide Enabled, Possible, Accounted, Inv, StageOk, ProgressOk, Refines, Divides, FixedLength, Matches, Untouched,
      Content;
    UserKnows(box, m, m.kernel.current);
    UserMatches(m, m.kernel.current, stack, k);
    BarredIsUntouched(m.buffer, Me(m), stack, k);
  }

  /** The stack after an action: it changes when a transfer ends. */
  function StackAfter(p: Local, a: Action, stack: seq<string>): seq<string> {
    if a.Finish? && p.Sending? then stack + [p.msg]
    else if a.Finish? && p.Receiving? && stack != [] then stack[..|stack| - 1]
    else stack
  }

  predicate Complete(p: Local) {
    !p.Idle? && (p.Sending? ==> p.done == |p.msg|) && (p.Receiving? ==> |p.got| >= p.want)
  }

  lemma PopTop(held: string, got: string, stack: seq<string>, k: nat)
    requires Uniform(stack, k) && 1 <= k == |got| && held + got == Flat(stack)
    ensures stack != [] && stack[|stack| - 1] == got && Flat(stack[..|stack| - 1]) == held
  {
    var n := |stack| - 1;
    assert stack != [];
    var flat := Flat(stack[..n]);
    assert flat + stack[n] == held + got;
    assert |flat| == |held|;
    assert (flat + stack[n])[..|flat|] == flat && (held + got)[..|held|] == held;
    assert (flat + stack[n])[|flat|..] == stack[n] && (held + got)[|held|..] == got;
  }

  /** A transfer that ends is a push that fits or a pop of the message on top, and the buffer has followed. */
  lemma FinishApplies(held: string, p: Local, stack: seq<string>, k: nat)
    requires Uniform(stack, k) && |held| <= MAIL_CAPACITY && 1 <= k
    requires FixedLength(p, k) && Matches(held, p, stack) && Complete(p)
    ensures var st := StackAfter(p, Finish, stack);
      Uniform(st, k) && held == Flat(st) && Apply(stack, OpOf(p), Slots(k)) == Some(st)
  {
    FlatLength(stack, k);
    hide Flat, Reverse, Slots;
    if p.Sending? {
      assert p.msg[..p.done] == p.msg;
      FlatPush(stack, p.msg);
      RoomForOne(k, |stack|);
    } else {
      PopTop(held, Reverse(p.got), stack, k);
    }
  }

  lemma FinishEnds(box: Box, m: System)
    requires CanAct(box, m, Finish)
    ensures IsNext(Me(m), Finish) && Inside(m, m.kernel.current)
    ensures var t := Act(box, m, Finish);
      t.log == m.log + [OpOf(Me(m))] && t.buffer == m.buffer && t.prog[m.kernel.current].Idle?
  {
    hide Step, Enabled, Possible;
  }

  lemma FinishedContent(b: Buffer, p: Local)
    requires BufferOk(b) && IsNext(p, Finish) && ProgressOk(p)
    ensures Complete(p) && Content(b, p) == Held(b)
  {
  }

  lemma FinishIsComplete(box: Box, m: System, stack: seq<string>, k: nat)
    requires SystemOk(box, m) && Refines(m, stack, k) && CanAct(box, m, Finish)
    ensures Complete(Me(m)) && FixedLength(Me(m), k) && Matches(Held(m.buffer), Me(m), stack)
    ensures Uniform(stack, k)
    ensures var t := Act(box, m, Finish);
      t.log == m.log + [OpOf(Me(m))] && t.buffer == m.buffer && t.prog[m.kernel.current].Idle?
  {
    FinishEnds(box, m);
    hide Act, CanAct, Accounted, Inv, StageOk, ProgressOk, Refines, FixedLength, Matches, Uniform, Content, Complete,
      Held, Inside;
    UserKnows(box, m, m.kernel.current);
    UserMatches(m, m.kernel.current, stack, k);
    FinishedContent(m.buffer, Me(m));
  }

  /** An action of the loop keeps the content in step with the stack. */
  lemma LoopMatches(b: Buffer, p: Local, a: Action, stack: seq<string>, k: nat)
    requires BufferOk(b) && IsNext(p, a) && !a.Finish? && StageOk(b, p) && ProgressOk(p)
    requires FixedLength(p, k) && Matches(Content(b, p), p, stack)
    ensures var c, q := NextBuffer(b, p, a), NextLocal(b, p, a);
      BufferOk(c) && FixedLength(q, k) && Matches(Content(c, q), q, stack)
  {
    LoopStep(b, p, a);
    var content := Content(b, p);
    hide Content, StageOk, NextBuffer, Flat;
    if a.Move? {
      var ch := Carried(b, p);
      if p.Sending? {
        assert p.msg[..p.done + 1] == p.msg[..p.done] + [ch];
        ConcatAssoc(Flat(stack), p.msg[..p.done], [ch]);
      } else {
        ReverseSnoc(p.got, ch);
        ConcatAssoc(content[..|content| - 1], [ch], Reverse(p.got));
        assert content == content[..|content| - 1] + [ch];
      }
    }
  }

  lemma CallerEnds(box: Box, m: System, stack: seq<string>, k: nat)
    requires SystemOk(box, m) && Refines(m, stack, k) && CanAct(box, m, Finish) && 1 <= k
    ensures var t, c, st := Act(box, m, Finish), m.kernel.current, StackAfter(Me(m), Finish, stack);
      && BufferOk(t.buffer) && Uniform(st, k) && FixedLength(t.prog[c], k)
      && Untouched(t.prog[c]) && Held(t.buffer) == Flat(st)
      && Apply(stack, OpOf(Me(m)), Slots(k)) == Some(st) && t.log == m.log + [OpOf(Me(m))]
  {
    hide Act, CanAct, Accounted, Refines, Inside, Matches, Flat, Uniform, Complete, Apply, Slots, StackAfter, OpOf;
    FinishIsComplete(box, m, stack, k);
    FinishApplies(Held(m.buffer), Me(m), stack, k);
  }

  lemma NothingMoved(held: string, p: Local, stack: seq<string>)
    requires !p.Idle? && Untouched(p) && Matches(held, p, stack)
    ensures held == Flat(stack)
  {
  }

  lemma CallerLoops(box: Box, m: System, a: Action, stack: seq<string>, k: nat)
    requires SystemOk(box, m) && Refines(m, stack, k) && CanAct(box, m, a) && Divides(k) && IsLoop(a) && !a.Finish?
    ensures var t, c := Act(box, m, a), m.kernel.current;
      && BufferOk(t.buffer) && Uniform(stack, k) && FixedLength(t.prog[c], k)
      && Matches(Content(t.buffer, t.prog[c]), t.prog[c], stack)
      && (a.Await? ==> Untouched(t.prog[c]) && Held(t.buffer) == Flat(stack))
  {
    assert UserOk(box, m, m.kernel.current);
    assert FixedLength(Me(m), k) && Matches(Content(m.buffer, Me(m)), Me(m), stack) && Uniform(stack, k);
    hide Inv, Step, Enabled, Possible, SystemOk, Refines;
    LoopMatches(m.buffer, Me(m), a, stack, k);
    if a.Await? {
      BarredIsUntouched(m.buffer, Me(m), stack, k);
      NothingMoved(Held(m.buffer), Me(m), stack);
    }
    hide Matches, Content, FixedLength, StageOk, ProgressOk, Untouched, Flat;
  }

  /** The caller's part: it stays inside, in step with the box, or is out and the box holds the stack. */
  lemma CallerFollows(box: Box, m: System, a: Action, stack: seq<string>, k: nat)
    requires SystemOk(box, m) && Refines(m, stack, k) && CanAct(box, m, a) && Divides(k) && IsLoop(a)
    ensures var t, c, st := Act(box, m, a), m.kernel.current, StackAfter(Me(m), a, stack);
      && BufferOk(t.buffer) && Uniform(st, k) && FixedLength(t.prog[c], k)
      && if Inside(t, c) then Matches(Content(t.buffer, t.prog[c]), t.prog[c], st)
         else Untouched(t.prog[c]) && Held(t.buffer) == Flat(st)
  {
    hide Act, CanAct, Accounted, Refines, Inside, Matches, Content, Held, Flat, Uniform, Complete;
    CallerStays(box, m, a);
    if a.Finish? {
      CallerEnds(box, m, stack, k);
    } else {
      CallerLoops(box, m, a, stack, k);
    }
  }

  lemma OthersFit(box: Box, m: System, a: Action, stack: seq<string>, k: nat, i: Slot)
    requires SystemOk(box, m) && Refines(m, stack, k) && CanAct(box, m, a) && IsLoop(a) && i != m.kernel.current
    ensures var t := Act(box, m, a); FixedLength(t.prog[i], k) && Untouched(t.prog[i]) && !Inside(t, i)
  {
    OthersOutside(box, m, a, i);
    hide SystemOk, CanAct, Act, Matches, Untouched, FixedLength;
  }

  lemma AllButOneOutside(t: System, c: Slot, stack: seq<string>, k: nat)
    requires BufferOk(t.buffer) && Uniform(stack, k) && FixedLength(t.prog[c], k)
    requires if Inside(t, c) then Matches(Content(t.buffer, t.prog[c]), t.prog[c], stack)
             else Untouched(t.prog[c]) && Held(t.buffer) == Flat(stack)
    requires forall i: Slot | i != c :: FixedLength(t.prog[i], k) && Untouched(t.prog[i]) && !Inside(t, i)
    ensures Refines(t, stack, k)
  {
    hide FixedLength, Untouched, Flat, Matches, Uniform, Inside, Content;
  }

  lemma InsideRefines(box: Box, m: System, a: Action, stack: seq<string>, k: nat)
    requires SystemOk(box, m) && Refines(m, stack, k) && CanAct(box, m, a) && Divides(k) && IsLoop(a)
    ensures BufferOk(Act(box, m, a).buffer) && Refines(Act(box, m, a), StackAfter(Me(m), a, stack), k)
  {
    var t, c := Act(box, m, a), m.kernel.current;
    CallerFollows(box, m, a, stack, k);
    hide *;
    forall i: Slot | i != c
      ensures FixedLength(t.prog[i], k) && Untouched(t.prog[i]) && !Inside(t, i)
    {
      OthersFit(box, m, a, stack, k, i);
    }
    AllButOneOutside(t, c, StackAfter(Me(m), a, stack), k);
  }

  lemma FirstMatch(held: string, p: Local, stack: seq<string>)
    requires Untouched(p) && held == Flat(stack)
    ensures Matches(held, p, stack)
  {
  }

  /** Other actions: at most one process comes in or goes out, and it has moved nothing. */
  lemma RefinesStays(m: System, t: System, c: nat, stack: seq<string>, k: nat)
    requires BufferOk(m.buffer) && Refines(m, stack, k) && t.buffer == m.buffer
    requires forall i: Slot | i != c :: t.prog[i] == m.prog[i] && (Inside(t, i) <==> Inside(m, i))
    requires c < NUM_MAX_TASK ==> !Inside(m, c) && FixedLength(t.prog[c], k) && Untouched(t.prog[c])
    requires c < NUM_MAX_TASK && Inside(t, c) ==>
      (forall i: Slot :: !Inside(m, i)) && Content(t.buffer, t.prog[c]) == Held(t.buffer)
    ensures Refines(t, stack, k)
  {
    if c < NUM_MAX_TASK && Inside(t, c) {
      FirstMatch(Held(m.buffer), t.prog[c], stack);
    }
    hide Inside, Content, FixedLength, Matches, Untouched, Uniform, Flat;
  }

  lemma MoverOutside(box: Box, m: System, a: Action, k: nat)
    requires CanAct(box, m, a) && Orderly(m, a, k) && !IsLoop(a) && Mover(m, a) < NUM_MAX_TASK
    ensures !Inside(m, Mover(m, a))
  {
    hide Enabled, Possible;
  }

  lemma MoverUntouched(box: Box, m: System, a: Action, stack: seq<string>, k: nat)
    requires SystemOk(box, m) && Refines(m, stack, k) && CanAct(box, m, a) && Orderly(m, a, k) && !IsLoop(a)
    requires var c := Mover(m, a); c < NUM_MAX_TASK && !Inside(m, c)
    ensures var p := Act(box, m, a).prog[Mover(m, a)]; FixedLength(p, k) && Untouched(p)
  {
    hide Step, Enabled, Possible, SystemOk, Matches;
    assert FixedLength(m.prog[Mover(m, a)], k) && Untouched(m.prog[Mover(m, a)]);
  }

  lemma MoverFits(box: Box, m: System, a: Action, stack: seq<string>, k: nat)
    requires SystemOk(box, m) && Refines(m, stack, k) && CanAct(box, m, a) && Orderly(m, a, k) && !IsLoop(a)
    ensures var t, c := Act(box, m, a), Mover(m, a);
      && t.buffer == m.buffer
      && (c < NUM_MAX_TASK ==> !Inside(m, c) && FixedLength(t.prog[c], k) && Untouched(t.prog[c]))
      && (c < NUM_MAX_TASK && Inside(t, c) ==> !a.Other?)
      && (c < NUM_MAX_TASK && Inside(t, c) ==> Content(t.buffer, t.prog[c]) == Held(m.buffer))
  {
    ShapeAfter(box, m, a);
    hide Act, CanAct, Accounted, Inv, UserOk, Refines, FixedLength, Untouched, Content, Held, Inside, Mover, Orderly,
      Killed;
    if Mover(m, a) < NUM_MAX_TASK {
      MoverOutside(box, m, a, k);
      MoverUntouched(box, m, a, stack, k);
    }
  }

  lemma OutsideRefines(box: Box, m: System, a: Action, stack: seq<string>, k: nat)
    requires SystemOk(box, m) && Refines(m, stack, k) && CanAct(box, m, a) && Orderly(m, a, k) && !IsLoop(a)
    ensures BufferOk(Act(box, m, a).buffer) && Refines(Act(box, m, a), stack, k)
  {
    var t, c := Act(box, m, a), Mover(m, a);
    MoverFits(box, m, a, stack, k);
    assert BufferOk(m.buffer);
    hide Inv, Step, Enabled, Possible, Act, CanAct, Accounted, UserOk, Victim, Content, StageOk, ProgressOk, Refines;
    forall i: Slot | i != c
      ensures t.prog[i] == m.prog[i] && (Inside(t, i) <==> Inside(m, i))
    {
      NobodyElseMoves(box, m, a, i);
    }
    if c < NUM_MAX_TASK && Inside(t, c) {
      forall i: Slot
        ensures !Inside(m, i)
      {
        NobodyWasInside(box, m, a, i);
      }
    }
    RefinesStays(m, t, c, stack, k);
  }

  /** One action of anybody: the box follows the stack. */
  lemma ActRefines(box: Box, m: System, a: Action, stack: seq<string>, k: nat)
    requires SystemOk(box, m) && Refines(m, stack, k) && CanAct(box, m, a) && Orderly(m, a, k) && Divides(k)
    ensures BufferOk(Act(box, m, a).buffer) && Refines(Act(box, m, a), StackAfter(Me(m), a, stack), k)
  {
    hide Inv, Step, Enabled, Possible, Refines, Act, CanAct;
    if IsLoop(a) {
      InsideRefines(box, m, a, stack, k);
    } else {
      OutsideRefines(box, m, a, stack, k);
    }
  }

  lemma SameLog(box: Box, m: System, a: Action)
    requires CanAct(box, m, a) && !a.Finish?
    ensures Act(box, m, a).log == m.log
  {
    hide Step, Enabled, Possible;
  }

  lemma LogFollows(box: Box, m: System, a: Action, stack: seq<string>, k: nat)
    requires SystemOk(box, m) && Refines(m, stack, k) && CanAct(box, m, a) && Divides(k)
    requires Replay(m.log, Slots(k)) == Some(stack)
    ensures Replay(Act(box, m, a).log, Slots(k)) == Some(StackAfter(Me(m), a, stack))
  {
    if a.Finish? {
      hide Act, CanAct, SystemOk, Refines, Replay, Apply, Slots;
      CallerEnds(box, m, stack, k);
      ReplayOne(m.log, OpOf(Me(m)), Slots(k));
    } else {
      SameLog(box, m, a);
    }
  }

  /** The history is a history of the stack, and the box holds what that history leaves on it. */
  ghost predicate Follows(m: System, k: nat)
    requires 1 <= k
  {
    && BufferOk(m.buffer)
    && Replay(m.log, Slots(k)).Some?
    && Refines(m, Replay(m.log, Slots(k)).value, k)
  }

  lemma FreshRefines(box: Box, m: System, k: nat)
    requires Fresh(box, m) && 1 <= k
    ensures Follows(m, k)
  {
    assert Flat([]) == Held(m.buffer) && forall i: Slot :: !Inside(m, i);
    hide Inv, Inside, Held;
  }

  lemma OneMore(box: Box, m: System, a: Action, k: nat)
    requires SystemOk(box, m) && CanAct(box, m, a) && Orderly(m, a, k) && Divides(k)
    requires Follows(m, k)
    ensures Follows(Act(box, m, a), k)
  {
    var stack := Replay(m.log, Slots(k)).value;
    ActRefines(box, m, a, stack, k);
    LogFollows(box, m, a, stack, k);
    hide Act, Refines, Replay, StackAfter;
  }

  lemma {:induction false} RunFollows(box: Box, m: System, run: seq<Action>, k: nat)
    requires Fresh(box, m) && CanRun(box, m, run) && Divides(k) && OrderlyRun(box, m, run, k)
    ensures Follows(After(box, m, run), k)
  {
    if run == [] {
      FreshRefines(box, m, k);
    } else {
      var earlier, last := run[..|run| - 1], run[|run| - 1];
      RunFollows(box, m, earlier, k);
      RunKeepsSystem(box, m, earlier);
      var t := After(box, m, earlier);
      assert CanAct(box, t, last) && Orderly(t, last, k);
      assert After(box, m, run) == Act(box, t, last);
      hide *;
      OneMore(box, t, last, k);
    }
  }

  /** The stack the history leaves is what the buffer holds, whenever nobody is inside. */
  ghost predicate IsStackOf(m: System, k: nat)
    requires 1 <= k
  {
    && BufferOk(m.buffer)
    && Replay(m.log, Slots(k)).Some?
    && ((forall i: Slot :: !Inside(m, i)) ==> Held(m.buffer) == Flat(Replay(m.log, Slots(k)).value))
  }

  /** Over every run the history of the transfers is a history of the bounded stack: a message is pushed only if it
      fits, and a receiver gets, after reversal, the message on top. When nobody is inside, the buffer holds the
      messages on the stack, one after the other. */
  lemma MailboxIsAStack(box: Box, m: System, run: seq<Action>, k: nat)
    requires Fresh(box, m) && CanRun(box, m, run) && Divides(k) && OrderlyRun(box, m, run, k)
    ensures IsStackOf(After(box, m, run), k)
  {
    RunFollows(box, m, run, k);
    var t := After(box, m, run);
    hide CanRun, OrderlyRun, After, Fresh, Replay, Flat, Inside;
    assert IsStackOf(t, k);
  }
}
