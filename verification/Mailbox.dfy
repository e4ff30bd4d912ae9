/** The mailbox: a byte stack guarded by a mutex and two conditions of the kernel. Sending and receiving are programs
    that run on the kernel with interrupts on, so the mailbox is a machine over the kernel machine. Its actions are the
    single reads and writes of the shared fields and the system calls: between any two of them the timer may interrupt,
    any other process may run, and the process may be killed. */
module Mailbox {
  import opened KernelModel
  import opened KernelSteps
  import opened KernelInvariant
  import opened Strings

  const MAIL_CAPACITY := 100

  // ---------- the shared fields ----------

  datatype Buffer = Buffer(bytes: string, used: int)

  predicate BufferOk(b: Buffer) {
    |b.bytes| == MAIL_CAPACITY && 0 <= b.used <= MAIL_CAPACITY
  }

  /** The live bytes: sent and not yet received, oldest first. */
  function Held(b: Buffer): string
    requires BufferOk(b)
  {
    b.bytes[..b.used]
  }

  /** The byte at an index; what is read past the array is not part of the model. */
  function ReadAt(bytes: string, at: int): char {
    if 0 <= at < |bytes| then bytes[at] else NUL
  }

  /** A byte is written; a write past the array is not one to it. */
  function WriteAt(bytes: string, at: int, ch: char): string {
    if 0 <= at < |bytes| then bytes[at := ch] else bytes
  }

  // ---------- processes using it ----------

  /** Where in the loop a process is. It is looking at the fill level; it has found room, or a byte; it has found none;
      it moves a byte at an index it has loaded, and of the two writes this takes, to the byte's place and to the fill
      level, has done some; it owes a signal. The language leaves the order of the two writes open. `Stuck` is the
      endless loop for a fill level that is out of range. */
  datatype Stage =
    | Looking
    | Cleared
    | Barred
    | Moving(at: int, moved: bool, counted: bool)
    | Owing
    | Stuck

  /** What a process is doing in the mailbox. */
  datatype Local =
    | Idle
    | Sending(msg: string, done: nat, stage: Stage)
    | Receiving(want: int, got: string, stage: Stage)

  /** A finished transfer. */
  datatype Op = Pushed(msg: string) | Popped(msg: string)

  type Programs = p: seq<Local> | |p| == NUM_MAX_TASK
    ghost witness seq(NUM_MAX_TASK, _ => Idle)

  /** The kernel objects of the box. */
  datatype Box = Box(lock: int, notEmpty: int, notFull: int)

  /** The last six fields record what has happened; no action depends on them. `sent` are the bytes senders have
      written, `taken` those receivers have read. A process killed between its two writes leaves a byte written or read
      wrongly: `lost` are bytes that were sent and are neither live nor taken, `phantom` those that are live although
      never sent, or still after they were taken; `torn` counts such kills. */
  datatype System = System(
    kernel: State,
    buffer: Buffer,
    prog: Programs,
    sent: multiset<char>,
    taken: multiset<char>,
    lost: multiset<char>,
    phantom: multiset<char>,
    torn: nat,
    log: seq<Op>)

  datatype Action =
    | Other(event: Event)
    | Send(msg: string)
    | Receive(want: int)
    | Retry
    | Look
    | Load
    | Move
    | Count
    | Test
    | Notify
    | Await
    | Finish

  /** The mutex and the conditions of the box are used by its own code only. */
  predicate TouchesBox(box: Box, e: Event) {
    || ((e.Acquire? || e.Release? || e.CondWait?) && e.lock == box.lock)
    || ((e.CondWait? || e.Signal? || e.Broadcast?) && (e.cond == box.notEmpty || e.cond == box.notFull))
  }

  function Me(m: System): Local {
    m.prog[m.kernel.current]
  }

  /** The system call an action makes, if it makes one. */
  function Call(box: Box, m: System, a: Action): Option<Event> {
    match a
    case Other(e) => Some(e)
    case Send(_) => Some(Acquire(box.lock))
    case Receive(_) => Some(Acquire(box.lock))
    case Retry => Some(Acquire(box.lock))
    case Notify => Some(Signal(if Me(m).Sending? then box.notEmpty else box.notFull))
    case Await => Some(CondWait(box.lock, if Me(m).Sending? then box.notFull else box.notEmpty))
    case Finish => Some(Release(box.lock))
    case _ => None
  }

  /** Holding the mutex, between the calls of the loop. */
  predicate Inside(m: System, i: Slot) {
    !m.prog[i].Idle? && m.kernel.pcb[i].cont == User
  }

  /** The loop has bytes to move still. */
  predicate Wants(p: Local) {
    (p.Sending? && p.done < |p.msg|) || (p.Receiving? && |p.got| < p.want)
  }

  /** Whether the loop of a process has come to this action. The two writes may be done in either order. */
  predicate IsNext(p: Local, a: Action) {
    !p.Idle? &&
    match a
    case Look => p.stage.Looking? && Wants(p)
    case Finish => p.stage.Looking? && !Wants(p)
    case Load => p.stage.Cleared?
    case Await => p.stage.Barred?
    case Move => p.stage.Moving? && !p.stage.moved
    case Count => p.stage.Moving? && !p.stage.counted
    case Test => p.stage.Moving? && p.stage.moved && p.stage.counted
    case Notify => p.stage.Owing?
    case _ => false
  }

  predicate CanAct(box: Box, m: System, a: Action) {
    && (Call(box, m, a).Some? ==> Enabled(m.kernel, Call(box, m, a).value) && Possible(m.kernel, Call(box, m, a).value))
    && var cont := m.kernel.pcb[m.kernel.current].cont;
       match a
       case Other(e) => !TouchesBox(box, e) && (Me(m).Idle? || e.Tick? || e.Advance?)
       case Send(_) => Me(m).Idle? && cont == User
       case Receive(_) => Me(m).Idle? && cont == User
       case Retry => !Me(m).Idle? && cont == Acquiring(box.lock)
       case _ => Inside(m, m.kernel.current) && IsNext(Me(m), a)
  }

  // ---------- the loop ----------

  /** What looking at the fill level leads to. */
  function Found(p: Local, used: int): Stage {
    if p.Sending? then (if used < MAIL_CAPACITY then Cleared else if used == MAIL_CAPACITY then Barred else Stuck)
    else (if used > 0 then Cleared else if used == 0 then Barred else Stuck)
  }

  /** The byte that is moved. */
  function Carried(b: Buffer, p: Local): char
    requires !p.Idle? && p.stage.Moving?
  {
    if p.Sending? then (if p.done < |p.msg| then p.msg[p.done] else NUL) else ReadAt(b.bytes, p.stage.at)
  }

  function At(p: Local, stage: Stage): Local {
    match p
    case Idle => Idle
    case Sending(msg, done, _) => Sending(msg, done, stage)
    case Receiving(want, got, _) => Receiving(want, got, stage)
  }

  /** The index a process loads. */
  function Index(p: Local, used: int): int {
    if p.Sending? then used else used - 1
  }

  /** The fill level at which the other side may be waiting. */
  function Edge(p: Local): int {
    if p.Sending? then 1 else MAIL_CAPACITY - 1
  }

  function AfterMove(b: Buffer, p: Local): Local
    requires !p.Idle? && p.stage.Moving?
  {
    var stage := p.stage.(moved := true);
    if p.Sending? then Sending(p.msg, p.done + 1, stage) else Receiving(p.want, p.got + [Carried(b, p)], stage)
  }

  /** The process after an action of the loop. */
  function NextLocal(b: Buffer, p: Local, a: Action): Local
    requires IsNext(p, a)
  {
    if a.Look? then At(p, Found(p, b.used))
    else if a.Load? then At(p, Moving(Index(p, b.used), false, false))
    else if a.Move? then AfterMove(b, p)
    else if a.Count? then At(p, p.stage.(counted := true))
    else if a.Test? then At(p, if b.used == Edge(p) then Owing else Looking)
    else if a.Finish? then Idle
    else At(p, Looking)
  }

  /** The shared fields after an action of the loop: a sender writes the byte, a receiver only reads it, and both write
      the fill level from the index they loaded. */
  function NextBuffer(b: Buffer, p: Local, a: Action): Buffer
    requires IsNext(p, a)
  {
    match a
    case Move => if p.Sending? then b.(bytes := WriteAt(b.bytes, p.stage.at, Carried(b, p))) else b
    case Count => b.(used := if p.Sending? then p.stage.at + 1 else p.stage.at)
    case _ => b
  }

  function OpOf(p: Local): Op
    requires !p.Idle?
  {
    if p.Sending? then Pushed(p.msg) else Popped(Reverse(p.got))
  }

  function Become(m: System, p: Local): System {
    m.(prog := m.prog[m.kernel.current := p])
  }

  /** Exactly one of the two writes is done. */
  predicate Half(p: Local) {
    !p.Idle? && p.stage.Moving? && p.stage.moved != p.stage.counted
  }

  /** A receiver that has lowered the fill level but not read the byte loses it if it is killed, and so does a sender
      that has written the byte but not raised the fill level. */
  predicate Loses(p: Local) {
    Half(p) && p.stage.moved == p.Sending?
  }

  /** The other way round the byte stays live: a second time, or although the sender never wrote it. */
  predicate Leaves(p: Local) {
    Half(p) && p.stage.moved != p.Sending?
  }

  function Bag(yes: bool, ch: char): multiset<char> {
    if yes then multiset{ch} else multiset{}
  }

  /** The byte a half done transfer is about. */
  function AtStake(b: Buffer, p: Local): char {
    if Half(p) then ReadAt(b.bytes, p.stage.at) else NUL
  }

  /** A process is killed, whatever it is doing in the mailbox. */
  function Killed(m: System, i: Slot): System {
    var p := m.prog[i];
    m.(prog := m.prog[i := Idle],
       lost := m.lost + Bag(Loses(p), AtStake(m.buffer, p)),
       phantom := m.phantom + Bag(Leaves(p), AtStake(m.buffer, p)),
       torn := m.torn + if Half(p) then 1 else 0)
  }

  /** What an action does outside the kernel. */
  function Work(m: System, a: Action): System
    requires !a.Other? && !a.Send? && !a.Receive? && !a.Retry? ==> IsNext(Me(m), a)
  {
    var me := Me(m);
    match a
    case Other(e) => if e.Kill? && Scan(m.kernel, e.pid) < NUM_MAX_TASK then Killed(m, Scan(m.kernel, e.pid)) else m
    case Send(msg) => Become(m, Sending(msg, 0, Looking))
    case Receive(want) => Become(m, Receiving(want, [], Looking))
    case Retry => m
    case Finish => Become(m, Idle).(log := m.log + [OpOf(me)])
    case Move =>
      Become(m, NextLocal(m.buffer, me, a))
      .(buffer := NextBuffer(m.buffer, me, a),
        sent := m.sent + Bag(me.Sending?, Carried(m.buffer, me)),
        taken := m.taken + Bag(me.Receiving?, Carried(m.buffer, me)))
    case _ => Become(m, NextLocal(m.buffer, me, a)).(buffer := NextBuffer(m.buffer, me, a))
  }

  function Act(box: Box, m: System, a: Action): System
    requires CanAct(box, m, a)
  {
    if Call(box, m, a).Some? then Work(m, a).(kernel := Step(m.kernel, Call(box, m, a).value)) else Work(m, a)
  }

  // ---------- the invariant ----------

  predicate HasBox(box: Box, s: State) {
    LockRange(s, box.lock) && 0 <= box.notEmpty < |s.conds| && 0 <= box.notFull < |s.conds|
  }

  predicate ProgressOk(p: Local) {
    && (p.Sending? ==> p.done <= |p.msg|)
    && (p.Receiving? ==> |p.got| <= if p.want < 0 then 0 else p.want)
    && (!p.Idle? && (p.stage.Cleared? || p.stage.Barred? || (p.stage.Moving? && !p.stage.moved)) ==> Wants(p))
  }

  /** What the process has found out about the fill level, or loaded from it, is still so. */
  predicate StageOk(b: Buffer, p: Local)
    requires !p.Idle?
  {
    match p.stage
    case Cleared => if p.Sending? then b.used < MAIL_CAPACITY else 0 < b.used
    case Barred => b.used == if p.Sending? then MAIL_CAPACITY else 0
    case Moving(at, moved, counted) => 0 <= at < MAIL_CAPACITY && b.used == if counted == p.Sending? then at + 1 else at
    case Stuck => false
    case _ => true
  }

  /** A process in the mailbox is alive; it holds the mutex and what it knows of the fill level is true, or it is on its
      way to the mutex and knows nothing. */
  predicate UserOk(box: Box, m: System, i: Slot) {
    !m.prog[i].Idle? ==>
      && 2 <= i && Alive(m.kernel, i) && ProgressOk(m.prog[i])
      && if m.kernel.pcb[i].cont == User then Owns(m.kernel, i, box.lock) && StageOk(m.buffer, m.prog[i])
         else m.kernel.pcb[i].cont == Acquiring(box.lock) && m.prog[i].stage == Looking
  }

  /** The bytes in the box as the process inside sees them: the byte it is moving counts as soon as it is moved. */
  function Content(b: Buffer, p: Local): string
    requires BufferOk(b)
  {
    if p.Idle? || !p.stage.Moving? || !(0 <= p.stage.at < MAIL_CAPACITY) then Held(b)
    else b.bytes[..if p.stage.moved == p.Sending? then p.stage.at + 1 else p.stage.at]
  }

  predicate Balanced(m: System, content: string) {
    m.sent + m.phantom == m.taken + multiset(content) + m.lost
  }

  /** Every byte is accounted for: while a process is inside, with the byte it is moving; else by the live bytes. */
  ghost predicate Accounted(m: System)
    requires BufferOk(m.buffer)
  {
    && (forall i: Slot | Inside(m, i) :: Balanced(m, Content(m.buffer, m.prog[i])))
    && ((forall i: Slot :: !Inside(m, i)) ==> Balanced(m, Held(m.buffer)))
    && |m.lost| + |m.phantom| == m.torn
  }

  ghost predicate UsersOk(box: Box, m: System) {
    && Inv(m.kernel) && HasBox(box, m.kernel) && BufferOk(m.buffer)
    && forall i: Slot :: UserOk(box, m, i)
  }

  ghost predicate SystemOk(box: Box, m: System) {
    UsersOk(box, m) && Accounted(m)
  }

  // ---------- runs ----------

  ghost predicate CanRun(box: Box, m: System, run: seq<Action>)
    decreases |run|, 0
  {
    run == [] ||
    var earlier := run[..|run| - 1];
    CanRun(box, m, earlier) && CanAct(box, After(box, m, earlier), run[|run| - 1])
  }

  ghost function After(box: Box, m: System, run: seq<Action>): System
    requires CanRun(box, m, run)
    decreases |run|, 1
  {
    if run == [] then m else Act(box, After(box, m, run[..|run| - 1]), run[|run| - 1])
  }

  /** An empty box nobody uses, on a kernel in a good state. */
  ghost predicate Fresh(box: Box, m: System) {
    && Inv(m.kernel) && HasBox(box, m.kernel)
    && BufferOk(m.buffer) && m.buffer.used == 0
    && (forall i: Slot :: m.prog[i].Idle?)
    && m.sent == m.taken == m.lost == m.phantom == multiset{} && m.torn == 0 && m.log == []
  }
}
