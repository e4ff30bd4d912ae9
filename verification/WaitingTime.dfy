/** Exact waiting times. While nobody is woken and nobody gives up the processor before its tick, the number of ticks
    until a ready process runs is a closed form of the queue lengths, and after finitely many ticks the processes take
    turns. */
module WaitingTime {
  import opened Basics
  import opened KernelModel
  import opened Placement
  import opened KernelSteps
  import opened KernelInvariant
  import opened Runs

  function Q(s: State, p: int): seq<Slot> {
    Items(s, ReadyQ(p))
  }

  predicate AtTop(s: State) {
    s.pcb[s.current].priority == 1
  }

  function Top(s: State): nat {
    if AtTop(s) then 1 else 0
  }

  ghost predicate Quiet(s: State) {
    forall i | i in Items(s, SleepQ) :: !Due(s, i)
  }

  /** The queue a demoted process joins. */
  function Rejoined(s: State, p: int): seq<Slot> {
    Q(s, p) + if Demoted(s.pcb[s.current].priority) == p then [s.current] else []
  }

  /** One quiet tick: the current process goes to the end of the next lower queue, and the first of the highest
      non-empty queue runs. */
  ghost predicate Ticked(s: State, t: State) {
    var from := if Q(s, 1) != [] then 1 else if Rejoined(s, 2) != [] then 2 else 3;
    && Rejoined(s, from) != []
    && t.current == Rejoined(s, from)[0] && t.pcb[t.current].priority == from
    && forall p | 1 <= p <= 3 :: Q(t, p) == if p == from then Rejoined(s, p)[1..] else Rejoined(s, p)
  }

  lemma {:induction false} NobodyDue(s: State, sleepers: seq<Slot>)
    requires forall i | i in sleepers :: !Due(s, i)
    ensures WakeDue(s, sleepers) == s
    decreases |sleepers|
  {
    if sleepers == [] {
    } else {
      NobodyDue(s, sleepers[1..]);
    }
  }

  lemma QuietBefore(s: State)
    requires Inv(s) && Quiet(s)
    ensures BeforeDispatch(s) == Requeue(Demote(Yield(s)))
    ensures AllPlaced(BeforeDispatch(s))
    ensures forall p | 1 <= p <= 3 :: Q(BeforeDispatch(s), p) == Rejoined(s, p)
  {
    YieldScheduling(s);
    assert Items(Yield(s), SleepQ) == Items(s, SleepQ) && forall i: Slot :: Due(Yield(s), i) == Due(s, i);
    NobodyDue(Yield(s), Items(Yield(s), SleepQ));
    RequeuePlaces(Yield(s));
  }

  lemma HeadPriority(s: State, p: int)
    requires AllPlaced(s) && Q(s, p) != []
    ensures s.pcb[Q(s, p)[0]].priority == p
  {
    assert QueueOk(s, ReadyQ(p)) && Q(s, p)[0] in Q(s, p);
  }

  lemma HeadRuns(u: State, from: int)
    requires PickQueue(u) == ReadyQ(from) && Q(u, from) != []
    ensures var t := Dispatch(u);
      && t.current == Q(u, from)[0] && t.pcb[t.current].priority == u.pcb[t.current].priority
      && forall p :: Q(t, p) == if p == from then Q(u, p)[1..] else Q(u, p)
  {
  }

  lemma QuietDispatch(s: State, u: State)
    requires AllPlaced(u) && Items(u, PickQueue(u)) != []
    requires forall p | 1 <= p <= 3 :: Q(u, p) == Rejoined(s, p)
    requires 1 <= s.pcb[s.current].priority
    ensures Ticked(s, Dispatch(u))
  {
    var from := if Q(s, 1) != [] then 1 else if Rejoined(s, 2) != [] then 2 else 3;
    assert Rejoined(s, 1) == Q(s, 1);
    assert PickQueue(u) == ReadyQ(from);
    HeadPriority(u, from);
    HeadRuns(u, from);
    hide AllPlaced, Dispatch, PickQueue, Rejoined;
  }

  lemma QuietTick(s: State)
    requires Inv(s) && Quiet(s) && Enabled(s, Tick)
    ensures Possible(s, Tick) && Ticked(s, Step(s, Tick)) && Inv(Step(s, Tick))
  {
    StepKeepsInv(s, Tick);
    QuietBefore(s);
    QuietDispatch(s, BeforeDispatch(s));
  }

  // ---------- how long a process waits ----------

  /** The tick at which the process at index k of ready queue p runs. */
  function Wait(s: State, p: int, k: nat): nat
    requires 1 <= p <= 3
  {
    if p == 1 then k + 1
    else if p == 2 then |Q(s, 1)| + k + 1
    else 2 * |Q(s, 1)| + |Q(s, 2)| + Top(s) + k + 1
  }

  /** Each tick brings it exactly one tick nearer. */
  lemma TickNearer(s: State, t: State, p: int, k: nat) returns (k': nat)
    requires Ticked(s, t) && 1 <= s.pcb[s.current].priority <= 3
    requires 1 <= p <= 3 && k < |Q(s, p)|
    ensures Wait(s, p, k) == 1 ==> t.current == Q(s, p)[k]
    ensures Wait(s, p, k) > 1 ==> k' < |Q(t, p)| && Q(t, p)[k'] == Q(s, p)[k] && Wait(t, p, k') == Wait(s, p, k) - 1
  {
    var from := if Q(s, 1) != [] then 1 else if Rejoined(s, 2) != [] then 2 else 3;
    k' := if p == from && k > 0 then k - 1 else k;
    assert Rejoined(s, p)[k] == Q(s, p)[k];
  }

  function NumTicks(run: seq<Event>): nat {
    if run == [] then 0 else NumTicks(run[..|run| - 1]) + if run[|run| - 1].Tick? then 1 else 0
  }

  /** A step that neither gives up the processor nor wakes anybody: the clock, taking a free mutex, releasing one nobody
      waits for, a signal nobody waits for. */
  predicate Silent(s: State, e: Event) {
    match e
    case Advance(_) => true
    case Acquire(l) => LockRange(s, l) && !s.locks[l].locked
    case Release(l) => Items(s, LockQ(l)) == []
    case Signal(c) => 0 <= c < |s.conds| && s.conds[c] <= 0
    case Broadcast(c) => 0 <= c < |s.conds| && s.conds[c] <= 0
    case _ => false
  }

  /** Nothing but timer ticks at which nobody is due, and silent steps. */
  ghost predicate QuietRun(s: State, run: seq<Event>)
    requires Legal(s, run)
  {
    run == [] ||
    (var earlier, e := run[..|run| - 1], run[|run| - 1];
     QuietRun(s, earlier) && (Silent(Exec(s, earlier), e) || (e.Tick? && Quiet(Exec(s, earlier)))))
  }

  /** Nobody's place in line changes in a silent step. */
  lemma SilentKeepsLine(s: State, e: Event)
    requires Possible(s, e) && Silent(s, e)
    ensures var t := Step(s, e);
      && t.current == s.current && Top(t) == Top(s)
      && forall p | 1 <= p <= 3 :: Q(t, p) == Q(s, p)
  {
  }

  /** How many ticks it takes until everybody is at the lowest priority. */
  function Unsettled(s: State): nat {
    2 * |Q(s, 1)| + |Q(s, 2)| + Top(s)
  }

  /** The running process and those behind it. */
  function Turns(s: State): seq<Slot> {
    [s.current] + Q(s, 3)
  }

  lemma SilentKeepsTime(s: State, e: Event, p: int, k: nat)
    requires Possible(s, e) && Silent(s, e) && 1 <= p <= 3
    ensures var t := Step(s, e);
      && Q(t, p) == Q(s, p) && Wait(t, p, k) == Wait(s, p, k)
      && Unsettled(t) == Unsettled(s) && Turns(t) == Turns(s)
  {
    hide Step;
    SilentKeepsLine(s, e);
  }

  lemma RunningPriority(s: State)
    requires Inv(s)
    ensures 1 <= s.pcb[s.current].priority <= 3
  {
  }

  /** Until its tick the process stays in its queue and comes one nearer with every tick; at its tick it runs. */
  lemma {:induction false} WaitingTime(s: State, run: seq<Event>, p: int, k: nat) returns (k': nat)
    requires Inv(s) && Legal(s, run) && QuietRun(s, run) && 1 <= p <= 3 && k < |Q(s, p)|
    ensures NumTicks(run) < Wait(s, p, k) ==>
      var t := Exec(s, run);
      k' < |Q(t, p)| && Q(t, p)[k'] == Q(s, p)[k] && Wait(t, p, k') == Wait(s, p, k) - NumTicks(run)
    ensures run != [] && run[|run| - 1].Tick? && NumTicks(run) == Wait(s, p, k) ==> Exec(s, run).current == Q(s, p)[k]
  {
    if run == [] {
      k' := k;
    } else {
      hide Inv, Step, Enabled, Possible, Wait;
      var earlier, e := run[..|run| - 1], run[|run| - 1];
      k' := WaitingTime(s, earlier, p, k);
      RunKeepsInv(s, earlier);
      var u := Exec(s, earlier);
      if NumTicks(earlier) < Wait(s, p, k) {
        if e.Tick? {
          RunningPriority(u);
          QuietTick(u);
          k' := TickNearer(u, Step(u, e), p, k');
        } else {
          SilentKeepsTime(u, e, p, k');
        }
      }
    }
  }

  // ---------- taking turns ----------

  lemma TickSettles(s: State, t: State)
    requires Ticked(s, t) && 1 <= s.pcb[s.current].priority <= 3
    ensures Unsettled(t) == if Unsettled(s) == 0 then 0 else Unsettled(s) - 1
  {
  }

  lemma {:induction false} SettlesExactly(s: State, run: seq<Event>)
    requires Inv(s) && Legal(s, run) && QuietRun(s, run)
    ensures Unsettled(Exec(s, run)) == if NumTicks(run) >= Unsettled(s) then 0 else Unsettled(s) - NumTicks(run)
  {
    if run == [] {
    } else {
      hide Inv, Step, Enabled, Possible, Unsettled;
      var earlier, e := run[..|run| - 1], run[|run| - 1];
      SettlesExactly(s, earlier);
      RunKeepsInv(s, earlier);
      var u := Exec(s, earlier);
      if e.Tick? {
        RunningPriority(u);
        QuietTick(u);
        TickSettles(u, Step(u, e));
      } else {
        SilentKeepsTime(u, e, 1, 0);
      }
    }
  }

  function Rotated(turns: seq<Slot>, n: nat): seq<Slot>
    requires n <= |turns|
  {
    turns[n..] + turns[..n]
  }

  lemma TickRotates(s: State, t: State)
    requires Ticked(s, t) && 1 <= s.pcb[s.current].priority <= 3 && Unsettled(s) == 0
    ensures Turns(t) == Rotated(Turns(s), 1) && Unsettled(t) == 0
  {
  }

  lemma RotateOn(turns: seq<Slot>, n: nat)
    requires n < |turns|
    ensures Rotated(Rotated(turns, n), 1) == Rotated(turns, if n + 1 == |turns| then 0 else n + 1)
  {
    assert turns[n..] == [turns[n]] + turns[n + 1..];
    assert turns[..n + 1] == turns[..n] + [turns[n]];
    if n + 1 == |turns| {
      assert Rotated(turns, 0) == turns == turns[..n + 1];
    }
  }

  /** How far n turns move a line of length m. */
  function Shift(n: nat, m: nat): (r: nat)
    requires 1 <= m
    ensures r < m && (n == 0 ==> r == 0)
  {
    n % m
  }

  lemma Remains(a: nat, q: nat, r: nat, m: nat)
    requires a == q * m + r && r < m
    ensures a % m == r
  {
    var p := a / m;
    assert a == p * m + a % m;
    if p < q {
      MulMono(m, p + 1, q);
    } else if q < p {
      MulMono(m, q + 1, p);
    }
  }

  lemma NextShift(n: nat, m: nat)
    requires 1 <= m
    ensures Shift(n + 1, m) == if Shift(n, m) + 1 == m then 0 else Shift(n, m) + 1
  {
    var q, r := n / m, n % m;
    assert n + 1 == q * m + (r + 1);
    if r + 1 == m {
      assert n + 1 == (q + 1) * m;
      Remains(n + 1, q + 1, 0, m);
    } else {
      Remains(n + 1, q, r + 1, m);
    }
  }

  /** Everybody is at the lowest priority, and the line is the given one, n turns on. */
  ghost predicate InTurn(s: State, line: seq<Slot>, n: nat)
    requires line != []
  {
    Unsettled(s) == 0 && Turns(s) == Rotated(line, Shift(n, |line|))
  }

  lemma TurnStep(s: State, e: Event, line: seq<Slot>, n: nat)
    requires Inv(s) && Enabled(s, e) && Possible(s, e) && line != [] && InTurn(s, line, n)
    requires Silent(s, e) || (e.Tick? && Quiet(s))
    ensures InTurn(Step(s, e), line, if e.Tick? then n + 1 else n)
  {
    hide Inv, Step, Enabled, Possible, Unsettled, Turns, Rotated, Shift;
    if e.Tick? {
      RunningPriority(s);
      QuietTick(s);
      TickRotates(s, Step(s, e));
      RotateOn(line, Shift(n, |line|));
      NextShift(n, |line|);
    } else {
      SilentKeepsTime(s, e, 1, 0);
    }
  }

  lemma TurnsStart(s: State)
    requires Unsettled(s) == 0
    ensures Turns(s) != [] && InTurn(s, Turns(s), 0)
  {
    assert Rotated(Turns(s), 0) == Turns(s);
  }

  /** Once settled, the processes take turns for ever: any number of ticks rotates the line by as many places. */
  lemma {:induction false} TakingTurns(s: State, run: seq<Event>)
    requires Inv(s) && Legal(s, run) && QuietRun(s, run) && Unsettled(s) == 0
    ensures InTurn(Exec(s, run), Turns(s), NumTicks(run))
  {
    hide InTurn, Inv, Step, Enabled, Possible, Unsettled, Turns, Silent, Quiet;
    TurnsStart(s);
    if run == [] {
    } else {
      var earlier, e := run[..|run| - 1], run[|run| - 1];
      TakingTurns(s, earlier);
      RunKeepsInv(s, earlier);
      TurnStep(Exec(s, earlier), e, Turns(s), NumTicks(earlier));
    }
  }

  /** After as many ticks as there are processes in the line, or any multiple of that, the same process runs again and
      the line is the same. */
  lemma RoundRobin(s: State, run: seq<Event>)
    requires Inv(s) && Legal(s, run) && QuietRun(s, run) && Unsettled(s) == 0 && Shift(NumTicks(run), |Turns(s)|) == 0
    ensures Exec(s, run).current == s.current && Q(Exec(s, run), 3) == Q(s, 3)
  {
    TakingTurns(s, run);
    var t := Exec(s, run);
    assert Turns(t) == Turns(s);
    assert Turns(t)[0] == Turns(s)[0] && Turns(t)[1..] == Turns(s)[1..];
  }
}
