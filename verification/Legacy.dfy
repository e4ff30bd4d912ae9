/** The exact effect of a death, stated for the state just before the final scheduler call. */
module Legacy {
  import opened Basics
  import opened KernelModel
  import opened Placement
  import opened KernelSteps
  import opened KernelInvariant
  import opened Preserve
  import opened Death

  /** Those who wait for the mutexes listed from place j on, mutex by mutex. */
  function LockHeirs(s: State, owned: Owned, j: nat): seq<Slot>
    requires j <= MAX_MUTEX_OWN
    decreases MAX_MUTEX_OWN - j
  {
    if j == MAX_MUTEX_OWN then []
    else (if owned[j] == None then [] else Items(s, LockQ(owned[j].value))) + LockHeirs(s, owned, j + 1)
  }

  predicate ListedFrom(owned: Owned, j: nat, l: int)
    requires j <= MAX_MUTEX_OWN
  {
    Some(l) in owned[j..]
  }

  lemma {:induction false} LockHeirsFrame(s: State, t: State, owned: Owned, j: nat)
    requires j <= MAX_MUTEX_OWN && forall l | ListedFrom(owned, j, l) :: Items(t, LockQ(l)) == Items(s, LockQ(l))
    ensures LockHeirs(t, owned, j) == LockHeirs(s, owned, j)
    decreases MAX_MUTEX_OWN - j
  {
    if j == MAX_MUTEX_OWN {
    } else {
      assert owned[j..] == [owned[j]] + owned[j + 1..];
      forall l | ListedFrom(owned, j + 1, l)
        ensures Items(t, LockQ(l)) == Items(s, LockQ(l))
      {
        assert ListedFrom(owned, j, l);
      }
      if owned[j].Some? {
        assert ListedFrom(owned, j, owned[j].value);
      }
      LockHeirsFrame(s, t, owned, j + 1);
    }
  }

  lemma {:induction false} LockHeirsMembers(s: State, owned: Owned, j: nat, i: Slot)
    requires j <= MAX_MUTEX_OWN
    ensures i in LockHeirs(s, owned, j) <==> exists l :: ListedFrom(owned, j, l) && i in Items(s, LockQ(l))
    decreases MAX_MUTEX_OWN - j
  {
    if j == MAX_MUTEX_OWN {
    } else {
      LockHeirsMembers(s, owned, j + 1, i);
      assert owned[j..] == [owned[j]] + owned[j + 1..];
      forall l
        ensures ListedFrom(owned, j, l) <==> owned[j] == Some(l) || ListedFrom(owned, j + 1, l)
      {
      }
    }
  }

  /** What freeing the mutexes of slot i listed from place j on does. */
  ghost predicate Freed(s: State, t: State, i: Slot, j: nat)
    requires j <= MAX_MUTEX_OWN
  {
    var owned := s.pcb[i].owned;
    && t == s.(pcb := t.pcb, queue := t.queue, locks := t.locks)
    && |t.locks| == |s.locks|
    && (forall l | LockRange(s, l) :: t.locks[l] == if ListedFrom(owned, j, l) then Lock(false, -1) else s.locks[l])
    && Items(t, ReadyQ(1)) == Items(s, ReadyQ(1)) + LockHeirs(s, owned, j)
    && (forall q | q != ReadyQ(1) ::
      Items(t, q) == if q.LockQ? && ListedFrom(owned, j, q.lock) then [] else Items(s, q))
    && t.pcb[i] == s.pcb[i].(owned := NOTHING_OWNED)
    && (forall k: Slot | k != i ::
      t.pcb[k] == if k in LockHeirs(s, owned, j) then Woken(s.pcb[k]) else s.pcb[k])
  }

  /** One mutex of slot i, at place j, is freed. */
  ghost predicate OneFreed(s: State, u: State, i: Slot, j: nat, l: int)
    requires j < MAX_MUTEX_OWN
  {
    && s.pcb[i].owned[j] == Some(l) && LockRange(s, l)
    && u == s.(pcb := u.pcb, queue := u.queue, locks := s.locks[l := Lock(false, -1)])
    && Items(u, ReadyQ(1)) == Items(s, ReadyQ(1)) + Items(s, LockQ(l))
    && Items(u, LockQ(l)) == []
    && (forall q | q != ReadyQ(1) && q != LockQ(l) :: Items(u, q) == Items(s, q))
    && u.pcb[i] == s.pcb[i].(owned := s.pcb[i].owned[j := None])
    && (forall k: Slot | k != i :: u.pcb[k] == if k in Items(s, LockQ(l)) then Woken(s.pcb[k]) else s.pcb[k])
  }

  lemma ReleasedOne(s: State, i: Slot, j: nat, l: int)
    requires Dying(s, i) && j < MAX_MUTEX_OWN && s.pcb[i].owned[j] == Some(l)
    ensures OneFreed(s, ReleaseLock(s, l), i, j, l)
  {
    FreeOne(s, i, j);
    ReleasedFrees(s, ReleaseLock(s, l), l);
  }

  lemma NoSecondEntry(owned: Owned, j: nat, l: int)
    requires j < MAX_MUTEX_OWN && owned[j] == Some(l)
    requires forall m, k | 0 <= m < k < MAX_MUTEX_OWN && owned[m] == owned[k] :: owned[m] == None
    ensures !ListedFrom(owned, j + 1, l)
    ensures forall m :: ListedFrom(owned, j, m) <==> m == l || ListedFrom(owned, j + 1, m)
    ensures owned[j := None][j + 1..] == owned[j + 1..]
  {
    assert owned[j..] == [owned[j]] + owned[j + 1..];
  }

  lemma {:induction false} LockHeirsTail(s: State, a: Owned, b: Owned, j: nat)
    requires j <= MAX_MUTEX_OWN && a[j..] == b[j..]
    ensures LockHeirs(s, a, j) == LockHeirs(s, b, j)
    decreases MAX_MUTEX_OWN - j
  {
    if j == MAX_MUTEX_OWN {
    } else {
      assert a[j] == a[j..][0] == b[j..][0] == b[j];
      assert a[j + 1..] == a[j..][1..] && b[j + 1..] == b[j..][1..];
      LockHeirsTail(s, a, b, j + 1);
    }
  }

  /** After the mutex at place j, the others are still there with their waiters. */
  lemma OneFreedRest(s: State, u: State, i: Slot, j: nat, l: int)
    requires j < MAX_MUTEX_OWN && OneFreed(s, u, i, j, l) && OwnerOk(s, i, i)
    ensures u.pcb[i].owned[j + 1..] == s.pcb[i].owned[j + 1..]
    ensures LockHeirs(u, u.pcb[i].owned, j + 1) == LockHeirs(s, s.pcb[i].owned, j + 1)
    ensures LockHeirs(s, s.pcb[i].owned, j) == Items(s, LockQ(l)) + LockHeirs(u, u.pcb[i].owned, j + 1)
  {
    var owned := s.pcb[i].owned;
    NoSecondEntry(owned, j, l);
    LockHeirsFrame(s, u, owned, j + 1);
    LockHeirsTail(u, owned, u.pcb[i].owned, j + 1);
  }

  lemma SameTail(a: Owned, b: Owned, j: nat)
    requires j <= MAX_MUTEX_OWN && a[j..] == b[j..]
    ensures forall l :: ListedFrom(a, j, l) <==> ListedFrom(b, j, l)
  {
  }

  /** Freeing one mutex and then the rest: the queues. */
  lemma FreedStepQueues(s: State, u: State, t: State, i: Slot, j: nat, l: int)
    requires j < MAX_MUTEX_OWN && OneFreed(s, u, i, j, l) && OwnerOk(s, i, i) && Freed(u, t, i, j + 1)
    ensures Items(t, ReadyQ(1)) == Items(s, ReadyQ(1)) + LockHeirs(s, s.pcb[i].owned, j)
    ensures forall q | q != ReadyQ(1) ::
      Items(t, q) == if q.LockQ? && ListedFrom(s.pcb[i].owned, j, q.lock) then [] else Items(s, q)
  {
    NoSecondEntry(s.pcb[i].owned, j, l);
    OneFreedRest(s, u, i, j, l);
    SameTail(u.pcb[i].owned, s.pcb[i].owned, j + 1);
    ConcatAssoc(Items(s, ReadyQ(1)), Items(s, LockQ(l)), LockHeirs(u, u.pcb[i].owned, j + 1));
    hide OwnerOk, Items, ListedFrom, LockHeirs;
  }

  /** Freeing one mutex and then the rest: the mutexes and the PCBs. */
  lemma FreedStepRest(s: State, u: State, t: State, i: Slot, j: nat, l: int)
    requires j < MAX_MUTEX_OWN && OneFreed(s, u, i, j, l) && OwnerOk(s, i, i) && Freed(u, t, i, j + 1)
    ensures |t.locks| == |s.locks|
    ensures forall m | LockRange(s, m) ::
      t.locks[m] == if ListedFrom(s.pcb[i].owned, j, m) then Lock(false, -1) else s.locks[m]
    ensures t.pcb[i] == s.pcb[i].(owned := NOTHING_OWNED)
    ensures forall k: Slot | k != i ::
      t.pcb[k] == if k in LockHeirs(s, s.pcb[i].owned, j) then Woken(s.pcb[k]) else s.pcb[k]
  {
    NoSecondEntry(s.pcb[i].owned, j, l);
    OneFreedRest(s, u, i, j, l);
    SameTail(u.pcb[i].owned, s.pcb[i].owned, j + 1);
    hide OwnerOk, Items, ListedFrom, LockHeirs;
  }

  lemma FreedStep(s: State, u: State, t: State, i: Slot, j: nat, l: int)
    requires j < MAX_MUTEX_OWN && OneFreed(s, u, i, j, l) && OwnerOk(s, i, i) && Freed(u, t, i, j + 1)
    ensures Freed(s, t, i, j)
  {
    FreedStepQueues(s, u, t, i, j, l);
    FreedStepRest(s, u, t, i, j, l);
    hide OwnerOk, Items, ListedFrom, LockHeirs, Woken;
  }

  lemma SkipEntry(s: State, owned: Owned, j: nat)
    requires j < MAX_MUTEX_OWN && owned[j] == None
    ensures forall m :: ListedFrom(owned, j, m) <==> ListedFrom(owned, j + 1, m)
    ensures LockHeirs(s, owned, j) == LockHeirs(s, owned, j + 1)
  {
    assert owned[j..] == [owned[j]] + owned[j + 1..];
    assert LockHeirs(s, owned, j) == [] + LockHeirs(s, owned, j + 1);
  }

  lemma FreedSkip(s: State, t: State, i: Slot, j: nat)
    requires j < MAX_MUTEX_OWN && s.pcb[i].owned[j] == None && Freed(s, t, i, j + 1)
    ensures Freed(s, t, i, j)
  {
    SkipEntry(s, s.pcb[i].owned, j);
    hide ListedFrom, LockHeirs;
  }

  lemma NothingToFree(s: State, i: Slot)
    requires forall k | 0 <= k < MAX_MUTEX_OWN :: s.pcb[i].owned[k] == None
    ensures Freed(s, s, i, MAX_MUTEX_OWN)
  {
    assert s.pcb[i].owned == NOTHING_OWNED;
  }

  lemma DyingOwner(s: State, i: Slot)
    requires Dying(s, i)
    ensures OwnerOk(s, i, i)
  {
  }

  lemma {:induction false} ReleaseOwnedEffect(s: State, i: Slot, j: nat)
    requires Dying(s, i) && j <= MAX_MUTEX_OWN && forall k | 0 <= k < j :: s.pcb[i].owned[k] == None
    ensures Freed(s, ReleaseOwned(s, i, j), i, j)
    decreases MAX_MUTEX_OWN - j
  {
    hide Dying, Freed, OneFreed, ReleaseLock;
    if j == MAX_MUTEX_OWN {
      NothingToFree(s, i);
    } else if s.pcb[i].owned[j] == None {
      ReleaseOwnedEffect(s, i, j + 1);
      FreedSkip(s, ReleaseOwned(s, i, j), i, j);
    } else {
      var l := s.pcb[i].owned[j].value;
      FreeOne(s, i, j);
      ReleasedOne(s, i, j, l);
      DyingOwner(s, i);
      ReleaseOwnedEffect(ReleaseLock(s, l), i, j + 1);
      FreedStep(s, ReleaseLock(s, l), ReleaseOwned(s, i, j), i, j, l);
    }
  }

  // ---------- the theorem ----------

  function HeldHeirs(s: State, i: Slot, j: nat): seq<Slot>
    requires j <= MAX_MUTEX_OWN
    decreases MAX_MUTEX_OWN - j
  {
    if j == MAX_MUTEX_OWN then []
    else
      (if s.pcb[i].owned[j] == None then [] else Del(Items(s, LockQ(s.pcb[i].owned[j].value)), i))
      + HeldHeirs(s, i, j + 1)
  }

  /** Everybody a death wakes, in the order they join the first ready queue: those who wait for the process, then
      those who wait for its mutexes in the order of its list. The process itself is not among them. */
  function Heirs(s: State, i: Slot): seq<Slot> {
    Del(Items(s, WaitQ(i)), i) + HeldHeirs(s, i, 0)
  }

  lemma {:induction false} HeldHeirsAre(s: State, x: State, i: Slot, j: nat)
    requires j <= MAX_MUTEX_OWN && forall l :: Items(x, LockQ(l)) == Del(Items(s, LockQ(l)), i)
    ensures HeldHeirs(s, i, j) == LockHeirs(x, s.pcb[i].owned, j)
    decreases MAX_MUTEX_OWN - j
  {
    if j == MAX_MUTEX_OWN {
    } else {
      HeldHeirsAre(s, x, i, j + 1);
    }
  }

  predicate LockAfter(s: State, t: State, i: Slot, l: int)
    requires LockRange(s, l) && |t.locks| == |s.locks|
  {
    t.locks[l] == if Owns(s, i, l) then Lock(false, -1) else s.locks[l]
  }

  predicate QueueAfter(s: State, t: State, i: Slot, q: QueueId) {
    Items(t, q) ==
    if q == ReadyQ(1) then Del(Items(s, q), i) + Heirs(s, i)
    else if q == WaitQ(i) || (q.LockQ? && Owns(s, i, q.lock)) then []
    else Del(Items(s, q), i)
  }

  predicate ProcAfter(s: State, t: State, i: Slot, k: Slot) {
    t.pcb[k] ==
    if k == i then s.pcb[k].(status := NotExist, on := None, owned := NOTHING_OWNED)
    else if k in Heirs(s, i) then Woken(s.pcb[k]).(waitingPid := -1)
    else s.pcb[k]
  }

  /** The state a death leaves: every mutex, every queue and every PCB, and nothing else is different. */
  ghost predicate Deceased(s: State, t: State, i: Slot) {
    && t == s.(pcb := t.pcb, queue := t.queue, locks := t.locks)
    && |t.locks| == |s.locks|
    && (forall l | LockRange(s, l) :: LockAfter(s, t, i, l))
    && (forall q :: QueueAfter(s, t, i, q))
    && (forall k: Slot :: ProcAfter(s, t, i, k))
  }

  lemma HeirsWait(s: State, i: Slot, k: Slot)
    requires Inv(s) && k in HeldHeirs(s, i, 0)
    ensures s.pcb[k].waitingPid == -1 && k !in Items(s, WaitQ(i)) && k != i
  {
    var x := s.(queue := map q | q in s.queue :: Del(s.queue[q], i));
    HeldHeirsAre(s, x, i, 0);
    LockHeirsMembers(x, s.pcb[i].owned, 0, k);
    var l :| ListedFrom(s.pcb[i].owned, 0, l) && k in Items(x, LockQ(l));
    DelMembers(s, LockQ(l), i);
    assert WaitersOk(s, 0, LockQ(l)) && QueueOk(s, LockQ(l)) && QueueOk(s, WaitQ(i));
    assert WaiterOk(s, 0, LockQ(l), k);
  }

  /** From the living kernel to the moment only the mutexes remain to be freed. */
  ghost predicate Awaited(s: State, x: State, i: Slot) {
    && x == s.(pcb := x.pcb, queue := x.queue)
    && Items(x, ReadyQ(1)) == Del(Items(s, ReadyQ(1)), i) + Del(Items(s, WaitQ(i)), i)
    && (forall q | q != ReadyQ(1) :: Items(x, q) == if q == WaitQ(i) then [] else Del(Items(s, q), i))
    && x.pcb[i] == s.pcb[i].(status := NotExist, on := None)
    && forall k: Slot | k != i ::
      x.pcb[k] == if k in Del(Items(s, WaitQ(i)), i) then Woken(s.pcb[k]).(waitingPid := -1) else s.pcb[k]
  }

  lemma AwaitedEffect(s: State, w: State, x: State, i: Slot)
    requires Inv(s) && Buried(s, w, i) && Drained(w, x, WaitQ(i))
    ensures Awaited(s, x, i)
  {
    DelMembers(s, WaitQ(i), i);
  }

  lemma AwaitedQueue(s: State, x: State, i: Slot, q: QueueId)
    requires Awaited(s, x, i)
    ensures Items(x, q) ==
      if q == ReadyQ(1) then Del(Items(s, q), i) + Del(Items(s, WaitQ(i)), i)
      else if q == WaitQ(i) then []
      else Del(Items(s, q), i)
  {
    hide Items, Del;
  }

  lemma FreedQueue(x: State, t: State, i: Slot, q: QueueId)
    requires Freed(x, t, i, 0)
    ensures Items(t, q) ==
      if q == ReadyQ(1) then Items(x, q) + LockHeirs(x, x.pcb[i].owned, 0)
      else if q.LockQ? && ListedFrom(x.pcb[i].owned, 0, q.lock) then []
      else Items(x, q)
  {
    hide Items, LockHeirs, ListedFrom;
  }

  lemma EntryListed(owned: Owned, l: int)
    ensures ListedFrom(owned, 0, l) <==> Some(l) in owned
  {
  }

  lemma DeathQueue(s: State, x: State, t: State, i: Slot, q: QueueId)
    requires Awaited(s, x, i) && Freed(x, t, i, 0) && x.pcb[i].owned[0..] == s.pcb[i].owned
    requires HeldHeirs(s, i, 0) == LockHeirs(x, s.pcb[i].owned, 0)
    ensures QueueAfter(s, t, i, q)
  {
    hide Awaited, Freed, LockHeirs, HeldHeirs, Items, Del, ListedFrom;
    assert x.pcb[i].owned == s.pcb[i].owned;
    AwaitedQueue(s, x, i, q);
    FreedQueue(x, t, i, q);
    if q == ReadyQ(1) {
      ConcatAssoc(Del(Items(s, q), i), Del(Items(s, WaitQ(i)), i), HeldHeirs(s, i, 0));
    } else if q.LockQ? {
      EntryListed(s.pcb[i].owned, q.lock);
    }
  }

  lemma DeathProc(s: State, x: State, t: State, i: Slot, k: Slot)
    requires Inv(s) && 2 <= i && Awaited(s, x, i) && Freed(x, t, i, 0)
    requires HeldHeirs(s, i, 0) == LockHeirs(x, s.pcb[i].owned, 0)
    ensures ProcAfter(s, t, i, k)
  {
    DelMembers(s, WaitQ(i), i);
    if k in HeldHeirs(s, i, 0) {
      HeirsWait(s, i, k);
    }
  }

  lemma DeathLock(s: State, x: State, t: State, i: Slot, l: int)
    requires Awaited(s, x, i) && Freed(x, t, i, 0) && x.pcb[i].owned[0..] == s.pcb[i].owned && LockRange(s, l)
    ensures LockAfter(s, t, i, l)
  {
    assert ListedFrom(x.pcb[i].owned, 0, l) <==> Owns(s, i, l);
  }

  lemma HeirsAgree(s: State, x: State, i: Slot)
    requires Awaited(s, x, i)
    ensures x.pcb[i].owned[0..] == s.pcb[i].owned
    ensures HeldHeirs(s, i, 0) == LockHeirs(x, s.pcb[i].owned, 0)
  {
    assert forall l :: Items(x, LockQ(l)) == Del(Items(s, LockQ(l)), i);
    HeldHeirsAre(s, x, i, 0);
  }

  lemma DeathParts(s: State, x: State, t: State, i: Slot)
    requires Inv(s) && 2 <= i && Awaited(s, x, i) && Freed(x, t, i, 0)
    ensures forall q :: QueueAfter(s, t, i, q)
    ensures forall k: Slot :: ProcAfter(s, t, i, k)
    ensures |t.locks| == |s.locks| && forall l | LockRange(s, l) :: LockAfter(s, t, i, l)
  {
    HeirsAgree(s, x, i);
    forall q
      ensures QueueAfter(s, t, i, q)
    {
      DeathQueue(s, x, t, i, q);
    }
    forall k: Slot
      ensures ProcAfter(s, t, i, k)
    {
      DeathProc(s, x, t, i, k);
    }
    forall l | LockRange(s, l)
      ensures LockAfter(s, t, i, l)
    {
      DeathLock(s, x, t, i, l);
    }
  }

  /** Kill and exit leave the victim in no queue and without mutexes; each mutex it held is free and nobody waits
      for it; everybody who waited for the victim or for one of those mutexes is ready at priority 1 at the end of the
      first ready queue, in order; everything else is as it was. */
  lemma DieEffect(s: State, i: Slot)
    requires Inv(s) && 2 <= i && Killable(s, i)
    ensures Deceased(s, Die(Unqueue(s, i), i), i)
  {
    var v := Bury(Unqueue(s, i), i);
    var w := ClearWaiting(v, Items(v, WaitQ(i)));
    var x := UnblockAll(w, WaitQ(i));
    BuriedEffect(s, i);
    WakeWaitersDying(s, w, i);
    ReleaseOwnedEffect(x, i, 0);
    AwaitedEffect(s, w, x, i);
    DeathParts(s, x, ReleaseOwned(x, i, 0), i);
  }

  lemma KillEffect(s: State, pid: int)
    requires Inv(s) && Enabled(s, Kill(pid))
    ensures Deceased(s, Before(s, Kill(pid)), Scan(s, pid))
  {
    DieEffect(s, Scan(s, pid));
  }

  lemma ExitEffect(s: State)
    requires Inv(s) && Enabled(s, Exit)
    ensures Deceased(s, Before(s, Exit), s.current)
  {
    DieEffect(s, s.current);
  }
}
