/** Ownership of a mutex over whole runs: first come, first served; every lock is accounted for;
    the priority ceiling; and what an unsafe release does. */
module MutexLaws {
  import opened KernelTypes
  import opened KernelState
  import opened Requests
  import opened Scheduler
  import opened ShapeProofs
  import opened MainLoop
  import opened Invariants
  import opened CalmHandlers
  import opened Mutexes
  import opened TameRuns
  import opened StepScope

  // ----- a mutex on its own

  function LockMut(m: Mut, c: Pid, pri: nat): Mut {
    if m.owner == 0 then m.(owner := c, ownerOrig := pri, highest := pri, lockCount := m.lockCount + 1)
    else if m.owner == c then m.(lockCount := m.lockCount + 1)
    else m.(waiters := m.waiters + [c], origs := m.origs + [pri], highest := Min(m.highest, pri))
  }

  function UnlockMut(m: Mut, c: Pid): Mut {
    if m.owner != c then m
    else if m.lockCount > 1 then m.(lockCount := m.lockCount - 1)
    else if m.waiters == [] then m.(lockCount := 0, owner := 0)
    else m.(owner := m.waiters[0], lockCount := 1, waiters := m.waiters[1..],
            ownerOrig := if m.origs == [] then 0 else m.origs[0],
            origs := if m.origs == [] then [] else m.origs[1..])
  }

  /** The only two requests that change mutex `id`. */
  function NextMut(s: KState, e: Event, id: nat): Mut
    requires 1 <= id <= |s.muts| && s.current in s.pd
  {
    if e.Call? && e.request == MutLock(id) then LockMut(s.muts[id - 1], s.current, s.pd[s.current].pri)
    else if e.Call? && e.request == MutUnlock(id) then UnlockMut(s.muts[id - 1], s.current)
    else s.muts[id - 1]
  }

  lemma LockIsLockMut(i: KState, id: nat, other: nat)
    requires i.current in i.pd && 1 <= id <= |i.muts| && 1 <= other <= |i.muts|
    ensures |Lock(i, other).muts| == |i.muts|
    ensures Lock(i, other).muts[id - 1] ==
      if other == id then LockMut(i.muts[id - 1], i.current, i.pd[i.current].pri) else i.muts[id - 1]
  {
  }

  lemma UnlockIsUnlockMut(i: KState, id: nat, other: nat)
    requires i.current in i.pd && ObjectShape(i) && 1 <= id <= |i.muts| && 1 <= other <= |i.muts|
    ensures |Unlock(i, other).muts| == |i.muts|
    ensures Unlock(i, other).muts[id - 1] ==
      if other == id then UnlockMut(i.muts[id - 1], i.current) else i.muts[id - 1]
  {
    hide SafeRelease, Without, AllReleased, Stays;
  }

  lemma HandleMut(i: KState, r: Request, anchor: nat, id: nat)
    requires i.current in i.pd && ObjectShape(i) && 1 <= id <= |i.muts|
    ensures id <= |Handle(i, r, anchor).muts|
    ensures Handle(i, r, anchor).muts[id - 1] == NextMut(i, Call(r, anchor, []), id)
  {
    hide LockMut, UnlockMut, Stays, SafeRelease, Without, HandOff, AllReleased;
    if r.MutLock? {
      if 1 <= r.id <= |i.muts| { LockIsLockMut(i, id, r.id); }
    } else if r.MutUnlock? {
      if 1 <= r.id <= |i.muts| { UnlockIsUnlockMut(i, id, r.id); }
    } else {
      HandleScope(i, r, anchor);
    }
  }

  lemma IssueNextMut(s: KState, e: Event, id: nat)
    requires e.Call? && s.current in s.pd && 1 <= id <= |s.muts|
    ensures var i := Issue(s, e.request);
      i.current in i.pd && i.muts == s.muts && NextMut(i, Call(e.request, e.anchor, []), id) == NextMut(s, e, id)
  {
    hide LockMut, UnlockMut;
  }

  lemma MutexStep(s: KState, e: Event, id: nat)
    requires Alive(s) && Step(s, e).Some? && 1 <= id <= |s.muts| && s.current in s.pd
    ensures id <= |Step(s, e).value.muts| && Step(s, e).value.muts[id - 1] == NextMut(s, e, id)
  {
    if e.Call? {
      IssueShape(s, e.request);
      IssueNextMut(s, e, id);
      StepObjects(s, e);
      hide NextMut, Handle, Issue, Step, ListShape;
      HandleMut(Issue(s, e.request), e.request, e.anchor, id);
    }
  }

  // ----- counting

  function LocksNow(e: Event, id: nat): int {
    if e.Call? && e.request == MutLock(id) then 1 else 0
  }

  function UnlocksNow(s: KState, e: Event, id: nat): int {
    if e.Call? && e.request == MutUnlock(id) && Owns(s, s.current, id) then 1 else 0
  }

  /** Lock requests minus owner's unlock requests in a run. */
  function Balance(s: KState, es: seq<Event>, id: nat): int
    requires Alive(s)
    decreases |es|
  {
    if es == [] then 0
    else
      LocksNow(es[0], id) - UnlocksNow(s, es[0], id)
      + if Step(s, es[0]).Some? then Balance(Step(s, es[0]).value, es[1..], id) else 0
  }

  function Outstanding(s: KState, id: nat): int
    requires 1 <= id <= |s.muts|
  {
    s.muts[id - 1].lockCount + |s.muts[id - 1].waiters|
  }

  lemma MutexEntry(s: KState, id: nat)
    requires Alive(s)
    ensures s.current in s.pd && s.current != 0
    ensures 1 <= id <= |s.muts| ==> MutShape(s.muts[id - 1], s.pd) && 0 !in s.muts[id - 1].waiters
  {
    assert s.current in s.order && 0 !in s.pd;
    if 1 <= id <= |s.muts| { assert MutShape(s.muts[id - 1], s.pd); }
  }

  lemma StepBalance(s: KState, e: Event, id: nat)
    requires Alive(s) && Step(s, e).Some? && 1 <= id <= |s.muts|
    ensures id <= |Step(s, e).value.muts|
    ensures Outstanding(Step(s, e).value, id) == Outstanding(s, id) + LocksNow(e, id) - UnlocksNow(s, e, id)
  {
    hide Alive, Step;
    MutexEntry(s, id);
    MutexStep(s, e, id);
  }

  /** In every run, timed or not: each lock request is still waiting, counted by the owner, or
      matched by an unlock of the then owner. */
  lemma {:induction false} LocksAreAccounted(s: KState, es: seq<Event>, id: nat)
    requires Alive(s) && 1 <= id <= |s.muts| && Exec(s, es).Some?
    ensures id <= |Exec(s, es).value.muts|
    ensures Outstanding(Exec(s, es).value, id) == Outstanding(s, id) + Balance(s, es, id)
    decreases |es|
  {
    if es != [] {
      StepBalance(s, es[0], id);
      LocksAreAccounted(Step(s, es[0]).value, es[1..], id);
    }
  }

  // ----- one tenure

  /** A lock or an unlock that the owner of a mutex made, or had made when it was queued. */
  datatype Turn = Turn(pid: Pid, lock: bool)

  function LocksIn(log: seq<Turn>): nat {
    if log == [] then 0 else LocksIn(log[..|log| - 1]) + if log[|log| - 1].lock then 1 else 0
  }

  function UnlocksIn(log: seq<Turn>): nat {
    if log == [] then 0 else UnlocksIn(log[..|log| - 1]) + if log[|log| - 1].lock then 0 else 1
  }

  function LockTurns(log: seq<Turn>, c: Pid): seq<Turn> {
    if log == [] || log[0].pid == c then log + [Turn(c, true)] else log
  }

  /** A tenure ends with as many unlocks as locks; the head of the queue begins the next with its lock. */
  function UnlockTurns(log: seq<Turn>, c: Pid, queue: seq<Pid>): seq<Turn> {
    if log == [] || log[0].pid != c then log
    else
      var turns := log + [Turn(c, false)];
      if LocksIn(turns) > UnlocksIn(turns) then turns
      else if queue == [] then []
      else [Turn(queue[0], true)]
  }

  /** The turns of the present tenure after one more event. */
  function TurnsNow(s: KState, e: Event, id: nat, log: seq<Turn>): seq<Turn> {
    if !(1 <= id <= |s.muts|) then log
    else if e.Call? && e.request == MutLock(id) then LockTurns(log, s.current)
    else if e.Call? && e.request == MutUnlock(id) then UnlockTurns(log, s.current, s.muts[id - 1].waiters)
    else log
  }

  function Turns(s: KState, es: seq<Event>, id: nat, log: seq<Turn>): seq<Turn>
    requires Alive(s)
    decreases |es|
  {
    if es == [] || Step(s, es[0]).None? then log
    else Turns(Step(s, es[0]).value, es[1..], id, TurnsNow(s, es[0], id, log))
  }

  /** All turns are the owner's, the count is its locks minus its unlocks, and a free mutex has none. */
  ghost predicate Tenure(m: Mut, log: seq<Turn>) {
    && (m.owner == 0 <==> log == [])
    && (forall t :: t in log ==> t.pid == m.owner)
    && m.lockCount == LocksIn(log) - UnlocksIn(log)
  }

  ghost predicate TenureAt(s: KState, id: nat, log: seq<Turn>) {
    if 1 <= id <= |s.muts| then Tenure(s.muts[id - 1], log) else log == []
  }

  lemma OneMoreTurn(log: seq<Turn>, t: Turn)
    ensures LocksIn(log + [t]) == LocksIn(log) + if t.lock then 1 else 0
    ensures UnlocksIn(log + [t]) == UnlocksIn(log) + if t.lock then 0 else 1
  {
    assert (log + [t])[..|log|] == log;
  }

  lemma FirstTurn(p: Pid)
    ensures LocksIn([Turn(p, true)]) == 1 && UnlocksIn([Turn(p, true)]) == 0
    ensures LocksIn([]) == UnlocksIn([]) == 0
  {
    OneMoreTurn([], Turn(p, true));
    assert [] + [Turn(p, true)] == [Turn(p, true)];
  }

  lemma LockTenure(m: Mut, c: Pid, pri: nat, log: seq<Turn>)
    requires c != 0 && Tenure(m, log)
    ensures Tenure(LockMut(m, c, pri), LockTurns(log, c))
  {
    hide LocksIn, UnlocksIn;
    OneMoreTurn(log, Turn(c, true));
    if log != [] { assert log[0] in log; }
  }

  lemma UnlockTenure(m: Mut, c: Pid, log: seq<Turn>)
    requires c != 0 && 0 !in m.waiters && Tenure(m, log)
    ensures Tenure(UnlockMut(m, c), UnlockTurns(log, c, m.waiters))
  {
    hide LocksIn, UnlocksIn;
    OneMoreTurn(log, Turn(c, false));
    FirstTurn(c);
    if log != [] { assert log[0] in log; }
    if m.waiters != [] {
      assert m.waiters[0] in m.waiters;
      FirstTurn(m.waiters[0]);
    }
  }

  lemma CreatedFree(i: KState, r: Request, anchor: nat, id: nat)
    requires i.current in i.pd && ObjectShape(i) && |i.muts| < id <= |Handle(i, r, anchor).muts|
    ensures Handle(i, r, anchor).muts[id - 1] == NewMutex()
  {
    hide ObjectShape, Stays, AllReleased, AllHandled, Satisfied, WokenBy, Drain, SendInternal, RecvInternal,
         SafeRelease, Without;
    if r.MutLock? && 1 <= r.id <= |i.muts| { LockIsLockMut(i, r.id, r.id); }
    else if r.MutUnlock? && 1 <= r.id <= |i.muts| { UnlockIsUnlockMut(i, r.id, r.id); }
    else { hide Lock, Unlock; }
  }

  lemma CreatedStep(s: KState, e: Event, id: nat)
    requires Alive(s) && Step(s, e).Some? && |s.muts| < id <= |Step(s, e).value.muts|
    ensures Step(s, e).value.muts[id - 1] == NewMutex()
  {
    if e.Call? {
      MutexEntry(s, id);
      IssueShape(s, e.request);
      StepObjects(s, e);
      hide Handle;
      CreatedFree(Issue(s, e.request), e.request, e.anchor, id);
    }
  }

  lemma NewTenure()
    ensures Tenure(NewMutex(), [])
  {
  }

  lemma StepTenure(s: KState, e: Event, id: nat, log: seq<Turn>)
    requires Alive(s) && Step(s, e).Some? && TenureAt(s, id, log) && id > 0
    ensures TenureAt(Step(s, e).value, id, TurnsNow(s, e, id, log))
  {
    hide Alive, Step, Tenure, LockTurns, UnlockTurns, LockMut, UnlockMut;
    MutexEntry(s, id);
    if id <= |s.muts| {
      var m, c := s.muts[id - 1], s.current;
      MutexStep(s, e, id);
      LockTenure(m, c, s.pd[c].pri, log);
      UnlockTenure(m, c, log);
    } else if id <= |Step(s, e).value.muts| {
      CreatedStep(s, e, id);
      NewTenure();
    }
  }

  lemma {:induction false} RunsTenure(s: KState, es: seq<Event>, id: nat, log: seq<Turn>)
    requires Alive(s) && TenureAt(s, id, log) && Exec(s, es).Some? && id > 0
    ensures TenureAt(Exec(s, es).value, id, Turns(s, es, id, log))
    decreases |es|
  {
    hide TenureAt, TurnsNow;
    if es != [] {
      StepTenure(s, es[0], id, log);
      RunsTenure(Step(s, es[0]).value, es[1..], id, TurnsNow(s, es[0], id, log));
    }
  }

  lemma {:induction false} ConfigureFree(cs: seq<Creation>)
    ensures forall m :: m in Configure(cs).muts ==> m == NewMutex()
    decreases |cs|
  {
    if cs != [] { ConfigureFree(cs[..|cs| - 1]); }
  }

  lemma StartFree(cs: seq<Creation>, batches: seq<nat>, id: nat)
    requires Start(cs, batches).Some? && 1 <= id <= |Start(cs, batches).value.muts|
    ensures Start(cs, batches).value.muts[id - 1] == NewMutex()
  {
    hide Dispatch, Configure, ObjectShape;
    var s := Configure(cs);
    var s1 := s.(last := |s.order| - 1);
    ConfigureShape(cs);
    ConfigureFree(cs);
    TasksShape(s, s1);
    DispatchObjects(s1, batches);
    assert s.muts[id - 1] in s.muts;
  }

  /** From boot, in every run, timed or not: `lock_count` of an owned mutex is the locks minus the
      unlocks that its owner made in this tenure, counting the lock that it was queued with; all
      turns are the owner's; and a free mutex has count 0 and no turns. */
  lemma CountOfTenure(cs: seq<Creation>, batches: seq<nat>, es: seq<Event>, id: nat)
    requires Start(cs, batches).Some? && Exec(Start(cs, batches).value, es).Some?
    ensures var s, log := Exec(Start(cs, batches).value, es).value, Turns(Start(cs, batches).value, es, id, []);
      1 <= id <= |s.muts| ==>
        var m := s.muts[id - 1];
        && m.lockCount == LocksIn(log) - UnlocksIn(log)
        && (m.owner == 0 <==> log == []) && (forall t :: t in log ==> t.pid == m.owner)
  {
    hide Start, Exec, Turns, LocksIn, UnlocksIn;
    var s := Start(cs, batches).value;
    if id > 0 {
      NewTenure();
      if id <= |s.muts| { StartFree(cs, batches, id); }
      RunsTenure(s, es, id, []);
    }
  }

  // ----- first come, first served

  /** A lock request that finds the mutex owned by another task. */
  function ArrivesNow(s: KState, e: Event, id: nat): seq<Pid> {
    if e.Call? && e.request == MutLock(id) && 1 <= id <= |s.muts|
       && s.muts[id - 1].owner != 0 && s.muts[id - 1].owner != s.current
    then [s.current]
    else []
  }

  /** Ownership that passes from one task directly to another. */
  function GrantedNow(s: KState, s': KState, id: nat): seq<Pid> {
    if 1 <= id <= |s.muts| && id <= |s'.muts|
       && s.muts[id - 1].owner != 0 && s'.muts[id - 1].owner != 0 && s.muts[id - 1].owner != s'.muts[id - 1].owner
    then [s'.muts[id - 1].owner]
    else []
  }

  function Arrivals(s: KState, es: seq<Event>, id: nat): seq<Pid>
    requires Alive(s)
    decreases |es|
  {
    if es == [] then []
    else ArrivesNow(s, es[0], id) + if Step(s, es[0]).Some? then Arrivals(Step(s, es[0]).value, es[1..], id) else []
  }

  function Grants(s: KState, es: seq<Event>, id: nat): seq<Pid>
    requires Alive(s)
    decreases |es|
  {
    if es == [] || Step(s, es[0]).None? then []
    else GrantedNow(s, Step(s, es[0]).value, id) + Grants(Step(s, es[0]).value, es[1..], id)
  }

  function Passed(m: Mut, m': Mut): seq<Pid> {
    if m.owner != 0 && m'.owner != 0 && m.owner != m'.owner then [m'.owner] else []
  }

  lemma LockFair(m: Mut, c: Pid, pri: nat)
    requires m.owner == 0 ==> m.waiters == []
    ensures m.waiters + (if m.owner != 0 && m.owner != c then [c] else []) ==
            Passed(m, LockMut(m, c, pri)) + LockMut(m, c, pri).waiters
  {
  }

  lemma UnlockFair(m: Mut, c: Pid)
    requires c != 0 && m.owner !in m.waiters && 0 !in m.waiters
    ensures m.waiters == Passed(m, UnlockMut(m, c)) + UnlockMut(m, c).waiters
  {
    if m.waiters != [] {
      assert m.waiters[0] in m.waiters && m.waiters == [m.waiters[0]] + m.waiters[1..];
    }
  }

  lemma MutexFacts(s: KState, id: nat)
    requires Alive(s) && Inv(s) && 1 <= id <= |s.muts|
    ensures s.current in s.pd && s.current != 0
    ensures var m := s.muts[id - 1]; 0 !in m.waiters && m.owner !in m.waiters && (m.waiters != [] ==> m.owner != 0)
  {
    var m := s.muts[id - 1];
    assert s.current in s.order && MutShape(m, s.pd) && MutFair(m, s.pd);
  }

  lemma StepFairness(s: KState, e: Event, id: nat)
    requires Alive(s) && Inv(s) && Tame(s, e) && Step(s, e).Some? && 1 <= id <= |s.muts|
    ensures id <= |Step(s, e).value.muts|
    ensures s.muts[id - 1].waiters + ArrivesNow(s, e, id) ==
            GrantedNow(s, Step(s, e).value, id) + Step(s, e).value.muts[id - 1].waiters
  {
    hide Alive, Inv, Step, Tame, MutShape, MutFair;
    var m, c := s.muts[id - 1], s.current;
    MutexFacts(s, id);
    MutexStep(s, e, id);
    assert GrantedNow(s, Step(s, e).value, id) == Passed(m, NextMut(s, e, id));
    LockFair(m, c, s.pd[c].pri);
    UnlockFair(m, c);
  }

  /** Contended grants follow the order of arrival. */
  lemma {:induction false} FirstComeFirstServed(s: KState, es: seq<Event>, id: nat)
    requires Alive(s) && Inv(s) && Along(s, es, Tame) && 1 <= id <= |s.muts| && Exec(s, es).Some?
    ensures id <= |Exec(s, es).value.muts|
    ensures s.muts[id - 1].waiters + Arrivals(s, es, id) == Grants(s, es, id) + Exec(s, es).value.muts[id - 1].waiters
    decreases |es|
  {
    if es != [] {
      var s1 := Step(s, es[0]).value;
      StepFairness(s, es[0], id);
      StepSound(s, es[0]);
      FirstComeFirstServed(s1, es[1..], id);
      Regroup(s.muts[id - 1].waiters, ArrivesNow(s, es[0], id), GrantedNow(s, s1, id), s1.muts[id - 1].waiters,
              Arrivals(s1, es[1..], id), Grants(s1, es[1..], id), Exec(s, es).value.muts[id - 1].waiters);
    }
  }

  lemma Regroup<T>(q0: seq<T>, a: seq<T>, g: seq<T>, q1: seq<T>, a': seq<T>, g': seq<T>, q2: seq<T>)
    requires q0 + a == g + q1 && q1 + a' == g' + q2
    ensures q0 + (a + a') == (g + g') + q2
  {
    assert q0 + (a + a') == (q0 + a) + a' == g + (q1 + a') == (g + g') + q2;
  }

  // ----- the priority ceiling

  /** The priority with which the calling task enters the kernel. */
  function CallerPriority(s: KState): nat
    requires s.current in s.pd
  {
    s.pd[s.current].pri
  }

  /** The priorities that count for the ceiling: that of the last uncontended acquisition, and those
      of all contended arrivals since. */
  function Contenders(s: KState, es: seq<Event>, id: nat, log: seq<nat>): seq<nat>
    requires Alive(s)
    decreases |es|
  {
    if es == [] || Step(s, es[0]).None? then log
    else Contenders(Step(s, es[0]).value, es[1..], id, ContendersNow(s, es[0], id, log))
  }

  function ContendersNow(s: KState, e: Event, id: nat, log: seq<nat>): seq<nat>
    requires Alive(s)
  {
    assert s.current in s.order && s.current in s.pd;
    if e.Call? && e.request == MutLock(id) && 1 <= id <= |s.muts| then
      if s.muts[id - 1].owner == 0 then [CallerPriority(s)]
      else if s.muts[id - 1].owner != s.current then log + [CallerPriority(s)]
      else log
    else log
  }

  ghost predicate IsMinimum(x: nat, log: seq<nat>) {
    x in log && forall y :: y in log ==> x <= y
  }

  ghost predicate CeilingOf(s: KState, id: nat, log: seq<nat>)
    requires 1 <= id <= |s.muts|
  {
    s.muts[id - 1].owner != 0 ==> IsMinimum(s.muts[id - 1].highest, log)
  }

  lemma MinimumAppend(x: nat, log: seq<nat>, y: nat)
    requires IsMinimum(x, log)
    ensures IsMinimum(Min(x, y), log + [y])
  {
  }

  lemma StepCeiling(s: KState, e: Event, id: nat, log: seq<nat>)
    requires Alive(s) && Step(s, e).Some? && 1 <= id <= |s.muts| && CeilingOf(s, id, log)
    ensures id <= |Step(s, e).value.muts| && CeilingOf(Step(s, e).value, id, ContendersNow(s, e, id, log))
  {
    hide Alive, Step, IsMinimum;
    var m := s.muts[id - 1];
    MutexEntry(s, id);
    MutexStep(s, e, id);
    OnlyMinimum(CallerPriority(s));
    if m.owner != 0 { MinimumAppend(m.highest, log, CallerPriority(s)); }
  }

  lemma OnlyMinimum(x: nat)
    ensures IsMinimum(x, [x])
  {
  }

  /** While a mutex is owned, its ceiling is the minimum of the contenders' priorities, in every run. */
  lemma {:induction false} CeilingIsMinimum(s: KState, es: seq<Event>, id: nat, log: seq<nat>)
    requires Alive(s) && 1 <= id <= |s.muts| && CeilingOf(s, id, log) && Exec(s, es).Some?
    ensures id <= |Exec(s, es).value.muts| && CeilingOf(Exec(s, es).value, id, Contenders(s, es, id, log))
    decreases |es|
  {
    if es != [] {
      StepCeiling(s, es[0], id, log);
      CeilingIsMinimum(Step(s, es[0]).value, es[1..], id, ContendersNow(s, es[0], id, log));
    }
  }

  /** At hand-off the new owner is at least as urgent as every task that still waits. */
  lemma NewOwnerMostUrgent(s: KState, id: nat)
    requires Entered(s) && Releases(s, id) && s.muts[id - 1].waiters != []
    ensures var s' := Unlock(s, id);
      var m' := s'.muts[id - 1];
      && m'.owner == s.muts[id - 1].waiters[0] && m'.owner in s'.pd && s'.pd[m'.owner].state == READY
      && forall p :: p in m'.waiters ==> p in s'.pd && s'.pd[m'.owner].pri <= s'.pd[p].pri
  {
    var m, s' := s.muts[id - 1], Unlock(s, id);
    HandOffFrame(s, id);
    HandOffState(s, id);
    MutWaiters(s, id - 1);
    assert MutFair(m, s.pd) && OrigsAligned(m, s.pd) && MutShape(m, s.pd);
    HandOffMutex(m, s'.muts[id - 1], s.pd, s'.pd, s.current);
    assert forall p :: p in m.waiters[1..] ==> p in m.waiters;
    forall p | p in s'.muts[id - 1].waiters ensures p in s'.pd { assert p in s.pd.Keys; }
  }

  // ----- what the saved priorities are for

  /** In every tame run a task that neither owns nor awaits a mutex has its priority at creation,
      unless it has itself made an unsafe release; what other tasks did does not matter. */
  lemma BaseRestored(s: KState, es: seq<Event>, p: Pid)
    requires Alive(s) && Inv(s) && Along(s, es, Tame) && Exec(s, es).Some?
    ensures var s' := Exec(s, es).value;
      p in s'.pd && (forall id: nat :: !Owns(s', p, id)) && s'.pd[p].state != WAIT_MUTEX && s'.pd[p].orderly ==>
        s'.pd[p].pri == s'.pd[p].base
  {
    RunsSound(s, es);
    var s' := Exec(s, es).value;
    if p in s'.pd {
      var held := s'.pd[p].held;
      assert BaseKept(s', p);
      assert held == [] || held[0] in held;
    }
  }

  /** Releasing in the reverse order of acquisition is always safe. */
  lemma ReverseOrderIsSafe(s: KState, id: nat)
    requires s.current in s.pd && BaseKept(s, s.current) && Owns(s, s.current, id)
    requires var held := s.pd[s.current].held; held != [] && held[|held| - 1] == id
    ensures SafeRelease(s, id)
  {
  }

  /** A full unlock by a so far orderly task keeps its priority recoverable exactly when it is safe. */
  lemma SafeReleaseIsExact(s: KState, id: nat)
    requires Entered(s) && Releases(s, id) && s.pd[s.current].orderly
    ensures s.current in Unlock(s, id).pd && (Recoverable(Unlock(s, id), s.current) <==> SafeRelease(s, id))
  {
    var s', c, m := Unlock(s, id), s.current, s.muts[id - 1];
    assert BaseKept(s, c) && MutShape(m, s.pd);
    if m.waiters != [] {
      HandOffFrame(s, id);
      HandOffState(s, id);
    }
    ReleasedBase(s, s', id, c);
  }

  /** The failing family: a task that holds exactly a then b and releases a first ends up with what
      b has saved, so its priority at creation is restored exactly when b has saved that. */
  lemma OutOfOrderRelease(s: KState, a: nat, b: nat)
    requires Entered(s) && s.pd[s.current].held == [a, b]
    requires Releases(s, a) && Releases(s, b) && s.muts[a - 1].waiters == [] && s.muts[b - 1].waiters == []
    ensures Shape(Unlock(s, a)) && s.current in Unlock(s, a).pd
    ensures var s' := Unlock(Unlock(s, a), b);
      && (forall id: nat :: !Owns(s', s.current, id))
      && (s'.pd[s.current].pri == s'.pd[s.current].base <==> s.muts[b - 1].ownerOrig == s.pd[s.current].base)
  {
    var s1, c := Unlock(s, a), s.current;
    UnlockShape(s, a);
    assert BaseKept(s, c) && a != b by {
      assert s.pd[c].held[0] != s.pd[c].held[1];
    }
    var s2 := Unlock(s1, b);
    forall id: nat ensures !Owns(s2, c, id) {
      assert id in s.pd[c].held <==> Owns(s, c, id);
    }
  }

  /** From boot, in every tame run: owned means locked, waiting means owned, no owner waits for its own
      mutex, no waiter is more urgent than the ceiling, and exactly the owner holds the mutex. */
  lemma MutualExclusion(cs: seq<Creation>, batches: seq<nat>, es: seq<Event>, id: nat)
    requires forall c :: c in cs ==> LegalCreation(c)
    requires Start(cs, batches).Some? && Along(Start(cs, batches).value, es, Tame)
    requires Exec(Start(cs, batches).value, es).Some?
    ensures var s := Exec(Start(cs, batches).value, es).value; 1 <= id <= |s.muts| ==> Excludes(s, id)
  {
    AlwaysSound(cs, batches, es);
    var s := Exec(Start(cs, batches).value, es).value;
    if 1 <= id <= |s.muts| { InvExcludes(s, id); }
  }

  ghost predicate Excludes(s: KState, id: nat)
    requires 1 <= id <= |s.muts|
  {
    var m := s.muts[id - 1];
    && (m.owner != 0 <==> m.lockCount > 0)
    && (m.waiters != [] ==> m.owner != 0)
    && m.owner !in m.waiters
    && (m.owner != 0 ==> m.owner in s.pd)
    && (forall p :: p in m.waiters ==> p in s.pd && m.highest <= s.pd[p].pri)
    && (forall p :: p in s.pd ==> (id in s.pd[p].held <==> m.owner == p))
  }

  lemma InvExcludes(s: KState, id: nat)
    requires Alive(s) && Inv(s) && 1 <= id <= |s.muts|
    ensures Excludes(s, id)
  {
    var m := s.muts[id - 1];
    assert MutShape(m, s.pd) && MutFair(m, s.pd);
    forall p | p in s.pd ensures id in s.pd[p].held <==> m.owner == p {
      assert BaseKept(s, p);
      assert Owns(s, p, id) <==> m.owner == p;
    }
  }
}
