/** The loops of kernel.c, in place: tick handling, the circular scan, and dispatch. */
module KernelScheduler {
  import opened KernelTypes
  import opened KernelState
  import opened Kernel
  import Selection
  import opened TameRuns
  import Spec = Scheduler

  ghost predicate TasksOk(k: System)
    reads k
  {
    Indexed(k.all) && Known(k.all, k.tasks) && k.taskCount == |k.tasks|
  }

  /** The part of the kernel that the scheduler reads and writes is that of the value `s`. */
  ghost predicate Mirrors(k: System, s: KState)
    reads k, k.all.Values
  {
    && TasksOk(k) && Pids(k.tasks) == s.order && PdsOf(k.all) == s.pd
    && k.last == s.last && k.tickCount == s.ticks && k.clock == s.clock
  }

  // ----- ticks

  /** The body of the loop in Kernel_Tick_Handler. */
  method AgeTask(t: Task, ticks: nat)
    modifies t
    ensures t.View() == Spec.TickTask(old(t.View()), ticks)
  {
    if t.state == READY {
      t.starvation := (t.starvation + ticks) % WORD;
    }
    if t.timeout == 0 { return; }
    var remaining := Spec.Signed16(t.timeout - ticks);
    if remaining > 0 {
      t.timeout := remaining;
      return;
    }
    t.timeout := 0;
    if t.state == SUSPENDED {
      t.lastState := READY;
    } else {
      t.state := READY;
      t.retval := 0;
    }
  }

  ghost function Ager(ticks: nat): PD -> PD {
    d => Spec.TickTask(d, ticks)
  }

  method AgeNext(t: Task, ticks: nat, i: nat, ts: seq<Task>, ghost all: map<Pid, Task>, ghost was: map<Pid, PD>)
    requires Indexed(all) && Known(all, ts) && NoDup(Pids(ts)) && i < |ts| && t == ts[i] && was.Keys == all.Keys
    requires PdsOf(all) == MapUpTo(was, Pids(ts)[..i], Ager(ticks))
    modifies t
    ensures PdsOf(all) == MapUpTo(was, Pids(ts)[..i + 1], Ager(ticks))
  {
    hide Spec.TickTask, Known;
    NextTask(all, ts, i);
    ghost var pds := PdsOf(all);
    MapOneMore(was, Pids(ts)[..i], t.pid, Ager(ticks));
    AgeTask(t, ticks);
    TaskChanged(all, pds, t);
  }

  method AgeAll(ticks: nat, ts: seq<Task>, ghost all: map<Pid, Task>)
    requires Indexed(all) && Known(all, ts) && NoDup(Pids(ts))
    modifies all.Values
    ensures PdsOf(all) == MapUpTo(old(PdsOf(all)), Pids(ts), Ager(ticks))
  {
    hide Spec.TickTask, Known, NoDup, PdsOf, Indexed, Ager;
    ghost var was := PdsOf(all);
    PdsKeys(all);
    MapNone(was, Ager(ticks));
    var i := 0;
    while i < |ts|
      invariant 0 <= i <= |ts| && PdsOf(all) == MapUpTo(was, Pids(ts)[..i], Ager(ticks))
    {
      NextTask(all, ts, i);
      AgeNext(ts[i], ticks, i, ts, all, was);
      i := i + 1;
    }
    assert Pids(ts)[..i] == Pids(ts);
  }

  lemma TickSplits(s: KState)
    requires ListShape(s)
    ensures NoDup(s.order)
    ensures s.ticks != 0 ==>
      && Spec.TickHandler(s) == s.(pd := MapUpTo(s.pd, s.order, Ager(s.ticks)), ticks := 0, clock := s.clock + s.ticks)
  {
    hide Spec.TickTask;
    if s.ticks != 0 {
      assert Spec.TickHandler(s).pd == MapUpTo(s.pd, s.order, Ager(s.ticks));
    }
  }

  /** Kernel_Tick_Handler */
  method TickHandler(k: System, ghost s: KState)
    requires Mirrors(k, s) && ListShape(s)
    modifies k`tickCount, k`clock, k.all.Values
    ensures Mirrors(k, Spec.TickHandler(s))
  {
    hide Known, Indexed, PdsOf, ListShape, Spec.OnlyAged, MapUpTo, NoDup;
    TickSplits(s);
    if k.tickCount == 0 { return; }
    AgeAll(k.tickCount, k.tasks, k.all);
    k.clock := k.clock + k.tickCount;
    k.tickCount := 0;
  }

  // ----- selection

  /** ptrlist_cnext on list positions. */
  function CNext(n: nat, i: nat): nat {
    if i + 1 >= n then 0 else i + 1
  }

  lemma VisitedNext(s: KState, j: nat)
    requires s.order != [] && s.last < |s.order|
    ensures Spec.Visited(s, 0) == CNext(|s.order|, s.last)
    ensures Spec.Visited(s, j + 1) == CNext(|s.order|, Spec.Visited(s, j))
  {
    ModNext(s.last + 1 + j, |s.order|);
    ModNext(s.last, |s.order|);
  }

  lemma ModNext(x: nat, n: nat)
    requires n > 0
    ensures (x + 1) % n == CNext(n, x % n)
    ensures x < n ==> x % n == x
  {
    ModNextAt(x, n, x / n, x % n);
  }

  lemma ModNextAt(x: nat, n: nat, q: nat, r: nat)
    requires r < n && x == q * n + r
    ensures (x + 1) % n == CNext(n, r)
    ensures x < n ==> x % n == x
  {
    if r + 1 == n {
      assert (q + 1) * n == q * n + n;
      Selection.ModIs(x + 1, n, q + 1, 0);
    } else {
      Selection.ModIs(x + 1, n, q, r + 1);
    }
  }

  /** The position of a scan step, and -1 for NULL. */
  function PositionOf(s: KState, step: int): int
    requires s.order != []
  {
    if step < 0 then -1 else Spec.Visited(s, step)
  }

  lemma TaskHere(k: System, s: KState, j: nat)
    requires Mirrors(k, s) && ListShape(s) && s.order != []
    ensures Spec.Visited(s, j) < |k.tasks| && k.tasks[Spec.Visited(s, j)].View() == Spec.TaskAt(s, j)
  {
    var i := Spec.Visited(s, j);
    assert k.all[k.tasks[i].pid] == k.tasks[i] && s.order[i] == k.tasks[i].pid;
  }

  /** Kernel_Select_Next_Task, as a list position; -1 stands for NULL. */
  method SelectNext(k: System, ghost s: KState) returns (i: int)
    requires Mirrors(k, s) && ListShape(s) && s.order != [] && s.last < |s.order|
    ensures i == PositionOf(s, Spec.Select(s)) && -1 <= i < |k.tasks|
  {
    hide Known, Indexed, PdsOf, ListShape, NoDup, Mirrors, Spec.Visited, Spec.TaskAt;
    var next: int, starved: int := -1, -1;
    var highest := LOWEST_PRIORITY + 1;
    ghost var a := Spec.ScanTo(s, 0);
    Sizes(k, s);
    VisitedNext(s, 0);
    var at := CNext(|k.tasks|, k.last);
    var j := 0;
    while j < k.taskCount
      invariant 0 <= j <= k.taskCount && a == Spec.ScanTo(s, j) && at == Spec.Visited(s, j)
      invariant -1 <= a.next < j && -1 <= a.starved < j
      invariant next == PositionOf(s, a.next) && highest == a.highest && starved == PositionOf(s, a.starved)
    {
      TaskHere(k, s, j);
      var t := k.tasks[at];
      assert Spec.ScanTo(s, j + 1) == Spec.Look(s, a, j);
      if t.state == READY {
        if t.pri < highest {
          next := at;
          highest := t.pri;
        } else if t.starvation >= STARVATION_MAX {
          if a.starved >= 0 { TaskHere(k, s, a.starved); }
          if !(starved >= 0 && k.tasks[starved].starvation <= t.starvation) {
            starved := at;
          }
        }
      }
      a := Spec.Look(s, a, j);
      VisitedNext(s, j);
      at := CNext(|k.tasks|, at);
      j := j + 1;
    }
    if a.next >= 0 { TaskHere(k, s, a.next); }
    if a.starved >= 0 { TaskHere(k, s, a.starved); }
    i := if starved >= 0 then starved else next;
  }

  lemma Sizes(k: System, s: KState)
    requires Mirrors(k, s)
    ensures |k.tasks| == |s.order| == k.taskCount && k.last == s.last
  {
  }

  // ----- dispatch

  /** The first `j` list positions from `from` on hold no READY task. */
  ghost predicate NoneReady(s: KState, from: nat, j: nat)
    requires ListShape(s)
  {
    forall t :: 0 <= t < j && t < |s.order| ==> s.pd[s.order[Around(from, t, |s.order|)]].state != READY
  }

  function Around(from: nat, t: nat, n: nat): (i: nat)
    requires n > 0
    ensures i < n
  {
    (from + t) % n
  }

  lemma FullCircle(s: KState, from: nat, j: nat)
    requires ListShape(s) && NoneReady(s, from, j) && |s.order| <= j && from < |s.order|
    ensures !Spec.SomeReady(s)
  {
    var n := |s.order|;
    forall p | p in s.order ensures s.pd[p].state != READY {
      var q :| 0 <= q < n && s.order[q] == p;
      var t := if from <= q then q - from else q + n - from;
      assert 0 <= t < j;
      Selection.ModLess(from + t, n);
      assert Around(from, t, n) == q;
    }
  }

  lemma OneMoreLooked(s: KState, from: nat, j: nat)
    requires ListShape(s) && s.order != [] && NoneReady(s, from, j)
    requires s.pd[s.order[Around(from, j, |s.order|)]].state != READY
    ensures NoneReady(s, from, j + 1)
    ensures Around(from, j + 1, |s.order|) == CNext(|s.order|, Around(from, j, |s.order|))
  {
    ModNext(from + j, |s.order|);
  }

  lemma AroundStart(from: nat, n: nat)
    requires from < n
    ensures Around(from, 0, n) == from
  {
    ModNext(from, n);
  }

  lemma TaskThere(k: System, s: KState, i: nat)
    requires Mirrors(k, s) && ListShape(s) && i < |s.order|
    ensures i < |k.tasks| && k.tasks[i].View() == s.pd[s.order[i]] && k.tasks[i] in k.all.Values
    ensures k.tasks[i].pid in k.all && k.all[k.tasks[i].pid] == k.tasks[i] && s.order[i] == k.tasks[i].pid
  {
    assert k.all[k.tasks[i].pid] == k.tasks[i] && s.order[i] == k.tasks[i].pid;
  }

  lemma SeenReady(s: KState, i: nat)
    requires ListShape(s) && i < |s.order| && s.pd[s.order[i]].state == READY
    ensures Spec.SomeReady(s)
  {
    assert s.order[i] in s.order;
  }

  lemma IdleStops(s: KState, batches: seq<nat>)
    requires ListShape(s)
    ensures Spec.SomeReady(s) ==> Spec.Idle(s, batches) == Some(s)
    ensures !Spec.SomeReady(s) && batches == [] ==> Spec.Idle(s, batches) == None
  {
  }

  lemma IdleGoesOn(s: KState, batches: seq<nat>)
    requires ListShape(s) && !Spec.SomeReady(s) && batches != []
    ensures var s' := Spec.TickHandler(Spec.Arrive(s, batches[0]));
      ListShape(s') && s'.order == s.order && Spec.Idle(s, batches) == Spec.Idle(s', batches[1..])
  {
    hide ListShape, Spec.Aged, Spec.SomeReady;
    var s1 := Spec.Arrive(s, batches[0]);
    Spec.AgedKeepsLists(s1, Spec.TickHandler(s1));
    assert Spec.OnlyAged(s1, Spec.TickHandler(s1));
  }

  /** A batch of timer interrupts, then Kernel_Tick_Handler. */
  method HandleBatch(k: System, n: nat, ghost s: KState)
    requires Mirrors(k, s) && ListShape(s)
    modifies k`tickCount, k`clock, k.all.Values
    ensures ListShape(Spec.Arrive(s, n)) && Mirrors(k, Spec.TickHandler(Spec.Arrive(s, n)))
  {
    hide Known, Indexed, PdsOf, ListShape, NoDup;
    assert ListShape(Spec.Arrive(s, n));
    k.tickCount := (k.tickCount + n) % WORD;
    TickHandler(k, Spec.Arrive(s, n));
  }

  /** The wait of Kernel_Dispatch_Next_Task when no task is ready. It goes round the task list, and
      handles ticks only once in 100 rounds; `batches` are the ticks that it then finds. */
  method WaitForReady(k: System, batches: seq<nat>, ghost s: KState) returns (ok: bool, ghost s': KState)
    requires Mirrors(k, s) && ListShape(s) && s.order != [] && s.last < |s.order|
    modifies k`tickCount, k`clock, k.all.Values
    ensures Spec.Idle(s, batches) == if ok then Some(s') else None
    ensures ok ==> Mirrors(k, s')
  {
    hide Known, Indexed, PdsOf, ListShape, NoDup, Mirrors, Spec.SomeReady, Spec.Idle, NoneReady, Around,
         Spec.TickHandler, Spec.OnlyAged;
    ghost var goal := Spec.Idle(s, batches);
    Sizes(k, s);
    var i := k.last;
    var j, b := 0, 0;
    ghost var from: nat := i;
    s' := s;
    AroundStart(i, |k.tasks|);
    NoneYet(s', i);
    TaskThere(k, s', i);
    while k.tasks[i].state != READY
      invariant 0 <= b <= |batches| && 0 <= j < k.taskCount * 100
      invariant Mirrors(k, s') && ListShape(s') && |s'.order| == |k.tasks| == k.taskCount && i < |k.tasks|
      invariant Spec.Idle(s', batches[b..]) == goal
      invariant from < |k.tasks| && i == Around(from, j, |k.tasks|) && NoneReady(s', from, j)
      decreases |batches| - b, k.taskCount * 100 - j
    {
      TaskThere(k, s', i);
      OneMoreLooked(s', from, j);
      j := j + 1;
      if j >= k.taskCount * 100 {
        FullCircle(s', from, j);
        IdleStops(s', batches[b..]);
        if b == |batches| { return false, s'; }
        IdleGoesOn(s', batches[b..]);
        HandleBatch(k, batches[b], s');
        s' := Spec.TickHandler(Spec.Arrive(s', batches[b]));
        b := b + 1;
        j := 0;
        i := CNext(|k.tasks|, i);
        from := i;
        AroundStart(i, |k.tasks|);
        NoneYet(s', i);
      } else {
        i := CNext(|k.tasks|, i);
      }
    }
    TaskThere(k, s', i);
    SeenReady(s', i);
    IdleStops(s', batches[b..]);
    ok := true;
  }

  lemma NoneYet(s: KState, from: nat)
    requires ListShape(s)
    ensures NoneReady(s, from, 0)
  {
  }

  /** A RUNNING current task is put back to READY. */
  method Requeue(k: System, ghost s: KState)
    requires Mirrors(k, s) && ListShape(s)
    requires k.current != null ==> k.current.pid == s.current && s.current in k.all && k.all[s.current] == k.current
    requires k.current == null ==> s.current == 0
    modifies k.all.Values
    ensures Mirrors(k, Spec.Requeue(s))
  {
    if k.current != null && k.current.state == RUNNING {
      ghost var pds := PdsOf(k.all);
      k.current.state := READY;
      TaskChanged(k.all, pds, k.current);
    }
  }

  /** The descriptor at the selected list position becomes the current process. */
  method RunTask(k: System, i: nat, ghost s: KState, ghost step: nat)
    requires Mirrors(k, s) && ListShape(s) && s.order != [] && i == Spec.Visited(s, step)
    modifies k`last, k`current, k.all.Values
    ensures Mirrors(k, Spec.Run(s, step)) && k.current != null && k.current.pid == Spec.Run(s, step).current
    ensures k.current.pid in k.all && k.all[k.current.pid] == k.current
  {
    hide ListShape, Known;
    TaskThere(k, s, i);
    ghost var pds := PdsOf(k.all);
    k.last := i;
    k.current := k.tasks[i];
    k.current.state := RUNNING;
    k.current.starvation := 0;
    TaskChanged(k.all, pds, k.current);
  }

  lemma ChoiceStart(s: KState, batches: seq<nat>)
    requires ListShape(s)
    ensures ListShape(Spec.Requeue(s)) && ListShape(Spec.TickHandler(Spec.Requeue(s)))
    ensures var s2 := Spec.TickHandler(Spec.Requeue(s));
      s2.order == s.order && s2.last == s.last && Spec.Choice(s, batches) == Spec.Idle(s2, batches)
  {
    hide ListShape, Spec.Aged, Spec.SomeReady;
    var s1 := Spec.Requeue(s);
    assert Spec.OnlyAged(s1, Spec.TickHandler(s1));
    Spec.AgedKeepsLists(s1, Spec.TickHandler(s1));
  }

  lemma SelectedReady(s: KState)
    requires ListShape(s) && s.order != [] && Spec.Select(s) >= 0
    ensures Spec.SomeReady(s)
  {
    ScanReady(s, |s.order|);
    Selection.TaskIsListed(s, Spec.Select(s));
  }

  lemma DispatchIs(s: KState, batches: seq<nat>)
    requires ListShape(s)
    ensures var c := Spec.Choice(s, batches);
      Spec.Dispatch(s, batches) ==
      (if c.None? then None
       else if Spec.Select(c.value) < 0 then None else Some(Spec.Run(c.value, Spec.Select(c.value))))
  {
  }

  lemma NothingToRun(s: KState, batches: seq<nat>)
    requires ListShape(s) && s.order == []
    ensures Spec.Idle(s, batches) == None
    decreases |batches|
  {
    if batches == [] {
      IdleStops(s, batches);
    } else {
      IdleGoesOn(s, batches);
      NothingToRun(Spec.TickHandler(Spec.Arrive(s, batches[0])), batches[1..]);
    }
  }

  lemma Reflects(k: System)
    requires k.Valid()
    ensures Mirrors(k, k.View())
    ensures k.current != null ==> k.current.pid in k.all && k.all[k.current.pid] == k.current
  {
  }

  /** Kernel_Dispatch_Next_Task; false when no task gets ready within `batches`. */
  method DispatchValue(k: System, batches: seq<nat>, ghost s: KState) returns (ok: bool)
    requires Mirrors(k, s) && ListShape(s) && (s.order != [] ==> s.last < |s.order|)
    requires k.current != null ==> k.current.pid == s.current && s.current in k.all && k.all[s.current] == k.current
    requires k.current == null ==> s.current == 0
    modifies k`tickCount, k`clock, k`last, k`current, k.all.Values
    ensures ok == Spec.Dispatch(s, batches).Some?
    ensures ok ==>
      && var d := Spec.Dispatch(s, batches).value;
      && Mirrors(k, d) && k.current != null && k.current.pid == d.current
      && k.current.pid in k.all && k.all[k.current.pid] == k.current
  {
    hide ListShape, Mirrors, Spec.Requeue, Spec.TickHandler, Spec.Idle, Spec.Choice, Spec.Dispatch, Spec.Select,
         Spec.Run, Spec.Visited, Spec.SomeReady, Spec.OnlyAged;
    ChoiceStart(s, batches);
    DispatchIs(s, batches);
    Requeue(k, s);
    TickHandler(k, Spec.Requeue(s));
    ghost var c := Spec.TickHandler(Spec.Requeue(s));
    Sizes(k, c);
    if k.tasks == [] {
      NothingToRun(c, batches);
      return false;
    }
    var at := SelectNext(k, c);
    if at < 0 {
      ghost var c1;
      ok, c1 := WaitForReady(k, batches, c);
      if !ok { return; }
      IdleKeeps(c, batches);
      c := c1;
      at := SelectNext(k, c);
      if at < 0 { return false; }
    } else {
      SelectedReady(c);
      IdleStops(c, batches);
    }
    RunTask(k, at, c, Spec.Select(c));
    ok := true;
  }

  lemma IdleKeeps(s: KState, batches: seq<nat>)
    requires ListShape(s) && Spec.Idle(s, batches).Some?
    ensures var c := Spec.Idle(s, batches).value; ListShape(c) && c.order == s.order && c.last == s.last
  {
    hide ListShape, Spec.Aged;
    assert Spec.OnlyAged(s, Spec.Idle(s, batches).value);
  }

  lemma DispatchKeeps(s: KState, batches: seq<nat>)
    requires ListShape(s) && Spec.Dispatch(s, batches).Some?
    ensures var d := Spec.Dispatch(s, batches).value;
      d == s.(pd := d.pd, last := d.last, current := d.current, ticks := d.ticks, clock := d.clock)
  {
    hide ListShape, Spec.Aged, Spec.Select, Spec.SomeReady;
    assert Spec.OnlyAged(Spec.Requeue(s), Spec.Choice(s, batches).value);
  }

  /** Kernel_Dispatch_Next_Task, with the whole state it leaves. */
  method Dispatch(k: System, batches: seq<nat>) returns (ok: bool)
    requires k.Valid() && ListShape(k.View()) && (k.tasks != [] ==> k.last < |k.tasks|)
    modifies k`tickCount, k`clock, k`last, k`current, k.all.Values
    ensures ok == Spec.Dispatch(old(k.View()), batches).Some?
    ensures ok ==> k.Valid() && k.current != null && k.View() == Spec.Dispatch(old(k.View()), batches).value
  {
    hide Spec.Dispatch, ListShape, SemaphoresOk, MailboxesOk, MutexesOk, GroupsOk;
    hide Known, Indexed, PdsOf, MutsOf, SemsOf, MbsOf, EgsOf, Pids;
    Reflects(k);
    ghost var s := k.View();
    ok := DispatchValue(k, batches, s);
    if ok { DispatchKeeps(s, batches); }
  }
}
