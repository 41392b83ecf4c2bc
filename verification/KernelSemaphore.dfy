/** semaphore.c, in place. */
module KernelSemaphore {
  import opened KernelTypes
  import opened KernelState
  import opened Requests
  import opened Kernel

  /** findSemaphoreByID */
  method FindSemaphore(k: System, id: nat) returns (m: Semaphore?)
    requires k.Valid()
    ensures if 1 <= id <= |k.semaphores| then m == k.semaphores[id - 1] && m.id == id else m == null
  {
    var i := 0;
    while i < |k.semaphores|
      invariant 0 <= i <= |k.semaphores| && (id == 0 || i < id)
    {
      if k.semaphores[i].id == id { return k.semaphores[i]; }
      i := i + 1;
    }
    m := null;
  }

  // ----- get

  lemma GetSplits(s: KState, id: nat, amount: int)
    requires s.current in s.pd && 1 <= id <= |s.sems|
    ensures var m, d, c, s' := s.sems[id - 1], s.pd[s.current], s.current, SemaphoreGet(s, id, amount);
      s' == s.(sems := s.sems[id - 1 := GetSem(m, c, amount)], pd := s.pd[c := GetTask(m, d, id, amount)],
               cswitch := s.cswitch || m.count - Want(m, amount) < 0)
  {
  }

  function Want(m: Sem, amount: int): int {
    if m.binary then Clamp(amount) else amount
  }

  function GetSem(m: Sem, c: Pid, amount: int): Sem {
    if m.count - Want(m, amount) < 0 then m.(waiters := m.waiters + [c]) else m.(count := m.count - Want(m, amount))
  }

  function GetTask(m: Sem, d: PD, id: nat, amount: int): PD {
    var d1 := d.(args := SemGet(id, Want(m, amount)));
    if m.count - Want(m, amount) < 0 then d1.(state := WAIT_SEMAPHORE) else d1
  }

  /** The branches of Kernel_Semaphore_Get, once the semaphore has been found. */
  method GetBy(k: System, m: Semaphore, c: Task, amount: int, ghost all: map<Pid, Task>)
    requires Known(all, m.waitQueue) && c.pid in all && all[c.pid] == c && c.args == SemGet(m.id, amount)
    modifies k`requestCswitch, m, c
    ensures Known(all, m.waitQueue)
    ensures m.View() == GetSem(old(m.View()), c.pid, amount)
    ensures c.View() == GetTask(old(m.View()), old(c.View()), m.id, amount)
    ensures k.requestCswitch == (old(k.requestCswitch) || old(m.count) - Want(old(m.View()), amount) < 0)
  {
    var want := amount;
    if m.isBinary {
      if want > 1 {
        want := 1;
      } else if want < 0 {
        want := 0;
      }
      c.args := SemGet(m.id, want);
    }
    var hasEnough := m.count - want;
    if hasEnough < 0 {
      m.waitQueue := m.waitQueue + [c];
      c.state := WAIT_SEMAPHORE;
      k.requestCswitch := true;
      PidsAppend(old(m.waitQueue), c);
    } else {
      m.count := m.count - want;
    }
  }

  method GetListed(k: System, m: Semaphore, c: Task, amount: int, ghost all: map<Pid, Task>, ghost ms: seq<Semaphore>)
    requires Indexed(all) && SemaphoresOk(all, ms) && 1 <= m.id <= |ms| && m == ms[m.id - 1]
    requires c.pid in all && all[c.pid] == c && c.args == SemGet(m.id, amount)
    modifies k`requestCswitch, m, c
    ensures SemaphoresOk(all, ms) && SemsOf(ms) == old(SemsOf(ms))[m.id - 1 := GetSem(old(m.View()), c.pid, amount)]
    ensures PdsOf(all) == old(PdsOf(all))[c.pid := GetTask(old(m.View()), old(c.View()), m.id, amount)]
    ensures k.requestCswitch == (old(k.requestCswitch) || old(m.count) - Want(old(m.View()), amount) < 0)
  {
    ghost var pds, sems := PdsOf(all), SemsOf(ms);
    GetBy(k, m, c, amount, all);
    SemaphoreChanged(ms, sems, m.id - 1);
    TaskChanged(all, pds, c);
  }

  lemma GetRefused(s: KState, id: nat, amount: int)
    requires s.current in s.pd
    ensures !(1 <= id <= |s.sems|) ==> SemaphoreGet(s, id, amount) == s.(err := OBJECT_NOT_FOUND_ERR)
  {
  }

  method GetFound(k: System, m: Semaphore, amount: int)
    requires k.Valid() && 1 <= m.id <= |k.semaphores| && m == k.semaphores[m.id - 1]
    requires k.current != null && k.current.args == SemGet(m.id, amount)
    modifies k`requestCswitch, k.current, m
    ensures k.Valid() && |k.View().sems| == |k.semaphores| && old(k.current.pid in k.View().pd)
    ensures var s, v, c := old(k.View()), old(m.View()), k.current.pid;
      k.View() == s.(sems := s.sems[m.id - 1 := GetSem(v, c, amount)],
        pd := s.pd[c := GetTask(v, s.pd[c], m.id, amount)],
                     cswitch := s.cswitch || v.count - Want(v, amount) < 0)
  {
    hide GetSem, GetTask, Want, MutexesOk, MailboxesOk, GroupsOk, SemaphoresOk, Known, Indexed, MutsOf, SemsOf, MbsOf,
         EgsOf, PdsOf, Pids;
    ViewParts(k);
    GetListed(k, m, k.current, amount, k.all, k.semaphores);
    ViewParts(k);
  }

  /** Kernel_Semaphore_Get */
  method Get(k: System, id: nat, amount: int)
    requires k.Valid() && k.current != null && k.current.args == SemGet(id, amount)
    modifies k`err, k`requestCswitch, k.current, k.semaphores
    ensures k.Valid()
    ensures k.View() == SemaphoreGet(old(k.View()), id, amount)
  {
    hide SemaphoreGet, GetSem, GetTask, Want, System.Valid, System.View, SemsOf, MbsOf, EgsOf, PdsOf, MutsOf;
    ViewParts(k);
    GetRefused(k.View(), id, amount);
    var m := FindSemaphore(k, id);
    if m == null {
      Raise(k, OBJECT_NOT_FOUND_ERR);
    } else {
      GetSplits(k.View(), id, amount);
      GetFound(k, m, amount);
    }
  }

  // ----- give

  /** The head of the queue takes its amount, leaves the queue and is ready. */
  method ServeHead(m: Semaphore)
    requires m.waitQueue != []
    modifies m, m.waitQueue[0]
    ensures var q, was := old(m.waitQueue), old(m.View());
      && m.waitQueue == q[1..]
      && m.View() == was.(count := was.count - Amount(old(m.waitQueue[0].View())), waiters := was.waiters[1..])
      && q[0].View() == old(m.waitQueue[0].View()).(state := READY)
  {
    var head := m.waitQueue[0];
    m.count := m.count - (if head.args.SemGet? then head.args.amount else 0);
    head.state := READY;
    PidsTail(m.waitQueue);
    m.waitQueue := m.waitQueue[1..];
  }

  lemma KnownShape(all: map<Pid, Task>, m: Semaphore)
    requires Known(all, m.waitQueue)
    ensures SemShape(m.View(), PdsOf(all))
    ensures m.waitQueue != [] ==>
      m.waitQueue[0].pid in PdsOf(all) && PdsOf(all)[m.waitQueue[0].pid] == m.waitQueue[0].View()
  {
    forall p | p in m.View().waiters ensures p in PdsOf(all) {
      var i :| 0 <= i < |m.waitQueue| && m.View().waiters[i] == p;
      assert m.waitQueue[i].pid in all;
    }
  }

  method ServeListed(m: Semaphore, ghost all: map<Pid, Task>)
    requires Indexed(all) && Known(all, m.waitQueue) && m.waitQueue != []
    modifies m, m.waitQueue[0]
    ensures Known(all, m.waitQueue) && m.waitQueue == old(m.waitQueue)[1..]
    ensures var was, d := old(m.View()), old(m.waitQueue[0].View());
      && m.View() == was.(count := was.count - Amount(d), waiters := was.waiters[1..])
      && PdsOf(all) == old(PdsOf(all))[was.waiters[0] := d.(state := READY)]
  {
    ghost var pds, head := PdsOf(all), m.waitQueue[0];
    ServeHead(m);
    TaskChanged(all, pds, head);
  }

  /** Kernel_Semaphore_Get_From_Queue; it stops on an empty queue. */
  method GetFromQueue(m: Semaphore, ghost all: map<Pid, Task>) returns (stale: bool)
    requires Indexed(all) && Known(all, m.waitQueue)
    modifies m, all.Values
    ensures Known(all, m.waitQueue)
    ensures SemShape(old(m.View()), old(PdsOf(all)))
    ensures Drain(old(m.View()), old(PdsOf(all))) == Drained(m.View(), PdsOf(all), stale)
  {
    hide Indexed, Known, PdsOf;
    KnownShape(all, m);
    ghost var goal := Drain(m.View(), PdsOf(all));
    stale := false;
    while m.waitQueue != [] && m.count - (if m.waitQueue[0].args.SemGet? then m.waitQueue[0].args.amount else 0) >= 0
      invariant Known(all, m.waitQueue) && !stale
      invariant SemShape(m.View(), PdsOf(all)) && Drain(m.View(), PdsOf(all)) == goal
      decreases |m.waitQueue|
    {
      KnownShape(all, m);
      if m.waitQueue[0].state != WAIT_SEMAPHORE {
        stale := true;
        return;
      }
      KnownValues(all, m.waitQueue);
      ServeListed(m, all);
      KnownShape(all, m);
    }
    KnownShape(all, m);
  }

  /** What a give leaves behind: the semaphore, the tasks, and whether it met a stale entry. */
  function GiveResult(m: Sem, pd: map<Pid, PD>, amount: int): Drained
    requires SemShape(m, pd)
  {
    var m1 := Given(m, amount);
    if m1.count > 0 && m1.waiters != [] then Drain(m1, pd) else Drained(m1, pd, false)
  }

  lemma GiveSplits(s: KState, id: nat, amount: int)
    requires ObjectShape(s) && 1 <= id <= |s.sems|
    ensures SemShape(s.sems[id - 1], s.pd)
    ensures var r, s' := GiveResult(s.sems[id - 1], s.pd, amount), SemaphoreGive(s, id, amount);
      s' == s.(sems := s.sems[id - 1 := r.sem], pd := r.pd,
               err := if r.stale then UNPROCESSABLE_TASK_STATE_ERR else s.err)
  {
    assert SemShape(s.sems[id - 1], s.pd);
  }

  method GiveTo(m: Semaphore, amount: int, ghost all: map<Pid, Task>) returns (stale: bool)
    requires Indexed(all) && Known(all, m.waitQueue)
    modifies m, all.Values
    ensures Known(all, m.waitQueue) && SemShape(old(m.View()), old(PdsOf(all)))
    ensures Drained(m.View(), PdsOf(all), stale) == GiveResult(old(m.View()), old(PdsOf(all)), amount)
  {
    hide Indexed, Known, PdsOf;
    KnownShape(all, m);
    m.count := m.count + amount;
    if m.isBinary && m.count > 1 { m.count := 1; }
    stale := false;
    if m.count > 0 && m.waitQueue != [] {
      stale := GetFromQueue(m, all);
    }
  }

  method GiveListed(m: Semaphore, amount: int, ghost all: map<Pid, Task>, ghost ms: seq<Semaphore>)
      returns (stale: bool)
    requires Indexed(all) && SemaphoresOk(all, ms) && 1 <= m.id <= |ms| && m == ms[m.id - 1]
    modifies m, all.Values
    ensures SemaphoresOk(all, ms) && SemShape(old(m.View()), old(PdsOf(all)))
    ensures var r := GiveResult(old(m.View()), old(PdsOf(all)), amount);
      SemsOf(ms) == old(SemsOf(ms))[m.id - 1 := r.sem] && PdsOf(all) == r.pd && stale == r.stale
  {
    hide Indexed, Known, PdsOf, GiveResult;
    ghost var sems := SemsOf(ms);
    stale := GiveTo(m, amount, all);
    SemaphoreChanged(ms, sems, m.id - 1);
  }

  lemma GiveRefused(s: KState, id: nat, amount: int)
    requires ObjectShape(s)
    ensures !(1 <= id <= |s.sems|) ==> SemaphoreGive(s, id, amount) == s.(err := OBJECT_NOT_FOUND_ERR)
  {
  }

  method GiveFound(k: System, m: Semaphore, amount: int)
    requires k.Valid() && 1 <= m.id <= |k.semaphores| && m == k.semaphores[m.id - 1]
    modifies k`err, k.all.Values, m
    ensures k.Valid() && |k.View().sems| == |k.semaphores| && SemShape(old(m.View()), old(k.View()).pd)
    ensures var s := old(k.View()); var r := GiveResult(old(m.View()), s.pd, amount);
      k.View() == s.(sems := s.sems[m.id - 1 := r.sem], pd := r.pd,
                     err := if r.stale then UNPROCESSABLE_TASK_STATE_ERR else s.err)
  {
    hide GiveResult, SemShape;
    hide MutexesOk, SemaphoresOk, MailboxesOk, GroupsOk, Known, Indexed, MutsOf, SemsOf, MbsOf, EgsOf, PdsOf, Pids;
    ViewParts(k);
    var stale := GiveListed(m, amount, k.all, k.semaphores);
    ViewParts(k);
    if stale { Raise(k, UNPROCESSABLE_TASK_STATE_ERR); }
  }

  /** Kernel_Semaphore_Give */
  method Give(k: System, id: nat, amount: int)
    requires k.Valid() && ObjectShape(k.View())
    modifies k`err, k.all.Values, k.semaphores
    ensures k.Valid()
    ensures k.View() == SemaphoreGive(old(k.View()), id, amount)
  {
    hide SemaphoreGive, GiveResult, ObjectShape, SemShape, System.Valid, System.View, SemsOf, MbsOf, EgsOf, PdsOf,
         MutsOf;
    ViewParts(k);
    GiveRefused(k.View(), id, amount);
    var m := FindSemaphore(k, id);
    if m == null {
      Raise(k, OBJECT_NOT_FOUND_ERR);
    } else {
      GiveSplits(k.View(), id, amount);
      GiveFound(k, m, amount);
    }
  }

  // ----- create

  method AddSemaphore(k: System, count: int, binary: bool) returns (m: Semaphore)
    requires k.Valid()
    modifies k`semaphores
    ensures k.Valid() && fresh(m) && m.id == |k.semaphores| && k.semaphores == old(k.semaphores) + [m]
    ensures var s := old(k.View()); k.View() == s.(sems := s.sems + [Sem(count, binary, [])])
  {
    hide MutexesOk, MailboxesOk, GroupsOk, Indexed, MutsOf, MbsOf, EgsOf, PdsOf, Pids;
    ghost var sems := SemsOf(k.semaphores);
    m := new Semaphore(|k.semaphores| + 1, count, binary);
    k.semaphores := k.semaphores + [m];
    assert SemsOf(k.semaphores) == sems + [m.View()];
  }

  /** Kernel_Create_Semaphore */
  method Create(k: System, initial: int, binary: bool)
    requires k.Valid() && k.current != null
    modifies k`err, k`semaphores, k.current
    ensures k.Valid() && forall x :: x in k.semaphores ==> x in old(k.semaphores) || fresh(x)
    ensures k.View() == Created(CreateSemaphore(old(k.View()), initial, binary))
  {
    hide System.Valid, System.View, SemsOf, MbsOf, EgsOf, PdsOf, MutsOf;
    ViewParts(k);
    if |k.semaphores| >= MAX_OBJECTS {
      Raise(k, MAX_OBJECT_ERR);
      Answer(k, 0);
    } else {
      var count := initial;
      if binary {
        if initial >= 1 {
          count := 1;
        } else {
          count := 0;
        }
      }
      var m := AddSemaphore(k, count, binary);
      Answer(k, m.id);
    }
  }
}
