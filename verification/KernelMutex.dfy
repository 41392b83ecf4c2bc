/** mutex.c, in place. */
module KernelMutex {
  import opened KernelTypes
  import opened KernelState
  import opened Requests
  import opened Kernel
  import opened MutexLaws

  /** findMutexByMutexID */
  method FindMutex(k: System, id: nat) returns (m: Mutex?)
    requires k.Valid()
    modifies k`err
    ensures k.Valid()
    ensures if 1 <= id <= |k.mutexes| then m == k.mutexes[id - 1] && m.id == id && k.View() == old(k.View())
            else m == null && k.View() == old(k.View()).(err := LookupError(id))
  {
    hide SemaphoresOk, MailboxesOk, GroupsOk, Known, Indexed, MutsOf, SemsOf, MbsOf, EgsOf, PdsOf, Pids;
    if id == 0 {
      Raise(k, INVALID_ARG_ERR);
      return null;
    }
    var i := 0;
    while i < |k.mutexes|
      invariant 0 <= i <= |k.mutexes| && i < id && k.Valid() && k.View() == old(k.View())
    {
      if k.mutexes[i].id == id { return k.mutexes[i]; }
      i := i + 1;
    }
    Raise(k, OBJECT_NOT_FOUND_ERR);
    m := null;
  }

  /** What a lock request does to the task that makes it. */
  function LockTask(m: Mut, d: PD, c: Pid, id: nat): PD {
    if m.owner == 0 then d.(held := d.held + [id])
    else if m.owner == c then d
    else d.(pri := Min(m.highest, d.pri), state := WAIT_MUTEX)
  }

  lemma LockSplits(s: KState, id: nat)
    requires s.current in s.pd && 1 <= id <= |s.muts|
    ensures var m, d, c, s' := s.muts[id - 1], s.pd[s.current], s.current, Lock(s, id);
      s' == s.(muts := s.muts[id - 1 := LockMut(m, c, d.pri)], pd := s.pd[c := LockTask(m, d, c, id)],
               cswitch := s.cswitch || (m.owner != 0 && m.owner != c))
  {
  }

  /** The branches of Kernel_Lock_Mutex, once the mutex has been found. */
  method LockBy(k: System, m: Mutex, c: Task, ghost all: map<Pid, Task>)
    requires Known(all, m.waitQueue) && c.pid in all && all[c.pid] == c
    modifies k`requestCswitch, m, c
    ensures Known(all, m.waitQueue)
    ensures m.View() == LockMut(old(m.View()), c.pid, old(c.pri))
    ensures c.View() == LockTask(old(m.View()), old(c.View()), c.pid, m.id)
    ensures k.requestCswitch == (old(k.requestCswitch) || (old(m.owner) != 0 && old(m.owner) != c.pid))
  {
    if m.owner == 0 {
      m.owner := c.pid;
      m.ownerOrig := c.pri;
      m.highest := c.pri;
      m.lockCount := m.lockCount + 1;
      c.held := c.held + [m.id];
    } else if m.owner == c.pid {
      m.lockCount := m.lockCount + 1;
    } else {
      m.waitQueue := m.waitQueue + [c];
      m.origPriority := m.origPriority + [c.pri];
      if m.highest < c.pri {
        c.pri := m.highest;
      } else if c.pri < m.highest {
        m.highest := c.pri;
      }
      c.state := WAIT_MUTEX;
      k.requestCswitch := true;
      PidsAppend(old(m.waitQueue), c);
    }
  }

  /** The same, seen from the kernel's lists. */
  method LockListed(k: System, m: Mutex, c: Task, ghost all: map<Pid, Task>, ghost ms: seq<Mutex>)
    requires Indexed(all) && MutexesOk(all, ms) && 1 <= m.id <= |ms| && m == ms[m.id - 1] && c.pid in all
      && all[c.pid] == c
    modifies k`requestCswitch, m, c
    ensures MutexesOk(all, ms)
    ensures MutsOf(ms) == old(MutsOf(ms))[m.id - 1 := LockMut(old(m.View()), c.pid, old(c.pri))]
    ensures PdsOf(all) == old(PdsOf(all))[c.pid := LockTask(old(m.View()), old(c.View()), c.pid, m.id)]
    ensures k.requestCswitch == (old(k.requestCswitch) || (old(m.owner) != 0 && old(m.owner) != c.pid))
  {
    ghost var pds, muts := PdsOf(all), MutsOf(ms);
    LockBy(k, m, c, all);
    MutexChanged(ms, muts, m.id - 1);
    TaskChanged(all, pds, c);
  }

  lemma LockRefused(s: KState, id: nat)
    requires s.current in s.pd
    ensures !(1 <= id <= |s.muts|) ==> Lock(s, id) == s.(err := LookupError(id))
  {
  }

  method LockFound(k: System, m: Mutex)
    requires k.Valid() && 1 <= m.id <= |k.mutexes| && m == k.mutexes[m.id - 1] && k.current != null
    modifies k`requestCswitch, k.current, m
    ensures k.Valid() && |k.View().muts| == |k.mutexes| && old(k.current.pid in k.View().pd)
    ensures var s, v, c := old(k.View()), old(m.View()), k.current.pid;
      k.View() == s.(muts := s.muts[m.id - 1 := LockMut(v, c, s.pd[c].pri)],
        pd := s.pd[c := LockTask(v, s.pd[c], c, m.id)],
                     cswitch := s.cswitch || (v.owner != 0 && v.owner != c))
  {
    hide LockMut, LockTask, MutexesOk, SemaphoresOk, MailboxesOk, GroupsOk, Known, Indexed, MutsOf, SemsOf, MbsOf,
         EgsOf, PdsOf, Pids;
    ViewParts(k);
    LockListed(k, m, k.current, k.all, k.mutexes);
    ViewParts(k);
  }

  /** Kernel_Lock_Mutex */
  method LockMutex(k: System, id: nat)
    requires k.Valid() && k.current != null
    modifies k`err, k`requestCswitch, k.current, k.mutexes
    ensures k.Valid()
    ensures k.View() == Lock(old(k.View()), id)
  {
    hide Lock, LockMut, LockTask, System.Valid, System.View, MutsOf, SemsOf, MbsOf, EgsOf, PdsOf;
    ViewParts(k);
    LockRefused(k.View(), id);
    var m := FindMutex(k, id);
    if m != null {
      LockSplits(k.View(), id);
      LockFound(k, m);
    }
  }

  // ----- release

  function GrantTask(d: PD, highest: nat, id: nat): PD {
    var d1 := d.(held := d.held + [id]);
    if d.state == WAIT_MUTEX then d1.(state := READY, pri := highest) else d1
  }

  /** What handing over does to the tasks: to the head of the queue, and to the releasing task. */
  function HandTasks(m: Mut, pd: map<Pid, PD>, c: Pid, id: nat): map<Pid, PD>
    requires m.waiters != [] && m.waiters[0] in pd && c in pd
  {
    var p := m.waiters[0];
    var pd1 := pd[p := GrantTask(pd[p], m.highest, id)];
    if pd[p].state == WAIT_MUTEX then pd1[c := pd1[c].(state := READY)] else pd1
  }

  function Restored(d: PD, pri: nat, id: nat, safe: bool): PD {
    d.(pri := pri, held := Without(d.held, id), orderly := d.orderly && safe)
  }

  function ReleaseTasks(m: Mut, pd: map<Pid, PD>, c: Pid, id: nat, safe: bool): map<Pid, PD>
    requires c in pd && (m.waiters != [] ==> m.waiters[0] in pd)
  {
    if m.lockCount > 1 then pd
    else
      var pd1 := pd[c := Restored(pd[c], m.ownerOrig, id, safe)];
      if m.waiters == [] then pd1 else HandTasks(m, pd1, c, id)
  }

  predicate HandsOver(m: Mut, pd: map<Pid, PD>) {
    m.lockCount <= 1 && m.waiters != [] && m.waiters[0] in pd && pd[m.waiters[0]].state == WAIT_MUTEX
  }

  /** The mutex and the head of its queue, when the former is passed to the latter. */
  method PassToHead(m: Mutex) returns (woken: bool)
    requires m.waitQueue != []
    modifies m, m.waitQueue[0]
    ensures var q, was := old(m.waitQueue), old(m.View());
      && m.waitQueue == q[1..]
      && m.View() == was.(owner := q[0].pid, lockCount := was.lockCount + 1, waiters := was.waiters[1..],
                          ownerOrig := if was.origs == [] then 0 else was.origs[0],
                          origs := if was.origs == [] then [] else was.origs[1..])
      && q[0].View() == GrantTask(old(m.waitQueue[0].View()), was.highest, m.id)
      && (woken <==> old(m.waitQueue[0].state) == WAIT_MUTEX)
  {
    var p := m.waitQueue[0];
    PidsTail(m.waitQueue);
    m.waitQueue := m.waitQueue[1..];
    m.owner := p.pid;
    if m.origPriority == [] {
      m.ownerOrig := 0;
    } else {
      m.ownerOrig, m.origPriority := m.origPriority[0], m.origPriority[1..];
    }
    m.lockCount := m.lockCount + 1;
    p.held := p.held + [m.id];
    woken := p.state == WAIT_MUTEX;
    if woken {
      p.state := READY;
      p.pri := m.highest;
    }
  }

  method PassListed(m: Mutex, ghost all: map<Pid, Task>) returns (woken: bool)
    requires Indexed(all) && Known(all, m.waitQueue) && m.waitQueue != []
    modifies m, m.waitQueue[0]
    ensures Known(all, m.waitQueue)
    ensures var was, pds := old(m.View()), old(PdsOf(all));
      && m.View() == was.(owner := was.waiters[0], lockCount := was.lockCount + 1, waiters := was.waiters[1..],
                          ownerOrig := if was.origs == [] then 0 else was.origs[0],
                          origs := if was.origs == [] then [] else was.origs[1..])
      && was.waiters[0] in pds
      && PdsOf(all) == pds[was.waiters[0] := GrantTask(pds[was.waiters[0]], was.highest, m.id)]
      && (woken <==> pds[was.waiters[0]].state == WAIT_MUTEX)
  {
    ghost var pds, p := PdsOf(all), m.waitQueue[0];
    assert all[p.pid] == p;
    woken := PassToHead(m);
    TaskChanged(all, pds, p);
  }

  method MakeReady(c: Task, ghost all: map<Pid, Task>)
    requires Indexed(all) && c.pid in all && all[c.pid] == c
    modifies c
    ensures c.pid in old(PdsOf(all))
    ensures PdsOf(all) == old(PdsOf(all))[c.pid := old(PdsOf(all))[c.pid].(state := READY)]
  {
    ghost var pds := PdsOf(all);
    c.state := READY;
    TaskChanged(all, pds, c);
  }

  /** The owner gets back the priority it had before it locked `m`. */
  method Restore(c: Task, m: Mutex, ghost all: map<Pid, Task>, ghost safe: bool)
    requires Indexed(all) && c.pid in all && all[c.pid] == c
    modifies c
    ensures c.pid in old(PdsOf(all))
    ensures PdsOf(all) == old(PdsOf(all))[c.pid := Restored(old(PdsOf(all))[c.pid], m.ownerOrig, m.id, safe)]
  {
    ghost var pds := PdsOf(all);
    c.pri := m.ownerOrig;
    c.held, c.orderly := Without(c.held, m.id), c.orderly && safe;
    TaskChanged(all, pds, c);
  }

  /** Kernel_Lock_Mutex_From_Queue */
  method LockFromQueue(k: System, m: Mutex, c: Task, ghost all: map<Pid, Task>)
    requires Indexed(all) && Known(all, m.waitQueue) && m.waitQueue != [] && c.pid in all && all[c.pid] == c
    modifies k`requestCswitch, m, c, m.waitQueue[0]
    ensures Known(all, m.waitQueue)
    ensures var was := old(m.View());
      && m.View() == was.(owner := was.waiters[0], lockCount := was.lockCount + 1, waiters := was.waiters[1..],
                          ownerOrig := if was.origs == [] then 0 else was.origs[0],
                          origs := if was.origs == [] then [] else was.origs[1..])
      && was.waiters[0] in old(PdsOf(all)) && c.pid in old(PdsOf(all))
      && PdsOf(all) == HandTasks(was, old(PdsOf(all)), c.pid, m.id)
    ensures k.requestCswitch == (old(k.requestCswitch) || old(PdsOf(all))[old(m.View()).waiters[0]].state == WAIT_MUTEX)
  {
    hide Known, Indexed, PdsOf, GrantTask;
    PdsKeys(all);
    var woken := PassListed(m, all);
    if woken {
      MakeReady(c, all);
      k.requestCswitch := true;
    }
  }

  /** Kernel_Unlock_Mutex by the owner. */
  method UnlockBy(k: System, m: Mutex, c: Task, ghost all: map<Pid, Task>, ghost safe: bool)
    requires Indexed(all) && Known(all, m.waitQueue) && c.pid in all && all[c.pid] == c
    requires m.owner == c.pid && m.lockCount > 0
    modifies k`requestCswitch, m, c, m.waitQueue
    ensures Known(all, m.waitQueue) && m.View() == UnlockMut(old(m.View()), c.pid)
    ensures PdsOf(all) == ReleaseTasks(old(m.View()), old(PdsOf(all)), c.pid, m.id, safe)
    ensures k.requestCswitch == (old(k.requestCswitch) || HandsOver(old(m.View()), old(PdsOf(all))))
  {
    hide Known, Indexed, PdsOf, GrantTask;
    PdsKeys(all);
    m.lockCount := m.lockCount - 1;
    if m.lockCount == 0 {
      Restore(c, m, all, safe);
      if m.waitQueue == [] {
        m.owner := 0;
      } else {
        LockFromQueue(k, m, c, all);
      }
    }
  }

  /** The same, seen from the kernel's lists. */
  method UnlockListed(k: System, m: Mutex, c: Task, ghost all: map<Pid, Task>, ghost ms: seq<Mutex>, ghost safe: bool)
    requires Indexed(all) && MutexesOk(all, ms) && 1 <= m.id <= |ms| && m == ms[m.id - 1]
    requires c.pid in all && all[c.pid] == c && m.owner == c.pid && m.lockCount > 0
    modifies k`requestCswitch, m, c, m.waitQueue
    ensures MutexesOk(all, ms) && MutsOf(ms) == old(MutsOf(ms))[m.id - 1 := UnlockMut(old(m.View()), c.pid)]
    ensures PdsOf(all) == ReleaseTasks(old(m.View()), old(PdsOf(all)), c.pid, m.id, safe)
    ensures k.requestCswitch == (old(k.requestCswitch) || HandsOver(old(m.View()), old(PdsOf(all))))
  {
    ghost var muts := MutsOf(ms);
    UnlockBy(k, m, c, all, safe);
    MutexChanged(ms, muts, m.id - 1);
  }

  lemma HandOffSplits(s: KState, id: nat)
    requires s.current in s.pd && 1 <= id <= |s.muts| && s.muts[id - 1].waiters != []
      && s.muts[id - 1].waiters[0] in s.pd
    ensures var m, s' := s.muts[id - 1], HandOff(s, id);
      s' == s.(muts := s'.muts, pd := HandTasks(m, s.pd, s.current, id),
               cswitch := s.cswitch || s.pd[m.waiters[0]].state == WAIT_MUTEX)
  {
  }

  lemma UnlockSplits(s: KState, id: nat)
    requires s.current in s.pd && s.current != 0 && ObjectShape(s) && 1 <= id <= |s.muts|
      && s.muts[id - 1].owner == s.current
    ensures s.muts[id - 1].lockCount > 0
    ensures s.muts[id - 1].waiters != [] ==> s.muts[id - 1].waiters[0] in s.pd
    ensures var m, c, s' := s.muts[id - 1], s.current, Unlock(s, id);
      s' == s.(muts := s.muts[id - 1 := UnlockMut(m, c)], pd := ReleaseTasks(m, s.pd, c, id, SafeRelease(s, id)),
               cswitch := s.cswitch || HandsOver(m, s.pd))
  {
    hide SafeRelease, Without, AllReleased, Stays;
    var m, c, d := s.muts[id - 1], s.current, s.pd[s.current];
    assert MutShape(m, s.pd);
    UnlockIsUnlockMut(s, id, id);
    if m.lockCount <= 1 && m.waiters != [] {
      assert m.waiters[0] in m.waiters;
      var s1 := WithMut(WithCur(s, Restored(d, m.ownerOrig, id, SafeRelease(s, id))), id, m.(lockCount := 0));
      HandOffSplits(s1, id);
    }
  }

  lemma UnlockRefused(s: KState, id: nat)
    requires s.current in s.pd && ObjectShape(s)
    ensures !Owns(s, s.current, id) ==>
      Unlock(s, id) == s.(err := if 1 <= id <= |s.muts| then OBJECT_NOT_FOUND_ERR else LookupError(id))
  {
  }

  lemma WaitersKnown(k: System, m: Mutex)
    requires k.Valid() && 1 <= m.id <= |k.mutexes| && m == k.mutexes[m.id - 1]
    ensures forall t :: t in m.waitQueue ==> t in k.all.Values
    ensures m.View().waiters != [] ==> m.View().waiters[0] in PdsOf(k.all)
  {
    hide PdsOf;
    PdsKeys(k.all);
    KnownValues(k.all, m.waitQueue);
  }

  method UnlockFound(k: System, m: Mutex, ghost safe: bool)
    requires k.Valid() && k.current != null && 1 <= m.id <= |k.mutexes| && m == k.mutexes[m.id - 1]
    requires m.owner == k.current.pid && m.lockCount > 0
    modifies k`requestCswitch, k.all.Values, m
    ensures k.Valid() && |k.View().muts| == |k.mutexes| && old(k.current.pid in k.View().pd)
    ensures var s, v, c := old(k.View()), old(m.View()), k.current.pid;
      && (v.waiters != [] ==> v.waiters[0] in s.pd)
      && k.View() == s.(muts := s.muts[m.id - 1 := UnlockMut(v, c)], pd := ReleaseTasks(v, s.pd, c, m.id, safe),
                        cswitch := s.cswitch || HandsOver(v, s.pd))
  {
    hide UnlockMut, ReleaseTasks, HandsOver, MutexesOk, SemaphoresOk, MailboxesOk, GroupsOk, Known, Indexed, MutsOf,
         SemsOf, MbsOf, EgsOf, PdsOf, Pids;
    ViewParts(k);
    WaitersKnown(k, m);
    UnlockListed(k, m, k.current, k.all, k.mutexes, safe);
    ViewParts(k);
  }

  /** Kernel_Unlock_Mutex */
  method UnlockMutex(k: System, id: nat)
    requires k.Valid() && k.current != null && k.current.pid != 0 && ObjectShape(k.View())
    modifies k`err, k`requestCswitch, k.all.Values, k.mutexes
    ensures k.Valid()
    ensures k.View() == Unlock(old(k.View()), id)
  {
    hide ObjectShape, Unlock, UnlockMut, ReleaseTasks, HandsOver, SafeRelease, System.Valid, System.View, MutsOf,
         SemsOf, MbsOf, EgsOf, PdsOf;
    ViewParts(k);
    UnlockRefused(k.View(), id);
    var m := FindMutex(k, id);
    if m == null { return; }
    if m.owner != k.current.pid {
      Raise(k, OBJECT_NOT_FOUND_ERR);
    } else {
      UnlockSplits(k.View(), id);
      UnlockFound(k, m, SafeRelease(k.View(), id));
    }
  }

  method AddMutex(k: System) returns (m: Mutex)
    requires k.Valid()
    modifies k`mutexes
    ensures k.Valid() && fresh(m) && m.id == |k.mutexes| && k.mutexes == old(k.mutexes) + [m]
    ensures var s := old(k.View()); k.View() == s.(muts := s.muts + [NewMutex()])
  {
    hide SemaphoresOk, MailboxesOk, GroupsOk, Indexed, SemsOf, MbsOf, EgsOf, PdsOf, Pids;
    ghost var muts := MutsOf(k.mutexes);
    m := new Mutex(|k.mutexes| + 1);
    k.mutexes := k.mutexes + [m];
    assert Pids([]) == [];
    assert MutsOf(k.mutexes) == muts + [m.View()];
  }

  /** Kernel_Create_Mutex */
  method CreateMutexObject(k: System)
    requires k.Valid() && k.current != null
    modifies k`err, k`mutexes, k.current
    ensures k.Valid() && forall x :: x in k.mutexes ==> x in old(k.mutexes) || fresh(x)
    ensures k.View() == Created(CreateMutex(old(k.View())))
  {
    hide System.Valid, System.View, MutsOf, SemsOf, MbsOf, EgsOf, PdsOf;
    ViewParts(k);
    if |k.mutexes| >= MAX_OBJECTS {
      Raise(k, MAX_OBJECT_ERR);
      Answer(k, 0);
    } else {
      var m := AddMutex(k);
      Answer(k, m.id);
    }
  }
}
