/** task.c, in place. */
module KernelTasks {
  import opened KernelTypes
  import opened KernelState
  import opened Kernel
  import Spec = Requests

  /** findProcessByPID */
  method FindProcess(k: System, pid: Pid) returns (t: Task?)
    requires k.Valid() && 0 !in Pids(k.tasks)
    ensures if pid in Pids(k.tasks) then t != null && t.pid == pid && pid in k.all && k.all[pid] == t else t == null
  {
    if pid == 0 { return null; }
    var i := 0;
    while i < |k.tasks|
      invariant 0 <= i <= |k.tasks| && pid !in Pids(k.tasks)[..i]
    {
      assert k.all[k.tasks[i].pid] == k.tasks[i] && Pids(k.tasks)[i] == k.tasks[i].pid;
      if k.tasks[i].pid == pid { return k.tasks[i]; }
      i := i + 1;
    }
    assert Pids(k.tasks)[..i] == Pids(k.tasks);
    t := null;
  }

  lemma ListedTasks(k: System)
    requires k.Valid() && ListShape(k.View())
    ensures 0 !in Pids(k.tasks) && NoDup(Pids(k.tasks)) && k.lastPid + 1 !in k.all
    ensures forall p :: p in Pids(k.tasks) ==> p in PdsOf(k.all) && CanThaw(PdsOf(k.all)[p])
  {
    assert k.View().order == Pids(k.tasks) && k.View().pd == PdsOf(k.all);
    assert PdsOf(k.all).Keys == k.all.Keys;
  }

  // ----- creation

  lemma TaskAdded(all: map<Pid, Task>, all': map<Pid, Task>, was: map<Pid, PD>, t: Task)
    requires was.Keys == all.Keys && t.pid !in all && all' == all[t.pid := t]
    requires forall p :: p in all ==> all[p].View() == was[p]
    ensures PdsOf(all') == was[t.pid := t.View()]
  {
  }

  lemma StillKnown(all: map<Pid, Task>, all': map<Pid, Task>, t: Task, ts: seq<Task>)
    requires t.pid !in all && all' == all[t.pid := t] && Known(all, ts)
    ensures Known(all', ts)
  {
    forall i | 0 <= i < |ts| ensures ts[i].pid in all' && all'[ts[i].pid] == ts[i] {
      assert ts[i].pid in all;
    }
  }

  lemma ObjectsStillKnown(k: System, all: map<Pid, Task>, t: Task)
    requires t.pid !in all && k.all == all[t.pid := t]
    requires MutexesOk(all, k.mutexes) && SemaphoresOk(all, k.semaphores) && MailboxesOk(all, k.mailboxes)
    ensures MutexesOk(k.all, k.mutexes) && SemaphoresOk(k.all, k.semaphores) && MailboxesOk(k.all, k.mailboxes)
  {
    hide Known;
    forall i | 0 <= i < |k.mutexes| ensures Known(k.all, k.mutexes[i].waitQueue) {
      StillKnown(all, k.all, t, k.mutexes[i].waitQueue);
    }
    forall i | 0 <= i < |k.semaphores| ensures Known(k.all, k.semaphores[i].waitQueue) {
      StillKnown(all, k.all, t, k.semaphores[i].waitQueue);
    }
    forall i | 0 <= i < |k.mailboxes|
      ensures Known(k.all, k.mailboxes[i].sendQueue) && Known(k.all, k.mailboxes[i].recvQueue)
    {
      StillKnown(all, k.all, t, k.mailboxes[i].sendQueue);
      StillKnown(all, k.all, t, k.mailboxes[i].recvQueue);
    }
  }

  lemma IndexedOneMore(all: map<Pid, Task>, t: Task, ts: seq<Task>)
    requires Indexed(all) && Known(all, ts) && t.pid !in all
    ensures Indexed(all[t.pid := t]) && Known(all[t.pid := t], ts + [t])
  {
    StillKnown(all, all[t.pid := t], t, ts);
  }

  /** ptrlist_add of a new descriptor. */
  method AddTask(k: System, pri: nat) returns (t: Task)
    requires k.Valid() && k.lastPid + 1 !in k.all
    modifies k`tasks, k`taskCount, k`lastPid, k`all
    ensures k.Valid() && fresh(t) && t.pid == k.lastPid == old(k.lastPid) + 1
    ensures k.tasks == old(k.tasks) + [t] && k.all == old(k.all)[t.pid := t]
    ensures var s := old(k.View());
      k.View() == s.(order := s.order + [t.pid], lastPid := t.pid, pd := s.pd[t.pid := Spec.NewTask(pri)])
  {
    hide MutexesOk, SemaphoresOk, MailboxesOk, GroupsOk, Known, Indexed, Pids, PdsOf, MutsOf, SemsOf, MbsOf, EgsOf;
    ghost var all, pds := k.all, PdsOf(k.all);
    PdsKeys(k.all);
    t := new Task(k.lastPid + 1, pri);
    PidsAppend(k.tasks, t);
    IndexedOneMore(all, t, k.tasks);
    KeptTasks(all, pds);
    TaskAdded(all, all[t.pid := t], pds, t);
    k.tasks, k.taskCount, k.lastPid, k.all := k.tasks + [t], k.taskCount + 1, t.pid, k.all[t.pid := t];
    ObjectsStillKnown(k, all, t);
  }

  lemma KeptTasks(all: map<Pid, Task>, pds: map<Pid, PD>)
    requires pds == PdsOf(all)
    ensures forall p :: p in all ==> p in pds && all[p].View() == pds[p]
  {
  }

  /** Kernel_Create_Task_Direct */
  method CreateDirect(k: System, pri: nat) returns (pid: Pid)
    requires k.Valid() && k.lastPid + 1 !in k.all
    modifies k`tasks, k`taskCount, k`lastPid, k`all, k`err
    ensures k.Valid() && fresh(k.all.Values - old(k.all.Values))
    ensures old(k.all.Keys) <= k.all.Keys && forall p :: p in old(k.all) ==> k.all[p] == old(k.all)[p]
    ensures Spec.CreateTaskDirect(old(k.View()), pri) == (k.View(), pid)
  {
    hide System.Valid, System.View, MutsOf, SemsOf, MbsOf, EgsOf, PdsOf, Pids;
    TaskCounts(k);
    if k.taskCount == MAXTHREAD {
      Raise(k, MAX_OBJECT_ERR);
      return 0;
    }
    var t := AddTask(k, pri);
    pid := t.pid;
  }

  lemma TaskCounts(k: System)
    requires k.Valid()
    ensures |k.View().order| == k.taskCount == |k.tasks| && k.View().lastPid == k.lastPid
      && k.View().order == Pids(k.tasks)
    ensures k.View().last == k.last
  {
  }

  lemma CreateSplits(s: KState, pri: nat)
    requires s.current in s.pd
    ensures var (s1, p) := Spec.CreateTaskDirect(s, pri);
      && s.current in s1.pd
      && Spec.CreateTask(s, pri) == s1.(pd := s1.pd[s.current := s1.pd[s.current].(retval := p)])
  {
  }

  /** Kernel_Create_Task */
  method CreateTask(k: System, pri: nat)
    requires k.Valid() && k.current != null && k.lastPid + 1 !in k.all
    modifies k`tasks, k`taskCount, k`lastPid, k`all, k`err, k.current
    ensures k.Valid() && fresh(k.all.Values - old(k.all.Values))
    ensures k.View() == Spec.CreateTask(old(k.View()), pri)
  {
    hide Spec.CreateTask, Spec.CreateTaskDirect, System.Valid, System.View, MutsOf, SemsOf, MbsOf, EgsOf, PdsOf, Pids;
    ViewParts(k);
    CreateSplits(k.View(), pri);
    var pid := CreateDirect(k, pri);
    Answer(k, pid);
  }

  // ----- suspend, resume, sleep

  /** The assignments of Kernel_Suspend_Task to the task it found. */
  function Frozen(d: PD): PD {
    d.(lastState := if d.state == RUNNING then READY else d.state, state := SUSPENDED)
  }

  function Thawed(d: PD): PD {
    d.(state := if d.lastState == RUNNING then READY else d.lastState, lastState := SUSPENDED)
  }

  lemma SuspendSplits(s: KState, p: Pid)
    requires p in s.order ==> p in s.pd
    ensures Spec.Suspend(s, p) ==
      (if p !in s.order then s.(err := OBJECT_NOT_FOUND_ERR)
       else if !(s.pd[p].state == READY || s.pd[p].state == RUNNING || s.pd[p].state == SLEEPING)
       then s.(err := UNPROCESSABLE_TASK_STATE_ERR)
       else s.(pd := s.pd[p := Frozen(s.pd[p])]))
  {
  }

  lemma ResumeSplits(s: KState, p: Pid)
    requires p in s.order ==> p in s.pd
    ensures Spec.Resume(s, p) ==
      (if p !in s.order then s.(err := OBJECT_NOT_FOUND_ERR)
       else if s.pd[p].state != SUSPENDED then s.(err := UNPROCESSABLE_TASK_STATE_ERR)
       else s.(pd := s.pd[p := Thawed(s.pd[p])]))
  {
  }

  lemma TaskValue(k: System, t: Task)
    requires t.pid in k.all && k.all[t.pid] == t
    ensures t.pid in PdsOf(k.all) && PdsOf(k.all)[t.pid] == t.View() && t in k.all.Values
  {
  }

  method FreezeTask(t: Task)
    modifies t
    ensures t.View() == Frozen(old(t.View()))
  {
    if t.state == RUNNING {
      t.lastState := READY;
    } else {
      t.lastState := t.state;
    }
    t.state := SUSPENDED;
  }

  method ThawTask(t: Task)
    modifies t
    ensures t.View() == Thawed(old(t.View()))
  {
    if t.lastState == RUNNING {
      t.state := READY;
    } else {
      t.state := t.lastState;
    }
    t.lastState := SUSPENDED;
  }

  method Freeze(k: System, t: Task)
    requires k.Valid() && t.pid in k.all && k.all[t.pid] == t
    modifies t
    ensures k.Valid() && k.View() == old(k.View()).(pd := old(k.View()).pd[t.pid := Frozen(old(t.View()))])
  {
    hide MutexesOk, MailboxesOk, GroupsOk, SemaphoresOk, Known, MutsOf, SemsOf, MbsOf, EgsOf, Pids, Frozen;
    ghost var pds := PdsOf(k.all);
    FreezeTask(t);
    TaskChanged(k.all, pds, t);
  }

  method Thaw(k: System, t: Task)
    requires k.Valid() && t.pid in k.all && k.all[t.pid] == t
    modifies t
    ensures k.Valid() && k.View() == old(k.View()).(pd := old(k.View()).pd[t.pid := Thawed(old(t.View()))])
  {
    hide MutexesOk, MailboxesOk, GroupsOk, SemaphoresOk, Known, MutsOf, SemsOf, MbsOf, EgsOf, Pids, Thawed;
    ghost var pds := PdsOf(k.all);
    ThawTask(t);
    TaskChanged(k.all, pds, t);
  }

  /** Kernel_Suspend_Task */
  method Suspend(k: System, pid: Pid)
    requires k.Valid() && ListShape(k.View())
    modifies k`err, k.all.Values
    ensures k.Valid()
    ensures k.View() == Spec.Suspend(old(k.View()), pid)
  {
    hide Spec.Suspend, ListShape, Frozen, System.Valid, System.View, MutsOf, SemsOf, MbsOf, EgsOf, PdsOf, Pids;
    ListedTasks(k);
    ViewParts(k);
    TaskCounts(k);
    SuspendSplits(k.View(), pid);
    var t := FindProcess(k, pid);
    if t == null {
      Raise(k, OBJECT_NOT_FOUND_ERR);
      return;
    }
    TaskValue(k, t);
    if !(t.state == READY || t.state == RUNNING || t.state == SLEEPING) {
      Raise(k, UNPROCESSABLE_TASK_STATE_ERR);
      return;
    }
    Freeze(k, t);
  }

  /** Kernel_Resume_Task */
  method Resume(k: System, pid: Pid)
    requires k.Valid() && ListShape(k.View())
    modifies k`err, k.all.Values
    ensures k.Valid()
    ensures k.View() == Spec.Resume(old(k.View()), pid)
  {
    hide Spec.Resume, ListShape, Thawed, System.Valid, System.View, MutsOf, SemsOf, MbsOf, EgsOf, PdsOf, Pids;
    ListedTasks(k);
    ViewParts(k);
    TaskCounts(k);
    ResumeSplits(k.View(), pid);
    var t := FindProcess(k, pid);
    if t == null {
      Raise(k, OBJECT_NOT_FOUND_ERR);
      return;
    }
    TaskValue(k, t);
    if t.state != SUSPENDED {
      Raise(k, UNPROCESSABLE_TASK_STATE_ERR);
      return;
    }
    Thaw(k, t);
  }

  /** Kernel_Sleep_Task */
  method Sleep(k: System)
    requires k.Valid() && k.current != null
    modifies k`requestCswitch, k.current
    ensures k.Valid()
    ensures k.View() == Spec.Sleep(old(k.View()))
  {
    hide MutexesOk, MailboxesOk, GroupsOk, SemaphoresOk, Known, MutsOf, SemsOf, MbsOf, EgsOf, Pids;
    ghost var pds := PdsOf(k.all);
    k.current.state := SLEEPING;
    k.requestCswitch := true;
    TaskChanged(k.all, pds, k.current);
  }

  // ----- termination

  lemma IndexIs(ps: seq<Pid>, i: nat)
    requires NoDup(ps) && i < |ps|
    ensures IndexOf(ps, ps[i]) == i
  {
    assert ps[i] in ps;
    assert IndexOf(ps, ps[i]) < |ps|;
  }

  lemma PidsRemoved(ts: seq<Task>, i: nat)
    requires i < |ts|
    ensures Pids(ts[..i] + ts[i + 1..]) == Pids(ts)[..i] + Pids(ts)[i + 1..]
  {
  }

  lemma KnownRemoved(all: map<Pid, Task>, ts: seq<Task>, i: nat)
    requires Known(all, ts) && i < |ts|
    ensures Known(all, ts[..i] + ts[i + 1..])
  {
  }

  lemma TerminateSplits(s: KState, anchor: nat, i: nat)
    requires s.current in s.pd && NoDup(s.order) && i < |s.order| && s.order[i] == s.current
    ensures var rest, s' := s.order[..i] + s.order[i + 1..], Spec.Terminate(s, anchor);
      s' == s.(order := rest, last := if i == 0 || rest == [] then 0 else anchor % |rest|,
               pd := s.pd[s.current := s.pd[s.current].(state := DEAD)], cswitch := true)
  {
    IndexIs(s.order, i);
  }

  /** ptrlist_find: the list position of the current process. */
  method FindCurrent(k: System, c: Task) returns (i: nat)
    requires k.Valid() && c.pid in Pids(k.tasks) && c.pid in k.all && k.all[c.pid] == c
    ensures i < |k.tasks| && k.tasks[i] == c
  {
    ghost var j :| 0 <= j < |k.tasks| && Pids(k.tasks)[j] == c.pid;
    assert k.all[k.tasks[j].pid] == k.tasks[j];
    i := 0;
    while k.tasks[i] != c
      invariant i <= j
      decreases j - i
    {
      i := i + 1;
    }
  }

  /** ptrlist_remove, as far as the list goes, and the count of tasks. */
  method Unlink(k: System, i: nat)
    requires k.Valid() && i < |k.tasks|
    modifies k`tasks, k`taskCount
    ensures k.Valid()
    ensures var s := old(k.View()); i < |s.order| && k.View() == s.(order := s.order[..i] + s.order[i + 1..])
  {
    hide MutexesOk, MailboxesOk, GroupsOk, SemaphoresOk, Known, Indexed, MutsOf, SemsOf, MbsOf, EgsOf, PdsOf, Pids;
    k.taskCount := k.taskCount - 1;
    PidsRemoved(k.tasks, i);
    KnownRemoved(k.all, k.tasks, i);
    k.tasks := k.tasks[..i] + k.tasks[i + 1..];
  }

  method Kill(k: System)
    requires k.Valid() && k.current != null
    modifies k`requestCswitch, k.current
    ensures k.Valid() && old(k.current.pid in k.View().pd)
    ensures var s, c := old(k.View()), k.current.pid;
      k.View() == s.(pd := s.pd[c := s.pd[c].(state := DEAD)], cswitch := true)
  {
    hide MutexesOk, MailboxesOk, GroupsOk, SemaphoresOk, Known, MutsOf, SemsOf, MbsOf, EgsOf, Pids;
    ghost var pds := PdsOf(k.all);
    k.current.state := DEAD;
    k.requestCswitch := true;
    TaskChanged(k.all, pds, k.current);
  }

  /** Kernel_Terminate_Task; `anchor` is where Last_Dispatched is taken to point afterwards. */
  method Terminate(k: System, anchor: nat)
    requires k.Valid() && k.current != null && k.current.pid in Pids(k.tasks) && NoDup(Pids(k.tasks))
    modifies k`tasks, k`taskCount, k`last, k`requestCswitch, k.current
    ensures k.Valid()
    ensures k.View() == Spec.Terminate(old(k.View()), anchor)
  {
    hide Spec.Terminate, NoDup, System.Valid, System.View, MutsOf, SemsOf, MbsOf, EgsOf, PdsOf, Pids;
    ghost var s := k.View();
    CurrentListed(k);
    ViewParts(k);
    TaskCounts(k);
    var i := FindCurrent(k, k.current);
    assert Pids(k.tasks)[i] == k.current.pid;
    TerminateSplits(s, anchor, i);
    Kill(k);
    Unlink(k, i);
    TaskCounts(k);
    SetLast(k, if i == 0 || k.tasks == [] then 0 else anchor % |k.tasks|);
  }

  method SetLast(k: System, i: nat)
    requires k.Valid()
    modifies k`last
    ensures k.Valid() && k.View() == old(k.View()).(last := i)
  {
    hide MutexesOk, MailboxesOk, GroupsOk, SemaphoresOk, Known, Indexed, MutsOf, SemsOf, MbsOf, EgsOf, PdsOf, Pids;
    k.last := i;
  }
}
