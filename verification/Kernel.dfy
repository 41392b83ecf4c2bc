/** The kernel's objects on the heap, and the value that each of them stands for. */
module Kernel {
  import opened KernelTypes
  import opened KernelState

  /** struct ProcessDescriptor */
  class Task {
    const pid: Pid
    ghost const base: nat
    var pri: nat
    var state: ProcessState
    var args: Request
    var retval: int
    var timeout: nat
    var lastState: ProcessState
    var starvation: nat
    var dest: Mail
    ghost var held: seq<nat>
    ghost var orderly: bool

    ghost function View(): PD
      reads this
    {
      PD(pri, base, state, args, retval, timeout, lastState, starvation, dest, held, orderly)
    }

    constructor (pid: Pid, pri: nat)
      ensures this.pid == pid && View() == PD(pri, pri, READY, NoRequest, 0, 0, DEAD, 0, NO_MAIL, [], true)
    {
      this.pid, this.base, this.pri, this.state, this.args := pid, pri, pri, READY, NoRequest;
      retval, timeout, lastState, starvation, dest, held, orderly := 0, 0, DEAD, 0, NO_MAIL, [], true;
    }
  }

  function Pids(ts: seq<Task>): (s: seq<Pid>)
    ensures |s| == |ts| && forall i :: 0 <= i < |ts| ==> s[i] == ts[i].pid
  {
    seq(|ts|, i requires 0 <= i < |ts| => ts[i].pid)
  }

  lemma PidsTail(ts: seq<Task>)
    requires ts != []
    ensures Pids(ts[1..]) == Pids(ts)[1..]
  {
  }

  lemma PidsAppend(ts: seq<Task>, t: Task)
    ensures Pids(ts + [t]) == Pids(ts) + [t.pid]
  {
  }

  /** MUTEX_TYPE */
  class Mutex {
    const id: nat
    var owner: Pid
    var lockCount: nat
    var highest: nat
    var ownerOrig: nat
    var waitQueue: seq<Task>
    var origPriority: seq<nat>

    ghost function View(): Mut
      reads this
    {
      Mut(owner, lockCount, highest, ownerOrig, Pids(waitQueue), origPriority)
    }

    constructor (id: nat)
      ensures this.id == id && View() == Mut(0, 0, LOWEST_PRIORITY, 0, [], []) && waitQueue == []
    {
      this.id, owner, lockCount, highest, ownerOrig := id, 0, 0, LOWEST_PRIORITY, 0;
      waitQueue, origPriority := [], [];
    }
  }

  /** SEMAPHORE_TYPE */
  class Semaphore {
    const id: nat
    const isBinary: bool
    var count: int
    var waitQueue: seq<Task>

    ghost function View(): Sem
      reads this
    {
      Sem(count, isBinary, Pids(waitQueue))
    }

    constructor (id: nat, count: int, isBinary: bool)
      ensures this.id == id && View() == Sem(count, isBinary, []) && waitQueue == []
    {
      this.id, this.isBinary, this.count, waitQueue := id, isBinary, count, [];
    }
  }

  /** EVENT_GROUP_TYPE */
  class EventGroup {
    const id: nat
    var events: bv16

    constructor (id: nat)
      ensures this.id == id && events == 0
    {
      this.id, events := id, 0;
    }
  }

  /** MAILBOX_TYPE */
  class Mailbox {
    const id: nat
    const capacity: nat
    var mails: seq<Mail>
    var sendQueue: seq<Task>
    var recvQueue: seq<Task>
    ghost var delivered: seq<Mail>

    ghost function View(): Mb
      reads this
    {
      Mb(capacity, mails, Pids(sendQueue), Pids(recvQueue), delivered)
    }

    constructor (id: nat, capacity: nat)
      ensures this.id == id && View() == Mb(capacity, [], [], [], []) && sendQueue == recvQueue == []
    {
      this.id, this.capacity, mails, sendQueue, recvQueue, delivered := id, capacity, [], [], [], [];
    }
  }

  // ----- lists of objects and their values

  /** Every reference is to the indexed task of that PID. */
  ghost predicate Known(all: map<Pid, Task>, ts: seq<Task>) {
    forall i :: 0 <= i < |ts| ==> ts[i].pid in all && all[ts[i].pid] == ts[i]
  }

  ghost predicate Indexed(all: map<Pid, Task>) {
    forall p :: p in all ==> all[p].pid == p
  }

  ghost predicate MutexesOk(all: map<Pid, Task>, ms: seq<Mutex>)
    reads ms
  {
    forall i :: 0 <= i < |ms| ==> ms[i].id == i + 1 && Known(all, ms[i].waitQueue)
  }

  ghost predicate SemaphoresOk(all: map<Pid, Task>, ms: seq<Semaphore>)
    reads ms
  {
    forall i :: 0 <= i < |ms| ==> ms[i].id == i + 1 && Known(all, ms[i].waitQueue)
  }

  ghost predicate MailboxesOk(all: map<Pid, Task>, ms: seq<Mailbox>)
    reads ms
  {
    forall i :: 0 <= i < |ms| ==> ms[i].id == i + 1 && Known(all, ms[i].sendQueue) && Known(all, ms[i].recvQueue)
  }

  ghost predicate GroupsOk(gs: seq<EventGroup>) {
    forall i :: 0 <= i < |gs| ==> gs[i].id == i + 1
  }

  ghost function PdsOf(all: map<Pid, Task>): map<Pid, PD>
    reads all.Values
  {
    map p | p in all :: all[p].View()
  }

  ghost function MutsOf(ms: seq<Mutex>): seq<Mut>
    reads ms
  {
    seq(|ms|, i requires 0 <= i < |ms| reads ms => ms[i].View())
  }

  ghost function SemsOf(ms: seq<Semaphore>): seq<Sem>
    reads ms
  {
    seq(|ms|, i requires 0 <= i < |ms| reads ms => ms[i].View())
  }

  ghost function EgsOf(gs: seq<EventGroup>): seq<bv16>
    reads gs
  {
    seq(|gs|, i requires 0 <= i < |gs| reads gs => gs[i].events)
  }

  ghost function MbsOf(ms: seq<Mailbox>): seq<Mb>
    reads ms
  {
    seq(|ms|, i requires 0 <= i < |ms| reads ms => ms[i].View())
  }

  /** The kernel's global variables. `all` indexes every descriptor ever created by its PID. */
  class System {
    var tasks: seq<Task>
    var taskCount: nat
    var lastPid: nat
    var current: Task?
    var last: nat
    var tickCount: nat
    var mutexes: seq<Mutex>
    var semaphores: seq<Semaphore>
    var groups: seq<EventGroup>
    var mailboxes: seq<Mailbox>
    var requestCswitch: bool
    var err: ErrorCode
    ghost var all: map<Pid, Task>
    ghost var clock: nat

    /** Kernel_Reset */
    constructor ()
      ensures Valid() && all == map[] && current == null
      ensures tasks == [] && mutexes == [] && semaphores == [] && groups == [] && mailboxes == []
      ensures View() == KState([], map[], 0, 0, 0, 0, [], [], [], [], 0, false, NO_ERR)
    {
      tasks, taskCount, lastPid, current, last, tickCount := [], 0, 0, null, 0, 0;
      mutexes, semaphores, groups, mailboxes := [], [], [], [];
      requestCswitch, err, all, clock := false, NO_ERR, map[], 0;
    }

    /** The objects hang together: every reference is to an indexed task, and ids are positions. */
    ghost predicate Valid()
      reads this, mutexes, semaphores, mailboxes
    {
      && Indexed(all) && Known(all, tasks) && taskCount == |tasks|
      && (current != null ==> current.pid in all && all[current.pid] == current)
      && MutexesOk(all, mutexes) && SemaphoresOk(all, semaphores) && MailboxesOk(all, mailboxes) && GroupsOk(groups)
    }

    /** The value of the whole kernel state. */
    ghost function View(): KState
      reads this, all.Values, mutexes, semaphores, groups, mailboxes
    {
      KState(Pids(tasks), PdsOf(all), if current == null then 0 else current.pid, last, tickCount, clock,
             MutsOf(mutexes), SemsOf(semaphores), MbsOf(mailboxes), EgsOf(groups), lastPid, requestCswitch, err)
    }
  }

  lemma KnownValues(all: map<Pid, Task>, ts: seq<Task>)
    requires Known(all, ts)
    ensures forall t :: t in ts ==> t in all.Values
  {
    forall t | t in ts ensures t in all.Values {
      var i :| 0 <= i < |ts| && ts[i] == t;
      assert all[ts[i].pid] == t;
    }
  }

  /** The lists of the view have the lengths and elements of the kernel's lists. */
  lemma ViewParts(k: System)
    requires k.Valid()
    ensures |MutsOf(k.mutexes)| == |k.mutexes| && |SemsOf(k.semaphores)| == |k.semaphores|
    ensures |MbsOf(k.mailboxes)| == |k.mailboxes| && |EgsOf(k.groups)| == |k.groups|
    ensures forall i :: 0 <= i < |k.mutexes| ==> MutsOf(k.mutexes)[i] == k.mutexes[i].View()
    ensures forall i :: 0 <= i < |k.semaphores| ==> SemsOf(k.semaphores)[i] == k.semaphores[i].View()
    ensures forall i :: 0 <= i < |k.mailboxes| ==> MbsOf(k.mailboxes)[i] == k.mailboxes[i].View()
    ensures forall i :: 0 <= i < |k.groups| ==> EgsOf(k.groups)[i] == k.groups[i].events
    ensures PdsOf(k.all).Keys == k.all.Keys
    ensures k.current != null ==>
      k.current.pid == k.View().current && k.current.pid in PdsOf(k.all)
        && PdsOf(k.all)[k.current.pid] == k.current.View()
    ensures k.View().muts == MutsOf(k.mutexes) && k.View().sems == SemsOf(k.semaphores)
    ensures k.View().mbs == MbsOf(k.mailboxes) && k.View().egs == EgsOf(k.groups) && k.View().pd == PdsOf(k.all)
  {
  }

  // ----- how the view follows an update

  lemma TaskChanged(all: map<Pid, Task>, was: map<Pid, PD>, t: Task)
    requires was.Keys == all.Keys && t.pid in all && all[t.pid] == t
    requires forall p :: p in all && p != t.pid ==> all[p].View() == was[p]
    ensures PdsOf(all) == was[t.pid := t.View()]
  {
  }

  lemma PdsKeys(all: map<Pid, Task>)
    ensures PdsOf(all).Keys == all.Keys
  {
  }

  /** A loop over the task list that has treated the tasks `ps` so far. */
  ghost function MapUpTo(pd: map<Pid, PD>, ps: seq<Pid>, f: PD -> PD): map<Pid, PD> {
    map p | p in pd :: if p in ps then f(pd[p]) else pd[p]
  }

  lemma MapOneMore(pd: map<Pid, PD>, ps: seq<Pid>, p: Pid, f: PD -> PD)
    requires p in pd && p !in ps
    ensures p in MapUpTo(pd, ps, f) && MapUpTo(pd, ps, f)[p] == pd[p]
    ensures MapUpTo(pd, ps + [p], f) == MapUpTo(pd, ps, f)[p := f(pd[p])]
  {
  }

  lemma MapNone(pd: map<Pid, PD>, f: PD -> PD)
    ensures MapUpTo(pd, [], f) == pd
  {
  }

  /** The i-th task of the list is indexed and differs from those before it. */
  lemma NextTask(all: map<Pid, Task>, ts: seq<Task>, i: nat)
    requires Known(all, ts) && NoDup(Pids(ts)) && i < |ts|
    ensures ts[i] in all.Values && ts[i].pid in all && all[ts[i].pid] == ts[i]
    ensures ts[i].pid !in Pids(ts)[..i] && Pids(ts)[..i + 1] == Pids(ts)[..i] + [ts[i].pid]
    ensures PdsOf(all).Keys == all.Keys && PdsOf(all)[ts[i].pid] == ts[i].View()
  {
    assert all[ts[i].pid] == ts[i];
  }

  lemma MutexChanged(ms: seq<Mutex>, was: seq<Mut>, i: nat)
    requires |was| == |ms| && i < |was|
    requires forall j :: 0 <= j < |was| && j != i ==> ms[j].View() == was[j]
    ensures MutsOf(ms) == was[i := ms[i].View()]
  {
  }

  lemma SemaphoreChanged(ms: seq<Semaphore>, was: seq<Sem>, i: nat)
    requires |was| == |ms| && i < |was|
    requires forall j :: 0 <= j < |was| && j != i ==> ms[j].View() == was[j]
    ensures SemsOf(ms) == was[i := ms[i].View()]
  {
  }

  lemma GroupChanged(gs: seq<EventGroup>, was: seq<bv16>, i: nat)
    requires |was| == |gs| && i < |was|
    requires forall j :: 0 <= j < |was| && j != i ==> gs[j].events == was[j]
    ensures EgsOf(gs) == was[i := gs[i].events]
  {
  }

  lemma MailboxChanged(ms: seq<Mailbox>, was: seq<Mb>, i: nat)
    requires |was| == |ms| && i < |was|
    requires forall j :: 0 <= j < |was| && j != i ==> ms[j].View() == was[j]
    ensures MbsOf(ms) == was[i := ms[i].View()]
  {
  }

  // ----- small steps that several handlers take

  lemma CurrentListed(k: System)
    requires k.Valid() && k.current != null
    ensures k.current.pid in k.all && k.all[k.current.pid] == k.current && k.current in k.all.Values
    ensures k.current.pid in PdsOf(k.all) && PdsOf(k.all)[k.current.pid] == k.current.View()
  {
    assert k.all[k.current.pid] == k.current;
  }

  /** kernel_raise_error */
  method Raise(k: System, e: ErrorCode)
    requires k.Valid()
    modifies k`err
    ensures k.Valid() && k.View() == old(k.View()).(err := e)
  {
    hide MutexesOk, MailboxesOk, GroupsOk, SemaphoresOk, Known, Indexed, MutsOf, SemsOf, MbsOf, EgsOf, PdsOf, Pids;
    k.err := e;
  }

  /** Current_Process->request_retval = v */
  method Answer(k: System, v: int)
    requires k.Valid() && k.current != null
    modifies k.current
    ensures k.Valid() && old(k.current.pid in k.View().pd)
    ensures var s := old(k.View()); k.View() == s.(pd := s.pd[s.current := s.pd[s.current].(retval := v)])
  {
    hide MutexesOk, MailboxesOk, GroupsOk, SemaphoresOk, Known, MutsOf, SemsOf, MbsOf, EgsOf, Pids;
    ghost var pds := PdsOf(k.all);
    k.current.retval := v;
    TaskChanged(k.all, pds, k.current);
  }
}
