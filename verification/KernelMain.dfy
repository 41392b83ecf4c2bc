/** The request switch, the main loop and the boot of kernel.c, on the kernel's objects. */
module KernelMain {
  import opened KernelTypes
  import opened KernelState
  import opened Requests
  import opened Kernel
  import KernelTasks
  import KernelMutex
  import KernelSemaphore
  import KernelEvents
  import KernelMailbox
  import KernelScheduler
  import MainLoop
  import Scheduler
  import StepScope
  import ShapeProofs
  import TameRuns
  import WaitQueues
  import EventGroups

  ghost function Objects(k: System): set<object>
    reads k
  {
    {k} + k.all.Values + (set m | m in k.mutexes) + (set m | m in k.semaphores) + (set g | g in k.groups)
    + (set m | m in k.mailboxes)
  }

  lemma EnterKernel(k: System)
    requires k.Valid() && k.current != null && Shape(k.View()) && k.current.pid in k.View().order
    ensures k.View().current in k.View().pd && k.View().current == k.current.pid && k.current.pid != 0
    ensures k.View().order == Pids(k.tasks) && NoDup(k.View().order) && k.lastPid + 1 !in k.all
    ensures ObjectShape(k.View()) && ListShape(k.View()) && k.current in k.all.Values
  {
    CurrentListed(k);
    ViewParts(k);
    KernelTasks.ListedTasks(k);
  }

  /** The switch of Kernel_Main_Loop over the requests that create something. */
  method HandleCreation(k: System, r: Request)
    requires r.TaskCreate? || r.MutCreate? || r.SemCreate? || r.EgCreate? || r.MbCreate?
    requires k.Valid() && k.current != null && Shape(k.View()) && k.current.pid in k.View().order
    modifies k, k.all.Values
    ensures k.Valid() && forall o :: o in Objects(k) ==> o in old(Objects(k)) || fresh(o)
    ensures old(k.View().current in k.View().pd && ObjectShape(k.View())) && k.View() == Handle(old(k.View()), r, 0)
  {
    hide System.View, System.Valid, Shape, ListShape, ObjectShape, NoDup, Pids;
    hide CreateTask, CreateMutex, CreateSemaphore, CreateEventGroup, CreateMailbox, Created, Stays;
    EnterKernel(k);
    match r
    case TaskCreate(pri) => KernelTasks.CreateTask(k, pri);
    case MutCreate => KernelMutex.CreateMutexObject(k);
    case SemCreate(initial, binary) => KernelSemaphore.Create(k, initial, binary);
    case EgCreate => KernelEvents.Create(k);
    case MbCreate(capacity) => KernelMailbox.Create(k, capacity);
  }

  /** The switch over the other task requests. */
  method HandleTask(k: System, r: Request, anchor: nat)
    requires r.TaskTerminate? || r.TaskSuspend? || r.TaskResume? || r.TaskSleep? || r.TaskYield? || r.NoRequest?
      || r.Invalid?
    requires k.Valid() && k.current != null && Shape(k.View()) && k.current.pid in k.View().order
    modifies k, k.all.Values
    ensures k.Valid() && k.all == old(k.all) && k.mutexes == old(k.mutexes) && k.semaphores == old(k.semaphores)
    ensures k.groups == old(k.groups) && k.mailboxes == old(k.mailboxes)
    ensures old(k.View().current in k.View().pd && ObjectShape(k.View()))
      && k.View() == Handle(old(k.View()), r, anchor)
  {
    hide System.View, System.Valid, Shape, ListShape, ObjectShape, NoDup, Pids, Terminate, Suspend, Resume, Sleep;
    EnterKernel(k);
    match r
    case TaskTerminate => KernelTasks.Terminate(k, anchor);
    case TaskSuspend(p) => KernelTasks.Suspend(k, p);
    case TaskResume(p) => KernelTasks.Resume(k, p);
    case TaskSleep(_) => KernelTasks.Sleep(k);
    case TaskYield =>
    case NoRequest =>
    case Invalid => Raise(k, INVALID_REQUEST_ERR);
  }

  /** The switch over mutex and semaphore requests. */
  method HandleLocking(k: System, r: Request)
    requires r.MutLock? || r.MutUnlock? || r.SemGive? || r.SemGet?
    requires k.current != null && (r.SemGet? ==> k.current.args == r)
    requires k.Valid() && k.current != null && Shape(k.View()) && k.current.pid in k.View().order
    modifies k, k.all.Values, k.mutexes, k.semaphores
    ensures k.Valid() && k.all == old(k.all) && k.mutexes == old(k.mutexes) && k.semaphores == old(k.semaphores)
    ensures k.groups == old(k.groups) && k.mailboxes == old(k.mailboxes)
    ensures old(k.View().current in k.View().pd && ObjectShape(k.View())) && k.View() == Handle(old(k.View()), r, 0)
  {
    hide System.View, System.Valid, Shape, ListShape, ObjectShape, NoDup, Pids, Lock, Unlock, SemaphoreGive,
         SemaphoreGet;
    EnterKernel(k);
    match r
    case MutLock(id) => KernelMutex.LockMutex(k, id);
    case MutUnlock(id) => KernelMutex.UnlockMutex(k, id);
    case SemGive(id, amount) => KernelSemaphore.Give(k, id, amount);
    case SemGet(id, amount) => KernelSemaphore.Get(k, id, amount);
  }

  /** The switch over event group requests. */
  method HandleGroups(k: System, r: Request)
    requires r.EgSetBits? || r.EgClearBits? || r.EgWaitBits?
    requires k.Valid() && k.current != null && Shape(k.View()) && k.current.pid in k.View().order
    modifies k, k.all.Values, k.groups
    ensures k.Valid() && k.all == old(k.all) && k.mutexes == old(k.mutexes) && k.semaphores == old(k.semaphores)
    ensures k.groups == old(k.groups) && k.mailboxes == old(k.mailboxes)
    ensures old(k.View().current in k.View().pd && ObjectShape(k.View())) && k.View() == Handle(old(k.View()), r, 0)
  {
    hide System.View, System.Valid, Shape, ListShape, ObjectShape, NoDup, Pids, SetBits, ClearBits, WaitBits;
    EnterKernel(k);
    match r
    case EgSetBits(id, bits) => KernelEvents.SetBits(k, id, bits);
    case EgClearBits(id, bits) => KernelEvents.ClearBits(k, id, bits);
    case EgWaitBits(id, bits, all, _) => KernelEvents.WaitBits(k, id, bits, all);
  }

  /** The switch over mailbox requests. */
  method HandleMail(k: System, r: Request)
    requires r.MbCheck? || r.MbSend? || r.MbRecv?
    requires k.Valid() && k.current != null && Shape(k.View()) && k.current.pid in k.View().order
    modifies k, k.all.Values, k.mailboxes
    ensures k.Valid() && k.all == old(k.all) && k.mutexes == old(k.mutexes) && k.semaphores == old(k.semaphores)
    ensures k.groups == old(k.groups) && k.mailboxes == old(k.mailboxes)
    ensures old(k.View().current in k.View().pd && ObjectShape(k.View())) && k.View() == Handle(old(k.View()), r, 0)
  {
    hide System.View, System.Valid, Shape, ListShape, ObjectShape, NoDup, Pids, Check, Send, Recv;
    EnterKernel(k);
    match r
    case MbCheck(id) => KernelMailbox.Check(k, id);
    case MbSend(id, body, size, blocking, _) => KernelMailbox.Send(k, id, body, size, blocking);
    case MbRecv(id, blocking, _) => KernelMailbox.Recv(k, id, blocking);
  }

  lemma AnchorMatters(s: KState, r: Request, anchor: nat)
    requires s.current in s.pd && ObjectShape(s) && !r.TaskTerminate?
    ensures Handle(s, r, anchor) == Handle(s, r, 0)
  {
  }

  /** The request switch of Kernel_Main_Loop. */
  method HandleRequest(k: System, r: Request, anchor: nat)
    requires k.Valid() && k.current != null && Shape(k.View()) && k.current.pid in k.View().order
    requires r.SemGet? ==> k.current.args == r
    modifies Objects(k)
    ensures k.Valid() && forall o :: o in Objects(k) ==> o in old(Objects(k)) || fresh(o)
    ensures old(k.View().current in k.View().pd && ObjectShape(k.View()))
      && k.View() == Handle(old(k.View()), r, anchor)
  {
    hide System.View, System.Valid, Shape, ListShape, ObjectShape, NoDup, Pids, Handle;
    EnterKernel(k);
    if !r.TaskTerminate? { AnchorMatters(k.View(), r, anchor); }
    if r.TaskCreate? || r.MutCreate? || r.SemCreate? || r.EgCreate? || r.MbCreate? {
      HandleCreation(k, r);
    } else if r.MutLock? || r.MutUnlock? || r.SemGive? || r.SemGet? {
      HandleLocking(k, r);
    } else if r.EgSetBits? || r.EgClearBits? || r.EgWaitBits? {
      HandleGroups(k, r);
    } else if r.MbCheck? || r.MbSend? || r.MbRecv? {
      HandleMail(k, r);
    } else {
      HandleTask(k, r, anchor);
    }
  }

  // ----- one kernel entry

  function WithArgs(d: PD, r: Request): PD {
    var d1 := if r.CarriesArgs() then d.(args := r) else d;
    if r.SetsTimeout() then d1.(timeout := r.timeout) else d1
  }

  method StoreArgs(c: Task, r: Request)
    modifies c
    ensures c.View() == WithArgs(old(c.View()), r) && (r.CarriesArgs() ==> c.args == r)
  {
    if r.CarriesArgs() { c.args := r; }
    if r.SetsTimeout() { c.timeout := r.timeout; }
  }

  method StoreInCurrent(k: System, r: Request)
    requires k.Valid() && k.current != null
    modifies k.current
    ensures k.Valid() && old(k.current.pid in k.View().pd) && (r.CarriesArgs() ==> k.current.args == r)
    ensures var s, c := old(k.View()), k.current.pid; k.View() == s.(pd := s.pd[c := WithArgs(s.pd[c], r)])
  {
    hide WithArgs, MutexesOk, MailboxesOk, GroupsOk, SemaphoresOk, Known, MutsOf, SemsOf, MbsOf, EgsOf, Pids;
    ghost var pds := PdsOf(k.all);
    CurrentListed(k);
    StoreArgs(k.current, r);
    TaskChanged(k.all, pds, k.current);
  }

  /** The os.c stub of a system call, and err = NO_ERR on kernel entry. */
  method IssueRequest(k: System, r: Request)
    requires k.Valid() && k.current != null
    modifies k`err, k.current
    ensures k.Valid() && old(k.View().current in k.View().pd)
    ensures k.View() == Issue(old(k.View()), r) && (r.CarriesArgs() ==> k.current.args == r)
  {
    hide System.View, System.Valid, MutsOf, SemsOf, MbsOf, EgsOf, PdsOf;
    ViewParts(k);
    StoreInCurrent(k, r);
    Raise(k, NO_ERR);
  }

  method ClearSwitchRequest(k: System)
    requires k.Valid()
    modifies k`requestCswitch
    ensures k.Valid() && k.View() == old(k.View()).(cswitch := false)
  {
    hide MutexesOk, MailboxesOk, GroupsOk, SemaphoresOk, Known, Indexed, MutsOf, SemsOf, MbsOf, EgsOf, PdsOf, Pids;
    k.requestCswitch := false;
  }

  lemma AliveFacts(k: System)
    requires k.Valid() && Alive(k.View())
    ensures k.current != null && k.current in k.all.Values && k.current.pid == k.View().current
      && k.View().current in k.View().order
    ensures Shape(k.View()) && k.View().last == k.last && |k.View().order| == |k.tasks|
  {
    KernelTasks.TaskCounts(k);
    CurrentListed(k);
    ViewParts(k);
  }

  lemma CalledFacts(s: KState, r: Request, anchor: nat)
    requires Alive(s)
    ensures var i := Issue(s, r); s.current in s.pd && Shape(i) && i.current == s.current && i.order == s.order
    ensures Issue(s, r).current in Issue(s, r).pd && MainLoop.Called(s, r, anchor) == Handle(Issue(s, r), r, anchor)
    ensures var h := MainLoop.Called(s, r, anchor); ListShape(h) && Shape(h) && (h.order != [] ==> h.last < |h.order|)
  {
    hide Handle, ObjectShape, Stays, AllReleased;
    ShapeProofs.IssueShape(s, r);
    HandleLast(Issue(s, r), r, anchor);
  }

  /** Whatever a handler does, Last_Dispatched is a position of the list it leaves. */
  lemma HandleLast(s: KState, r: Request, anchor: nat)
    requires s.current in s.pd && ObjectShape(s) && s.last < |s.order|
    ensures var h := Handle(s, r, anchor); h.order != [] ==> h.last < |h.order|
  {
    hide Handle;
    if !r.TaskCreate? && !r.TaskTerminate? {
      StepScope.HandleScope(s, r, anchor);
    } else {
      ListLast(s, r, anchor);
    }
  }

  lemma ListLast(s: KState, r: Request, anchor: nat)
    requires s.current in s.pd && ObjectShape(s) && s.last < |s.order| && (r.TaskCreate? || r.TaskTerminate?)
    ensures var h := Handle(s, r, anchor); h.order != [] ==> h.last < |h.order|
  {
    hide ObjectShape, Stays;
  }

  /** A kernel entry up to the point where a switch may be due. */
  method CallKernel(k: System, r: Request, anchor: nat)
    requires k.Valid() && Alive(k.View())
    modifies Objects(k)
    ensures k.Valid() && forall o :: o in Objects(k) ==> o in old(Objects(k)) || fresh(o)
    ensures k.View() == MainLoop.Called(old(k.View()), r, anchor)
  {
    hide System.View, System.Valid, Alive, Shape, ListShape, ObjectShape, NoDup, Pids, Handle, Issue, MainLoop.Called;
    AliveFacts(k);
    CalledFacts(k.View(), r, anchor);
    IssueRequest(k, r);
    HandleRequest(k, r, anchor);
  }

  lemma SwitchFacts(h: KState, batches: seq<nat>)
    requires Shape(h)
    ensures var d := Scheduler.Dispatch(h, batches);
      MainLoop.Switch(h, batches) == if d.None? then None else Some(d.value.(cswitch := false))
  {
    hide Scheduler.Dispatch, Shape;
  }

  /** A dispatch, after which no switch is pending. */
  method Switch(k: System, batches: seq<nat>) returns (ok: bool)
    requires k.Valid() && Shape(k.View()) && (k.View().order != [] ==> k.View().last < |k.View().order|)
    modifies Objects(k)
    ensures k.all == old(k.all) && forall o :: o in Objects(k) ==> o in old(Objects(k)) || fresh(o)
    ensures MainLoop.Switch(old(k.View()), batches) == if ok then Some(k.View()) else None
    ensures ok ==> k.Valid()
  {
    hide System.View, System.Valid, Shape, ListShape, Scheduler.Dispatch, MainLoop.Switch;
    ListOfShape(k.View());
    KernelTasks.TaskCounts(k);
    SwitchFacts(k.View(), batches);
    ok := KernelScheduler.Dispatch(k, batches);
    if ok { ClearSwitchRequest(k); }
  }

  lemma ListOfShape(s: KState)
    requires Shape(s)
    ensures ListShape(s)
  {
  }

  /** The timer interrupt. */
  method Tick(k: System)
    requires k.Valid()
    modifies k`tickCount
    ensures k.Valid() && k.View() == Scheduler.Tick(old(k.View()))
  {
    hide MutexesOk, MailboxesOk, GroupsOk, SemaphoresOk, Known, Indexed, MutsOf, SemsOf, MbsOf, EgsOf, PdsOf, Pids;
    k.tickCount := (k.tickCount + 1) % WORD;
  }

  lemma StepFacts(s: KState, e: MainLoop.Event)
    requires Alive(s)
    ensures e.TimerTick? ==> MainLoop.Step(s, e) == Some(Scheduler.Tick(s))
    ensures e.Call? ==>
      var h := MainLoop.Called(s, e.request, e.anchor);
      && Shape(h)
      && MainLoop.Step(s, e) == if MainLoop.Switches(h, e.request) then MainLoop.Switch(h, e.batches) else Some(h)
  {
    hide MainLoop.Switch, MainLoop.Called, Shape;
  }

  lemma FlagOf(k: System)
    requires k.Valid()
    ensures k.View().cswitch == k.requestCswitch
  {
  }

  /** One iteration of Kernel_Main_Loop, or one timer interrupt; false when the kernel idles on. */
  method Step(k: System, e: MainLoop.Event) returns (ok: bool)
    requires k.Valid() && Alive(k.View())
    modifies Objects(k)
    ensures forall o :: o in Objects(k) ==> o in old(Objects(k)) || fresh(o)
    ensures MainLoop.Step(old(k.View()), e) == if ok then Some(k.View()) else None
    ensures ok ==> k.Valid()
  {
    hide System.View, System.Valid, Alive, Shape, ListShape, MainLoop.Switch, MainLoop.Called, MainLoop.Step,
         Scheduler.Tick;
    StepFacts(k.View(), e);
    match e
    case TimerTick =>
      Tick(k);
      ok := true;
    case Call(r, anchor, batches) =>
      CalledFacts(k.View(), r, anchor);
      CallKernel(k, r, anchor);
      FlagOf(k);
      ok := true;
      if r.TaskYield? || r.NoRequest? || k.requestCswitch {
        ok := Switch(k, batches);
      }
  }

  /** Kernel_Main_Loop: the kernel's objects run through exactly the states of `Exec`. */
  method Run(k: System, es: seq<MainLoop.Event>) returns (ok: bool)
    requires k.Valid() && Alive(k.View())
    modifies Objects(k)
    ensures MainLoop.Exec(old(k.View()), es) == if ok then Some(k.View()) else None
    ensures ok ==> k.Valid()
  {
    hide System.View, System.Valid, Alive, MainLoop.Step, Objects;
    ghost var goal := MainLoop.Exec(k.View(), es);
    var i := 0;
    while i < |es|
      invariant 0 <= i <= |es| && k.Valid() && Alive(k.View())
      invariant forall o :: o in Objects(k) ==> o in old(Objects(k)) || fresh(o)
      invariant MainLoop.Exec(k.View(), es[i..]) == goal
    {
      assert es[i..][1..] == es[i + 1..];
      ok := Step(k, es[i]);
      if !ok { return; }
      i := i + 1;
    }
    ok := true;
  }

  // ----- boot

  /** A task or an object created by main() before OS_Start. */
  method CreateOne(k: System, c: MainLoop.Creation)
    requires k.Valid() && Shape(k.View())
    modifies Objects(k)
    ensures k.Valid() && (forall o :: o in Objects(k) ==> o in old(Objects(k)) || fresh(o))
      && k.View() == MainLoop.Create(old(k.View()), c)
  {
    hide System.View, System.Valid, Shape, CreateTaskDirect;
    ListOfShape(k.View());
    if c.ATask? {
      KernelTasks.ListedTasks(k);
      var _ := KernelTasks.CreateDirect(k, c.pri);
    } else if c.AMutex? {
      CreateAMutex(k);
    } else if c.ASemaphore? {
      CreateASemaphore(k, c.initial, c.binary);
    } else {
      CreateComm(k, c);
    }
  }

  method CreateAMutex(k: System)
    requires k.Valid()
    modifies Objects(k)
    ensures k.Valid() && (forall o :: o in Objects(k) ==> o in old(Objects(k)) || fresh(o))
      && k.View() == MainLoop.Create(old(k.View()), MainLoop.AMutex)
  {
    hide System.View, System.Valid, MutsOf, SemsOf, MbsOf, EgsOf, PdsOf;
    ViewParts(k);
    if |k.mutexes| >= MAX_OBJECTS {
      Raise(k, MAX_OBJECT_ERR);
    } else {
      var _ := KernelMutex.AddMutex(k);
    }
  }

  method CreateASemaphore(k: System, initial: int, binary: bool)
    requires k.Valid()
    modifies Objects(k)
    ensures k.Valid() && (forall o :: o in Objects(k) ==> o in old(Objects(k)) || fresh(o))
      && k.View() == MainLoop.Create(old(k.View()), MainLoop.ASemaphore(initial, binary))
  {
    hide System.View, System.Valid, MutsOf, SemsOf, MbsOf, EgsOf, PdsOf;
    ViewParts(k);
    if |k.semaphores| >= MAX_OBJECTS {
      Raise(k, MAX_OBJECT_ERR);
    } else {
      var count := if binary then (if initial >= 1 then 1 else 0) else initial;
      var _ := KernelSemaphore.AddSemaphore(k, count, binary);
    }
  }

  method CreateComm(k: System, c: MainLoop.Creation)
    requires k.Valid() && (c.AnEventGroup? || c.AMailbox?)
    modifies Objects(k)
    ensures k.Valid() && (forall o :: o in Objects(k) ==> o in old(Objects(k)) || fresh(o))
      && k.View() == MainLoop.Create(old(k.View()), c)
  {
    hide System.View, System.Valid, MutsOf, SemsOf, MbsOf, EgsOf, PdsOf;
    ViewParts(k);
    match c
    case AnEventGroup =>
      if |k.groups| >= MAX_OBJECTS {
        Raise(k, MAX_OBJECT_ERR);
      } else {
        var _ := KernelEvents.AddGroup(k);
      }
    case AMailbox(capacity) =>
      if |k.mailboxes| >= MAX_OBJECTS {
        Raise(k, MAX_OBJECT_ERR);
      } else {
        var _ := KernelMailbox.AddMailbox(k, capacity);
      }
  }

  /** Kernel_Reset, and the creations of main(). */
  method Configure(cs: seq<MainLoop.Creation>) returns (k: System)
    ensures k.Valid() && (forall o :: o in Objects(k) ==> fresh(o)) && k.View() == MainLoop.Configure(cs)
  {
    hide System.View, System.Valid, Shape, MainLoop.Create, Objects;
    k := NewSystem();
    var i := 0;
    while i < |cs|
      invariant 0 <= i <= |cs| && k.Valid() && k.View() == MainLoop.Configure(cs[..i])
      invariant forall o :: o in Objects(k) ==> fresh(o)
    {
      MainLoop.ConfigureShape(cs[..i]);
      assert cs[..i + 1][..i] == cs[..i];
      CreateOne(k, cs[i]);
      i := i + 1;
    }
    assert cs[..i] == cs;
  }

  method NewSystem() returns (k: System)
    ensures k.Valid() && (forall o :: o in Objects(k) ==> fresh(o)) && k.View() == MainLoop.RESET
  {
    k := new System();
  }

  /** Kernel_Start: the first dispatch starts its scan from the tail of the task list. */
  method Start(k: System, batches: seq<nat>) returns (ok: bool)
    requires k.Valid() && Shape(k.View()) && k.View().order != []
    modifies Objects(k)
    ensures old(Shape(k.View().(last := |k.View().order| - 1)))
    ensures MainLoop.Switch(old(k.View().(last := |k.View().order| - 1)), batches) ==
      if ok then Some(k.View()) else None
    ensures (ok ==> k.Valid()) && forall o :: o in Objects(k) ==> o in old(Objects(k)) || fresh(o)
  {
    hide System.View, System.Valid, Shape, MainLoop.Switch;
    ghost var s := k.View();
    ShapeProofs.TasksShape(s, s.(last := |s.order| - 1));
    KernelTasks.TaskCounts(k);
    KernelTasks.SetLast(k, |k.tasks| - 1);
    ok := Switch(k, batches);
  }

  /** OS_Init, main() and OS_Start: the kernel's objects come up in exactly the state of `MainLoop.Start`. */
  method Boot(cs: seq<MainLoop.Creation>, batches: seq<nat>) returns (k: System, ok: bool)
    ensures MainLoop.Start(cs, batches) == if ok then Some(k.View()) else None
    ensures (ok ==> k.Valid()) && forall o :: o in Objects(k) ==> fresh(o)
  {
    hide System.View, System.Valid, Shape, MainLoop.Switch, MainLoop.Configure, Objects;
    k := Configure(cs);
    MainLoop.ConfigureShape(cs);
    KernelTasks.TaskCounts(k);
    if k.tasks == [] { return k, false; }
    ok := Start(k, batches);
  }

  /** The kernel from power-on: however it is configured and whatever happens then, its objects are in
      the state of `Exec`, and in a tame run every invariant of that state holds of them. */
  method Operate(cs: seq<MainLoop.Creation>, batches: seq<nat>, es: seq<MainLoop.Event>) returns (k: System, ok: bool)
    ensures ok ==> k.Valid() && MainLoop.Start(cs, batches).Some?
    ensures ok ==> MainLoop.Exec(MainLoop.Start(cs, batches).value, es) == Some(k.View())
    ensures ok && (forall c :: c in cs ==> TameRuns.LegalCreation(c))
            && MainLoop.Along(MainLoop.Start(cs, batches).value, es, TameRuns.Tame)
            ==> TameRuns.Inv(k.View()) && WaitQueues.QueuesAgree(k.View())
    ensures ok ==> EventGroups.NoLostWakeUp(k.View())
  {
    hide *;
    k, ok := Boot(cs, batches);
    if !ok { return; }
    ghost var s := k.View();
    ok := Run(k, es);
    if ok {
      EventGroups.NeverLosesWakeUp(cs, batches, es);
      if (forall c :: c in cs ==> TameRuns.LegalCreation(c)) && MainLoop.Along(s, es, TameRuns.Tame) {
        TameRuns.AlwaysSound(cs, batches, es);
        WaitQueues.QueuesAlwaysAgree(cs, batches, es);
      }
    }
  }
}
