/** Exactly one task is RUNNING: the one that the kernel returns to. */
module Running {
  import opened KernelTypes
  import opened KernelState
  import opened Requests
  import opened Scheduler
  import opened ShapeProofs
  import opened MainLoop

  ghost predicate NoOtherRunning(s: KState) {
    forall p :: p in s.pd && p != s.current ==> s.pd[p].state != RUNNING
  }

  ghost predicate OneRunning(s: KState) {
    forall p :: p in s.pd ==> (s.pd[p].state == RUNNING <==> p == s.current)
  }

  predicate SuspendsItself(s: KState, e: Event) {
    e.Call? && e.request == TaskSuspend(s.current)
  }

  predicate NoSelfSuspension(s: KState, e: Event) { !SuspendsItself(s, e) }

  /** No handler makes a task RUNNING. */
  ghost predicate NoneStarted(s: KState, s': KState) {
    forall p :: p in s'.pd && s'.pd[p].state == RUNNING ==> p in s.pd && s.pd[p].state == RUNNING
  }

  /** The current task leaves RUNNING only together with a switch request. */
  ghost predicate LeavesBySwitch(s: KState, s': KState)
    requires s.current in s.pd
  {
    s.current in s'.pd && (s.pd[s.current].state == RUNNING ==> s'.pd[s.current].state == RUNNING || s'.cswitch)
  }

  lemma UnlockRunning(s: KState, id: nat)
    requires s.current in s.pd && ObjectShape(s)
    ensures NoneStarted(s, Unlock(s, id)) && LeavesBySwitch(s, Unlock(s, id))
  {
  }

  lemma GiveRunning(s: KState, id: nat, amount: int)
    requires s.current in s.pd && ObjectShape(s)
    ensures NoneStarted(s, SemaphoreGive(s, id, amount)) && LeavesBySwitch(s, SemaphoreGive(s, id, amount))
  {
    if 1 <= id <= |s.sems| {
      var m1 := Given(s.sems[id - 1], amount);
      assert SemShape(s.sems[id - 1], s.pd) && SemShape(m1, s.pd);
      DrainShape(m1, s.pd);
      assert forall p :: p in Drain(m1, s.pd).pd.Keys ==> p in s.pd.Keys;
    }
  }

  lemma BoxRunning(s: KState, id: nat, w: Box)
    requires s.current in s.pd && 1 <= id <= |s.mbs| && AllHandled(s.pd, w.pd)
    ensures NoneStarted(s, WithBox(s, id, w)) && LeavesBySwitch(s, WithBox(s, id, w))
  {
    forall p | p in w.pd ensures p in s.pd && Handled(s.pd[p], w.pd[p]) {
      assert p in w.pd.Keys;
    }
    assert Handled(s.pd[s.current], w.pd[s.current]);
  }

  lemma SendRunning(s: KState, id: nat, body: int, size: nat, blocking: bool)
    requires s.current in s.pd && ObjectShape(s)
    ensures NoneStarted(s, Send(s, id, body, size, blocking)) && LeavesBySwitch(s, Send(s, id, body, size, blocking))
  {
    if 1 <= id <= |s.mbs| {
      var (w, retval) := SendInternal(BoxAt(s, id), s.current, Mail(body, size, s.current), blocking);
      if retval != -1 { BoxRunning(s, id, w); }
    }
  }

  lemma RecvRunning(s: KState, id: nat, blocking: bool)
    requires s.current in s.pd && ObjectShape(s)
    ensures NoneStarted(s, Recv(s, id, blocking)) && LeavesBySwitch(s, Recv(s, id, blocking))
  {
    if 1 <= id <= |s.mbs| {
      var (w, retval) := RecvInternal(BoxAt(s, id), s.current, s.current, blocking);
      if retval != -1 { BoxRunning(s, id, w); }
    }
  }

  lemma TaskRunning(s: KState, r: Request, anchor: nat)
    requires s.current in s.pd && ObjectShape(s) && s.lastPid + 1 !in s.pd
    requires r.TaskCreate? || r.TaskTerminate? || r.TaskSuspend? || r.TaskSleep?
    ensures NoneStarted(s, Handle(s, r, anchor))
    ensures r != TaskSuspend(s.current) ==> LeavesBySwitch(s, Handle(s, r, anchor))
  {
  }

  lemma ResumeRunning(s: KState, p: Pid)
    requires s.current in s.pd && forall p :: p in s.pd ==> CanThaw(s.pd[p])
    ensures NoneStarted(s, Resume(s, p)) && LeavesBySwitch(s, Resume(s, p))
  {
    if p in s.pd { assert CanThaw(s.pd[p]); }
  }

  lemma EventRunning(s: KState, r: Request, anchor: nat)
    requires s.current in s.pd && ObjectShape(s)
    requires r.EgCreate? || r.EgSetBits? || r.EgClearBits? || r.EgWaitBits?
    ensures NoneStarted(s, Handle(s, r, anchor)) && LeavesBySwitch(s, Handle(s, r, anchor))
  {
  }

  lemma TakeRunning(s: KState, r: Request, anchor: nat)
    requires s.current in s.pd && ObjectShape(s) && (r.MutLock? || r.SemGet?)
    ensures NoneStarted(s, Handle(s, r, anchor)) && LeavesBySwitch(s, Handle(s, r, anchor))
  {
    hide ObjectShape, Stays;
  }

  lemma OtherRunning(s: KState, r: Request, anchor: nat)
    requires s.current in s.pd && ObjectShape(s)
    requires r.MutCreate? || r.SemCreate? || r.MbCreate? || r.MbCheck? || r.Invalid? || r.TaskYield? || r.NoRequest?
             || r.MutLock? || r.SemGet?
    ensures NoneStarted(s, Handle(s, r, anchor)) && LeavesBySwitch(s, Handle(s, r, anchor))
  {
    hide Lock, SemaphoreGet, ObjectShape, Stays, AllReleased, AllHandled, Drain, SendInternal, RecvInternal;
    if r.MutLock? || r.SemGet? { TakeRunning(s, r, anchor); }
  }

  lemma HandleRunning(s: KState, r: Request, anchor: nat)
    requires s.current in s.pd && ObjectShape(s) && s.lastPid + 1 !in s.pd
    requires forall p :: p in s.pd ==> CanThaw(s.pd[p])
    ensures NoneStarted(s, Handle(s, r, anchor))
    ensures r != TaskSuspend(s.current) ==> LeavesBySwitch(s, Handle(s, r, anchor))
  {
    if r.TaskCreate? || r.TaskTerminate? || r.TaskSuspend? || r.TaskSleep? {
      TaskRunning(s, r, anchor);
    } else if r.EgCreate? || r.EgSetBits? || r.EgClearBits? || r.EgWaitBits? {
      EventRunning(s, r, anchor);
    } else {
      match r
      case TaskResume(p) => ResumeRunning(s, p);
      case MutUnlock(id) => UnlockRunning(s, id);
      case SemGive(id, amount) => GiveRunning(s, id, amount);
      case MbSend(id, body, size, blocking, _) => SendRunning(s, id, body, size, blocking);
      case MbRecv(id, blocking, _) => RecvRunning(s, id, blocking);
      case _ => OtherRunning(s, r, anchor);
    }
  }

  /** Whatever happened before, a dispatch ends with only the chosen task RUNNING. */
  lemma DispatchRunning(s: KState, batches: seq<nat>)
    requires Shape(s) && NoOtherRunning(s)
    ensures Dispatch(s, batches).Some? ==> OneRunning(Dispatch(s, batches).value)
  {
    hide Choice, ScanTo, ObjectShape;
    var c := Choice(s, batches);
    if c.Some? {
      forall p | p in c.value.pd ensures c.value.pd[p].state != RUNNING {
        assert Aged(Requeue(s).pd[p], c.value.pd[p]);
      }
    }
  }

  lemma CalledRunning(s: KState, r: Request, anchor: nat)
    requires Alive(s) && OneRunning(s)
    ensures NoOtherRunning(Called(s, r, anchor)) && s.current in Called(s, r, anchor).pd
    ensures if r == TaskSuspend(s.current) then
              Called(s, r, anchor).pd[s.current].state == SUSPENDED && !Called(s, r, anchor).cswitch
            else Called(s, r, anchor).pd[s.current].state == RUNNING || Called(s, r, anchor).cswitch
  {
    var i := Issue(s, r);
    assert s.current in s.order && s.current in s.pd;
    IssueShape(s, r);
    IssueRunning(s, r);
    HandleRunning(i, r, anchor);
    HandledRunning(i, Handle(i, r, anchor));
  }

  lemma IssueRunning(s: KState, r: Request)
    requires s.current in s.pd && OneRunning(s)
    ensures OneRunning(Issue(s, r))
  {
  }

  lemma HandledRunning(i: KState, h: KState)
    requires OneRunning(i) && NoneStarted(i, h) && h.current == i.current
    ensures NoOtherRunning(h)
  {
  }

  /** A step keeps the property exactly when it is not a task suspending itself. */
  lemma StepKeepsOneRunning(s: KState, e: Event)
    requires Alive(s) && OneRunning(s) && Step(s, e).Some?
    ensures OneRunning(Step(s, e).value) <==> !SuspendsItself(s, e)
  {
    if e.Call? {
      var h := Called(s, e.request, e.anchor);
      CalledRunning(s, e.request, e.anchor);
      if Switches(h, e.request) {
        DispatchRunning(h, e.batches);
      }
    }
  }

  lemma StartRunning(cs: seq<Creation>, batches: seq<nat>)
    ensures Start(cs, batches).Some? ==> OneRunning(Start(cs, batches).value)
  {
    ConfigureShape(cs);
    ConfigureAllReady(cs);
    var s := Configure(cs);
    if s.order != [] {
      var s1 := s.(last := |s.order| - 1);
      TasksShape(s, s1);
      DispatchRunning(s1, batches);
    }
  }

  lemma ConfigureAllReady(cs: seq<Creation>)
    ensures forall p :: p in Configure(cs).pd ==> exists pri :: Configure(cs).pd[p] == NewTask(pri)
    decreases |cs|
  {
    if cs != [] {
      ConfigureAllReady(cs[..|cs| - 1]);
    }
  }

  /** In every run without self-suspension, timed or not, exactly the current task is RUNNING. */
  lemma {:induction false} AlwaysOneRunning(s: KState, es: seq<Event>)
    requires Alive(s) && OneRunning(s) && Along(s, es, NoSelfSuspension)
    ensures Exec(s, es).Some? ==> OneRunning(Exec(s, es).value)
    decreases |es|
  {
    if es != [] && Step(s, es[0]).Some? {
      StepKeepsOneRunning(s, es[0]);
      AlwaysOneRunning(Step(s, es[0]).value, es[1..]);
    }
  }
}
