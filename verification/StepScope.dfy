/** Which objects a step can change, and that nobody's request arguments change while it waits. */
module StepScope {
  import opened KernelTypes
  import opened KernelState
  import opened Requests
  import opened Scheduler
  import opened ShapeProofs
  import opened MainLoop

  ghost predicate ArgsKept(s: KState, s': KState, but: Pid) {
    forall p :: p in s.pd && p != but ==> p in s'.pd && s'.pd[p].args == s.pd[p].args
  }

  lemma MailArgs(s: KState, r: Request, anchor: nat)
    requires s.current in s.pd && ObjectShape(s) && (r.MbSend? || r.MbRecv?)
    ensures ArgsKept(s, Handle(s, r, anchor), s.current)
  {
    if 1 <= r.id <= |s.mbs| {
      var (w, retval) :=
        if r.MbSend? then SendInternal(BoxAt(s, r.id), s.current, Mail(r.body, r.size, s.current), r.blocking)
        else RecvInternal(BoxAt(s, r.id), s.current, s.current, r.blocking);
      if retval != -1 {
        forall p | p in s.pd ensures p in w.pd && w.pd[p].args == s.pd[p].args {
          assert p in w.pd.Keys;
          assert Handled(s.pd[p], w.pd[p]);
        }
      }
    }
  }

  lemma GiveArgs(s: KState, id: nat, amount: int)
    requires s.current in s.pd && ObjectShape(s)
    ensures ArgsKept(s, SemaphoreGive(s, id, amount), s.current)
  {
    if 1 <= id <= |s.sems| {
      var m1 := Given(s.sems[id - 1], amount);
      assert SemShape(s.sems[id - 1], s.pd) && SemShape(m1, s.pd);
      DrainShape(m1, s.pd);
      assert forall p :: p in s.pd ==> p in Drain(m1, s.pd).pd.Keys;
    }
  }

  lemma UnlockArgs(s: KState, id: nat)
    requires s.current in s.pd && ObjectShape(s)
    ensures ArgsKept(s, Unlock(s, id), s.current)
  {
    forall p | p in s.pd ensures p in Unlock(s, id).pd && Unlock(s, id).pd[p].args == s.pd[p].args {
      assert p in Unlock(s, id).pd.Keys;
      assert ReleaseTouches(s.pd[p], Unlock(s, id).pd[p], p == s.current);
    }
  }

  lemma TaskArgs(s: KState, r: Request, anchor: nat)
    requires s.current in s.pd && ObjectShape(s) && s.lastPid + 1 !in s.pd
    requires r.TaskCreate? || r.TaskTerminate? || r.TaskSuspend? || r.TaskResume? || r.TaskSleep?
             || r.MutLock? || r.SemGet?
    ensures ArgsKept(s, Handle(s, r, anchor), s.current)
  {
    hide ObjectShape, Stays, AllReleased, AllHandled, Satisfied, WokenBy, Drain, SendInternal, RecvInternal,
         SafeRelease, Without;
  }

  lemma RestArgs(s: KState, r: Request, anchor: nat)
    requires s.current in s.pd && ObjectShape(s)
    requires r.EgCreate? || r.EgSetBits? || r.EgClearBits? || r.EgWaitBits? || r.MutCreate? || r.SemCreate?
             || r.MbCreate? || r.MbCheck? || r.Invalid? || r.TaskYield? || r.NoRequest?
    ensures ArgsKept(s, Handle(s, r, anchor), s.current)
  {
  }

  lemma HandleArgs(s: KState, r: Request, anchor: nat)
    requires s.current in s.pd && ObjectShape(s) && s.lastPid + 1 !in s.pd
    ensures ArgsKept(s, Handle(s, r, anchor), s.current)
  {
    if r.MutUnlock? { UnlockArgs(s, r.id); }
    else if r.SemGive? { GiveArgs(s, r.id, r.amount); }
    else if r.MbSend? || r.MbRecv? { MailArgs(s, r, anchor); }
    else if r.TaskCreate? || r.TaskTerminate? || r.TaskSuspend? || r.TaskResume? || r.TaskSleep? || r.MutLock?
      || r.SemGet? {
      TaskArgs(s, r, anchor);
    } else {
      RestArgs(s, r, anchor);
    }
  }

  // ----- which part of the state a request can change

  /** No handler lets time pass. */
  predicate SameTime(s: KState, h: KState) {
    h.clock == s.clock && h.ticks == s.ticks
  }

  predicate SameList(s: KState, h: KState) {
    h.order == s.order && h.last == s.last
  }

  predicate SameQueues(s: KState, h: KState) {
    h.muts == s.muts && h.sems == s.sems && h.mbs == s.mbs
  }

  predicate OnTasks(r: Request) { r.TaskCreate? || r.TaskTerminate? || r.TaskSuspend? || r.TaskResume? || r.TaskSleep? }

  predicate OnMutexes(r: Request) { r.MutCreate? || r.MutLock? || r.MutUnlock? }

  predicate OnSemaphores(r: Request) { r.SemCreate? || r.SemGive? || r.SemGet? }

  predicate OnMailboxes(r: Request) { r.MbCreate? || r.MbCheck? || r.MbSend? || r.MbRecv? }

  lemma TaskScope(s: KState, r: Request, anchor: nat)
    requires s.current in s.pd && ObjectShape(s) && OnTasks(r)
    ensures SameTime(s, Handle(s, r, anchor)) && SameQueues(s, Handle(s, r, anchor))
    ensures !r.TaskCreate? && !r.TaskTerminate? ==> SameList(s, Handle(s, r, anchor))
  {
    hide ObjectShape, Stays, AllReleased;
  }

  lemma MutexScope(s: KState, r: Request, anchor: nat)
    requires s.current in s.pd && ObjectShape(s) && OnMutexes(r)
    ensures var h := Handle(s, r, anchor);
      && SameTime(s, h) && SameList(s, h) && h.sems == s.sems && h.mbs == s.mbs
      && (r.MutCreate? ==> s.muts <= h.muts)
  {
    hide ObjectShape, Stays, AllReleased, SafeRelease, Without;
  }

  lemma SemaphoreScope(s: KState, r: Request, anchor: nat)
    requires s.current in s.pd && ObjectShape(s) && OnSemaphores(r)
    ensures var h := Handle(s, r, anchor);
      && SameTime(s, h) && SameList(s, h) && h.muts == s.muts && h.mbs == s.mbs
      && (r.SemCreate? ==> s.sems <= h.sems)
  {
    hide ObjectShape, Stays, Drain;
  }

  lemma MailboxScope(s: KState, r: Request, anchor: nat)
    requires s.current in s.pd && ObjectShape(s) && OnMailboxes(r)
    ensures var h := Handle(s, r, anchor);
      && SameTime(s, h) && SameList(s, h) && h.muts == s.muts && h.sems == s.sems
      && (r.MbCreate? || r.MbCheck? ==> s.mbs <= h.mbs) && (!r.MbCreate? ==> |h.mbs| == |s.mbs|)
  {
    hide ObjectShape, Stays, AllHandled, SendInternal, RecvInternal;
  }

  lemma OtherScope(s: KState, r: Request, anchor: nat)
    requires s.current in s.pd && ObjectShape(s)
    requires !OnTasks(r) && !OnMutexes(r) && !OnSemaphores(r) && !OnMailboxes(r)
    ensures var h := Handle(s, r, anchor); SameTime(s, h) && SameList(s, h) && SameQueues(s, h)
  {
    hide ObjectShape, Stays, Satisfied, WokenBy;
  }

  lemma HandleScope(s: KState, r: Request, anchor: nat)
    requires s.current in s.pd && ObjectShape(s)
    ensures var h := Handle(s, r, anchor);
      && SameTime(s, h) && (!r.TaskCreate? && !r.TaskTerminate? ==> SameList(s, h))
      && (!r.MutLock? && !r.MutUnlock? ==> s.muts <= h.muts) && (!r.SemGet? && !r.SemGive? ==> s.sems <= h.sems)
      && (!r.MbSend? && !r.MbRecv? ==> s.mbs <= h.mbs) && (!r.MbCreate? ==> |h.mbs| == |s.mbs|)
  {
    hide Handle, ObjectShape;
    if OnTasks(r) { TaskScope(s, r, anchor); }
    else if OnMutexes(r) { MutexScope(s, r, anchor); }
    else if OnSemaphores(r) { SemaphoreScope(s, r, anchor); }
    else if OnMailboxes(r) { MailboxScope(s, r, anchor); }
    else { OtherScope(s, r, anchor); }
  }

  ghost predicate SameObjects(h: KState, s': KState) {
    && s'.muts == h.muts && s'.sems == h.sems && s'.mbs == h.mbs
    && (forall p :: p in h.pd ==> p in s'.pd && s'.pd[p].args == h.pd[p].args)
  }

  lemma AgedObjects(h: KState, s': KState)
    requires OnlyAged(h, s')
    ensures SameObjects(h, s')
  {
    forall p | p in h.pd ensures p in s'.pd && s'.pd[p].args == h.pd[p].args {
      assert p in s'.pd.Keys;
      assert Aged(h.pd[p], s'.pd[p]);
    }
  }

  lemma RequeueObjects(h: KState)
    ensures SameObjects(h, Requeue(h))
  {
  }

  lemma RunObjects(h: KState, k: nat)
    requires ListShape(h) && h.order != []
    ensures SameObjects(h, Run(h, k))
  {
  }

  lemma ObjectsChain(a: KState, b: KState, c: KState)
    requires SameObjects(a, b) && SameObjects(b, c)
    ensures SameObjects(a, c)
  {
  }

  lemma DispatchObjects(h: KState, batches: seq<nat>)
    requires ListShape(h)
    ensures Dispatch(h, batches).Some? ==> SameObjects(h, Dispatch(h, batches).value)
  {
    var c := Choice(h, batches);
    if c.Some? && Select(c.value) >= 0 {
      RequeueObjects(h);
      AgedObjects(Requeue(h), c.value);
      ObjectsChain(h, Requeue(h), c.value);
      RunObjects(c.value, Select(c.value));
      ObjectsChain(h, c.value, Run(c.value, Select(c.value)));
    }
  }

  /** A dispatch, or none, changes no object and nobody's request arguments. */
  lemma StepObjects(s: KState, e: Event)
    requires Alive(s) && e.Call? && Step(s, e).Some?
    ensures SameObjects(Called(s, e.request, e.anchor), Step(s, e).value)
  {
    DispatchObjects(Called(s, e.request, e.anchor), e.batches);
  }
}
