/** Event groups lose no wake-up, in any run: timeouts, suspension and termination included. */
module EventGroups {
  import opened KernelTypes
  import opened KernelState
  import opened Requests
  import opened Scheduler
  import opened ShapeProofs
  import opened MainLoop

  /** A task waits on an existing group only while its condition does not hold there. */
  ghost predicate WaitsRightly(d: PD, egs: seq<bv16>) {
    d.state == WAIT_EVENTG ==>
      d.args.EgWaitBits? && 1 <= d.args.id <= |egs| && !Satisfied(egs[d.args.id - 1], d.args.bits, d.args.all)
  }

  ghost predicate NoLostWakeUp(s: KState) {
    forall p :: p in s.pd ==> WaitsRightly(s.pd[p], s.egs)
  }

  ghost predicate CurrentAwake(s: KState) {
    s.current in s.pd ==> Awake(s.pd[s.current])
  }

  /** Clearing bits can only make a wait condition false. */
  lemma ClearIsSafe(events: bv16, clear: bv16, bits: bv16, all: bool)
    ensures Satisfied(events & !clear, bits, all) ==> Satisfied(events, bits, all)
  {
    assert (events & !clear) & bits == (events & bits) & !clear;
    if (events & !clear) & bits == bits {
      assert events & bits == bits;
    }
    if (events & bits) & !clear > 0 {
      assert events & bits > 0;
    }
  }

  /** No task starts to wait for events, and those that wait keep their condition. */
  ghost predicate EventCalm(s: KState, s': KState) {
    forall p :: p in s'.pd && s'.pd[p].state == WAIT_EVENTG ==>
      p in s.pd && s.pd[p].state == WAIT_EVENTG && s'.pd[p].args == s.pd[p].args
  }

  lemma CalmKeeps(s: KState, s': KState)
    requires NoLostWakeUp(s) && EventCalm(s, s') && s.egs <= s'.egs
    ensures NoLostWakeUp(s')
  {
    forall p | p in s'.pd ensures WaitsRightly(s'.pd[p], s'.egs) {
      if s'.pd[p].state == WAIT_EVENTG { assert WaitsRightly(s.pd[p], s.egs); }
    }
  }

  lemma CalmChain(a: KState, b: KState, c: KState)
    requires EventCalm(a, b) && EventCalm(b, c)
    ensures EventCalm(a, c)
  {
  }

  lemma UnlockCalm(s: KState, id: nat)
    requires s.current in s.pd && ObjectShape(s)
    ensures EventCalm(s, Unlock(s, id)) && Unlock(s, id).egs == s.egs
  {
  }

  lemma GiveCalm(s: KState, id: nat, amount: int)
    requires ObjectShape(s)
    ensures EventCalm(s, SemaphoreGive(s, id, amount)) && SemaphoreGive(s, id, amount).egs == s.egs
  {
    if 1 <= id <= |s.sems| {
      var m1 := Given(s.sems[id - 1], amount);
      assert SemShape(s.sems[id - 1], s.pd) && SemShape(m1, s.pd);
      DrainShape(m1, s.pd);
      assert forall p :: p in Drain(m1, s.pd).pd.Keys ==> p in s.pd.Keys;
    }
  }

  lemma BoxCalm(s: KState, id: nat, w: Box)
    requires 1 <= id <= |s.mbs| && AllHandled(s.pd, w.pd)
    ensures EventCalm(s, WithBox(s, id, w))
  {
    forall p | p in w.pd ensures p in s.pd && Handled(s.pd[p], w.pd[p]) {
      assert p in w.pd.Keys;
    }
  }

  lemma SendCalm(s: KState, id: nat, body: int, size: nat, blocking: bool)
    requires s.current in s.pd && ObjectShape(s)
    ensures EventCalm(s, Send(s, id, body, size, blocking)) && Send(s, id, body, size, blocking).egs == s.egs
  {
    if 1 <= id <= |s.mbs| {
      var (w, retval) := SendInternal(BoxAt(s, id), s.current, Mail(body, size, s.current), blocking);
      if retval != -1 { BoxCalm(s, id, w); }
    }
  }

  lemma RecvPends(s: KState, id: nat, blocking: bool)
    requires s.current in s.pd && 1 <= id <= |s.mbs| && BoxAt(s, id).Ok()
    ensures var (w, retval) := RecvInternal(BoxAt(s, id), s.current, s.current, blocking);
      retval == -1 ==> EventCalm(s, WithBox(s, id, w))
  {
  }

  lemma RecvCalm(s: KState, id: nat, blocking: bool)
    requires s.current in s.pd && ObjectShape(s)
    ensures EventCalm(s, Recv(s, id, blocking)) && Recv(s, id, blocking).egs == s.egs
  {
    if 1 <= id <= |s.mbs| {
      hide RecvInternal, Stays, MbShape;
      var (w, retval) := RecvInternal(BoxAt(s, id), s.current, s.current, blocking);
      if retval != -1 { BoxCalm(s, id, w); } else { RecvPends(s, id, blocking); }
    }
  }

  lemma TaskCalm(s: KState, r: Request, anchor: nat)
    requires s.current in s.pd && ObjectShape(s)
    requires r.TaskCreate? || r.TaskTerminate? || r.TaskSuspend? || r.TaskSleep?
    ensures EventCalm(s, Handle(s, r, anchor)) && Handle(s, r, anchor).egs == s.egs
  {
    hide ObjectShape, Stays, AllReleased, AllHandled, Satisfied, WokenBy, Drain, SendInternal, RecvInternal,
         SafeRelease, Without;
  }

  lemma ResumeCalm(s: KState, p: Pid)
    requires p in s.pd ==> CanThaw(s.pd[p])
    ensures EventCalm(s, Resume(s, p)) && Resume(s, p).egs == s.egs
  {
  }

  lemma OtherCalm(s: KState, r: Request, anchor: nat)
    requires s.current in s.pd && ObjectShape(s)
    requires r.MutCreate? || r.SemCreate? || r.EgCreate? || r.MbCreate? || r.MbCheck? || r.Invalid? || r.TaskYield?
             || r.NoRequest?
    ensures EventCalm(s, Handle(s, r, anchor)) && s.egs <= Handle(s, r, anchor).egs
  {
    hide ObjectShape, Stays, AllReleased, AllHandled, Drain, SendInternal, RecvInternal, SafeRelease, Without;
  }

  lemma LockCalm(s: KState, id: nat)
    requires s.current in s.pd
    ensures EventCalm(s, Lock(s, id)) && Lock(s, id).egs == s.egs
  {
    hide Stays;
  }

  lemma GetCalm(s: KState, id: nat, amount: int)
    requires s.current in s.pd && s.pd[s.current].state != WAIT_EVENTG
    ensures EventCalm(s, SemaphoreGet(s, id, amount)) && SemaphoreGet(s, id, amount).egs == s.egs
  {
    hide Stays;
  }

  lemma TakeCalm(s: KState, r: Request, anchor: nat)
    requires s.current in s.pd && ObjectShape(s) && s.pd[s.current].state != WAIT_EVENTG
    requires r.MutLock? || r.SemGet?
    ensures EventCalm(s, Handle(s, r, anchor)) && s.egs <= Handle(s, r, anchor).egs
  {
    hide ObjectShape, Stays, EventCalm, Lock, SemaphoreGet;
    match r
    case MutLock(id) => LockCalm(s, id);
    case SemGet(id, amount) => GetCalm(s, id, amount);
  }

  /** Set re-examines every live waiter, so none is left behind. */
  lemma SetBitsKeeps(s: KState, id: nat, bits: bv16)
    requires NoLostWakeUp(s) && ListShape(s)
    ensures NoLostWakeUp(SetBits(s, id, bits))
  {
    hide Satisfied;
    var s' := SetBits(s, id, bits);
    if 1 <= id <= |s.egs| {
      forall p | p in s'.pd ensures WaitsRightly(s'.pd[p], s'.egs) {
        assert WaitsRightly(s.pd[p], s.egs);
        assert p in s.order || s.pd[p].state == DEAD;
      }
    }
  }

  /** Every condition that holds of `events'` holds of `events`. */
  ghost predicate NoMoreThan(events': bv16, events: bv16) {
    forall bits, all :: Satisfied(events', bits, all) ==> Satisfied(events, bits, all)
  }

  lemma ClearedIsNoMore(events: bv16, clear: bv16)
    ensures NoMoreThan(events & !clear, events)
  {
    forall bits, all | Satisfied(events & !clear, bits, all) ensures Satisfied(events, bits, all) {
      ClearIsSafe(events, clear, bits, all);
    }
  }

  lemma FewerBitsKeep(s: KState, s': KState, id: nat)
    requires NoLostWakeUp(s) && 1 <= id <= |s.egs| && |s'.egs| == |s.egs|
    requires s'.pd == s.pd && s'.egs == s.egs[id - 1 := s'.egs[id - 1]] && NoMoreThan(s'.egs[id - 1], s.egs[id - 1])
    ensures NoLostWakeUp(s')
  {
    forall p | p in s.pd ensures WaitsRightly(s.pd[p], s'.egs) {
      assert WaitsRightly(s.pd[p], s.egs);
    }
  }

  lemma ClearBitsMask(s: KState, id: nat, bits: bv16)
    requires 1 <= id <= |s.egs|
    ensures var s' := ClearBits(s, id, bits);
      && s'.pd == s.pd && |s'.egs| == |s.egs| && s'.egs == s.egs[id - 1 := s'.egs[id - 1]]
      && NoMoreThan(s'.egs[id - 1], s.egs[id - 1])
  {
    ClearedIsNoMore(s.egs[id - 1], bits);
  }

  lemma ClearBitsKeeps(s: KState, id: nat, bits: bv16)
    requires NoLostWakeUp(s)
    ensures NoLostWakeUp(ClearBits(s, id, bits))
  {
    if 1 <= id <= |s.egs| {
      ClearBitsMask(s, id, bits);
      FewerBitsKeep(s, ClearBits(s, id, bits), id);
    }
  }

  lemma WaitBitsKeeps(s: KState, r: Request)
    requires s.current in s.pd && NoLostWakeUp(s)
    requires r.EgWaitBits? && s.pd[s.current].args == r && s.pd[s.current].state != WAIT_EVENTG
    ensures NoLostWakeUp(WaitBits(s, r.id, r.bits, r.all))
  {
    hide Satisfied;
    var s' := WaitBits(s, r.id, r.bits, r.all);
    forall p | p in s'.pd ensures WaitsRightly(s'.pd[p], s'.egs) {
      assert WaitsRightly(s.pd[p], s.egs);
    }
  }

  lemma HandleKeeps(s: KState, r: Request, anchor: nat)
    requires Shape(s) && s.current in s.pd && NoLostWakeUp(s)
    requires s.pd[s.current].state != WAIT_EVENTG && (r.EgWaitBits? ==> s.pd[s.current].args == r)
    ensures NoLostWakeUp(Handle(s, r, anchor))
  {
    var s' := Handle(s, r, anchor);
    if r.EgSetBits? { SetBitsKeeps(s, r.id, r.bits); }
    else if r.EgClearBits? { ClearBitsKeeps(s, r.id, r.bits); }
    else if r.EgWaitBits? { WaitBitsKeeps(s, r); }
    else {
      match r {
        case MutUnlock(id) => UnlockCalm(s, id);
        case SemGive(id, amount) => GiveCalm(s, id, amount);
        case MbSend(id, body, size, blocking, _) => SendCalm(s, id, body, size, blocking);
        case MbRecv(id, blocking, _) => RecvCalm(s, id, blocking);
        case TaskCreate(_) => TaskCalm(s, r, anchor);
        case TaskTerminate => TaskCalm(s, r, anchor);
        case TaskSuspend(_) => TaskCalm(s, r, anchor);
        case TaskResume(p) => ResumeCalm(s, p);
        case TaskSleep(_) => TaskCalm(s, r, anchor);
        case MutLock(_) => TakeCalm(s, r, anchor);
        case SemGet(_, _) => TakeCalm(s, r, anchor);
        case _ => OtherCalm(s, r, anchor);
      }
      CalmKeeps(s, s');
    }
  }

  lemma AgedCalm(s: KState, s': KState)
    requires OnlyAged(s, s')
    ensures EventCalm(s, s')
  {
    forall p | p in s'.pd ensures p in s.pd && Aged(s.pd[p], s'.pd[p]) {}
  }

  lemma RequeueCalm(s: KState)
    ensures EventCalm(s, Requeue(s))
  {
  }

  lemma RunCalm(s: KState, k: nat)
    requires ListShape(s) && s.order != []
    ensures EventCalm(s, Run(s, k)) && CurrentAwake(Run(s, k))
  {
  }

  lemma DispatchCalm(s: KState, batches: seq<nat>)
    requires ListShape(s)
    ensures Dispatch(s, batches).Some? ==>
      var s' := Dispatch(s, batches).value; EventCalm(s, s') && s'.egs == s.egs && CurrentAwake(s')
  {
    var c := Choice(s, batches);
    if c.Some? && Select(c.value) >= 0 {
      RequeueCalm(s);
      AgedCalm(Requeue(s), c.value);
      CalmChain(s, Requeue(s), c.value);
      RunCalm(c.value, Select(c.value));
      CalmChain(s, c.value, Run(c.value, Select(c.value)));
    }
  }

  ghost predicate Attended(s: KState) { NoLostWakeUp(s) && CurrentAwake(s) }

  lemma IssueKeeps(s: KState, r: Request)
    requires Alive(s) && Attended(s)
    ensures NoLostWakeUp(Issue(s, r)) && CurrentAwake(Issue(s, r))
  {
    assert s.current in s.order;
    var i := Issue(s, r);
    assert EventCalm(s, i);
    CalmKeeps(s, i);
  }

  lemma UnlockAwake(s: KState, id: nat)
    requires s.current in s.pd && ObjectShape(s) && CurrentAwake(s)
    ensures Unlock(s, id).cswitch || CurrentAwake(Unlock(s, id))
  {
  }

  lemma GiveAwake(s: KState, id: nat, amount: int)
    requires s.current in s.pd && ObjectShape(s) && CurrentAwake(s)
    ensures CurrentAwake(SemaphoreGive(s, id, amount))
  {
    if 1 <= id <= |s.sems| {
      var m1 := Given(s.sems[id - 1], amount);
      assert SemShape(s.sems[id - 1], s.pd) && SemShape(m1, s.pd);
      DrainShape(m1, s.pd);
    }
  }

  lemma MailAwake(s: KState, r: Request, anchor: nat)
    requires s.current in s.pd && ObjectShape(s) && CurrentAwake(s)
    requires r.MbSend? || r.MbRecv?
    ensures Handle(s, r, anchor).cswitch || CurrentAwake(Handle(s, r, anchor))
  {
    if 1 <= r.id <= |s.mbs| {
      var (w, retval) :=
        if r.MbSend? then SendInternal(BoxAt(s, r.id), s.current, Mail(r.body, r.size, s.current), r.blocking)
        else RecvInternal(BoxAt(s, r.id), s.current, s.current, r.blocking);
      if retval != -1 { assert Handled(s.pd[s.current], w.pd[s.current]); }
    }
  }

  lemma OtherAwake(s: KState, r: Request, anchor: nat)
    requires s.current in s.pd && ObjectShape(s) && CurrentAwake(s) && s.lastPid + 1 !in s.pd
    requires !(r.MutUnlock? || r.SemGive? || r.MbSend? || r.MbRecv?)
    ensures Handle(s, r, anchor).cswitch || CurrentAwake(Handle(s, r, anchor))
  {
  }

  /** Unless it asks for a switch, no request leaves the current task waiting. */
  lemma CalledAwake(s: KState, r: Request, anchor: nat)
    requires Alive(s) && CurrentAwake(s)
    ensures Called(s, r, anchor).cswitch || CurrentAwake(Called(s, r, anchor))
  {
    hide EventCalm;
    var i := Issue(s, r);
    assert s.current in s.order;
    IssueShape(s, r);
    match r
    case MutUnlock(id) => UnlockAwake(i, id);
    case SemGive(id, amount) => GiveAwake(i, id, amount);
    case MbSend(_, _, _, _, _) => MailAwake(i, r, anchor);
    case MbRecv(_, _, _) => MailAwake(i, r, anchor);
    case _ => OtherAwake(i, r, anchor);
  }

  lemma CalledKeeps(s: KState, r: Request, anchor: nat)
    requires Alive(s) && Attended(s)
    ensures NoLostWakeUp(Called(s, r, anchor))
    ensures Called(s, r, anchor).cswitch || CurrentAwake(Called(s, r, anchor))
  {
    hide NoLostWakeUp;
    IssueKeeps(s, r);
    IssueShape(s, r);
    CurrentListed(s);
    HandleKeeps(Issue(s, r), r, anchor);
    CalledAwake(s, r, anchor);
  }

  lemma CurrentListed(s: KState)
    requires Alive(s)
    ensures s.current in s.pd
  {
    assert s.current in s.order;
  }

  lemma StepKeeps(s: KState, e: Event)
    requires Alive(s) && Attended(s) && Step(s, e).Some?
    ensures Attended(Step(s, e).value)
  {
    if e.Call? {
      var h := Called(s, e.request, e.anchor);
      CalledKeeps(s, e.request, e.anchor);
      if Switches(h, e.request) {
        DispatchCalm(h, e.batches);
        CalmKeeps(h, Dispatch(h, e.batches).value);
      }
    }
  }

  lemma {:induction false} ConfigureKeeps(cs: seq<Creation>)
    ensures NoLostWakeUp(Configure(cs))
    decreases |cs|
  {
    if cs != [] {
      ConfigureKeeps(cs[..|cs| - 1]);
      var s := Configure(cs[..|cs| - 1]);
      CalmKeeps(s, Create(s, cs[|cs| - 1]));
    }
  }

  lemma StartKeeps(cs: seq<Creation>, batches: seq<nat>)
    ensures Start(cs, batches).Some? ==> Attended(Start(cs, batches).value)
  {
    ConfigureShape(cs);
    ConfigureKeeps(cs);
    var s := Configure(cs);
    if s.order != [] {
      var s1 := s.(last := |s.order| - 1);
      TasksShape(s, s1);
      DispatchCalm(s1, batches);
      if Dispatch(s1, batches).Some? { CalmKeeps(s1, Dispatch(s1, batches).value); }
    }
  }

  lemma {:induction false} RunKeeps(s: KState, es: seq<Event>)
    requires Alive(s) && Attended(s)
    ensures Exec(s, es).Some? ==> Attended(Exec(s, es).value)
    decreases |es|
  {
    if es != [] && Step(s, es[0]).Some? {
      StepKeeps(s, es[0]);
      RunKeeps(Step(s, es[0]).value, es[1..]);
    }
  }

  /** From boot on, whatever is requested: no task waits for events that are already there. */
  lemma NeverLosesWakeUp(cs: seq<Creation>, batches: seq<nat>, es: seq<Event>)
    requires Start(cs, batches).Some?
    ensures Exec(Start(cs, batches).value, es).Some? ==> NoLostWakeUp(Exec(Start(cs, batches).value, es).value)
  {
    StartKeeps(cs, batches);
    RunKeeps(Start(cs, batches).value, es);
  }
}
