/** Ticks, timeouts and sleep, with the 16-bit arithmetic of the tick handler. */
module Clock {
  import opened KernelTypes
  import opened KernelState
  import opened Requests
  import opened Scheduler
  import opened ShapeProofs
  import opened MainLoop
  import opened Running
  import opened StepScope
  import opened Invariants
  import opened TameRuns

  // ----- the 16-bit comparison

  /** Subtracting unsigned and testing as signed gives the right answer exactly when the true
      difference fits a signed 16-bit integer. */
  lemma WrapIsExact(timeout: nat, ticks: nat)
    requires timeout < WORD && ticks < WORD
    ensures (Signed16(timeout - ticks) > 0 <==> timeout > ticks) <==> -(WORD / 2) <= timeout - ticks < WORD / 2
    ensures Signed16(timeout - ticks) == timeout - ticks <==> -(WORD / 2) <= timeout - ticks < WORD / 2
  {
  }

  /** So a sleep of more than 32767 ticks can end at the very first one. */
  lemma LongSleepWakesAtOnce(d: PD, ticks: nat)
    requires d.state == SLEEPING && d.timeout < WORD && WORD / 2 <= d.timeout - ticks
    ensures TickTask(d, ticks).state == READY
  {
  }

  // ----- batches of ticks

  lemma BatchTask(d: PD, a: nat, b: nat)
    requires 0 < a && 0 < b && a + b < WORD / 2 && d.timeout < WORD / 2
    ensures TickTask(TickTask(d, a), b).(starvation := 0) == TickTask(d, a + b).(starvation := 0)
  {
    SmallDifference(d.timeout, a);
    SmallDifference(d.timeout - a, b);
    SmallDifference(d.timeout, a + b);
    hide Signed16;
  }

  lemma SmallDifference(timeout: int, ticks: nat)
    requires timeout < WORD / 2 && timeout - ticks > -(WORD / 2)
    ensures Signed16(timeout - ticks) == timeout - ticks
  {
  }

  lemma BatchAt(s: KState, a: nat, b: nat, p: Pid)
    requires ListShape(s.(ticks := a)) && ListShape(s.(ticks := a + b))
    requires ListShape(TickHandler(s.(ticks := a)).(ticks := b))
    requires 0 < a && 0 < b && a + b < WORD / 2 && p in s.pd && s.pd[p].timeout < WORD / 2
    ensures var two, one := TickHandler(TickHandler(s.(ticks := a)).(ticks := b)), TickHandler(s.(ticks := a + b));
      p in two.pd && p in one.pd && one.pd[p].(starvation := 0) == two.pd[p].(starvation := 0)
  {
    hide ListShape, OnlyAged, TickTask;
    BatchTask(s.pd[p], a, b);
  }

  /** The same state, starvation counts aside. */
  ghost predicate SameButStarvation(s: KState, s': KState) {
    && s'.(pd := s.pd) == s && s'.pd.Keys == s.pd.Keys
    && (forall p :: p in s.pd && p in s'.pd ==> s'.pd[p].(starvation := 0) == s.pd[p].(starvation := 0))
  }

  lemma TickFields(s: KState)
    requires ListShape(s)
    ensures var s' := TickHandler(s);
      s' == s.(pd := s'.pd, ticks := 0, clock := s.clock + s.ticks) && s'.pd.Keys == s.pd.Keys
  {
    hide ListShape;
  }

  lemma NoTicks(s: KState)
    requires ListShape(s) && s.ticks == 0
    ensures TickHandler(s) == s
  {
  }

  /** ListShape says nothing about pending ticks. */
  lemma AnyTicks(s: KState, a: nat)
    requires ListShape(s)
    ensures ListShape(s.(ticks := a))
  {
  }

  /** Handling a ticks and later b ticks is handling a + b ticks at once. */
  lemma TicksBatch(s: KState, a: nat, b: nat)
    requires ListShape(s) && a + b < WORD / 2 && forall p :: p in s.pd ==> s.pd[p].timeout < WORD / 2
    ensures ListShape(s.(ticks := a)) && ListShape(TickHandler(s.(ticks := a)).(ticks := b))
      && ListShape(s.(ticks := a + b))
    ensures SameButStarvation(TickHandler(TickHandler(s.(ticks := a)).(ticks := b)), TickHandler(s.(ticks := a + b)))
  {
    hide ListShape, OnlyAged, TickHandler;
    var s1 := s.(ticks := a);
    AnyTicks(s, a);
    AnyTicks(s, a + b);
    AgedKeepsLists(s1, TickHandler(s1));
    AnyTicks(TickHandler(s1), b);
    var s2 := TickHandler(s1).(ticks := b);
    var two, one := TickHandler(s2), TickHandler(s.(ticks := a + b));
    TickFields(s1);
    TickFields(s2);
    TickFields(s.(ticks := a + b));
    if a == 0 {
      NoTicks(s1);
    } else if b == 0 {
      NoTicks(s2);
    } else {
      forall p | p in two.pd && p in one.pd ensures one.pd[p].(starvation := 0) == two.pd[p].(starvation := 0) {
        assert p in s.pd.Keys;
        BatchAt(s, a, b, p);
      }
    }
  }

  // ----- the sleep clock

  predicate Woken(d: PD) {
    d.timeout == 0 && (d.state == READY || (d.state == SUSPENDED && d.lastState == READY))
  }

  /** How a sleeper relates to itself `elapsed` ticks later, if nobody dispatched it. */
  predicate SleptFor(d: PD, d': PD, elapsed: int) {
    if elapsed < d.timeout then Asleep(d') && d'.timeout == d.timeout - elapsed else Woken(d')
  }

  predicate Sleeper(d: PD) {
    Asleep(d) && 0 < d.timeout < WORD / 2
  }

  lemma TickSleeps(s: KState, p: Pid)
    requires ListShape(s) && p in s.order && s.ticks < WORD / 2
    ensures var s' := TickHandler(s);
      && p in s'.pd && s'.ticks == 0 && s'.clock == s.clock + s.ticks && s'.order == s.order
      && (Sleeper(s.pd[p]) ==> SleptFor(s.pd[p], s'.pd[p], s.ticks))
      && (Woken(s.pd[p]) ==> Woken(s'.pd[p]))
  {
  }

  lemma SleptChain(d: PD, d1: PD, d2: PD, a: nat, b: nat)
    requires Sleeper(d) && SleptFor(d, d1, a)
    requires Sleeper(d1) ==> SleptFor(d1, d2, b)
    requires Woken(d1) ==> Woken(d2)
    ensures SleptFor(d, d2, a + b)
  {
  }

  lemma SleptZero(d: PD)
    ensures Sleeper(d) ==> SleptFor(d, d, 0)
  {
  }

  /** Every batch of ticks that arrives while the kernel idles fits a signed integer. */
  predicate Small(batches: seq<nat>) {
    forall b :: b in batches ==> b < WORD / 2
  }

  lemma {:induction false} IdleSleeps(s: KState, batches: seq<nat>, p: Pid)
    requires ListShape(s) && p in s.order && p in s.pd && s.ticks == 0 && Small(batches) && Idle(s, batches).Some?
    ensures var s' := Idle(s, batches).value;
      && p in s'.pd && s'.clock >= s.clock
      && (Sleeper(s.pd[p]) ==> SleptFor(s.pd[p], s'.pd[p], s'.clock - s.clock))
      && (Woken(s.pd[p]) ==> Woken(s'.pd[p]))
    decreases |batches|
  {
    hide ListShape, SomeReady, TickHandler, OnlyAged, SleptFor, Sleeper, Woken;
    if SomeReady(s) {
      SleptZero(s.pd[p]);
    } else {
      var s1 := Arrive(s, batches[0]);
      var s2 := TickHandler(s1);
      assert batches[0] in batches;
      assert Small(batches[1..]) by { assert forall b :: b in batches[1..] ==> b in batches; }
      TickSleeps(s1, p);
      AgedKeepsLists(s1, s2);
      IdleSleeps(s2, batches[1..], p);
      if Sleeper(s.pd[p]) {
        SleptChain(s.pd[p], s2.pd[p], Idle(s2, batches[1..]).value.pd[p], s1.ticks,
                   Idle(s2, batches[1..]).value.clock - s2.clock);
      }
    }
  }

  lemma RequeueSpares(s: KState, p: Pid)
    requires ListShape(s) && p in s.order && s.pd[p].state != RUNNING
    ensures ListShape(Requeue(s)) && p in s.pd && p in Requeue(s).pd && Requeue(s).pd[p] == s.pd[p]
    ensures var s' := Requeue(s); s'.order == s.order && s'.ticks == s.ticks && s'.clock == s.clock
  {
  }

  lemma SleeperRests(d: PD)
    requires Sleeper(d)
    ensures d.state != RUNNING
  {
  }

  lemma TicksThenIdle(s: KState, batches: seq<nat>, p: Pid)
    requires ListShape(s) && ListShape(TickHandler(s)) && p in s.order && p in s.pd && Sleeper(s.pd[p])
    requires s.ticks < WORD / 2 && Small(batches) && Idle(TickHandler(s), batches).Some?
    ensures var s' := Idle(TickHandler(s), batches).value;
      p in s'.pd && s'.clock >= s.clock && SleptFor(s.pd[p], s'.pd[p], s'.clock - s.clock)
  {
    hide ListShape, OnlyAged, SomeReady, TickHandler, SleptFor, Sleeper, Woken, Idle;
    var s2 := TickHandler(s);
    TickSleeps(s, p);
    IdleSleeps(s2, batches, p);
    SleptChain(s.pd[p], s2.pd[p], Idle(s2, batches).value.pd[p], s.ticks, Idle(s2, batches).value.clock - s2.clock);
  }

  lemma ChoiceSleeps(s: KState, batches: seq<nat>, p: Pid)
    requires ListShape(s) && p in s.order && p in s.pd && s.ticks < WORD / 2 && Small(batches)
    requires Choice(s, batches).Some? && Sleeper(s.pd[p])
    ensures var s' := Choice(s, batches).value;
      p in s'.pd && s'.clock >= s.clock && SleptFor(s.pd[p], s'.pd[p], s'.clock - s.clock)
  {
    hide ListShape, OnlyAged, SomeReady, TickHandler, SleptFor, Sleeper, Requeue, Idle, Small;
    SleeperRests(s.pd[p]);
    RequeueSpares(s, p);
    var s1 := Requeue(s);
    AgedKeepsLists(s1, TickHandler(s1));
    TicksThenIdle(s1, batches, p);
  }

  // ----- handlers do not disturb sleepers

  /** The task still sleeps, with the same time to go, though it may be suspended or resumed. */
  predicate StillAsleep(d: PD, d': PD) {
    Asleep(d') && d'.timeout == d.timeout
  }

  lemma BoxSleeps(s: KState, id: nat, w: Box, p: Pid)
    requires 1 <= id <= |s.mbs| && AllHandled(s.pd, w.pd) && p in s.pd && Asleep(s.pd[p])
    ensures p in WithBox(s, id, w).pd && StillAsleep(s.pd[p], WithBox(s, id, w).pd[p])
  {
    assert p in w.pd.Keys && Handled(s.pd[p], w.pd[p]);
  }

  lemma MailSleeps(s: KState, r: Request, anchor: nat, p: Pid)
    requires s.current in s.pd && ObjectShape(s) && (r.MbSend? || r.MbRecv?)
    requires p in s.pd && p != s.current && Asleep(s.pd[p])
    ensures p in Handle(s, r, anchor).pd && StillAsleep(s.pd[p], Handle(s, r, anchor).pd[p])
  {
    hide StillAsleep, Asleep;
    if 1 <= r.id <= |s.mbs| {
      var (w, retval) :=
        if r.MbSend? then SendInternal(BoxAt(s, r.id), s.current, Mail(r.body, r.size, s.current), r.blocking)
        else RecvInternal(BoxAt(s, r.id), s.current, s.current, r.blocking);
      if retval != -1 { BoxSleeps(s, r.id, w, p); }
    }
    SameSleeps(s.pd[p]);
  }

  lemma SameSleeps(d: PD)
    ensures Asleep(d) ==> StillAsleep(d, d)
  {
  }

  lemma GiveSleeps(s: KState, id: nat, amount: int, p: Pid)
    requires s.current in s.pd && ObjectShape(s)
    requires p in s.pd && p != s.current && Asleep(s.pd[p])
    ensures p in SemaphoreGive(s, id, amount).pd && StillAsleep(s.pd[p], SemaphoreGive(s, id, amount).pd[p])
  {
    if 1 <= id <= |s.sems| {
      var m1 := Given(s.sems[id - 1], amount);
      assert SemShape(s.sems[id - 1], s.pd) && SemShape(m1, s.pd);
      DrainShape(m1, s.pd);
      assert p in Drain(m1, s.pd).pd.Keys;
    }
  }

  lemma UnlockSleeps(s: KState, id: nat, p: Pid)
    requires s.current in s.pd && ObjectShape(s) && p in s.pd && p != s.current && Asleep(s.pd[p])
    ensures p in Unlock(s, id).pd && StillAsleep(s.pd[p], Unlock(s, id).pd[p])
  {
    assert p in Unlock(s, id).pd.Keys;
    assert ReleaseTouches(s.pd[p], Unlock(s, id).pd[p], false);
  }

  lemma TaskSleeps(s: KState, r: Request, anchor: nat, p: Pid)
    requires s.current in s.pd && ObjectShape(s) && s.lastPid + 1 !in s.pd
    requires r.TaskCreate? || r.TaskTerminate? || r.TaskSuspend? || r.TaskResume? || r.TaskSleep?
    requires p in s.pd && p != s.current && Asleep(s.pd[p])
    ensures p in Handle(s, r, anchor).pd && StillAsleep(s.pd[p], Handle(s, r, anchor).pd[p])
  {
    hide ObjectShape, Unlock, SemaphoreGive, Send, Recv, Stays;
  }

  lemma OtherSleeps(s: KState, r: Request, anchor: nat, p: Pid)
    requires s.current in s.pd && ObjectShape(s) && s.lastPid + 1 !in s.pd
    requires !(r.MutUnlock? || r.SemGive? || r.MbSend? || r.MbRecv?)
    requires p in s.pd && p != s.current && Asleep(s.pd[p])
    ensures p in Handle(s, r, anchor).pd && StillAsleep(s.pd[p], Handle(s, r, anchor).pd[p])
  {
    hide ObjectShape, Unlock, SemaphoreGive, Send, Recv, Stays, Satisfied;
    if r.TaskCreate? || r.TaskTerminate? || r.TaskSuspend? || r.TaskResume? || r.TaskSleep? {
      TaskSleeps(s, r, anchor, p);
    } else {
      hide CreateTask, Terminate, Suspend, Resume, Sleep;
    }
  }

  lemma HandleSleeps(i: KState, r: Request, anchor: nat, p: Pid)
    requires i.current in i.pd && ObjectShape(i) && i.lastPid + 1 !in i.pd
    requires p in i.pd && p != i.current && Asleep(i.pd[p])
    ensures p in Handle(i, r, anchor).pd && StillAsleep(i.pd[p], Handle(i, r, anchor).pd[p])
  {
    hide ObjectShape, StillAsleep, Asleep, Stays;
    if r.MutUnlock? { UnlockSleeps(i, r.id, p); }
    else if r.SemGive? { GiveSleeps(i, r.id, r.amount, p); }
    else if r.MbSend? || r.MbRecv? { MailSleeps(i, r, anchor, p); }
    else { OtherSleeps(i, r, anchor, p); }
  }

  lemma CalledSleeps(s: KState, r: Request, anchor: nat, p: Pid)
    requires Alive(s) && p in s.pd && p != s.current && Asleep(s.pd[p])
    ensures var h := Called(s, r, anchor);
      p in h.pd && StillAsleep(s.pd[p], h.pd[p]) && h.clock == s.clock && h.ticks == s.ticks && h.current == s.current
  {
    var i := Issue(s, r);
    assert s.current in s.order && s.current in s.pd;
    IssueShape(s, r);
    assert i.lastPid + 1 !in i.pd;
    hide Handle, ListShape, ObjectShape;
    HandleScope(i, r, anchor);
    HandleSleeps(i, r, anchor, p);
  }

  // ----- runs

  /** No batch of ticks reaches 32768: the kernel is entered often enough. */
  predicate Punctual(s: KState, e: Event) {
    e.Call? ==> s.ticks < WORD / 2 && Small(e.batches)
  }

  /** Any request whatsoever, except that no task suspends itself. */
  predicate Undisturbed(s: KState, e: Event) {
    Punctual(s, e) && !SuspendsItself(s, e)
  }

  /** A sleeper at the end of a step that handled `elapsed` ticks: asleep with so much less to go,
      or woken, or already dispatched. */
  predicate SleptOrRuns(d: PD, d': PD, elapsed: int) {
    SleptFor(d, d', elapsed) || (elapsed >= d.timeout && d'.state == RUNNING)
  }

  lemma DispatchSleeps(h: KState, batches: seq<nat>, p: Pid)
    requires Shape(h) && p in h.order && Sleeper(h.pd[p])
    requires h.ticks < WORD / 2 && Small(batches) && Dispatch(h, batches).Some?
    ensures var s' := Dispatch(h, batches).value;
      p in s'.pd && s'.clock >= h.clock && SleptOrRuns(h.pd[p], s'.pd[p], s'.clock - h.clock)
  {
    var c := Choice(h, batches).value;
    assert ListShape(h);
    hide Shape, ListShape, Choice, ScanTo, Small, Sleeper;
    ChoiceSleeps(h, batches, p);
    ScanReady(c, |c.order|);
  }

  lemma StepSleeps(s: KState, e: Event, p: Pid)
    requires Alive(s) && OneRunning(s) && Punctual(s, e) && Step(s, e).Some? && p in s.pd && Sleeper(s.pd[p])
    ensures var s' := Step(s, e).value;
      p in s'.pd && s'.clock >= s.clock && SleptOrRuns(s.pd[p], s'.pd[p], s'.clock - s.clock)
  {
    if e.Call? {
      CallSleeps(s, e.request, e.anchor, e.batches, p);
    }
  }

  lemma CallSleeps(s: KState, r: Request, anchor: nat, batches: seq<nat>, p: Pid)
    requires Alive(s) && OneRunning(s) && s.ticks < WORD / 2 && Small(batches) && p in s.pd && Sleeper(s.pd[p])
    requires Step(s, Call(r, anchor, batches)).Some?
    ensures var s' := Step(s, Call(r, anchor, batches)).value;
      p in s'.pd && s'.clock >= s.clock && SleptOrRuns(s.pd[p], s'.pd[p], s'.clock - s.clock)
  {
    hide Called, Dispatch, ListShape, ObjectShape, Small;
    var h := Called(s, r, anchor);
    NotCurrent(s, p);
    CalledSleeps(s, r, anchor, p);
    if Switches(h, r) {
      LivesInOrder(h, p);
      DispatchSleeps(h, batches, p);
    }
  }

  lemma NotCurrent(s: KState, p: Pid)
    requires Alive(s) && OneRunning(s) && p in s.pd && Sleeper(s.pd[p])
    ensures s.current in s.pd && p != s.current && s.pd[p].state != DEAD
  {
    assert s.current in s.order;
  }

  lemma LivesInOrder(s: KState, p: Pid)
    requires Shape(s) && p in s.pd && s.pd[p].state != DEAD
    ensures p in s.order
  {
  }

  lemma {:induction false} ClockAdvances(s: KState, es: seq<Event>)
    requires Alive(s) && Exec(s, es).Some?
    ensures Exec(s, es).value.clock >= s.clock
    decreases |es|
  {
    if es != [] {
      StepClock(s, es[0]);
      ClockAdvances(Step(s, es[0]).value, es[1..]);
    }
  }

  lemma {:induction false} IdleClock(s: KState, batches: seq<nat>)
    requires ListShape(s)
    ensures Idle(s, batches).Some? ==> Idle(s, batches).value.clock >= s.clock
    decreases |batches|
  {
    hide ListShape, SomeReady;
    if !SomeReady(s) && batches != [] {
      var s1 := Arrive(s, batches[0]);
      AgedKeepsLists(s1, TickHandler(s1));
      IdleClock(TickHandler(s1), batches[1..]);
    }
  }

  lemma StepClock(s: KState, e: Event)
    requires Alive(s) && Step(s, e).Some?
    ensures Step(s, e).value.clock >= s.clock
  {
    hide Called, Dispatch, Shape;
    if e.Call? {
      CalledClock(s, e.request, e.anchor);
      DispatchClock(Called(s, e.request, e.anchor), e.batches);
    }
  }

  lemma CalledClock(s: KState, r: Request, anchor: nat)
    requires Alive(s)
    ensures Called(s, r, anchor).clock == s.clock
  {
    assert s.current in s.order && s.current in s.pd;
    IssueShape(s, r);
    hide Handle, Shape;
    HandleScope(Issue(s, r), r, anchor);
  }

  lemma DispatchClock(h: KState, batches: seq<nat>)
    requires Shape(h)
    ensures Dispatch(h, batches).Some? ==> Dispatch(h, batches).value.clock >= h.clock
  {
    hide ListShape, ObjectShape, OnlyAged, Idle;
    var h1 := Requeue(h);
    AgedKeepsLists(h1, TickHandler(h1));
    IdleClock(TickHandler(h1), batches);
  }

  /** A task put to sleep for T ticks stays asleep for T handled ticks, counting down, through every
      suspension and resumption: it never wakes early. */
  lemma {:induction false} NeverWakesEarly(s: KState, es: seq<Event>, p: Pid)
    requires Alive(s) && OneRunning(s) && p in s.pd && Sleeper(s.pd[p])
    requires Along(s, es, Undisturbed) && Exec(s, es).Some?
    ensures var s' := Exec(s, es).value;
      s'.clock - s.clock < s.pd[p].timeout ==>
        p in s'.pd && Asleep(s'.pd[p]) && s'.pd[p].timeout == s.pd[p].timeout - (s'.clock - s.clock)
    decreases |es|
  {
    if es != [] {
      var s1 := Step(s, es[0]).value;
      StepSleeps(s, es[0], p);
      StepKeepsOneRunning(s, es[0]);
      ClockAdvances(s1, es[1..]);
      if s1.clock - s.clock < s.pd[p].timeout {
        NeverWakesEarly(s1, es[1..], p);
      }
    }
  }

  /** And it wakes in the very step that handles the last of its ticks. */
  lemma WakesOnTime(s: KState, es: seq<Event>, e: Event, p: Pid)
    requires Alive(s) && OneRunning(s) && p in s.pd && Sleeper(s.pd[p])
    requires Along(s, es, Undisturbed) && Exec(s, es).Some?
    requires var s1 := Exec(s, es).value;
      && s1.clock - s.clock < s.pd[p].timeout && Punctual(s1, e) && Step(s1, e).Some?
      && Step(s1, e).value.clock - s.clock >= s.pd[p].timeout
    ensures var s' := Step(Exec(s, es).value, e).value;
      p in s'.pd && (Woken(s'.pd[p]) || s'.pd[p].state == RUNNING)
  {
    hide Alive, OneRunning, Along, Exec, Step;
    ClockAdvances(s, es);
    NeverWakesEarly(s, es, p);
    AlwaysOneRunningAlong(s, es);
    StepSleeps(Exec(s, es).value, e, p);
  }

  lemma {:induction false} AlwaysOneRunningAlong(s: KState, es: seq<Event>)
    requires Alive(s) && OneRunning(s) && Along(s, es, Undisturbed)
    ensures Exec(s, es).Some? ==> OneRunning(Exec(s, es).value)
    decreases |es|
  {
    if es != [] && Step(s, es[0]).Some? {
      StepKeepsOneRunning(s, es[0]);
      AlwaysOneRunningAlong(Step(s, es[0]).value, es[1..]);
    }
  }

  // ----- the law from the request on

  predicate SleepRequest(s: KState, e: Event, t: nat) {
    e.Call? && e.request == TaskSleep(t) && 0 < t < WORD / 2 && Punctual(s, e)
  }

  lemma SleepCalled(s: KState, t: nat, anchor: nat)
    requires Alive(s) && 0 < t < WORD / 2
    ensures var h, c := Called(s, TaskSleep(t), anchor), s.current;
      && c in h.order && c in h.pd && h.pd[c].state == SLEEPING && h.pd[c].timeout == t
      && h.cswitch && h.clock == s.clock && h.ticks == s.ticks
  {
    assert s.current in s.order && s.current in s.pd;
    IssueShape(s, TaskSleep(t));
    hide ObjectShape;
  }

  /** A request to sleep for t ticks; `slept` of them may be handled before the kernel returns. */
  lemma SleepBegins(s: KState, e: Event, t: nat)
    requires Alive(s) && SleepRequest(s, e, t) && Step(s, e).Some?
    ensures var s', c := Step(s, e).value, s.current;
      var slept := s'.clock - s.clock;
      && slept >= 0 && c in s'.pd
      && (slept < t ==> Asleep(s'.pd[c]) && s'.pd[c].timeout == t - slept)
      && (slept >= t ==> Woken(s'.pd[c]) || s'.pd[c].state == RUNNING)
  {
    var h := Called(s, e.request, e.anchor);
    SleepCalled(s, t, e.anchor);
    hide Called, Alive, Dispatch, ListShape, ObjectShape, Small;
    DispatchSleeps(h, e.batches, s.current);
  }

  /** What happened before the request: any run from boot without self-suspension. */
  ghost predicate Reached(cs: seq<Creation>, batches: seq<nat>, before: seq<Event>, s: KState) {
    && Start(cs, batches).Some? && Along(Start(cs, batches).value, before, NoSelfSuspension)
    && Exec(Start(cs, batches).value, before) == Some(s)
  }

  lemma ReachedRuns(cs: seq<Creation>, batches: seq<nat>, before: seq<Event>, s: KState)
    requires Reached(cs, batches, before, s)
    ensures Alive(s) && OneRunning(s)
  {
    StartRunning(cs, batches);
    AlwaysOneRunning(Start(cs, batches).value, before);
  }

  /** From boot: while fewer than t ticks have been handled since a task asked to sleep for t, it sleeps, or
      is suspended in its sleep, with exactly the rest to go, whatever the others do to it. */
  lemma SleepLasts(cs: seq<Creation>, batches: seq<nat>, before: seq<Event>, s: KState,
                   e: Event, t: nat, es: seq<Event>)
    requires Reached(cs, batches, before, s) && Alive(s) && SleepRequest(s, e, t) && Step(s, e).Some?
    requires Along(Step(s, e).value, es, Undisturbed) && Exec(Step(s, e).value, es).Some?
    ensures var s', c := Exec(Step(s, e).value, es).value, s.current;
      s'.clock - s.clock < t ==>
        c in s'.pd && Asleep(s'.pd[c]) && s'.pd[c].timeout == t - (s'.clock - s.clock)
  {
    var s1 := Step(s, e).value;
    ReachedRuns(cs, batches, before, s);
    hide Alive, OneRunning, Along, Exec, Step, Reached, NoSelfSuspension;
    SleepBegins(s, e, t);
    StepKeepsOneRunning(s, e);
    ClockAdvances(s1, es);
    if s1.clock - s.clock < t { NeverWakesEarly(s1, es, s.current); }
  }

  /** And the step in which the t-th tick is handled, be it that of the request or a later one, leaves the
      task ready, dispatched, or set to resume as ready. */
  lemma SleepEnds(cs: seq<Creation>, batches: seq<nat>, before: seq<Event>, s: KState,
                  e: Event, t: nat, es: seq<Event>, e': Event)
    requires Reached(cs, batches, before, s) && Alive(s) && SleepRequest(s, e, t) && Step(s, e).Some?
    requires Along(Step(s, e).value, es, Undisturbed) && Exec(Step(s, e).value, es).Some?
    requires var s1 := Exec(Step(s, e).value, es).value;
      && s1.clock - s.clock < t && Punctual(s1, e') && Step(s1, e').Some?
      && Step(s1, e').value.clock - s.clock >= t
    ensures var s', c := Step(Exec(Step(s, e).value, es).value, e').value, s.current;
      c in s'.pd && (Woken(s'.pd[c]) || s'.pd[c].state == RUNNING)
  {
    var s1 := Step(s, e).value;
    ReachedRuns(cs, batches, before, s);
    hide Alive, OneRunning, Along, Exec, Step, Reached, NoSelfSuspension;
    SleepBegins(s, e, t);
    StepKeepsOneRunning(s, e);
    ClockAdvances(s1, es);
    WakesOnTime(s1, es, e', s.current);
  }

  /** From boot, in every tame run: a timer runs exactly for the tasks that sleep, or slept when they
      were suspended. */
  lemma TimersBelongToSleepers(cs: seq<Creation>, batches: seq<nat>, es: seq<Event>, p: Pid)
    requires forall c :: c in cs ==> LegalCreation(c)
    requires Start(cs, batches).Some? && Along(Start(cs, batches).value, es, Tame)
    requires Exec(Start(cs, batches).value, es).Some?
    ensures var s := Exec(Start(cs, batches).value, es).value; p in s.pd ==> (s.pd[p].timeout > 0 <==> Asleep(s.pd[p]))
  {
    AlwaysSound(cs, batches, es);
    var s := Exec(Start(cs, batches).value, es).value;
    if p in s.pd { assert TimersAt(s.pd[p]); }
  }
}
