/** The global invariants hold in every state of every tame run. */
module TameRuns {
  import opened KernelTypes
  import opened KernelState
  import opened Requests
  import opened Scheduler
  import opened ShapeProofs
  import opened MainLoop
  import EventGroups
  import opened Invariants
  import opened CalmHandlers
  import opened Mutexes
  import opened Semaphores
  import opened Mailboxes

  /** What is assumed of the callers: only Task_Sleep sets a timer, and a nonzero one; amounts are
      not negative; priorities are legal. */
  predicate TameRequest(s: KState, r: Request)
    requires s.current in s.pd
  {
    match r
    case TaskCreate(pri) => pri <= LOWEST_PRIORITY
    case TaskSleep(t) => 0 < t < WORD
    case SemCreate(initial, _) => initial >= 0
    case SemGive(_, amount) => amount >= 0
    case SemGet(_, amount) => amount >= 0
    case EgWaitBits(_, _, _, t) => t == 0
    case MbSend(_, _, _, blocking, t) => blocking ==> t == 0
    case MbRecv(_, blocking, t) => blocking ==> t == 0
    case _ => true
  }

  predicate Tame(s: KState, e: Event) {
    e.Call? && s.current in s.pd ==> TameRequest(s, e.request)
  }

  ghost predicate Inv(s: KState) {
    Sound(s) && s.current in s.pd && Awake(s.pd[s.current])
  }

  // ----- handlers

  lemma IssueSound(s: KState, r: Request)
    requires Alive(s) && Inv(s) && s.current in s.pd && TameRequest(s, r) && !r.TaskSleep?
    ensures Entered(Issue(s, r)) && (r.CarriesArgs() ==> Issue(s, r).pd[s.current].args == r)
  {
    var i := Issue(s, r);
    IssueShape(s, r);
    assert TimersAt(s.pd[s.current]);
    OneTaskGentle(s, i, s.current);
    CalmSound(s, i);
  }

  lemma SleepSound(s: KState, t: nat)
    requires Alive(s) && Inv(s) && s.current in s.pd && t > 0
    ensures Sound(Sleep(Issue(s, TaskSleep(t))))
  {
    var s', c := Sleep(Issue(s, TaskSleep(t))), s.current;
    SleepFrame(s, t);
    CalmQueues(s, s');
    PlacesFrame(s, s', {c});
    AgreeFrame(s, s');
    TimersFrame(s, s', {c});
    SemsFrame(s, s', {c});
    MutexesUntouched(s, s', {c});
  }

  lemma SleepFrame(s: KState, t: nat)
    requires s.current in s.pd && Awake(s.pd[s.current]) && t > 0
    ensures var s', c := Sleep(Issue(s, TaskSleep(t))), s.current;
      && GentleBut(s, s', {c}) && s'.pd.Keys == s.pd.Keys && TimersAt(s'.pd[c])
      && s'.muts == s.muts && s'.sems == s.sems && s'.mbs == s.mbs
      && s'.pd[c].pri == s.pd[c].pri && s'.pd[c].base == s.pd[c].base && s'.pd[c].held == s.pd[c].held
      && s'.pd[c].orderly == s.pd[c].orderly
      && PlaceOf(s.pd[c]) == PlaceOf(s'.pd[c]) == Nowhere && s'.pd[c].state != WAIT_MUTEX
  {
  }

  lemma TaskSound(i: KState, r: Request, anchor: nat)
    requires Entered(i) && (r.TaskCreate? || r.TaskTerminate? || r.TaskSuspend? || r.TaskResume?)
    ensures Sound(Handle(i, r, anchor))
  {
    match r
    case TaskCreate(pri) => CreateTaskSound(i, pri);
    case TaskTerminate => TerminateSound(i, anchor);
    case TaskSuspend(p) => SuspendSound(i, p);
    case TaskResume(p) => ResumeSound(i, p);
  }

  lemma NewObjectSound(i: KState, r: Request, anchor: nat)
    requires Entered(i) && (r.MutCreate? || (r.SemCreate? && r.initial >= 0) || r.MbCreate?)
    ensures Sound(Handle(i, r, anchor))
  {
    hide Sound, Shape;
    match r
    case MutCreate => CreatesSound(i, Created(CreateMutex(i)));
    case SemCreate(initial, binary) => CreatesSound(i, Created(CreateSemaphore(i, initial, binary)));
    case MbCreate(capacity) => CreatesSound(i, Created(CreateMailbox(i, capacity)));
  }

  lemma RestSound(i: KState, r: Request, anchor: nat)
    requires Entered(i) && (r.MbCheck? || r.Invalid? || r.TaskYield? || r.NoRequest?)
    ensures Sound(Handle(i, r, anchor))
  {
    if r.MbCheck? || r.Invalid? { RefusedSound(i, Handle(i, r, anchor)); }
  }

  lemma ObjectSound(i: KState, r: Request, anchor: nat)
    requires Entered(i) && TameRequest(i, r) && i.pd[i.current].args == r
    requires r.MutLock? || r.MutUnlock? || r.SemGive? || r.SemGet? || r.MbSend? || r.MbRecv?
    ensures Sound(Handle(i, r, anchor))
  {
    match r
    case MutLock(id) => LockSound(i, id);
    case MutUnlock(id) => UnlockSound(i, id);
    case SemGive(id, amount) => GiveSound(i, id, amount);
    case SemGet(id, amount) => GetSound(i, id, amount);
    case MbSend(id, body, size, blocking, _) => SendSound(i, id, body, size, blocking);
    case MbRecv(id, blocking, _) => RecvSound(i, id, blocking);
  }

  lemma HandleSound(i: KState, r: Request, anchor: nat)
    requires Entered(i) && TameRequest(i, r) && !r.TaskSleep? && (r.CarriesArgs() ==> i.pd[i.current].args == r)
    ensures Sound(Handle(i, r, anchor))
  {
    assert ObjectShape(i);
    hide Entered, Sound, Handle, ObjectShape;
    if r.TaskCreate? || r.TaskTerminate? || r.TaskSuspend? || r.TaskResume? {
      TaskSound(i, r, anchor);
    } else if r.EgCreate? || r.EgSetBits? || r.EgClearBits? || r.EgWaitBits? {
      EventsSound(i, r, anchor);
    } else if r.MutLock? || r.MutUnlock? || r.SemGive? || r.SemGet? || r.MbSend? || r.MbRecv? {
      ObjectSound(i, r, anchor);
    } else if r.MutCreate? || r.SemCreate? || r.MbCreate? {
      NewObjectSound(i, r, anchor);
    } else {
      RestSound(i, r, anchor);
    }
  }

  lemma CalledSound(s: KState, r: Request, anchor: nat)
    requires Alive(s) && Inv(s) && s.current in s.pd && TameRequest(s, r)
    ensures Sound(Called(s, r, anchor))
  {
    if r.TaskSleep? {
      SleepSound(s, r.timeout);
    } else {
      hide Inv, Entered, Sound, Handle, ListShape, ObjectShape;
      IssueSound(s, r);
      HandleSound(Issue(s, r), r, anchor);
    }
  }

  // ----- dispatch

  lemma AgedTask(d: PD, d': PD)
    requires Aged(d, d') && TimersAt(d)
    ensures TimersAt(d') && PlaceOf(d') == PlaceOf(d) && (d.timeout == 0 ==> Gentle(d, d'))
    ensures d.timeout > 0 ==> PlaceOf(d) == Nowhere
  {
  }

  lemma AgedSound(s: KState, s': KState)
    requires Shape(s) && Sound(s) && OnlyAged(s, s')
    ensures Sound(s')
  {
    hide ListShape, MutsFair, PrioritiesKept, SemsServed;
    var sleepers := set p | p in s.pd && s.pd[p].timeout > 0;
    AgedFrame(s, s', sleepers);
    CalmQueues(s, s');
    AgreeFrame(s, s');
    SemsFrame(s, s', sleepers);
    MutexesUntouched(s, s', sleepers);
  }

  lemma AgedFrame(s: KState, s': KState, sleepers: set<Pid>)
    requires Timers(s) && OnlyAged(s, s') && sleepers == set p | p in s.pd && s.pd[p].timeout > 0
    ensures GentleBut(s, s', sleepers) && SamePlaces(s, s', {}) && Timers(s')
    ensures forall p :: p in sleepers ==>
      && p in s.pd && p in s'.pd && PlaceOf(s.pd[p]) == PlaceOf(s'.pd[p]) == Nowhere
      && s'.pd[p].pri == s.pd[p].pri && s'.pd[p].base == s.pd[p].base && s'.pd[p].held == s.pd[p].held
      && s'.pd[p].orderly == s.pd[p].orderly
  {
    forall p | p in s.pd
      ensures p in s'.pd && Aged(s.pd[p], s'.pd[p]) && TimersAt(s'.pd[p])
      ensures PlaceOf(s'.pd[p]) == PlaceOf(s.pd[p]) && (s.pd[p].timeout == 0 ==> Gentle(s.pd[p], s'.pd[p]))
      ensures s.pd[p].timeout > 0 ==> PlaceOf(s.pd[p]) == Nowhere
    {
      assert p in s'.pd.Keys;
      assert TimersAt(s.pd[p]);
      AgedTask(s.pd[p], s'.pd[p]);
    }
    forall p | p in s'.pd ensures p in s.pd { assert p in s.pd.Keys; }
  }

  /** The scan only ever selects READY tasks. */
  lemma {:induction false} ScanReady(s: KState, k: nat)
    requires s.order != [] && ListShape(s)
    ensures var a := ScanTo(s, k);
      (a.next >= 0 ==> TaskAt(s, a.next).state == READY) && (a.starved >= 0 ==> TaskAt(s, a.starved).state == READY)
  {
    if k > 0 { ScanReady(s, k - 1); }
  }

  lemma RequeueSound(s: KState)
    requires Shape(s) && Sound(s)
    ensures Sound(Requeue(s))
  {
    if s.current in s.pd && s.pd[s.current].state == RUNNING {
      OneTaskGentle(s, Requeue(s), s.current);
    }
    CalmSound(s, Requeue(s));
  }

  lemma RunSound(s: KState, k: nat)
    requires Shape(s) && Sound(s) && s.order != [] && TaskAt(s, k).state == READY
    ensures Sound(Run(s, k))
  {
    var p := s.order[Visited(s, k)];
    OneTaskGentle(s, Run(s, k), p);
    CalmSound(s, Run(s, k));
  }

  lemma DispatchSound(s: KState, batches: seq<nat>)
    requires Shape(s) && Sound(s)
    ensures Dispatch(s, batches).Some? ==> Sound(Dispatch(s, batches).value)
  {
    var c := Choice(s, batches);
    if c.Some? && Select(c.value) >= 0 {
      RequeueShape(s);
      RequeueSound(s);
      AgedSound(Requeue(s), c.value);
      ChoiceShape(s, batches);
      ScanReady(c.value, |c.value.order|);
      RunSound(c.value, Select(c.value));
    }
  }

  lemma SwitchFlagSound(s: KState)
    requires Shape(s) && Sound(s)
    ensures Sound(s.(cswitch := false))
  {
    CalmSound(s, s.(cswitch := false));
  }

  lemma SwitchSound(h: KState, batches: seq<nat>)
    requires Shape(h) && Sound(h) && Switch(h, batches).Some?
    ensures Inv(Switch(h, batches).value)
  {
    DispatchSound(h, batches);
    DispatchShape(h, batches);
    SwitchFlagSound(Dispatch(h, batches).value);
  }

  // ----- runs

  lemma StepSound(s: KState, e: Event)
    requires Alive(s) && Inv(s) && Tame(s, e) && Step(s, e).Some?
    ensures Inv(Step(s, e).value)
  {
    assert s.current in s.order && s.current in s.pd;
    match e
    case TimerTick => CalmSound(s, Tick(s));
    case Call(r, anchor, batches) =>
      var h := Called(s, r, anchor);
      CalledSound(s, r, anchor);
      EventGroups.CalledAwake(s, r, anchor);
      if Switches(h, r) {
        SwitchSound(h, batches);
      }
  }

  lemma {:induction false} RunsSound(s: KState, es: seq<Event>)
    requires Alive(s) && Inv(s) && Along(s, es, Tame)
    ensures Exec(s, es).Some? ==> Inv(Exec(s, es).value)
    decreases |es|
  {
    if es != [] && Step(s, es[0]).Some? {
      StepSound(s, es[0]);
      RunsSound(Step(s, es[0]).value, es[1..]);
    }
  }

  predicate LegalCreation(c: Creation) {
    (c.ATask? ==> c.pri <= LOWEST_PRIORITY) && (c.ASemaphore? ==> c.initial >= 0)
  }

  lemma CreateSound(s: KState, c: Creation)
    requires Shape(s) && Sound(s) && LegalCreation(c)
    ensures Sound(Create(s, c))
  {
    assert s.lastPid + 1 !in s.pd && 0 !in s.pd;
    CreateGentle(s, c);
    CalmSound(s, Create(s, c));
  }

  lemma CreateGentle(s: KState, c: Creation)
    requires s.lastPid + 1 !in s.pd && 0 !in s.pd && LegalCreation(c)
    ensures var s' := Create(s, c);
      && GentleBut(s, s', {}) && 0 !in s'.pd
      && s.muts <= s'.muts && (forall i :: |s.muts| <= i < |s'.muts| ==> s'.muts[i] == NewMutex())
      && s.sems <= s'.sems && (forall i :: |s.sems| <= i < |s'.sems| ==>
                               s'.sems[i].waiters == [] && SemServed(s'.sems[i], s'.pd))
      && s.mbs <= s'.mbs
      && (forall i :: |s.mbs| <= i < |s'.mbs| ==> s'.mbs[i].send == s'.mbs[i].recv == [] && s'.mbs[i].mails == [])
  {
  }

  lemma ResetSound()
    ensures Sound(RESET)
  {
    assert forall pl :: QueueAt(RESET, pl) == [];
    forall pl | pl != Nowhere ensures AgreeAt(RESET, pl) {}
  }

  lemma {:induction false} ConfigureSound(cs: seq<Creation>)
    requires forall c :: c in cs ==> LegalCreation(c)
    ensures Sound(Configure(cs))
    decreases |cs|
  {
    if cs == [] {
      ResetSound();
    } else {
      var rest, c := cs[..|cs| - 1], cs[|cs| - 1];
      assert forall d :: d in rest ==> d in cs;
      assert c in cs;
      ConfigureSound(rest);
      ConfigureShape(rest);
      CreateSound(Configure(rest), c);
    }
  }

  /** From boot on, in every tame run: queues and task states agree, timers belong to sleepers,
      nobody waits needlessly, owners and saved priorities are right, and one task is RUNNING. */
  lemma AlwaysSound(cs: seq<Creation>, batches: seq<nat>, es: seq<Event>)
    requires forall c :: c in cs ==> LegalCreation(c)
    requires Start(cs, batches).Some? && Along(Start(cs, batches).value, es, Tame)
    ensures Exec(Start(cs, batches).value, es).Some? ==> Inv(Exec(Start(cs, batches).value, es).value)
  {
    StartSound(cs, batches);
    RunsSound(Start(cs, batches).value, es);
  }

  lemma StartSound(cs: seq<Creation>, batches: seq<nat>)
    requires (forall c :: c in cs ==> LegalCreation(c)) && Start(cs, batches).Some?
    ensures Inv(Start(cs, batches).value)
  {
    hide Sound, Shape, Switch, LegalCreation;
    var s := Configure(cs);
    var s1 := s.(last := |s.order| - 1);
    ConfigureShape(cs);
    ConfigureSound(cs);
    TailSound(s, s1);
    SwitchSound(s1, batches);
  }

  lemma TailSound(s: KState, s1: KState)
    requires Shape(s) && Sound(s) && s1 == s.(last := s1.last)
    ensures Shape(s1) && Sound(s1)
  {
    TasksShape(s, s1);
    CalmSound(s, s1);
  }
}
