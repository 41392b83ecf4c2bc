/** Handlers that leave every queue alone keep the global invariants. */
module CalmHandlers {
  import opened KernelTypes
  import opened KernelState
  import opened Requests
  import opened Invariants

  /** The state in which a handler is called. */
  ghost predicate Entered(s: KState) {
    Shape(s) && s.current in s.pd && Awake(s.pd[s.current]) && Sound(s)
  }

  lemma CalmSound(s: KState, s': KState)
    requires Shape(s) && Sound(s) && GentleBut(s, s', {}) && 0 !in s'.pd
    requires s.muts <= s'.muts && forall i :: |s.muts| <= i < |s'.muts| ==> s'.muts[i] == NewMutex()
    requires s.sems <= s'.sems && forall i :: |s.sems| <= i < |s'.sems| ==>
               s'.sems[i].waiters == [] && SemServed(s'.sems[i], s'.pd)
    requires s.mbs <= s'.mbs && forall i :: |s.mbs| <= i < |s'.mbs| ==>
               s'.mbs[i].send == s'.mbs[i].recv == [] && s'.mbs[i].mails == []
    ensures Sound(s')
  {
    CalmQueues(s, s');
    PlacesFrame(s, s', {});
    AgreeFrame(s, s');
    TimersFrame(s, s', {});
    SemsFrame(s, s'.(sems := s.sems), {});
    forall i | 0 <= i < |s'.sems| ensures SemServed(s'.sems[i], s'.pd) {
      if i < |s.sems| { assert s'.sems[i] == s.sems[i]; }
    }
    forall i | 0 <= i < |s'.mbs| ensures Settled(s'.mbs[i]) {
      if i < |s.mbs| { assert s'.mbs[i] == s.mbs[i]; }
    }
    MutexesFrame(s, s');
  }

  lemma CalmQueues(s: KState, s': KState)
    requires s.muts <= s'.muts && forall i :: |s.muts| <= i < |s'.muts| ==> s'.muts[i] == NewMutex()
    requires s.sems <= s'.sems && forall i :: |s.sems| <= i < |s'.sems| ==> s'.sems[i].waiters == []
    requires s.mbs <= s'.mbs && forall i :: |s.mbs| <= i < |s'.mbs| ==> s'.mbs[i].send == s'.mbs[i].recv == []
    ensures forall pl :: QueueAt(s', pl) == QueueAt(s, pl)
  {
  }

  lemma OneTaskGentle(s: KState, s': KState, p: Pid)
    requires p in s.pd && p in s'.pd && s'.pd == s.pd[p := s'.pd[p]] && Gentle(s.pd[p], s'.pd[p])
    ensures GentleBut(s, s', {})
  {
  }

  lemma CreateTaskSound(s: KState, pri: nat)
    requires Entered(s)
    ensures Sound(CreateTask(s, pri))
  {
    CreateTaskGentle(s, pri);
    CalmSound(s, CreateTask(s, pri));
  }

  lemma CreateTaskGentle(s: KState, pri: nat)
    requires ListShape(s) && s.current in s.pd
    ensures GentleBut(s, CreateTask(s, pri), {}) && 0 !in CreateTask(s, pri).pd
  {
    var p, c, s' := s.lastPid + 1, s.current, CreateTask(s, pri);
    assert p !in s.pd && 0 !in s.pd;
    hide ListShape, Stays;
    assert s'.pd[c] == s.pd[c].(retval := s'.pd[c].retval);
    assert forall q :: q in s'.pd && q != c && q != p ==> q in s.pd && s'.pd[q] == s.pd[q];
  }

  lemma TerminateSound(s: KState, anchor: nat)
    requires Entered(s)
    ensures Sound(Terminate(s, anchor))
  {
    assert TimersAt(s.pd[s.current]);
    OneTaskGentle(s, Terminate(s, anchor), s.current);
    CalmSound(s, Terminate(s, anchor));
  }

  lemma SuspendSound(s: KState, p: Pid)
    requires Entered(s)
    ensures Sound(Suspend(s, p))
  {
    if p in s.pd { OneTaskGentle(s, Suspend(s, p), p); }
    CalmSound(s, Suspend(s, p));
  }

  lemma ResumeSound(s: KState, p: Pid)
    requires Entered(s)
    ensures Sound(Resume(s, p))
  {
    if p in s.pd {
      assert CanThaw(s.pd[p]);
      OneTaskGentle(s, Resume(s, p), p);
    }
    CalmSound(s, Resume(s, p));
  }

  lemma CreatesSound(s: KState, s': KState)
    requires Entered(s) && s'.current == s.current
    requires s.current in s'.pd && s'.pd == s.pd[s.current := s.pd[s.current].(retval := s'.pd[s.current].retval)]
    requires s'.muts == s.muts || s'.muts == s.muts + [NewMutex()]
    requires s'.sems == s.sems || exists initial, binary ::
               s'.sems == s.sems + [NewSemaphore(initial, binary)] && initial >= 0
    requires s'.mbs == s.mbs || exists capacity :: s'.mbs == s.mbs + [Mb(capacity, [], [], [], [])]
    ensures Sound(s')
  {
    OneTaskGentle(s, s', s.current);
    CalmSound(s, s');
  }

  lemma EventsSound(s: KState, r: Request, anchor: nat)
    requires Entered(s)
    requires r.EgCreate? || r.EgSetBits? || r.EgClearBits? || r.EgWaitBits?
    ensures Sound(Handle(s, r, anchor))
  {
    EventsGentle(s, r, anchor);
    CalmSound(s, Handle(s, r, anchor));
  }

  lemma EventsGentle(s: KState, r: Request, anchor: nat)
    requires s.current in s.pd && Awake(s.pd[s.current]) && ObjectShape(s)
    requires r.EgCreate? || r.EgSetBits? || r.EgClearBits? || r.EgWaitBits?
    ensures OnlyGently(s, Handle(s, r, anchor))
  {
    hide SetBits, ClearBits, WaitBits, Created, CreateEventGroup, GentleBut;
    match r
    case EgCreate => NewGroupGentle(s);
    case EgSetBits(id, bits) => SetBitsGentle(s, id, bits);
    case EgClearBits(id, bits) => ClearBitsGentle(s, id, bits);
    case EgWaitBits(id, bits, all, _) => WaitBitsGentle(s, id, bits, all);
  }

  ghost predicate OnlyGently(s: KState, s': KState) {
    GentleBut(s, s', {}) && s'.pd.Keys == s.pd.Keys && s'.muts == s.muts && s'.sems == s.sems && s'.mbs == s.mbs
  }

  lemma NewGroupGentle(s: KState)
    requires s.current in s.pd
    ensures OnlyGently(s, Created(CreateEventGroup(s)))
  {
    OneTaskGentle(s, Created(CreateEventGroup(s)), s.current);
  }

  lemma ClearBitsGentle(s: KState, id: nat, bits: bv16)
    ensures OnlyGently(s, ClearBits(s, id, bits))
  {
    assert GentleBut(s, ClearBits(s, id, bits), {});
  }

  lemma WaitBitsGentle(s: KState, id: nat, bits: bv16, all: bool)
    requires s.current in s.pd && Awake(s.pd[s.current])
    ensures OnlyGently(s, WaitBits(s, id, bits, all))
  {
    hide Satisfied;
    OneTaskGentle(s, WaitBits(s, id, bits, all), s.current);
  }

  lemma SetBitsGentle(s: KState, id: nat, bits: bv16)
    ensures OnlyGently(s, SetBits(s, id, bits))
  {
    hide Satisfied;
    var s' := SetBits(s, id, bits);
    forall p | p in s.pd ensures p in s'.pd && Gentle(s.pd[p], s'.pd[p]) {}
  }

  lemma FailSound(s: KState, e: ErrorCode)
    requires Shape(s) && Sound(s)
    ensures Sound(Fail(s, e))
  {
    CalmSound(s, Fail(s, e));
  }
}
