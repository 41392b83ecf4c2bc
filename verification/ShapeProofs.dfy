/** Every handler keeps the data structure invariant, on any request and any state of the queues. */
module ShapeProofs {
  import opened KernelTypes
  import opened KernelState
  import opened Requests
  import opened Scheduler

  ghost predicate LifeKept(d: PD, d': PD) {
    && (d'.state == DEAD <==> d.state == DEAD)
    && (CanThaw(d) ==> CanThaw(d'))
  }

  /** Descriptors change, but none appears, disappears, dies or comes back to life. */
  ghost predicate SameLives(s: KState, s': KState) {
    && s'.pd.Keys == s.pd.Keys
    && (forall p :: p in s.pd ==> LifeKept(s.pd[p], s'.pd[p]))
    && s'.order == s.order && s'.lastPid == s.lastPid && s'.current == s.current
  }

  lemma OneChanged(s: KState, s': KState, p: Pid)
    requires p in s.pd && p in s'.pd && s'.pd == s.pd[p := s'.pd[p]] && LifeKept(s.pd[p], s'.pd[p])
    requires s'.order == s.order && s'.lastPid == s.lastPid && s'.current == s.current
    ensures SameLives(s, s')
  {
  }

  lemma LivesChain(a: KState, b: KState, c: KState)
    requires SameLives(a, b) && SameLives(b, c)
    ensures SameLives(a, c)
  {
    forall p | p in a.pd ensures LifeKept(a.pd[p], c.pd[p]) {
      assert LifeKept(a.pd[p], b.pd[p]);
      assert p in b.pd.Keys && p in c.pd.Keys;
      assert LifeKept(b.pd[p], c.pd[p]);
    }
  }

  lemma ListFrame(s: KState, s': KState)
    requires ListShape(s) && SameLives(s, s')
    ensures ListShape(s')
  {
    forall p ensures p in s'.pd <==> p in s.pd {
      assert p in s.pd <==> p in s.pd.Keys;
      assert p in s'.pd <==> p in s'.pd.Keys;
    }
    forall p | p in s.pd ensures LifeKept(s.pd[p], s'.pd[p]) {}
  }

  /** The objects of s' are those of s, except the ones proved in shape separately. */
  lemma ObjectFrame(s: KState, s': KState)
    requires ObjectShape(s) && s.pd.Keys <= s'.pd.Keys
    requires forall i :: 0 <= i < |s'.muts| ==> (i < |s.muts| && s'.muts[i] == s.muts[i]) || MutShape(s'.muts[i], s'.pd)
    requires forall i :: 0 <= i < |s'.sems| ==> (i < |s.sems| && s'.sems[i] == s.sems[i]) || SemShape(s'.sems[i], s'.pd)
    requires forall i :: 0 <= i < |s'.mbs| ==> (i < |s.mbs| && s'.mbs[i] == s.mbs[i]) || MbShape(s'.mbs[i], s'.pd)
    ensures ObjectShape(s')
  {
    forall p | p in s.pd ensures p in s'.pd { assert p in s.pd.Keys; }
    forall i | 0 <= i < |s'.muts| ensures MutShape(s'.muts[i], s'.pd) {
      if i < |s.muts| && s'.muts[i] == s.muts[i] { assert MutShape(s.muts[i], s.pd); }
    }
    forall i | 0 <= i < |s'.sems| ensures SemShape(s'.sems[i], s'.pd) {
      if i < |s.sems| && s'.sems[i] == s.sems[i] { assert SemShape(s.sems[i], s.pd); }
    }
    forall i | 0 <= i < |s'.mbs| ensures MbShape(s'.mbs[i], s'.pd) {
      if i < |s.mbs| && s'.mbs[i] == s.mbs[i] { assert MbShape(s.mbs[i], s.pd); }
    }
  }

  lemma IssueShape(s: KState, r: Request)
    requires Shape(s) && s.current in s.pd
    ensures SameLives(s, Issue(s, r)) && Shape(Issue(s, r))
  {
    ListFrame(s, Issue(s, r));
    ObjectFrame(s, Issue(s, r));
  }

  lemma CreateTaskShape(s: KState, pri: nat)
    requires Shape(s)
    ensures Shape(CreateTaskDirect(s, pri).0)
  {
    var s' := CreateTaskDirect(s, pri).0;
    if |s.order| != MAXTHREAD {
      assert s.lastPid + 1 !in s.pd;
      ObjectFrame(s, s');
    }
  }

  lemma RemoveOne<T(!new)>(a: seq<T>, i: nat)
    requires i < |a| && NoDup(a)
    ensures NoDup(a[..i] + a[i + 1..])
    ensures forall x :: x in a[..i] + a[i + 1..] <==> x in a && x != a[i]
  {
    assert a == a[..i] + [a[i]] + a[i + 1..];
    var rest := a[i + 1..];
    forall j | 0 <= j < |rest| ensures rest[j] != a[i] {
      assert rest[j] == a[i + 1 + j];
    }
  }

  lemma TerminateShape(s: KState, anchor: nat)
    requires Shape(s) && s.current in s.pd && s.pd[s.current].state != DEAD
    ensures Shape(Terminate(s, anchor))
  {
    RemoveOne(s.order, IndexOf(s.order, s.current));
    ObjectFrame(s, Terminate(s, anchor));
  }

  /** Kernel state changed in tasks only. */
  lemma TasksShape(s: KState, s': KState)
    requires Shape(s) && SameLives(s, s')
    requires s'.muts == s.muts && s'.sems == s.sems && s'.mbs == s.mbs
    ensures Shape(s')
  {
    ListFrame(s, s');
    ObjectFrame(s, s');
  }

  lemma ReplaceMut(s: KState, s': KState, id: nat, m: Mut)
    requires Shape(s) && SameLives(s, s')
    requires 1 <= id <= |s.muts| && s'.muts == s.muts[id - 1 := m] && MutShape(m, s'.pd)
    requires s'.sems == s.sems && s'.mbs == s.mbs
    ensures Shape(s')
  {
    ListFrame(s, s');
    ObjectFrame(s, s');
  }

  lemma LockedShape(s: KState, id: nat)
    requires s.current in s.pd && s.current != 0 && 1 <= id <= |s.muts| && MutShape(s.muts[id - 1], s.pd)
    ensures |Lock(s, id).muts| == |s.muts| && MutShape(Lock(s, id).muts[id - 1], Lock(s, id).pd)
  {
    hide Stays;
  }

  lemma LockChanges(s: KState, id: nat)
    requires s.current in s.pd && s.pd[s.current].state != DEAD
    ensures var s' := Lock(s, id);
      && SameLives(s, s') && s'.sems == s.sems && s'.mbs == s.mbs
      && if 1 <= id <= |s.muts| then |s'.muts| == |s.muts| && s'.muts == s.muts[id - 1 := s'.muts[id - 1]]
         else s'.muts == s.muts
  {
    hide Stays;
    var s', c := Lock(s, id), s.current;
    assert c in s'.pd && s'.pd == s.pd[c := s'.pd[c]];
    hide SameLives;
    OneChanged(s, s', c);
  }

  lemma LockShape(s: KState, id: nat)
    requires Shape(s) && s.current in s.pd && s.pd[s.current].state != DEAD
    ensures SameLives(s, Lock(s, id)) && Shape(Lock(s, id))
  {
    var s' := Lock(s, id);
    assert s.current != 0 && forall i :: 0 <= i < |s.muts| ==> MutShape(s.muts[i], s.pd);
    hide Shape, Lock, MutShape, SameLives;
    LockChanges(s, id);
    if 1 <= id <= |s.muts| {
      LockedShape(s, id);
      ReplaceMut(s, s', id, s'.muts[id - 1]);
    } else {
      TasksShape(s, s');
    }
  }

  lemma HandOffShape(s: KState, id: nat)
    requires s.current in s.pd && s.pd[s.current].state != DEAD && 1 <= id <= |s.muts|
    requires var m := s.muts[id - 1];
             m.waiters != [] && |m.origs| == |m.waiters| && forall p :: p in m.waiters ==> p in s.pd && p != 0
    ensures var s' := HandOff(s, id);
      && SameLives(s, s') && s'.sems == s.sems && s'.mbs == s.mbs
      && s'.muts == s.muts[id - 1 := s'.muts[id - 1]] && MutShape(s'.muts[id - 1], s'.pd)
  {
    var s', m := HandOff(s, id), s.muts[id - 1];
    var p := m.waiters[0];
    var s1 := s.(pd := s.pd[p := s.pd[p].(held := s.pd[p].held + [id])]);
    OneChanged(s, s1, p);
    if s1.pd[p].state == WAIT_MUTEX {
      var s2 := s1.(pd := s1.pd[p := s1.pd[p].(state := READY, pri := m.highest)]);
      OneChanged(s1, s2, p);
      OneChanged(s2, Block(s2, READY), s.current);
      LivesChain(s, s1, s2);
      LivesChain(s, s2, Block(s2, READY));
    }
    assert s'.muts[id - 1].waiters == m.waiters[1..];
    assert forall q :: q in m.waiters[1..] ==> q in m.waiters;
  }

  lemma ReleaseShape(s: KState, id: nat)
    requires Shape(s) && s.current in s.pd && s.pd[s.current].state != DEAD
    requires 1 <= id <= |s.muts| && s.muts[id - 1].owner == s.current && s.muts[id - 1].lockCount <= 1
    ensures SameLives(s, Unlock(s, id)) && Shape(Unlock(s, id))
  {
    hide SafeRelease, Without, AllReleased, Stays;
    var s', m := Unlock(s, id), s.muts[id - 1];
    assert MutShape(m, s.pd);
    var d := Cur(s).(pri := m.ownerOrig, held := Without(Cur(s).held, id),
                        orderly := Cur(s).orderly && SafeRelease(s, id));
    var s1 := WithMut(WithCur(s, d), id, m.(lockCount := 0));
    OneChanged(s, s1, s.current);
    if m.waiters != [] {
      HandOffShape(s1, id);
      LivesChain(s, s1, s');
      ReplaceMut(s, s', id, s'.muts[id - 1]);
    } else {
      ReplaceMut(s, s', id, m.(lockCount := 0, owner := 0));
    }
  }

  lemma UnlockShape(s: KState, id: nat)
    requires Shape(s) && s.current in s.pd && s.pd[s.current].state != DEAD
    ensures SameLives(s, Unlock(s, id)) && Shape(Unlock(s, id))
  {
    if 1 <= id <= |s.muts| && s.muts[id - 1].owner == s.current {
      var m := s.muts[id - 1];
      assert MutShape(m, s.pd);
      if m.lockCount <= 1 {
        ReleaseShape(s, id);
      } else {
        ReplaceMut(s, Unlock(s, id), id, m.(lockCount := m.lockCount - 1));
      }
    } else {
      TasksShape(s, Unlock(s, id));
    }
  }

  lemma DrainShape(m: Sem, pd: map<Pid, PD>)
    requires SemShape(m, pd)
    ensures var r := Drain(m, pd);
      && r.pd.Keys == pd.Keys && SemShape(r.sem, r.pd)
      && forall p :: p in pd ==>
           r.pd[p] == pd[p] || (pd[p].state == WAIT_SEMAPHORE && r.pd[p] == pd[p].(state := READY))
    decreases |m.waiters|
  {
    if m.waiters != [] {
      var p := m.waiters[0];
      if m.count - Amount(pd[p]) >= 0 && pd[p].state == WAIT_SEMAPHORE {
        DrainShape(m.(count := m.count - Amount(pd[p]), waiters := m.waiters[1..]), pd[p := pd[p].(state := READY)]);
      }
    }
  }

  lemma ReplaceSem(s: KState, s': KState, id: nat, m: Sem)
    requires Shape(s) && SameLives(s, s')
    requires 1 <= id <= |s.sems| && s'.sems == s.sems[id - 1 := m] && SemShape(m, s'.pd)
    requires s'.muts == s.muts && s'.mbs == s.mbs
    ensures Shape(s')
  {
    ListFrame(s, s');
    ObjectFrame(s, s');
  }

  lemma GetShape(s: KState, id: nat, amount: int)
    requires Shape(s) && s.current in s.pd && s.pd[s.current].state != DEAD
    ensures SameLives(s, SemaphoreGet(s, id, amount)) && Shape(SemaphoreGet(s, id, amount))
  {
    var s' := SemaphoreGet(s, id, amount);
    if 1 <= id <= |s.sems| {
      assert SemShape(s.sems[id - 1], s.pd) && SemShape(s'.sems[id - 1], s'.pd);
      hide Shape, SemShape;
      ReplaceSem(s, s', id, s'.sems[id - 1]);
    } else {
      TasksShape(s, s');
    }
  }

  lemma DrainLives(s: KState, id: nat, m: Sem)
    requires Shape(s) && 1 <= id <= |s.sems| && SemShape(m, s.pd)
    ensures var r := Drain(m, s.pd); var s' := WithSem(s, id, r.sem).(pd := r.pd); SameLives(s, s') && Shape(s')
  {
    DrainShape(m, s.pd);
    var r := Drain(m, s.pd);
    ReplaceSem(s, WithSem(s, id, r.sem).(pd := r.pd), id, r.sem);
  }

  lemma GiveShape(s: KState, id: nat, amount: int)
    requires Shape(s)
    ensures SameLives(s, SemaphoreGive(s, id, amount)) && Shape(SemaphoreGive(s, id, amount))
  {
    if 1 <= id <= |s.sems| {
      var m1 := Given(s.sems[id - 1], amount);
      assert SemShape(s.sems[id - 1], s.pd) && SemShape(m1, s.pd);
      if m1.count > 0 && m1.waiters != [] {
        DrainLives(s, id, m1);
        var r := Drain(m1, s.pd);
        var s1 := WithSem(s, id, r.sem).(pd := r.pd);
        TasksShape(s1, Fail(s1, UNPROCESSABLE_TASK_STATE_ERR));
      } else {
        ReplaceSem(s, WithSem(s, id, m1), id, m1);
      }
    } else {
      TasksShape(s, Fail(s, OBJECT_NOT_FOUND_ERR));
    }
  }

  lemma BoxShape(s: KState, id: nat, w: Box)
    requires Shape(s) && 1 <= id <= |s.mbs|
    requires w.Ok() && AllHandled(s.pd, w.pd)
    ensures SameLives(s, WithBox(s, id, w)) && Shape(WithBox(s, id, w))
  {
    var s' := WithBox(s, id, w);
    forall p | p in s.pd ensures LifeKept(s.pd[p], w.pd[p]) {
      assert Handled(s.pd[p], w.pd[p]);
    }
    ListFrame(s, s');
    assert MbShape(s'.mbs[id - 1], s'.pd);
    ObjectFrame(s, s');
  }

  lemma FinishShape(s: KState, retval: int)
    requires Shape(s) && s.current in s.pd
    ensures SameLives(s, Finish(s, retval)) && Shape(Finish(s, retval))
  {
    TasksShape(s, Finish(s, retval));
  }

  lemma BlockedSendShape(s: KState, id: nat, m: Mail)
    requires Shape(s) && s.current in s.pd && s.pd[s.current].state != DEAD && 1 <= id <= |s.mbs|
    requires SendInternal(BoxAt(s, id), s.current, m, true).1 == -1
    ensures var s' := WithBox(s, id, SendInternal(BoxAt(s, id), s.current, m, true).0);
            SameLives(s, s') && Shape(s')
  {
    var s' := WithBox(s, id, SendInternal(BoxAt(s, id), s.current, m, true).0);
    assert s'.mbs[id - 1] == s.mbs[id - 1].(send := s.mbs[id - 1].send + [s.current]);
    ListFrame(s, s');
    assert MbShape(s.mbs[id - 1], s.pd) && MbShape(s'.mbs[id - 1], s'.pd);
    ObjectFrame(s, s');
  }

  lemma BlockedRecvShape(s: KState, id: nat)
    requires Shape(s) && s.current in s.pd && s.pd[s.current].state != DEAD && 1 <= id <= |s.mbs|
    requires RecvInternal(BoxAt(s, id), s.current, s.current, true).1 == -1
    ensures var s' := WithBox(s, id, RecvInternal(BoxAt(s, id), s.current, s.current, true).0);
            SameLives(s, s') && Shape(s')
  {
    var s' := WithBox(s, id, RecvInternal(BoxAt(s, id), s.current, s.current, true).0);
    assert s'.mbs[id - 1] == s.mbs[id - 1].(recv := s.mbs[id - 1].recv + [s.current]);
    ListFrame(s, s');
    assert MbShape(s.mbs[id - 1], s.pd) && MbShape(s'.mbs[id - 1], s'.pd);
    ObjectFrame(s, s');
  }

  lemma SendShape(s: KState, id: nat, body: int, size: nat, blocking: bool)
    requires Shape(s) && s.current in s.pd && s.pd[s.current].state != DEAD
    ensures SameLives(s, Send(s, id, body, size, blocking)) && Shape(Send(s, id, body, size, blocking))
  {
    if 1 <= id <= |s.mbs| {
      var (w, retval) := SendInternal(BoxAt(s, id), s.current, Mail(body, size, s.current), blocking);
      if retval == -1 {
        BlockedSendShape(s, id, Mail(body, size, s.current));
      } else {
        BoxShape(s, id, w);
        FinishShape(WithBox(s, id, w), retval);
      }
    } else {
      TasksShape(s, Send(s, id, body, size, blocking));
    }
  }

  lemma RecvShape(s: KState, id: nat, blocking: bool)
    requires Shape(s) && s.current in s.pd && s.pd[s.current].state != DEAD
    ensures SameLives(s, Recv(s, id, blocking)) && Shape(Recv(s, id, blocking))
  {
    if 1 <= id <= |s.mbs| {
      var (w, retval) := RecvInternal(BoxAt(s, id), s.current, s.current, blocking);
      if retval == -1 {
        BlockedRecvShape(s, id);
      } else {
        BoxShape(s, id, w);
        FinishShape(WithBox(s, id, w), retval);
      }
    } else {
      TasksShape(s, Recv(s, id, blocking));
    }
  }

  lemma CreateObjectShape(s: KState, s': KState)
    requires Shape(s) && SameLives(s, s')
    requires s'.muts == s.muts || s'.muts == s.muts + [NewMutex()]
    requires s'.sems == s.sems || exists initial, binary :: s'.sems == s.sems + [NewSemaphore(initial, binary)]
    requires s'.mbs == s.mbs || exists capacity :: s'.mbs == s.mbs + [Mb(capacity, [], [], [], [])]
    ensures Shape(s')
  {
    ListFrame(s, s');
    ObjectFrame(s, s');
  }

  // ----- ticks and dispatch

  lemma AgedLives(s: KState, s': KState)
    requires Shape(s) && OnlyAged(s, s')
    ensures SameLives(s, s') && Shape(s')
  {
    forall p | p in s.pd ensures LifeKept(s.pd[p], s'.pd[p]) {
      assert p in s'.pd.Keys;
      assert Aged(s.pd[p], s'.pd[p]);
    }
    TasksShape(s, s');
  }

  lemma RequeueShape(s: KState)
    requires Shape(s)
    ensures SameLives(s, Requeue(s)) && Shape(Requeue(s))
  {
    if s.current in s.pd { OneChanged(s, Requeue(s), s.current); }
    TasksShape(s, Requeue(s));
  }

  lemma ChoiceShape(s: KState, batches: seq<nat>)
    requires Shape(s)
    ensures Choice(s, batches).Some? ==> SameLives(s, Choice(s, batches).value) && Shape(Choice(s, batches).value)
  {
    RequeueShape(s);
    if Choice(s, batches).Some? {
      AgedLives(Requeue(s), Choice(s, batches).value);
      LivesChain(s, Requeue(s), Choice(s, batches).value);
    }
  }

  lemma RunShape(s: KState, k: nat)
    requires Shape(s) && s.order != []
    ensures Shape(Run(s, k)) && Run(s, k).order == s.order
    ensures Run(s, k).last < |s.order| && Run(s, k).order[Run(s, k).last] == Run(s, k).current != 0
  {
    var s', p := Run(s, k), s.order[Visited(s, k)];
    assert p in s.order;
    var s1 := s.(pd := s'.pd);
    OneChanged(s, s1, p);
    TasksShape(s, s1);
    assert ListShape(s') && ObjectShape(s');
  }

  lemma DispatchShape(s: KState, batches: seq<nat>)
    requires Shape(s)
    ensures Dispatch(s, batches).Some? ==>
      var s' := Dispatch(s, batches).value;
      Shape(s') && s'.order == s.order && s'.last < |s'.order| && s'.order[s'.last] == s'.current != 0
  {
    ChoiceShape(s, batches);
    var c := Choice(s, batches);
    if c.Some? && Select(c.value) >= 0 {
      RunShape(c.value, Select(c.value));
    }
  }

  // ----- all requests

  lemma NewTaskShape(s: KState, pri: nat)
    requires Shape(s) && s.current in s.pd && s.pd[s.current].state != DEAD
    ensures Shape(CreateTask(s, pri))
  {
    hide ObjectShape, Stays;
    var s1 := CreateTaskDirect(s, pri).0;
    CreateTaskShape(s, pri);
    OneChanged(s1, CreateTask(s, pri), s.current);
    TasksShape(s1, CreateTask(s, pri));
  }

  lemma HandleTaskShape(s: KState, r: Request, anchor: nat)
    requires Shape(s) && s.current in s.pd && s.pd[s.current].state != DEAD
    requires r.TaskCreate? || r.TaskTerminate? || r.TaskSuspend? || r.TaskResume? || r.TaskSleep?
    ensures Shape(Handle(s, r, anchor))
  {
    hide ObjectShape, Stays, CreateTask, Terminate;
    var s' := Handle(s, r, anchor);
    match r
    case TaskCreate(pri) => NewTaskShape(s, pri);
    case TaskTerminate => TerminateShape(s, anchor);
    case TaskSuspend(p) =>
      if p in s.pd { OneChanged(s, s', p); }
      TasksShape(s, s');
    case TaskResume(p) =>
      if p in s.pd { assert CanThaw(s.pd[p]); OneChanged(s, s', p); }
      TasksShape(s, s');
    case TaskSleep(_) =>
      OneChanged(s, s', s.current);
      TasksShape(s, s');
  }

  lemma SetBitsLives(s: KState, id: nat, bits: bv16)
    ensures SameLives(s, SetBits(s, id, bits))
  {
    hide Satisfied, Stays;
    var s' := SetBits(s, id, bits);
    assert s'.pd.Keys == s.pd.Keys;
  }

  lemma OtherEventLives(s: KState, r: Request, anchor: nat)
    requires s.current in s.pd && s.pd[s.current].state != DEAD && ObjectShape(s)
    requires r.EgCreate? || r.EgClearBits? || r.EgWaitBits?
    ensures SameLives(s, Handle(s, r, anchor))
  {
    hide ObjectShape, Stays, Satisfied;
    var s' := Handle(s, r, anchor);
    assert s'.pd == s.pd[s.current := s'.pd[s.current]];
    OneChanged(s, s', s.current);
  }

  lemma HandleEventShape(s: KState, r: Request, anchor: nat)
    requires Shape(s) && s.current in s.pd && s.pd[s.current].state != DEAD
    requires r.EgCreate? || r.EgSetBits? || r.EgClearBits? || r.EgWaitBits?
    ensures Shape(Handle(s, r, anchor))
  {
    assert ObjectShape(s);
    hide Shape, ObjectShape, Stays, Satisfied, SameLives;
    if r.EgSetBits? { SetBitsLives(s, r.id, r.bits); } else { OtherEventLives(s, r, anchor); }
    TasksShape(s, Handle(s, r, anchor));
  }

  lemma HandleCreateShape(s: KState, r: Request, anchor: nat)
    requires Shape(s) && s.current in s.pd && s.pd[s.current].state != DEAD
    requires r.MutCreate? || r.SemCreate? || r.MbCreate?
    ensures Shape(Handle(s, r, anchor))
  {
    var s' := Handle(s, r, anchor);
    OneChanged(s, s', s.current);
    CreateObjectShape(s, s');
  }

  lemma HandleMutexShape(s: KState, r: Request, anchor: nat)
    requires Shape(s) && s.current in s.pd && s.pd[s.current].state != DEAD && (r.MutLock? || r.MutUnlock?)
    ensures Shape(Handle(s, r, anchor))
  {
    assert ObjectShape(s);
    hide Shape, ObjectShape, Stays, Lock, Unlock;
    if r.MutLock? { LockShape(s, r.id); } else { UnlockShape(s, r.id); }
  }

  lemma HandleSemaphoreShape(s: KState, r: Request, anchor: nat)
    requires Shape(s) && s.current in s.pd && s.pd[s.current].state != DEAD && (r.SemGive? || r.SemGet?)
    ensures Shape(Handle(s, r, anchor))
  {
    assert ObjectShape(s);
    hide Shape, ObjectShape, Stays, SemaphoreGive, SemaphoreGet;
    if r.SemGive? { GiveShape(s, r.id, r.amount); } else { GetShape(s, r.id, r.amount); }
  }

  lemma HandleMailShape(s: KState, r: Request, anchor: nat)
    requires Shape(s) && s.current in s.pd && s.pd[s.current].state != DEAD && (r.MbSend? || r.MbRecv?)
    ensures Shape(Handle(s, r, anchor))
  {
    assert ObjectShape(s);
    hide Shape, ObjectShape, Stays, Send, Recv;
    if r.MbSend? { SendShape(s, r.id, r.body, r.size, r.blocking); } else { RecvShape(s, r.id, r.blocking); }
  }

  lemma HandleRestShape(s: KState, r: Request, anchor: nat)
    requires Shape(s) && s.current in s.pd && s.pd[s.current].state != DEAD
    requires r.MbCheck? || r.Invalid? || r.TaskYield? || r.NoRequest?
    ensures Shape(Handle(s, r, anchor))
  {
    OneChanged(s, Handle(s, r, anchor), s.current);
    TasksShape(s, Handle(s, r, anchor));
  }

  lemma HandleShape(s: KState, r: Request, anchor: nat)
    requires Shape(s) && s.current in s.pd && s.pd[s.current].state != DEAD
    ensures Shape(Handle(s, r, anchor))
  {
    hide Shape, Handle;
    if r.MutLock? || r.MutUnlock? {
      HandleMutexShape(s, r, anchor);
    } else if r.SemGive? || r.SemGet? {
      HandleSemaphoreShape(s, r, anchor);
    } else if r.MbSend? || r.MbRecv? {
      HandleMailShape(s, r, anchor);
    } else if r.EgCreate? || r.EgSetBits? || r.EgClearBits? || r.EgWaitBits? {
      HandleEventShape(s, r, anchor);
    } else if r.MutCreate? || r.SemCreate? || r.MbCreate? {
      HandleCreateShape(s, r, anchor);
    } else if r.MbCheck? || r.Invalid? || r.TaskYield? || r.NoRequest? {
      HandleRestShape(s, r, anchor);
    } else {
      HandleTaskShape(s, r, anchor);
    }
  }
}
