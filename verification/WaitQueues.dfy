/** Wait queues and task states agree in every reachable state of a tame run. */
module WaitQueues {
  import opened KernelTypes
  import opened KernelState
  import opened Requests
  import opened MainLoop
  import opened Invariants
  import opened CalmHandlers
  import opened Mutexes
  import opened Semaphores
  import opened Mailboxes
  import opened TameRuns

  predicate Waiting(d: PD) {
    d.state == WAIT_MUTEX || d.state == WAIT_SEMAPHORE || d.state == WAIT_MAILBOX
  }

  /** The state and the arguments that a task waiting in the queue at `pl` has to have. */
  predicate WaitsAt(d: PD, pl: Place) {
    match pl
    case Nowhere => !Waiting(d)
    case OnMutex(id) => d.state == WAIT_MUTEX && d.args == MutLock(id)
    case OnSemaphore(id) => d.state == WAIT_SEMAPHORE && d.args.SemGet? && d.args.id == id
    case OnSend(id) => d.state == WAIT_MAILBOX && d.args.MbSend? && d.args.id == id
    case OnRecv(id) => d.state == WAIT_MAILBOX && d.args.MbRecv? && d.args.id == id
  }

  lemma PlaceMeaning(s: KState, p: Pid, pl: Place)
    requires Agree(s) && p in s.pd && PlaceOf(s.pd[p]) == pl
    ensures WaitsAt(s.pd[p], pl) && (Waiting(s.pd[p]) <==> pl != Nowhere)
  {
    if pl != Nowhere {
      assert AgreeAt(s, pl);
      assert p in QueueAt(s, pl);
    }
  }

  /** Every queue entry is a live task in the matching wait state for that very object, and it is
      not the current task. */
  lemma EntriesWait(s: KState, pl: Place, i: nat)
    requires Alive(s) && Inv(s) && i < |QueueAt(s, pl)|
    ensures var p := QueueAt(s, pl)[i];
      p in s.order && p in s.pd && WaitsAt(s.pd[p], pl) && Waiting(s.pd[p]) && p != s.current
  {
    var p := QueueAt(s, pl)[i];
    assert AgreeAt(s, pl);
    assert p in QueueAt(s, pl);
    PlaceMeaning(s, p, pl);
  }

  /** Every waiting task is in exactly one queue, the one that its arguments name, exactly once. */
  lemma WaitersQueued(s: KState, p: Pid)
    requires Inv(s) && p in s.pd && Waiting(s.pd[p])
    ensures var pl := PlaceOf(s.pd[p]); WaitsAt(s.pd[p], pl) && p in QueueAt(s, pl)
    ensures forall pl, i, pl', j :: 0 <= i < |QueueAt(s, pl)| && 0 <= j < |QueueAt(s, pl')| ==>
              QueueAt(s, pl)[i] == p && QueueAt(s, pl')[j] == p ==> pl == pl' && i == j
  {
    var pl := PlaceOf(s.pd[p]);
    PlaceMeaning(s, p, pl);
    assert AgreeAt(s, pl);
    forall pl, i, pl', j | 0 <= i < |QueueAt(s, pl)| && 0 <= j < |QueueAt(s, pl')|
        && QueueAt(s, pl)[i] == p && QueueAt(s, pl')[j] == p
      ensures pl == pl' && i == j
    {
      OneQueueEach(s, pl, i, pl', j);
    }
  }

  ghost predicate QueuesAgree(s: KState) {
    && (forall pl, i :: 0 <= i < |QueueAt(s, pl)| ==>
          var p := QueueAt(s, pl)[i];
          p in s.order && p in s.pd && WaitsAt(s.pd[p], pl) && Waiting(s.pd[p]) && p != s.current)
    && (forall p :: p in s.pd && Waiting(s.pd[p]) ==> p in QueueAt(s, PlaceOf(s.pd[p])))
    && (forall pl, i, pl', j :: 0 <= i < |QueueAt(s, pl)| && 0 <= j < |QueueAt(s, pl')| ==>
          QueueAt(s, pl)[i] == QueueAt(s, pl')[j] ==> pl == pl' && i == j)
  }

  /** From boot on, in every tame run, whatever was created, locked, given, sent or suspended. */
  lemma QueuesAlwaysAgree(cs: seq<Creation>, batches: seq<nat>, es: seq<Event>)
    requires forall c :: c in cs ==> LegalCreation(c)
    requires Start(cs, batches).Some? && Along(Start(cs, batches).value, es, Tame)
    ensures Exec(Start(cs, batches).value, es).Some? ==> QueuesAgree(Exec(Start(cs, batches).value, es).value)
  {
    AlwaysSound(cs, batches, es);
    if Exec(Start(cs, batches).value, es).Some? {
      var s := Exec(Start(cs, batches).value, es).value;
      forall pl, i | 0 <= i < |QueueAt(s, pl)|
        ensures var p := QueueAt(s, pl)[i];
          p in s.order && p in s.pd && WaitsAt(s.pd[p], pl) && Waiting(s.pd[p]) && p != s.current
      {
        EntriesWait(s, pl, i);
      }
      forall p | p in s.pd && Waiting(s.pd[p]) ensures p in QueueAt(s, PlaceOf(s.pd[p])) { WaitersQueued(s, p); }
      forall pl, i, pl', j | 0 <= i < |QueueAt(s, pl)| && 0 <= j < |QueueAt(s, pl')|
          && QueueAt(s, pl)[i] == QueueAt(s, pl')[j]
        ensures pl == pl' && i == j
      {
        OneQueueEach(s, pl, i, pl', j);
      }
    }
  }

  // ----- the error branches for stale queue entries

  /** None of the branches that find a queue head in the wrong state is ever taken. */
  lemma NoStaleHead(s: KState, r: Request, anchor: nat)
    requires Entered(s) && TameRequest(s, r) && s.err == NO_ERR
    requires r.MutUnlock? || r.SemGive? || r.MbSend? || r.MbRecv?
    ensures Handle(s, r, anchor).err != UNPROCESSABLE_TASK_STATE_ERR
  {
    hide Sound, Drain, SendInternal, RecvInternal, AllReleased, AllHandled, Stays, SafeRelease, Without;
    match r
    case MutUnlock(id) =>
    case SemGive(id, amount) => if 1 <= id <= |s.sems| { GiveMeets(s, id, amount); }
    case MbSend(id, body, size, blocking, _) =>
      if 1 <= id <= |s.mbs| { SendMeets(s, id, Mail(body, size, s.current), blocking); }
    case MbRecv(id, blocking, _) => if 1 <= id <= |s.mbs| { RecvMeets(s, id, blocking); }
  }

  lemma GiveMeets(s: KState, id: nat, amount: int)
    requires Entered(s) && 1 <= id <= |s.sems| && amount >= 0
    ensures SemaphoreGive(s, id, amount).err == s.err
  {
    SemWaiters(s, id - 1);
    assert SemShape(s.sems[id - 1], s.pd) && SemServed(s.sems[id - 1], s.pd);
    var k := GiveMeaning(s, id, amount);
  }

  lemma SendMeets(s: KState, id: nat, m: Mail, blocking: bool)
    requires Entered(s) && 1 <= id <= |s.mbs|
    ensures SendInternal(BoxAt(s, id), s.current, m, blocking).0.err == s.err
  {
    BoxFacts(s, id);
    SendRefines(BoxAt(s, id), s.current, m, blocking);
  }

  lemma RecvMeets(s: KState, id: nat, blocking: bool)
    requires Entered(s) && 1 <= id <= |s.mbs|
    ensures RecvInternal(BoxAt(s, id), s.current, s.current, blocking).0.err == s.err
  {
    BoxFacts(s, id);
    assert s.current !in s.mbs[id - 1].send;
    RecvRefines(BoxAt(s, id), s.current, blocking);
  }

  /** The mutex branch: the head of the queue is waiting for the mutex, and does get it. */
  lemma HeadAwaitsMutex(s: KState, id: nat)
    requires Entered(s) && Releases(s, id) && s.muts[id - 1].waiters != []
    ensures var p := s.muts[id - 1].waiters[0];
      && p in s.pd && s.pd[p].state == WAIT_MUTEX
      && id <= |Unlock(s, id).muts| && Unlock(s, id).muts[id - 1].owner == p && p in Unlock(s, id).pd
         && Unlock(s, id).pd[p].state == READY
  {
    HandOffFrame(s, id);
    HandOffState(s, id);
  }

  lemma CalledNotStale(s: KState, r: Request, anchor: nat)
    requires Alive(s) && Inv(s) && s.current in s.pd && TameRequest(s, r)
    requires r.MutUnlock? || r.SemGive? || r.MbSend? || r.MbRecv?
    ensures Called(s, r, anchor).err != UNPROCESSABLE_TASK_STATE_ERR
  {
    IssueSound(s, r);
    hide Inv, Entered, Handle, Alive;
    NoStaleHead(Issue(s, r), r, anchor);
  }

  /** The head of a queue waits for that mutex, and a full unlock makes it the owner and READY. */
  ghost predicate HeadServed(s: KState, h: KState, id: nat) {
    Releases(s, id) && s.muts[id - 1].waiters != [] ==>
      var p := s.muts[id - 1].waiters[0];
      && p in s.pd && s.pd[p].state == WAIT_MUTEX && p in h.pd && h.pd[p].state == READY
      && id <= |h.muts| && h.muts[id - 1].owner == p
  }

  lemma CalledServesHead(s: KState, id: nat, anchor: nat)
    requires Alive(s) && Inv(s)
    ensures HeadServed(s, Called(s, MutUnlock(id), anchor), id)
  {
    assert s.current in s.order && s.current in s.pd;
    if Releases(s, id) && s.muts[id - 1].waiters != [] {
      var i := Issue(s, MutUnlock(id));
      IssueSound(s, MutUnlock(id));
      EntriesWait(s, OnMutex(id), 0);
      hide Inv, Entered, Alive, Unlock;
      HeadAwaitsMutex(i, id);
    }
  }

  /** From boot, in every tame run: no request gets the error of the three branches in which a
      semaphore or a mailbox finds the head of a queue in the wrong state. */
  lemma NeverStaleFromBoot(cs: seq<Creation>, batches: seq<nat>, es: seq<Event>, r: Request, anchor: nat)
    requires forall c :: c in cs ==> LegalCreation(c)
    requires Start(cs, batches).Some? && Along(Start(cs, batches).value, es, Tame)
    requires Exec(Start(cs, batches).value, es).Some?
    requires var s := Exec(Start(cs, batches).value, es).value; s.current in s.pd && TameRequest(s, r)
    requires r.MutUnlock? || r.SemGive? || r.MbSend? || r.MbRecv?
    ensures Called(Exec(Start(cs, batches).value, es).value, r, anchor).err != UNPROCESSABLE_TASK_STATE_ERR
  {
    hide Start, Exec, Along, Alive, Inv, Called;
    AlwaysSound(cs, batches, es);
    CalledNotStale(Exec(Start(cs, batches).value, es).value, r, anchor);
  }

  /** The same for a mutex, whose branch reports nothing: from boot, in every tame run, every full
      unlock finds the head of the queue waiting for that mutex, and serves it. */
  lemma HeadServedFromBoot(cs: seq<Creation>, batches: seq<nat>, es: seq<Event>, id: nat, anchor: nat)
    requires forall c :: c in cs ==> LegalCreation(c)
    requires Start(cs, batches).Some? && Along(Start(cs, batches).value, es, Tame)
    requires Exec(Start(cs, batches).value, es).Some?
    ensures var s := Exec(Start(cs, batches).value, es).value; HeadServed(s, Called(s, MutUnlock(id), anchor), id)
  {
    hide Start, Exec, Along, Alive, Inv, Called, HeadServed;
    AlwaysSound(cs, batches, es);
    CalledServesHead(Exec(Start(cs, batches).value, es).value, id, anchor);
  }
}
