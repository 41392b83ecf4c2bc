/** The global invariants of runs in which only Task_Sleep sets a timer: what queues, task states,
    timers, counts, ownership and saved priorities have to do with each other. */
module Invariants {
  import opened KernelTypes
  import opened KernelState
  import opened Requests

  // ----- timers

  /** Sleeping, or suspended while it slept. */
  predicate Asleep(d: PD) {
    d.state == SLEEPING || (d.state == SUSPENDED && d.lastState == SLEEPING)
  }

  /** A running timer belongs to a sleeper, and no task sleeps without one. */
  ghost predicate TimersAt(d: PD) {
    d.timeout > 0 <==> Asleep(d)
  }

  ghost predicate Timers(s: KState) {
    forall p :: p in s.pd ==> TimersAt(s.pd[p])
  }

  // ----- semaphores

  /** The head is waiting because the count does not suffice for it. */
  ghost predicate SemServed(m: Sem, pd: map<Pid, PD>) {
    && m.count >= 0
    && (m.binary ==> m.count <= 1)
    && (forall p :: p in m.waiters && p in pd ==> Amount(pd[p]) >= 0 && (m.binary ==> Amount(pd[p]) <= 1))
    && (m.waiters != [] && m.waiters[0] in pd ==> m.count < Amount(pd[m.waiters[0]]))
  }

  ghost predicate SemsServed(s: KState) {
    forall i :: 0 <= i < |s.sems| ==> SemServed(s.sems[i], s.pd)
  }

  // ----- mailboxes

  /** Nobody waits needlessly: receivers only on an empty mailbox, senders only on a full one. */
  ghost predicate Settled(b: Mb) {
    && |b.mails| <= b.capacity
    && (b.recv != [] ==> b.mails == [])
    && (b.send != [] ==> |b.mails| == b.capacity)
  }

  ghost predicate MbsSettled(s: KState) {
    forall i :: 0 <= i < |s.mbs| ==> Settled(s.mbs[i])
  }

  // ----- mutexes

  /** The owner is not its own waiter, and the ceiling is at most every waiter's priority. */
  ghost predicate MutFair(m: Mut, pd: map<Pid, PD>) {
    && m.owner !in m.waiters
    && (forall p :: p in m.waiters && p in pd ==> m.highest <= pd[p].pri)
  }

  ghost predicate MutsFair(s: KState) {
    forall i :: 0 <= i < |s.muts| ==> MutFair(s.muts[i], s.pd)
  }

  /** The first mutex that a task acquired has saved its priority at creation; when it owns none, it
      has that priority, or has it saved in the queue it waits in. */
  ghost predicate Recoverable(s: KState, p: Pid)
    requires p in s.pd
  {
    var d := s.pd[p];
    && (d.held != [] && Owns(s, p, d.held[0]) ==> s.muts[d.held[0] - 1].ownerOrig == d.base)
    && (d.held == [] && d.state != WAIT_MUTEX ==> d.pri == d.base)
  }

  /** `held` is exactly what a task owns, and its priority is recoverable as long as it was orderly. */
  ghost predicate BaseKept(s: KState, p: Pid)
    requires p in s.pd
  {
    var d := s.pd[p];
    && NoDup(d.held)
    && (forall id :: id in d.held <==> Owns(s, p, id))
    && (d.orderly ==> Recoverable(s, p))
  }

  /** Entry by entry, the two queues of a mutex belong together. */
  ghost predicate OrigsAligned(m: Mut, pd: map<Pid, PD>) {
    && |m.origs| == |m.waiters|
    && (forall i :: 0 <= i < |m.waiters| && m.waiters[i] in pd ==>
          pd[m.waiters[i]].held == [] && pd[m.waiters[i]].orderly ==> m.origs[i] == pd[m.waiters[i]].base)
  }

  ghost predicate PrioritiesKept(s: KState) {
    && (forall p :: p in s.pd ==> BaseKept(s, p))
    && (forall i :: 0 <= i < |s.muts| ==> OrigsAligned(s.muts[i], s.pd))
  }

  ghost predicate Sound(s: KState) {
    && Agree(s) && Timers(s) && SemsServed(s) && MbsSettled(s) && MutsFair(s) && PrioritiesKept(s)
  }

  // ----- frames: what a handler leaves alone

  /** Everything that the invariants say about a task is the same of d'. */
  ghost predicate Gentle(d: PD, d': PD) {
    && d'.pri == d.pri && d'.base == d.base && d'.held == d.held && d'.orderly == d.orderly
    && PlaceOf(d') == PlaceOf(d) && (PlaceOf(d) != Nowhere ==> d'.args == d.args)
    && d'.timeout == d.timeout && (Asleep(d') <==> Asleep(d))
  }

  ghost predicate Newborn(d: PD) {
    d.held == [] && d.pri == d.base && d.timeout == 0 && d.state == READY
  }

  /** All tasks are treated gently, except perhaps those in `touched`. */
  ghost predicate GentleBut(s: KState, s': KState, touched: set<Pid>) {
    && (forall p :: p in s.pd ==> p in s'.pd)
    && (forall p :: p in s'.pd && p !in s.pd ==> Newborn(s'.pd[p]) && p != 0)
    && (forall p :: p in s.pd && p !in touched ==> Gentle(s.pd[p], s'.pd[p]))
  }

  lemma TimersFrame(s: KState, s': KState, touched: set<Pid>)
    requires Timers(s) && GentleBut(s, s', touched)
    requires forall p :: p in touched && p in s'.pd ==> TimersAt(s'.pd[p])
    ensures Timers(s')
  {
    forall p | p in s'.pd ensures TimersAt(s'.pd[p]) {
      if p in s.pd && p !in touched {
        assert TimersAt(s.pd[p]) && Gentle(s.pd[p], s'.pd[p]);
      }
    }
  }

  lemma PlacesFrame(s: KState, s': KState, touched: set<Pid>)
    requires GentleBut(s, s', touched)
    ensures SamePlaces(s, s', touched)
  {
    forall p | p in s.pd && p !in touched ensures PlaceOf(s'.pd[p]) == PlaceOf(s.pd[p]) {
      assert Gentle(s.pd[p], s'.pd[p]);
    }
  }

  /** A semaphore that is not involved stays served. */
  lemma SemFrame(s: KState, s': KState, touched: set<Pid>, i: nat)
    requires i < |s.sems| && SemServed(s.sems[i], s.pd) && SemShape(s.sems[i], s.pd)
    requires GentleBut(s, s', touched)
    requires forall p :: p in s.sems[i].waiters ==> p in s.pd && PlaceOf(s.pd[p]) != Nowhere && p !in touched
    ensures SemServed(s.sems[i], s'.pd)
  {
    forall p | p in s.sems[i].waiters ensures p in s.pd && p in s'.pd && Amount(s'.pd[p]) == Amount(s.pd[p]) {
      assert Gentle(s.pd[p], s'.pd[p]);
    }
  }

  /** Who waits for semaphore i + 1 is in state WAIT_SEMAPHORE, so a task waiting elsewhere is not among them. */
  lemma SemWaiters(s: KState, i: nat)
    requires Agree(s) && i < |s.sems|
    ensures NoDup(s.sems[i].waiters)
    ensures forall p :: p in s.sems[i].waiters <==> p in s.pd && PlaceOf(s.pd[p]) == OnSemaphore(i + 1)
    ensures forall p :: p in s.sems[i].waiters ==> s.pd[p].state == WAIT_SEMAPHORE && s.pd[p].args.SemGet?
  {
    assert AgreeAt(s, OnSemaphore(i + 1));
    assert QueueAt(s, OnSemaphore(i + 1)) == s.sems[i].waiters;
    forall p | p in s.sems[i].waiters ensures s.pd[p].args.SemGet? {}
  }

  lemma MutWaiters(s: KState, i: nat)
    requires Agree(s) && i < |s.muts|
    ensures NoDup(s.muts[i].waiters)
    ensures forall p :: p in s.muts[i].waiters <==> p in s.pd && PlaceOf(s.pd[p]) == OnMutex(i + 1)
    ensures forall p :: p in s.muts[i].waiters ==> s.pd[p].state == WAIT_MUTEX
  {
    assert AgreeAt(s, OnMutex(i + 1));
    assert QueueAt(s, OnMutex(i + 1)) == s.muts[i].waiters;
  }

  lemma MbWaiters(s: KState, i: nat)
    requires Agree(s) && i < |s.mbs|
    ensures NoDup(s.mbs[i].send) && NoDup(s.mbs[i].recv)
    ensures forall p :: p in s.mbs[i].send <==> p in s.pd && PlaceOf(s.pd[p]) == OnSend(i + 1)
    ensures forall p :: p in s.mbs[i].recv <==> p in s.pd && PlaceOf(s.pd[p]) == OnRecv(i + 1)
    ensures forall p :: p in s.mbs[i].send ==> s.pd[p].state == WAIT_MAILBOX && s.pd[p].args.MbSend?
    ensures forall p :: p in s.mbs[i].recv ==> s.pd[p].state == WAIT_MAILBOX && s.pd[p].args.MbRecv?
  {
    assert AgreeAt(s, OnSend(i + 1)) && AgreeAt(s, OnRecv(i + 1));
    assert QueueAt(s, OnSend(i + 1)) == s.mbs[i].send;
    assert QueueAt(s, OnRecv(i + 1)) == s.mbs[i].recv;
  }

  /** Semaphores are the same, and no task that waits for one is touched. */
  lemma SemsFrame(s: KState, s': KState, touched: set<Pid>)
    requires Agree(s) && ObjectShape(s) && SemsServed(s) && GentleBut(s, s', touched)
    requires forall p :: p in touched && p in s.pd ==> !PlaceOf(s.pd[p]).OnSemaphore?
    requires s'.sems == s.sems
    ensures SemsServed(s')
  {
    forall i | 0 <= i < |s'.sems| ensures SemServed(s'.sems[i], s'.pd) {
      SemWaiters(s, i);
      SemFrame(s, s', touched, i);
    }
  }

  lemma MutFrame(s: KState, s': KState, touched: set<Pid>, i: nat)
    requires i < |s.muts| && MutFair(s.muts[i], s.pd) && MutShape(s.muts[i], s.pd)
    requires GentleBut(s, s', touched)
    requires forall p :: p in s.muts[i].waiters ==> p !in touched
    ensures MutFair(s.muts[i], s'.pd)
  {
    forall p | p in s.muts[i].waiters ensures p in s.pd && Gentle(s.pd[p], s'.pd[p]) {}
  }

  lemma AlignedFrame(s: KState, s': KState, touched: set<Pid>, i: nat)
    requires i < |s.muts| && OrigsAligned(s.muts[i], s.pd) && MutShape(s.muts[i], s.pd)
    requires GentleBut(s, s', touched)
    requires forall p :: p in s.muts[i].waiters ==> p !in touched
    ensures OrigsAligned(s.muts[i], s'.pd)
  {
    var m := s.muts[i];
    forall j | 0 <= j < |m.waiters| ensures m.waiters[j] in s.pd && Gentle(s.pd[m.waiters[j]], s'.pd[m.waiters[j]]) {
      assert m.waiters[j] in m.waiters;
    }
  }

  /** Mutexes are the same or newly created, and no task changed in what concerns them. */
  lemma MutexesFrame(s: KState, s': KState)
    requires Agree(s) && ObjectShape(s) && MutsFair(s) && PrioritiesKept(s) && GentleBut(s, s', {})
    requires s.muts <= s'.muts
    requires forall i :: |s.muts| <= i < |s'.muts| ==> s'.muts[i] == NewMutex()
    requires 0 !in s'.pd
    ensures MutsFair(s') && PrioritiesKept(s')
  {
    forall i | 0 <= i < |s'.muts| ensures MutFair(s'.muts[i], s'.pd) && OrigsAligned(s'.muts[i], s'.pd) {
      if i < |s.muts| {
        MutFrame(s, s', {}, i);
        AlignedFrame(s, s', {}, i);
      }
    }
    forall p | p in s'.pd ensures BaseKept(s', p) {
      BaseFrame(s, s', p);
    }
  }

  lemma BaseFrame(s: KState, s': KState, p: Pid)
    requires ObjectShape(s) && p in s'.pd && p != 0
    requires if p in s.pd then BaseKept(s, p) && Gentle(s.pd[p], s'.pd[p]) else Newborn(s'.pd[p])
    requires s.muts <= s'.muts
    requires forall i :: |s.muts| <= i < |s'.muts| ==> s'.muts[i] == NewMutex()
    ensures BaseKept(s', p)
  {
    forall id: nat ensures Owns(s', p, id) <==> Owns(s, p, id) {
      if 1 <= id <= |s.muts| { assert s'.muts[id - 1] == s.muts[id - 1]; }
    }
    if p !in s.pd {
      forall id: nat ensures !Owns(s, p, id) {
        if 1 <= id <= |s.muts| { assert MutShape(s.muts[id - 1], s.pd); }
      }
    } else {
      WaitsOnMutex(s.pd[p]);
      WaitsOnMutex(s'.pd[p]);
    }
  }

  lemma WaitsOnMutex(d: PD)
    ensures d.state == WAIT_MUTEX <==> PlaceOf(d).OnMutex?
  {
  }

  /** Mutexes do not change, and touched tasks keep everything that concerns them. */
  lemma MutexesUntouched(s: KState, s': KState, touched: set<Pid>)
    requires Agree(s) && ObjectShape(s) && MutsFair(s) && PrioritiesKept(s) && s'.muts == s.muts
    requires s'.pd.Keys == s.pd.Keys && GentleBut(s, s', touched)
    requires forall p :: p in touched && p in s.pd ==>
      && s'.pd[p].pri == s.pd[p].pri && s'.pd[p].base == s.pd[p].base && s'.pd[p].held == s.pd[p].held
      && s'.pd[p].orderly == s.pd[p].orderly
      && s.pd[p].state != WAIT_MUTEX && s'.pd[p].state != WAIT_MUTEX
    ensures MutsFair(s') && PrioritiesKept(s')
  {
    forall i | 0 <= i < |s'.muts| ensures MutFair(s'.muts[i], s'.pd) && OrigsAligned(s'.muts[i], s'.pd) {
      MutWaiters(s, i);
      MutFrame(s, s', touched, i);
      AlignedFrame(s, s', touched, i);
    }
    forall p | p in s'.pd ensures BaseKept(s', p) {
      assert p in s.pd.Keys && BaseKept(s, p);
      BaseUntouched(s, s', p);
    }
  }

  lemma BaseUntouched(s: KState, s': KState, p: Pid)
    requires p in s.pd && p in s'.pd && BaseKept(s, p) && s'.muts == s.muts
    requires s'.pd[p].pri == s.pd[p].pri && s'.pd[p].base == s.pd[p].base && s'.pd[p].held == s.pd[p].held
    requires s'.pd[p].orderly == s.pd[p].orderly
    requires PlaceOf(s'.pd[p]) == PlaceOf(s.pd[p]) || (s'.pd[p].state != WAIT_MUTEX && s.pd[p].state != WAIT_MUTEX)
    ensures BaseKept(s', p)
  {
    WaitsOnMutex(s.pd[p]);
    WaitsOnMutex(s'.pd[p]);
    forall id: nat ensures Owns(s', p, id) <==> Owns(s, p, id) {}
  }
}
