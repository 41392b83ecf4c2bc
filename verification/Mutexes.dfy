/** Lock and unlock keep the global invariants. */
module Mutexes {
  import opened KernelTypes
  import opened KernelState
  import opened Requests
  import opened ShapeProofs
  import opened Invariants
  import opened CalmHandlers

  /** Mutex `id` is replaced, and tasks outside `touched` are left alone. */
  ghost predicate OnlyMutex(s: KState, s': KState, id: nat, touched: set<Pid>) {
    && 1 <= id <= |s.muts| && |s'.muts| == |s.muts| && s'.muts == s.muts[id - 1 := s'.muts[id - 1]]
    && s'.sems == s.sems && s'.mbs == s.mbs && s'.pd.Keys == s.pd.Keys
    && GentleBut(s, s', touched)
    && (forall p :: p in touched ==> p in s.pd && (PlaceOf(s.pd[p]) == Nowhere || PlaceOf(s.pd[p]) == OnMutex(id)))
  }

  /** What remains to be shown for a mutex handler. */
  lemma OnlyMutexSound(s: KState, s': KState, id: nat, touched: set<Pid>)
    requires Shape(s) && Sound(s) && OnlyMutex(s, s', id, touched)
    requires Agree(s')
    requires forall p :: p in touched ==> TimersAt(s'.pd[p])
    requires MutFair(s'.muts[id - 1], s'.pd) && OrigsAligned(s'.muts[id - 1], s'.pd)
    requires forall p :: p in s'.pd ==> BaseKept(s', p)
    ensures Sound(s')
  {
    TimersFrame(s, s', touched);
    SemsFrame(s, s', touched);
    forall i | 0 <= i < |s'.muts| ensures MutFair(s'.muts[i], s'.pd) && OrigsAligned(s'.muts[i], s'.pd) {
      if i != id - 1 {
        MutWaiters(s, i);
        MutFrame(s, s', touched, i);
        AlignedFrame(s, s', touched, i);
      }
    }
  }

  /** A task whose descriptor and ownership do not change keeps its base priority. */
  lemma OthersBaseKept(s: KState, s': KState, id: nat, touched: set<Pid>, p: Pid)
    requires Shape(s) && OnlyMutex(s, s', id, touched) && p in s.pd && p !in touched && BaseKept(s, p)
    requires s.muts[id - 1].owner != p && s'.muts[id - 1].owner != p
    ensures p in s'.pd && BaseKept(s', p)
  {
    assert p in s'.pd.Keys;
    forall i: nat ensures Owns(s', p, i) <==> Owns(s, p, i) {}
    WaitsOnMutex(s.pd[p]);
    WaitsOnMutex(s'.pd[p]);
  }

  lemma OneTaskMutex(s: KState, s': KState, id: nat, c: Pid)
    requires c in s.pd && c in s'.pd && s'.pd == s.pd[c := s'.pd[c]]
    requires PlaceOf(s.pd[c]) == Nowhere || PlaceOf(s.pd[c]) == OnMutex(id)
    requires 1 <= id <= |s.muts| && |s'.muts| == |s.muts| && s'.muts == s.muts[id - 1 := s'.muts[id - 1]]
    requires s'.sems == s.sems && s'.mbs == s.mbs
    ensures OnlyMutex(s, s', id, {c})
  {
  }

  lemma MutexQueues(s: KState, s': KState, id: nat)
    requires 1 <= id <= |s.muts| && |s'.muts| == |s.muts| && s'.muts == s.muts[id - 1 := s'.muts[id - 1]]
    requires s'.sems == s.sems && s'.mbs == s.mbs
    ensures forall pl :: pl != OnMutex(id) ==> QueueAt(s', pl) == QueueAt(s, pl)
    ensures QueueAt(s, OnMutex(id)) == s.muts[id - 1].waiters && QueueAt(s', OnMutex(id)) == s'.muts[id - 1].waiters
  {
  }

  lemma LockFreeSound(s: KState, id: nat)
    requires Entered(s) && 1 <= id <= |s.muts| && s.muts[id - 1].owner == 0
    ensures Sound(Lock(s, id))
  {
    var s', c, m := Lock(s, id), s.current, s.muts[id - 1];
    assert MutShape(m, s.pd) && m.waiters == [] && m.origs == [];
    OneTaskMutex(s, s', id, c);
    MutexQueues(s, s', id);
    PlacesFrame(s, s', {c});
    AgreeFrame(s, s');
    assert TimersAt(s.pd[c]);
    forall p | p in s'.pd ensures BaseKept(s', p) {
      assert BaseKept(s, p);
      if p == c {
        LockFreeBase(s, id);
      } else {
        OthersBaseKept(s, s', id, {c}, p);
      }
    }
    OnlyMutexSound(s, s', id, {c});
  }

  lemma LockFreeBase(s: KState, id: nat)
    requires s.current in s.pd && Awake(s.pd[s.current]) && s.current != 0
    requires 1 <= id <= |s.muts| && s.muts[id - 1].owner == 0 && BaseKept(s, s.current)
    ensures BaseKept(Lock(s, id), s.current)
  {
    var s', c := Lock(s, id), s.current;
    var held, held' := s.pd[c].held, s'.pd[c].held;
    assert held' == held + [id];
    forall i: nat ensures i in held' <==> Owns(s', c, i) {
      assert i in held <==> Owns(s, c, i);
    }
    assert id !in held;
    if held != [] { assert held[0] in held && held'[0] == held[0] && held[0] != id; }
  }

  /** The same task owns every mutex, and it is known by the same descriptor. */
  lemma SameOwnershipBase(s: KState, s': KState, p: Pid)
    requires p in s.pd && p in s'.pd && BaseKept(s, p)
    requires |s'.muts| == |s.muts|
    requires forall i :: 0 <= i < |s.muts| ==>
               s'.muts[i].owner == s.muts[i].owner && s'.muts[i].ownerOrig == s.muts[i].ownerOrig
    requires s'.pd[p].held == s.pd[p].held && s'.pd[p].base == s.pd[p].base && s'.pd[p].orderly == s.pd[p].orderly
    requires s'.pd[p].state == WAIT_MUTEX || (s'.pd[p].pri == s.pd[p].pri && s.pd[p].state != WAIT_MUTEX)
    ensures BaseKept(s', p)
  {
    forall i: nat ensures Owns(s', p, i) <==> Owns(s, p, i) {}
    forall i: nat ensures i in s'.pd[p].held <==> Owns(s', p, i) {
      assert i in s.pd[p].held <==> Owns(s, p, i);
    }
  }

  /** Only the lock count of a mutex changes. */
  lemma CountSound(s: KState, id: nat, count: nat)
    requires Shape(s) && Sound(s) && 1 <= id <= |s.muts|
    ensures Sound(WithMut(s, id, s.muts[id - 1].(lockCount := count)))
  {
    var s' := WithMut(s, id, s.muts[id - 1].(lockCount := count));
    MutexQueues(s, s', id);
    AgreeFrame(s, s');
    forall p | p in s'.pd ensures BaseKept(s', p) {
      assert BaseKept(s, p);
      CountBase(s, id, count, p);
    }
    assert MutFair(s.muts[id - 1], s.pd) && OrigsAligned(s.muts[id - 1], s.pd);
    assert GentleBut(s, s', {});
    OnlyMutexSound(s, s', id, {});
  }

  lemma CountBase(s: KState, id: nat, count: nat, p: Pid)
    requires 1 <= id <= |s.muts| && p in s.pd && BaseKept(s, p)
    ensures BaseKept(WithMut(s, id, s.muts[id - 1].(lockCount := count)), p)
  {
    var s' := WithMut(s, id, s.muts[id - 1].(lockCount := count));
    forall i: nat ensures Owns(s', p, i) <==> Owns(s, p, i) {}
  }

  lemma LockBusyMutex(s: KState, id: nat)
    requires s.current in s.pd && 1 <= id <= |s.muts|
    requires var m := s.muts[id - 1];
      m.owner != 0 && m.owner != s.current && MutFair(m, s.pd) && OrigsAligned(m, s.pd) && MutShape(m, s.pd)
    requires s.current !in s.muts[id - 1].waiters && BaseKept(s, s.current) && Awake(s.pd[s.current])
    ensures MutFair(Lock(s, id).muts[id - 1], Lock(s, id).pd) && OrigsAligned(Lock(s, id).muts[id - 1], Lock(s, id).pd)
  {
    var s', c, m := Lock(s, id), s.current, s.muts[id - 1];
    var m' := s'.muts[id - 1];
    assert m'.waiters == m.waiters + [c];
    forall i | 0 <= i < |m'.waiters| && s'.pd[m'.waiters[i]].held == [] && s'.pd[m'.waiters[i]].orderly
      ensures m'.origs[i] == s'.pd[m'.waiters[i]].base
    {
      if i < |m.waiters| { assert m.waiters[i] in m.waiters && m.waiters[i] != c; }
    }
  }

  lemma LockBusyAgree(s: KState, id: nat)
    requires Agree(s) && s.current in s.pd && Awake(s.pd[s.current]) && s.pd[s.current].args == MutLock(id)
    requires 1 <= id <= |s.muts| && s.muts[id - 1].owner != 0 && s.muts[id - 1].owner != s.current
    ensures Agree(Lock(s, id)) && OnlyMutex(s, Lock(s, id), id, {s.current})
    ensures s.current !in s.muts[id - 1].waiters
  {
    var s', c := Lock(s, id), s.current;
    OneTaskMutex(s, s', id, c);
    MutexQueues(s, s', id);
    PlacesFrame(s, s', {c});
    AgreePush(s, s', c, OnMutex(id));
    MutWaiters(s, id - 1);
  }

  lemma LockBusyBase(s: KState, id: nat, p: Pid)
    requires s.current in s.pd && Awake(s.pd[s.current]) && p in s.pd && BaseKept(s, p)
    requires 1 <= id <= |s.muts| && s.muts[id - 1].owner != 0 && s.muts[id - 1].owner != s.current
    ensures p in Lock(s, id).pd && BaseKept(Lock(s, id), p)
  {
    SameOwnershipBase(s, Lock(s, id), p);
  }

  lemma LockBusySound(s: KState, id: nat)
    requires Entered(s) && s.pd[s.current].args == MutLock(id)
    requires 1 <= id <= |s.muts| && s.muts[id - 1].owner != 0 && s.muts[id - 1].owner != s.current
    ensures Sound(Lock(s, id))
  {
    var s', c, m := Lock(s, id), s.current, s.muts[id - 1];
    assert MutShape(m, s.pd) && MutFair(m, s.pd) && OrigsAligned(m, s.pd) && BaseKept(s, c) && TimersAt(s.pd[c]);
    LockBusyAgree(s, id);
    LockBusyMutex(s, id);
    forall p | p in s'.pd ensures BaseKept(s', p) {
      assert BaseKept(s, p);
      LockBusyBase(s, id, p);
    }
    OnlyMutexSound(s, s', id, {c});
  }

  lemma LockSound(s: KState, id: nat)
    requires Entered(s) && s.pd[s.current].args == MutLock(id)
    ensures Sound(Lock(s, id))
  {
    if !(1 <= id <= |s.muts|) {
      CalmSound(s, Lock(s, id));
    } else if s.muts[id - 1].owner == 0 {
      LockFreeSound(s, id);
    } else if s.muts[id - 1].owner == s.current {
      CountSound(s, id, s.muts[id - 1].lockCount + 1);
    } else {
      LockBusySound(s, id);
    }
  }

  predicate Releases(s: KState, id: nat)
  {
    Owns(s, s.current, id) && s.muts[id - 1].lockCount <= 1
  }

  lemma HeldWithout(held: seq<nat>, id: nat)
    requires NoDup(held) && id in held
    ensures NoDup(Without(held, id)) && forall x :: x in Without(held, id) <==> x in held && x != id
    ensures held[0] != id ==> Without(held, id) != [] && Without(held, id)[0] == held[0]
    ensures held[0] == id ==> Without(held, id) == held[1..]
  {
    RemoveOne(held, IndexOf(held, id));
  }

  lemma ReleasedOwns(s: KState, s': KState, id: nat, c: Pid)
    requires c in s.pd && c in s'.pd && BaseKept(s, c) && Owns(s, c, id)
    requires |s'.muts| == |s.muts| && s'.muts == s.muts[id - 1 := s'.muts[id - 1]] && s'.muts[id - 1].owner != c
    requires s'.pd[c].held == Without(s.pd[c].held, id)
    ensures NoDup(s'.pd[c].held) && forall i: nat :: i in s'.pd[c].held <==> Owns(s', c, i)
  {
    HeldWithout(s.pd[c].held, id);
    forall i: nat ensures i in s'.pd[c].held <==> Owns(s', c, i) {
      assert i in s.pd[c].held <==> Owns(s, c, i);
    }
  }

  /** The releasing task keeps its base priority exactly when the release is safe. */
  lemma ReleasedBase(s: KState, s': KState, id: nat, c: Pid)
    requires c in s.pd && c in s'.pd && c == s.current && BaseKept(s, c) && Owns(s, c, id)
    requires |s'.muts| == |s.muts| && s'.muts == s.muts[id - 1 := s'.muts[id - 1]] && s'.muts[id - 1].owner != c
    requires s'.pd[c].held == Without(s.pd[c].held, id) && s'.pd[c].base == s.pd[c].base
    requires s'.pd[c].pri == s.muts[id - 1].ownerOrig && s'.pd[c].state != WAIT_MUTEX
    requires s'.pd[c].orderly == (s.pd[c].orderly && SafeRelease(s, id))
    ensures BaseKept(s', c) && (s.pd[c].orderly ==> (Recoverable(s', c) <==> SafeRelease(s, id)))
  {
    var held, held' := s.pd[c].held, s'.pd[c].held;
    HeldWithout(held, id);
    ReleasedOwns(s, s', id, c);
    if held' != [] {
      assert held'[0] in held' && Owns(s', c, held'[0]);
      assert held'[0] in held && held'[0] != id && s'.muts[held'[0] - 1] == s.muts[held'[0] - 1];
      assert Owns(s, c, held'[0]);
      if held[0] == id { assert held'[0] == held[1]; }
    }
  }

  lemma GrantedBase(s: KState, s': KState, id: nat, p: Pid)
    requires p in s.pd && p in s'.pd && BaseKept(s, p) && 1 <= id <= |s.muts| && !Owns(s, p, id)
    requires |s'.muts| == |s.muts| && s'.muts == s.muts[id - 1 := s'.muts[id - 1]] && s'.muts[id - 1].owner == p
    requires s'.pd[p].held == s.pd[p].held + [id] && s'.pd[p].base == s.pd[p].base
    requires s'.pd[p].orderly == s.pd[p].orderly
    requires s.pd[p].held == [] && s.pd[p].orderly ==> s'.muts[id - 1].ownerOrig == s.pd[p].base
    ensures BaseKept(s', p)
  {
    var held, held' := s.pd[p].held, s'.pd[p].held;
    assert id !in held;
    forall i: nat ensures i in held' <==> Owns(s', p, i) {
      assert i in held <==> Owns(s, p, i);
    }
    if held != [] { assert held[0] in held && held'[0] == held[0]; }
  }

  /** Full release with nobody waiting. */
  lemma FreeSound(s: KState, id: nat)
    requires Entered(s) && Releases(s, id) && s.muts[id - 1].waiters == []
    ensures Sound(Unlock(s, id))
  {
    var s', c, m := Unlock(s, id), s.current, s.muts[id - 1];
    assert s'.muts == s.muts[id - 1 := m.(lockCount := 0, owner := 0)];
    OneTaskMutex(s, s', id, c);
    MutexQueues(s, s', id);
    PlacesFrame(s, s', {c});
    AgreeFrame(s, s');
    assert TimersAt(s.pd[c]);
    assert MutFair(m, s.pd) && OrigsAligned(m, s.pd);
    forall p | p in s'.pd ensures BaseKept(s', p) {
      assert BaseKept(s, p);
      if p == c { ReleasedBase(s, s', id, c); }
      else { OthersBaseKept(s, s', id, {c}, p); }
    }
    OnlyMutexSound(s, s', id, {c});
  }

  /** The state after handing the mutex to the head of its queue, which was waiting for it. */
  lemma HandOffState(s: KState, id: nat)
    requires Releases(s, id) && s.current in s.pd && ObjectShape(s) && Awake(s.pd[s.current])
    requires var m := s.muts[id - 1];
      m.waiters != [] && m.waiters[0] in s.pd && s.pd[m.waiters[0]].state == WAIT_MUTEX && |m.origs| == |m.waiters|
    ensures var s', c, m := Unlock(s, id), s.current, s.muts[id - 1];
      var p := m.waiters[0];
      && p != c && p in s'.pd && c in s'.pd
      && s'.pd == s.pd[c := s'.pd[c]][p := s'.pd[p]]
      && s'.pd[c] == s.pd[c].(pri := m.ownerOrig, held := Without(s.pd[c].held, id), state := READY,
                               orderly := s.pd[c].orderly && SafeRelease(s, id))
      && s'.pd[p] == s.pd[p].(pri := m.highest, held := s.pd[p].held + [id], state := READY)
      && s'.muts == s.muts[id - 1 := m.(owner := p, ownerOrig := m.origs[0], lockCount := 1,
                                         waiters := m.waiters[1..], origs := m.origs[1..])]
      && s'.sems == s.sems && s'.mbs == s.mbs && s'.cswitch
  {
    var s', c, p := Unlock(s, id), s.current, s.muts[id - 1].waiters[0];
    assert s'.pd == s.pd[c := s'.pd[c]][p := s'.pd[p]];
  }

  lemma TwoTaskMutex(s: KState, s': KState, id: nat, c: Pid, p: Pid)
    requires c in s.pd && c in s'.pd && p in s.pd && p in s'.pd && s'.pd == s.pd[c := s'.pd[c]][p := s'.pd[p]]
    requires PlaceOf(s.pd[c]) == Nowhere && PlaceOf(s.pd[p]) == OnMutex(id)
    requires 1 <= id <= |s.muts| && |s'.muts| == |s.muts| && s'.muts == s.muts[id - 1 := s'.muts[id - 1]]
    requires s'.sems == s.sems && s'.mbs == s.mbs
    ensures OnlyMutex(s, s', id, {c, p})
  {
  }

  lemma HandOffAgree(s: KState, s': KState, id: nat, c: Pid, p: Pid)
    requires Agree(s) && OnlyMutex(s, s', id, {c, p}) && c in s.pd && c in s'.pd && p in s'.pd
    requires s.muts[id - 1].waiters != [] && p == s.muts[id - 1].waiters[0]
    requires s'.muts[id - 1].waiters == s.muts[id - 1].waiters[1..]
    requires PlaceOf(s.pd[c]) == Nowhere && PlaceOf(s'.pd[c]) == Nowhere && PlaceOf(s'.pd[p]) == Nowhere
    ensures Agree(s')
  {
    MutexQueues(s, s', id);
    PlacesFrame(s, s', {c, p});
    assert s.muts[id - 1].waiters[..1] == [p];
    AgreePop(s, s', OnMutex(id), 1);
  }

  lemma HandOffFrame(s: KState, id: nat)
    requires Entered(s) && Releases(s, id) && s.muts[id - 1].waiters != []
    ensures var m := s.muts[id - 1]; var p := m.waiters[0];
      && p in s.pd && s.pd[p].state == WAIT_MUTEX && |m.origs| == |m.waiters|
      && OnlyMutex(s, Unlock(s, id), id, {s.current, p}) && Agree(Unlock(s, id))
      && TimersAt(Unlock(s, id).pd[s.current]) && TimersAt(Unlock(s, id).pd[p])
  {
    var s', c, m := Unlock(s, id), s.current, s.muts[id - 1];
    var p := m.waiters[0];
    MutWaiters(s, id - 1);
    assert p in m.waiters && MutShape(m, s.pd) && TimersAt(s.pd[c]) && TimersAt(s.pd[p]);
    HandOffState(s, id);
    TwoTaskMutex(s, s', id, c, p);
    HandOffAgree(s, s', id, c, p);
  }

  lemma HandOffMutex(m: Mut, m': Mut, pd: map<Pid, PD>, pd': map<Pid, PD>, c: Pid)
    requires MutFair(m, pd) && OrigsAligned(m, pd) && NoDup(m.waiters) && m.waiters != [] && c !in m.waiters
    requires m'.waiters == m.waiters[1..] && m'.origs == m.origs[1..]
    requires m'.owner == m.waiters[0] && m'.highest == m.highest
    requires pd'.Keys == pd.Keys && forall p :: p in pd && p != c && p != m'.owner ==> pd'[p] == pd[p]
    ensures MutFair(m', pd') && OrigsAligned(m', pd')
  {
    forall i | 0 <= i < |m'.waiters|
      ensures m'.waiters[i] == m.waiters[i + 1] && m'.origs[i] == m.origs[i + 1]
      ensures m'.waiters[i] != m'.owner && m'.waiters[i] != c
    {
      assert m.waiters[i + 1] in m.waiters;
    }
    forall p | p in m'.waiters && p in pd' ensures m'.highest <= pd'[p].pri {
      var i :| 0 <= i < |m'.waiters| && m'.waiters[i] == p;
      assert m.waiters[i + 1] in m.waiters && p in pd.Keys;
    }
    forall i | 0 <= i < |m'.waiters| && m'.waiters[i] in pd' && pd'[m'.waiters[i]].held == []
      && pd'[m'.waiters[i]].orderly
      ensures m'.origs[i] == pd'[m'.waiters[i]].base
    {
      assert m'.waiters[i] in pd.Keys;
      assert m.waiters[i + 1] in pd;
    }
  }

  lemma HandOffBase(s: KState, id: nat, q: Pid)
    requires Shape(s) && s.current in s.pd && Awake(s.pd[s.current]) && Releases(s, id)
    requires var m := s.muts[id - 1];
      m.waiters != [] && m.waiters[0] in s.pd && s.pd[m.waiters[0]].state == WAIT_MUTEX && OrigsAligned(m, s.pd)
    requires OnlyMutex(s, Unlock(s, id), id, {s.current, s.muts[id - 1].waiters[0]})
    requires q in s.pd && BaseKept(s, q)
    ensures q in Unlock(s, id).pd && BaseKept(Unlock(s, id), q)
  {
    var s', c, p := Unlock(s, id), s.current, s.muts[id - 1].waiters[0];
    HandOffState(s, id);
    if q == c { ReleasedBase(s, s', id, c); }
    else if q == p { GrantedBase(s, s', id, p); }
    else { OthersBaseKept(s, s', id, {c, p}, q); }
  }

  lemma HandOffSound(s: KState, id: nat)
    requires Entered(s) && Releases(s, id) && s.muts[id - 1].waiters != []
    ensures Sound(Unlock(s, id))
  {
    var s', c, m := Unlock(s, id), s.current, s.muts[id - 1];
    var p := m.waiters[0];
    HandOffFrame(s, id);
    HandOffState(s, id);
    MutWaiters(s, id - 1);
    assert MutFair(m, s.pd) && OrigsAligned(m, s.pd) && MutShape(m, s.pd);
    HandOffMutex(m, s'.muts[id - 1], s.pd, s'.pd, c);
    forall q | q in s'.pd ensures BaseKept(s', q) {
      assert q in s.pd.Keys && BaseKept(s, q);
      HandOffBase(s, id, q);
    }
    OnlyMutexSound(s, s', id, {c, p});
  }

  lemma UnlockSound(s: KState, id: nat)
    requires Entered(s)
    ensures Sound(Unlock(s, id))
  {
    if Releases(s, id) {
      if s.muts[id - 1].waiters == [] { FreeSound(s, id); } else { HandOffSound(s, id); }
    } else if Owns(s, s.current, id) {
      CountSound(s, id, s.muts[id - 1].lockCount - 1);
    } else {
      FailSound(s, OBJECT_NOT_FOUND_ERR);
      FailSound(s, INVALID_ARG_ERR);
    }
  }
}
