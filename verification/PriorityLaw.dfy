/** Exactly which priority a task has when it neither owns nor awaits a mutex: the one with which it had
    asked for the mutex that it fully released last. */
module PriorityLaw {
  import opened KernelTypes
  import opened KernelState
  import opened Requests
  import opened Scheduler
  import opened ShapeProofs
  import opened MainLoop
  import opened Invariants
  import opened Mutexes
  import opened MutexLaws
  import opened TameRuns
  import opened Records

  // ----- the log of a task's own calls

  /** The priority with which a task last asked for each mutex that it did not own, and the one with
      which it had asked for the mutex that it fully released last (None if it never released one). */
  datatype Log = Log(asked: map<nat, nat>, last: Option<nat>)

  const NOTHING := Log(map[], None)

  /** The log of task p after one more event; it looks at p's calls, and at its priority when it makes them. */
  function LogNow(s: KState, e: Event, p: Pid, t: Log): Log {
    if !(e.Call? && s.current == p && p in s.pd) then t
    else if e.request.MutLock? && 1 <= e.request.id <= |s.muts| && !Owns(s, p, e.request.id) then
      t.(asked := t.asked[e.request.id := s.pd[p].pri])
    else if e.request.MutUnlock? && Releases(s, e.request.id) && e.request.id in t.asked then
      t.(last := Some(t.asked[e.request.id]))
    else t
  }

  function Logged(s: KState, es: seq<Event>, p: Pid, t: Log): Log
    requires Alive(s)
    decreases |es|
  {
    if es == [] || Step(s, es[0]).None? then t
    else Logged(Step(s, es[0]).value, es[1..], p, LogNow(s, es[0], p, t))
  }

  function Expected(d: PD, t: Log): nat {
    if t.last.Some? then t.last.value else d.base
  }

  // ----- the invariant

  /** Mutex `id` has saved for p what p's log says, as its owner and in its queue. */
  ghost predicate SavedAs(m: Mut, id: nat, p: Pid, t: Log) {
    && (m.owner == p ==> id in t.asked && t.asked[id] == m.ownerOrig)
    && (forall j :: 0 <= j < |m.waiters| && j < |m.origs| && m.waiters[j] == p ==>
          id in t.asked && t.asked[id] == m.origs[j])
  }

  ghost predicate OwnsNone(s: KState, p: Pid) {
    forall id: nat :: !Owns(s, p, id)
  }

  /** Without a mutex, and waiting for none, a task has the priority that its log gives. */
  ghost predicate AsExpected(s: KState, p: Pid, t: Log) {
    p in s.pd && OwnsNone(s, p) && s.pd[p].state != WAIT_MUTEX ==> s.pd[p].pri == Expected(s.pd[p], t)
  }

  ghost predicate Agrees(s: KState, p: Pid, t: Log) {
    && (forall i :: 0 <= i < |s.muts| ==> SavedAs(s.muts[i], i + 1, p, t))
    && AsExpected(s, p, t)
    && (p !in s.pd ==> t == NOTHING)
  }

  // ----- one mutex

  lemma LockSaves(m: Mut, id: nat, c: Pid, pri: nat, p: Pid, t: Log)
    requires p != 0 && c != 0 && SavedAs(m, id, p, t) && |m.origs| == |m.waiters|
    requires c !in m.waiters && (m.owner == 0 ==> m.waiters == [])
    ensures SavedAs(LockMut(m, c, pri), id, p, if c == p && m.owner != c then t.(asked := t.asked[id := pri]) else t)
  {
    var m' := LockMut(m, c, pri);
    var t' := if c == p && m.owner != c then t.(asked := t.asked[id := pri]) else t;
    forall j | 0 <= j < |m'.waiters| && j < |m'.origs| && m'.waiters[j] == p
      ensures id in t'.asked && t'.asked[id] == m'.origs[j]
    {
      if j < |m.waiters| { assert m.waiters[j] in m.waiters; }
    }
  }

  lemma UnlockSaves(m: Mut, id: nat, c: Pid, p: Pid, t: Log)
    requires p != 0 && SavedAs(m, id, p, t) && |m.origs| == |m.waiters|
    ensures SavedAs(UnlockMut(m, c), id, p, t)
  {
    var m' := UnlockMut(m, c);
    forall j | 0 <= j < |m'.waiters| && j < |m'.origs| && m'.waiters[j] == p
      ensures id in t.asked && t.asked[id] == m'.origs[j]
    {
      if m' != m && |m'.waiters| < |m.waiters| { assert m.waiters[j + 1] == p && m.origs[j + 1] == m'.origs[j]; }
    }
  }

  lemma OtherKey(m: Mut, id: nat, p: Pid, t: Log, t': Log)
    requires SavedAs(m, id, p, t) && id in t.asked ==> id in t'.asked && t'.asked[id] == t.asked[id]
    requires SavedAs(m, id, p, t)
    ensures SavedAs(m, id, p, t')
  {
  }

  /** What holds of a mutex and the current task in a state that satisfies the invariants. */
  lemma Entering(s: KState, id: nat)
    requires Alive(s) && Inv(s)
    ensures s.current in s.pd && s.current != 0 && 0 !in s.pd
    ensures 1 <= id <= |s.muts| ==>
      var m := s.muts[id - 1];
      MutShape(m, s.pd) && s.current !in m.waiters && m.owner !in m.waiters
  {
    assert s.current in s.order;
    if 1 <= id <= |s.muts| {
      MutWaiters(s, id - 1);
      assert MutShape(s.muts[id - 1], s.pd) && MutFair(s.muts[id - 1], s.pd);
    }
  }

  lemma NextSaves(s: KState, e: Event, id: nat, p: Pid, t: Log)
    requires 1 <= id <= |s.muts| && s.current in s.pd && s.current != 0 && p != 0
    requires var m := s.muts[id - 1]; MutShape(m, s.pd) && s.current !in m.waiters && SavedAs(m, id, p, t)
    ensures SavedAs(NextMut(s, e, id), id, p, LogNow(s, e, p, t))
  {
    hide SavedAs, LockMut, UnlockMut;
    var m, c, t' := s.muts[id - 1], s.current, LogNow(s, e, p, t);
    if e.Call? && e.request == MutLock(id) {
      LockSaves(m, id, c, s.pd[c].pri, p, t);
    } else {
      OtherKey(m, id, p, t, t');
      if e.Call? && e.request == MutUnlock(id) { UnlockSaves(m, id, c, p, t'); }
    }
  }

  // ----- one step

  lemma AgreesAt(s: KState, p: Pid, t: Log, i: nat)
    requires Agrees(s, p, t) && i < |s.muts|
    ensures SavedAs(s.muts[i], i + 1, p, t)
  {
  }

  lemma NothingSaved(id: nat, p: Pid, t: Log)
    requires p != 0
    ensures SavedAs(NewMutex(), id, p, t)
  {
  }

  lemma SavedAfter(s: KState, e: Event, p: Pid, t: Log, i: nat)
    requires Alive(s) && Inv(s) && Step(s, e).Some? && p != 0 && Agrees(s, p, t) && i < |Step(s, e).value.muts|
    ensures SavedAs(Step(s, e).value.muts[i], i + 1, p, LogNow(s, e, p, t))
  {
    hide Alive, Inv, Step, Agrees, NextMut, LogNow, SavedAs;
    Entering(s, i + 1);
    if i < |s.muts| {
      AgreesAt(s, p, t, i);
      MutexStep(s, e, i + 1);
      NextSaves(s, e, i + 1, p, t);
    } else {
      CreatedStep(s, e, i + 1);
      NothingSaved(i + 1, p, LogNow(s, e, p, t));
    }
  }

  /** p stays in the queue of a mutex unless it becomes its owner, and stays the owner unless it releases it. */
  lemma Remains(s: KState, e: Event, p: Pid, id: nat)
    requires Alive(s) && Inv(s) && Step(s, e).Some? && 1 <= id <= |s.muts| && p in s.pd
    ensures id <= |Step(s, e).value.muts|
    ensures var m, m' := s.muts[id - 1], Step(s, e).value.muts[id - 1];
      && (m.owner == p ==>
            m'.owner == p || (s.current == p && e.Call? && e.request == MutUnlock(id) && Releases(s, id)))
      && (p in m.waiters ==> p in m'.waiters || m'.owner == p)
      && (s.current == p && e.Call? && e.request == MutLock(id) && m.owner !in {0, p} ==> p in m'.waiters)
      && (e.Call? && e.request == MutUnlock(id) && Releases(s, id) && m.waiters != [] ==> m'.owner == m.waiters[0])
  {
    hide Alive, Inv, Step;
    Entering(s, id);
    MutexStep(s, e, id);
    var m := s.muts[id - 1];
    if m.waiters != [] { assert m.waiters == [m.waiters[0]] + m.waiters[1..]; }
  }

  lemma WaitsInQueue(s: KState, p: Pid) returns (id: nat)
    requires Inv(s) && p in s.pd && s.pd[p].state == WAIT_MUTEX
    ensures 1 <= id <= |s.muts| && p in s.muts[id - 1].waiters
  {
    var pl := PlaceOf(s.pd[p]);
    assert AgreeAt(s, pl);
    assert p in QueueAt(s, pl);
    id := pl.id;
  }

  lemma QueuedWaits(s: KState, p: Pid, id: nat)
    requires Inv(s) && 1 <= id <= |s.muts| && p in s.muts[id - 1].waiters
    ensures p in s.pd && s.pd[p].state == WAIT_MUTEX
  {
    MutWaiters(s, id - 1);
  }

  /** Then it was not in the queue of any mutex, nor its owner, and did not just queue up. */
  lemma NotQueued(s: KState, e: Event, p: Pid, id: nat)
    requires Alive(s) && Inv(s) && Step(s, e).Some? && Inv(Step(s, e).value) && p in s.pd && p in Step(s, e).value.pd
    requires OwnsNone(Step(s, e).value, p) && Step(s, e).value.pd[p].state != WAIT_MUTEX && 1 <= id <= |s.muts|
    ensures p !in s.muts[id - 1].waiters
    ensures !(s.current == p && e.Call? && e.request == MutUnlock(id) && Releases(s, id)) ==> !Owns(s, p, id)
    ensures !(s.current == p && e.Call? && e.request == MutLock(id) && s.muts[id - 1].owner !in {0, p})
  {
    hide Alive, Inv, Step;
    var s' := Step(s, e).value;
    Remains(s, e, p, id);
    assert !Owns(s', p, id);
    if p in s'.muts[id - 1].waiters { QueuedWaits(s', p, id); }
  }

  /** Whoever has no mutex and waits for none after a step was so before it, or has just released one. */
  lemma WasFree(s: KState, e: Event, p: Pid)
    requires Alive(s) && Inv(s) && Step(s, e).Some? && Inv(Step(s, e).value) && p in s.pd && p in Step(s, e).value.pd
    requires OwnsNone(Step(s, e).value, p) && Step(s, e).value.pd[p].state != WAIT_MUTEX
    requires !(s.current == p && e.Call? && e.request.MutUnlock? && Releases(s, e.request.id))
    ensures OwnsNone(s, p) && s.pd[p].state != WAIT_MUTEX
    ensures e.Call? ==> PriAfter(s, e.request, p) == s.pd[p].pri
  {
    hide Alive, Inv, Step;
    var s' := Step(s, e).value;
    forall id: nat ensures !Owns(s, p, id) {
      if 1 <= id <= |s.muts| { NotQueued(s, e, p, id); }
    }
    if s.pd[p].state == WAIT_MUTEX {
      var id := WaitsInQueue(s, p);
      NotQueued(s, e, p, id);
    }
    if e.Call? && e.request.MutLock? && 1 <= e.request.id <= |s.muts| { NotQueued(s, e, p, e.request.id); }
    if e.Call? && e.request.MutUnlock? && Releases(s, e.request.id) { NotQueued(s, e, p, e.request.id); }
  }

  lemma ReleasedExpected(s: KState, id: nat, p: Pid, t: Log)
    requires p in s.pd && p == s.current && Releases(s, id) && Agrees(s, p, t) && p !in s.muts[id - 1].waiters
    ensures id in t.asked && PriAfter(s, MutUnlock(id), p) == t.asked[id]
  {
    hide AsExpected;
    AgreesAt(s, p, t, id - 1);
  }

  lemma StepExpected(s: KState, e: Event, p: Pid, t: Log)
    requires Alive(s) && Inv(s) && Tame(s, e) && Step(s, e).Some? && p != 0 && Agrees(s, p, t)
    ensures AsExpected(Step(s, e).value, p, LogNow(s, e, p, t))
  {
    hide Alive, Inv, Step, Tame, SavedAs, SafeRelease, PriAfter;
    var s' := Step(s, e).value;
    StepSound(s, e);
    StepRecord(s, e, p);
    if p in s.pd && p in s'.pd && OwnsNone(s', p) && s'.pd[p].state != WAIT_MUTEX {
      if s.current == p && e.Call? && e.request.MutUnlock? && Releases(s, e.request.id) {
        Entering(s, e.request.id);
        ReleasedExpected(s, e.request.id, p, t);
      } else {
        WasFree(s, e, p);
      }
    }
  }

  lemma StepAgrees(s: KState, e: Event, p: Pid, t: Log)
    requires Alive(s) && Inv(s) && Tame(s, e) && Step(s, e).Some? && p != 0 && Agrees(s, p, t)
    ensures Agrees(Step(s, e).value, p, LogNow(s, e, p, t))
  {
    hide Alive, Inv, Tame, Step, SavedAs, AsExpected;
    StepExpected(s, e, p, t);
    StepRecord(s, e, p);
    forall i | 0 <= i < |Step(s, e).value.muts|
      ensures SavedAs(Step(s, e).value.muts[i], i + 1, p, LogNow(s, e, p, t))
    {
      SavedAfter(s, e, p, t, i);
    }
  }

  // ----- runs

  lemma {:induction false} RunsAgree(s: KState, es: seq<Event>, p: Pid, t: Log)
    requires Alive(s) && Inv(s) && Along(s, es, Tame) && p != 0 && Agrees(s, p, t) && Exec(s, es).Some?
    ensures Agrees(Exec(s, es).value, p, Logged(s, es, p, t))
    decreases |es|
  {
    hide Inv, Shape, Tame, Agrees, LogNow;
    if es != [] {
      StepAgrees(s, es[0], p, t);
      StepSound(s, es[0]);
      RunsAgree(Step(s, es[0]).value, es[1..], p, LogNow(s, es[0], p, t));
    }
  }

  lemma {:induction false} ConfigurePri(cs: seq<Creation>, p: Pid)
    ensures p in Configure(cs).pd ==> Configure(cs).pd[p].pri == Configure(cs).pd[p].base
    decreases |cs|
  {
    if cs != [] { ConfigurePri(cs[..|cs| - 1], p); }
  }

  lemma StartAgrees(cs: seq<Creation>, batches: seq<nat>, p: Pid)
    requires Start(cs, batches).Some? && p != 0
    ensures Agrees(Start(cs, batches).value, p, NOTHING)
  {
    hide Dispatch, Configure, ObjectShape;
    var s := Configure(cs);
    var s1 := s.(last := |s.order| - 1);
    ConfigureShape(cs);
    ConfigurePri(cs, p);
    TasksShape(s, s1);
    DispatchRecord(s1, batches, p);
    forall i | 0 <= i < |Start(cs, batches).value.muts|
      ensures SavedAs(Start(cs, batches).value.muts[i], i + 1, p, NOTHING)
    {
      StartFree(cs, batches, i + 1);
    }
  }

  /** From boot, in every tame run, whatever the order of releases: a task that neither owns nor awaits a
      mutex has the priority with which it had asked for the mutex that it fully released last. So it has
      its priority at creation if and only if it had asked for that mutex with it, or never released one. */
  lemma PriorityIsLastAsked(cs: seq<Creation>, batches: seq<nat>, es: seq<Event>, p: Pid)
    requires forall c :: c in cs ==> LegalCreation(c)
    requires Start(cs, batches).Some? && Along(Start(cs, batches).value, es, Tame)
    requires Exec(Start(cs, batches).value, es).Some?
    ensures var s, t := Exec(Start(cs, batches).value, es).value, Logged(Start(cs, batches).value, es, p, NOTHING);
      p in s.pd && (forall id: nat :: !Owns(s, p, id)) && s.pd[p].state != WAIT_MUTEX ==>
        && s.pd[p].pri == (if t.last.Some? then t.last.value else s.pd[p].base)
        && (s.pd[p].pri == s.pd[p].base <==> t.last in {None, Some(s.pd[p].base)})
  {
    hide Start, Exec, Logged, Along, Inv, Tame, SavedAs;
    AlwaysSound(cs, batches, es);
    Entering(Exec(Start(cs, batches).value, es).value, 0);
    if p != 0 {
      StartSound(cs, batches);
      StartAgrees(cs, batches, p);
      RunsAgree(Start(cs, batches).value, es, p, NOTHING);
    }
  }
}
