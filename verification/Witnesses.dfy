/** Runs from boot that show what goes wrong: a priority that is never restored, and a sleep that does
    not sleep. */
module Witnesses {
  import opened KernelTypes
  import opened KernelState
  import opened Requests
  import opened Scheduler
  import opened ShapeProofs
  import opened MainLoop
  import Clock
  import opened CalmHandlers
  import opened Mutexes
  import opened TameRuns

  // ----- dispatch with two tasks

  /** Two tasks while task c, with descriptor d, runs, and the other one has descriptor e. */
  function Two(d: PD, e: PD, c: Pid, clock: nat, ms: seq<Mut>): KState
    requires c == 1 || c == 2
  {
    KState([1, 2], map[c := d, 3 - c := e], c, c - 1, 0, clock, ms, [], [], [], 2, false, NO_ERR)
  }

  /** The task after Last_Dispatched is ready, and the other one is not more urgent. */
  ghost predicate NextIsBest(s: KState) {
    && ListShape(s) && s.order == [1, 2] && s.last < 2 && s.ticks == 0
    && (var d, d' := s.pd[2 - s.last], s.pd[1 + s.last];
        && d.state == READY && d.pri <= LOWEST_PRIORITY
        && (d'.state == READY ==> d.pri <= d'.pri && d'.starvation < STARVATION_MAX))
  }

  lemma SelectsNext(s: KState)
    requires s.order == [1, 2] && ListShape(s) && NextIsBest(s)
    ensures Select(s) == 0 && s.order[Visited(s, 0)] == 2 - s.last && Visited(s, 0) == 1 - s.last
  {
    assert Visited(s, 0) == 1 - s.last && Visited(s, 1) == s.last;
    assert ScanTo(s, 1) == Look(s, ScanTo(s, 0), 0);
  }

  /** What running the task after Last_Dispatched gives. */
  function Next(h: KState): KState
    requires h.last < 2 && 2 - h.last in h.pd
  {
    var p := 2 - h.last;
    h.(last := 1 - h.last, current := p, pd := h.pd[p := h.pd[p].(state := RUNNING, starvation := 0)])
  }

  lemma DispatchesNext(h: KState, batches: seq<nat>)
    requires NextIsBest(h) && (h.current in h.pd ==> h.pd[h.current].state != RUNNING)
    ensures 2 - h.last in h.pd && Dispatch(h, batches) == Some(Next(h))
  {
    assert h.order[1 - h.last] in h.order;
    SelectsNext(h);
  }

  // ----- single steps

  lemma Returns(s: KState, r: Request, h: KState)
    requires Alive(s) && Called(s, r, 0) == h && !Switches(h, r)
    ensures Step(s, Call(r, 0, [])) == Some(h)
  {
  }

  lemma Switched(s: KState, r: Request, h: KState)
    requires Alive(s) && Called(s, r, 0) == h && Switches(h, r) && NextIsBest(h)
    requires h.current in h.pd ==> h.pd[h.current].state != RUNNING
    ensures 2 - h.last in h.pd && Step(s, Call(r, 0, [])) == Some(Next(h).(cswitch := false))
  {
    hide NextIsBest, Dispatch, Called;
    DispatchesNext(h, []);
  }

  lemma IssueTwo(d: PD, e: PD, c: Pid, clock: nat, ms: seq<Mut>, r: Request)
    requires (c == 1 || c == 2) && (r.MutLock? || r.MutUnlock? || r.TaskSleep?)
    ensures Two(d, e, c, clock, ms).current in Two(d, e, c, clock, ms).pd
    ensures Issue(Two(d, e, c, clock, ms), r) ==
      Two(if r.TaskSleep? then d.(timeout := r.timeout) else d.(args := r), e, c, clock, ms)
  {
  }

  lemma TwoChanged(d: PD, e: PD, c: Pid, clock: nat, ms: seq<Mut>, d': PD, ms': seq<Mut>)
    requires c == 1 || c == 2
    ensures var s := Two(d, e, c, clock, ms); s.(pd := s.pd[c := d'], muts := ms') == Two(d', e, c, clock, ms')
  {
  }

  /** A request that changes only the caller and the mutexes. */
  lemma ChangesTwo(d: PD, e: PD, c: Pid, clock: nat, ms: seq<Mut>, r: Request, i: KState, d': PD, ms': seq<Mut>)
    requires (c == 1 || c == 2) && Alive(Two(d, e, c, clock, ms)) && (r.MutLock? || r.MutUnlock?)
    requires i == Two(d.(args := r), e, c, clock, ms) && i.current in i.pd && ObjectShape(i)
    requires Handle(i, r, 0) == i.(pd := i.pd[c := d'], muts := ms')
    ensures Step(Two(d, e, c, clock, ms), Call(r, 0, [])) == Some(Two(d', e, c, clock, ms'))
  {
    var s := Two(d, e, c, clock, ms);
    IssueTwo(d, e, c, clock, ms, r);
    TwoChanged(d.(args := r), e, c, clock, ms, d', ms');
    hide Alive, Handle, Issue, ObjectShape;
    Returns(s, r, Two(d', e, c, clock, ms'));
  }

  lemma Enters(d: PD, e: PD, c: Pid, clock: nat, ms: seq<Mut>, r: Request)
    requires (c == 1 || c == 2) && Alive(Two(d, e, c, clock, ms)) && (r.MutLock? || r.MutUnlock?)
    ensures var i := Two(d.(args := r), e, c, clock, ms);
      i.current in i.pd && i.pd[i.current] == d.(args := r) && ObjectShape(i)
  {
    IssueTwo(d, e, c, clock, ms, r);
    IssueShape(Two(d, e, c, clock, ms), r);
  }

  lemma LocksView(i: KState, id: nat)
    requires i.current in i.pd && 1 <= id <= |i.muts| && i.muts[id - 1].owner == 0
    ensures var m, d := i.muts[id - 1], i.pd[i.current];
      Lock(i, id) ==
      i.(pd := i.pd[i.current := d.(held := d.held + [id])],
         muts := i.muts[id - 1 := m.(owner := i.current, ownerOrig := d.pri, highest := d.pri,
                                     lockCount := m.lockCount + 1)])
  {
  }

  /** Locking a free mutex. */
  lemma LocksFree(d: PD, e: PD, c: Pid, clock: nat, ms: seq<Mut>, id: nat)
    requires (c == 1 || c == 2) && Alive(Two(d, e, c, clock, ms)) && 1 <= id <= |ms| && ms[id - 1].owner == 0
    ensures Step(Two(d, e, c, clock, ms), Call(MutLock(id), 0, [])) ==
      Some(Two(d.(args := MutLock(id), held := d.held + [id]), e, c, clock,
               ms[id - 1 := ms[id - 1].(owner := c, ownerOrig := d.pri, highest := d.pri,
                                        lockCount := ms[id - 1].lockCount + 1)]))
  {
    var s, d', m := Two(d, e, c, clock, ms), d.(args := MutLock(id)), ms[id - 1];
    var i := Two(d', e, c, clock, ms);
    hide Alive, Lock, Step, ObjectShape;
    Enters(d, e, c, clock, ms, MutLock(id));
    LocksView(i, id);
    ChangesTwo(d, e, c, clock, ms, MutLock(id), i, d'.(held := d.held + [id]),
      ms[id - 1 := m.(owner := c, ownerOrig := d.pri, highest := d.pri, lockCount := m.lockCount + 1)]);
  }

  lemma FreesView(i: KState, id: nat)
    requires i.current in i.pd && ObjectShape(i) && Owns(i, i.current, id)
    requires i.muts[id - 1].lockCount == 1 && i.muts[id - 1].waiters == []
    ensures Unlock(i, id) ==
      i.(pd := i.pd[i.current := i.pd[i.current].(pri := i.muts[id - 1].ownerOrig,
                                                  held := Without(i.pd[i.current].held, id),
                                                  orderly := i.pd[i.current].orderly && SafeRelease(i, id))],
         muts := i.muts[id - 1 := i.muts[id - 1].(owner := 0, lockCount := 0)])
  {
    hide ObjectShape, AllReleased, Stays, Without, SafeRelease;
  }

  /** Releasing a mutex for which nobody waits. */
  lemma Frees(d: PD, e: PD, c: Pid, clock: nat, ms: seq<Mut>, id: nat)
    requires (c == 1 || c == 2) && Alive(Two(d, e, c, clock, ms)) && 1 <= id <= |ms|
    requires ms[id - 1].owner == c && ms[id - 1].lockCount == 1 && ms[id - 1].waiters == []
    ensures var i := Two(d.(args := MutUnlock(id)), e, c, clock, ms);
      && i.current in i.pd
      && Step(Two(d, e, c, clock, ms), Call(MutUnlock(id), 0, [])) ==
         Some(Two(d.(args := MutUnlock(id), pri := ms[id - 1].ownerOrig, held := Without(d.held, id),
                     orderly := d.orderly && SafeRelease(i, id)), e, c, clock,
                  ms[id - 1 := ms[id - 1].(owner := 0, lockCount := 0)]))
  {
    var s, d', m := Two(d, e, c, clock, ms), d.(args := MutUnlock(id)), ms[id - 1];
    var i := Two(d', e, c, clock, ms);
    hide Alive, Unlock, Step, Without, SafeRelease, ObjectShape;
    Enters(d, e, c, clock, ms, MutUnlock(id));
    FreesView(i, id);
    ChangesTwo(d, e, c, clock, ms, MutUnlock(id), i,
      d'.(pri := m.ownerOrig, held := Without(d.held, id), orderly := d.orderly && SafeRelease(i, id)),
      ms[id - 1 := m.(owner := 0, lockCount := 0)]);
  }

  // ----- steps that switch to the other task

  lemma NextTwo(d: PD, e: PD, c: Pid, clock: nat, ms: seq<Mut>)
    requires c == 1 || c == 2
    ensures var h := Two(d, e, c, clock, ms).(cswitch := true);
      && h.last < 2 && 2 - h.last == 3 - c && 2 - h.last in h.pd && h.current in h.pd
      && h.pd[2 - h.last] == e && h.pd[1 + h.last] == d && h.(cswitch := false) == Two(d, e, c, clock, ms)
      && Next(h).(cswitch := false) == Two(e.(state := RUNNING, starvation := 0), d, 3 - c, clock, ms)
  {
  }

  lemma ShapeListed(h: KState)
    requires Shape(h)
    ensures ListShape(h)
  {
  }

  lemma BestTwo(h: KState, d: PD, e: PD, c: Pid, clock: nat, ms: seq<Mut>)
    requires (c == 1 || c == 2) && ListShape(h) && h.(cswitch := false) == Two(d, e, c, clock, ms)
    requires e.state == READY && e.pri <= LOWEST_PRIORITY
    requires d.state == READY ==> e.pri <= d.pri && d.starvation < STARVATION_MAX
    ensures NextIsBest(h) && h.current in h.pd && h.pd[h.current] == d
  {
    hide ListShape;
  }

  /** The caller stops running, and the other task is ready. */
  lemma SwitchesTwo(s: KState, r: Request, d: PD, e: PD, c: Pid, clock: nat, ms: seq<Mut>)
    requires (c == 1 || c == 2) && Alive(s)
    requires Called(s, r, 0) == Two(d, e, c, clock, ms).(cswitch := true)
    requires e.state == READY && e.pri <= LOWEST_PRIORITY && d.state != RUNNING
    requires d.state == READY ==> e.pri <= d.pri && d.starvation < STARVATION_MAX
    ensures Step(s, Call(r, 0, [])) == Some(Two(e.(state := RUNNING, starvation := 0), d, 3 - c, clock, ms))
  {
    var h := Called(s, r, 0);
    assert ListShape(h) by { ShapeListed(h); }
    hide Called, NextIsBest, Step, Next, Alive, ListShape, Shape, Two;
    NextTwo(d, e, c, clock, ms);
    BestTwo(h, d, e, c, clock, ms);
    Switched(s, r, h);
  }

  lemma Sleeps(d: PD, e: PD, c: Pid, clock: nat, ms: seq<Mut>, t: nat)
    requires (c == 1 || c == 2) && Alive(Two(d, e, c, clock, ms)) && e.state == READY && e.pri <= LOWEST_PRIORITY
    ensures Step(Two(d, e, c, clock, ms), Call(TaskSleep(t), 0, [])) ==
      Some(Two(e.(state := RUNNING, starvation := 0), d.(timeout := t, state := SLEEPING), 3 - c, clock, ms))
  {
    var s, d' := Two(d, e, c, clock, ms), d.(timeout := t, state := SLEEPING);
    IssueTwo(d, e, c, clock, ms, TaskSleep(t));
    TwoChanged(d.(timeout := t), e, c, clock, ms, d', ms);
    assert Called(s, TaskSleep(t), 0) == Two(d', e, c, clock, ms).(cswitch := true);
    hide Alive, Step, Called;
    SwitchesTwo(s, TaskSleep(t), d', e, c, clock, ms);
  }

  lemma HandsOverView(i: KState, id: nat)
    requires i.current in i.pd && ObjectShape(i) && Owns(i, i.current, id)
    requires var m := i.muts[id - 1];
      && m.lockCount == 1 && |m.waiters| == |m.origs| == 1
      && m.waiters[0] != i.current && m.waiters[0] in i.pd && i.pd[m.waiters[0]].state == WAIT_MUTEX
    ensures var m, c := i.muts[id - 1], i.current;
      var p := m.waiters[0];
      Unlock(i, id) ==
      i.(pd := i.pd[c := i.pd[c].(state := READY, pri := m.ownerOrig, held := Without(i.pd[c].held, id),
                                  orderly := i.pd[c].orderly && SafeRelease(i, id))]
                   [p := i.pd[p].(state := READY, pri := m.highest, held := i.pd[p].held + [id])],
         muts := i.muts[id - 1 := m.(owner := p, lockCount := 1, waiters := [], origs := [], ownerOrig := m.origs[0])],
         cswitch := true)
  {
    hide ObjectShape, AllReleased, Stays, Without, SafeRelease;
    assert i.muts[id - 1].waiters[1..] == [] && i.muts[id - 1].origs[1..] == [];
    var c, p, u := i.current, i.muts[id - 1].waiters[0], Unlock(i, id);
    assert c in u.pd && p in u.pd;
    assert u.pd == i.pd[c := u.pd[c]][p := u.pd[p]];
  }

  lemma TwoBoth(d: PD, e: PD, c: Pid, clock: nat, ms: seq<Mut>, d': PD, e': PD, ms': seq<Mut>)
    requires c == 1 || c == 2
    ensures var s := Two(d, e, c, clock, ms);
      s.(pd := s.pd[c := d'][3 - c := e'], muts := ms', cswitch := true) ==
      Two(d', e', c, clock, ms').(cswitch := true)
  {
  }

  /** What handing mutex id over to the other task leaves of the two descriptors and of the mutex. */
  function Releasing(d: PD, m: Mut, id: nat): PD {
    d.(args := MutUnlock(id), state := READY, pri := m.ownerOrig, held := Without(d.held, id))
  }

  function Obtaining(e: PD, m: Mut, id: nat): PD {
    e.(state := READY, pri := m.highest, held := e.held + [id])
  }

  function HandedTo(m: Mut, p: Pid): Mut
    requires m.origs != []
  {
    m.(owner := p, lockCount := 1, waiters := [], origs := [], ownerOrig := m.origs[0])
  }

  predicate AwaitedBy(m: Mut, c: Pid, p: Pid) {
    m.owner == c && m.lockCount == 1 && m.waiters == [p] && |m.origs| == 1
  }

  lemma HandsOverUnlock(d: PD, e: PD, c: Pid, clock: nat, ms: seq<Mut>, id: nat)
    requires (c == 1 || c == 2) && ObjectShape(Two(d, e, c, clock, ms)) && 1 <= id <= |ms|
    requires d.args == MutUnlock(id) && AwaitedBy(ms[id - 1], c, 3 - c) && e.state == WAIT_MUTEX && |d.held| <= 1
    ensures Unlock(Two(d, e, c, clock, ms), id) ==
      Two(Releasing(d, ms[id - 1], id), Obtaining(e, ms[id - 1], id), c, clock,
          ms[id - 1 := HandedTo(ms[id - 1], 3 - c)]).(cswitch := true)
  {
    var i, m := Two(d, e, c, clock, ms), ms[id - 1];
    assert i.current in i.pd && m.waiters[0] in i.pd && SafeRelease(i, id);
    hide Unlock, Without, ObjectShape, SafeRelease;
    HandsOverView(i, id);
    TwoBoth(d, e, c, clock, ms, Releasing(d, m, id), Obtaining(e, m, id), ms[id - 1 := HandedTo(m, 3 - c)]);
  }

  lemma HandsOverCall(d: PD, e: PD, c: Pid, clock: nat, ms: seq<Mut>, id: nat)
    requires (c == 1 || c == 2) && Alive(Two(d, e, c, clock, ms)) && 1 <= id <= |ms|
    requires AwaitedBy(ms[id - 1], c, 3 - c) && e.state == WAIT_MUTEX && |d.held| <= 1
    ensures Called(Two(d, e, c, clock, ms), MutUnlock(id), 0) ==
      Two(Releasing(d, ms[id - 1], id), Obtaining(e, ms[id - 1], id), c, clock,
          ms[id - 1 := HandedTo(ms[id - 1], 3 - c)]).(cswitch := true)
  {
    hide Alive, Unlock, Without, ObjectShape, Issue, AwaitedBy, Two, HandedTo;
    Enters(d, e, c, clock, ms, MutUnlock(id));
    IssueTwo(d, e, c, clock, ms, MutUnlock(id));
    HandsOverUnlock(d.(args := MutUnlock(id)), e, c, clock, ms, id);
    assert Releasing(d.(args := MutUnlock(id)), ms[id - 1], id) == Releasing(d, ms[id - 1], id);
  }

  /** Releasing a mutex for which exactly the other task waits. */
  lemma HandsOver(d: PD, e: PD, c: Pid, clock: nat, ms: seq<Mut>, id: nat)
    requires (c == 1 || c == 2) && Alive(Two(d, e, c, clock, ms)) && 1 <= id <= |ms|
    requires AwaitedBy(ms[id - 1], c, 3 - c) && e.state == WAIT_MUTEX && |d.held| <= 1
    requires var m := ms[id - 1]; m.highest <= m.ownerOrig && m.highest <= LOWEST_PRIORITY
    requires d.starvation < STARVATION_MAX
    ensures Step(Two(d, e, c, clock, ms), Call(MutUnlock(id), 0, [])) ==
      Some(Two(Obtaining(e, ms[id - 1], id).(state := RUNNING, starvation := 0), Releasing(d, ms[id - 1], id),
               3 - c, clock, ms[id - 1 := HandedTo(ms[id - 1], 3 - c)]))
  {
    hide Alive, Step, Called, Without, Two;
    HandsOverCall(d, e, c, clock, ms, id);
    SwitchesTwo(Two(d, e, c, clock, ms), MutUnlock(id), Releasing(d, ms[id - 1], id), Obtaining(e, ms[id - 1], id),
                c, clock, ms[id - 1 := HandedTo(ms[id - 1], 3 - c)]);
  }

  // ----- a step that idles

  /** The next tick ends this sleep: one of 1 tick, or one so long that the rest looks negative in 16 bits. */
  predicate DueAtOnce(timeout: nat) {
    timeout > 0 && Signed16(timeout - 1) <= 0
  }

  /** The sleeping task wakes, and the other one waits on. */
  function Woken(d: PD, e: PD, c: Pid, clock: nat, ms: seq<Mut>): KState
    requires c == 1 || c == 2
  {
    Two(d, e.(timeout := 0, state := READY, retval := 0), c, clock + 1, ms).(cswitch := true)
  }

  lemma TicksAt(h: KState, p: Pid)
    requires ListShape(h) && h.ticks > 0 && p in h.order && p in h.pd
    ensures p in TickHandler(h).pd && TickHandler(h).pd[p] == TickTask(h.pd[p], h.ticks)
  {
    hide ListShape, OnlyAged, TickTask;
  }

  lemma TicksTwo(h: KState, d: PD, e: PD, c: Pid, clock: nat, ms: seq<Mut>)
    requires (c == 1 || c == 2) && ListShape(h) && h == Two(d, e, c, clock, ms).(cswitch := true)
    requires d.state == WAIT_MUTEX && d.timeout == 0 && e.state == SLEEPING && DueAtOnce(e.timeout)
    ensures TickHandler(Arrive(h, 1)) == Woken(d, e, c, clock, ms)
  {
    hide ListShape, OnlyAged, TickHandler;
    var h1, w := Arrive(h, 1), Woken(d, e, c, clock, ms);
    TicksAt(h1, c);
    TicksAt(h1, 3 - c);
    Clock.TickFields(h1);
    assert TickHandler(h1).pd == w.pd;
  }

  lemma IdlesOnce(h: KState, w: KState)
    requires ListShape(h) && h.ticks == 0 && !SomeReady(h) && TickHandler(Arrive(h, 1)) == w
    requires ListShape(w) && SomeReady(w)
    ensures Idle(h, [1]) == Some(w)
  {
    hide ListShape, SomeReady, TickHandler, OnlyAged, Arrive;
    assert [1][1..] == [];
    assert Idle(w, []) == Some(w);
  }

  lemma NoneReady(h: KState, d: PD, e: PD, c: Pid, clock: nat, ms: seq<Mut>)
    requires (c == 1 || c == 2) && ListShape(h) && h == Two(d, e, c, clock, ms).(cswitch := true)
    requires d.state == WAIT_MUTEX && e.state == SLEEPING
    ensures !SomeReady(h) && Requeue(h) == h && TickHandler(h) == h
  {
  }

  lemma OneReady(h: KState, d: PD, e: PD, c: Pid, clock: nat, ms: seq<Mut>)
    requires (c == 1 || c == 2) && ListShape(h) && h == Two(d, e, c, clock, ms).(cswitch := true)
    requires d.state == WAIT_MUTEX && e.state == SLEEPING
    ensures ListShape(Woken(d, e, c, clock, ms)) && SomeReady(Woken(d, e, c, clock, ms))
  {
    var w := Woken(d, e, c, clock, ms);
    assert w.order[2 - c] in w.order;
  }

  lemma IdlesTwo(h: KState, d: PD, e: PD, c: Pid, clock: nat, ms: seq<Mut>)
    requires (c == 1 || c == 2) && ListShape(h) && h == Two(d, e, c, clock, ms).(cswitch := true)
    requires d.state == WAIT_MUTEX && d.timeout == 0 && e.state == SLEEPING && DueAtOnce(e.timeout)
    ensures ListShape(Woken(d, e, c, clock, ms)) && Choice(h, [1]) == Some(Woken(d, e, c, clock, ms))
  {
    assert h.ticks == 0;
    hide ListShape, OnlyAged, SomeReady, TickHandler, Requeue, Two, Woken;
    TicksTwo(h, d, e, c, clock, ms);
    NoneReady(h, d, e, c, clock, ms);
    OneReady(h, d, e, c, clock, ms);
    IdlesOnce(h, Woken(d, e, c, clock, ms));
  }

  lemma RunsNext(w: KState)
    requires NextIsBest(w)
    ensures w.order != [] && Select(w) == 0 && 2 - w.last in w.pd && Run(w, 0) == Next(w)
  {
    assert w.order[1 - w.last] in w.order;
    SelectsNext(w);
  }

  lemma DispatchesWoken(h: KState, d: PD, e: PD, c: Pid, clock: nat, ms: seq<Mut>)
    requires (c == 1 || c == 2) && ListShape(h) && h == Two(d, e, c, clock, ms).(cswitch := true)
    requires d.state == WAIT_MUTEX && d.timeout == 0 && e.state == SLEEPING && DueAtOnce(e.timeout)
      && e.pri <= LOWEST_PRIORITY
    ensures var d' := Dispatch(h, [1]);
      d'.Some? && d'.value.(cswitch := false) ==
        Two(e.(timeout := 0, state := RUNNING, retval := 0, starvation := 0), d, 3 - c, clock + 1, ms)
  {
    hide ListShape, Choice, Two, Run, Next, Select, NextIsBest;
    var e', w := e.(timeout := 0, state := READY, retval := 0), Woken(d, e, c, clock, ms);
    IdlesTwo(h, d, e, c, clock, ms);
    NextTwo(d, e', c, clock + 1, ms);
    BestTwo(w, d, e', c, clock + 1, ms);
    RunsNext(w);
  }

  /** Queueing for a mutex that the sleeping task owns; a tick then wakes that task. */
  lemma Waits(d: PD, e: PD, c: Pid, clock: nat, ms: seq<Mut>, id: nat)
    requires (c == 1 || c == 2) && Alive(Two(d, e, c, clock, ms)) && 1 <= id <= |ms|
    requires ms[id - 1].owner == 3 - c && d.timeout == 0
    requires e.state == SLEEPING && DueAtOnce(e.timeout) && e.pri <= LOWEST_PRIORITY
    ensures var m := ms[id - 1];
      Step(Two(d, e, c, clock, ms), Call(MutLock(id), 0, [1])) ==
      Some(Two(e.(timeout := 0, state := RUNNING, retval := 0, starvation := 0),
               d.(args := MutLock(id), pri := Min(m.highest, d.pri), state := WAIT_MUTEX), 3 - c, clock + 1,
               ms[id - 1 := m.(waiters := m.waiters + [c], origs := m.origs + [d.pri],
                               highest := Min(m.highest, d.pri))]))
  {
    var s, m := Two(d, e, c, clock, ms), ms[id - 1];
    var h := Called(s, MutLock(id), 0);
    var d' := d.(args := MutLock(id), pri := Min(m.highest, d.pri), state := WAIT_MUTEX);
    var ms' := ms[id - 1 := m.(waiters := m.waiters + [c], origs := m.origs + [d.pri],
                               highest := Min(m.highest, d.pri))];
    WaitsCall(d, e, c, clock, ms, id);
    assert ListShape(h) by { ShapeListed(h); }
    hide Called, Shape, ListShape, Alive, Dispatch, Two;
    DispatchesWoken(h, d', e, c, clock, ms');
    assert h.cswitch;
  }

  lemma WaitsView(i: KState, id: nat)
    requires i.current in i.pd && 1 <= id <= |i.muts| && i.muts[id - 1].owner !in {0, i.current}
    ensures var m, d := i.muts[id - 1], i.pd[i.current];
      Lock(i, id) ==
      i.(pd := i.pd[i.current := d.(pri := Min(m.highest, d.pri), state := WAIT_MUTEX)],
         muts := i.muts[id - 1 := m.(waiters := m.waiters + [i.current], origs := m.origs + [d.pri],
                                     highest := Min(m.highest, d.pri))],
         cswitch := true)
  {
  }

  lemma WaitsCall(d: PD, e: PD, c: Pid, clock: nat, ms: seq<Mut>, id: nat)
    requires (c == 1 || c == 2) && Alive(Two(d, e, c, clock, ms)) && 1 <= id <= |ms| && ms[id - 1].owner == 3 - c
    ensures var m := ms[id - 1];
      Called(Two(d, e, c, clock, ms), MutLock(id), 0) ==
      Two(d.(args := MutLock(id), pri := Min(m.highest, d.pri), state := WAIT_MUTEX), e, c, clock,
          ms[id - 1 := m.(waiters := m.waiters + [c], origs := m.origs + [d.pri],
                          highest := Min(m.highest, d.pri))]).(cswitch := true)
  {
    hide Alive, Issue, Lock, Min, ObjectShape;
    var i, m := Two(d.(args := MutLock(id)), e, c, clock, ms), ms[id - 1];
    IssueTwo(d, e, c, clock, ms, MutLock(id));
    Enters(d, e, c, clock, ms, MutLock(id));
    WaitsView(i, id);
    TwoChanged(d.(args := MutLock(id)), e, c, clock, ms,
      d.(args := MutLock(id), pri := Min(m.highest, d.pri), state := WAIT_MUTEX),
      ms[id - 1 := m.(waiters := m.waiters + [c], origs := m.origs + [d.pri], highest := Min(m.highest, d.pri))]);
  }

  // ----- the priority that is never restored

  /** A more urgent task 1, and a task 2 created with priority 5. */
  const MAIN: seq<Creation> := [ATask(2), ATask(5), AMutex, AMutex]

  /** Task 2 queues for mutex 1 while task 1 sleeps with it, is handed it with priority 2, then locks
      mutex 2, and releases the two in the order in which it acquired them. */
  const RUN: seq<Event> := [
    Call(MutLock(1), 0, []), Call(TaskSleep(1), 0, []), Call(MutLock(1), 0, [1]), Call(MutUnlock(1), 0, []),
    Call(MutLock(2), 0, []), Call(MutUnlock(1), 0, []), Call(MutUnlock(2), 0, [])]

  /** A new task but for the fields that change in this run. */
  function Task(pri: nat, base: nat, st: ProcessState, args: Request, held: seq<nat>): PD {
    NewTask(pri).(base := base, state := st, args := args, held := held)
  }

  /** Task 1 asleep with t ticks to go and with mutex 1, while task 2 runs. */
  function AsleepFor(t: nat): KState {
    Two(Task(5, 5, RUNNING, NoRequest, []), Task(2, 2, SLEEPING, MutLock(1), [1]).(timeout := t), 2, 0,
        [Mut(1, 1, 2, 2, [], []), NewMutex()])
  }

  /** The state before event k, and in the end. */
  function At(k: nat): KState
    requires k <= 7
  {
    var one := Task(2, 2, READY, MutUnlock(1), []);
    match k
    case 0 => Two(Task(2, 2, RUNNING, NoRequest, []), Task(5, 5, READY, NoRequest, []), 1, 0,
                  [NewMutex(), NewMutex()])
    case 1 => Two(Task(2, 2, RUNNING, MutLock(1), [1]), Task(5, 5, READY, NoRequest, []), 1, 0,
                  [Mut(1, 1, 2, 2, [], []), NewMutex()])
    case 2 => AsleepFor(1)
    case 3 => Two(Task(2, 2, RUNNING, MutLock(1), [1]), Task(2, 5, WAIT_MUTEX, MutLock(1), []), 1, 1,
                  [Mut(1, 1, 2, 2, [2], [5]), NewMutex()])
    case 4 => Two(Task(2, 5, RUNNING, MutLock(1), [1]), one, 2, 1, [Mut(2, 1, 2, 5, [], []), NewMutex()])
    case 5 => Two(Task(2, 5, RUNNING, MutLock(2), [1, 2]), one, 2, 1,
                  [Mut(2, 1, 2, 5, [], []), Mut(2, 1, 2, 2, [], [])])
    case 6 => Two(Task(5, 5, RUNNING, MutUnlock(1), [2]).(orderly := false), one, 2, 1,
                  [Mut(0, 0, 2, 5, [], []), Mut(2, 1, 2, 2, [], [])])
    case 7 => Two(Task(2, 5, RUNNING, MutUnlock(2), []).(orderly := false), one, 2, 1,
                  [Mut(0, 0, 2, 5, [], []), Mut(0, 0, 2, 2, [], [])])
  }

  lemma ConfigureMore(cs: seq<Creation>, c: Creation)
    ensures Configure(cs + [c]) == Create(Configure(cs), c)
  {
    assert (cs + [c])[..|cs|] == cs;
  }

  /** The configuration of MAIN, as OS_Start finds it. */
  function Configured(): KState {
    KState([1, 2], map[1 := NewTask(2), 2 := NewTask(5)], 0, 0, 0, 0, [NewMutex(), NewMutex()], [], [], [], 2, false,
           NO_ERR)
  }

  lemma ConfiguresTasks()
    ensures Configure([ATask(2), ATask(5)]) == Configured().(muts := [])
  {
    ConfigureMore([], ATask(2));
    ConfigureMore([ATask(2)], ATask(5));
    assert [] + [ATask(2)] == [ATask(2)] && [ATask(2)] + [ATask(5)] == [ATask(2), ATask(5)];
  }

  lemma ConfiguresMutex(cs: seq<Creation>, s: KState)
    requires Configure(cs) == s && |s.muts| < MAX_OBJECTS
    ensures Configure(cs + [AMutex]) == s.(muts := s.muts + [NewMutex()])
  {
    ConfigureMore(cs, AMutex);
  }

  lemma Configures()
    ensures Configure(MAIN) == Configured()
  {
    hide Configure;
    var two, ms := [ATask(2), ATask(5)], [NewMutex()];
    ConfiguresTasks();
    ConfiguresMutex(two, Configured().(muts := []));
    ConfiguresMutex(two + [AMutex], Configured().(muts := ms));
    assert [] + [NewMutex()] == ms && ms + [NewMutex()] == [NewMutex(), NewMutex()];
    assert two + [AMutex] + [AMutex] == MAIN;
  }

  lemma BootsNext()
    requires ListShape(Configured().(last := 1))
    ensures NextIsBest(Configured().(last := 1)) && Next(Configured().(last := 1)).(cswitch := false) == At(0)
  {
    hide ListShape;
  }

  lemma Boots()
    ensures Start(MAIN, []) == Some(At(0))
  {
    Configures();
    ConfigureShape(MAIN);
    var s := Configured().(last := 1);
    assert Shape(s) by { TasksShape(Configured(), s); }
    assert ListShape(s) && s.order != [] && s.current !in s.pd;
    hide Dispatch, Configure, Shape, ListShape, ObjectShape, Next, NextIsBest, At;
    BootsNext();
    DispatchesNext(s, []);
    assert |Configured().order| == 2;
  }

  // ----- composing steps

  lemma ExecStep(s: KState, e: Event, es: seq<Event>, s1: KState)
    requires Alive(s) && Step(s, e) == Some(s1) && Tame(s, e)
    ensures Alive(s1) && Exec(s, [e] + es) == Exec(s1, es)
    ensures Along(s1, es, Tame) ==> Along(s, [e] + es, Tame)
  {
    assert ([e] + es)[1..] == es;
  }

  lemma Goes0()
    requires Alive(At(0))
    ensures Step(At(0), RUN[0]) == Some(At(1))
  {
    hide Alive, Step, Two;
    var d, e := Task(2, 2, RUNNING, NoRequest, []), Task(5, 5, READY, NoRequest, []);
    LocksFree(d, e, 1, 0, [NewMutex(), NewMutex()], 1);
    assert [] + [1] == [1];
    assert [NewMutex(), NewMutex()][0 := Mut(1, 1, 2, 2, [], [])] == [Mut(1, 1, 2, 2, [], []), NewMutex()];
  }

  /** Task 1 goes to sleep for t ticks. */
  lemma GoesToSleep(t: nat)
    requires Alive(At(1))
    ensures Step(At(1), Call(TaskSleep(t), 0, [])) == Some(AsleepFor(t))
  {
    hide Alive, Step, Two;
    var d, e := Task(2, 2, RUNNING, MutLock(1), [1]), Task(5, 5, READY, NoRequest, []);
    Sleeps(d, e, 1, 0, [Mut(1, 1, 2, 2, [], []), NewMutex()], t);
  }

  /** Task 2 queues up, and the next tick wakes task 1. */
  lemma WakesUp(t: nat)
    requires Alive(AsleepFor(t)) && DueAtOnce(t)
    ensures Step(AsleepFor(t), Call(MutLock(1), 0, [1])) == Some(At(3))
  {
    hide Alive, Step, Two, DueAtOnce;
    var d, e := Task(5, 5, RUNNING, NoRequest, []), Task(2, 2, SLEEPING, MutLock(1), [1]).(timeout := t);
    var m, m' := Mut(1, 1, 2, 2, [], []), Mut(1, 1, 2, 2, [2], [5]);
    Waits(d, e, 2, 0, [m, NewMutex()], 1);
    assert [] + [2] == [2] && [] + [5] == [5];
    assert [m, NewMutex()][0 := m'] == [m', NewMutex()];
  }

  lemma Goes3()
    requires Alive(At(3))
    ensures Step(At(3), RUN[3]) == Some(At(4))
  {
    hide Alive, Step, Two;
    var d, e := Task(2, 2, RUNNING, MutLock(1), [1]), Task(2, 5, WAIT_MUTEX, MutLock(1), []);
    var m, m' := Mut(1, 1, 2, 2, [2], [5]), Mut(2, 1, 2, 5, [], []);
    HandsOver(d, e, 1, 1, [m, NewMutex()], 1);
    assert [] + [1] == [1] && Without([1], 1) == [];
    assert [m, NewMutex()][0 := m'] == [m', NewMutex()];
  }

  lemma Goes4()
    requires Alive(At(4))
    ensures Step(At(4), RUN[4]) == Some(At(5))
  {
    hide Alive, Step, Two;
    var d, e := Task(2, 5, RUNNING, MutLock(1), [1]), Task(2, 2, READY, MutUnlock(1), []);
    var m, m' := Mut(2, 1, 2, 5, [], []), Mut(2, 1, 2, 2, [], []);
    LocksFree(d, e, 2, 1, [m, NewMutex()], 2);
    assert [1] + [2] == [1, 2];
    assert [m, NewMutex()][1 := m'] == [m, m'];
  }

  lemma Unsafe(d: PD, e: PD, clock: nat, m: Mut, m': Mut)
    requires d.held == [1, 2] && m'.owner == 2 && m'.ownerOrig != d.base
    ensures var i := Two(d, e, 2, clock, [m, m']); i.current in i.pd && !SafeRelease(i, 1)
  {
    var i := Two(d, e, 2, clock, [m, m']);
    assert i.pd[2] == d && Owns(i, 2, d.held[1]);
  }

  lemma OldestOut()
    ensures Without([1, 2], 1) == [2]
  {
  }

  /** Releasing the older of two mutexes when the newer one has saved something else. */
  lemma FreesOldest(d: PD, e: PD, clock: nat, m: Mut, m': Mut)
    requires Alive(Two(d, e, 2, clock, [m, m'])) && d.held == [1, 2] && m'.owner == 2 && m'.ownerOrig != d.base
    requires m.owner == 2 && m.lockCount == 1 && m.waiters == []
    ensures Step(Two(d, e, 2, clock, [m, m']), Call(MutUnlock(1), 0, [])) ==
      Some(Two(d.(args := MutUnlock(1), pri := m.ownerOrig, held := [2], orderly := false), e, 2, clock,
               [m.(owner := 0, lockCount := 0), m']))
  {
    hide Alive, Step, Two, SafeRelease, Without;
    Unsafe(d.(args := MutUnlock(1)), e, clock, m, m');
    OldestOut();
    Frees(d, e, 2, clock, [m, m'], 1);
    assert [m, m'][0 := m.(owner := 0, lockCount := 0)] == [m.(owner := 0, lockCount := 0), m'];
  }

  lemma Goes5()
    requires Alive(At(5))
    ensures Step(At(5), RUN[5]) == Some(At(6))
  {
    hide Alive, Step, Two;
    var d, e := Task(2, 5, RUNNING, MutLock(2), [1, 2]), Task(2, 2, READY, MutUnlock(1), []);
    FreesOldest(d, e, 1, Mut(2, 1, 2, 5, [], []), Mut(2, 1, 2, 2, [], []));
  }

  lemma Goes6()
    requires Alive(At(6))
    ensures Step(At(6), RUN[6]) == Some(At(7))
  {
    hide Alive, Step, Two;
    var d, e := Task(5, 5, RUNNING, MutUnlock(1), [2]).(orderly := false), Task(2, 2, READY, MutUnlock(1), []);
    var m, m', free := Mut(0, 0, 2, 5, [], []), Mut(2, 1, 2, 2, [], []), Mut(0, 0, 2, 2, [], []);
    Frees(d, e, 2, 1, [m, m'], 2);
    assert Without([2], 2) == [];
    assert [m, m'][1 := free] == [m, free];
  }

  lemma ShortSleep()
    ensures At(2) == AsleepFor(1) && DueAtOnce(1)
  {
  }

  lemma RunIsTame(k: nat)
    requires k < 7
    ensures Tame(At(k), RUN[k])
  {
    hide At;
  }

  lemma Goes(k: nat)
    requires k < 7 && Alive(At(k))
    ensures Step(At(k), RUN[k]) == Some(At(k + 1)) && Tame(At(k), RUN[k])
  {
    hide Alive, Step, At, AsleepFor, DueAtOnce, Tame;
    ShortSleep();
    RunIsTame(k);
    match k
    case 0 => Goes0();
    case 1 => GoesToSleep(1);
    case 2 => WakesUp(1);
    case 3 => Goes3();
    case 4 => Goes4();
    case 5 => Goes5();
    case 6 => Goes6();
  }

  /** Events j to k lead from At(j) to At(k). */
  lemma {:induction false} Reaches(j: nat, k: nat)
    requires j <= k <= 7 && Alive(At(j))
    ensures Alive(At(k)) && Exec(At(j), RUN[j..k]) == Some(At(k)) && Along(At(j), RUN[j..k], Tame)
    decreases k - j
  {
    hide Alive, Step, Tame, At;
    if j == k {
      assert RUN[k..k] == [];
    } else {
      Goes(j);
      assert RUN[j..k] == [RUN[j]] + RUN[j + 1..k];
      ExecStep(At(j), RUN[j], RUN[j + 1..k], At(j + 1));
      Reaches(j + 1, k);
    }
  }

  lemma MainIsLegal()
    ensures forall c :: c in MAIN ==> LegalCreation(c)
  {
  }

  lemma Stuck()
    ensures var s' := At(7);
      && s'.current == 2 && 2 in s'.pd && (forall id: nat :: !Owns(s', 2, id))
      && s'.pd[2].state == RUNNING && s'.pd[2].base == 5 && s'.pd[2].pri == 2
  {
  }

  /** From boot, in a tame run: task 2 owns and awaits nothing, and yet it runs on with priority 2
      instead of its 5, because it released the older of its two mutexes first. */
  lemma PriorityNeverRestored()
    ensures (forall c :: c in MAIN ==> LegalCreation(c)) && Start(MAIN, []).Some?
    ensures var s := Start(MAIN, []).value;
      Along(s, RUN, Tame) && Exec(s, RUN).Some? &&
        var s' := Exec(s, RUN).value;
        && s'.current == 2 && 2 in s'.pd && (forall id: nat :: !Owns(s', 2, id))
        && s'.pd[2].state == RUNNING && s'.pd[2].base == 5 && s'.pd[2].pri == 2
  {
    hide Start, Exec, Along, Alive, At, Tame, LegalCreation;
    assert forall c :: c in MAIN ==> LegalCreation(c) by { MainIsLegal(); }
    Boots();
    assert RUN[0..7] == RUN;
    Reaches(0, 7);
    Stuck();
  }

  /** The failing family of an out-of-order release is inhabited: after five events of that run task 2
      holds exactly the mutexes 1 and 2, and the second has saved another priority than its own. */
  lemma FamilyIsReached()
    ensures Start(MAIN, []).Some?
    ensures var s := Start(MAIN, []).value;
      Along(s, RUN[..5], Tame) && Exec(s, RUN[..5]).Some? &&
        var s' := Exec(s, RUN[..5]).value;
        && Entered(s') && s'.pd[s'.current].held == [1, 2] && Releases(s', 1) && Releases(s', 2)
        && s'.muts[0].waiters == [] && s'.muts[1].waiters == []
        && s'.muts[1].ownerOrig != s'.pd[s'.current].base
  {
    hide Start, Exec, Along, At, Tame, LegalCreation, Entered, Inv, Alive;
    MainIsLegal();
    Boots();
    assert RUN[..5] == RUN[0..5];
    Reaches(0, 5);
    AlwaysSound(MAIN, [], RUN[..5]);
    InvEnters(At(5));
    HoldsBoth();
  }

  lemma InvEnters(s: KState)
    requires Alive(s) && Inv(s)
    ensures Entered(s)
  {
  }

  lemma HoldsBoth()
    ensures var s' := At(5);
      && s'.current in s'.pd && s'.pd[s'.current].held == [1, 2] && Releases(s', 1) && Releases(s', 2)
      && s'.muts[0].waiters == [] && s'.muts[1].waiters == []
      && s'.muts[1].ownerOrig != s'.pd[s'.current].base
  {
  }

  // ----- the sleep that does not sleep

  /** The same two tasks: task 1 locks mutex 1 and asks for 40000 ticks, task 2 queues up, and a tick comes. */
  const LONG: seq<Event> := [
    Call(MutLock(1), 0, []), Call(TaskSleep(40000), 0, []), Call(MutLock(1), 0, [1])]

  /** From boot, in a tame run: a task asks for 40000 ticks of sleep, and runs again after one tick. */
  lemma LongSleepEnds()
    ensures Start(MAIN, []).Some?
    ensures var s := Start(MAIN, []).value;
      Along(s, LONG, Tame) && Exec(s, LONG).Some? &&
        var s' := Exec(s, LONG).value;
        s'.clock == s.clock + 1 && s'.current == 1 && 1 in s'.pd && s'.pd[1].state == RUNNING && s'.pd[1].timeout == 0
  {
    Boots();
    hide Start, Step, Exec, Along, Alive;
    Goes(0);
    ExecStep(At(0), LONG[0], LONG[1..], At(1));
    GoesToSleep(40000);
    ExecStep(At(1), LONG[1], LONG[2..], AsleepFor(40000));
    assert DueAtOnce(40000);
    WakesUp(40000);
    ExecStep(AsleepFor(40000), LONG[2], [], At(3));
    assert LONG == [LONG[0]] + LONG[1..] && LONG[1..] == [LONG[1]] + LONG[2..] && LONG[2..] == [LONG[2]] + [];
    ExecNothing(At(3));
  }

  lemma ExecNothing(s: KState)
    requires Alive(s)
    ensures Exec(s, []) == Some(s) && Along(s, [], Tame)
  {
  }
}
