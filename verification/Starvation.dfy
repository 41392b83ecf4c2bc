/** What the ticks do to the starvation counts: over every run the count of a task is the number of ticks handled
    while it was READY since it last ran, and whoever waits too long is looked at as starving. */
module Starvation {
  import opened KernelTypes
  import opened KernelState
  import opened Requests
  import opened Scheduler
  import opened ShapeProofs
  import opened MainLoop
  import opened StepScope
  import opened Selection
  import opened Clock
  import Effects

  // ----- one batch of ticks

  /** What n ticks do to a listed task, as long as nothing wraps: they count as starvation if it is READY, and
      a running timeout goes down, or it ends and the task is READY, or set to resume as READY. */
  predicate TickedBy(d: PD, d': PD, n: nat) {
    var count := if d.state == READY then (d.starvation + n) % WORD else d.starvation;
    d' ==
    if d.timeout == 0 then d.(starvation := count)
    else if d.timeout > n then d.(starvation := count, timeout := d.timeout - n)
    else if d.state == SUSPENDED then d.(timeout := 0, lastState := READY)
    else d.(starvation := count, timeout := 0, state := READY, retval := 0)
  }

  lemma TaskTicked(d: PD, n: nat)
    requires n < WORD / 2 && d.timeout < WORD / 2
    ensures TickedBy(d, TickTask(d, n), n)
  {
  }

  /** Pending ticks reach every listed task once, and no other. */
  lemma TickMeaning(s: KState, p: Pid)
    requires ListShape(s) && 0 < s.ticks < WORD / 2 && p in s.pd && s.pd[p].timeout < WORD / 2
    ensures var s' := TickHandler(s);
      && s' == s.(pd := s'.pd, ticks := 0, clock := s.clock + s.ticks) && p in s'.pd
      && if p in s.order then TickedBy(s.pd[p], s'.pd[p], s.ticks) else s'.pd[p] == s.pd[p]
  {
    TaskTicked(s.pd[p], s.ticks);
    hide TickTask, TickedBy, ListShape, OnlyAged;
  }

  /** Whatever the timeouts are, a READY task gets all pending ticks, and stays READY; no other task gets any. */
  lemma TicksCount(s: KState, p: Pid)
    requires ListShape(s) && p in s.pd
    ensures var s' := TickHandler(s);
      && p in s'.pd && s'.clock == s.clock + s.ticks && s'.ticks == 0 && s'.order == s.order
      && (s.pd[p].state == READY ==> s'.pd[p].state == READY)
      && (s.pd[p].state == READY && s.pd[p].starvation < WORD ==>
            s'.pd[p].starvation == (s.pd[p].starvation + s.ticks) % WORD)
      && (s.pd[p].state != READY ==> s'.pd[p].starvation == s.pd[p].starvation)
  {
    hide OnlyAged, Signed16;
  }

  // ----- one dispatch

  /** Ready when the scan comes: READY already, or the current task, which a dispatch puts back. */
  predicate Rests(h: KState, p: Pid) {
    p in h.pd && (h.pd[p].state == READY || (p == h.current && h.pd[p].state == RUNNING))
  }

  /** What an unsigned int keeps of a number of ticks. */
  function Wrapped(w: nat): (r: nat)
    ensures r < WORD
  {
    w % WORD
  }

  lemma WrapsOnce(w: nat, k: nat)
    ensures Wrapped(Wrapped(w) + k) == Wrapped(w + k)
  {
  }

  /** The count of p after ticks up to time `clock`, unless it is dispatched. */
  function CountAt(h: KState, p: Pid, clock: nat): nat
    requires p in h.pd && clock >= h.clock
  {
    if Rests(h, p) then Wrapped(h.pd[p].starvation + clock - h.clock) else h.pd[p].starvation
  }

  /** While nobody is READY, nobody is counted for; and the idling ends as soon as somebody is. */
  lemma {:induction false} IdleCounts(s: KState, batches: seq<nat>, p: Pid)
    requires ListShape(s) && Idle(s, batches).Some? && p in s.pd && s.pd[p].starvation < WORD
    ensures var c := Idle(s, batches).value;
      && p in c.pd && c.clock >= s.clock && c.pd[p].starvation == s.pd[p].starvation
      && (s.pd[p].state == READY ==> c == s)
    decreases |batches|
  {
    ReadyListed(s, p);
    if !SomeReady(s) {
      var s1 := Arrive(s, batches[0]);
      var s2 := TickHandler(s1);
      TicksCount(s1, p);
      AgedKeepsLists(s1, s2);
      hide ListShape, SomeReady, OnlyAged, TickHandler;
      IdleCounts(s2, batches[1..], p);
    }
  }

  lemma ReadyListed(s: KState, p: Pid)
    requires ListShape(s) && p in s.pd
    ensures s.pd[p].state == READY ==> SomeReady(s)
  {
  }

  lemma RequeueCounts(h: KState, p: Pid)
    requires ListShape(h) && p in h.pd
    ensures var q := Requeue(h);
      && ListShape(q) && p in q.pd && q.clock == h.clock && q.pd[p].starvation == h.pd[p].starvation
      && (q.pd[p].state == READY <==> Rests(h, p))
  {
  }

  lemma ChoiceCounts(h: KState, batches: seq<nat>, p: Pid)
    requires ListShape(h) && Choice(h, batches).Some? && p in h.pd && h.pd[p].starvation < WORD
    ensures var c := Choice(h, batches).value;
      p in c.pd && c.clock >= h.clock && c.pd[p].starvation == CountAt(h, p, c.clock)
      && (Rests(h, p) ==> c.pd[p].state == READY)
  {
    hide ListShape, SomeReady, OnlyAged, TickHandler, Requeue, Idle, Rests;
    var q := Requeue(h);
    var t := TickHandler(q);
    RequeueCounts(h, p);
    TicksCount(q, p);
    AgedKeepsLists(q, t);
    IdleCounts(t, batches, p);
  }

  lemma RunCounts(c: KState, k: nat, p: Pid)
    requires ListShape(c) && c.order != [] && p in c.pd
    ensures var s' := Run(c, k);
      p in s'.pd && s'.clock == c.clock
      && s'.pd[p].starvation == (if s'.current == p then 0 else c.pd[p].starvation)
  {
  }

  lemma DispatchCounts(h: KState, batches: seq<nat>, p: Pid)
    requires ListShape(h) && Dispatch(h, batches).Some? && p in h.pd && h.pd[p].starvation < WORD
    ensures var s' := Dispatch(h, batches).value;
      p in s'.pd && s'.clock >= h.clock
      && s'.pd[p].starvation == (if s'.current == p then 0 else CountAt(h, p, s'.clock))
  {
    hide ListShape, SomeReady, OnlyAged, Choice, ScanTo, CountAt, Run;
    var c := Choice(h, batches).value;
    ChoiceCounts(h, batches, p);
    RunCounts(c, Select(c), p);
  }

  // ----- requests

  /** No request changes a count; a new task starts with none. */
  predicate CountKept(s: KState, h: KState, p: Pid) {
    if p in s.pd then p in h.pd && h.pd[p].starvation == s.pd[p].starvation else p in h.pd ==> h.pd[p].starvation == 0
  }

  lemma BoxCounts(i: KState, id: nat, w: Box, p: Pid)
    requires 1 <= id <= |i.mbs| && AllHandled(i.pd, w.pd)
    ensures CountKept(i, WithBox(i, id, w), p)
  {
    assert (p in i.pd <==> p in i.pd.Keys) && (p in w.pd <==> p in w.pd.Keys);
    if p in i.pd { assert Handled(i.pd[p], w.pd[p]); }
  }

  lemma MailCounts(i: KState, r: Request, anchor: nat, p: Pid)
    requires i.current in i.pd && ObjectShape(i) && (r.MbSend? || r.MbRecv?)
    ensures CountKept(i, Handle(i, r, anchor), p)
  {
    hide RecvFromQueue, SendFromQueue, Stays, AllHandled;
    if 1 <= r.id <= |i.mbs| {
      var (w, retval) :=
        if r.MbSend? then SendInternal(BoxAt(i, r.id), i.current, Mail(r.body, r.size, i.current), r.blocking)
        else RecvInternal(BoxAt(i, r.id), i.current, i.current, r.blocking);
      if retval != -1 { BoxCounts(i, r.id, w, p); }
    }
  }

  lemma GiveCounts(i: KState, id: nat, amount: int, p: Pid)
    requires ObjectShape(i)
    ensures CountKept(i, SemaphoreGive(i, id, amount), p)
  {
    if 1 <= id <= |i.sems| {
      var m1 := Given(i.sems[id - 1], amount);
      assert SemShape(i.sems[id - 1], i.pd) && SemShape(m1, i.pd);
      DrainShape(m1, i.pd);
      assert p in i.pd <==> p in i.pd.Keys;
      assert p in Drain(m1, i.pd).pd <==> p in Drain(m1, i.pd).pd.Keys;
    }
  }

  lemma UnlockCounts(i: KState, id: nat, p: Pid)
    requires i.current in i.pd && ObjectShape(i)
    ensures CountKept(i, Unlock(i, id), p)
  {
    var h := Unlock(i, id);
    assert AllReleased(i, h);
    assert (p in i.pd <==> p in i.pd.Keys) && (p in h.pd <==> p in h.pd.Keys);
    if p in h.pd { assert ReleaseTouches(i.pd[p], h.pd[p], p == i.current); }
    hide Unlock;
  }

  lemma TaskCounts(i: KState, r: Request, anchor: nat, p: Pid)
    requires i.current in i.pd && ObjectShape(i) && i.lastPid + 1 !in i.pd
    requires r.TaskCreate? || r.TaskTerminate? || r.TaskSuspend? || r.TaskResume? || r.TaskSleep?
             || r.MutLock? || r.SemGet?
    ensures CountKept(i, Handle(i, r, anchor), p)
  {
    hide ObjectShape, Stays, AllReleased, AllHandled, Satisfied, WokenBy, Drain, SendInternal, RecvInternal,
         SafeRelease, Without;
  }

  lemma RestCounts(i: KState, r: Request, anchor: nat, p: Pid)
    requires i.current in i.pd && ObjectShape(i)
    requires r.EgCreate? || r.EgSetBits? || r.EgClearBits? || r.EgWaitBits? || r.MutCreate? || r.SemCreate?
             || r.MbCreate? || r.MbCheck? || r.Invalid? || r.TaskYield? || r.NoRequest?
    ensures CountKept(i, Handle(i, r, anchor), p)
  {
    hide ObjectShape, Stays, AllReleased, Satisfied;
  }

  lemma HandleCounts(i: KState, r: Request, anchor: nat, p: Pid)
    requires i.current in i.pd && ObjectShape(i) && i.lastPid + 1 !in i.pd
    ensures CountKept(i, Handle(i, r, anchor), p)
  {
    hide ObjectShape, CountKept;
    if r.MutUnlock? { UnlockCounts(i, r.id, p); }
    else if r.SemGive? { GiveCounts(i, r.id, r.amount, p); }
    else if r.MbSend? || r.MbRecv? { MailCounts(i, r, anchor, p); }
    else if r.TaskCreate? || r.TaskTerminate? || r.TaskSuspend? || r.TaskResume? || r.TaskSleep? || r.MutLock?
      || r.SemGet? {
      TaskCounts(i, r, anchor, p);
    } else {
      RestCounts(i, r, anchor, p);
    }
  }

  lemma CalledCounts(s: KState, r: Request, anchor: nat, p: Pid)
    requires Alive(s)
    ensures CountKept(s, Called(s, r, anchor), p) && Called(s, r, anchor).clock == s.clock
  {
    var i := Issue(s, r);
    assert s.current in s.order && s.current in s.pd;
    IssueShape(s, r);
    assert i.lastPid + 1 !in i.pd;
    assert CountKept(s, i, p);
    hide Handle, ListShape, ObjectShape;
    HandleCounts(i, r, anchor, p);
    HandleScope(i, r, anchor);
  }

  // ----- runs

  function Count(s: KState, p: Pid): nat {
    if p in s.pd then s.pd[p].starvation else 0
  }

  /** The ticks that p has waited, READY, since it last ran, when a dispatch in state h ends in s': `w` before.
      A dispatch of p starts anew. */
  function WaitedAfter(h: KState, s': KState, p: Pid, w: nat): nat
    requires s'.clock >= h.clock
  {
    if s'.current == p then 0 else if Rests(h, p) then w + (s'.clock - h.clock) else w
  }

  function WaitedNow(s: KState, e: Event, p: Pid, w: nat): nat
    requires Alive(s) && Step(s, e).Some?
  {
    StepEnds(s, e);
    if IsDispatch(s, e) then WaitedAfter(Called(s, e.request, e.anchor), Step(s, e).value, p, w) else w
  }

  function Waited(s: KState, es: seq<Event>, p: Pid, w: nat): nat
    requires Alive(s)
    decreases |es|
  {
    if es == [] || Step(s, es[0]).None? then w
    else Waited(Step(s, es[0]).value, es[1..], p, WaitedNow(s, es[0], p, w))
  }

  lemma NobodyNew(h: KState, batches: seq<nat>, p: Pid)
    requires Shape(h) && Dispatch(h, batches).Some? && p !in h.pd
    ensures p !in Dispatch(h, batches).value.pd && Dispatch(h, batches).value.current != p
  {
    DispatchShape(h, batches);
    ChoiceShape(h, batches);
    hide Shape, Choice;
    assert p !in h.pd.Keys;
  }

  /** What a step ends with. */
  lemma StepEnds(s: KState, e: Event)
    requires Alive(s) && Step(s, e).Some?
    ensures e.TimerTick? ==> Step(s, e).value == s.(ticks := Step(s, e).value.ticks)
    ensures e.Call? ==>
      var h, s' := Called(s, e.request, e.anchor), Step(s, e).value;
      && Shape(h)
      && if IsDispatch(s, e) then
           && Dispatch(h, e.batches).Some? && s' == Dispatch(h, e.batches).value.(cswitch := false)
           && s'.clock >= h.clock
         else s' == h
  {
    hide Called, Dispatch, Shape;
    if e.Call? { DispatchClock(Called(s, e.request, e.anchor), e.batches); }
  }

  lemma CountFollows(h: KState, s': KState, p: Pid, w: nat)
    requires p in h.pd && p in s'.pd && s'.clock >= h.clock && h.pd[p].starvation == Wrapped(w)
    requires s'.pd[p].starvation == if s'.current == p then 0 else CountAt(h, p, s'.clock)
    ensures Count(s', p) == Wrapped(WaitedAfter(h, s', p, w))
  {
    WrapsOnce(w, s'.clock - h.clock);
    WrapsOnce(0, 0);
    hide Rests;
  }

  lemma DispatchedCounts(h: KState, batches: seq<nat>, s': KState, p: Pid, w: nat)
    requires Shape(h) && Dispatch(h, batches).Some? && Count(h, p) == Wrapped(w) && s'.clock >= h.clock
    requires s' == Dispatch(h, batches).value.(cswitch := false)
    ensures Count(s', p) == Wrapped(WaitedAfter(h, s', p, w))
  {
    assert ListShape(h);
    hide Shape, ListShape, Dispatch, Wrapped, WaitedAfter, CountAt;
    if p in h.pd {
      DispatchCounts(h, batches, p);
      CountFollows(h, s', p, w);
    } else {
      NobodyNew(h, batches, p);
      NobodyWaits(h, s', p, w);
    }
  }

  lemma NobodyWaits(h: KState, s': KState, p: Pid, w: nat)
    requires p !in h.pd && p !in s'.pd && s'.clock >= h.clock && s'.current != p && Wrapped(w) == 0
    ensures Count(s', p) == Wrapped(WaitedAfter(h, s', p, w))
  {
  }

  lemma StepCounts(s: KState, e: Event, p: Pid, w: nat)
    requires Alive(s) && Step(s, e).Some? && Count(s, p) == Wrapped(w)
    ensures Count(Step(s, e).value, p) == Wrapped(WaitedNow(s, e, p, w))
  {
    StepEnds(s, e);
    if e.Call? {
      hide Called, Dispatch, Shape, Alive, Step, IsDispatch, WaitedAfter, Wrapped;
      CalledCounts(s, e.request, e.anchor, p);
      if IsDispatch(s, e) {
        DispatchedCounts(Called(s, e.request, e.anchor), e.batches, Step(s, e).value, p, w);
      }
    }
  }

  /** Over every run: the count is what the log says, as far as a word can hold it. */
  lemma {:induction false} CountIsWaited(s: KState, es: seq<Event>, p: Pid, w: nat)
    requires Alive(s) && Exec(s, es).Some? && Count(s, p) == Wrapped(w)
    ensures Count(Exec(s, es).value, p) == Wrapped(Waited(s, es, p, w))
    decreases |es|
  {
    hide WaitedNow, Count, Step, Shape, Wrapped;
    if es != [] {
      StepCounts(s, es[0], p, w);
      CountIsWaited(Step(s, es[0]).value, es[1..], p, WaitedNow(s, es[0], p, w));
    }
  }

  // ----- from boot

  ghost predicate Unaged(s: KState) {
    s.ticks == 0 && forall p :: p in s.pd ==> s.pd[p].state == READY && s.pd[p].starvation == 0
  }

  lemma CreateUnaged(s: KState, c: Creation)
    requires Unaged(s)
    ensures Unaged(Create(s, c))
  {
  }

  lemma {:induction false} ConfigureUnaged(cs: seq<Creation>)
    ensures Unaged(Configure(cs))
    decreases |cs|
  {
    hide Create;
    if cs != [] {
      ConfigureUnaged(cs[..|cs| - 1]);
      CreateUnaged(Configure(cs[..|cs| - 1]), cs[|cs| - 1]);
    }
  }

  /** With everybody READY and no ticks pending, the choice is made at once. */
  lemma ChoosesUnaged(s: KState, batches: seq<nat>)
    requires ListShape(s) && s.order != [] && s.current !in s.pd && Unaged(s)
    ensures Choice(s, batches) == Some(s)
  {
    assert s.order[0] in s.order && s.order[0] in s.pd;
    assert SomeReady(s);
    hide SomeReady, OnlyAged;
  }

  lemma DispatchUnaged(s: KState, batches: seq<nat>, p: Pid)
    requires ListShape(s) && s.order != [] && s.current !in s.pd && Unaged(s) && Dispatch(s, batches).Some?
    ensures Count(Dispatch(s, batches).value, p) == 0
  {
    ChoosesUnaged(s, batches);
    hide Choice, ScanTo;
  }

  lemma StartUnaged(cs: seq<Creation>, batches: seq<nat>, p: Pid)
    requires Start(cs, batches).Some?
    ensures Count(Start(cs, batches).value, p) == 0
  {
    hide Dispatch, Configure, ObjectShape, Unaged;
    var s := Configure(cs);
    var s1 := s.(last := |s.order| - 1);
    ConfigureShape(cs);
    ConfigureUnaged(cs);
    TasksShape(s, s1);
    assert 0 !in s1.pd;
    assert Unaged(s1) by { UnagedStays(s, s1); }
    DispatchUnaged(s1, batches, p);
  }

  lemma UnagedStays(s: KState, s1: KState)
    requires Unaged(s) && s1 == s.(last := s1.last)
    ensures Unaged(s1)
  {
  }

  /** From boot, in every run: a task's count is the number of ticks handled while it was READY since it was
      created or last dispatched, modulo 2^16. */
  lemma StarvationIsWaited(cs: seq<Creation>, batches: seq<nat>, es: seq<Event>, p: Pid)
    requires Start(cs, batches).Some? && Exec(Start(cs, batches).value, es).Some?
    ensures var s := Exec(Start(cs, batches).value, es).value;
      p in s.pd ==> s.pd[p].starvation == Waited(Start(cs, batches).value, es, p, 0) % WORD
  {
    hide Start, Exec, Waited;
    StartUnaged(cs, batches, p);
    CountIsWaited(Start(cs, batches).value, es, p, 0);
  }

  // ----- no tick is lost

  function Total(batches: seq<nat>): nat {
    if batches == [] then 0 else batches[0] + Total(batches[1..])
  }

  /** Every batch fits a word. */
  predicate Words(batches: seq<nat>) {
    forall b :: b in batches ==> b < WORD
  }

  lemma BatchArrives(s: KState, batches: seq<nat>)
    requires ListShape(s) && s.ticks == 0 && batches != [] && Words(batches)
    ensures ListShape(Arrive(s, batches[0])) && Words(batches[1..])
    ensures var t := TickHandler(Arrive(s, batches[0])); t.ticks == 0 && t.clock == s.clock + batches[0] && ListShape(t)
  {
    var s1 := Arrive(s, batches[0]);
    assert batches[0] in batches && forall b :: b in batches[1..] ==> b in batches;
    assert s1 == s.(ticks := batches[0]);
    hide ListShape, TickHandler, Arrive;
    TickFields(s1);
    AgedKeepsLists(s1, TickHandler(s1));
  }

  /** Idling handles the first j batches, one after the other, and no more than are needed. */
  lemma {:induction false} IdleTicks(s: KState, batches: seq<nat>) returns (j: nat)
    requires ListShape(s) && s.ticks == 0 && Idle(s, batches).Some? && Words(batches)
    ensures j <= |batches| && (j == 0 <==> SomeReady(s))
    ensures Idle(s, batches).value.clock == s.clock + Total(batches[..j]) && Idle(s, batches).value.ticks == 0
    decreases |batches|
  {
    hide ListShape, SomeReady, OnlyAged, TickHandler, Arrive, Words;
    if SomeReady(s) {
      j := 0;
      assert batches[..j] == [];
    } else {
      BatchArrives(s, batches);
      j := IdleTicks(TickHandler(Arrive(s, batches[0])), batches[1..]);
      assert batches[..j + 1][1..] == batches[1..][..j];
      j := j + 1;
    }
  }

  /** A dispatch handles what is pending, and what arrives until somebody is READY. */
  lemma DispatchTicks(h: KState, batches: seq<nat>) returns (j: nat)
    requires ListShape(h) && Dispatch(h, batches).Some? && Words(batches)
    ensures j <= |batches| && Dispatch(h, batches).value.ticks == 0
    ensures Dispatch(h, batches).value.clock == h.clock + h.ticks + Total(batches[..j])
  {
    var q := Requeue(h);
    var t := TickHandler(q);
    AgedKeepsLists(q, t);
    TickFields(q);
    hide ListShape, SomeReady, OnlyAged, TickHandler, ScanTo, Idle;
    j := IdleTicks(t, batches);
  }

  /** Timer interrupts of a run. */
  function Interrupts(es: seq<Event>): nat {
    if es == [] then 0 else (if es[0].TimerTick? then 1 else 0) + Interrupts(es[1..])
  }

  /** The pending ticks fit a word, and the kernel need not idle. */
  predicate Prompt(s: KState, e: Event) {
    if e.TimerTick? then s.ticks + 1 < WORD else e.batches == []
  }

  lemma StepTicks(s: KState, e: Event)
    requires Alive(s) && Prompt(s, e) && Step(s, e).Some?
    ensures var s' := Step(s, e).value;
      s'.clock + s'.ticks == s.clock + s.ticks + (if e.TimerTick? then 1 else 0)
      && (e.Call? && IsDispatch(s, e) ==> s'.ticks == 0)
  {
    StepEnds(s, e);
    if e.Call? {
      CalledTime(s, e.request, e.anchor);
      hide Called, Dispatch, ListShape, ObjectShape;
      if IsDispatch(s, e) { var j := DispatchTicks(Called(s, e.request, e.anchor), e.batches); }
    }
  }

  lemma CalledTime(s: KState, r: Request, anchor: nat)
    requires Alive(s)
    ensures SameTime(s, Called(s, r, anchor))
  {
    assert s.current in s.order && s.current in s.pd;
    IssueShape(s, r);
    hide Handle, Shape;
    HandleScope(Issue(s, r), r, anchor);
  }

  /** Every timer interrupt is handled exactly once, or still pending. */
  lemma {:induction false} NoTickIsLost(s: KState, es: seq<Event>)
    requires Alive(s) && Along(s, es, Prompt) && Exec(s, es).Some?
    ensures var s' := Exec(s, es).value; s'.clock + s'.ticks == s.clock + s.ticks + Interrupts(es)
    decreases |es|
  {
    hide Prompt, Step, Shape;
    if es != [] {
      StepTicks(s, es[0]);
      NoTickIsLost(Step(s, es[0]).value, es[1..]);
    }
  }

  // ----- who waits too long is seen

  /** The k-th task visited is p, and it is either starving or a strict running minimum of the scan; when it is
      starving, the scan selects the first starving task with the least ticks. */
  ghost predicate Seen(t: KState, k: nat, p: Pid) {
    && ListShape(t) && k < |t.order| && t.order[Visited(t, k)] == p
    && (RunningMinimum(t, k) || (Starving(t, k) && Select(t) >= 0 && FirstStarving(t, Select(t), |t.order|)))
  }

  lemma WaiterSeen(t: KState, i: nat)
    requires ListShape(t) && t.last < |t.order| && i < |t.order|
    requires var d := t.pd[t.order[i]]; d.state == READY && d.starvation >= STARVATION_MAX
    ensures Seen(t, StepOf(t, i), t.order[i])
  {
    var k := StepOf(t, i);
    VisitsEachOnce(t, i, k);
    TaskIsListed(t, k);
    ScanMeaning(t, |t.order|);
    hide ListShape, FirstBest, FirstStarving, RunningMinimum, ScanTo, Visited;
    if !RunningMinimum(t, k) {
      assert Starving(t, k);
      assert ScanTo(t, |t.order|).starved >= 0;
    }
  }

  lemma RestsCount(h: KState, p: Pid, clock: nat)
    requires Rests(h, p) && clock >= h.clock && h.pd[p].starvation + (clock - h.clock) < WORD
    ensures CountAt(h, p, clock) == h.pd[p].starvation + (clock - h.clock)
  {
  }

  lemma ChoiceSees(h: KState, batches: seq<nat>, p: Pid)
    requires ListShape(h) && h.last < |h.order| && Choice(h, batches).Some? && Rests(h, p) && p in h.pd
    requires STARVATION_MAX <= h.pd[p].starvation + (Choice(h, batches).value.clock - h.clock) < WORD
    requires h.pd[p].starvation < WORD
    ensures exists k :: Seen(Choice(h, batches).value, k, p)
  {
    var t := Choice(h, batches).value;
    ChoiceCounts(h, batches, p);
    ChoiceLists(h, batches);
    hide Choice, Seen, Requeue, OnlyAged, SomeReady, Rests, CountAt;
    assert t.pd[p].state == READY && t.pd[p].starvation >= STARVATION_MAX by { RestsCount(h, p, t.clock); }
    var i :| 0 <= i < |t.order| && t.order[i] == p;
    hide ListShape;
    WaiterSeen(t, i);
  }

  /** The scan starts from a list position, unless the list is empty. */
  lemma ScanHasStart(s: KState, r: Request, anchor: nat)
    requires Alive(s)
    ensures var h := Called(s, r, anchor); h.order != [] ==> h.last < |h.order|
  {
    if !r.TaskCreate? && !r.TaskTerminate? {
      hide Called, Shape;
      CalledLists(s, r, anchor);
    } else {
      Effects.Entering(s);
      IssueShape(s, r);
      hide ObjectShape;
    }
  }

  lemma DispatchSees(h: KState, batches: seq<nat>, p: Pid, clock: nat)
    requires Shape(h) && (h.order != [] ==> h.last < |h.order|) && Dispatch(h, batches).Some? && Rests(h, p)
    requires h.clock <= clock == Dispatch(h, batches).value.clock && h.pd[p].starvation < WORD
    requires STARVATION_MAX <= h.pd[p].starvation + (clock - h.clock) < WORD
    ensures Choice(h, batches).Some? && exists k :: Seen(Choice(h, batches).value, k, p)
  {
    assert p in h.order;
    hide Shape, Seen, Choice, ScanTo, OnlyAged, SomeReady;
    ChoiceSees(h, batches, p);
  }

  lemma RestingCount(s: KState, h: KState, p: Pid, w: nat)
    requires CountKept(s, h, p) && Rests(h, p) && Count(s, p) == Wrapped(w) && w < WORD
    ensures p in h.pd && h.pd[p].starvation == w
  {
  }

  /** From boot: a task that has waited, READY, for STARVATION_MAX handled ticks since it last ran is seen as
      starving by the next scan, unless it is more urgent than every READY task visited before it. */
  lemma LongWaitersAreSeen(cs: seq<Creation>, batches: seq<nat>, es: seq<Event>, s: KState, e: Event, p: Pid)
    requires Start(cs, batches).Some? && Exec(Start(cs, batches).value, es) == Some(s)
    requires Alive(s) && IsDispatch(s, e) && Step(s, e).Some? && Rests(Called(s, e.request, e.anchor), p)
    requires STARVATION_MAX <= Waited(Start(cs, batches).value, es, p, 0) + Step(s, e).value.clock - s.clock < WORD
    ensures var c := Choice(Called(s, e.request, e.anchor), e.batches);
      c.Some? && exists k :: Seen(c.value, k, p)
  {
    hide Start, Exec, Waited, Alive, Called, Dispatch, Choice, Seen, Rests, Shape;
    StartUnaged(cs, batches, p);
    CountIsWaited(Start(cs, batches).value, es, p, 0);
    StepEnds(s, e);
    CalledCounts(s, e.request, e.anchor, p);
    RestingCount(s, Called(s, e.request, e.anchor), p, Waited(Start(cs, batches).value, es, p, 0));
    ScanHasStart(s, e.request, e.anchor);
    DispatchSees(Called(s, e.request, e.anchor), e.batches, p, Step(s, e).value.clock);
  }
}
