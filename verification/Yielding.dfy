/** When the current task loses the processor, and to whom. */
module Yielding {
  import opened KernelTypes
  import opened KernelState
  import opened Requests
  import opened Scheduler
  import opened ShapeProofs
  import opened MainLoop
  import opened Selection
  import opened Starvation

  // ----- a yield dispatches

  /** The state in which a yield of the current task makes the kernel choose: the task is READY again. */
  function GivenUp(s: KState): KState
    requires s.current in s.pd
  {
    var c, d := s.current, s.pd[s.current];
    s.(pd := s.pd[c := if d.state == RUNNING then d.(state := READY) else d], err := NO_ERR)
  }

  lemma YieldEnters(s: KState, r: Request, anchor: nat)
    requires Alive(s) && s.current in s.pd && (r.TaskYield? || r.NoRequest?)
    ensures Requeue(Called(s, r, anchor)) == GivenUp(s) && Called(s, r, anchor) == s.(err := NO_ERR)
  {
    assert s.pd[s.current := s.pd[s.current]] == s.pd;
    IssueShape(s, r);
    hide ObjectShape, ListShape, Stays;
  }

  /** Which of the tasks visited is chosen: the first starving one with the least ticks, or else the first one of
      the best priority. */
  ghost predicate Chosen(t: KState, k: nat) {
    && t.order != [] && ListShape(t) && k < |t.order|
    && if exists j: nat :: j < |t.order| && Starving(t, j) then FirstStarving(t, k, |t.order|)
       else FirstBest(t, k, |t.order|)
  }

  lemma SelectChosen(t: KState)
    requires ListShape(t) && t.order != [] && (forall p :: p in t.order ==> t.pd[p].pri <= LOWEST_PRIORITY)
    requires Select(t) >= 0
    ensures Chosen(t, Select(t))
  {
    SelectMeaning(t);
    hide ScanTo, Starving, FirstStarving, FirstBest;
  }

  /** A state in which a task is chosen, `later` after h: only ticks have come in between. */
  ghost predicate ChoosesFrom(h: KState, t: KState) {
    OnlyAged(h, t) && ListShape(t) && SomeReady(t)
  }

  /** s' is t with the task at scan step k running. */
  ghost predicate RunsAt(t: KState, k: nat, s': KState) {
    && t.order != [] && Visited(t, k) < |t.order| && s'.current == t.order[Visited(t, k)] && s'.last == Visited(t, k)
    && s'.current in t.pd
    && s' == t.(current := s'.current, last := s'.last, cswitch := false,
                pd := t.pd[s'.current := t.pd[s'.current].(state := RUNNING, starvation := 0)])
  }

  lemma DispatchRuns(h: KState, batches: seq<nat>)
    requires ListShape(h) && Dispatch(h, batches).Some?
    ensures Choice(h, batches).Some?
    ensures var t := Choice(h, batches).value;
      t.order != [] && Select(t) >= 0 && RunsAt(t, Select(t), Dispatch(h, batches).value.(cswitch := false))
  {
    var t := Choice(h, batches).value;
    hide Choice, ScanTo, Select, OnlyAged;
    assert SomeReady(t);
    TaskIsListed(t, Select(t));
  }

  predicate Yields(e: Event) {
    e.Call? && (e.request.TaskYield? || e.request.NoRequest?)
  }

  ghost predicate LegalPriorities(s: KState) {
    forall p :: p in s.order ==> p in s.pd && s.pd[p].pri <= LOWEST_PRIORITY
  }

  lemma LegalLater(s: KState, g: KState, t: KState)
    requires LegalPriorities(s) && s.current in s.pd && g == GivenUp(s) && OnlyAged(g, t)
    ensures LegalPriorities(t)
  {
    forall p | p in t.order ensures p in t.pd && t.pd[p].pri <= LOWEST_PRIORITY {
      assert p in g.pd.Keys && p in t.pd.Keys;
      assert Aged(g.pd[p], t.pd[p]);
    }
  }

  /** From state g task k of t is chosen, t being g with some ticks handled, and s' is t with that task running. */
  ghost predicate Passes(g: KState, t: KState, k: nat, s': KState) {
    ChoosesFrom(g, t) && Chosen(t, k) && RunsAt(t, k, s')
  }

  lemma DispatchPasses(s: KState, h: KState, batches: seq<nat>)
    requires s.current in s.pd && LegalPriorities(s) && Requeue(h) == GivenUp(s)
    requires ListShape(h) && Dispatch(h, batches).Some?
    ensures Choice(h, batches).Some?
    ensures var t := Choice(h, batches).value;
      && ListShape(t) && t.order != [] && Select(t) >= 0
      && Passes(GivenUp(s), t, Select(t), Dispatch(h, batches).value.(cswitch := false))
  {
    DispatchRuns(h, batches);
    var t := Choice(h, batches).value;
    LegalLater(s, GivenUp(s), t);
    hide ListShape, Choice, Select, Dispatch, Chosen, RunsAt, OnlyAged, SomeReady;
    SelectChosen(t);
  }

  /** A yield that returns has dispatched, from the state in which the caller is READY again: after the pending
      ticks, and those that arrive until some task is READY, are handled, the chosen task runs. */
  lemma YieldMeaning(s: KState, e: Event) returns (t: KState, k: nat)
    requires Alive(s) && Yields(e) && LegalPriorities(s) && s.current in s.pd && Step(s, e).Some?
    ensures Passes(GivenUp(s), t, k, Step(s, e).value)
    ensures Choice(Called(s, e.request, e.anchor), e.batches) == Some(t)
  {
    var h := Called(s, e.request, e.anchor);
    YieldEnters(s, e.request, e.anchor);
    assert ListShape(h);
    hide Alive, ListShape, Choice, Select, Step, Called, Passes, Dispatch, GivenUp, Requeue, LegalPriorities, Yields;
    StepEnds(s, e);
    DispatchPasses(s, h, e.batches);
    t := Choice(h, e.batches).value;
    k := Select(t);
  }

  lemma SomethingSelected(t: KState)
    requires ListShape(t) && SomeReady(t) && t.last < |t.order| && LegalPriorities(t)
    ensures Select(t) >= 0
  {
    var p :| p in t.order && t.pd[p].state == READY;
    var i :| 0 <= i < |t.order| && t.order[i] == p;
    var k := StepOf(t, i);
    VisitsEachOnce(t, i, k);
    TaskIsListed(t, k);
    assert Ready(t, k);
    hide ListShape, ScanTo;
    SelectMeaning(t);
  }

  /** When the task that gives up was running, it is READY itself, so nothing but the pending ticks is waited for. */
  lemma ChoosesAtOnce(s: KState, h: KState, batches: seq<nat>)
    requires s.current in s.pd && s.pd[s.current].state == RUNNING && Requeue(h) == GivenUp(s) && ListShape(h)
    ensures ListShape(GivenUp(s)) && Choice(h, batches) == Some(TickHandler(GivenUp(s)))
  {
    var g := GivenUp(s);
    TicksCount(g, s.current);
    AgedKeepsLists(g, TickHandler(g));
    ReadyListed(TickHandler(g), s.current);
    hide ListShape, SomeReady, TickHandler;
  }

  lemma AlwaysDispatches(s: KState, h: KState, batches: seq<nat>)
    requires s.current in s.pd && s.pd[s.current].state == RUNNING && Requeue(h) == GivenUp(s) && ListShape(h)
    requires LegalPriorities(s) && s.last < |s.order|
    ensures Dispatch(h, batches).Some?
  {
    var g := GivenUp(s);
    ChoosesAtOnce(s, h, batches);
    var t := TickHandler(g);
    LegalLater(s, g, t);
    assert SomeReady(t) && ListShape(t) && t.order == s.order && t.last == s.last;
    hide ListShape, SomeReady, TickHandler, Choice, Select;
    SomethingSelected(t);
  }

  /** A yield of a RUNNING task always returns, and from the state in which that task is READY and exactly the
      pending ticks are handled. */
  lemma RunningYields(s: KState, e: Event) returns (k: nat)
    requires Alive(s) && Yields(e) && LegalPriorities(s) && s.current in s.pd && s.pd[s.current].state == RUNNING
    ensures Step(s, e).Some? && ListShape(GivenUp(s))
    ensures Passes(GivenUp(s), TickHandler(GivenUp(s)), k, Step(s, e).value)
  {
    var h := Called(s, e.request, e.anchor);
    YieldEnters(s, e.request, e.anchor);
    assert ListShape(h) && s.last < |s.order|;
    hide Alive, ListShape, Choice, Called, Passes, Dispatch, GivenUp, Requeue, LegalPriorities, TickHandler;
    ChoosesAtOnce(s, h, e.batches);
    AlwaysDispatches(s, h, e.batches);
    var t;
    t, k := YieldMeaning(s, e);
  }

  // ----- equals take turns

  /** The caller comes last in the scan. */
  lemma CallerIsLast(t: KState)
    requires t.last < |t.order|
    ensures StepOf(t, t.last) == |t.order| - 1
  {
    ModLess(t.last, |t.order|);
    ModLess(t.last + |t.order| - 1 - t.last, |t.order|);
  }

  /** So it is not chosen when nobody starves and somebody else is READY and no less urgent. */
  lemma NotTheCaller(t: KState, k: nat, j: nat)
    requires Chosen(t, k) && t.last < |t.order| && (forall i: nat :: !Starving(t, i))
    requires j < |t.order| && j != |t.order| - 1 && Ready(t, j)
    requires TaskAt(t, j).pri <= TaskAt(t, |t.order| - 1).pri
    ensures FirstBest(t, k, |t.order|) && Visited(t, k) != t.last
  {
    CallerIsLast(t);
    VisitsEachOnce(t, t.last, k);
    hide ListShape, Starving, TaskAt, Visited, StepOf;
  }

  /** Too few ticks have been handled and are pending for any task to starve. */
  ghost predicate NobodyStarves(s: KState) {
    forall p :: p in s.order ==> p in s.pd && s.pd[p].starvation + s.ticks < STARVATION_MAX
  }

  lemma NoneStarving(g: KState)
    requires ListShape(g) && NobodyStarves(g) && g.order != []
    ensures ListShape(TickHandler(g)) && TickHandler(g).order == g.order
    ensures forall j: nat :: !Starving(TickHandler(g), j)
  {
    var t := TickHandler(g);
    AgedKeepsLists(g, t);
    forall j: nat ensures !Starving(t, j) {
      TaskIsListed(t, j);
      TicksCount(g, t.order[Visited(t, j)]);
      hide ListShape, TickHandler;
    }
  }

  lemma AgedPriority(g: KState, p: Pid)
    requires ListShape(g) && p in g.pd
    ensures var t := TickHandler(g);
      && p in t.pd && t.pd[p].pri == g.pd[p].pri && (g.pd[p].state == READY ==> t.pd[p].state == READY)
      && t.last == g.last && t.order == g.order
  {
    TicksCount(g, p);
    assert p in g.pd.Keys;
    assert p in TickHandler(g).pd ==> Aged(g.pd[p], TickHandler(g).pd[p]);
    hide ListShape, TickHandler, Aged;
  }

  lemma FoundInScan(t: KState, p: Pid) returns (j: nat)
    requires ListShape(t) && t.last < |t.order| && p in t.order && t.pd[p].state == READY
    ensures j < |t.order| && Ready(t, j) && t.order[Visited(t, j)] == p && TaskAt(t, j) == t.pd[p]
    ensures p != t.order[t.last] ==> j != |t.order| - 1
  {
    var i :| 0 <= i < |t.order| && t.order[i] == p;
    j := StepOf(t, i);
    VisitsEachOnce(t, i, j);
    VisitsEachOnce(t, t.last, j);
    CallerIsLast(t);
    TaskIsListed(t, j);
    hide ListShape, Visited, StepOf, TaskAt;
  }

  lemma AnotherChosen(t: KState, k: nat, q: Pid)
    requires Chosen(t, k) && t.last < |t.order| && (forall i: nat :: !Starving(t, i))
    requires q in t.order && q != t.order[t.last] && t.pd[q].state == READY && t.order[t.last] in t.pd
    requires t.pd[q].pri <= t.pd[t.order[t.last]].pri
    ensures Visited(t, k) < |t.order| && t.order[Visited(t, k)] in t.pd && t.order[Visited(t, k)] != t.order[t.last]
    ensures forall p :: p in t.order && t.pd[p].state == READY ==> t.pd[t.order[Visited(t, k)]].pri <= t.pd[p].pri
  {
    var n := |t.order|;
    var j := FoundInScan(t, q);
    assert TaskAt(t, n - 1) == t.pd[t.order[t.last]] by {
      CallerIsLast(t);
      VisitsEachOnce(t, t.last, n - 1);
      TaskIsListed(t, n - 1);
    }
    NotTheCaller(t, k, j);
    TaskIsListed(t, k);
    assert NoDup(t.order);
    hide Starving, Visited, StepOf, TaskAt;
    forall p | p in t.order && t.pd[p].state == READY ensures t.pd[t.order[Visited(t, k)]].pri <= t.pd[p].pri {
      var i := FoundInScan(t, p);
    }
  }

  /** The dispatched task is another one than c, and none that is READY is more urgent. */
  ghost predicate TurnPasses(g: KState, s': KState, c: Pid) {
    && s'.current != c && c in s'.pd && s'.pd[c].state == READY && s'.current in g.pd
    && (forall p :: p in g.order && p in g.pd && g.pd[p].state == READY ==> g.pd[s'.current].pri <= g.pd[p].pri)
  }

  lemma TurnTaken(g: KState, k: nat, s': KState, c: Pid, q: Pid)
    requires ListShape(g) && NobodyStarves(g) && g.last < |g.order| && g.order[g.last] == c && c in g.pd
    requires g.pd[c].state == READY && q in g.order && q in g.pd && q != c && g.pd[q].state == READY
    requires g.pd[q].pri <= g.pd[c].pri && Passes(g, TickHandler(g), k, s')
    ensures TurnPasses(g, s', c)
  {
    var t := TickHandler(g);
    NoneStarving(g);
    AgedPriority(g, q);
    AgedPriority(g, c);
    hide Starving, Visited, Chosen, TickHandler, ListShape, OnlyAged, SomeReady;
    AnotherChosen(t, k, q);
    var r := t.order[Visited(t, k)];
    assert r in g.order && r in g.pd by { assert ListShape(g); }
    AgedPriority(g, r);
    forall p | p in g.order && p in g.pd && g.pd[p].state == READY ensures g.pd[r].pri <= g.pd[p].pri {
      AgedPriority(g, p);
    }
  }

  lemma GivesUp(s: KState)
    requires Alive(s) && s.current in s.pd && s.pd[s.current].state == RUNNING && NobodyStarves(s)
    ensures var g, c := GivenUp(s), s.current;
      && g.last < |g.order| && g.order == s.order && g.order[g.last] == c && NobodyStarves(g)
      && g.pd.Keys == s.pd.Keys && c in g.pd && g.pd[c] == s.pd[c].(state := READY)
      && (forall p :: p in s.pd && p != c ==> p in g.pd && g.pd[p] == s.pd[p])
  {
    hide Shape;
  }

  /** Equals take turns: while nobody starves, a RUNNING task that yields to another READY task no less urgent than
      itself loses the processor, to one of the most urgent of all, and is READY. */
  lemma EqualsTakeTurns(s: KState, e: Event, q: Pid)
    requires Alive(s) && Yields(e) && LegalPriorities(s) && NobodyStarves(s) && s.current in s.pd
    requires s.pd[s.current].state == RUNNING
    requires q in s.order && q in s.pd && q != s.current && s.pd[q].state == READY && s.pd[q].pri <= s.pd[s.current].pri
    ensures Step(s, e).Some? && TurnPasses(GivenUp(s), Step(s, e).value, s.current)
  {
    hide Alive, Step, GivenUp, Passes, ListShape, NobodyStarves, TickHandler;
    var k := RunningYields(s, e);
    GivesUp(s);
    TurnTaken(GivenUp(s), k, Step(s, e).value, s.current, q);
  }

  // ----- who asks for a switch

  lemma {:induction false} SendKeepsSwitch(w: Box, p: Pid, m: Mail)
    requires w.Ok() && p in w.pd
    ensures SendInternal(w, p, m, false).0.cswitch == w.cswitch
    decreases w.Waiting(), 1
  {
    var w1 := w.(mb := w.mb.(mails := w.mb.mails + [m]));
    if |w.mb.mails| < w.mb.capacity && w1.mb.recv != [] { RecvQueueKeepsSwitch(w1); }
  }

  lemma {:induction false} RecvQueueKeepsSwitch(w: Box)
    requires w.Ok()
    ensures RecvFromQueue(w).cswitch == w.cswitch
    decreases w.Waiting(), 0
  {
    if w.mb.recv != [] && w.mb.mails != [] {
      var p := w.mb.recv[0];
      var w1 := w.(mb := w.mb.(recv := w.mb.recv[1..]));
      if w1.pd[p].state == WAIT_MAILBOX {
        RecvKeepsSwitch(w1, p);
        var w2 := RecvInternal(w1, p, p, false).0;
        RecvQueueKeepsSwitch(w2.SetState(p, READY));
      }
    }
  }

  lemma {:induction false} RecvKeepsSwitch(w: Box, p: Pid)
    requires w.Ok() && p in w.pd
    ensures RecvInternal(w, p, p, false).0.cswitch == w.cswitch
    decreases w.Waiting(), 1
  {
    if w.mb.mails != [] {
      var m := w.mb.mails[0];
      var w1 := w.(mb := w.mb.(mails := w.mb.mails[1..], delivered := w.mb.delivered + [m]),
                   pd := w.pd[p := w.pd[p].(dest := m)]);
      if w1.mb.send != [] { SendQueueKeepsSwitch(w1); }
    }
  }

  lemma {:induction false} SendQueueKeepsSwitch(w: Box)
    requires w.Ok()
    ensures SendFromQueue(w).cswitch == w.cswitch
    decreases w.Waiting(), 0
  {
    if w.mb.send != [] && |w.mb.mails| < w.mb.capacity {
      var p := w.mb.send[0];
      var w1 := w.(mb := w.mb.(send := w.mb.send[1..]));
      if w1.pd[p].state == WAIT_MAILBOX {
        SendKeepsSwitch(w1, p, MailOf(p, w1.pd[p]));
        var w2 := SendInternal(w1, p, MailOf(p, w1.pd[p]), false).0;
        SendQueueKeepsSwitch(w2.SetState(p, READY));
      }
    }
  }

  lemma SendSwitches(w: Box, p: Pid, m: Mail, blocking: bool)
    requires w.Ok() && p in w.pd
    ensures var (w', retval) := SendInternal(w, p, m, blocking);
      w'.cswitch == (w.cswitch || retval == -1) && (retval == -1 ==> p in w'.pd && w'.pd[p].state == WAIT_MAILBOX)
  {
    SendKeepsSwitch(w, p, m);
  }

  lemma RecvSwitches(w: Box, p: Pid, blocking: bool)
    requires w.Ok() && p in w.pd
    ensures var (w', retval) := RecvInternal(w, p, p, blocking);
      w'.cswitch == (w.cswitch || retval == -1) && (retval == -1 ==> p in w'.pd && w'.pd[p].state == WAIT_MAILBOX)
  {
    RecvKeepsSwitch(w, p);
  }

  /** Unlocking passes the mutex on to a task that waits for it. */
  predicate PassesMutex(s: KState, r: Request) {
    && r.MutUnlock? && 1 <= r.id <= |s.muts|
    && var m := s.muts[r.id - 1];
       m.owner == s.current && m.lockCount <= 1 && m.waiters != []
       && m.waiters[0] in s.pd && s.pd[m.waiters[0]].state == WAIT_MUTEX
  }

  /** A switch is asked for if and only if the caller has stopped, or has passed on a mutex. */
  ghost predicate SwitchesRightly(s: KState, r: Request, h: KState) {
    var c := s.current;
    && c in h.pd && (h.cswitch <==> !Awake(h.pd[c]) || PassesMutex(s, r))
    && (PassesMutex(s, r) ==> h.pd[c].state == READY)
  }

  lemma BoxSwitches(i: KState, r: Request, id: nat, w: Box, retval: int)
    requires i.current in i.pd && Awake(i.pd[i.current]) && !i.cswitch && !r.MutUnlock? && 1 <= id <= |i.mbs|
    requires i.current in w.pd && w.cswitch == (retval == -1) && retval >= -1
    requires if retval == -1 then w.pd[i.current].state == WAIT_MAILBOX else Handled(i.pd[i.current], w.pd[i.current])
    ensures SwitchesRightly(i, r, Finish(WithBox(i, id, w), retval))
  {
  }

  lemma MailSwitches(i: KState, r: Request, anchor: nat)
    requires i.current in i.pd && ObjectShape(i) && Awake(i.pd[i.current]) && !i.cswitch && (r.MbSend? || r.MbRecv?)
    ensures SwitchesRightly(i, r, Handle(i, r, anchor))
  {
    var c := i.current;
    hide SwitchesRightly, Finish, Handled, RecvFromQueue, SendFromQueue, Stays;
    if !(1 <= r.id <= |i.mbs|) {
      NoMailSwitches(i, r, anchor);
    } else if r.MbSend? {
      var w, m := BoxAt(i, r.id), Mail(r.body, r.size, c);
      SendSwitches(w, c, m, r.blocking);
      var (w', retval) := SendInternal(w, c, m, r.blocking);
      BoxSwitches(i, r, r.id, w', retval);
    } else {
      var w := BoxAt(i, r.id);
      RecvSwitches(w, c, r.blocking);
      var (w', retval) := RecvInternal(w, c, c, r.blocking);
      BoxSwitches(i, r, r.id, w', retval);
    }
  }

  lemma NoMailSwitches(i: KState, r: Request, anchor: nat)
    requires i.current in i.pd && ObjectShape(i) && Awake(i.pd[i.current]) && !i.cswitch && (r.MbSend? || r.MbRecv?)
    requires !(1 <= r.id <= |i.mbs|)
    ensures SwitchesRightly(i, r, Handle(i, r, anchor))
  {
    hide ObjectShape, Stays, SendInternal, RecvInternal;
  }

  lemma GiveSwitches(i: KState, id: nat, amount: int)
    requires i.current in i.pd && ObjectShape(i) && Awake(i.pd[i.current]) && !i.cswitch
    ensures SwitchesRightly(i, SemGive(id, amount), SemaphoreGive(i, id, amount))
  {
    if 1 <= id <= |i.sems| {
      var m1 := Given(i.sems[id - 1], amount);
      assert SemShape(i.sems[id - 1], i.pd) && SemShape(m1, i.pd);
      DrainShape(m1, i.pd);
      assert i.current in Drain(m1, i.pd).pd.Keys;
    }
  }

  lemma UnlockSwitches(i: KState, id: nat)
    requires i.current in i.pd && ObjectShape(i) && Awake(i.pd[i.current]) && !i.cswitch
    ensures SwitchesRightly(i, MutUnlock(id), Unlock(i, id))
  {
    if 1 <= id <= |i.muts| {
      var m := i.muts[id - 1];
      assert MutShape(m, i.pd) && (m.waiters != [] ==> m.waiters[0] in m.waiters);
    }
    hide ObjectShape, AllReleased, Stays, SafeRelease, Without, MutShape;
  }

  lemma TaskSwitches(i: KState, r: Request, anchor: nat)
    requires i.current in i.pd && ObjectShape(i) && Awake(i.pd[i.current]) && !i.cswitch && i.lastPid + 1 !in i.pd
    requires r.TaskCreate? || r.TaskTerminate? || r.TaskSuspend? || r.TaskResume? || r.TaskSleep? || r.MutLock?
             || r.SemGet?
    ensures SwitchesRightly(i, r, Handle(i, r, anchor))
  {
    hide ObjectShape, Stays, AllReleased, SafeRelease;
  }

  lemma RestSwitches(i: KState, r: Request, anchor: nat)
    requires i.current in i.pd && ObjectShape(i) && Awake(i.pd[i.current]) && !i.cswitch
    requires r.EgCreate? || r.EgSetBits? || r.EgClearBits? || r.EgWaitBits? || r.MutCreate? || r.SemCreate?
             || r.MbCreate? || r.MbCheck? || r.Invalid? || r.TaskYield? || r.NoRequest?
    ensures SwitchesRightly(i, r, Handle(i, r, anchor))
  {
    hide ObjectShape, Stays, AllReleased, Satisfied;
  }

  lemma HandleSwitches(i: KState, r: Request, anchor: nat)
    requires i.current in i.pd && ObjectShape(i) && Awake(i.pd[i.current]) && !i.cswitch && i.lastPid + 1 !in i.pd
    ensures SwitchesRightly(i, r, Handle(i, r, anchor))
  {
    hide ObjectShape, SwitchesRightly;
    if r.MutUnlock? { UnlockSwitches(i, r.id); }
    else if r.SemGive? { GiveSwitches(i, r.id, r.amount); }
    else if r.MbSend? || r.MbRecv? { MailSwitches(i, r, anchor); }
    else if r.TaskCreate? || r.TaskTerminate? || r.TaskSuspend? || r.TaskResume? || r.TaskSleep? || r.MutLock?
      || r.SemGet? {
      TaskSwitches(i, r, anchor);
    } else {
      RestSwitches(i, r, anchor);
    }
  }

  lemma IssueSwitches(s: KState, r: Request, h: KState)
    requires s.current in s.pd && Awake(s.pd[s.current]) && SwitchesRightly(Issue(s, r), r, h)
    ensures SwitchesRightly(s, r, h)
  {
  }

  /** After any request: a switch is asked for if and only if the caller sleeps, waits or has terminated, or it has
      passed a mutex on to a task that waited for it, and then it is READY. */
  lemma SwitchMeaning(s: KState, r: Request, anchor: nat)
    requires Alive(s) && s.current in s.pd && Awake(s.pd[s.current])
    ensures SwitchesRightly(s, r, Called(s, r, anchor))
  {
    var i := Issue(s, r);
    IssueShape(s, r);
    assert i.lastPid + 1 !in i.pd && Awake(i.pd[i.current]) && !i.cswitch && ObjectShape(i);
    hide ListShape, ObjectShape, Handle, Issue, SwitchesRightly;
    HandleSwitches(i, r, anchor);
    IssueSwitches(s, r, Called(s, r, anchor));
  }
}
