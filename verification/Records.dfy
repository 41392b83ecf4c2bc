/** What a step does to a task's priority, its priority at creation, and its record of safe releases. */
module Records {
  import opened KernelTypes
  import opened KernelState
  import opened Requests
  import opened Scheduler
  import opened ShapeProofs
  import opened MainLoop
  import opened Mutexes

  /** The priority of p after a request of the current task: only lock and unlock change one. */
  function PriAfter(s: KState, r: Request, p: Pid): nat
    requires p in s.pd
  {
    var d := s.pd[p];
    if r.MutLock? && 1 <= r.id <= |s.muts| && p == s.current && s.muts[r.id - 1].owner !in {0, p} then
      Min(s.muts[r.id - 1].highest, d.pri)
    else if r.MutUnlock? && Releases(s, r.id) then
      var m := s.muts[r.id - 1];
      if m.waiters != [] && p == m.waiters[0] && d.state == WAIT_MUTEX then m.highest
      else if p == s.current then m.ownerOrig
      else d.pri
    else d.pri
  }

  predicate OrderlyAfter(s: KState, r: Request, p: Pid)
    requires p in s.pd
  {
    s.pd[p].orderly && (r.MutUnlock? && p == s.current && Releases(s, r.id) ==> SafeRelease(s, r.id))
  }

  /** The record of p in s' is the one just described; a new task starts with a clean one. */
  predicate Follows(s: KState, r: Request, s': KState, p: Pid) {
    if p in s.pd then
      && p in s'.pd && s'.pd[p].base == s.pd[p].base
      && s'.pd[p].pri == PriAfter(s, r, p) && s'.pd[p].orderly == OrderlyAfter(s, r, p)
    else p in s'.pd ==> s'.pd[p].orderly && s'.pd[p].pri == s'.pd[p].base
  }

  /** The same record, and the same tasks. */
  predicate Kept(s: KState, s': KState, p: Pid) {
    && (p in s.pd <==> p in s'.pd)
    && (p in s.pd && p in s'.pd ==>
          s'.pd[p].base == s.pd[p].base && s'.pd[p].pri == s.pd[p].pri && s'.pd[p].orderly == s.pd[p].orderly)
  }

  lemma KeptFollows(s: KState, r: Request, s': KState, p: Pid)
    requires Kept(s, s', p) && !r.MutLock? && !r.MutUnlock?
    ensures Follows(s, r, s', p)
  {
  }

  lemma FollowsKept(s: KState, r: Request, h: KState, s': KState, p: Pid)
    requires Follows(s, r, h, p) && Kept(h, s', p)
    ensures Follows(s, r, s', p)
  {
  }

  // ----- handlers

  lemma BoxRecord(i: KState, id: nat, w: Box, p: Pid)
    requires 1 <= id <= |i.mbs| && AllHandled(i.pd, w.pd)
    ensures Kept(i, WithBox(i, id, w), p)
  {
    assert p in i.pd <==> p in i.pd.Keys;
    assert p in w.pd <==> p in w.pd.Keys;
    if p in w.pd { assert Handled(i.pd[p], w.pd[p]); }
  }

  lemma MailRecord(i: KState, r: Request, anchor: nat, p: Pid)
    requires i.current in i.pd && ObjectShape(i) && (r.MbSend? || r.MbRecv?)
    ensures Kept(i, Handle(i, r, anchor), p)
  {
    if 1 <= r.id <= |i.mbs| {
      var (w, retval) :=
        if r.MbSend? then SendInternal(BoxAt(i, r.id), i.current, Mail(r.body, r.size, i.current), r.blocking)
        else RecvInternal(BoxAt(i, r.id), i.current, i.current, r.blocking);
      if retval != -1 { BoxRecord(i, r.id, w, p); }
    }
  }

  lemma GiveRecord(i: KState, id: nat, amount: int, p: Pid)
    requires ObjectShape(i)
    ensures Kept(i, SemaphoreGive(i, id, amount), p)
  {
    if 1 <= id <= |i.sems| {
      var m1 := Given(i.sems[id - 1], amount);
      assert SemShape(i.sems[id - 1], i.pd) && SemShape(m1, i.pd);
      DrainShape(m1, i.pd);
      assert p in i.pd <==> p in i.pd.Keys;
      assert p in Drain(m1, i.pd).pd <==> p in Drain(m1, i.pd).pd.Keys;
    }
  }

  lemma TaskRecord(i: KState, r: Request, anchor: nat, p: Pid)
    requires i.current in i.pd && ObjectShape(i) && i.lastPid + 1 !in i.pd
    requires r.TaskCreate? || r.TaskTerminate? || r.TaskSuspend? || r.TaskResume? || r.TaskSleep? || r.SemGet?
    ensures Follows(i, r, Handle(i, r, anchor), p)
  {
    hide ObjectShape, Stays, AllReleased, SafeRelease;
  }

  lemma RestRecord(i: KState, r: Request, anchor: nat, p: Pid)
    requires i.current in i.pd && ObjectShape(i)
    requires r.EgCreate? || r.EgSetBits? || r.EgClearBits? || r.EgWaitBits? || r.MutCreate? || r.SemCreate?
             || r.MbCreate? || r.MbCheck? || r.Invalid? || r.TaskYield? || r.NoRequest?
    ensures Kept(i, Handle(i, r, anchor), p)
  {
    hide ObjectShape, Stays, AllReleased, Satisfied;
  }

  lemma LockRecord(i: KState, id: nat, p: Pid)
    requires i.current in i.pd
    ensures Follows(i, MutLock(id), Lock(i, id), p)
  {
    hide SafeRelease;
  }

  /** A full unlock after the owner has given up the mutex and before it is passed on. */
  function Surrendered(i: KState, id: nat): KState
    requires i.current in i.pd && 1 <= id <= |i.muts|
  {
    var m, d := i.muts[id - 1], i.pd[i.current];
    WithMut(WithCur(i, d.(pri := m.ownerOrig, held := Without(d.held, id), orderly := d.orderly && SafeRelease(i, id))),
            id, m.(lockCount := 0))
  }

  lemma HandOffRecord(s: KState, id: nat, p: Pid)
    requires s.current in s.pd && 1 <= id <= |s.muts| && p in s.pd
    requires s.muts[id - 1].waiters != [] && s.muts[id - 1].waiters[0] in s.pd
    ensures var s', m, d := HandOff(s, id), s.muts[id - 1], s.pd[p];
      && p in s'.pd && s'.pd[p].base == d.base && s'.pd[p].orderly == d.orderly
      && s'.pd[p].pri == if p == m.waiters[0] && d.state == WAIT_MUTEX then m.highest else d.pri
  {
    hide AllReleased, Stays;
  }

  lemma UnlockPasses(i: KState, id: nat)
    requires i.current in i.pd && ObjectShape(i) && Releases(i, id)
    ensures var s, m := Surrendered(i, id), i.muts[id - 1];
      if m.waiters == [] then Unlock(i, id) == WithMut(s, id, s.muts[id - 1].(owner := 0))
      else m.waiters[0] in i.pd && m.waiters[0] in s.pd && Unlock(i, id) == HandOff(s, id)
  {
    var m := i.muts[id - 1];
    assert MutShape(m, i.pd) && (m.waiters != [] ==> m.waiters[0] in m.waiters);
    hide ObjectShape, AllReleased, Stays, SafeRelease, Without, HandOff;
  }

  lemma SurrenderRecord(i: KState, id: nat, p: Pid)
    requires i.current in i.pd && 1 <= id <= |i.muts| && p in i.pd
    ensures var s, m, d := Surrendered(i, id), i.muts[id - 1], i.pd[p];
      && p in s.pd && s.pd[p].base == d.base && s.pd[p].state == d.state && s.current == i.current
      && s.pd[p].pri == (if p == i.current then m.ownerOrig else d.pri)
      && s.pd[p].orderly == (d.orderly && (p == i.current ==> SafeRelease(i, id)))
      && |s.muts| == |i.muts| && s.muts[id - 1] == m.(lockCount := 0) && s.current in s.pd
  {
    hide SafeRelease, Without;
  }

  lemma ReleaseRecord(i: KState, id: nat, p: Pid)
    requires i.current in i.pd && ObjectShape(i) && Releases(i, id) && p in i.pd
    ensures Follows(i, MutUnlock(id), Unlock(i, id), p)
  {
    hide ObjectShape, AllReleased, Stays, SafeRelease, HandOff, Unlock, Surrendered;
    UnlockPasses(i, id);
    SurrenderRecord(i, id, p);
    if i.muts[id - 1].waiters != [] { HandOffRecord(Surrendered(i, id), id, p); }
  }

  lemma UnlockRecord(i: KState, id: nat, p: Pid)
    requires i.current in i.pd && ObjectShape(i)
    ensures Follows(i, MutUnlock(id), Unlock(i, id), p)
  {
    assert p in i.pd <==> p in i.pd.Keys;
    assert p in Unlock(i, id).pd <==> p in Unlock(i, id).pd.Keys;
    hide AllReleased, ObjectShape, Stays, SafeRelease, Without, HandOff;
    if Releases(i, id) && p in i.pd { ReleaseRecord(i, id, p); }
  }

  lemma HandleRecord(i: KState, r: Request, anchor: nat, p: Pid)
    requires i.current in i.pd && ObjectShape(i) && i.lastPid + 1 !in i.pd
    ensures Follows(i, r, Handle(i, r, anchor), p)
  {
    hide ObjectShape, Follows, Kept;
    if r.MutLock? {
      LockRecord(i, r.id, p);
    } else if r.MutUnlock? {
      UnlockRecord(i, r.id, p);
    } else if r.TaskCreate? || r.TaskTerminate? || r.TaskSuspend? || r.TaskResume? || r.TaskSleep? || r.SemGet? {
      TaskRecord(i, r, anchor, p);
    } else {
      if r.SemGive? { GiveRecord(i, r.id, r.amount, p); }
      else if r.MbSend? || r.MbRecv? { MailRecord(i, r, anchor, p); }
      else { RestRecord(i, r, anchor, p); }
      KeptFollows(i, r, Handle(i, r, anchor), p);
    }
  }

  // ----- steps

  lemma IssueRecord(s: KState, r: Request, h: KState, p: Pid)
    requires s.current in s.pd && Follows(Issue(s, r), r, h, p)
    ensures Follows(s, r, h, p)
  {
  }

  lemma CalledRecord(s: KState, r: Request, anchor: nat, p: Pid)
    requires Alive(s)
    ensures Follows(s, r, Called(s, r, anchor), p)
  {
    assert s.current in s.order && s.current in s.pd;
    IssueShape(s, r);
    assert Issue(s, r).lastPid + 1 !in Issue(s, r).pd;
    hide Follows, Handle, Issue, ListShape, ObjectShape;
    HandleRecord(Issue(s, r), r, anchor, p);
    IssueRecord(s, r, Handle(Issue(s, r), r, anchor), p);
  }

  lemma RunRecord(c: KState, k: nat, p: Pid)
    requires ListShape(c) && c.order != []
    ensures Kept(c, Run(c, k), p)
  {
    assert c.order[Visited(c, k)] in c.order;
  }

  lemma AgedRecord(h: KState, c: KState, p: Pid)
    requires OnlyAged(h, c)
    ensures Kept(h, c, p)
  {
    assert p in h.pd <==> p in h.pd.Keys;
    assert p in c.pd <==> p in c.pd.Keys;
    if p in c.pd { assert Aged(h.pd[p], c.pd[p]); }
  }

  lemma DispatchRecord(h: KState, batches: seq<nat>, p: Pid)
    requires ListShape(h) && Dispatch(h, batches).Some?
    ensures Kept(h, Dispatch(h, batches).value, p)
  {
    hide ListShape, Choice, ScanTo, Run, OnlyAged;
    var c := Choice(h, batches).value;
    AgedRecord(Requeue(h), c, p);
    RunRecord(c, Select(c), p);
  }

  lemma ShapeLists(h: KState)
    requires Shape(h)
    ensures ListShape(h)
  {
  }

  /** Over a whole step, timed or not, the record of every task follows the request. */
  lemma StepRecord(s: KState, e: Event, p: Pid)
    requires Alive(s) && Step(s, e).Some?
    ensures if e.Call? then Follows(s, e.request, Step(s, e).value, p) else Kept(s, Step(s, e).value, p)
  {
    hide Shape, Called, Dispatch, Follows;
    if e.Call? {
      var h := Called(s, e.request, e.anchor);
      CalledRecord(s, e.request, e.anchor, p);
      if Switches(h, e.request) {
        ShapeLists(h);
        DispatchRecord(h, e.batches, p);
        FollowsKept(s, e.request, h, Step(s, e).value, p);
      }
    }
  }
}
