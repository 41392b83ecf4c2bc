/** Units of a counting semaphore are conserved over whole runs. */
module SemaphoreLaws {
  import opened KernelTypes
  import opened KernelState
  import opened Requests
  import opened ShapeProofs
  import opened MainLoop
  import opened Invariants
  import opened Semaphores
  import opened TameRuns
  import opened StepScope

  /** What is left of the units given so far if everybody who waits were served as well. */
  function Level(s: KState, id: nat): int
    requires 1 <= id <= |s.sems|
  {
    s.sems[id - 1].count - Wanted(s.sems[id - 1].waiters, s.pd)
  }

  function UnitsNow(e: Event, id: nat): int {
    if e.Call? && e.request.SemGive? && e.request.id == id then e.request.amount
    else if e.Call? && e.request.SemGet? && e.request.id == id then -e.request.amount
    else 0
  }

  /** Units given minus units asked for in a run. */
  function Units(s: KState, es: seq<Event>, id: nat): int
    requires Alive(s)
    decreases |es|
  {
    if es == [] then 0
    else UnitsNow(es[0], id) + if Step(s, es[0]).Some? then Units(Step(s, es[0]).value, es[1..], id) else 0
  }

  lemma WantedAppend(q: seq<Pid>, p: Pid, pd: map<Pid, PD>)
    requires p in pd
    ensures Wanted(q + [p], pd) == Wanted(q, pd) + Amount(pd[p])
  {
    WantedSplit(q + [p], |q|, pd);
    assert (q + [p])[..|q|] == q && (q + [p])[|q|..] == [p];
    assert [p][1..] == [];
  }

  lemma GetLevel(i: KState, id: nat, amount: int)
    requires i.current in i.pd && 1 <= id <= |i.sems| && !i.sems[id - 1].binary
    requires SemShape(i.sems[id - 1], i.pd) && i.current !in i.sems[id - 1].waiters
    ensures |SemaphoreGet(i, id, amount).sems| == |i.sems|
    ensures Level(SemaphoreGet(i, id, amount), id) == Level(i, id) - amount
    ensures !SemaphoreGet(i, id, amount).sems[id - 1].binary
  {
    var h, m := SemaphoreGet(i, id, amount), i.sems[id - 1];
    WantedSame(m.waiters, i.pd, h.pd);
    WantedAppend(m.waiters, i.current, h.pd);
  }

  /** What the rest of a queue wants, when its first k tasks have been served and nobody's arguments change. */
  lemma RestWants(q: seq<Pid>, k: nat, pd: map<Pid, PD>, pd': map<Pid, PD>)
    requires k <= |q| && Woke(pd, pd', q[..k]) && forall p :: p in q ==> p in pd
    ensures Wanted(q[k..], pd') == Wanted(q, pd) - Wanted(q[..k], pd)
  {
    WantedSplit(q, k, pd);
    forall p | p in q[k..] ensures p in pd && p in pd' && pd'[p].args == pd[p].args {
      assert p in q && p in pd.Keys;
    }
    WantedSame(q[k..], pd, pd');
  }

  lemma GiveLevel(i: KState, id: nat, amount: int)
    requires ObjectShape(i) && 1 <= id <= |i.sems| && !i.sems[id - 1].binary && amount >= 0
    requires var m := i.sems[id - 1]; SemServed(m, i.pd) && AllWaiting(m.waiters, i.pd)
    ensures |SemaphoreGive(i, id, amount).sems| == |i.sems|
    ensures Level(SemaphoreGive(i, id, amount), id) == Level(i, id) + amount
    ensures !SemaphoreGive(i, id, amount).sems[id - 1].binary
  {
    var h, m := SemaphoreGive(i, id, amount), i.sems[id - 1];
    assert SemShape(m, i.pd);
    hide ObjectShape, SemServed, AllWaiting, Wanted, SemaphoreGive, Woke;
    var k := GiveMeaning(i, id, amount);
    RestWants(m.waiters, k, i.pd, h.pd);
  }

  lemma OtherSemaphore(i: KState, r: Request, anchor: nat, id: nat)
    requires i.current in i.pd && ObjectShape(i) && 1 <= id <= |i.sems| && !((r.SemGet? || r.SemGive?) && r.id == id)
    ensures id <= |Handle(i, r, anchor).sems| && Handle(i, r, anchor).sems[id - 1] == i.sems[id - 1]
  {
    if !(r.SemGet? || r.SemGive?) { HandleScope(i, r, anchor); }
  }

  lemma LevelKept(s: KState, s': KState, id: nat)
    requires 1 <= id <= |s.sems| && id <= |s'.sems| && s'.sems[id - 1] == s.sems[id - 1]
    requires SemShape(s.sems[id - 1], s.pd) && ArgsKept(s, s', s.current) && s.current !in s.sems[id - 1].waiters
    ensures Level(s', id) == Level(s, id)
  {
    WantedSame(s.sems[id - 1].waiters, s.pd, s'.pd);
  }

  lemma HandleLevel(i: KState, r: Request, anchor: nat, id: nat)
    requires Shape(i) && i.current in i.pd && Awake(i.pd[i.current]) && TameRequest(i, r)
    requires Agree(i) && SemsServed(i) && 1 <= id <= |i.sems| && !i.sems[id - 1].binary
    ensures var h := Handle(i, r, anchor);
      id <= |h.sems| && !h.sems[id - 1].binary && Level(h, id) == Level(i, id) + UnitsNow(Call(r, anchor, []), id)
  {
    SemWaiters(i, id - 1);
    assert SemShape(i.sems[id - 1], i.pd) && SemServed(i.sems[id - 1], i.pd);
    if r.SemGet? && r.id == id {
      GetLevel(i, id, r.amount);
    } else if r.SemGive? && r.id == id {
      GiveLevel(i, id, r.amount);
    } else {
      assert i.lastPid + 1 !in i.pd;
      OtherSemaphore(i, r, anchor, id);
      HandleArgs(i, r, anchor);
      LevelKept(i, Handle(i, r, anchor), id);
    }
  }

  lemma IssueLevel(s: KState, r: Request, id: nat)
    requires s.current in s.pd && Awake(s.pd[s.current]) && ObjectShape(s) && Agree(s) && SemsServed(s)
    requires 1 <= id <= |s.sems|
    ensures var i := Issue(s, r); Agree(i) && SemsServed(i) && Level(i, id) == Level(s, id)
  {
    var i := Issue(s, r);
    IssueAgree(s, r);
    SemWaiters(s, id - 1);
    assert SemShape(s.sems[id - 1], s.pd);
    LevelKept(s, i, id);
    forall j | 0 <= j < |i.sems| ensures SemServed(i.sems[j], i.pd) {
      SemWaiters(s, j);
      assert SemServed(s.sems[j], s.pd) && SemShape(s.sems[j], s.pd);
    }
  }

  lemma IssueAgree(s: KState, r: Request)
    requires s.current in s.pd && Awake(s.pd[s.current]) && Agree(s)
    ensures Agree(Issue(s, r))
  {
    var i := Issue(s, r);
    assert forall pl :: QueueAt(i, pl) == QueueAt(s, pl);
    AgreeFrame(s, i);
  }

  lemma CalledLevel(s: KState, r: Request, anchor: nat, id: nat)
    requires Alive(s) && Inv(s) && s.current in s.pd && TameRequest(s, r)
    requires 1 <= id <= |s.sems| && !s.sems[id - 1].binary
    ensures var h := Called(s, r, anchor);
      id <= |h.sems| && !h.sems[id - 1].binary && Level(h, id) == Level(s, id) + UnitsNow(Call(r, anchor, []), id)
  {
    IssueShape(s, r);
    IssueLevel(s, r, id);
    HandleLevel(Issue(s, r), r, anchor, id);
  }

  lemma SwitchLevel(h: KState, s': KState, id: nat)
    requires ObjectShape(h) && SameObjects(h, s') && 1 <= id <= |h.sems|
    ensures Level(s', id) == Level(h, id)
  {
    assert SemShape(h.sems[id - 1], h.pd);
    WantedSame(h.sems[id - 1].waiters, h.pd, s'.pd);
  }

  lemma StepLevel(s: KState, e: Event, id: nat)
    requires Alive(s) && Inv(s) && Tame(s, e) && Step(s, e).Some? && 1 <= id <= |s.sems| && !s.sems[id - 1].binary
    ensures var s' := Step(s, e).value;
      id <= |s'.sems| && !s'.sems[id - 1].binary && Level(s', id) == Level(s, id) + UnitsNow(e, id)
  {
    if e.Call? {
      assert s.current in s.order && s.current in s.pd;
      CalledLevel(s, e.request, e.anchor, id);
      StepObjects(s, e);
      SwitchLevel(Called(s, e.request, e.anchor), Step(s, e).value, id);
    }
  }

  /** count + everything granted == initial count + everything given: what was asked for is either
      granted or still waiting. */
  lemma {:induction false} UnitsAreConserved(s: KState, es: seq<Event>, id: nat)
    requires Alive(s) && Inv(s) && Along(s, es, Tame) && Exec(s, es).Some?
    requires 1 <= id <= |s.sems| && !s.sems[id - 1].binary
    ensures id <= |Exec(s, es).value.sems| && Level(Exec(s, es).value, id) == Level(s, id) + Units(s, es, id)
    decreases |es|
  {
    if es != [] {
      StepLevel(s, es[0], id);
      StepSound(s, es[0]);
      UnitsAreConserved(Step(s, es[0]).value, es[1..], id);
    }
  }

  // ----- what was granted

  function GivenNow(e: Event, id: nat): int {
    if e.Call? && e.request.SemGive? && e.request.id == id then e.request.amount else 0
  }

  /** The units that change hands while the queue turns from q into q': a get that does not queue up
      takes its amount, and a give serves whoever leaves the queue. */
  function Taken(r: Request, id: nat, q: seq<Pid>, q': seq<Pid>, pd: map<Pid, PD>): int {
    if r.SemGet? && r.id == id && |q'| == |q| then r.amount
    else if r.SemGive? && r.id == id && |q'| <= |q| then Wanted(q[..|q| - |q'|], pd)
    else 0
  }

  function GrantedNow(s: KState, e: Event, s': KState, id: nat): int
    requires 1 <= id <= |s.sems| && id <= |s'.sems|
  {
    if e.Call? then Taken(e.request, id, s.sems[id - 1].waiters, s'.sems[id - 1].waiters, s.pd) else 0
  }

  /** Units given in a run. */
  function GivenUnits(s: KState, es: seq<Event>, id: nat): int
    requires Alive(s)
    decreases |es|
  {
    if es == [] || Step(s, es[0]).None? then 0
    else GivenNow(es[0], id) + GivenUnits(Step(s, es[0]).value, es[1..], id)
  }

  /** Units granted in a run, at once or to tasks that had to wait. */
  function GrantedUnits(s: KState, es: seq<Event>, id: nat): int
    requires Alive(s)
    decreases |es|
  {
    if es == [] || Step(s, es[0]).None? || !(1 <= id <= |s.sems| && id <= |Step(s, es[0]).value.sems|) then 0
    else GrantedNow(s, es[0], Step(s, es[0]).value, id) + GrantedUnits(Step(s, es[0]).value, es[1..], id)
  }

  lemma GetTakes(i: KState, id: nat, amount: int)
    requires i.current in i.pd && 1 <= id <= |i.sems| && !i.sems[id - 1].binary
    ensures |SemaphoreGet(i, id, amount).sems| == |i.sems|
    ensures var m, m' := i.sems[id - 1], SemaphoreGet(i, id, amount).sems[id - 1];
      m'.count + Taken(SemGet(id, amount), id, m.waiters, m'.waiters, i.pd) == m.count
  {
  }

  lemma GiveTakes(i: KState, id: nat, amount: int)
    requires ObjectShape(i) && 1 <= id <= |i.sems| && !i.sems[id - 1].binary && amount >= 0
    requires var m := i.sems[id - 1]; SemServed(m, i.pd) && AllWaiting(m.waiters, i.pd)
    ensures |SemaphoreGive(i, id, amount).sems| == |i.sems|
    ensures var m, m' := i.sems[id - 1], SemaphoreGive(i, id, amount).sems[id - 1];
      m'.count + Taken(SemGive(id, amount), id, m.waiters, m'.waiters, i.pd) == m.count + amount
  {
    hide SemServed, AllWaiting;
    assert SemShape(i.sems[id - 1], i.pd);
    var k := GiveMeaning(i, id, amount);
  }

  lemma HandleTakes(i: KState, r: Request, anchor: nat, id: nat)
    requires Shape(i) && i.current in i.pd && TameRequest(i, r)
    requires Agree(i) && SemsServed(i) && 1 <= id <= |i.sems| && !i.sems[id - 1].binary
    ensures var h := Handle(i, r, anchor);
      id <= |h.sems| &&
      h.sems[id - 1].count + Taken(r, id, i.sems[id - 1].waiters, h.sems[id - 1].waiters, i.pd) ==
      i.sems[id - 1].count + GivenNow(Call(r, anchor, []), id)
  {
    SemWaiters(i, id - 1);
    assert SemShape(i.sems[id - 1], i.pd) && SemServed(i.sems[id - 1], i.pd);
    if r.SemGet? && r.id == id {
      GetTakes(i, id, r.amount);
    } else if r.SemGive? && r.id == id {
      GiveTakes(i, id, r.amount);
    } else {
      OtherSemaphore(i, r, anchor, id);
    }
  }

  lemma TakenSame(r: Request, id: nat, q: seq<Pid>, q': seq<Pid>, pd: map<Pid, PD>, pd': map<Pid, PD>)
    requires forall p :: p in q ==> p in pd && p in pd' && pd'[p].args == pd[p].args
    ensures Taken(r, id, q, q', pd') == Taken(r, id, q, q', pd)
  {
    if |q'| <= |q| { WantedSame(q[..|q| - |q'|], pd, pd'); }
  }

  lemma IssueKeeps(s: KState, r: Request, id: nat)
    requires Alive(s) && Inv(s) && s.current in s.pd && 1 <= id <= |s.sems|
    ensures var i := Issue(s, r);
      && Shape(i) && Agree(i) && SemsServed(i) && i.current == s.current && s.current in i.pd && i.sems == s.sems
      && (forall p :: p in s.sems[id - 1].waiters ==> p in s.pd && p in i.pd && i.pd[p].args == s.pd[p].args)
  {
    IssueShape(s, r);
    IssueLevel(s, r, id);
    SemWaiters(s, id - 1);
    hide Shape, SemsServed, Timers, MutsFair, MbsSettled, PrioritiesKept, Agree;
  }

  lemma CalledTakes(s: KState, r: Request, anchor: nat, id: nat)
    requires Alive(s) && Inv(s) && s.current in s.pd && TameRequest(s, r)
    requires 1 <= id <= |s.sems| && !s.sems[id - 1].binary
    ensures var h := Called(s, r, anchor);
      id <= |h.sems| &&
      h.sems[id - 1].count + Taken(r, id, s.sems[id - 1].waiters, h.sems[id - 1].waiters, s.pd) ==
      s.sems[id - 1].count + GivenNow(Call(r, anchor, []), id)
  {
    hide Alive, Inv, Issue, Handle, Taken, Shape, SemsServed, Agree, GivenNow, TameRequest;
    var i := Issue(s, r);
    IssueKeeps(s, r, id);
    RequestTame(s, i, r);
    HandleTakes(i, r, anchor, id);
    TakenSame(r, id, s.sems[id - 1].waiters, Called(s, r, anchor).sems[id - 1].waiters, s.pd, i.pd);
  }

  lemma RequestTame(s: KState, i: KState, r: Request)
    requires s.current in s.pd && i.current in i.pd && TameRequest(s, r)
    ensures TameRequest(i, r)
  {
  }

  lemma StepTakes(s: KState, e: Event, id: nat)
    requires Alive(s) && Inv(s) && Tame(s, e) && Step(s, e).Some? && 1 <= id <= |s.sems| && !s.sems[id - 1].binary
    ensures var s' := Step(s, e).value;
      id <= |s'.sems| &&
      s'.sems[id - 1].count + GrantedNow(s, e, s', id) == s.sems[id - 1].count + GivenNow(e, id)
  {
    if e.Call? {
      assert s.current in s.order && s.current in s.pd;
      CalledTakes(s, e.request, e.anchor, id);
      StepObjects(s, e);
      hide Called, Step, Taken;
    }
  }

  /** In every tame run: what is left plus what was granted is what was there plus what was given. */
  lemma {:induction false} GrantsAreCovered(s: KState, es: seq<Event>, id: nat)
    requires Alive(s) && Inv(s) && Along(s, es, Tame) && Exec(s, es).Some?
    requires 1 <= id <= |s.sems| && !s.sems[id - 1].binary
    ensures id <= |Exec(s, es).value.sems|
    ensures Exec(s, es).value.sems[id - 1].count + GrantedUnits(s, es, id) ==
      s.sems[id - 1].count + GivenUnits(s, es, id)
    decreases |es|
  {
    hide GrantedNow, GivenNow, Inv, Tame, Level, UnitsNow;
    if es != [] {
      StepTakes(s, es[0], id);
      StepLevel(s, es[0], id);
      StepSound(s, es[0]);
      GrantsAreCovered(Step(s, es[0]).value, es[1..], id);
    }
  }

  /** From boot, in every tame run: the count is not negative, at most 1 when binary, and less than
      what the head of the queue waits for. */
  lemma HeadIsNeverStranded(cs: seq<Creation>, batches: seq<nat>, es: seq<Event>, id: nat)
    requires forall c :: c in cs ==> LegalCreation(c)
    requires Start(cs, batches).Some? && Along(Start(cs, batches).value, es, Tame)
    requires Exec(Start(cs, batches).value, es).Some?
    ensures var s := Exec(Start(cs, batches).value, es).value;
      1 <= id <= |s.sems| ==>
        var m := s.sems[id - 1];
        && m.count >= 0 && (m.binary ==> m.count <= 1)
        && (m.waiters != [] ==> m.waiters[0] in s.pd && m.count < Amount(s.pd[m.waiters[0]]))
  {
    hide Start, Exec, Along, Inv, Amount;
    AlwaysSound(cs, batches, es);
    var s := Exec(Start(cs, batches).value, es).value;
    if 1 <= id <= |s.sems| { HeadUnserved(s, id); }
  }

  lemma HeadUnserved(s: KState, id: nat)
    requires Inv(s) && 1 <= id <= |s.sems|
    ensures var m := s.sems[id - 1];
      && m.count >= 0 && (m.binary ==> m.count <= 1)
      && (m.waiters != [] ==> m.waiters[0] in s.pd && m.count < Amount(s.pd[m.waiters[0]]))
  {
    SemWaiters(s, id - 1);
    assert SemServed(s.sems[id - 1], s.pd);
    assert s.sems[id - 1].waiters != [] ==> s.sems[id - 1].waiters[0] in s.sems[id - 1].waiters;
  }
}
