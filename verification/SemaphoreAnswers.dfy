/** What a give and a get do to the count, the queue and the caller, on binary and on counting semaphores, and
    where the units of a binary semaphore go over whole runs. */
module SemaphoreAnswers {
  import opened KernelTypes
  import opened KernelState
  import opened Requests
  import opened ShapeProofs
  import opened MainLoop
  import opened Invariants
  import opened CalmHandlers
  import opened Semaphores
  import opened SemaphoreLaws
  import opened TameRuns
  import opened StepScope
  import opened Effects

  // ----- the requests

  /** What the tasks of a queue have stored as their amounts, in total. */
  function Asked(q: seq<Pid>, pd: map<Pid, PD>): int {
    if q == [] then 0
    else (if q[0] in pd && pd[q[0]].args.SemGet? then pd[q[0]].args.amount else 0) + Asked(q[1..], pd)
  }

  lemma AskedIsWanted(q: seq<Pid>, pd: map<Pid, PD>)
    ensures Asked(q, pd) == Wanted(q, pd)
  {
    if q != [] { AskedIsWanted(q[1..], pd); }
  }

  lemma AskedSame(q: seq<Pid>, pd: map<Pid, PD>, pd': map<Pid, PD>)
    requires forall p :: p in q ==> p in pd && p in pd' && pd'[p].args == pd[p].args
    ensures Asked(q, pd') == Asked(q, pd)
  {
    if q != [] {
      assert q[0] in q;
      AskedSame(q[1..], pd, pd');
    }
  }

  /** The tasks of `woken` are READY, and nothing else of them or of any other task but c has changed. */
  ghost predicate WokeOnly(s: KState, h: KState, c: Pid, woken: seq<Pid>) {
    && h.pd.Keys == s.pd.Keys
    && (forall p :: p in s.pd && p != c ==>
          p in h.pd && h.pd[p] == if p in woken then s.pd[p].(state := READY) else s.pd[p])
  }

  /** The first k waiters are served: their amounts are paid out of the count and what was given, of which a
      binary semaphore keeps at most one unit in all; what is left does not suffice for the next. */
  ghost predicate Paid(m: Sem, m': Sem, pd: map<Pid, PD>, amount: int, k: nat) {
    && k <= |m.waiters| && m' == m.(waiters := m.waiters[k..], count := m'.count)
    && m'.count + Asked(m.waiters[..k], pd) ==
       (if m.binary && m.count + amount > 1 then 1 else m.count + amount)
    && m'.count >= 0
    && (k < |m.waiters| ==>
          m.waiters[k] in pd && pd[m.waiters[k]].args.SemGet? && m'.count < pd[m.waiters[k]].args.amount)
  }

  lemma EnteredSemaphore(i: KState, id: nat)
    requires Entered(i) && 1 <= id <= |i.sems|
    ensures var m := i.sems[id - 1];
      && ObjectShape(i) && SemServed(m, i.pd) && SemShape(m, i.pd) && AllWaiting(m.waiters, i.pd)
      && i.current !in m.waiters && (forall p :: p in m.waiters ==> p in i.pd && i.pd[p].args.SemGet?)
  {
    SemWaiters(i, id - 1);
    assert SemServed(i.sems[id - 1], i.pd) && SemShape(i.sems[id - 1], i.pd);
  }

  lemma GavePaid(i: KState, h: KState, id: nat, amount: int, k: nat)
    requires 1 <= id <= |i.sems| && Gave(i, h, id, amount, k)
    requires var m := i.sems[id - 1]; forall p :: p in m.waiters ==> p in i.pd && i.pd[p].args.SemGet?
    ensures Paid(i.sems[id - 1], h.sems[id - 1], i.pd, amount, k)
  {
    var m := i.sems[id - 1];
    AskedIsWanted(m.waiters[..k], i.pd);
    if k < |m.waiters| {
      assert m.waiters[k] in m.waiters && h.sems[id - 1].waiters[0] == m.waiters[k];
      assert m.waiters[k] in h.pd.Keys;
    }
    hide Wanted, Asked;
  }

  lemma PaidSame(m: Sem, m': Sem, pd: map<Pid, PD>, pd': map<Pid, PD>, amount: int, k: nat)
    requires Paid(m, m', pd, amount, k)
    requires forall p :: p in m.waiters ==> p in pd && p in pd' && pd'[p].args == pd[p].args
    ensures Paid(m, m', pd', amount, k)
  {
    AskedSame(m.waiters[..k], pd, pd');
    if k < |m.waiters| { assert m.waiters[k] in m.waiters; }
    hide Asked;
  }

  lemma GaveWoke(s: KState, i: KState, h: KState, c: Pid, q: seq<Pid>, k: nat)
    requires c in s.pd && c in i.pd && i.pd == s.pd[c := i.pd[c]] && k <= |q| && c !in q
    requires Woke(i.pd, h.pd, q[..k])
    ensures WokeOnly(s, h, c, q[..k]) && c in h.pd && h.pd[c] == i.pd[c]
  {
    assert forall p :: p in s.pd <==> p in h.pd.Keys;
    assert forall p :: p in q[..k] ==> p in q;
  }

  /** What a give does: k waiters are paid and made READY, nobody else is affected, and the caller goes on. */
  ghost predicate Gives(s: KState, h: KState, id: nat, amount: int, k: nat)
    requires 1 <= id <= |s.sems|
  {
    var m, c := s.sems[id - 1], s.current;
    && |h.sems| == |s.sems| && h.sems == s.sems[id - 1 := h.sems[id - 1]] && Quiet(s, h.(sems := s.sems))
    && Paid(m, h.sems[id - 1], s.pd, amount, k) && WokeOnly(s, h, c, m.waiters[..k])
    && c in s.pd && c in h.pd && CallerSame(s.pd[c], h.pd[c])
  }

  lemma GivesView(s: KState, i: KState, h: KState, id: nat, amount: int, k: nat)
    requires s.current in s.pd && !s.cswitch && 1 <= id <= |s.sems|
    requires i == s.(pd := s.pd[s.current := s.pd[s.current].(args := SemGive(id, amount))], err := NO_ERR)
    requires Gave(i, h, id, amount, k) && Paid(s.sems[id - 1], h.sems[id - 1], i.pd, amount, k)
    requires var q := s.sems[id - 1].waiters; s.current !in q && forall p :: p in q ==> p in s.pd
    ensures Gives(s, h, id, amount, k)
  {
    var q := s.sems[id - 1].waiters;
    PaidSame(s.sems[id - 1], h.sems[id - 1], i.pd, s.pd, amount, k);
    GaveWoke(s, i, h, s.current, q, k);
    hide Paid, Wanted, Asked, SemServed, Woke, WokeOnly;
  }

  /** A give serves a prefix of the queue and pays for it; nobody else is affected, and the caller goes on. */
  lemma GiveAnswers(s: KState, id: nat, amount: int, anchor: nat) returns (k: nat)
    requires Alive(s) && Inv(s) && amount >= 0 && 1 <= id <= |s.sems|
    ensures Gives(s, Called(s, SemGive(id, amount), anchor), id, amount, k)
  {
    var r := SemGive(id, amount);
    var i, h := Issue(s, r), Called(s, r, anchor);
    assert !s.cswitch && s.current in s.pd;
    hide Alive, Inv, Entered, Issue, Called, Sound, Shape, Paid, Gives, Gave, SemServed, SemShape, SemaphoreGive;
    IssueSound(s, r);
    IssueStores(s, r);
    CalledHandles(s, r, anchor);
    EnteredSemaphore(i, id);
    k := GiveMeaning(i, id, amount);
    GavePaid(i, h, id, amount, k);
    GivesView(s, i, h, id, amount, k);
  }

  /** The caller of a get that asks for `want` units either takes them or queues up for them, and then it
      has stored how many; nobody else is affected. */
  ghost predicate Got(s: KState, h: KState, id: nat, want: int)
    requires 1 <= id <= |s.sems|
  {
    var m, c := s.sems[id - 1], s.current;
    && Quiet(s, h.(sems := s.sems, cswitch := false)) && OthersSame(s, h, {c}) && c in s.pd && c in h.pd
    && h.cswitch == (m.count < want)
    && h.sems ==
       s.sems[id - 1 := if m.count < want then m.(waiters := m.waiters + [c]) else m.(count := m.count - want)]
    && h.pd[c] == s.pd[c].(args := SemGet(id, want),
                           state := if m.count < want then WAIT_SEMAPHORE else s.pd[c].state)
  }

  lemma GotView(s: KState, id: nat, amount: int)
    requires s.current in s.pd && !s.cswitch && amount >= 0 && 1 <= id <= |s.sems|
    ensures var m, c := s.sems[id - 1], s.current;
      var i := s.(pd := s.pd[c := s.pd[c].(args := SemGet(id, amount))], err := NO_ERR);
      Got(s, SemaphoreGet(i, id, amount), id, if m.binary && amount > 1 then 1 else amount)
  {
    hide Stays;
  }

  /** A get asks for its amount, or for one unit of a binary semaphore if the amount is not 0. */
  lemma GetAnswers(s: KState, id: nat, amount: int, anchor: nat)
    requires Alive(s) && amount >= 0 && 1 <= id <= |s.sems|
    ensures Got(s, Called(s, SemGet(id, amount), anchor), id,
                if s.sems[id - 1].binary && amount > 1 then 1 else amount)
  {
    Effects.Entering(s);
    assert !s.cswitch;
    hide Alive, Called, Issue, SemaphoreGet, Got;
    IssueStores(s, SemGet(id, amount));
    CalledHandles(s, SemGet(id, amount), anchor);
    GotView(s, id, amount);
  }

  // ----- binary semaphores

  lemma PaidBinary(m: Sem, m': Sem, pd: map<Pid, PD>, amount: int, k: nat)
    requires m.binary && m.count >= 0 && m.count <= 1 && amount >= 1 && NoDup(m.waiters) && Paid(m, m', pd, amount, k)
    requires m.waiters != [] ==> m.waiters[0] in pd && Amount(pd[m.waiters[0]]) <= 1
    ensures if m.waiters == [] then m' == m.(count := 1)
            else k > 0 && m.waiters[..k][0] == m.waiters[0] && m.waiters[0] !in m'.waiters
  {
    if m.waiters == [] || k == 0 {
      assert m.waiters[..k] == [] && m.waiters[k..] == m.waiters;
    } else {
      assert m.waiters[0] !in m.waiters[k..];
    }
  }

  lemma BinaryFacts(s: KState, id: nat)
    requires Inv(s) && 1 <= id <= |s.sems| && s.sems[id - 1].binary
    ensures var m := s.sems[id - 1];
      && 0 <= m.count <= 1 && NoDup(m.waiters) && s.current !in m.waiters
      && (m.waiters != [] ==> m.waiters[0] in s.pd && Amount(s.pd[m.waiters[0]]) <= 1)
  {
    assert SemServed(s.sems[id - 1], s.pd);
    SemWaiters(s, id - 1);
    if s.sems[id - 1].waiters != [] { assert s.sems[id - 1].waiters[0] in s.sems[id - 1].waiters; }
  }

  /** A give of one or more units makes a binary semaphore available if nobody waits for it; otherwise the first
      waiter has left the queue and is READY. */
  lemma BinaryGive(s: KState, id: nat, amount: int, anchor: nat)
    requires Alive(s) && Inv(s) && amount >= 1 && 1 <= id <= |s.sems| && s.sems[id - 1].binary
    ensures var h, q := Called(s, SemGive(id, amount), anchor), s.sems[id - 1].waiters;
      && |h.sems| == |s.sems|
      && if q == [] then h.sems[id - 1] == s.sems[id - 1].(count := 1)
         else
           && q[0] in s.pd && q[0] in h.pd && h.pd[q[0]] == s.pd[q[0]].(state := READY)
           && q[0] !in h.sems[id - 1].waiters
  {
    hide Called, Alive, Inv, Paid, Quiet, Amount, NoDup;
    BinaryFacts(s, id);
    var k := GiveAnswers(s, id, amount, anchor);
    PaidBinary(s.sems[id - 1], Called(s, SemGive(id, amount), anchor).sems[id - 1], s.pd, amount, k);
  }

  // ----- where the units of a binary semaphore go

  /** A give of one or more units supplies one, if the semaphore has none. */
  function SuppliedNow(s: KState, e: Event, id: nat): int
    requires 1 <= id <= |s.sems|
  {
    if e.Call? && e.request.SemGive? && e.request.id == id && e.request.amount >= 1 && s.sems[id - 1].count == 0
    then 1 else 0
  }

  /** A get of one or more units that does not queue up takes one; and so does whoever leaves the queue when the
      semaphore is given. */
  function ConsumedNow(s: KState, e: Event, s': KState, id: nat): int
    requires 1 <= id <= |s.sems| && id <= |s'.sems|
  {
    var q, q' := s.sems[id - 1].waiters, s'.sems[id - 1].waiters;
    if e.Call? && e.request.SemGet? && e.request.id == id && e.request.amount >= 1 && |q'| == |q| then 1
    else if e.Call? && e.request.SemGive? && e.request.id == id && |q'| <= |q| then Asked(q[..|q| - |q'|], s.pd)
    else 0
  }

  function Supplied(s: KState, es: seq<Event>, id: nat): int
    requires Alive(s)
    decreases |es|
  {
    if es == [] || Step(s, es[0]).None? || !(1 <= id <= |s.sems|) then 0
    else SuppliedNow(s, es[0], id) + Supplied(Step(s, es[0]).value, es[1..], id)
  }

  function Consumed(s: KState, es: seq<Event>, id: nat): int
    requires Alive(s)
    decreases |es|
  {
    if es == [] || Step(s, es[0]).None? || !(1 <= id <= |s.sems| && id <= |Step(s, es[0]).value.sems|) then 0
    else ConsumedNow(s, es[0], Step(s, es[0]).value, id) + Consumed(Step(s, es[0]).value, es[1..], id)
  }

  /** Count and units of semaphore id over one call. */
  ghost predicate Balanced(s: KState, r: Request, anchor: nat, h: KState, id: nat)
    requires 1 <= id <= |s.sems|
  {
    && id <= |h.sems| && h.sems[id - 1].binary
    && h.sems[id - 1].count + ConsumedNow(s, Call(r, anchor, []), h, id) ==
       s.sems[id - 1].count + SuppliedNow(s, Call(r, anchor, []), id)
  }

  lemma GiveBalances(s: KState, id: nat, amount: int, anchor: nat)
    requires Alive(s) && Inv(s) && amount >= 0 && 1 <= id <= |s.sems| && s.sems[id - 1].binary
    ensures Balanced(s, SemGive(id, amount), anchor, Called(s, SemGive(id, amount), anchor), id)
  {
    hide Called, Alive, Inv, Quiet, Amount, NoDup, Asked, WokeOnly;
    BinaryFacts(s, id);
    var k := GiveAnswers(s, id, amount, anchor);
  }

  lemma GetBalances(s: KState, id: nat, amount: int, anchor: nat)
    requires Alive(s) && Inv(s) && amount >= 0 && 1 <= id <= |s.sems| && s.sems[id - 1].binary
    ensures Balanced(s, SemGet(id, amount), anchor, Called(s, SemGet(id, amount), anchor), id)
  {
    hide Called, Alive, Inv, Quiet, Amount, NoDup, Asked, OthersSame;
    BinaryFacts(s, id);
    GetAnswers(s, id, amount, anchor);
  }

  lemma OtherBalances(s: KState, r: Request, anchor: nat, id: nat)
    requires Alive(s) && 1 <= id <= |s.sems| && s.sems[id - 1].binary && !((r.SemGet? || r.SemGive?) && r.id == id)
    ensures Balanced(s, r, anchor, Called(s, r, anchor), id)
  {
    Effects.Entering(s);
    IssueShape(s, r);
    hide Shape, Handle, Asked;
    OtherSemaphore(Issue(s, r), r, anchor, id);
  }

  lemma CalledBalances(s: KState, r: Request, anchor: nat, id: nat)
    requires Alive(s) && Inv(s) && s.current in s.pd && TameRequest(s, r)
    requires 1 <= id <= |s.sems| && s.sems[id - 1].binary
    ensures Balanced(s, r, anchor, Called(s, r, anchor), id)
  {
    hide Called, Alive, Inv, Balanced;
    if r.SemGive? && r.id == id { GiveBalances(s, id, r.amount, anchor); }
    else if r.SemGet? && r.id == id { GetBalances(s, id, r.amount, anchor); }
    else { OtherBalances(s, r, anchor, id); }
  }

  lemma BalanceStays(s: KState, r: Request, anchor: nat, batches: seq<nat>, h: KState, s': KState, id: nat)
    requires 1 <= id <= |s.sems| && Balanced(s, r, anchor, h, id) && s'.sems == h.sems
    ensures id <= |s'.sems| && s'.sems[id - 1].binary
    ensures s'.sems[id - 1].count + ConsumedNow(s, Call(r, anchor, batches), s', id) ==
      s.sems[id - 1].count + SuppliedNow(s, Call(r, anchor, batches), id)
  {
    hide Asked;
  }

  lemma StepBalances(s: KState, e: Event, id: nat)
    requires Alive(s) && Inv(s) && Tame(s, e) && Step(s, e).Some? && 1 <= id <= |s.sems| && s.sems[id - 1].binary
    ensures var s' := Step(s, e).value;
      && id <= |s'.sems| && s'.sems[id - 1].binary
      && s'.sems[id - 1].count + ConsumedNow(s, e, s', id) == s.sems[id - 1].count + SuppliedNow(s, e, id)
  {
    if e.Call? {
      assert s.current in s.pd;
      hide Called, Alive, Inv, Step, TameRequest, Balanced, ConsumedNow, SuppliedNow;
      CalledBalances(s, e.request, e.anchor, id);
      StepObjects(s, e);
      BalanceStays(s, e.request, e.anchor, e.batches, Called(s, e.request, e.anchor), Step(s, e).value, id);
    }
  }

  /** In every tame run: what a binary semaphore has at the end, and what was taken from it, is what it had and what
      was supplied, one unit for every give that found it empty. */
  lemma {:induction false} BinaryUnitsAreConserved(s: KState, es: seq<Event>, id: nat)
    requires Alive(s) && Inv(s) && Along(s, es, Tame) && Exec(s, es).Some?
    requires 1 <= id <= |s.sems| && s.sems[id - 1].binary
    ensures id <= |Exec(s, es).value.sems|
    ensures Exec(s, es).value.sems[id - 1].count + Consumed(s, es, id) == s.sems[id - 1].count + Supplied(s, es, id)
    decreases |es|
  {
    hide Inv, Tame, ConsumedNow, SuppliedNow;
    if es != [] {
      StepBalances(s, es[0], id);
      StepSound(s, es[0]);
      BinaryUnitsAreConserved(Step(s, es[0]).value, es[1..], id);
    }
  }
}
