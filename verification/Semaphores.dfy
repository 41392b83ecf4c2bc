/** The semaphore drain serves exactly the prefix of the queue that the count affords. */
module Semaphores {
  import opened KernelTypes
  import opened KernelState
  import opened Requests
  import opened Invariants
  import opened CalmHandlers

  /** What the tasks of a queue ask for in total. */
  function Wanted(q: seq<Pid>, pd: map<Pid, PD>): int {
    if q == [] then 0
    else (if q[0] in pd then Amount(pd[q[0]]) else 0) + Wanted(q[1..], pd)
  }

  lemma WantedSplit(q: seq<Pid>, k: nat, pd: map<Pid, PD>)
    requires k <= |q|
    ensures Wanted(q, pd) == Wanted(q[..k], pd) + Wanted(q[k..], pd)
  {
    if k == 0 {
      assert q[..0] == [] && q[0..] == q;
    } else {
      assert q[1..][..k - 1] == q[..k][1..] && q[1..][k - 1..] == q[k..];
      WantedSplit(q[1..], k - 1, pd);
    }
  }

  lemma WantedSame(q: seq<Pid>, pd: map<Pid, PD>, pd': map<Pid, PD>)
    requires forall p :: p in q ==> p in pd && p in pd' && pd'[p].args == pd[p].args
    ensures Wanted(q, pd') == Wanted(q, pd)
  {
    if q != [] {
      assert q[0] in q;
      WantedSame(q[1..], pd, pd');
    }
  }

  /** Every entry of the queue waits for a semaphore and asks for a nonnegative amount. */
  ghost predicate AllWaiting(q: seq<Pid>, pd: map<Pid, PD>) {
    NoDup(q) && forall p :: p in q ==> p in pd && pd[p].state == WAIT_SEMAPHORE && Amount(pd[p]) >= 0
  }

  /** pd' is pd with the tasks of `woken` made READY. */
  ghost predicate Woke(pd: map<Pid, PD>, pd': map<Pid, PD>, woken: seq<Pid>) {
    && pd'.Keys == pd.Keys
    && (forall p :: p in pd ==> pd'[p] == if p in woken then pd[p].(state := READY) else pd[p])
  }

  /** What it means that draining `m` served its first k waiters. */
  ghost predicate Serves(m: Sem, pd: map<Pid, PD>, r: Drained, k: nat) {
    && k <= |m.waiters| && !r.stale
    && r.sem == m.(waiters := m.waiters[k..], count := m.count - Wanted(m.waiters[..k], pd))
    && r.sem.count >= 0
    && (k < |m.waiters| && m.waiters[k] in pd ==> r.sem.count < Amount(pd[m.waiters[k]]))
    && Woke(pd, r.pd, m.waiters[..k])
  }

  lemma ServesOneMore(m: Sem, pd: map<Pid, PD>, r: Drained, k: nat)
    requires SemShape(m, pd) && AllWaiting(m.waiters, pd) && m.waiters != []
    requires var p := m.waiters[0];
      Serves(m.(count := m.count - Amount(pd[p]), waiters := m.waiters[1..]), pd[p := pd[p].(state := READY)], r, k)
    ensures Serves(m, pd, r, k + 1)
  {
    var p, rest := m.waiters[0], m.waiters[1..];
    var pd1 := pd[p := pd[p].(state := READY)];
    assert p !in rest;
    assert m.waiters[..k + 1] == [p] + rest[..k];
    assert rest[k..] == m.waiters[k + 1..];
    assert Wanted(m.waiters[..k + 1], pd) == Amount(pd[p]) + Wanted(rest[..k], pd) by {
      assert m.waiters[..k + 1][1..] == rest[..k];
    }
    WantedSame(rest[..k], pd, pd1);
    forall q | q in pd ensures r.pd[q] == if q in m.waiters[..k + 1] then pd[q].(state := READY) else pd[q] {
      assert q in m.waiters[..k + 1] <==> q == p || q in rest[..k];
    }
    if k < |rest| { assert rest[k] in rest; }
  }

  /** The drain stops after the longest prefix that the count can pay for, pays for it, and wakes
      exactly its tasks; it is never stopped by an entry that does not wait. */
  lemma {:induction false} DrainMeaning(m: Sem, pd: map<Pid, PD>) returns (k: nat)
    requires SemShape(m, pd) && AllWaiting(m.waiters, pd) && m.count >= 0
    ensures Serves(m, pd, Drain(m, pd), k)
    decreases |m.waiters|
  {
    if m.waiters == [] || m.count < Amount(pd[m.waiters[0]]) {
      k := 0;
      assert m.waiters[0..] == m.waiters && m.waiters[..0] == [];
    } else {
      var p, rest := m.waiters[0], m.waiters[1..];
      assert p in m.waiters && p !in rest;
      k := DrainMeaning(m.(count := m.count - Amount(pd[p]), waiters := rest), pd[p := pd[p].(state := READY)]);
      ServesOneMore(m, pd, Drain(m, pd), k);
      k := k + 1;
    }
  }

  // ----- invariants

  ghost predicate OnlySemaphore(s: KState, s': KState, id: nat, touched: set<Pid>) {
    && 1 <= id <= |s.sems| && |s'.sems| == |s.sems| && s'.sems == s.sems[id - 1 := s'.sems[id - 1]]
    && s'.muts == s.muts && s'.mbs == s.mbs && s'.pd.Keys == s.pd.Keys
    && GentleBut(s, s', touched)
    && (forall p :: p in touched ==> p in s.pd && (PlaceOf(s.pd[p]) == Nowhere || PlaceOf(s.pd[p]) == OnSemaphore(id)))
    && (forall p :: p in touched ==> s'.pd[p].pri == s.pd[p].pri && s'.pd[p].base == s.pd[p].base
                                     && s'.pd[p].held == s.pd[p].held && s'.pd[p].orderly == s.pd[p].orderly
                                     && s'.pd[p].state != WAIT_MUTEX)
  }

  lemma SemQueues(s: KState, s': KState, id: nat)
    requires 1 <= id <= |s.sems| && |s'.sems| == |s.sems| && s'.sems == s.sems[id - 1 := s'.sems[id - 1]]
    requires s'.muts == s.muts && s'.mbs == s.mbs
    ensures forall pl :: pl != OnSemaphore(id) ==> QueueAt(s', pl) == QueueAt(s, pl)
    ensures QueueAt(s, OnSemaphore(id)) == s.sems[id - 1].waiters
      && QueueAt(s', OnSemaphore(id)) == s'.sems[id - 1].waiters
  {
  }

  lemma OnlySemaphoreSound(s: KState, s': KState, id: nat, touched: set<Pid>)
    requires Shape(s) && Sound(s) && OnlySemaphore(s, s', id, touched)
    requires Agree(s') && SemServed(s'.sems[id - 1], s'.pd)
    requires forall p :: p in touched ==> TimersAt(s'.pd[p])
    ensures Sound(s')
  {
    TimersFrame(s, s', touched);
    forall i | 0 <= i < |s'.sems| ensures SemServed(s'.sems[i], s'.pd) {
      if i != id - 1 {
        SemWaiters(s, i);
        SemFrame(s, s', touched, i);
      }
    }
    MutexesUntouched(s, s', touched);
  }

  lemma OneTaskSemaphore(s: KState, s': KState, id: nat, c: Pid)
    requires c in s.pd && c in s'.pd && s'.pd == s.pd[c := s'.pd[c]] && PlaceOf(s.pd[c]) == Nowhere
    requires s'.pd[c].pri == s.pd[c].pri && s'.pd[c].base == s.pd[c].base && s'.pd[c].held == s.pd[c].held
    requires s'.pd[c].orderly == s.pd[c].orderly
             && s'.pd[c].state != WAIT_MUTEX
    requires 1 <= id <= |s.sems| && |s'.sems| == |s.sems| && s'.sems == s.sems[id - 1 := s'.sems[id - 1]]
    requires s'.muts == s.muts && s'.mbs == s.mbs
    ensures OnlySemaphore(s, s', id, {c})
  {
  }

  lemma TakeServed(s: KState, id: nat, amount: int)
    requires s.current in s.pd && 1 <= id <= |s.sems|
    requires var m := s.sems[id - 1];
      m.count - (if m.binary then Clamp(amount) else amount) >= 0 && SemServed(m, s.pd) && s.current !in m.waiters
    requires amount >= 0
    ensures SemServed(SemaphoreGet(s, id, amount).sems[id - 1], SemaphoreGet(s, id, amount).pd)
  {
    var s', m := SemaphoreGet(s, id, amount), s.sems[id - 1];
    if m.waiters != [] { assert m.waiters[0] in m.waiters; }
  }

  lemma GetFrame(s: KState, id: nat, amount: int)
    requires Agree(s) && s.current in s.pd && Awake(s.pd[s.current]) && 1 <= id <= |s.sems|
    ensures OnlySemaphore(s, SemaphoreGet(s, id, amount), id, {s.current}) && Agree(SemaphoreGet(s, id, amount))
    ensures s.current !in s.sems[id - 1].waiters
  {
    var s', c := SemaphoreGet(s, id, amount), s.current;
    OneTaskSemaphore(s, s', id, c);
    SemQueues(s, s', id);
    PlacesFrame(s, s', {c});
    if PlaceOf(s'.pd[c]) == Nowhere {
      AgreeFrame(s, s');
    } else {
      AgreePush(s, s', c, OnSemaphore(id));
    }
    SemWaiters(s, id - 1);
  }

  lemma QueueUpServed(m: Sem, m': Sem, pd: map<Pid, PD>, pd': map<Pid, PD>, c: Pid)
    requires SemServed(m, pd) && SemShape(m, pd) && c in pd && c in pd' && pd' == pd[c := pd'[c]] && c !in m.waiters
    requires m' == m.(waiters := m.waiters + [c])
    requires m.count < Amount(pd'[c]) && (m.binary ==> Amount(pd'[c]) <= 1)
    ensures SemServed(m', pd')
  {
    if m.waiters != [] { assert m'.waiters[0] == m.waiters[0] && m.waiters[0] in m.waiters; }
  }

  lemma GetSound(s: KState, id: nat, amount: int)
    requires Entered(s) && amount >= 0
    ensures Sound(SemaphoreGet(s, id, amount))
  {
    if !(1 <= id <= |s.sems|) {
      FailSound(s, OBJECT_NOT_FOUND_ERR);
    } else {
      var s', c, m := SemaphoreGet(s, id, amount), s.current, s.sems[id - 1];
      GetFrame(s, id, amount);
      assert TimersAt(s.pd[c]) && SemServed(m, s.pd) && SemShape(m, s.pd);
      if m.count - (if m.binary then Clamp(amount) else amount) < 0 {
        QueueUpServed(m, s'.sems[id - 1], s.pd, s'.pd, c);
      } else {
        TakeServed(s, id, amount);
      }
      OnlySemaphoreSound(s, s', id, {c});
    }
  }

  lemma DrainedServed(m: Sem, m1: Sem, m': Sem, k: nat, pd: map<Pid, PD>, pd': map<Pid, PD>)
    requires SemServed(m, pd) && AllWaiting(m.waiters, pd)
    requires m1.waiters == m.waiters && m1.binary == m.binary && (m.binary ==> m1.count <= 1)
    requires k <= |m.waiters| && m' == m1.(waiters := m.waiters[k..], count := m'.count) && 0 <= m'.count <= m1.count
    requires Woke(pd, pd', m.waiters[..k])
    requires k < |m.waiters| ==> m'.count < Amount(pd[m.waiters[k]])
    ensures SemServed(m', pd')
  {
    forall p | p in m'.waiters ensures p in m.waiters && p in pd && p in pd' && Amount(pd'[p]) == Amount(pd[p]) {
      var j :| 0 <= j < |m'.waiters| && m'.waiters[j] == p;
      assert m.waiters[k + j] in m.waiters && p in pd.Keys;
    }
    if m'.waiters != [] { assert m'.waiters[0] == m.waiters[k] && m'.waiters[0] in m'.waiters; }
  }

  lemma WantedNonNegative(q: seq<Pid>, pd: map<Pid, PD>)
    requires forall p :: p in q && p in pd ==> Amount(pd[p]) >= 0
    ensures Wanted(q, pd) >= 0
  {
    if q != [] {
      assert q[0] in q;
      WantedNonNegative(q[1..], pd);
    }
  }

  /** The first k waiters of a semaphore are woken. */
  lemma WokenSound(s: KState, s': KState, id: nat, k: nat, woken: set<Pid>)
    requires Shape(s) && Sound(s) && OnlySemaphore(s, s', id, woken) && k <= |s.sems[id - 1].waiters|
    requires woken == Elems(s.sems[id - 1].waiters[..k])
    requires forall p :: p in woken ==> p in s'.pd && TimersAt(s'.pd[p]) && PlaceOf(s'.pd[p]) == Nowhere
    requires s'.sems[id - 1].waiters == s.sems[id - 1].waiters[k..] && SemServed(s'.sems[id - 1], s'.pd)
    ensures Sound(s')
  {
    WokenAgree(s, s', id, k, woken);
    OnlySemaphoreSound(s, s', id, woken);
  }

  lemma WokenAgree(s: KState, s': KState, id: nat, k: nat, woken: set<Pid>)
    requires Agree(s) && OnlySemaphore(s, s', id, woken) && k <= |s.sems[id - 1].waiters|
    requires woken == Elems(s.sems[id - 1].waiters[..k])
    requires forall p :: p in woken ==> p in s'.pd && PlaceOf(s'.pd[p]) == Nowhere
    requires s'.sems[id - 1].waiters == s.sems[id - 1].waiters[k..]
    ensures Agree(s')
  {
    SemQueues(s, s', id);
    PlacesFrame(s, s', woken);
    AgreePop(s, s', OnSemaphore(id), k);
  }

  lemma WokenFrame(s: KState, s': KState, id: nat, k: nat, woken: set<Pid>)
    requires 1 <= id <= |s.sems| && k <= |s.sems[id - 1].waiters|
    requires |s'.sems| == |s.sems| && s'.sems == s.sems[id - 1 := s'.sems[id - 1]]
    requires s'.muts == s.muts && s'.mbs == s.mbs && Timers(s)
    requires Woke(s.pd, s'.pd, s.sems[id - 1].waiters[..k])
    requires woken == Elems(s.sems[id - 1].waiters[..k])
    requires forall p :: p in s.sems[id - 1].waiters ==> p in s.pd && PlaceOf(s.pd[p]) == OnSemaphore(id)
    ensures OnlySemaphore(s, s', id, woken)
    ensures forall p :: p in woken ==> p in s'.pd && TimersAt(s'.pd[p]) && PlaceOf(s'.pd[p]) == Nowhere
  {
    forall p | p in woken
      ensures p in s.pd && PlaceOf(s.pd[p]) == OnSemaphore(id) && p in s'.pd && s'.pd[p] == s.pd[p].(state := READY)
    {
      assert p in s.sems[id - 1].waiters && p in s'.pd.Keys;
      assert TimersAt(s.pd[p]);
    }
    forall p | p in s.pd && p !in woken ensures p in s'.pd && Gentle(s.pd[p], s'.pd[p]) {
      assert p in s'.pd.Keys;
    }
    forall p | p in woken ensures TimersAt(s'.pd[p]) { assert TimersAt(s.pd[p]); }
  }

  /** A give pays and wakes the first k waiters, and leaves the semaphore served. */
  ghost predicate Gave(s: KState, s': KState, id: nat, amount: int, k: nat)
    requires 1 <= id <= |s.sems|
  {
    var m := s.sems[id - 1];
    && k <= |m.waiters| && |s'.sems| == |s.sems|
    && s' == s.(pd := s'.pd, sems := s.sems[id - 1 := s'.sems[id - 1]])
    && s'.sems[id - 1] == m.(waiters := m.waiters[k..], count := Given(m, amount).count - Wanted(m.waiters[..k], s.pd))
    && Woke(s.pd, s'.pd, m.waiters[..k])
    && SemServed(s'.sems[id - 1], s'.pd)
  }

  lemma GiveMeaning(s: KState, id: nat, amount: int) returns (k: nat)
    requires ObjectShape(s) && 1 <= id <= |s.sems| && amount >= 0
    requires var m := s.sems[id - 1]; SemServed(m, s.pd) && SemShape(m, s.pd) && AllWaiting(m.waiters, s.pd)
    ensures Gave(s, SemaphoreGive(s, id, amount), id, amount, k)
  {
    var m, s' := s.sems[id - 1], SemaphoreGive(s, id, amount);
    var m1 := Given(m, amount);
    assert SemShape(m1, s.pd);
    if m1.count > 0 && m1.waiters != [] {
      k := DrainMeaning(m1, s.pd);
      WantedNonNegative(m.waiters[..k], s.pd);
      DrainedServed(m, m1, Drain(m1, s.pd).sem, k, s.pd, Drain(m1, s.pd).pd);
    } else {
      k := 0;
      assert m.waiters[0..] == m.waiters && m.waiters[..0] == [];
      if m.waiters != [] { assert m.waiters[0] in m.waiters; }
      DrainedServed(m, m1, m1, k, s.pd, s.pd);
    }
  }

  lemma GaveFrame(s: KState, s': KState, id: nat, amount: int, k: nat)
    requires Agree(s) && Timers(s) && 1 <= id <= |s.sems| && Gave(s, s', id, amount, k)
    ensures var woken := Elems(s.sems[id - 1].waiters[..k]);
      && OnlySemaphore(s, s', id, woken)
      && (forall p :: p in woken ==> p in s'.pd && TimersAt(s'.pd[p]) && PlaceOf(s'.pd[p]) == Nowhere)
      && s'.sems[id - 1].waiters == s.sems[id - 1].waiters[k..] && SemServed(s'.sems[id - 1], s'.pd)
  {
    SemWaiters(s, id - 1);
    WokenFrame(s, s', id, k, Elems(s.sems[id - 1].waiters[..k]));
  }

  lemma GiveSound(s: KState, id: nat, amount: int)
    requires Entered(s) && amount >= 0
    ensures Sound(SemaphoreGive(s, id, amount))
  {
    if !(1 <= id <= |s.sems|) {
      FailSound(s, OBJECT_NOT_FOUND_ERR);
    } else {
      SemWaiters(s, id - 1);
      assert SemServed(s.sems[id - 1], s.pd) && SemShape(s.sems[id - 1], s.pd);
      var k := GiveMeaning(s, id, amount);
      GaveFrame(s, SemaphoreGive(s, id, amount), id, amount, k);
      WokenSound(s, SemaphoreGive(s, id, amount), id, k, Elems(s.sems[id - 1].waiters[..k]));
    }
  }
}
