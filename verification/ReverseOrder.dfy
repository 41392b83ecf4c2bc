/** Tasks that release mutexes in the reverse order of acquisition get their priority at creation back. */
module ReverseOrder {
  import opened KernelTypes
  import opened KernelState
  import opened Requests
  import opened Scheduler
  import opened ShapeProofs
  import opened MainLoop
  import opened Invariants
  import opened Mutexes
  import opened MutexLaws
  import opened TameRuns
  import opened Records

  // ----- the discipline, and the history flag that records it

  /** If task p fully releases a mutex here, it is the one that p acquired last. */
  predicate ReleasesLast(s: KState, e: Event, p: Pid) {
    e.Call? && e.request.MutUnlock? && s.current == p && p in s.pd && Releases(s, e.request.id) ==>
      var held := s.pd[p].held;
      held != [] && held[|held| - 1] == e.request.id
  }

  /** Task p does so in every event of a run; what other tasks do does not matter. */
  ghost predicate InReverse(s: KState, es: seq<Event>, p: Pid)
    requires Alive(s)
    decreases |es|
  {
    es != [] ==> ReleasesLast(s, es[0], p) && (Step(s, es[0]).Some? ==> InReverse(Step(s, es[0]).value, es[1..], p))
  }

  predicate Orderly(s: KState, p: Pid) {
    p in s.pd ==> s.pd[p].orderly
  }

  lemma InvBaseKept(s: KState, p: Pid)
    requires Inv(s) && p in s.pd
    ensures BaseKept(s, p)
  {
  }

  /** Only a full unlock by the task itself writes the flag, and not when it releases the last mutex it holds. */
  lemma StepOrderly(s: KState, e: Event, p: Pid)
    requires Alive(s) && Inv(s) && Step(s, e).Some? && Orderly(s, p) && ReleasesLast(s, e, p)
    ensures Orderly(Step(s, e).value, p)
  {
    hide Inv, Alive, Step, SafeRelease, BaseKept;
    StepRecord(s, e, p);
    if e.Call? && e.request.MutUnlock? && p in s.pd && p == s.current && Releases(s, e.request.id) {
      InvBaseKept(s, p);
      ReverseOrderIsSafe(s, e.request.id);
    }
  }

  lemma {:induction false} RunsOrderly(s: KState, es: seq<Event>, p: Pid)
    requires Alive(s) && Inv(s) && Along(s, es, Tame) && InReverse(s, es, p) && Orderly(s, p)
    ensures Exec(s, es).Some? ==> Orderly(Exec(s, es).value, p)
    decreases |es|
  {
    hide Inv, Shape, Tame, Orderly, ReleasesLast;
    if es != [] && Step(s, es[0]).Some? {
      StepOrderly(s, es[0], p);
      StepSound(s, es[0]);
      RunsOrderly(Step(s, es[0]).value, es[1..], p);
    }
  }

  lemma {:induction false} ConfigureOrderly(cs: seq<Creation>, p: Pid)
    ensures Orderly(Configure(cs), p)
    decreases |cs|
  {
    if cs != [] {
      ConfigureOrderly(cs[..|cs| - 1], p);
      CreateOrderly(Configure(cs[..|cs| - 1]), cs[|cs| - 1], p);
    }
  }

  lemma CreateOrderly(s: KState, c: Creation, p: Pid)
    requires Orderly(s, p)
    ensures Orderly(Create(s, c), p)
  {
  }

  lemma StartOrderly(cs: seq<Creation>, batches: seq<nat>, p: Pid)
    requires Start(cs, batches).Some?
    ensures Orderly(Start(cs, batches).value, p)
  {
    hide Dispatch, Configure, ObjectShape;
    var s := Configure(cs);
    var s1 := s.(last := |s.order| - 1);
    ConfigureShape(cs);
    ConfigureOrderly(cs, p);
    TasksShape(s, s1);
    DispatchRecord(s1, batches, p);
  }

  // ----- the law

  /** From boot, in every tame run in which task p releases in reverse order: whenever p neither owns
      nor awaits a mutex it has its priority at creation, whatever the others released in what order. */
  lemma BaseRestoredFromBoot(cs: seq<Creation>, batches: seq<nat>, es: seq<Event>, p: Pid)
    requires forall c :: c in cs ==> LegalCreation(c)
    requires Start(cs, batches).Some? && Along(Start(cs, batches).value, es, Tame)
    requires InReverse(Start(cs, batches).value, es, p) && Exec(Start(cs, batches).value, es).Some?
    ensures var s := Exec(Start(cs, batches).value, es).value;
      p in s.pd && (forall id: nat :: !Owns(s, p, id)) && s.pd[p].state != WAIT_MUTEX ==> s.pd[p].pri == s.pd[p].base
  {
    hide Inv, Start, Shape, Tame;
    StartSound(cs, batches);
    StartOrderly(cs, batches, p);
    RunsOrderly(Start(cs, batches).value, es, p);
    BaseRestored(Start(cs, batches).value, es, p);
  }
}
