/** What main() sets up before OS_Start, and which task runs first. */
module Booting {
  import opened KernelTypes
  import opened KernelState
  import opened Scheduler
  import opened ShapeProofs
  import opened MainLoop
  import opened Selection
  import opened Starvation
  import opened Yielding
  import opened Outcomes

  /** The priorities of the tasks created, as long as there is room. */
  function TasksOf(cs: seq<Creation>): seq<nat>
    decreases |cs|
  {
    if cs == [] then []
    else
      var rest, c := TasksOf(cs[..|cs| - 1]), cs[|cs| - 1];
      if c.ATask? && |rest| != MAXTHREAD then rest + [c.pri] else rest
  }

  /** The semaphores created, as long as there is room. */
  function SemaphoresOf(cs: seq<Creation>): seq<Sem>
    decreases |cs|
  {
    if cs == [] then []
    else
      var rest, c := SemaphoresOf(cs[..|cs| - 1]), cs[|cs| - 1];
      if c.ASemaphore? && |rest| < MAX_OBJECTS then rest + [FirstCount(SemCreate(c.initial, c.binary))] else rest
  }

  /** The capacities of the mailboxes created, as long as there is room. */
  function MailboxesOf(cs: seq<Creation>): seq<nat>
    decreases |cs|
  {
    if cs == [] then []
    else
      var rest, c := MailboxesOf(cs[..|cs| - 1]), cs[|cs| - 1];
      if c.AMailbox? && |rest| < MAX_OBJECTS then rest + [c.capacity] else rest
  }

  /** How many of the creations `want` there is room for. */
  function Counted(cs: seq<Creation>, want: Creation): nat
    decreases |cs|
  {
    if cs == [] then 0
    else
      var rest := Counted(cs[..|cs| - 1], want);
      if cs[|cs| - 1] == want && rest < MAX_OBJECTS then rest + 1 else rest
  }

  ghost predicate Tasked(s: KState, pris: seq<nat>) {
    && |s.order| == |pris| == s.lastPid
    && (forall i :: 0 <= i < |pris| ==> s.order[i] == i + 1 && i + 1 in s.pd && Fresh(s.pd[i + 1], pris[i]))
  }

  ghost predicate Supplied(s: KState, cs: seq<Creation>) {
    && |s.muts| == Counted(cs, AMutex) && (forall m :: m in s.muts ==> m == Mut(0, 0, LOWEST_PRIORITY, 0, [], []))
    && s.sems == SemaphoresOf(cs)
    && |s.mbs| == |MailboxesOf(cs)|
    && (forall i :: 0 <= i < |s.mbs| ==> s.mbs[i] == Mb(MailboxesOf(cs)[i], [], [], [], []))
    && |s.egs| == Counted(cs, AnEventGroup) && (forall g :: g in s.egs ==> g == 0)
  }

  lemma CreateTasks(s: KState, cs: seq<Creation>, c: Creation)
    requires Tasked(s, TasksOf(cs))
    ensures Tasked(Create(s, c), TasksOf(cs + [c]))
  {
    assert (cs + [c])[..|cs|] == cs;
  }

  lemma CreateSupplies(s: KState, cs: seq<Creation>, c: Creation)
    requires Supplied(s, cs)
    ensures Supplied(Create(s, c), cs + [c])
  {
    assert (cs + [c])[..|cs|] == cs;
  }

  /** main() gets what it asks for, in order, as long as there is room: tasks 1, 2, 3 and so on, all READY with the
      priorities given, and free, filled and empty objects. */
  lemma {:induction false} ConfigureMeaning(cs: seq<Creation>)
    ensures Tasked(Configure(cs), TasksOf(cs)) && Supplied(Configure(cs), cs)
    decreases |cs|
  {
    hide Create, Tasked, Supplied, TasksOf;
    if cs != [] {
      var rest, c := cs[..|cs| - 1], cs[|cs| - 1];
      assert cs == rest + [c];
      ConfigureMeaning(rest);
      CreateTasks(Configure(rest), rest, c);
      CreateSupplies(Configure(rest), rest, c);
    } else {
      ResetIsEmpty();
    }
  }

  lemma ResetIsEmpty()
    ensures Tasked(RESET, TasksOf([])) && Supplied(RESET, [])
  {
  }

  // ----- the first dispatch

  lemma FromTheHead(s: KState, k: nat)
    requires s.order != [] && s.last == |s.order| - 1 && k < |s.order|
    ensures Visited(s, k) == k
  {
    ModLess(s.last + 1 + k, |s.order|);
  }

  /** Task i + 1 is the first of the most urgent. */
  ghost predicate MostUrgent(pris: seq<nat>, i: nat) {
    i < |pris| && forall j :: 0 <= j < |pris| ==> pris[i] <= pris[j] && (j < i ==> pris[i] < pris[j])
  }

  ghost predicate LegalTasks(pris: seq<nat>) {
    forall i :: 0 <= i < |pris| ==> pris[i] <= LOWEST_PRIORITY
  }

  lemma FreshTask(s: KState, pris: seq<nat>, k: nat)
    requires ListShape(s) && s.order != [] && s.last == |s.order| - 1 && Tasked(s, pris) && k < |pris|
    ensures s.order[Visited(s, k)] == k + 1 && TaskAt(s, k).pri == pris[k] && Ready(s, k) && !Starving(s, k)
  {
    FromTheHead(s, k);
    assert s.order[k] == k + 1;
  }

  lemma FirstChosen(s: KState, pris: seq<nat>, k: nat)
    requires ListShape(s) && s.order != [] && s.last == |s.order| - 1 && Tasked(s, pris) && Chosen(s, k)
    ensures MostUrgent(pris, k) && s.order[Visited(s, k)] == k + 1
  {
    forall j | 0 <= j < |pris| ensures TaskAt(s, j).pri == pris[j] && Ready(s, j) && !Starving(s, j) {
      FreshTask(s, pris, j);
    }
    assert |pris| == |s.order|;
    hide ListShape, Tasked, TaskAt, Ready, Starving, Visited;
    FreshTask(s, pris, k);
  }

  lemma TasksLegal(s: KState, pris: seq<nat>)
    requires Tasked(s, pris) && LegalTasks(pris)
    ensures LegalPriorities(s)
  {
    forall p | p in s.order ensures p in s.pd && s.pd[p].pri <= LOWEST_PRIORITY {
      var i :| 0 <= i < |s.order| && s.order[i] == p;
    }
  }

  lemma UnagedReady(s: KState)
    requires ListShape(s) && s.order != [] && Unaged(s)
    ensures SomeReady(s)
  {
    assert s.order[0] in s.order && s.order[0] in s.pd;
  }

  lemma FirstSelected(s: KState, pris: seq<nat>)
    requires ListShape(s) && s.order != [] && s.last == |s.order| - 1 && SomeReady(s)
    requires Tasked(s, pris) && LegalTasks(pris)
    ensures Select(s) >= 0 && MostUrgent(pris, Select(s)) && s.order[Visited(s, Select(s))] == Select(s) + 1
  {
    TasksLegal(s, pris);
    hide ListShape, Tasked, LegalTasks, Select, SomeReady, Chosen, MostUrgent, LegalPriorities;
    SomethingSelected(s);
    assert forall p :: p in s.order ==> p in s.pd && s.pd[p].pri <= LOWEST_PRIORITY by { assert LegalPriorities(s); }
    SelectChosen(s);
    FirstChosen(s, pris, Select(s));
  }

  lemma DispatchIs(s: KState, batches: seq<nat>, k: nat)
    requires ListShape(s) && s.order != [] && Choice(s, batches) == Some(s) && Select(s) == k
    ensures Dispatch(s, batches).Some? && Dispatch(s, batches).value.current == s.order[Visited(s, k)]
  {
    hide Choice, Select, ListShape;
  }

  lemma FirstRuns(s: KState, pris: seq<nat>, batches: seq<nat>) returns (i: nat)
    requires ListShape(s) && s.order != [] && s.last == |s.order| - 1 && s.current !in s.pd && Unaged(s)
    requires Tasked(s, pris) && LegalTasks(pris)
    ensures Dispatch(s, batches).Some? && MostUrgent(pris, i) && Dispatch(s, batches).value.current == i + 1
  {
    ChoosesUnaged(s, batches);
    UnagedReady(s);
    FirstSelected(s, pris);
    hide ListShape, Unaged, Tasked, LegalTasks, Choice, Select, SomeReady, MostUrgent, Dispatch, Run;
    i := Select(s);
    DispatchIs(s, batches, i);
  }

  /** The state in which OS_Start makes the first choice: behind the tail of the list. */
  function AtTail(s: KState): KState
    requires s.order != []
  {
    s.(last := |s.order| - 1)
  }

  lemma ReadyToStart(cs: seq<Creation>)
    requires TasksOf(cs) != []
    ensures var s := Configure(cs);
      && s.order != [] && Shape(AtTail(s)) && AtTail(s).current !in s.pd
      && Unaged(AtTail(s)) && Tasked(AtTail(s), TasksOf(cs))
  {
    var s := Configure(cs);
    ConfigureShape(cs);
    ConfigureMeaning(cs);
    ConfigureUnaged(cs);
    hide Configure, ObjectShape, TasksOf, Supplied;
    TasksShape(s, AtTail(s));
    UnagedStays(s, AtTail(s));
    assert 0 !in s.pd;
  }

  /** OS_Start runs the first created of the most urgent tasks. */
  lemma FirstTask(cs: seq<Creation>, batches: seq<nat>) returns (i: nat)
    requires TasksOf(cs) != [] && LegalTasks(TasksOf(cs))
    ensures Start(cs, batches).Some? && MostUrgent(TasksOf(cs), i) && Start(cs, batches).value.current == i + 1
  {
    ReadyToStart(cs);
    assert ListShape(AtTail(Configure(cs)));
    hide Configure, Shape, ListShape, TasksOf, LegalTasks, MostUrgent, Dispatch, Unaged, Tasked;
    i := FirstRuns(AtTail(Configure(cs)), TasksOf(cs), batches);
  }
}
