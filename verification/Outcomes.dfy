/** What the other requests come to: which task or object a creation gives, where suspension, resumption, sleep and
    termination leave a task, and which requests are refused. */
module Outcomes {
  import opened KernelTypes
  import opened KernelState
  import opened Requests
  import opened MainLoop
  import opened StepScope
  import opened Effects

  /** The caller goes on, and has read v; nobody else is affected. */
  ghost predicate Returns(s: KState, h: KState, v: int) {
    var c := s.current;
    && c in s.pd && c in h.pd && CallerSame(s.pd[c].(retval := v), h.pd[c]) && !h.cswitch && h.current == c
    && OthersSame(s, h, {c})
  }

  // ----- creations

  /** What is new after a creation: the object itself, unless there are MAX_OBJECTS already. */
  ghost predicate Gives<T(!new)>(s: KState, h: KState, before: seq<T>, after: seq<T>, made: T) {
    if |before| < MAX_OBJECTS then Returns(s, h, |before| + 1) && h.err == NO_ERR && after == before + [made]
    else Returns(s, h, 0) && h.err == MAX_OBJECT_ERR && after == before
  }

  /** A binary semaphore starts with one unit if asked for any, and with none otherwise. */
  function FirstCount(r: Request): Sem
    requires r.SemCreate?
  {
    Sem(if !r.binary then r.initial else if r.initial < 1 then 0 else 1, r.binary, [])
  }

  /** The object that a creation makes: free, with its initial count, or empty. No other object is touched. */
  ghost predicate Makes(s: KState, r: Request, h: KState) {
    && SameList(s, h) && SameTime(s, h) && h.lastPid == s.lastPid
    && (if r.MutCreate? then Gives(s, h, s.muts, h.muts, Mut(0, 0, LOWEST_PRIORITY, 0, [], [])) else h.muts == s.muts)
    && (if r.SemCreate? then Gives(s, h, s.sems, h.sems, FirstCount(r)) else h.sems == s.sems)
    && (if r.EgCreate? then Gives(s, h, s.egs, h.egs, 0) else h.egs == s.egs)
    && (if r.MbCreate? then Gives(s, h, s.mbs, h.mbs, Mb(r.capacity, [], [], [], [])) else h.mbs == s.mbs)
  }

  predicate CreatesObject(r: Request) { r.MutCreate? || r.SemCreate? || r.EgCreate? || r.MbCreate? }

  lemma HandleMakes(s: KState, i: KState, r: Request, anchor: nat)
    requires s.current in s.pd && i.current in i.pd && ObjectShape(i) && !s.cswitch && CreatesObject(r)
    requires var c := s.current;
      c in i.pd && i == s.(pd := s.pd[c := i.pd[c]], err := NO_ERR) && CallerSame(s.pd[c], i.pd[c])
    ensures Makes(s, r, Handle(i, r, anchor))
  {
    hide ObjectShape, Stays;
    OneTask(s, Handle(i, r, anchor), s.current);
    hide OthersSame;
  }

  /** A creation returns the number of the new object, or 0 and an error when there are eight already. */
  lemma CreationsGive(s: KState, r: Request, anchor: nat)
    requires Alive(s) && CreatesObject(r)
    ensures Makes(s, r, Called(s, r, anchor))
  {
    Entering(s);
    assert !s.cswitch;
    hide Alive, Called, Issue, Makes, CreatesObject, Handle;
    CalledHandles(s, r, anchor);
    StubStores(s, r);
    HandleMakes(s, Issue(s, r), r, anchor);
  }

  // ----- tasks

  /** The descriptor of a task that was just created. */
  predicate Fresh(d: PD, pri: nat) {
    && d.pri == d.base == pri && d.state == READY && d.timeout == 0 && d.starvation == 0 && d.held == [] && d.orderly
    && d.args == NoRequest && d.dest == NO_MAIL
  }

  lemma TaskMade(i: KState, pri: nat)
    requires i.current in i.pd && i.lastPid + 1 !in i.pd
    ensures var h, c, p := CreateTask(i, pri), i.current, i.lastPid + 1;
      if |i.order| == MAXTHREAD then h == i.(pd := i.pd[c := i.pd[c].(retval := 0)], err := MAX_OBJECT_ERR)
      else
        && p in h.pd && Fresh(h.pd[p], pri)
        && h == i.(pd := i.pd[p := h.pd[p]][c := i.pd[c].(retval := p)], order := i.order + [p], lastPid := p)
  {
    hide Stays;
  }

  /** A new task gets the next PID, is READY with the given priority, and joins the end of the list; with
      MAXTHREAD tasks on the list there is none, and the caller reads 0. */
  ghost predicate Adds(s: KState, pri: nat, h: KState) {
    var p := s.lastPid + 1;
    && SameTime(s, h) && SameQueues(s, h) && h.egs == s.egs && h.last == s.last
    && if |s.order| == MAXTHREAD then
         Returns(s, h, 0) && h.err == MAX_OBJECT_ERR && h.order == s.order && h.lastPid == s.lastPid
       else
         && Returns(s, h.(pd := h.pd - {p}), p) && p !in s.pd && p in h.pd && Fresh(h.pd[p], pri)
         && h.order == s.order + [p] && h.lastPid == p && h.err == NO_ERR
  }

  lemma TaskAdds(s: KState, pri: nat)
    requires s.current in s.pd && s.lastPid + 1 !in s.pd && !s.cswitch
    ensures var r, c := TaskCreate(pri), s.current;
      Adds(s, pri, CreateTask(s.(pd := s.pd[c := s.pd[c].(args := r)], err := NO_ERR), pri))
  {
    var c, p := s.current, s.lastPid + 1;
    var i := s.(pd := s.pd[c := s.pd[c].(args := TaskCreate(pri))], err := NO_ERR);
    var h := CreateTask(i, pri);
    TaskMade(i, pri);
    hide CreateTask, Fresh;
    if |s.order| == MAXTHREAD {
      OneTask(s, h, c);
    } else {
      assert (h.pd - {p}) == s.pd[c := h.pd[c]];
      OneTask(s, h.(pd := h.pd - {p}), c);
    }
  }

  lemma TaskCreateAdds(s: KState, pri: nat, anchor: nat)
    requires Alive(s)
    ensures Adds(s, pri, Called(s, TaskCreate(pri), anchor))
  {
    Entering(s);
    assert !s.cswitch;
    hide Called, Alive, Issue, Adds, CreateTask, ObjectShape;
    IssueStores(s, TaskCreate(pri));
    CalledHandles(s, TaskCreate(pri), anchor);
    TaskAdds(s, pri);
  }

  /** The state a task is suspended from, and resumes to. */
  function Unfrozen(st: ProcessState): ProcessState { if st == RUNNING then READY else st }

  predicate CanSuspend(d: PD) { d.state in {READY, RUNNING, SLEEPING} }

  /** What the caller's stub stores: a suspension or resumption of the caller itself sees it. */
  function Stored(s: KState, r: Request, p: Pid): PD
    requires p in s.pd
  {
    if p == s.current then s.pd[p].(args := r) else s.pd[p]
  }

  /** Suspending a READY, RUNNING or SLEEPING task makes it SUSPENDED, and remembers what it was; resuming a
      SUSPENDED one brings that back, a RUNNING one as READY. Otherwise nothing but the error is new. */
  ghost predicate Freezes(s: KState, r: Request, p: Pid, h: KState) {
    var c := s.current;
    && c in s.pd && h == s.(pd := h.pd, err := h.err)
    && if p !in s.order || p !in s.pd then h.err == OBJECT_NOT_FOUND_ERR && h.pd == s.pd[c := Stored(s, r, c)]
       else
         var d := Stored(s, r, p);
         var ok := if r.TaskSuspend? then CanSuspend(d) else d.state == SUSPENDED;
         && h.err == (if ok then NO_ERR else UNPROCESSABLE_TASK_STATE_ERR)
         && h.pd == s.pd[c := Stored(s, r, c)]
                        [p := if !ok then d
                              else if r.TaskSuspend? then d.(state := SUSPENDED, lastState := Unfrozen(d.state))
                              else d.(state := Unfrozen(d.lastState), lastState := SUSPENDED)]
  }

  lemma SuspendFreezes(s: KState, p: Pid)
    requires s.current in s.pd && !s.cswitch
    ensures var r, c := TaskSuspend(p), s.current;
      Freezes(s, r, p, Suspend(s.(pd := s.pd[c := s.pd[c].(args := r)], err := NO_ERR), p))
  {
    hide Stays;
  }

  lemma ResumeFreezes(s: KState, p: Pid)
    requires s.current in s.pd && !s.cswitch
    ensures var r, c := TaskResume(p), s.current;
      Freezes(s, r, p, Resume(s.(pd := s.pd[c := s.pd[c].(args := r)], err := NO_ERR), p))
  {
    hide Stays;
  }

  /** So does every call of Task_Suspend and Task_Resume. */
  lemma SuspensionMeaning(s: KState, r: Request, anchor: nat)
    requires Alive(s) && (r.TaskSuspend? || r.TaskResume?)
    ensures Freezes(s, r, r.pid, Called(s, r, anchor))
  {
    Entering(s);
    assert !s.cswitch;
    hide Alive, Called, Issue, Freezes, Suspend, Resume, ObjectShape;
    IssueStores(s, r);
    CalledHandles(s, r, anchor);
    if r.TaskSuspend? { SuspendFreezes(s, r.pid); } else { ResumeFreezes(s, r.pid); }
  }

  /** A suspended task that another one resumes is what it was, READY or SLEEPING. */
  lemma ResumeUndoesSuspend(s: KState, p: Pid, a1: nat, a2: nat)
    requires Alive(s) && p in s.order && p in s.pd && p != s.current && CanSuspend(s.pd[p])
    requires Alive(Called(s, TaskSuspend(p), a1))
    ensures var h1 := Called(s, TaskSuspend(p), a1);
      && p in h1.pd && h1.pd[p].state == SUSPENDED && h1.err == NO_ERR
      && var h2 := Called(h1, TaskResume(p), a2);
         && p in h2.pd && h2.err == NO_ERR
         && h2.pd[p] == s.pd[p].(state := Unfrozen(s.pd[p].state), lastState := SUSPENDED)
  {
    hide Called, Alive;
    SuspensionMeaning(s, TaskSuspend(p), a1);
    SuspensionMeaning(Called(s, TaskSuspend(p), a1), TaskResume(p), a2);
  }

  /** The caller sleeps, with its timer set, and a switch is due; nobody else is affected. */
  lemma SleepMeaning(s: KState, t: nat, anchor: nat)
    requires Alive(s) && s.current in s.pd
    ensures Called(s, TaskSleep(t), anchor) ==
      s.(pd := s.pd[s.current := s.pd[s.current].(timeout := t, state := SLEEPING)], cswitch := true, err := NO_ERR)
  {
    hide ListShape, ObjectShape;
    CalledHandles(s, TaskSleep(t), anchor);
  }

  /** The list without the task at position i: the others keep their order. */
  ghost predicate Removed(before: seq<Pid>, after: seq<Pid>, i: nat) {
    && i < |before| && |after| == |before| - 1
    && (forall j :: 0 <= j < i ==> after[j] == before[j])
    && (forall j :: i < j < |before| ==> after[j - 1] == before[j])
  }

  lemma IssueClears(s: KState)
    requires s.current in s.pd
    ensures Issue(s, TaskTerminate) == s.(err := NO_ERR)
  {
    assert s.pd[s.current := s.pd[s.current]] == s.pd;
  }

  lemma CallerRemoved(s: KState, anchor: nat)
    requires s.current in s.pd && s.last < |s.order| && s.order[s.last] == s.current && NoDup(s.order)
    ensures var h, c := Terminate(s, anchor), s.current;
      && h == s.(pd := s.pd[c := s.pd[c].(state := DEAD)], order := h.order, last := h.last, cswitch := true)
      && Removed(s.order, h.order, s.last) && (s.last == 0 ==> h.last == 0) && (h.order != [] ==> h.last < |h.order|)
  {
    var i := IndexOf(s.order, s.current);
    assert i < |s.order| && s.order[i] == s.current;
    hide Stays;
  }

  /** Terminating takes the caller, and nobody else, off the list, and a switch is due. When it was the head of the
      list, the next scan starts behind the new head. */
  lemma TerminateMeaning(s: KState, anchor: nat)
    requires Alive(s) && s.current in s.pd
    ensures var h, c := Called(s, TaskTerminate, anchor), s.current;
      && h == s.(pd := s.pd[c := s.pd[c].(state := DEAD)], order := h.order, last := h.last, cswitch := true,
                 err := NO_ERR)
      && Removed(s.order, h.order, s.last) && (s.last == 0 ==> h.last == 0) && (h.order != [] ==> h.last < |h.order|)
  {
    assert s.last < |s.order| && s.order[s.last] == s.current && NoDup(s.order);
    hide Alive, ObjectShape, Issue, Called, Terminate, Removed, NoDup;
    IssueClears(s);
    CalledHandles(s, TaskTerminate, anchor);
    CallerRemoved(s.(err := NO_ERR), anchor);
  }
}
