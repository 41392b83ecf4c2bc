/** Which error each request ends with, and that a refused request has no effect. */
module Refusals {
  import opened KernelTypes
  import opened KernelState
  import opened Requests
  import opened MainLoop
  import opened TameRuns
  import opened Effects
  import opened Outcomes
  import opened MailAnswers
  import opened SemaphoreAnswers

  /** Objects are numbered from 1. */
  function LookUp(id: nat, n: nat): ErrorCode {
    if id == 0 || id > n then OBJECT_NOT_FOUND_ERR else NO_ERR
  }

  /** There are MAX_OBJECTS of each kind at most. */
  function Room(n: nat): ErrorCode {
    if n < MAX_OBJECTS then NO_ERR else MAX_OBJECT_ERR
  }

  /** The error of a request. Mutex calls report id 0 as an invalid argument; an unlock by a task that is not the
      owner does not find the mutex; a wait on a missing event group is not reported. */
  function ErrorOf(s: KState, r: Request): ErrorCode
    requires s.current in s.pd
  {
    match r
    case TaskCreate(_) => if |s.order| == MAXTHREAD then MAX_OBJECT_ERR else NO_ERR
    case TaskSuspend(p) =>
      if p !in s.order || p !in s.pd then OBJECT_NOT_FOUND_ERR
      else if s.pd[p].state in {READY, RUNNING, SLEEPING} then NO_ERR else UNPROCESSABLE_TASK_STATE_ERR
    case TaskResume(p) =>
      if p !in s.order || p !in s.pd then OBJECT_NOT_FOUND_ERR
      else if s.pd[p].state == SUSPENDED then NO_ERR else UNPROCESSABLE_TASK_STATE_ERR
    case MutCreate => Room(|s.muts|)
    case SemCreate(_, _) => Room(|s.sems|)
    case EgCreate => Room(|s.egs|)
    case MbCreate(_) => Room(|s.mbs|)
    case MutLock(id) => if id == 0 then INVALID_ARG_ERR else LookUp(id, |s.muts|)
    case MutUnlock(id) =>
      if id == 0 then INVALID_ARG_ERR
      else if id <= |s.muts| && s.muts[id - 1].owner != s.current then OBJECT_NOT_FOUND_ERR
      else LookUp(id, |s.muts|)
    case SemGive(id, _) => LookUp(id, |s.sems|)
    case SemGet(id, _) => LookUp(id, |s.sems|)
    case EgSetBits(id, _) => LookUp(id, |s.egs|)
    case EgClearBits(id, _) => LookUp(id, |s.egs|)
    case MbCheck(id) => LookUp(id, |s.mbs|)
    case MbSend(id, _, _, _, _) => LookUp(id, |s.mbs|)
    case MbRecv(id, _, _) => LookUp(id, |s.mbs|)
    case Invalid => INVALID_REQUEST_ERR
    case _ => NO_ERR
  }

  /** Nothing has changed but what the caller's stub stored, the caller's result and the error. */
  ghost predicate Unaffected(s: KState, h: KState) {
    var c := s.current;
    && h == s.(pd := h.pd, err := h.err) && OthersSame(s, h, {c})
    && c in s.pd && c in h.pd && CallerSame(s.pd[c].(retval := h.pd[c].retval), h.pd[c])
  }

  ghost predicate Reports(s: KState, r: Request, h: KState)
    requires s.current in s.pd
  {
    h.err == ErrorOf(s, r) && (h.err != NO_ERR ==> Unaffected(s, h))
  }

  lemma StoredUnaffected(s: KState, r: Request, h: KState)
    requires s.current in s.pd && h == s.(pd := h.pd, err := h.err)
    requires var c := s.current;
      c in h.pd && CallerSame(s.pd[c].(retval := h.pd[c].retval), h.pd[c]) && h.pd == s.pd[c := h.pd[c]]
    ensures Unaffected(s, h)
  {
  }

  lemma ReturnsUnaffected(s: KState, h: KState, v: int)
    requires Returns(s, h, v) && h == s.(pd := h.pd, err := h.err)
    ensures Unaffected(s, h)
  {
  }

  lemma TaskReports(s: KState, r: Request, anchor: nat)
    requires Alive(s) && s.current in s.pd && (r.TaskSuspend? || r.TaskResume?)
    ensures Reports(s, r, Called(s, r, anchor))
  {
    hide Alive, Called;
    SuspensionMeaning(s, r, anchor);
  }

  lemma TaskCreateReports(s: KState, pri: nat, anchor: nat)
    requires Alive(s) && s.current in s.pd
    ensures Reports(s, TaskCreate(pri), Called(s, TaskCreate(pri), anchor))
  {
    assert !s.cswitch;
    hide Alive, Called, Fresh, Unaffected;
    TaskCreateAdds(s, pri, anchor);
    if |s.order| == MAXTHREAD { ReturnsUnaffected(s, Called(s, TaskCreate(pri), anchor), 0); }
  }

  lemma CreateReports(s: KState, r: Request, anchor: nat)
    requires Alive(s) && s.current in s.pd && CreatesObject(r)
    ensures Reports(s, r, Called(s, r, anchor))
  {
    var h := Called(s, r, anchor);
    assert !s.cswitch;
    hide Alive, Called, Unaffected;
    CreationsGive(s, r, anchor);
    if h.err != NO_ERR { ReturnsUnaffected(s, h, 0); }
  }

  lemma SemaphoreReports(s: KState, r: Request, anchor: nat)
    requires Alive(s) && Inv(s) && s.current in s.pd && TameRequest(s, r) && (r.SemGive? || r.SemGet?)
    ensures Reports(s, r, Called(s, r, anchor))
  {
    assert !s.cswitch;
    hide Alive, Called, Inv, Issue, ObjectShape, Paid, WokeOnly;
    if r.id == 0 || r.id > |s.sems| {
      IssueStores(s, r);
      CalledHandles(s, r, anchor);
      StoredUnaffected(s, r, Called(s, r, anchor));
    } else if r.SemGive? {
      var k := GiveAnswers(s, r.id, r.amount, anchor);
    } else {
      GetAnswers(s, r.id, r.amount, anchor);
    }
  }

  lemma MailMissing(s: KState, r: Request, anchor: nat)
    requires Alive(s) && s.current in s.pd
    requires r.MbCheck? || ((r.MbSend? || r.MbRecv?) && (r.id == 0 || r.id > |s.mbs|))
    ensures Reports(s, r, Called(s, r, anchor))
  {
    hide Alive, Called, OthersSame;
    OtherAnswers(s, r, anchor);
  }

  lemma MailReports(s: KState, r: Request, anchor: nat)
    requires Alive(s) && Inv(s) && s.current in s.pd && TameRequest(s, r) && (r.MbCheck? || r.MbSend? || r.MbRecv?)
    ensures Reports(s, r, Called(s, r, anchor))
  {
    hide Alive, Called, Inv, OthersSame, Told, Pending, Unaffected;
    if r.MbCheck? || r.id == 0 || r.id > |s.mbs| {
      MailMissing(s, r, anchor);
    } else if r.MbSend? {
      SendAnswers(s, r.id, r.body, r.size, r.blocking, r.timeout, anchor);
    } else {
      RecvAnswers(s, r.id, r.blocking, r.timeout, anchor);
    }
  }

  lemma EventErr(i: KState, r: Request, anchor: nat)
    requires i.current in i.pd && ObjectShape(i) && (r.EgSetBits? || r.EgClearBits? || r.EgWaitBits?) && i.err == NO_ERR
    ensures var h := Handle(i, r, anchor); h.err == ErrorOf(i, r) && (h.err != NO_ERR ==> h == i.(err := h.err))
  {
    hide ObjectShape, Stays, Satisfied, WokenBy;
  }

  lemma EventReports(s: KState, r: Request, anchor: nat)
    requires Alive(s) && s.current in s.pd && (r.EgSetBits? || r.EgClearBits? || r.EgWaitBits?)
    ensures Reports(s, r, Called(s, r, anchor))
  {
    hide Alive, Called, Issue, ObjectShape, Handle, Unaffected;
    StubStores(s, r);
    CalledHandles(s, r, anchor);
    EventErr(Issue(s, r), r, anchor);
    if Called(s, r, anchor).err != NO_ERR { StoredUnaffected(s, r, Called(s, r, anchor)); }
  }

  lemma LockErr(i: KState, r: Request)
    requires i.current in i.pd && ObjectShape(i) && (r.MutLock? || r.MutUnlock?) && i.err == NO_ERR
    ensures var h := if r.MutLock? then Lock(i, r.id) else Unlock(i, r.id);
      h.err == ErrorOf(i, r) && (h.err != NO_ERR ==> h == i.(err := h.err))
  {
    hide ObjectShape, Stays, AllReleased, SafeRelease, Without;
  }

  lemma MutexReports(s: KState, r: Request, anchor: nat)
    requires Alive(s) && s.current in s.pd && (r.MutLock? || r.MutUnlock?)
    ensures Reports(s, r, Called(s, r, anchor))
  {
    hide Alive, Called, Issue, ObjectShape, Lock, Unlock, Unaffected;
    IssueStores(s, r);
    CalledHandles(s, r, anchor);
    LockErr(Issue(s, r), r);
    if Called(s, r, anchor).err != NO_ERR { StoredUnaffected(s, r, Called(s, r, anchor)); }
  }

  lemma RestReports(s: KState, r: Request, anchor: nat)
    requires Alive(s) && s.current in s.pd
    requires r.NoRequest? || r.TaskYield? || r.TaskSleep? || r.TaskTerminate? || r.Invalid?
    ensures Reports(s, r, Called(s, r, anchor))
  {
    CalledHandles(s, r, anchor);
    assert !s.cswitch;
    hide Alive, Called, ObjectShape, Stays, Unaffected;
    if r.Invalid? { StoredUnaffected(s, r, Called(s, r, anchor)); }
  }

  /** Every tame request in an invariant state ends with exactly this error; and when there is one, the request has
      had no effect but on the caller's own result. */
  lemma ErrorMeaning(s: KState, r: Request, anchor: nat)
    requires Alive(s) && Inv(s) && s.current in s.pd && TameRequest(s, r)
    ensures Reports(s, r, Called(s, r, anchor))
  {
    hide Alive, Inv, Called, Reports, ErrorOf;
    if r.TaskCreate? { TaskCreateReports(s, r.pri, anchor); }
    else if r.TaskSuspend? || r.TaskResume? { TaskReports(s, r, anchor); }
    else if r.MutCreate? || r.SemCreate? || r.EgCreate? || r.MbCreate? { CreateReports(s, r, anchor); }
    else if r.SemGive? || r.SemGet? { SemaphoreReports(s, r, anchor); }
    else if r.MbCheck? || r.MbSend? || r.MbRecv? { MailReports(s, r, anchor); }
    else if r.EgSetBits? || r.EgClearBits? || r.EgWaitBits? { EventReports(s, r, anchor); }
    else if r.MutLock? || r.MutUnlock? { MutexReports(s, r, anchor); }
    else { RestReports(s, r, anchor); }
  }
}
