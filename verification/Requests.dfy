/** One specification function for each request handler of task.c, mutex.c, semaphore.c,
    event_group.c and mailbox.c. Each gives the kernel state after the handler returns. */
module Requests {
  import opened KernelTypes
  import opened KernelState

  function Cur(s: KState): PD
    requires s.current in s.pd
  {
    s.pd[s.current]
  }

  function WithCur(s: KState, d: PD): KState {
    s.(pd := s.pd[s.current := d])
  }

  function Return(s: KState, v: int): KState
    requires s.current in s.pd
  {
    WithCur(s, Cur(s).(retval := v))
  }

  function Fail(s: KState, e: ErrorCode): KState {
    s.(err := e)
  }

  /** The current task stops running in state `st`, and asks for a switch. */
  function Block(s: KState, st: ProcessState): KState
    requires s.current in s.pd
  {
    WithCur(s, Cur(s).(state := st)).(cswitch := true)
  }

  /** The os.c stub: store the arguments and the timeout in the calling task, then enter the kernel. */
  function Issue(s: KState, r: Request): KState
    requires s.current in s.pd
  {
    var d := Cur(s);
    var d1 := if r.CarriesArgs() then d.(args := r) else d;
    var d2 := if r.SetsTimeout() then d1.(timeout := r.timeout) else d1;
    WithCur(s, d2).(err := NO_ERR)
  }

  /** Unless a switch is asked for, the current task and its list position stay valid. */
  predicate Stays(s: KState, s': KState) {
    && s'.current == s.current
    && (!s'.cswitch ==> s'.last == s.last && s.order <= s'.order)
  }

  // ----- task.c

  function NewTask(pri: nat): PD {
    PD(pri, pri, READY, NoRequest, 0, 0, DEAD, 0, NO_MAIL, [], true)
  }

  function CreateTaskDirect(s: KState, pri: nat): (KState, nat) {
    if |s.order| == MAXTHREAD then (Fail(s, MAX_OBJECT_ERR), 0)
    else
      var p := s.lastPid + 1;
      (s.(lastPid := p, order := s.order + [p], pd := s.pd[p := NewTask(pri)]), p)
  }

  function CreateTask(s: KState, pri: nat): (s': KState)
    requires s.current in s.pd
    ensures Stays(s, s')
  {
    var (s1, p) := CreateTaskDirect(s, pri);
    Return(s1, p)
  }

  /** When the terminated task is not the list head its node is freed while Last_Dispatched still
      points at it; `anchor` is the position the next scan then starts from. */
  function Terminate(s: KState, anchor: nat): (s': KState)
    requires s.current in s.pd
    ensures Stays(s, s')
  {
    var i := IndexOf(s.order, s.current);
    var s1 := Block(s, DEAD);
    if i == |s.order| then s1
    else
      var rest := s.order[..i] + s.order[i + 1..];
      s1.(order := rest, last := if i == 0 || rest == [] then 0 else anchor % |rest|)
  }

  function Suspend(s: KState, p: Pid): (s': KState)
    ensures Stays(s, s')
  {
    if p !in s.pd || p !in s.order then Fail(s, OBJECT_NOT_FOUND_ERR)
    else
      var d := s.pd[p];
      if !(d.state == READY || d.state == RUNNING || d.state == SLEEPING) then
        Fail(s, UNPROCESSABLE_TASK_STATE_ERR)
      else
        s.(pd := s.pd[p := d.(lastState := if d.state == RUNNING then READY else d.state, state := SUSPENDED)])
  }

  function Resume(s: KState, p: Pid): (s': KState)
    ensures Stays(s, s')
  {
    if p !in s.pd || p !in s.order then Fail(s, OBJECT_NOT_FOUND_ERR)
    else
      var d := s.pd[p];
      if d.state != SUSPENDED then Fail(s, UNPROCESSABLE_TASK_STATE_ERR)
      else
        s.(pd := s.pd[p := d.(state := if d.lastState == RUNNING then READY else d.lastState,
                              lastState := SUSPENDED)])
  }

  function Sleep(s: KState): (s': KState)
    requires s.current in s.pd
    ensures Stays(s, s')
  {
    Block(s, SLEEPING)
  }

  // ----- mutex.c

  function NewMutex(): Mut { Mut(0, 0, LOWEST_PRIORITY, 0, [], []) }

  function CreateMutex(s: KState): (KState, nat) {
    if |s.muts| >= MAX_OBJECTS then (Fail(s, MAX_OBJECT_ERR), 0)
    else (s.(muts := s.muts + [NewMutex()]), |s.muts| + 1)
  }

  function WithMut(s: KState, id: nat, m: Mut): KState
    requires 1 <= id <= |s.muts|
  {
    s.(muts := s.muts[id - 1 := m])
  }

  function LookupError(id: nat): ErrorCode {
    if id == 0 then INVALID_ARG_ERR else OBJECT_NOT_FOUND_ERR
  }

  function Lock(s: KState, id: nat): (s': KState)
    requires s.current in s.pd
    ensures Stays(s, s')
  {
    if !(1 <= id <= |s.muts|) then Fail(s, LookupError(id))
    else
      var m, d := s.muts[id - 1], Cur(s);
      if m.owner == 0 then
        WithMut(WithCur(s, d.(held := d.held + [id])), id,
                m.(owner := s.current, ownerOrig := d.pri, highest := d.pri, lockCount := m.lockCount + 1))
      else if m.owner == s.current then
        WithMut(s, id, m.(lockCount := m.lockCount + 1))
      else
        var waiting := m.(waiters := m.waiters + [s.current], origs := m.origs + [d.pri],
                          highest := Min(m.highest, d.pri));
        Block(WithMut(WithCur(s, d.(pri := Min(m.highest, d.pri))), id, waiting), WAIT_MUTEX)
  }

  predicate Owns(s: KState, p: Pid, id: nat) {
    1 <= id <= |s.muts| && s.muts[id - 1].owner == p
  }

  /** Fully releasing `id` leaves the priority at creation recoverable: either another mutex was
      acquired before it, or no other is held, or the next one has saved the same priority. */
  predicate SafeRelease(s: KState, id: nat)
    requires s.current in s.pd
  {
    var d := s.pd[s.current];
    |d.held| > 1 && d.held[0] == id && Owns(s, s.current, d.held[1]) ==> s.muts[d.held[1] - 1].ownerOrig == d.base
  }

  function Without(held: seq<nat>, id: nat): seq<nat> {
    var i := IndexOf(held, id);
    if i == |held| then held else held[..i] + held[i + 1..]
  }

  /** What a release may do to a descriptor: only the releasing task and a waiter become READY. */
  ghost predicate ReleaseTouches(d: PD, d': PD, releasing: bool) {
    && d' == d.(state := d'.state, pri := d'.pri, held := d'.held, orderly := d'.orderly)
    && (d'.state == d.state || (d'.state == READY && (releasing || d.state == WAIT_MUTEX)))
  }

  ghost predicate AllReleased(s: KState, s': KState) {
    && s'.pd.Keys == s.pd.Keys
    && (forall p :: p in s'.pd ==> p in s.pd && ReleaseTouches(s.pd[p], s'.pd[p], p == s.current))
  }

  /** Kernel_Lock_Mutex_From_Queue: pass the released mutex to the head of its wait queue. */
  function HandOff(s: KState, id: nat): (s': KState)
    requires s.current in s.pd && 1 <= id <= |s.muts|
    requires s.muts[id - 1].waiters != [] && s.muts[id - 1].waiters[0] in s.pd
    ensures Stays(s, s') && AllReleased(s, s')
  {
    var m := s.muts[id - 1];
    var p := m.waiters[0];
    var m' := m.(owner := p, lockCount := m.lockCount + 1, waiters := m.waiters[1..],
                 ownerOrig := if m.origs == [] then 0 else m.origs[0],
                 origs := if m.origs == [] then [] else m.origs[1..]);
    var s1 := WithMut(s.(pd := s.pd[p := s.pd[p].(held := s.pd[p].held + [id])]), id, m');
    if s1.pd[p].state != WAIT_MUTEX then s1
    else Block(s1.(pd := s1.pd[p := s1.pd[p].(state := READY, pri := m.highest)]), READY)
  }

  function Unlock(s: KState, id: nat): (s': KState)
    requires s.current in s.pd && ObjectShape(s)
    ensures Stays(s, s') && AllReleased(s, s')
  {
    if !(1 <= id <= |s.muts|) then Fail(s, LookupError(id))
    else
      var m, d := s.muts[id - 1], Cur(s);
      if m.owner != s.current then Fail(s, OBJECT_NOT_FOUND_ERR)
      else if m.lockCount > 1 then WithMut(s, id, m.(lockCount := m.lockCount - 1))
      else
        var d' := d.(pri := m.ownerOrig, held := Without(d.held, id), orderly := d.orderly && SafeRelease(s, id));
        var s1 := WithMut(WithCur(s, d'), id, m.(lockCount := 0));
        if m.waiters == [] then WithMut(s1, id, s1.muts[id - 1].(owner := 0))
        else HandOff(s1, id)
  }

  // ----- semaphore.c

  function NewSemaphore(initial: int, binary: bool): Sem {
    Sem(if binary then (if initial >= 1 then 1 else 0) else initial, binary, [])
  }

  function CreateSemaphore(s: KState, initial: int, binary: bool): (KState, nat) {
    if |s.sems| >= MAX_OBJECTS then (Fail(s, MAX_OBJECT_ERR), 0)
    else (s.(sems := s.sems + [NewSemaphore(initial, binary)]), |s.sems| + 1)
  }

  /** request_args[1] of a task that waits for a semaphore. */
  function Amount(d: PD): int {
    if d.args.SemGet? then d.args.amount else 0
  }

  datatype Drained = Drained(sem: Sem, pd: map<Pid, PD>, stale: bool)

  /** Kernel_Semaphore_Get_From_Queue: serve the head of the queue while the count suffices. */
  function Drain(m: Sem, pd: map<Pid, PD>): (r: Drained)
    requires SemShape(m, pd)
    decreases |m.waiters|
  {
    if m.waiters == [] then Drained(m, pd, false)
    else
      var p := m.waiters[0];
      if m.count - Amount(pd[p]) < 0 then Drained(m, pd, false)
      else if pd[p].state != WAIT_SEMAPHORE then Drained(m, pd, true)
      else Drain(m.(count := m.count - Amount(pd[p]), waiters := m.waiters[1..]), pd[p := pd[p].(state := READY)])
  }

  function WithSem(s: KState, id: nat, m: Sem): KState
    requires 1 <= id <= |s.sems|
  {
    s.(sems := s.sems[id - 1 := m])
  }

  function Clamp(amount: int): int { if amount > 1 then 1 else if amount < 0 then 0 else amount }

  function SemaphoreGet(s: KState, id: nat, amount: int): (s': KState)
    requires s.current in s.pd
    ensures Stays(s, s')
  {
    if !(1 <= id <= |s.sems|) then Fail(s, OBJECT_NOT_FOUND_ERR)
    else
      var m := s.sems[id - 1];
      var want := if m.binary then Clamp(amount) else amount;
      var s1 := WithCur(s, Cur(s).(args := SemGet(id, want)));
      if m.count - want < 0 then Block(WithSem(s1, id, m.(waiters := m.waiters + [s.current])), WAIT_SEMAPHORE)
      else WithSem(s1, id, m.(count := m.count - want))
  }

  /** The semaphore as Kernel_Semaphore_Give leaves it before it looks at the queue. */
  function Given(m: Sem, amount: int): Sem {
    m.(count := if m.binary && m.count + amount > 1 then 1 else m.count + amount)
  }

  function SemaphoreGive(s: KState, id: nat, amount: int): (s': KState)
    requires ObjectShape(s)
    ensures Stays(s, s')
  {
    if !(1 <= id <= |s.sems|) then Fail(s, OBJECT_NOT_FOUND_ERR)
    else
      var m1 := Given(s.sems[id - 1], amount);
      if m1.count > 0 && m1.waiters != [] then
        var r := Drain(m1, s.pd);
        var s1 := WithSem(s, id, r.sem).(pd := r.pd);
        if r.stale then Fail(s1, UNPROCESSABLE_TASK_STATE_ERR) else s1
      else WithSem(s, id, m1)
  }

  // ----- event_group.c

  function CreateEventGroup(s: KState): (KState, nat) {
    if |s.egs| >= MAX_OBJECTS then (Fail(s, MAX_OBJECT_ERR), 0)
    else (s.(egs := s.egs + [0]), |s.egs| + 1)
  }

  function Raised(events: bv16, bits: bv16): bv16 { events | bits }

  function Cleared(events: bv16, bits: bv16): bv16 { events & !bits }

  /** The wait condition: any awaited bit, or all of them. */
  predicate Satisfied(events: bv16, bits: bv16, all: bool) {
    (events & bits > 0 && !all) || events & bits == bits
  }

  function WokenBy(d: PD, id: nat, events: bv16): PD {
    if d.state == WAIT_EVENTG && d.args.EgWaitBits? && d.args.id == id
       && Satisfied(events, d.args.bits, d.args.all)
    then d.(state := READY)
    else d
  }

  /** The group has these events now; every listed task is looked at. */
  function WithEvents(s: KState, id: nat, events: bv16): (s': KState)
    requires 1 <= id <= |s.egs|
    ensures Stays(s, s')
  {
    s.(egs := s.egs[id - 1 := events],
       pd := map p | p in s.pd :: if p in s.order then WokenBy(s.pd[p], id, events) else s.pd[p])
  }

  function SetBits(s: KState, id: nat, bits: bv16): (s': KState)
    ensures Stays(s, s')
  {
    if !(1 <= id <= |s.egs|) then Fail(s, OBJECT_NOT_FOUND_ERR)
    else WithEvents(s, id, Raised(s.egs[id - 1], bits))
  }

  function ClearBits(s: KState, id: nat, bits: bv16): (s': KState)
    ensures Stays(s, s')
  {
    if !(1 <= id <= |s.egs|) then Fail(s, OBJECT_NOT_FOUND_ERR)
    else s.(egs := s.egs[id - 1 := Cleared(s.egs[id - 1], bits)])
  }

  function WaitBits(s: KState, id: nat, bits: bv16, all: bool): (s': KState)
    requires s.current in s.pd
    ensures Stays(s, s')
  {
    if !(1 <= id <= |s.egs|) then s
    else if Satisfied(s.egs[id - 1], bits, all) then s
    else Block(s, WAIT_EVENTG)
  }

  // ----- mailbox.c

  function CreateMailbox(s: KState, capacity: nat): (KState, nat) {
    if |s.mbs| >= MAX_OBJECTS then (Fail(s, MAX_OBJECT_ERR), 0)
    else (s.(mbs := s.mbs + [Mb(capacity, [], [], [], [])]), |s.mbs| + 1)
  }

  /** What the four hand-off procedures read and write. */
  datatype Box = Box(mb: Mb, pd: map<Pid, PD>, cswitch: bool, err: ErrorCode)
  {
    ghost predicate Ok() { MbShape(mb, pd) }

    function Waiting(): nat { |mb.send| + |mb.recv| }

    function SetState(p: Pid, st: ProcessState): Box
      requires p in pd
    {
      this.(pd := pd[p := pd[p].(state := st)])
    }
  }

  /** The message that a blocked sender left in its request arguments. */
  function MailOf(p: Pid, d: PD): Mail {
    if d.args.MbSend? then Mail(d.args.body, d.args.size, p) else Mail(0, 0, p)
  }

  /** A descriptor that hand-off touched: it can only have been woken and its destination written. */
  ghost predicate Handled(d: PD, d': PD) {
    && d' == d.(state := d'.state, dest := d'.dest)
    && (d'.state == d.state || (d'.state == READY && d.state == WAIT_MAILBOX))
  }

  ghost predicate AllHandled(pd: map<Pid, PD>, pd': map<Pid, PD>) {
    pd.Keys == pd'.Keys && forall p :: p in pd ==> Handled(pd[p], pd'[p])
  }

  lemma HandledTwice(a: map<Pid, PD>, b: map<Pid, PD>, c: map<Pid, PD>)
    requires AllHandled(a, b) && AllHandled(b, c)
    ensures AllHandled(a, c)
  {
    forall p | p in a ensures Handled(a[p], c[p]) {
      assert Handled(a[p], b[p]) && Handled(b[p], c[p]);
    }
  }

  /** Waking `p` after a nested operation is still only a wake-up. */
  lemma HandledAndWoken(a: map<Pid, PD>, b: map<Pid, PD>, p: Pid)
    requires AllHandled(a, b) && p in a && a[p].state == WAIT_MAILBOX
    ensures AllHandled(a, b[p := b[p].(state := READY)])
  {
    assert Handled(a[p], b[p]);
  }

  function SendInternal(w: Box, p: Pid, m: Mail, blocking: bool): (r: (Box, int))
    requires w.Ok() && p in w.pd
    ensures r.0.Ok() && (r.1 != -1 ==> AllHandled(w.pd, r.0.pd))
    ensures !blocking ==> r.1 != -1 && r.0.Waiting() <= w.Waiting()
    decreases w.Waiting(), 1
  {
    if |w.mb.mails| >= w.mb.capacity then
      if !blocking then (w, 0)
      else (w.(mb := w.mb.(send := w.mb.send + [p]), cswitch := true).SetState(p, WAIT_MAILBOX), -1)
    else
      var w1 := w.(mb := w.mb.(mails := w.mb.mails + [m]));
      (if w1.mb.recv != [] then RecvFromQueue(w1) else w1, 1)
  }

  function RecvFromQueue(w: Box): (r: Box)
    requires w.Ok()
    ensures r.Ok() && AllHandled(w.pd, r.pd) && r.Waiting() <= w.Waiting()
    decreases w.Waiting(), 0
  {
    if w.mb.recv == [] || w.mb.mails == [] then w
    else
      var p := w.mb.recv[0];
      var w1 := w.(mb := w.mb.(recv := w.mb.recv[1..]));
      if w1.pd[p].state != WAIT_MAILBOX then w1.(err := UNPROCESSABLE_TASK_STATE_ERR)
      else
        var w2 := RecvInternal(w1, p, p, false).0;
        HandledAndWoken(w.pd, w2.pd, p);
        var w3 := w2.SetState(p, READY);
        var r := RecvFromQueue(w3);
        HandledTwice(w.pd, w3.pd, r.pd);
        r
  }

  /** `p` receives; a blocking receive on an empty mailbox queues `c`, the current task. */
  function RecvInternal(w: Box, p: Pid, c: Pid, blocking: bool): (r: (Box, int))
    requires w.Ok() && p in w.pd && c in w.pd
    ensures r.0.Ok() && (r.1 != -1 ==> AllHandled(w.pd, r.0.pd))
    ensures !blocking ==> r.1 != -1 && r.0.Waiting() <= w.Waiting()
    decreases w.Waiting(), 1
  {
    if w.mb.mails == [] then
      if !blocking then (w.(pd := w.pd[p := w.pd[p].(dest := NO_MAIL)]), 0)
      else (w.(mb := w.mb.(recv := w.mb.recv + [c]), cswitch := true).SetState(c, WAIT_MAILBOX), -1)
    else
      var m := w.mb.mails[0];
      var w1 := w.(mb := w.mb.(mails := w.mb.mails[1..], delivered := w.mb.delivered + [m]),
                   pd := w.pd[p := w.pd[p].(dest := m)]);
      (if w1.mb.send != [] then SendFromQueue(w1) else w1, 1)
  }

  function SendFromQueue(w: Box): (r: Box)
    requires w.Ok()
    ensures r.Ok() && AllHandled(w.pd, r.pd) && r.Waiting() <= w.Waiting()
    decreases w.Waiting(), 0
  {
    if w.mb.send == [] || |w.mb.mails| >= w.mb.capacity then w
    else
      var p := w.mb.send[0];
      var w1 := w.(mb := w.mb.(send := w.mb.send[1..]));
      if w1.pd[p].state != WAIT_MAILBOX then w1.(err := UNPROCESSABLE_TASK_STATE_ERR)
      else
        var w2 := SendInternal(w1, p, MailOf(p, w1.pd[p]), false).0;
        HandledAndWoken(w.pd, w2.pd, p);
        var w3 := w2.SetState(p, READY);
        var r := SendFromQueue(w3);
        HandledTwice(w.pd, w3.pd, r.pd);
        r
  }

  function BoxAt(s: KState, id: nat): Box
    requires 1 <= id <= |s.mbs|
  {
    Box(s.mbs[id - 1], s.pd, s.cswitch, s.err)
  }

  function WithBox(s: KState, id: nat, w: Box): KState
    requires 1 <= id <= |s.mbs|
  {
    s.(mbs := s.mbs[id - 1 := w.mb], pd := w.pd, cswitch := w.cswitch, err := w.err)
  }

  /** A hand-off result of -1 means that the operation is pending: nothing is returned yet. */
  function Finish(s: KState, retval: int): KState
    requires s.current in s.pd
  {
    if retval >= 0 then Return(s, retval) else s
  }

  function Send(s: KState, id: nat, body: int, size: nat, blocking: bool): (s': KState)
    requires s.current in s.pd && ObjectShape(s)
    ensures Stays(s, s')
  {
    if !(1 <= id <= |s.mbs|) then Return(Fail(s, OBJECT_NOT_FOUND_ERR), 0)
    else
      var (w, retval) := SendInternal(BoxAt(s, id), s.current, Mail(body, size, s.current), blocking);
      Finish(WithBox(s, id, w), retval)
  }

  function Recv(s: KState, id: nat, blocking: bool): (s': KState)
    requires s.current in s.pd && ObjectShape(s)
    ensures Stays(s, s')
  {
    if !(1 <= id <= |s.mbs|) then Return(Fail(s, OBJECT_NOT_FOUND_ERR), 0)
    else
      var (w, retval) := RecvInternal(BoxAt(s, id), s.current, s.current, blocking);
      Finish(WithBox(s, id, w), retval)
  }

  function Check(s: KState, id: nat): (s': KState)
    requires s.current in s.pd
    ensures Stays(s, s')
  {
    if !(1 <= id <= |s.mbs|) then Return(Fail(s, OBJECT_NOT_FOUND_ERR), 0)
    else Return(s, |s.mbs[id - 1].mails|)
  }

  // ----- the request switch of Kernel_Main_Loop

  function Created(r: (KState, nat)): (s': KState)
    requires r.0.current in r.0.pd
    ensures Stays(r.0, s')
  {
    Return(r.0, r.1)
  }

  function Handle(s: KState, r: Request, anchor: nat): (s': KState)
    requires s.current in s.pd && ObjectShape(s)
    ensures Stays(s, s')
  {
    match r
    case TaskCreate(pri) => CreateTask(s, pri)
    case TaskTerminate => Terminate(s, anchor)
    case TaskSuspend(p) => Suspend(s, p)
    case TaskResume(p) => Resume(s, p)
    case TaskSleep(_) => Sleep(s)
    case MutCreate => Created(CreateMutex(s))
    case MutLock(id) => Lock(s, id)
    case MutUnlock(id) => Unlock(s, id)
    case SemCreate(initial, binary) => Created(CreateSemaphore(s, initial, binary))
    case SemGive(id, amount) => SemaphoreGive(s, id, amount)
    case SemGet(id, amount) => SemaphoreGet(s, id, amount)
    case EgCreate => Created(CreateEventGroup(s))
    case EgSetBits(id, bits) => SetBits(s, id, bits)
    case EgClearBits(id, bits) => ClearBits(s, id, bits)
    case EgWaitBits(id, bits, all, _) => WaitBits(s, id, bits, all)
    case MbCreate(capacity) => Created(CreateMailbox(s, capacity))
    case MbCheck(id) => Check(s, id)
    case MbSend(id, body, size, blocking, _) => Send(s, id, body, size, blocking)
    case MbRecv(id, blocking, _) => Recv(s, id, blocking)
    case Invalid => Fail(s, INVALID_REQUEST_ERR)
    case TaskYield => s
    case NoRequest => s
  }
}
