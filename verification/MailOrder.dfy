/** End-to-end order of messages through a mailbox, over whole runs. */
module MailOrder {
  import opened KernelTypes
  import opened KernelState
  import opened Requests
  import opened Scheduler
  import opened ShapeProofs
  import opened MainLoop
  import opened Invariants
  import opened CalmHandlers
  import opened Mailboxes
  import opened TameRuns
  import opened StepScope

  /** The messages of blocked senders, in queue order. */
  function Messages(q: seq<Pid>, pd: map<Pid, PD>): seq<Mail> {
    if q == [] then []
    else [if q[0] in pd then MailOf(q[0], pd[q[0]]) else NO_MAIL] + Messages(q[1..], pd)
  }

  lemma MessagesSame(q: seq<Pid>, pd: map<Pid, PD>, pd': map<Pid, PD>)
    requires forall p :: p in q ==> p in pd && p in pd' && pd'[p].args == pd[p].args
    ensures Messages(q, pd') == Messages(q, pd)
  {
    if q != [] {
      assert q[0] in q;
      MessagesSame(q[1..], pd, pd');
    }
  }

  lemma MessagesAppend(q: seq<Pid>, p: Pid, pd: map<Pid, PD>)
    requires p in pd
    ensures Messages(q + [p], pd) == Messages(q, pd) + [MailOf(p, pd[p])]
  {
    if q != [] {
      assert (q + [p])[1..] == q[1..] + [p];
      MessagesAppend(q[1..], p, pd);
    }
  }

  function BoxTraffic(b: Mb, pd: map<Pid, PD>): seq<Mail> {
    b.delivered + b.mails + Messages(b.send, pd)
  }

  /** Everything that was ever sent to mailbox `id` and not refused: delivered, stored, or pending
      with a blocked sender. */
  function Traffic(s: KState, id: nat): seq<Mail> {
    if 1 <= id <= |s.mbs| then BoxTraffic(s.mbs[id - 1], s.pd) else []
  }

  /** The message of a send request that is not refused. */
  function AcceptedNow(s: KState, e: Event, id: nat): seq<Mail> {
    if e.Call? && e.request.MbSend? && e.request.id == id && 1 <= id <= |s.mbs|
       && (e.request.blocking || |s.mbs[id - 1].mails| < s.mbs[id - 1].capacity)
    then [Mail(e.request.body, e.request.size, s.current)]
    else []
  }

  /** The accepted messages of a run, in request order. */
  function Accepted(s: KState, es: seq<Event>, id: nat): seq<Mail>
    requires Alive(s)
    decreases |es|
  {
    if es == [] then []
    else
      AcceptedNow(s, es[0], id)
      + if Step(s, es[0]).Some? then Accepted(Step(s, es[0]).value, es[1..], id) else []
  }

  /** The mailbox is the same, and so are the arguments of its blocked senders. */
  lemma TrafficKept(s: KState, s': KState, id: nat, c: Pid)
    requires 1 <= id <= |s.mbs| && id <= |s'.mbs| && s'.mbs[id - 1] == s.mbs[id - 1]
    requires ArgsKept(s, s', c) && MbShape(s.mbs[id - 1], s.pd) && c !in s.mbs[id - 1].send
    ensures Traffic(s', id) == Traffic(s, id)
  {
    MessagesSame(s.mbs[id - 1].send, s.pd, s'.pd);
  }

  lemma SendAddsLast(w: Box, p: Pid, m: Mail, blocking: bool)
    requires w.Ok() && p in w.pd && Settled(w.mb) && MailOf(p, w.pd[p]) == m
    ensures var r := SendOutcome(w, p, m, blocking).0;
      BoxTraffic(r.mb, r.pd) == BoxTraffic(w.mb, w.pd) + if blocking || |w.mb.mails| < w.mb.capacity then [m] else []
  {
    var r := SendOutcome(w, p, m, blocking).0;
    MessagesSame(w.mb.send, w.pd, r.pd);
    if |w.mb.mails| >= w.mb.capacity {
      if blocking { MessagesAppend(w.mb.send, p, r.pd); }
    } else {
      assert w.mb.send == [];
    }
  }

  /** The oldest mail moves to the front part, and the oldest blocked message into the gap. */
  lemma Shift<T>(a: seq<T>, b: seq<T>, x: T, c: seq<T>)
    requires b != []
    ensures (a + [b[0]]) + (b[1..] + [x]) + c == a + b + ([x] + c)
  {
    assert b == [b[0]] + b[1..];
  }

  lemma RefillKeepsOrder(w: Box, p: Pid, blocking: bool)
    requires w.Ok() && p in w.pd && Settled(w.mb) && w.mb.mails != [] && w.mb.send != []
    ensures var r := RecvOutcome(w, p, blocking).0; BoxTraffic(r.mb, r.pd) == BoxTraffic(w.mb, w.pd)
  {
    var b, r := w.mb, RecvOutcome(w, p, blocking).0;
    var q, rest := b.send[0], b.send[1..];
    assert q in b.send && forall x :: x in rest ==> x in b.send;
    MessagesSame(rest, w.pd, r.pd);
    Shift(b.delivered, b.mails, MailOf(q, w.pd[q]), Messages(rest, w.pd));
    assert r.mb.delivered == b.delivered + [b.mails[0]] && r.mb.mails == b.mails[1..] + [MailOf(q, w.pd[q])];
    assert r.mb.send == rest;
  }

  lemma RecvKeepsOrder(w: Box, p: Pid, blocking: bool)
    requires w.Ok() && p in w.pd && Settled(w.mb)
    ensures var r := RecvOutcome(w, p, blocking).0; BoxTraffic(r.mb, r.pd) == BoxTraffic(w.mb, w.pd)
  {
    if w.mb.mails != [] && w.mb.send != [] {
      RefillKeepsOrder(w, p, blocking);
    } else {
      MessagesSame(w.mb.send, w.pd, RecvOutcome(w, p, blocking).0.pd);
      if w.mb.mails != [] { assert w.mb.mails == [w.mb.mails[0]] + w.mb.mails[1..]; }
    }
  }

  /** Writing a return value does not touch the traffic. */
  lemma FinishTraffic(s: KState, retval: int, id: nat)
    requires s.current in s.pd && ObjectShape(s) && 1 <= id <= |s.mbs|
    ensures Traffic(Finish(s, retval), id) == Traffic(s, id)
  {
    assert MbShape(s.mbs[id - 1], s.pd);
    MessagesSame(s.mbs[id - 1].send, s.pd, Finish(s, retval).pd);
  }

  lemma SendTraffic(i: KState, r: Request, anchor: nat)
    requires Entered(i) && r.MbSend? && i.pd[i.current].args == r && 1 <= r.id <= |i.mbs|
    ensures Traffic(Send(i, r.id, r.body, r.size, r.blocking), r.id) ==
      Traffic(i, r.id) + AcceptedNow(i, Call(r, anchor, []), r.id)
  {
    var id, c := r.id, i.current;
    var m, w := Mail(r.body, r.size, c), BoxAt(i, id);
    BoxFacts(i, id);
    SendRefines(w, c, m, r.blocking);
    SendAddsLast(w, c, m, r.blocking);
    var (w', retval) := SendInternal(w, c, m, r.blocking);
    SentShape(i, id, m, r.blocking);
    FinishTraffic(WithBox(i, id, w'), retval, id);
  }

  lemma SentShape(i: KState, id: nat, m: Mail, blocking: bool)
    requires Shape(i) && i.current in i.pd && Awake(i.pd[i.current]) && 1 <= id <= |i.mbs|
    ensures var (w', retval) := SendInternal(BoxAt(i, id), i.current, m, blocking);
      i.current in w'.pd && ObjectShape(WithBox(i, id, w'))
  {
    var (w', retval) := SendInternal(BoxAt(i, id), i.current, m, blocking);
    if retval == -1 { BlockedSendShape(i, id, m); } else { BoxShape(i, id, w'); }
  }

  lemma RecvTraffic(i: KState, r: Request)
    requires Entered(i) && r.MbRecv? && 1 <= r.id <= |i.mbs|
    ensures Traffic(Recv(i, r.id, r.blocking), r.id) == Traffic(i, r.id)
  {
    var id, c := r.id, i.current;
    var w := BoxAt(i, id);
    BoxFacts(i, id);
    assert c !in w.mb.send;
    RecvRefines(w, c, r.blocking);
    RecvKeepsOrder(w, c, r.blocking);
    var (w', retval) := RecvInternal(w, c, c, r.blocking);
    ReceivedShape(i, id, r.blocking);
    FinishTraffic(WithBox(i, id, w'), retval, id);
  }

  lemma ReceivedShape(i: KState, id: nat, blocking: bool)
    requires Shape(i) && i.current in i.pd && Awake(i.pd[i.current]) && 1 <= id <= |i.mbs|
    ensures var (w', retval) := RecvInternal(BoxAt(i, id), i.current, i.current, blocking);
      i.current in w'.pd && ObjectShape(WithBox(i, id, w'))
  {
    var (w', retval) := RecvInternal(BoxAt(i, id), i.current, i.current, blocking);
    if retval == -1 { BlockedRecvShape(i, id); } else { BoxShape(i, id, w'); }
  }

  lemma OtherTraffic(i: KState, r: Request, anchor: nat, id: nat)
    requires Entered(i) && 1 <= id <= |i.mbs| && !((r.MbSend? || r.MbRecv?) && r.id == id)
    ensures Traffic(Handle(i, r, anchor), id) == Traffic(i, id)
  {
    assert i.lastPid + 1 !in i.pd;
    HandleArgs(i, r, anchor);
    BoxFacts(i, id);
    assert MbShape(i.mbs[id - 1], i.pd) && i.current !in i.mbs[id - 1].send;
    OtherMailbox(i, r, anchor, id);
    TrafficKept(i, Handle(i, r, anchor), id, i.current);
  }

  lemma OtherMailbox(i: KState, r: Request, anchor: nat, id: nat)
    requires i.current in i.pd && ObjectShape(i) && 1 <= id <= |i.mbs| && !((r.MbSend? || r.MbRecv?) && r.id == id)
    ensures id <= |Handle(i, r, anchor).mbs| && Handle(i, r, anchor).mbs[id - 1] == i.mbs[id - 1]
  {
    if !(r.MbSend? || r.MbRecv?) { HandleScope(i, r, anchor); }
  }

  lemma MailTraffic(i: KState, r: Request, anchor: nat)
    requires Entered(i) && (r.MbSend? || r.MbRecv?) && i.pd[i.current].args == r && 1 <= r.id <= |i.mbs|
    ensures Traffic(Handle(i, r, anchor), r.id) == Traffic(i, r.id) + AcceptedNow(i, Call(r, anchor, []), r.id)
  {
    assert ObjectShape(i);
    hide Sound, Shape, ObjectShape, Traffic, Send, Recv, AcceptedNow;
    if r.MbSend? {
      SendTraffic(i, r, anchor);
    } else {
      RecvTraffic(i, r);
      NothingAccepted(i, r, anchor, r.id);
    }
  }

  lemma NothingAccepted(i: KState, r: Request, anchor: nat, id: nat)
    requires !(r.MbSend? && r.id == id)
    ensures AcceptedNow(i, Call(r, anchor, []), id) == []
  {
  }

  lemma HandleTraffic(i: KState, r: Request, anchor: nat, id: nat)
    requires Entered(i) && (r.CarriesArgs() ==> i.pd[i.current].args == r)
    ensures Traffic(Handle(i, r, anchor), id) == Traffic(i, id) + AcceptedNow(i, Call(r, anchor, []), id)
  {
    assert ObjectShape(i);
    hide Sound, Shape, ObjectShape, Handle, Traffic, AcceptedNow;
    if !(1 <= id <= |i.mbs|) {
      NewMailboxEmpty(i, r, anchor, id);
    } else if (r.MbSend? || r.MbRecv?) && r.id == id {
      MailTraffic(i, r, anchor);
    } else {
      OtherTraffic(i, r, anchor, id);
      NothingAccepted(i, r, anchor, id);
    }
  }

  lemma NewMailboxEmpty(i: KState, r: Request, anchor: nat, id: nat)
    requires i.current in i.pd && ObjectShape(i) && !(1 <= id <= |i.mbs|)
    ensures Traffic(Handle(i, r, anchor), id) == Traffic(i, id) + AcceptedNow(i, Call(r, anchor, []), id)
  {
    if !r.MbCreate? {
      HandleScope(i, r, anchor);
    }
  }

  lemma SleepTraffic(s: KState, t: nat, id: nat)
    requires Alive(s) && Inv(s) && s.current in s.pd
    ensures Traffic(Sleep(Issue(s, TaskSleep(t))), id) == Traffic(s, id)
  {
    if 1 <= id <= |s.mbs| {
      BoxFacts(s, id);
      assert MbShape(s.mbs[id - 1], s.pd);
      TrafficKept(s, Sleep(Issue(s, TaskSleep(t))), id, s.current);
    }
  }

  lemma IssueTraffic(s: KState, r: Request, id: nat)
    requires Alive(s) && Inv(s) && s.current in s.pd
    ensures Traffic(Issue(s, r), id) == Traffic(s, id)
  {
    if 1 <= id <= |s.mbs| {
      BoxFacts(s, id);
      assert MbShape(s.mbs[id - 1], s.pd);
      TrafficKept(s, Issue(s, r), id, s.current);
    }
  }

  lemma SwitchTraffic(h: KState, s': KState, id: nat)
    requires ObjectShape(h) && SameObjects(h, s')
    ensures Traffic(s', id) == Traffic(h, id)
  {
    if 1 <= id <= |h.mbs| {
      assert MbShape(h.mbs[id - 1], h.pd);
      MessagesSame(h.mbs[id - 1].send, h.pd, s'.pd);
    }
  }

  lemma CalledTraffic(s: KState, r: Request, anchor: nat, id: nat)
    requires Alive(s) && Inv(s) && s.current in s.pd && TameRequest(s, r)
    ensures Traffic(Called(s, r, anchor), id) == Traffic(s, id) + AcceptedNow(s, Call(r, anchor, []), id)
  {
    if r.TaskSleep? {
      SleepTraffic(s, r.timeout, id);
    } else {
      hide Inv, Entered, Handle, Traffic, AcceptedNow, ListShape, ObjectShape;
      IssueSound(s, r);
      IssueTraffic(s, r, id);
      HandleTraffic(Issue(s, r), r, anchor, id);
    }
  }

  lemma StepTraffic(s: KState, e: Event, id: nat)
    requires Alive(s) && Inv(s) && Tame(s, e) && Step(s, e).Some?
    ensures Traffic(Step(s, e).value, id) == Traffic(s, id) + AcceptedNow(s, e, id)
  {
    if e.Call? {
      assert s.current in s.order && s.current in s.pd;
      CalledTraffic(s, e.request, e.anchor, id);
      StepObjects(s, e);
      SwitchTraffic(Called(s, e.request, e.anchor), Step(s, e).value, id);
    }
  }

  /** First in, first out, end to end: what has been delivered, is stored and is still blocked is,
      in this order, exactly what was accepted, in request order. Nothing is lost, duplicated or
      overtaken, not even by the blocking hand-off. */
  lemma {:induction false} FirstInFirstOut(s: KState, es: seq<Event>, id: nat)
    requires Alive(s) && Inv(s) && Along(s, es, Tame)
    ensures Exec(s, es).Some? ==> Traffic(Exec(s, es).value, id) == Traffic(s, id) + Accepted(s, es, id)
    decreases |es|
  {
    if es != [] && Step(s, es[0]).Some? {
      var s1 := Step(s, es[0]).value;
      StepTraffic(s, es[0], id);
      StepSound(s, es[0]);
      FirstInFirstOut(s1, es[1..], id);
      Associates(Traffic(s, id), AcceptedNow(s, es[0], id), Accepted(s1, es[1..], id));
    }
  }

  lemma Associates<T>(a: seq<T>, b: seq<T>, c: seq<T>)
    ensures (a + b) + c == a + (b + c)
  {
  }

  lemma {:induction false} NothingSentYet(cs: seq<Creation>, id: nat)
    ensures Traffic(Configure(cs), id) == []
    decreases |cs|
  {
    if cs != [] {
      hide Create, Traffic;
      NothingSentYet(cs[..|cs| - 1], id);
      CreatesNoTraffic(Configure(cs[..|cs| - 1]), cs[|cs| - 1], id);
    }
  }

  lemma CreatesNoTraffic(s: KState, c: Creation, id: nat)
    requires Traffic(s, id) == []
    ensures Traffic(Create(s, c), id) == []
  {
  }

  lemma StartTraffic(cs: seq<Creation>, batches: seq<nat>, id: nat)
    requires Start(cs, batches).Some?
    ensures Traffic(Start(cs, batches).value, id) == []
  {
    hide Dispatch, Configure, ObjectShape, Traffic;
    ConfigureShape(cs);
    NothingSentYet(cs, id);
    var s1 := Configure(cs).(last := |Configure(cs).order| - 1);
    TasksShape(Configure(cs), s1);
    DispatchObjects(s1, batches);
    SwitchTraffic(s1, Start(cs, batches).value, id);
    TrafficSame(Configure(cs), s1, id);
  }

  lemma TrafficSame(s: KState, s': KState, id: nat)
    requires s'.mbs == s.mbs && s'.pd == s.pd
    ensures Traffic(s', id) == Traffic(s, id)
  {
  }

  /** From boot on: delivered, stored and blocked messages are the accepted ones, in request order. */
  lemma FirstInFirstOutFromBoot(cs: seq<Creation>, batches: seq<nat>, es: seq<Event>, id: nat)
    requires forall c :: c in cs ==> LegalCreation(c)
    requires Start(cs, batches).Some? && Along(Start(cs, batches).value, es, Tame)
    ensures var s := Start(cs, batches).value;
      Exec(s, es).Some? ==> Traffic(Exec(s, es).value, id) == Accepted(s, es, id)
  {
    hide Alive, Inv, Along, Exec, Start, Traffic, Accepted, LegalCreation;
    var s := Start(cs, batches).value;
    StartSound(cs, batches);
    StartTraffic(cs, batches, id);
    FirstInFirstOut(s, es, id);
    assert [] + Accepted(s, es, id) == Accepted(s, es, id);
  }

  /** A mailbox of capacity 0 is accepted by the kernel but never delivers anything. */
  lemma {:induction false} NoCapacityNoDelivery(s: KState, es: seq<Event>, id: nat)
    requires Alive(s) && Inv(s) && Along(s, es, Tame) && 1 <= id <= |s.mbs| && s.mbs[id - 1].capacity == 0
    ensures Exec(s, es).Some? ==>
      id <= |Exec(s, es).value.mbs| && Exec(s, es).value.mbs[id - 1].delivered == s.mbs[id - 1].delivered
    decreases |es|
  {
    if es != [] && Step(s, es[0]).Some? {
      NoCapacityStep(s, es[0], id);
      StepSound(s, es[0]);
      NoCapacityNoDelivery(Step(s, es[0]).value, es[1..], id);
    }
  }

  lemma NoCapacityHandle(i: KState, r: Request, anchor: nat, id: nat)
    requires i.current in i.pd && ObjectShape(i)
    requires 1 <= id <= |i.mbs| && i.mbs[id - 1].capacity == 0 && i.mbs[id - 1].mails == []
    ensures var h := Handle(i, r, anchor);
      id <= |h.mbs| && h.mbs[id - 1].capacity == 0 && h.mbs[id - 1].delivered == i.mbs[id - 1].delivered
  {
    if (r.MbSend? || r.MbRecv?) && r.id == id {
      assert i.mbs[id - 1].mails == [];
    } else {
      OtherMailbox(i, r, anchor, id);
    }
  }

  lemma NoCapacityStep(s: KState, e: Event, id: nat)
    requires Alive(s) && Inv(s) && Step(s, e).Some? && 1 <= id <= |s.mbs| && s.mbs[id - 1].capacity == 0
    ensures var s' := Step(s, e).value;
      id <= |s'.mbs| && s'.mbs[id - 1].capacity == 0 && s'.mbs[id - 1].delivered == s.mbs[id - 1].delivered
  {
    assert Settled(s.mbs[id - 1]);
    if e.Call? {
      assert s.current in s.order && s.current in s.pd;
      IssueShape(s, e.request);
      NoCapacityHandle(Issue(s, e.request), e.request, e.anchor, id);
      StepObjects(s, e);
    }
  }

  /** From boot, in every tame run: a mailbox holds no more than its capacity, receivers wait only
      while it is empty, and senders only while it is full. */
  lemma NobodyWaitsNeedlessly(cs: seq<Creation>, batches: seq<nat>, es: seq<Event>, id: nat)
    requires forall c :: c in cs ==> LegalCreation(c)
    requires Start(cs, batches).Some? && Along(Start(cs, batches).value, es, Tame)
    requires Exec(Start(cs, batches).value, es).Some?
    ensures var s := Exec(Start(cs, batches).value, es).value;
      1 <= id <= |s.mbs| ==>
        var b := s.mbs[id - 1];
        && |b.mails| <= b.capacity && (b.recv != [] ==> b.mails == []) && (b.send != [] ==> |b.mails| == b.capacity)
        && (b.send != [] && b.recv != [] ==> b.capacity == 0)
  {
    AlwaysSound(cs, batches, es);
    var s := Exec(Start(cs, batches).value, es).value;
    if 1 <= id <= |s.mbs| { assert Settled(s.mbs[id - 1]); }
  }
}
