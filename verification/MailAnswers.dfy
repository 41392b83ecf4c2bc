/** What a sender and a receiver are told: 1 if and only if the message was taken or given, 0 if and only if it
    was refused, and nothing while the operation is pending. */
module MailAnswers {
  import opened KernelTypes
  import opened KernelState
  import opened Requests
  import opened ShapeProofs
  import opened MainLoop
  import opened Invariants
  import opened CalmHandlers
  import opened Mailboxes
  import opened TameRuns
  import opened Effects
  import opened MailOrder

  // ----- the handlers

  /** What a send does, by the state of the mailbox. */
  ghost predicate Sent(s: KState, h: KState, id: nat, m: Mail, blocking: bool)
    requires 1 <= id <= |s.mbs| && s.current in s.pd
  {
    var b, c, d := s.mbs[id - 1], s.current, s.pd[s.current];
    if |b.mails| >= b.capacity && !blocking then
      h == s.(pd := s.pd[c := d.(retval := 0)])
    else if |b.mails| >= b.capacity then
      h == s.(pd := s.pd[c := d.(state := WAIT_MAILBOX)], mbs := s.mbs[id - 1 := b.(send := b.send + [c])],
              cswitch := true)
    else if b.recv == [] then
      h == s.(pd := s.pd[c := d.(retval := 1)], mbs := s.mbs[id - 1 := b.(mails := b.mails + [m])])
    else
      var q := b.recv[0];
      && q in s.pd && q != c
      && h == s.(pd := s.pd[c := d.(retval := 1)][q := s.pd[q].(dest := m, state := READY)],
                 mbs := s.mbs[id - 1 := b.(recv := b.recv[1..], delivered := b.delivered + [m])])
  }

  lemma SendView(i: KState, id: nat, body: int, size: nat, blocking: bool)
    requires Entered(i) && 1 <= id <= |i.mbs|
    ensures Sent(i, Send(i, id, body, size, blocking), id, Mail(body, size, i.current), blocking)
  {
    var b, c, m := i.mbs[id - 1], i.current, Mail(body, size, i.current);
    if |b.mails| < b.capacity && b.recv != [] {
      SendHandsOver(i, id, body, size, blocking);
    } else {
      BoxFacts(i, id);
      SendRefines(BoxAt(i, id), c, m, blocking);
      hide SendInternal, Sound, Shape, ObjectShape;
      assert i.mbs[id - 1 := b] == i.mbs;
    }
  }

  /** What a receive does. */
  ghost predicate Received(s: KState, h: KState, id: nat, blocking: bool)
    requires 1 <= id <= |s.mbs| && s.current in s.pd
  {
    var b, c, d := s.mbs[id - 1], s.current, s.pd[s.current];
    if b.mails == [] && !blocking then
      h == s.(pd := s.pd[c := d.(dest := NO_MAIL, retval := 0)])
    else if b.mails == [] then
      h == s.(pd := s.pd[c := d.(state := WAIT_MAILBOX)], mbs := s.mbs[id - 1 := b.(recv := b.recv + [c])],
              cswitch := true)
    else
      var d', delivered := d.(dest := b.mails[0], retval := 1), b.delivered + [b.mails[0]];
      if b.send == [] then
        h == s.(pd := s.pd[c := d'], mbs := s.mbs[id - 1 := b.(mails := b.mails[1..], delivered := delivered)])
      else
        var q := b.send[0];
        && q in s.pd && q != c && s.pd[q].args.MbSend?
        && h == s.(pd := s.pd[c := d'][q := s.pd[q].(state := READY)],
                   mbs := s.mbs[id - 1 := b.(mails := b.mails[1..] + [Mail(s.pd[q].args.body, s.pd[q].args.size, q)],
                                             send := b.send[1..], delivered := delivered)])
  }

  lemma RecvRefillView(i: KState, id: nat, blocking: bool)
    requires Entered(i) && 1 <= id <= |i.mbs| && i.mbs[id - 1].mails != [] && i.mbs[id - 1].send != []
    ensures Received(i, Recv(i, id, blocking), id, blocking)
  {
    hide Recv, Sound, Shape, Agree, ObjectShape, MbsSettled, AllWaitForMail;
    EnteredParts(i);
    BoxFacts(i, id);
    assert i.mbs[id - 1].send[0] in i.mbs[id - 1].send;
    RecvRefills(i, id, blocking);
  }

  lemma EnteredParts(i: KState)
    requires Entered(i)
    ensures ObjectShape(i) && Agree(i) && MbsSettled(i)
  {
  }

  lemma RecvEmptyView(i: KState, id: nat, blocking: bool)
    requires Entered(i) && 1 <= id <= |i.mbs| && i.mbs[id - 1].mails == []
    ensures Received(i, Recv(i, id, blocking), id, blocking)
  {
    hide Sound, Shape, ObjectShape, SendFromQueue, Stays;
    assert i.mbs[id - 1 := i.mbs[id - 1]] == i.mbs;
  }

  lemma RecvTakesView(i: KState, id: nat, blocking: bool)
    requires Entered(i) && 1 <= id <= |i.mbs| && i.mbs[id - 1].mails != [] && i.mbs[id - 1].send == []
    ensures Received(i, Recv(i, id, blocking), id, blocking)
  {
    hide Sound, Shape, ObjectShape, SendFromQueue, Stays;
  }

  lemma RecvView(i: KState, id: nat, blocking: bool)
    requires Entered(i) && 1 <= id <= |i.mbs|
    ensures Received(i, Recv(i, id, blocking), id, blocking)
  {
    hide Recv, Received, Sound, Shape;
    if i.mbs[id - 1].mails == [] { RecvEmptyView(i, id, blocking); }
    else if i.mbs[id - 1].send == [] { RecvTakesView(i, id, blocking); }
    else { RecvRefillView(i, id, blocking); }
  }

  // ----- the requests

  /** The call is over: the caller goes on, and reads the result v. */
  ghost predicate Told(s: KState, h: KState, v: int) {
    var c := s.current;
    c in s.pd && c in h.pd && CallerSame(s.pd[c].(dest := h.pd[c].dest, retval := v), h.pd[c]) && !h.cswitch
  }

  /** The caller waits, and its result is not written yet. */
  ghost predicate Pending(s: KState, h: KState) {
    var c := s.current;
    c in s.pd && c in h.pd && CallerSame(s.pd[c].(state := WAIT_MAILBOX), h.pd[c]) && h.cswitch
  }

  /** Only mailbox `id` and tasks differ, and no error is reported. */
  predicate Exchanged(s: KState, h: KState, id: nat, b: Mb)
    requires 1 <= id <= |s.mbs|
  {
    Quiet(s, h.(mbs := s.mbs, cswitch := false)) && h.mbs == s.mbs[id - 1 := b]
  }

  lemma TwoTasks(s: KState, h: KState, c: Pid, q: Pid)
    requires c in s.pd && q in s.pd && c in h.pd && q in h.pd && h.pd == s.pd[c := h.pd[c]][q := h.pd[q]]
    ensures OthersSame(s, h, {c, q})
  {
  }

  /** A send: refused with 0 when the mailbox is full and it must not block; pending when it may; otherwise
      answered 1, with the message stored or handed to the first waiting receiver, who alone is woken. */
  lemma SendAnswers(s: KState, id: nat, body: int, size: nat, blocking: bool, t: nat, anchor: nat)
    requires Alive(s) && Inv(s) && (blocking ==> t == 0) && 1 <= id <= |s.mbs|
    ensures var h, b, c := Called(s, MbSend(id, body, size, blocking, t), anchor), s.mbs[id - 1], s.current;
      var m := Mail(body, size, c);
      if |b.mails| >= b.capacity && !blocking then
        Told(s, h, 0) && Exchanged(s, h, id, b) && OthersSame(s, h, {c}) && h.pd[c].dest == s.pd[c].dest
      else if |b.mails| >= b.capacity then
        Pending(s, h) && Exchanged(s, h, id, b.(send := b.send + [c])) && OthersSame(s, h, {c})
      else if b.recv == [] then
        && Told(s, h, 1) && Exchanged(s, h, id, b.(mails := b.mails + [m])) && OthersSame(s, h, {c})
        && h.pd[c].dest == s.pd[c].dest
      else
        var q := b.recv[0];
        && Told(s, h, 1) && Exchanged(s, h, id, b.(recv := b.recv[1..], delivered := b.delivered + [m]))
        && OthersSame(s, h, {c, q}) && q in s.pd && q in h.pd && q != c
        && h.pd[q] == s.pd[q].(dest := m, state := READY)
  {
    hide Inv, Entered, Send, ListShape, ObjectShape;
    var r, c, b := MbSend(id, body, size, blocking, t), s.current, s.mbs[id - 1];
    Effects.Entering(s);
    IssueSound(s, r);
    StubStores(s, r);
    SendView(Issue(s, r), id, body, size, blocking);
    hide Issue;
    var h := Called(s, r, anchor);
    if |b.mails| < b.capacity && b.recv != [] { TwoTasks(s, h, c, b.recv[0]); } else { OneTask(s, h, c); }
    assert s.mbs[id - 1 := b] == s.mbs;
  }

  /** A receive: refused with 0 and no message when the mailbox is empty and it must not block; pending when it
      may; otherwise answered 1 with the oldest message, and the first blocked sender, if any, deposits its own
      and is woken. */
  lemma RecvAnswers(s: KState, id: nat, blocking: bool, t: nat, anchor: nat)
    requires Alive(s) && Inv(s) && (blocking ==> t == 0) && 1 <= id <= |s.mbs|
    ensures var h, b, c := Called(s, MbRecv(id, blocking, t), anchor), s.mbs[id - 1], s.current;
      if b.mails == [] && !blocking then
        Told(s, h, 0) && Exchanged(s, h, id, b) && OthersSame(s, h, {c}) && h.pd[c].dest == Mail(0, 0, 0)
      else if b.mails == [] then
        Pending(s, h) && Exchanged(s, h, id, b.(recv := b.recv + [c])) && OthersSame(s, h, {c})
      else
        && Told(s, h, 1) && h.pd[c].dest == b.mails[0]
        && var taken := b.(mails := b.mails[1..], delivered := b.delivered + [b.mails[0]]);
           if b.send == [] then Exchanged(s, h, id, taken) && OthersSame(s, h, {c})
           else
             var q := b.send[0];
             && q in s.pd && q in h.pd && q != c && s.pd[q].args.MbSend? && OthersSame(s, h, {c, q})
             && h.pd[q] == s.pd[q].(state := READY)
             && Exchanged(s, h, id, taken.(send := b.send[1..],
                                           mails := taken.mails + [Mail(s.pd[q].args.body, s.pd[q].args.size, q)]))
  {
    hide Inv, Entered, Recv, ListShape, ObjectShape;
    var r, c, b := MbRecv(id, blocking, t), s.current, s.mbs[id - 1];
    Effects.Entering(s);
    IssueSound(s, r);
    StubStores(s, r);
    RecvView(Issue(s, r), id, blocking);
    hide Issue;
    var h := Called(s, r, anchor);
    if b.mails != [] && b.send != [] { TwoTasks(s, h, c, b.send[0]); } else { OneTask(s, h, c); }
    assert s.mbs[id - 1 := b] == s.mbs;
  }

  lemma CheckAnswers(s: KState, id: nat, anchor: nat)
    requires Alive(s) && s.current in s.pd
    ensures var i, c := Issue(s, MbCheck(id)), s.current;
      && c in i.pd && Called(s, MbCheck(id), anchor) ==
         if 1 <= id <= |s.mbs| then i.(pd := i.pd[c := i.pd[c].(retval := |s.mbs[id - 1].mails|)])
         else i.(pd := i.pd[c := i.pd[c].(retval := 0)], err := OBJECT_NOT_FOUND_ERR)
  {
    IssueShape(s, MbCheck(id));
    hide ListShape, ObjectShape, Stays;
  }

  lemma MissingAnswers(s: KState, r: Request, anchor: nat)
    requires Alive(s) && s.current in s.pd && (r.MbSend? || r.MbRecv?) && !(1 <= r.id <= |s.mbs|)
    ensures var i, c := Issue(s, r), s.current;
      c in i.pd && Called(s, r, anchor) == i.(pd := i.pd[c := i.pd[c].(retval := 0)], err := OBJECT_NOT_FOUND_ERR)
  {
    IssueShape(s, r);
    hide ListShape, ObjectShape, SendInternal, RecvInternal, Stays;
  }

  /** A check tells the number of stored mails. Without such a mailbox every mailbox call is answered 0, with an
      error, and changes nothing. */
  lemma OtherAnswers(s: KState, r: Request, anchor: nat)
    requires Alive(s) && (r.MbCheck? || ((r.MbSend? || r.MbRecv?) && !(1 <= r.id <= |s.mbs|)))
    ensures var h, c := Called(s, r, anchor), s.current;
      && Told(s, h, if 1 <= r.id <= |s.mbs| then |s.mbs[r.id - 1].mails| else 0)
      && h.pd[c].dest == s.pd[c].dest && OthersSame(s, h, {c}) && h == s.(pd := h.pd, err := h.err)
      && h.err == if 1 <= r.id <= |s.mbs| then NO_ERR else OBJECT_NOT_FOUND_ERR
  {
    Effects.Entering(s);
    assert !s.cswitch;
    hide Called, Alive, Issue;
    if r.MbCheck? { CheckAnswers(s, r.id, anchor); } else { MissingAnswers(s, r, anchor); }
    StubStores(s, r);
    OneTask(s, Called(s, r, anchor), s.current);
  }

  // ----- runs

  /** A call that asks for no switch always comes back at once, so that its result can be read after the step. */
  lemma ComesBack(s: KState, e: Event)
    requires Alive(s) && e.Call? && !e.request.TaskYield? && !e.request.NoRequest?
    requires !Called(s, e.request, e.anchor).cswitch
    ensures Step(s, e) == Some(Called(s, e.request, e.anchor))
  {
    hide Called, Shape;
  }

  lemma SendTells(s: KState, r: Request, anchor: nat)
    requires Alive(s) && Inv(s) && r.MbSend? && !r.blocking
    ensures var h, c := Called(s, r, anchor), s.current;
      && !h.cswitch && c in h.pd
      && h.pd[c].retval == if 1 <= r.id <= |s.mbs| && |s.mbs[r.id - 1].mails| < s.mbs[r.id - 1].capacity then 1 else 0
  {
    hide Inv, Alive, Called, Exchanged, OthersSame;
    if 1 <= r.id <= |s.mbs| {
      SendAnswers(s, r.id, r.body, r.size, r.blocking, r.timeout, anchor);
    } else {
      OtherAnswers(s, r, anchor);
    }
  }

  lemma RecvTells(s: KState, r: Request, anchor: nat)
    requires Alive(s) && Inv(s) && r.MbRecv? && !r.blocking && 1 <= r.id <= |s.mbs|
    ensures var h, c, b := Called(s, r, anchor), s.current, s.mbs[r.id - 1];
      && !h.cswitch && c in h.pd && r.id <= |h.mbs|
      && var d, b' := h.pd[c], h.mbs[r.id - 1];
         if b.mails == [] then d.retval == 0 && b'.delivered == b.delivered
         else d.retval == 1 && b'.delivered == b.delivered + [d.dest] && d.dest == b.mails[0]
  {
    hide Inv, Alive, Called, OthersSame, Quiet;
    RecvAnswers(s, r.id, r.blocking, r.timeout, anchor);
  }

  /** From boot, after every tame run: a nonblocking send returns 1 if and only if its message is among the
      accepted ones, which are delivered first in, first out, and otherwise it returns 0. */
  lemma AcceptedIffTold(cs: seq<Creation>, batches: seq<nat>, es: seq<Event>, e: Event, s: KState)
    requires (forall c :: c in cs ==> LegalCreation(c)) && Start(cs, batches).Some?
    requires Along(Start(cs, batches).value, es, Tame) && Exec(Start(cs, batches).value, es) == Some(s)
    requires Alive(s) && e.Call? && e.request.MbSend? && !e.request.blocking
    ensures Step(s, e).Some? && s.current in Step(s, e).value.pd
    ensures Step(s, e).value.pd[s.current].retval == 1 ==>
      AcceptedNow(s, e, e.request.id) == [Mail(e.request.body, e.request.size, s.current)]
    ensures Step(s, e).value.pd[s.current].retval != 1 ==>
      Step(s, e).value.pd[s.current].retval == 0 && AcceptedNow(s, e, e.request.id) == []
  {
    hide Start, Exec, Along, Inv, Alive, Called, Step, LegalCreation;
    AlwaysSound(cs, batches, es);
    SendTells(s, e.request, e.anchor);
    ComesBack(s, e);
  }

  /** And a nonblocking receive returns 1 if and only if it delivers a message, which the caller then holds. */
  lemma DeliveredIffTold(cs: seq<Creation>, batches: seq<nat>, es: seq<Event>, e: Event, s: KState)
    requires (forall c :: c in cs ==> LegalCreation(c)) && Start(cs, batches).Some?
    requires Along(Start(cs, batches).value, es, Tame) && Exec(Start(cs, batches).value, es) == Some(s)
    requires Alive(s) && e.Call? && e.request.MbRecv? && !e.request.blocking && 1 <= e.request.id <= |s.mbs|
    ensures Step(s, e).Some? && s.current in Step(s, e).value.pd && e.request.id <= |Step(s, e).value.mbs|
    ensures var d, id := Step(s, e).value.pd[s.current], e.request.id;
      var b, b' := s.mbs[id - 1], Step(s, e).value.mbs[id - 1];
      && d.retval == (if b.mails == [] then 0 else 1)
      && b'.delivered == if d.retval == 1 then b.delivered + [d.dest] else b.delivered
  {
    hide Start, Exec, Along, Inv, Alive, Called, Step, LegalCreation;
    AlwaysSound(cs, batches, es);
    RecvTells(s, e.request, e.anchor);
    ComesBack(s, e);
  }
}
