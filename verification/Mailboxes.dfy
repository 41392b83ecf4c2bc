/** On a settled mailbox the four mutually recursive hand-off procedures amount to a single, direct
    exchange; it keeps the mailbox settled and the messages in order. */
module Mailboxes {
  import opened KernelTypes
  import opened KernelState
  import opened Requests
  import opened Invariants
  import opened CalmHandlers

  ghost predicate AllWaitForMail(w: Box) {
    && (forall p :: p in w.mb.send ==> p in w.pd && w.pd[p].state == WAIT_MAILBOX)
    && (forall p :: p in w.mb.recv ==> p in w.pd && w.pd[p].state == WAIT_MAILBOX)
  }

  /** The reference for sending: refuse or queue up when full, otherwise give the message to the
      first waiting receiver, or store it. */
  function SendOutcome(w: Box, p: Pid, m: Mail, blocking: bool): (Box, int)
    requires w.Ok() && p in w.pd
  {
    if |w.mb.mails| >= w.mb.capacity then
      if !blocking then (w, 0)
      else (w.(mb := w.mb.(send := w.mb.send + [p]), cswitch := true).SetState(p, WAIT_MAILBOX), -1)
    else if w.mb.recv == [] then (w.(mb := w.mb.(mails := w.mb.mails + [m])), 1)
    else
      var q := w.mb.recv[0];
      (w.(mb := w.mb.(recv := w.mb.recv[1..], delivered := w.mb.delivered + [m]),
          pd := w.pd[q := w.pd[q].(dest := m, state := READY)]), 1)
  }

  /** The reference for receiving: refuse or queue up when empty, otherwise take the oldest mail
      and let the first blocked sender fill the gap. */
  function RecvOutcome(w: Box, p: Pid, blocking: bool): (Box, int)
    requires w.Ok() && p in w.pd
  {
    if w.mb.mails == [] then
      if !blocking then (w.(pd := w.pd[p := w.pd[p].(dest := NO_MAIL)]), 0)
      else (w.(mb := w.mb.(recv := w.mb.recv + [p]), cswitch := true).SetState(p, WAIT_MAILBOX), -1)
    else
      var m := w.mb.mails[0];
      var w1 := w.(mb := w.mb.(mails := w.mb.mails[1..], delivered := w.mb.delivered + [m]),
                   pd := w.pd[p := w.pd[p].(dest := m)]);
      if w.mb.send == [] then (w1, 1)
      else
        var q := w.mb.send[0];
        (w1.(mb := w1.mb.(mails := w1.mb.mails + [MailOf(q, w1.pd[q])], send := w1.mb.send[1..]),
             pd := w1.pd[q := w1.pd[q].(state := READY)]), 1)
  }

  lemma RecvStep(w: Box)
    requires w.Ok() && w.mb.recv != [] && w.mb.mails != []
    ensures var q, w1 := w.mb.recv[0], w.(mb := w.mb.(recv := w.mb.recv[1..]));
      && q in w.pd && w1.Ok()
      && var w2 := RecvInternal(w1, q, q, false).0;
         q in w2.pd && w2.SetState(q, READY).Ok() &&
         (w.pd[q].state == WAIT_MAILBOX ==> RecvFromQueue(w) == RecvFromQueue(w2.SetState(q, READY)))
  {
    assert w.mb.recv[0] in w.mb.recv;
  }

  lemma RecvFromQueueOnce(w: Box, m: Mail)
    requires w.Ok() && AllWaitForMail(w) && w.mb.recv != [] && w.mb.mails == [m] && w.mb.send == []
    ensures var q := w.mb.recv[0];
      RecvFromQueue(w) ==
      w.(mb := w.mb.(recv := w.mb.recv[1..], mails := [], delivered := w.mb.delivered + [m]),
         pd := w.pd[q := w.pd[q].(dest := m, state := READY)])
  {
    hide AllHandled, MbShape;
    var q := w.mb.recv[0];
    assert q in w.mb.recv;
    RecvStep(w);
    var w1 := w.(mb := w.mb.(recv := w.mb.recv[1..]));
    var w2 := RecvInternal(w1, q, q, false).0;
    assert w2 == w1.(mb := w1.mb.(mails := [], delivered := w.mb.delivered + [m]),
      pd := w.pd[q := w.pd[q].(dest := m)]);
    assert w2.SetState(q, READY).pd == w.pd[q := w.pd[q].(dest := m, state := READY)];
  }

  lemma SendFromQueueOnce(w: Box)
    requires w.Ok() && AllWaitForMail(w) && w.mb.send != [] && |w.mb.mails| + 1 == w.mb.capacity && w.mb.recv == []
    ensures var q := w.mb.send[0];
      SendFromQueue(w) ==
      w.(mb := w.mb.(send := w.mb.send[1..], mails := w.mb.mails + [MailOf(q, w.pd[q])]),
         pd := w.pd[q := w.pd[q].(state := READY)])
  {
    var q := w.mb.send[0];
    assert q in w.mb.send;
    var w1 := w.(mb := w.mb.(send := w.mb.send[1..]));
    var w2 := SendInternal(w1, q, MailOf(q, w1.pd[q]), false).0;
    assert w2 == w1.(mb := w1.mb.(mails := w.mb.mails + [MailOf(q, w.pd[q])]));
  }

  /** The recursion through the four procedures collapses to the reference. */
  lemma SendRefines(w: Box, p: Pid, m: Mail, blocking: bool)
    requires w.Ok() && p in w.pd && AllWaitForMail(w) && Settled(w.mb)
    ensures SendInternal(w, p, m, blocking) == SendOutcome(w, p, m, blocking)
  {
    if |w.mb.mails| < w.mb.capacity && w.mb.recv != [] {
      assert w.mb.mails == [] && w.mb.send == [];
      var w1 := w.(mb := w.mb.(mails := w.mb.mails + [m]));
      assert w1.mb.mails == [m];
      RecvFromQueueOnce(w1, m);
    }
  }

  lemma RecvRefines(w: Box, p: Pid, blocking: bool)
    requires w.Ok() && p in w.pd && AllWaitForMail(w) && Settled(w.mb)
    requires p !in w.mb.send
    ensures RecvInternal(w, p, p, blocking) == RecvOutcome(w, p, blocking)
  {
    if w.mb.mails != [] && w.mb.send != [] {
      assert w.mb.recv == [];
      var m := w.mb.mails[0];
      var w1 := w.(mb := w.mb.(mails := w.mb.mails[1..], delivered := w.mb.delivered + [m]),
                   pd := w.pd[p := w.pd[p].(dest := m)]);
      assert AllWaitForMail(w1);
      SendFromQueueOnce(w1);
    }
  }

  // ----- invariants

  ghost predicate OnlyMailbox(s: KState, s': KState, id: nat, touched: set<Pid>) {
    && 1 <= id <= |s.mbs| && |s'.mbs| == |s.mbs| && s'.mbs == s.mbs[id - 1 := s'.mbs[id - 1]]
    && s'.muts == s.muts && s'.sems == s.sems && s'.pd.Keys == s.pd.Keys
    && GentleBut(s, s', touched)
    && (forall p :: p in touched ==>
          p in s.pd && PlaceOf(s.pd[p]) in {Nowhere, OnSend(id), OnRecv(id)})
    && (forall p :: p in touched ==> s'.pd[p].pri == s.pd[p].pri && s'.pd[p].base == s.pd[p].base
                                     && s'.pd[p].held == s.pd[p].held && s'.pd[p].orderly == s.pd[p].orderly
                                     && s'.pd[p].state != WAIT_MUTEX)
  }

  lemma MbQueues(s: KState, s': KState, id: nat)
    requires 1 <= id <= |s.mbs| && |s'.mbs| == |s.mbs| && s'.mbs == s.mbs[id - 1 := s'.mbs[id - 1]]
    requires s'.muts == s.muts && s'.sems == s.sems
    ensures forall pl :: pl != OnSend(id) && pl != OnRecv(id) ==> QueueAt(s', pl) == QueueAt(s, pl)
    ensures QueueAt(s, OnSend(id)) == s.mbs[id - 1].send && QueueAt(s', OnSend(id)) == s'.mbs[id - 1].send
    ensures QueueAt(s, OnRecv(id)) == s.mbs[id - 1].recv && QueueAt(s', OnRecv(id)) == s'.mbs[id - 1].recv
  {
  }

  lemma OnlyMailboxSound(s: KState, s': KState, id: nat, touched: set<Pid>)
    requires Shape(s) && Sound(s) && OnlyMailbox(s, s', id, touched)
    requires Agree(s') && Settled(s'.mbs[id - 1])
    requires forall p :: p in touched ==> p in s'.pd && TimersAt(s'.pd[p])
    ensures Sound(s')
  {
    TimersFrame(s, s', touched);
    SemsFrame(s, s', touched);
    forall i | 0 <= i < |s'.mbs| ensures Settled(s'.mbs[i]) {
      if i != id - 1 { assert s'.mbs[i] == s.mbs[i]; }
    }
    MutexesUntouched(s, s', touched);
  }

  /** One task changed its state or its destination; the queues changed accordingly. */
  lemma OneTaskMailbox(s: KState, s': KState, id: nat, c: Pid)
    requires c in s.pd && c in s'.pd && s'.pd == s.pd[c := s'.pd[c]]
    requires s'.pd[c] == s.pd[c].(state := s'.pd[c].state, dest := s'.pd[c].dest, retval := s'.pd[c].retval)
    requires PlaceOf(s.pd[c]) == Nowhere || PlaceOf(s.pd[c]) == OnSend(id) || PlaceOf(s.pd[c]) == OnRecv(id)
    requires s'.pd[c].state != WAIT_MUTEX
    requires 1 <= id <= |s.mbs| && |s'.mbs| == |s.mbs| && s'.mbs == s.mbs[id - 1 := s'.mbs[id - 1]]
    requires s'.muts == s.muts && s'.sems == s.sems
    ensures OnlyMailbox(s, s', id, {c})
  {
  }

  lemma TwoTaskMailbox(s: KState, s': KState, id: nat, c: Pid, q: Pid)
    requires c in s.pd && c in s'.pd && q in s.pd && q in s'.pd && c != q && s'.pd == s.pd[c := s'.pd[c]][q := s'.pd[q]]
    requires s'.pd[c] == s.pd[c].(dest := s'.pd[c].dest, retval := s'.pd[c].retval) && Awake(s.pd[c])
    requires s'.pd[q] == s.pd[q].(state := READY, dest := s'.pd[q].dest)
    requires PlaceOf(s.pd[q]) == OnSend(id) || PlaceOf(s.pd[q]) == OnRecv(id)
    requires 1 <= id <= |s.mbs| && |s'.mbs| == |s.mbs| && s'.mbs == s.mbs[id - 1 := s'.mbs[id - 1]]
    requires s'.muts == s.muts && s'.sems == s.sems
    ensures OnlyMailbox(s, s', id, {q})
  {
  }

  /** The mailbox seen by a handler of a sound state. */
  lemma BoxFacts(s: KState, id: nat)
    requires ObjectShape(s) && Agree(s) && MbsSettled(s) && 1 <= id <= |s.mbs|
    ensures BoxAt(s, id).Ok() && AllWaitForMail(BoxAt(s, id)) && Settled(s.mbs[id - 1])
    ensures NoDup(s.mbs[id - 1].send) && NoDup(s.mbs[id - 1].recv)
    ensures forall p :: p in s.mbs[id - 1].send ==> p in s.pd && PlaceOf(s.pd[p]) == OnSend(id) && s.pd[p].args.MbSend?
    ensures forall p :: p in s.mbs[id - 1].recv ==> p in s.pd && PlaceOf(s.pd[p]) == OnRecv(id) && s.pd[p].args.MbRecv?
  {
    MbWaiters(s, id - 1);
    assert MbShape(s.mbs[id - 1], s.pd);
  }

  /** No queue of the mailbox changed, and no task moved. */
  lemma StoredSound(s: KState, s': KState, id: nat)
    requires Entered(s) && 1 <= id <= |s.mbs| && OnlyMailbox(s, s', id, {s.current}) && s.current in s'.pd
    requires Awake(s'.pd[s.current]) && s'.pd[s.current].timeout == s.pd[s.current].timeout
    requires s'.mbs[id - 1].send == s.mbs[id - 1].send && s'.mbs[id - 1].recv == s.mbs[id - 1].recv
    requires Settled(s'.mbs[id - 1])
    ensures Sound(s')
  {
    MbQueues(s, s', id);
    PlacesFrame(s, s', {s.current});
    AgreeFrame(s, s');
    assert TimersAt(s.pd[s.current]);
    OnlyMailboxSound(s, s', id, {s.current});
  }

  /** The current task joins the send queue or the receive queue. */
  lemma JoinedSound(s: KState, s': KState, id: nat, at: Place)
    requires Entered(s) && 1 <= id <= |s.mbs| && OnlyMailbox(s, s', id, {s.current}) && s.current in s'.pd
    requires at == OnSend(id) || at == OnRecv(id)
    requires PlaceOf(s'.pd[s.current]) == at && s'.pd[s.current].timeout == s.pd[s.current].timeout
    requires at == OnSend(id) ==>
      s'.mbs[id - 1].send == s.mbs[id - 1].send + [s.current] && s'.mbs[id - 1].recv == s.mbs[id - 1].recv
    requires at == OnRecv(id) ==>
      s'.mbs[id - 1].recv == s.mbs[id - 1].recv + [s.current] && s'.mbs[id - 1].send == s.mbs[id - 1].send
    requires Settled(s'.mbs[id - 1])
    ensures Sound(s')
  {
    MbQueues(s, s', id);
    PlacesFrame(s, s', {s.current});
    AgreePush(s, s', s.current, at);
    assert TimersAt(s.pd[s.current]);
    OnlyMailboxSound(s, s', id, {s.current});
  }

  /** The first task of one queue leaves it and is ready. */
  lemma LeftAgree(s: KState, s': KState, id: nat, at: Place, q: Pid)
    requires Agree(s) && OnlyMailbox(s, s', id, {q}) && q in s'.pd && PlaceOf(s'.pd[q]) == Nowhere
    requires at == OnSend(id) || at == OnRecv(id)
    requires QueueAt(s, at) != [] && q == QueueAt(s, at)[0] && QueueAt(s', at) == QueueAt(s, at)[1..]
    requires at == OnSend(id) ==> s'.mbs[id - 1].recv == s.mbs[id - 1].recv
    requires at == OnRecv(id) ==> s'.mbs[id - 1].send == s.mbs[id - 1].send
    ensures Agree(s')
  {
    MbQueues(s, s', id);
    assert QueueAt(s, at)[..1] == [q];
    assert Elems(QueueAt(s, at)[..1]) == {q};
    PlacesFrame(s, s', {q});
    AgreePop(s, s', at, 1);
  }

  lemma LeftSound(s: KState, s': KState, id: nat, q: Pid)
    requires Shape(s) && Sound(s) && OnlyMailbox(s, s', id, {q}) && Agree(s') && Settled(s'.mbs[id - 1])
    requires q in s.pd && q in s'.pd && PlaceOf(s.pd[q]) != Nowhere
    requires s'.pd[q].state == READY && s'.pd[q].timeout == s.pd[q].timeout
    ensures Sound(s')
  {
    assert TimersAt(s.pd[q]);
    OnlyMailboxSound(s, s', id, {q});
  }

  lemma SendBlocksSound(s: KState, id: nat, body: int, size: nat)
    requires Entered(s) && s.pd[s.current].args.MbSend? && s.pd[s.current].args.id == id
    requires 1 <= id <= |s.mbs| && |s.mbs[id - 1].mails| >= s.mbs[id - 1].capacity
    ensures Sound(Send(s, id, body, size, true))
  {
    var s', c := Send(s, id, body, size, true), s.current;
    BoxFacts(s, id);
    OneTaskMailbox(s, s', id, c);
    JoinedSound(s, s', id, OnSend(id));
  }

  lemma SendStoresSound(s: KState, id: nat, body: int, size: nat, blocking: bool)
    requires Entered(s) && 1 <= id <= |s.mbs|
    requires var b := s.mbs[id - 1]; if |b.mails| >= b.capacity then !blocking else b.recv == []
    ensures Sound(Send(s, id, body, size, blocking))
  {
    var s', c := Send(s, id, body, size, blocking), s.current;
    BoxFacts(s, id);
    OneTaskMailbox(s, s', id, c);
    StoredSound(s, s', id);
  }

  /** What a send to a waiting receiver does. */
  lemma SendHandsOver(s: KState, id: nat, body: int, size: nat, blocking: bool)
    requires s.current in s.pd && ObjectShape(s) && Agree(s) && MbsSettled(s) && 1 <= id <= |s.mbs|
    requires Awake(s.pd[s.current])
    requires |s.mbs[id - 1].mails| < s.mbs[id - 1].capacity && s.mbs[id - 1].recv != []
    ensures var s', c, b, m := Send(s, id, body, size, blocking), s.current, s.mbs[id - 1], Mail(body, size, s.current);
      var q := b.recv[0];
      && q in s.pd && q != c && PlaceOf(s.pd[q]) == OnRecv(id) && c in s'.pd && q in s'.pd
      && s'.pd == s.pd[c := s'.pd[c]][q := s'.pd[q]]
      && s'.pd[c] == s.pd[c].(retval := 1)
      && s'.pd[q] == s.pd[q].(dest := m, state := READY)
      && s' == s.(pd := s'.pd, mbs := s.mbs[id - 1 := b.(recv := b.recv[1..], delivered := b.delivered + [m])])
      && b.mails == []
  {
    var s', c, b := Send(s, id, body, size, blocking), s.current, s.mbs[id - 1];
    var q := b.recv[0];
    BoxFacts(s, id);
    SendRefines(BoxAt(s, id), c, Mail(body, size, c), blocking);
    assert q in b.recv && q != c;
    assert s'.pd == s.pd[c := s'.pd[c]][q := s'.pd[q]];
  }

  lemma SendHandsOverFrame(s: KState, id: nat, body: int, size: nat, blocking: bool)
    requires s.current in s.pd && ObjectShape(s) && Agree(s) && MbsSettled(s) && 1 <= id <= |s.mbs|
    requires Awake(s.pd[s.current]) && |s.mbs[id - 1].mails| < s.mbs[id - 1].capacity && s.mbs[id - 1].recv != []
    ensures OnlyMailbox(s, Send(s, id, body, size, blocking), id, {s.mbs[id - 1].recv[0]})
      && Agree(Send(s, id, body, size, blocking))
    ensures Settled(Send(s, id, body, size, blocking).mbs[id - 1])
  {
    var s', c, q := Send(s, id, body, size, blocking), s.current, s.mbs[id - 1].recv[0];
    SendHandsOver(s, id, body, size, blocking);
    TwoTaskMailbox(s, s', id, c, q);
    LeftAgree(s, s', id, OnRecv(id), q);
    assert Settled(s.mbs[id - 1]);
  }

  lemma SendHandsOverSound(s: KState, id: nat, body: int, size: nat, blocking: bool)
    requires Entered(s) && 1 <= id <= |s.mbs| && |s.mbs[id - 1].mails| < s.mbs[id - 1].capacity
      && s.mbs[id - 1].recv != []
    ensures Sound(Send(s, id, body, size, blocking))
  {
    SendHandsOver(s, id, body, size, blocking);
    SendHandsOverFrame(s, id, body, size, blocking);
    LeftSound(s, Send(s, id, body, size, blocking), id, s.mbs[id - 1].recv[0]);
  }

  lemma SendSound(s: KState, id: nat, body: int, size: nat, blocking: bool)
    requires Entered(s) && s.pd[s.current].args.MbSend? && s.pd[s.current].args.id == id
    ensures Sound(Send(s, id, body, size, blocking))
  {
    if !(1 <= id <= |s.mbs|) {
      RefusedSound(s, Send(s, id, body, size, blocking));
    } else if |s.mbs[id - 1].mails| >= s.mbs[id - 1].capacity && blocking {
      SendBlocksSound(s, id, body, size);
    } else if |s.mbs[id - 1].mails| >= s.mbs[id - 1].capacity || s.mbs[id - 1].recv == [] {
      SendStoresSound(s, id, body, size, blocking);
    } else {
      SendHandsOverSound(s, id, body, size, blocking);
    }
  }

  /** Only the return value and the error code change. */
  lemma RefusedSound(s: KState, s': KState)
    requires Entered(s) && s.current in s'.pd
    requires s' == s.(pd := s.pd[s.current := s.pd[s.current].(retval := s'.pd[s.current].retval)], err := s'.err)
    ensures Sound(s')
  {
    OneTaskGentle(s, s', s.current);
    CalmSound(s, s');
  }

  lemma RecvBlocksSound(s: KState, id: nat)
    requires Entered(s) && s.pd[s.current].args.MbRecv? && s.pd[s.current].args.id == id
    requires 1 <= id <= |s.mbs| && s.mbs[id - 1].mails == []
    ensures Sound(Recv(s, id, true))
  {
    var s', c := Recv(s, id, true), s.current;
    BoxFacts(s, id);
    OneTaskMailbox(s, s', id, c);
    JoinedSound(s, s', id, OnRecv(id));
  }

  lemma RecvTakesSound(s: KState, id: nat, blocking: bool)
    requires Entered(s) && 1 <= id <= |s.mbs|
    requires if s.mbs[id - 1].mails == [] then !blocking else s.mbs[id - 1].send == []
    ensures Sound(Recv(s, id, blocking))
  {
    var s', c := Recv(s, id, blocking), s.current;
    BoxFacts(s, id);
    OneTaskMailbox(s, s', id, c);
    StoredSound(s, s', id);
  }

  /** What a receive from a mailbox with blocked senders does. */
  lemma RecvRefills(s: KState, id: nat, blocking: bool)
    requires s.current in s.pd && ObjectShape(s) && Agree(s) && MbsSettled(s) && 1 <= id <= |s.mbs|
    requires Awake(s.pd[s.current])
    requires s.mbs[id - 1].mails != [] && s.mbs[id - 1].send != []
    ensures var s', c, b := Recv(s, id, blocking), s.current, s.mbs[id - 1];
      var q := b.send[0];
      && q in s.pd && q != c && PlaceOf(s.pd[q]) == OnSend(id) && c in s'.pd && q in s'.pd
      && s'.pd == s.pd[c := s'.pd[c]][q := s'.pd[q]]
      && s'.pd[c] == s.pd[c].(dest := b.mails[0], retval := 1)
      && s'.pd[q] == s.pd[q].(state := READY)
      && s' == s.(pd := s'.pd, mbs := s.mbs[id - 1 :=
                    b.(mails := b.mails[1..] + [MailOf(q, s.pd[q])], send := b.send[1..],
                       delivered := b.delivered + [b.mails[0]])])
      && b.recv == []
  {
    hide RecvInternal, SendFromQueue, AllHandled, Agree, Stays;
    var s', c, b := Recv(s, id, blocking), s.current, s.mbs[id - 1];
    var q := b.send[0];
    BoxFacts(s, id);
    assert c !in b.send;
    RecvRefines(BoxAt(s, id), c, blocking);
    assert q in b.send && q != c;
    assert s'.pd == s.pd[c := s'.pd[c]][q := s'.pd[q]];
  }

  lemma RecvRefillsFrame(s: KState, id: nat, blocking: bool)
    requires s.current in s.pd && ObjectShape(s) && Agree(s) && MbsSettled(s) && 1 <= id <= |s.mbs|
    requires Awake(s.pd[s.current]) && s.mbs[id - 1].mails != [] && s.mbs[id - 1].send != []
    ensures OnlyMailbox(s, Recv(s, id, blocking), id, {s.mbs[id - 1].send[0]}) && Agree(Recv(s, id, blocking))
    ensures Settled(Recv(s, id, blocking).mbs[id - 1])
  {
    hide Recv, Agree, ObjectShape;
    var s', c, q := Recv(s, id, blocking), s.current, s.mbs[id - 1].send[0];
    RecvRefills(s, id, blocking);
    TwoTaskMailbox(s, s', id, c, q);
    LeftAgree(s, s', id, OnSend(id), q);
    assert Settled(s.mbs[id - 1]);
  }

  lemma RecvRefillsSound(s: KState, id: nat, blocking: bool)
    requires Entered(s) && 1 <= id <= |s.mbs| && s.mbs[id - 1].mails != [] && s.mbs[id - 1].send != []
    ensures Sound(Recv(s, id, blocking))
  {
    RecvRefills(s, id, blocking);
    RecvRefillsFrame(s, id, blocking);
    LeftSound(s, Recv(s, id, blocking), id, s.mbs[id - 1].send[0]);
  }

  lemma RecvSound(s: KState, id: nat, blocking: bool)
    requires Entered(s) && s.pd[s.current].args.MbRecv? && s.pd[s.current].args.id == id
    ensures Sound(Recv(s, id, blocking))
  {
    if !(1 <= id <= |s.mbs|) {
      RefusedSound(s, Recv(s, id, blocking));
    } else if s.mbs[id - 1].mails == [] && blocking {
      RecvBlocksSound(s, id);
    } else if s.mbs[id - 1].mails == [] || s.mbs[id - 1].send == [] {
      RecvTakesSound(s, id, blocking);
    } else {
      RecvRefillsSound(s, id, blocking);
    }
  }
}
