/** mailbox.c, in place: the four hand-off procedures call each other on a mailbox whose queues,
    and on tasks whose states, they change as they go. */
module KernelMailbox {
  import opened KernelTypes
  import opened KernelState
  import opened Kernel
  import Spec = Requests

  /** findMailboxByID; its callers then raise OBJECT_NOT_FOUND_ERR over either of its own errors. */
  method FindMailbox(k: System, id: nat) returns (m: Mailbox?)
    requires k.Valid()
    modifies k`err
    ensures k.Valid()
    ensures if 1 <= id <= |k.mailboxes| then m == k.mailboxes[id - 1] && m.id == id && k.View() == old(k.View())
            else m == null && k.View() == old(k.View()).(err := Spec.LookupError(id))
  {
    hide MutexesOk, SemaphoresOk, GroupsOk, Known, Indexed, MutsOf, SemsOf, MbsOf, EgsOf, PdsOf, Pids;
    if id == 0 {
      Raise(k, INVALID_ARG_ERR);
      return null;
    }
    var i := 0;
    while i < |k.mailboxes|
      invariant 0 <= i <= |k.mailboxes| && i < id && k.Valid() && k.View() == old(k.View())
    {
      if k.mailboxes[i].id == id { return k.mailboxes[i]; }
      i := i + 1;
    }
    Raise(k, OBJECT_NOT_FOUND_ERR);
    m := null;
  }

  // ----- what the hand-off procedures work on

  ghost function BoxOf(k: System, m: Mailbox, all: map<Pid, Task>): Spec.Box
    reads k, m, all.Values
  {
    Spec.Box(m.View(), PdsOf(all), k.requestCswitch, k.err)
  }

  ghost predicate Linked(m: Mailbox, all: map<Pid, Task>)
    reads m
  {
    Indexed(all) && Known(all, m.sendQueue) && Known(all, m.recvQueue)
  }

  ghost predicate Listed(t: Task, all: map<Pid, Task>) {
    t.pid in all && all[t.pid] == t
  }

  lemma LinkedBox(k: System, m: Mailbox, all: map<Pid, Task>)
    requires Linked(m, all)
    ensures BoxOf(k, m, all).Ok()
    ensures BoxOf(k, m, all).Waiting() == |m.sendQueue| + |m.recvQueue|
    ensures forall t: Task :: t in m.sendQueue || t in m.recvQueue ==> Listed(t, all)
    ensures forall t: Task :: Listed(t, all) ==>
      t in all.Values && t.pid in BoxOf(k, m, all).pd && BoxOf(k, m, all).pd[t.pid] == t.View()
  {
    forall p | p in Pids(m.sendQueue) || p in Pids(m.recvQueue) ensures p in PdsOf(all) {
      if p in Pids(m.sendQueue) {
        var i :| 0 <= i < |m.sendQueue| && Pids(m.sendQueue)[i] == p;
        assert m.sendQueue[i].pid in all;
      } else {
        var i :| 0 <= i < |m.recvQueue| && Pids(m.recvQueue)[i] == p;
        assert m.recvQueue[i].pid in all;
      }
    }
  }

  // ----- the single updates

  method SetState(k: System, m: Mailbox, t: Task, st: ProcessState, ghost all: map<Pid, Task>)
    requires Linked(m, all) && Listed(t, all)
    modifies t
    ensures old(t.pid in PdsOf(all)) && BoxOf(k, m, all) == old(BoxOf(k, m, all)).SetState(t.pid, st)
  {
    ghost var pds := PdsOf(all);
    t.state := st;
    TaskChanged(all, pds, t);
  }

  method QueueSender(k: System, m: Mailbox, t: Task, ghost all: map<Pid, Task>)
    requires Linked(m, all) && Listed(t, all)
    modifies k`requestCswitch, m
    ensures Linked(m, all)
    ensures var w := old(BoxOf(k, m, all));
      BoxOf(k, m, all) == w.(mb := w.mb.(send := w.mb.send + [t.pid]), cswitch := true)
  {
    m.sendQueue := m.sendQueue + [t];
    k.requestCswitch := true;
  }

  method QueueReceiver(k: System, m: Mailbox, t: Task, ghost all: map<Pid, Task>)
    requires Linked(m, all) && Listed(t, all)
    modifies k`requestCswitch, m
    ensures Linked(m, all)
    ensures var w := old(BoxOf(k, m, all));
      BoxOf(k, m, all) == w.(mb := w.mb.(recv := w.mb.recv + [t.pid]), cswitch := true)
  {
    m.recvQueue := m.recvQueue + [t];
    k.requestCswitch := true;
  }

  method TakeSender(k: System, m: Mailbox, ghost all: map<Pid, Task>) returns (t: Task)
    requires Linked(m, all) && m.sendQueue != []
    modifies m
    ensures Linked(m, all) && Listed(t, all) && t.View() == old(m.sendQueue[0].View())
    ensures |m.sendQueue| < |old(m.sendQueue)| && m.recvQueue == old(m.recvQueue)
    ensures var w := old(BoxOf(k, m, all));
      t.pid == w.mb.send[0] && BoxOf(k, m, all) == w.(mb := w.mb.(send := w.mb.send[1..]))
  {
    t := m.sendQueue[0];
    PidsTail(m.sendQueue);
    m.sendQueue := m.sendQueue[1..];
  }

  method TakeReceiver(k: System, m: Mailbox, ghost all: map<Pid, Task>) returns (t: Task)
    requires Linked(m, all) && m.recvQueue != []
    modifies m
    ensures Linked(m, all) && Listed(t, all) && t.View() == old(m.recvQueue[0].View())
    ensures |m.recvQueue| < |old(m.recvQueue)| && m.sendQueue == old(m.sendQueue)
    ensures var w := old(BoxOf(k, m, all));
      t.pid == w.mb.recv[0] && BoxOf(k, m, all) == w.(mb := w.mb.(recv := w.mb.recv[1..]))
  {
    t := m.recvQueue[0];
    PidsTail(m.recvQueue);
    m.recvQueue := m.recvQueue[1..];
  }

  method StoreMail(k: System, m: Mailbox, mail: Mail, ghost all: map<Pid, Task>)
    requires Linked(m, all)
    modifies m
    ensures Linked(m, all) && m.sendQueue == old(m.sendQueue) && m.recvQueue == old(m.recvQueue)
    ensures var w := old(BoxOf(k, m, all));
      BoxOf(k, m, all) == w.(mb := w.mb.(mails := w.mb.mails + [mail]))
  {
    m.mails := m.mails + [mail];
  }

  method NoMail(k: System, m: Mailbox, t: Task, ghost all: map<Pid, Task>)
    requires Linked(m, all) && Listed(t, all)
    modifies t
    ensures var w := old(BoxOf(k, m, all));
      t.pid in w.pd && BoxOf(k, m, all) == w.(pd := w.pd[t.pid := w.pd[t.pid].(dest := NO_MAIL)])
  {
    ghost var pds := PdsOf(all);
    t.dest := NO_MAIL;
    TaskChanged(all, pds, t);
  }

  method TakeMail(k: System, m: Mailbox, t: Task, ghost all: map<Pid, Task>)
    requires Linked(m, all) && Listed(t, all) && m.mails != []
    modifies m, t
    ensures Linked(m, all) && m.sendQueue == old(m.sendQueue) && m.recvQueue == old(m.recvQueue)
    ensures var w := old(BoxOf(k, m, all));
      && t.pid in w.pd
      && BoxOf(k, m, all) == w.(mb := w.mb.(mails := w.mb.mails[1..], delivered := w.mb.delivered + [w.mb.mails[0]]),
                                pd := w.pd[t.pid := w.pd[t.pid].(dest := w.mb.mails[0])])
  {
    ghost var pds := PdsOf(all);
    m.delivered := m.delivered + [m.mails[0]];
    t.dest := m.mails[0];
    m.mails := m.mails[1..];
    TaskChanged(all, pds, t);
  }

  // ----- the hand-off

  /** Kernel_Mailbox_Send_Internal */
  method SendInternal(k: System, m: Mailbox, sender: Task, mail: Mail, blocking: bool, ghost all: map<Pid, Task>)
      returns (retval: int)
    requires Linked(m, all) && Listed(sender, all)
    modifies k`requestCswitch, k`err, m, all.Values
    ensures Linked(m, all) && old(BoxOf(k, m, all).Ok() && sender.pid in PdsOf(all))
    ensures Spec.SendInternal(old(BoxOf(k, m, all)), sender.pid, mail, blocking) == (BoxOf(k, m, all), retval)
    decreases |m.sendQueue| + |m.recvQueue|, 1
  {
    hide Linked, PdsOf;
    LinkedBox(k, m, all);
    if |m.mails| >= m.capacity {
      if !blocking { return 0; }
      QueueSender(k, m, sender, all);
      SetState(k, m, sender, WAIT_MAILBOX, all);
      return -1;
    }
    StoreMail(k, m, mail, all);
    if m.recvQueue != [] {
      RecvFromQueue(k, m, all);
    }
    retval := 1;
  }

  /** Kernel_Mailbox_Recv_From_Queue */
  method RecvFromQueue(k: System, m: Mailbox, ghost all: map<Pid, Task>)
    requires Linked(m, all)
    modifies k`requestCswitch, k`err, m, all.Values
    ensures Linked(m, all) && old(BoxOf(k, m, all).Ok())
    ensures Spec.RecvFromQueue(old(BoxOf(k, m, all))) == BoxOf(k, m, all)
    decreases |m.sendQueue| + |m.recvQueue|, 0
  {
    hide Linked, PdsOf;
    LinkedBox(k, m, all);
    ghost var goal := Spec.RecvFromQueue(BoxOf(k, m, all));
    while m.recvQueue != [] && m.mails != []
      invariant Linked(m, all) && BoxOf(k, m, all).Ok() && Spec.RecvFromQueue(BoxOf(k, m, all)) == goal
      invariant |m.sendQueue| + |m.recvQueue| <= old(|m.sendQueue| + |m.recvQueue|)
      decreases |m.sendQueue| + |m.recvQueue|
    {
      LinkedBox(k, m, all);
      var receiver := TakeReceiver(k, m, all);
      if receiver.state != WAIT_MAILBOX {
        k.err := UNPROCESSABLE_TASK_STATE_ERR;
        return;
      }
      LinkedBox(k, m, all);
      var _ := RecvInternal(k, m, receiver, receiver, false, all);
      LinkedBox(k, m, all);
      SetState(k, m, receiver, READY, all);
      LinkedBox(k, m, all);
    }
  }

  /** Kernel_Mailbox_Recv_Internal; a blocking receive queues `current`, whoever the receiver is. */
  method RecvInternal(k: System, m: Mailbox, receiver: Task, current: Task, blocking: bool, ghost all: map<Pid, Task>)
      returns (retval: int)
    requires Linked(m, all) && Listed(receiver, all) && Listed(current, all)
    modifies k`requestCswitch, k`err, m, all.Values
    ensures Linked(m, all) && old(BoxOf(k, m, all).Ok() && receiver.pid in PdsOf(all) && current.pid in PdsOf(all))
    ensures Spec.RecvInternal(old(BoxOf(k, m, all)), receiver.pid, current.pid, blocking) == (BoxOf(k, m, all), retval)
    decreases |m.sendQueue| + |m.recvQueue|, 1
  {
    hide Linked, PdsOf;
    LinkedBox(k, m, all);
    if m.mails == [] {
      if !blocking {
        NoMail(k, m, receiver, all);
        return 0;
      }
      QueueReceiver(k, m, current, all);
      SetState(k, m, current, WAIT_MAILBOX, all);
      return -1;
    }
    TakeMail(k, m, receiver, all);
    if m.sendQueue != [] {
      SendFromQueue(k, m, all);
    }
    retval := 1;
  }

  /** Kernel_Mailbox_Send_From_Queue */
  method SendFromQueue(k: System, m: Mailbox, ghost all: map<Pid, Task>)
    requires Linked(m, all)
    modifies k`requestCswitch, k`err, m, all.Values
    ensures Linked(m, all) && old(BoxOf(k, m, all).Ok())
    ensures Spec.SendFromQueue(old(BoxOf(k, m, all))) == BoxOf(k, m, all)
    decreases |m.sendQueue| + |m.recvQueue|, 0
  {
    hide Linked, PdsOf;
    LinkedBox(k, m, all);
    ghost var goal := Spec.SendFromQueue(BoxOf(k, m, all));
    while m.sendQueue != [] && |m.mails| < m.capacity
      invariant Linked(m, all) && BoxOf(k, m, all).Ok() && Spec.SendFromQueue(BoxOf(k, m, all)) == goal
      invariant |m.sendQueue| + |m.recvQueue| <= old(|m.sendQueue| + |m.recvQueue|)
      decreases |m.sendQueue| + |m.recvQueue|
    {
      LinkedBox(k, m, all);
      var sender := TakeSender(k, m, all);
      if sender.state != WAIT_MAILBOX {
        k.err := UNPROCESSABLE_TASK_STATE_ERR;
        return;
      }
      LinkedBox(k, m, all);
      var mail := if sender.args.MbSend? then Mail(sender.args.body, sender.args.size, sender.pid)
                  else Mail(0, 0, sender.pid);
      var _ := SendInternal(k, m, sender, mail, false, all);
      LinkedBox(k, m, all);
      SetState(k, m, sender, READY, all);
      LinkedBox(k, m, all);
    }
  }

  // ----- the requests

  lemma BoxIds(all: map<Pid, Task>, ms: seq<Mailbox>)
    requires MailboxesOk(all, ms) && Indexed(all)
    ensures forall i :: 0 <= i < |ms| ==> ms[i].id == i + 1 && Linked(ms[i], all)
  {
  }

  lemma BoxesKept(all: map<Pid, Task>, ms: seq<Mailbox>, i: nat)
    requires i < |ms| && Linked(ms[i], all)
    requires forall j :: 0 <= j < |ms| ==> ms[j].id == j + 1
    requires forall j :: 0 <= j < |ms| && j != i ==> Linked(ms[j], all)
    ensures MailboxesOk(all, ms)
  {
  }

  /** The mailbox does not exist: the request returns 0. */
  method Refuse(k: System)
    requires k.Valid() && k.current != null
    modifies k`err, k.current
    ensures k.Valid() && old(k.current.pid in k.View().pd)
    ensures k.View() == Spec.Return(Spec.Fail(old(k.View()), OBJECT_NOT_FOUND_ERR), 0)
  {
    hide System.Valid, System.View, MutsOf, SemsOf, MbsOf, EgsOf, PdsOf;
    ViewParts(k);
    Raise(k, OBJECT_NOT_FOUND_ERR);
    Answer(k, 0);
  }

  lemma BoxIsBoxAt(k: System, m: Mailbox)
    requires k.Valid() && 1 <= m.id <= |k.mailboxes| && m == k.mailboxes[m.id - 1]
    ensures |k.View().mbs| == |k.mailboxes| && BoxOf(k, m, k.all) == Spec.BoxAt(k.View(), m.id)
    ensures BoxOf(k, m, k.all).Ok()
  {
    LinkedBox(k, m, k.all);
  }

  /** The hand-off changes one mailbox of the kernel, and no other object. */
  method SendListed(k: System, m: Mailbox, c: Task, body: int, size: nat, blocking: bool, ghost all: map<Pid, Task>,
      ghost ms: seq<Mailbox>)
      returns (retval: int)
    requires Indexed(all) && MailboxesOk(all, ms) && 1 <= m.id <= |ms| && m == ms[m.id - 1] && Listed(c, all)
    modifies k`requestCswitch, k`err, m, all.Values
    ensures MailboxesOk(all, ms) && MbsOf(ms) == old(MbsOf(ms))[m.id - 1 := m.View()]
    ensures old(BoxOf(k, m, all).Ok() && c.pid in PdsOf(all))
    ensures Spec.SendInternal(old(BoxOf(k, m, all)), c.pid, Mail(body, size, c.pid), blocking) ==
      (BoxOf(k, m, all), retval)
  {
    hide Linked, PdsOf, Known, Indexed, MailboxesOk, Spec.SendInternal;
    ghost var mbs := MbsOf(ms);
    BoxIds(all, ms);
    LinkedBox(k, m, all);
    retval := SendInternal(k, m, c, Mail(body, size, c.pid), blocking, all);
    BoxesKept(all, ms, m.id - 1);
    MailboxChanged(ms, mbs, m.id - 1);
  }

  method RecvListed(k: System, m: Mailbox, c: Task, blocking: bool, ghost all: map<Pid, Task>, ghost ms: seq<Mailbox>)
      returns (retval: int)
    requires Indexed(all) && MailboxesOk(all, ms) && 1 <= m.id <= |ms| && m == ms[m.id - 1] && Listed(c, all)
    modifies k`requestCswitch, k`err, m, all.Values
    ensures MailboxesOk(all, ms) && MbsOf(ms) == old(MbsOf(ms))[m.id - 1 := m.View()]
    ensures old(BoxOf(k, m, all).Ok() && c.pid in PdsOf(all))
    ensures Spec.RecvInternal(old(BoxOf(k, m, all)), c.pid, c.pid, blocking) == (BoxOf(k, m, all), retval)
  {
    hide Linked, PdsOf, Known, Indexed, MailboxesOk, Spec.RecvInternal;
    ghost var mbs := MbsOf(ms);
    BoxIds(all, ms);
    LinkedBox(k, m, all);
    retval := RecvInternal(k, m, c, c, blocking, all);
    BoxesKept(all, ms, m.id - 1);
    MailboxChanged(ms, mbs, m.id - 1);
  }

  method SendFound(k: System, m: Mailbox, body: int, size: nat, blocking: bool) returns (retval: int)
    requires k.Valid() && 1 <= m.id <= |k.mailboxes| && m == k.mailboxes[m.id - 1] && k.current != null
    modifies k`requestCswitch, k`err, m, k.all.Values
    ensures k.Valid() && |old(k.View()).mbs| == |k.mailboxes|
    ensures var s := old(k.View());
      && s.current in s.pd && Spec.BoxAt(s, m.id).Ok()
      && var (w, r) := Spec.SendInternal(Spec.BoxAt(s, m.id), s.current, Mail(body, size, s.current), blocking);
         retval == r && k.View() == Spec.WithBox(s, m.id, w)
  {
    hide PdsOf, MutsOf, SemsOf, MbsOf, EgsOf, Pids, Known, Indexed, MailboxesOk, MutexesOk, SemaphoresOk, GroupsOk;
    hide Spec.SendInternal;
    CurrentListed(k);
    BoxIsBoxAt(k, m);
    retval := SendListed(k, m, k.current, body, size, blocking, k.all, k.mailboxes);
  }

  method RecvFound(k: System, m: Mailbox, blocking: bool) returns (retval: int)
    requires k.Valid() && 1 <= m.id <= |k.mailboxes| && m == k.mailboxes[m.id - 1] && k.current != null
    modifies k`requestCswitch, k`err, m, k.all.Values
    ensures k.Valid() && |old(k.View()).mbs| == |k.mailboxes|
    ensures var s := old(k.View());
      && s.current in s.pd && Spec.BoxAt(s, m.id).Ok()
      && var (w, r) := Spec.RecvInternal(Spec.BoxAt(s, m.id), s.current, s.current, blocking);
         retval == r && k.View() == Spec.WithBox(s, m.id, w)
  {
    hide PdsOf, MutsOf, SemsOf, MbsOf, EgsOf, Pids, Known, Indexed, MailboxesOk, MutexesOk, SemaphoresOk, GroupsOk;
    hide Spec.RecvInternal;
    CurrentListed(k);
    BoxIsBoxAt(k, m);
    retval := RecvListed(k, m, k.current, blocking, k.all, k.mailboxes);
  }

  /** Kernel_Mailbox_Send; a result of -1 means that the operation is pending. */
  method Send(k: System, id: nat, body: int, size: nat, blocking: bool)
    requires k.Valid() && k.current != null && ObjectShape(k.View())
    modifies k`err, k`requestCswitch, k.all.Values, k.mailboxes
    ensures k.Valid() && old(k.View().current in k.View().pd)
    ensures k.View() == Spec.Send(old(k.View()), id, body, size, blocking)
  {
    hide Spec.SendInternal, ObjectShape, System.Valid, System.View, MutsOf, SemsOf, MbsOf, EgsOf, PdsOf;
    ViewParts(k);
    CurrentListed(k);
    var m := FindMailbox(k, id);
    if m == null {
      Refuse(k);
    } else {
      var retval := SendFound(k, m, body, size, blocking);
      if retval >= 0 {
        ViewParts(k);
        Answer(k, retval);
      }
    }
  }

  /** Kernel_Mailbox_Recv */
  method Recv(k: System, id: nat, blocking: bool)
    requires k.Valid() && k.current != null && ObjectShape(k.View())
    modifies k`err, k`requestCswitch, k.all.Values, k.mailboxes
    ensures k.Valid() && old(k.View().current in k.View().pd)
    ensures k.View() == Spec.Recv(old(k.View()), id, blocking)
  {
    hide Spec.RecvInternal, ObjectShape, System.Valid, System.View, MutsOf, SemsOf, MbsOf, EgsOf, PdsOf;
    ViewParts(k);
    CurrentListed(k);
    var m := FindMailbox(k, id);
    if m == null {
      Refuse(k);
    } else {
      var retval := RecvFound(k, m, blocking);
      if retval >= 0 {
        ViewParts(k);
        Answer(k, retval);
      }
    }
  }

  /** Kernel_Mailbox_Check */
  method Check(k: System, id: nat)
    requires k.Valid() && k.current != null
    modifies k`err, k.current
    ensures k.Valid() && old(k.View().current in k.View().pd)
    ensures k.View() == Spec.Check(old(k.View()), id)
  {
    hide System.Valid, System.View, MutsOf, SemsOf, MbsOf, EgsOf, PdsOf;
    ViewParts(k);
    var m := FindMailbox(k, id);
    if m == null {
      Refuse(k);
    } else {
      Answer(k, |m.mails|);
    }
  }

  method AddMailbox(k: System, capacity: nat) returns (m: Mailbox)
    requires k.Valid()
    modifies k`mailboxes
    ensures k.Valid() && fresh(m) && m.id == |k.mailboxes| && k.mailboxes == old(k.mailboxes) + [m]
    ensures var s := old(k.View()); k.View() == s.(mbs := s.mbs + [Mb(capacity, [], [], [], [])])
  {
    hide MutexesOk, SemaphoresOk, GroupsOk, Indexed, MutsOf, SemsOf, EgsOf, PdsOf, Pids;
    ghost var mbs := MbsOf(k.mailboxes);
    m := new Mailbox(|k.mailboxes| + 1, capacity);
    k.mailboxes := k.mailboxes + [m];
    assert MbsOf(k.mailboxes) == mbs + [m.View()];
  }

  /** Kernel_Create_Mailbox */
  method Create(k: System, capacity: nat)
    requires k.Valid() && k.current != null
    modifies k`err, k`mailboxes, k.current
    ensures k.Valid() && forall x :: x in k.mailboxes ==> x in old(k.mailboxes) || fresh(x)
    ensures k.View() == Spec.Created(Spec.CreateMailbox(old(k.View()), capacity))
  {
    hide System.Valid, System.View, MutsOf, SemsOf, MbsOf, EgsOf, PdsOf;
    ViewParts(k);
    if |k.mailboxes| >= MAX_OBJECTS {
      Raise(k, MAX_OBJECT_ERR);
      Answer(k, 0);
    } else {
      var m := AddMailbox(k, capacity);
      Answer(k, m.id);
    }
  }
}
