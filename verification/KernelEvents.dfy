/** event_group.c, in place. */
module KernelEvents {
  import opened KernelTypes
  import opened KernelState
  import opened Kernel
  import Spec = Requests

  /** findEventGroupByID */
  method FindGroup(k: System, id: nat) returns (g: EventGroup?)
    requires k.Valid()
    ensures if 1 <= id <= |k.groups| then g == k.groups[id - 1] && g.id == id else g == null
  {
    var i := 0;
    while i < |k.groups|
      invariant 0 <= i <= |k.groups| && (id == 0 || i < id)
    {
      if k.groups[i].id == id { return k.groups[i]; }
      i := i + 1;
    }
    g := null;
  }

  /** The wait condition, tested the way set and wait both test it. */
  method TestBits(events: bv16, bits: bv16, all: bool) returns (ok: bool)
    ensures ok == Spec.Satisfied(events, bits, all)
  {
    var current := events & bits;
    if current > 0 && !all { return true; }
    ok := current == bits;
  }

  /** The body of the loop in Kernel_Event_Group_Set_Bits. */
  method WakeIfSatisfied(t: Task, g: EventGroup)
    modifies t
    ensures t.View() == Spec.WokenBy(old(t.View()), g.id, g.events)
  {
    hide Spec.Satisfied;
    if t.state == WAIT_EVENTG && t.args.EgWaitBits? && t.args.id == g.id {
      var ready := TestBits(g.events, t.args.bits, t.args.all);
      if ready { t.state := READY; }
    }
  }

  ghost function Waker(id: nat, events: bv16): PD -> PD {
    d => Spec.WokenBy(d, id, events)
  }

  ghost function Woken(pd: map<Pid, PD>, ps: seq<Pid>, id: nat, events: bv16): map<Pid, PD> {
    MapUpTo(pd, ps, Waker(id, events))
  }

  method WakeNext(t: Task, g: EventGroup, i: nat, ts: seq<Task>, ghost all: map<Pid, Task>, ghost was: map<Pid, PD>)
    requires Indexed(all) && Known(all, ts) && NoDup(Pids(ts)) && i < |ts| && t == ts[i] && was.Keys == all.Keys
    requires PdsOf(all) == Woken(was, Pids(ts)[..i], g.id, g.events)
    modifies t
    ensures PdsOf(all) == Woken(was, Pids(ts)[..i + 1], g.id, g.events)
  {
    hide Spec.WokenBy, Known;
    NextTask(all, ts, i);
    ghost var pds := PdsOf(all);
    MapOneMore(was, Pids(ts)[..i], t.pid, Waker(g.id, g.events));
    WakeIfSatisfied(t, g);
    TaskChanged(all, pds, t);
  }

  /** The loop of Kernel_Event_Group_Set_Bits: it looks at every task, waiting or not. */
  method WakeAll(g: EventGroup, ts: seq<Task>, ghost all: map<Pid, Task>)
    requires Indexed(all) && Known(all, ts) && NoDup(Pids(ts))
    modifies all.Values
    ensures PdsOf(all) == Woken(old(PdsOf(all)), Pids(ts), g.id, g.events)
  {
    hide Spec.WokenBy, Known, NoDup, PdsOf, Indexed;
    ghost var was := PdsOf(all);
    PdsKeys(all);
    MapNone(was, Waker(g.id, g.events));
    var i := 0;
    while i < |ts|
      invariant 0 <= i <= |ts| && PdsOf(all) == Woken(was, Pids(ts)[..i], g.id, g.events)
    {
      NextTask(all, ts, i);
      WakeNext(ts[i], g, i, ts, all, was);
      i := i + 1;
    }
    assert Pids(ts)[..i] == Pids(ts);
  }

  lemma SetBitsSplits(s: KState, id: nat, bits: bv16)
    ensures !(1 <= id <= |s.egs|) ==> Spec.SetBits(s, id, bits) == s.(err := OBJECT_NOT_FOUND_ERR)
    ensures 1 <= id <= |s.egs| ==>
      var events := Spec.Raised(s.egs[id - 1], bits);
      Spec.SetBits(s, id, bits) == s.(egs := s.egs[id - 1 := events], pd := Woken(s.pd, s.order, id, events))
  {
    hide Spec.WokenBy, Spec.Satisfied;
    if 1 <= id <= |s.egs| {
      var events := Spec.Raised(s.egs[id - 1], bits);
      assert Spec.SetBits(s, id, bits).pd == Woken(s.pd, s.order, id, events);
    }
  }

  /** eg->events |= bits */
  method RaiseBits(k: System, g: EventGroup, bits: bv16)
    requires k.Valid() && 1 <= g.id <= |k.groups| && g == k.groups[g.id - 1]
    modifies g
    ensures k.Valid() && g.events == Spec.Raised(old(g.events), bits)
    ensures EgsOf(k.groups) == old(EgsOf(k.groups))[g.id - 1 := g.events]
  {
    ghost var egs := EgsOf(k.groups);
    g.events := g.events | bits;
    GroupChanged(k.groups, egs, g.id - 1);
  }

  method SetFound(k: System, g: EventGroup, bits: bv16)
    requires k.Valid() && 1 <= g.id <= |k.groups| && g == k.groups[g.id - 1] && NoDup(Pids(k.tasks))
    modifies g, k.all.Values
    ensures k.Valid() && |k.View().egs| == |k.groups|
    ensures var s, events := old(k.View()), Spec.Raised(old(g.events), bits);
      k.View() == s.(egs := s.egs[g.id - 1 := events], pd := Woken(s.pd, s.order, g.id, events))
  {
    hide Spec.Raised, Woken, Waker, NoDup, MutexesOk, SemaphoresOk, MailboxesOk, GroupsOk, Known, Indexed, MutsOf,
         SemsOf,
         MbsOf, EgsOf, PdsOf, Pids;
    ViewParts(k);
    RaiseBits(k, g, bits);
    WakeAll(g, k.tasks, k.all);
    ViewParts(k);
  }

  /** Kernel_Event_Group_Set_Bits */
  method SetBits(k: System, id: nat, bits: bv16)
    requires k.Valid() && NoDup(Pids(k.tasks))
    modifies k`err, k.groups, k.all.Values
    ensures k.Valid()
    ensures k.View() == Spec.SetBits(old(k.View()), id, bits)
  {
    hide Spec.SetBits, Woken, Spec.Raised, NoDup, System.Valid, System.View, MutsOf, SemsOf, MbsOf, EgsOf, PdsOf;
    ViewParts(k);
    SetBitsSplits(k.View(), id, bits);
    var g := FindGroup(k, id);
    if g == null {
      Raise(k, OBJECT_NOT_FOUND_ERR);
    } else {
      SetFound(k, g, bits);
    }
  }

  lemma ClearBitsSplits(s: KState, id: nat, bits: bv16)
    ensures !(1 <= id <= |s.egs|) ==> Spec.ClearBits(s, id, bits) == s.(err := OBJECT_NOT_FOUND_ERR)
    ensures 1 <= id <= |s.egs| ==>
      Spec.ClearBits(s, id, bits) == s.(egs := s.egs[id - 1 := Spec.Cleared(s.egs[id - 1], bits)])
  {
  }

  method ClearFound(k: System, g: EventGroup, bits: bv16)
    requires k.Valid() && 1 <= g.id <= |k.groups| && g == k.groups[g.id - 1]
    modifies g
    ensures k.Valid() && |k.View().egs| == |k.groups|
    ensures var s := old(k.View()); k.View() == s.(egs := s.egs[g.id - 1 := Spec.Cleared(old(g.events), bits)])
  {
    hide MutexesOk, SemaphoresOk, MailboxesOk, Known, Indexed, MutsOf, SemsOf, MbsOf, EgsOf, PdsOf, Pids;
    ViewParts(k);
    ghost var egs := EgsOf(k.groups);
    g.events := g.events & !bits;
    GroupChanged(k.groups, egs, g.id - 1);
    ViewParts(k);
  }

  /** Kernel_Event_Group_Clear_Bits */
  method ClearBits(k: System, id: nat, bits: bv16)
    requires k.Valid()
    modifies k`err, k.groups
    ensures k.Valid()
    ensures k.View() == Spec.ClearBits(old(k.View()), id, bits)
  {
    hide Spec.ClearBits, Spec.Cleared, System.Valid, System.View, MutsOf, SemsOf, MbsOf, EgsOf, PdsOf;
    ViewParts(k);
    ClearBitsSplits(k.View(), id, bits);
    var g := FindGroup(k, id);
    if g == null {
      Raise(k, OBJECT_NOT_FOUND_ERR);
    } else {
      ClearFound(k, g, bits);
    }
  }

  /** The tests of Kernel_Event_Group_Wait_Bits, and the task it blocks. */
  method WaitOn(k: System, g: EventGroup, c: Task, bits: bv16, all: bool)
    modifies k`requestCswitch, c
    ensures var ok := Spec.Satisfied(g.events, bits, all);
      && c.View() == (if ok then old(c.View()) else old(c.View()).(state := WAIT_EVENTG))
      && k.requestCswitch == (old(k.requestCswitch) || !ok)
  {
    hide Spec.Satisfied;
    var ready := TestBits(g.events, bits, all);
    if ready { return; }
    c.state := WAIT_EVENTG;
    k.requestCswitch := true;
  }

  method WaitFound(k: System, g: EventGroup, bits: bv16, all: bool)
    requires k.Valid() && k.current != null
    modifies k`requestCswitch, k.current
    ensures k.Valid() && old(k.current.pid in k.View().pd)
    ensures var s, c := old(k.View()), k.current.pid;
      k.View() == if Spec.Satisfied(g.events, bits, all) then s
                  else s.(pd := s.pd[c := s.pd[c].(state := WAIT_EVENTG)], cswitch := true)
  {
    hide Spec.Satisfied, MutexesOk, SemaphoresOk, MailboxesOk, GroupsOk, Known, MutsOf, SemsOf, MbsOf, EgsOf, Pids;
    CurrentListed(k);
    ghost var pds := PdsOf(k.all);
    WaitOn(k, g, k.current, bits, all);
    TaskChanged(k.all, pds, k.current);
  }

  /** Kernel_Event_Group_Wait_Bits; a missing group raises no error. */
  method WaitBits(k: System, id: nat, bits: bv16, all: bool)
    requires k.Valid() && k.current != null
    modifies k`requestCswitch, k.current
    ensures k.Valid()
    ensures k.View() == Spec.WaitBits(old(k.View()), id, bits, all)
  {
    hide Spec.Satisfied, System.Valid, System.View, MutsOf, SemsOf, MbsOf, EgsOf, PdsOf;
    ViewParts(k);
    var g := FindGroup(k, id);
    if g == null { return; }
    WaitFound(k, g, bits, all);
  }

  method AddGroup(k: System) returns (g: EventGroup)
    requires k.Valid()
    modifies k`groups
    ensures k.Valid() && fresh(g) && g.id == |k.groups| && k.groups == old(k.groups) + [g]
    ensures var s := old(k.View()); k.View() == s.(egs := s.egs + [0])
  {
    hide MutexesOk, SemaphoresOk, MailboxesOk, Known, Indexed, MutsOf, SemsOf, MbsOf, PdsOf, Pids;
    ghost var egs := EgsOf(k.groups);
    g := new EventGroup(|k.groups| + 1);
    k.groups := k.groups + [g];
    assert EgsOf(k.groups) == egs + [g.events];
  }

  /** Kernel_Create_Event_Group */
  method Create(k: System)
    requires k.Valid() && k.current != null
    modifies k`err, k`groups, k.current
    ensures k.Valid() && forall x :: x in k.groups ==> x in old(k.groups) || fresh(x)
    ensures k.View() == Spec.Created(Spec.CreateEventGroup(old(k.View())))
  {
    hide System.Valid, System.View, MutsOf, SemsOf, MbsOf, EgsOf, PdsOf;
    ViewParts(k);
    if |k.groups| >= MAX_OBJECTS {
      Raise(k, MAX_OBJECT_ERR);
      Answer(k, 0);
    } else {
      var g := AddGroup(k);
      Answer(k, g.id);
    }
  }
}
