/** What event groups promise, bit by bit: when a condition holds, whom a set wakes, and when a wait blocks. */
module EventMeaning {
  import opened KernelTypes
  import opened KernelState
  import opened Requests
  import opened ShapeProofs
  import opened MainLoop
  import opened Effects

  // ----- bits

  /** A power of two. */
  predicate Single(m: bv16) {
    m in {0x0001, 0x0002, 0x0004, 0x0008, 0x0010, 0x0020, 0x0040, 0x0080,
          0x0100, 0x0200, 0x0400, 0x0800, 0x1000, 0x2000, 0x4000, 0x8000}
  }

  function Mask(i: nat): (m: bv16)
    requires i < 16
    ensures Single(m)
  {
    match i
    case 0 => 0x0001 case 1 => 0x0002 case 2 => 0x0004 case 3 => 0x0008
    case 4 => 0x0010 case 5 => 0x0020 case 6 => 0x0040 case 7 => 0x0080
    case 8 => 0x0100 case 9 => 0x0200 case 10 => 0x0400 case 11 => 0x0800
    case 12 => 0x1000 case 13 => 0x2000 case 14 => 0x4000 case 15 => 0x8000
  }

  predicate Hits(x: bv16, m: bv16) {
    x & m != 0
  }

  /** Bit i of x is set. */
  predicate Bit(x: bv16, i: nat) {
    i < 16 && Hits(x, Mask(i))
  }

  ghost predicate AllSet(events: bv16, bits: bv16) {
    forall i: nat :: Bit(bits, i) ==> Bit(events, i)
  }

  ghost predicate SomeSet(events: bv16, bits: bv16) {
    exists i: nat :: Bit(bits, i) && Bit(events, i)
  }

  ghost predicate NoneAwaited(bits: bv16) {
    forall i: nat :: !Bit(bits, i)
  }

  /** The condition of a waiter: all its bits are set; or any of them is, or it awaits none. */
  ghost predicate Holds(events: bv16, bits: bv16, all: bool) {
    if all then AllSet(events, bits) else SomeSet(events, bits) || NoneAwaited(bits)
  }

  predicate Same(x: bv16, y: bv16, m: bv16) {
    Hits(x, m) <==> Hits(y, m)
  }

  lemma SixteenBits(x: bv16, y: bv16)
    requires Same(x, y, 0x0001) && Same(x, y, 0x0002) && Same(x, y, 0x0004) && Same(x, y, 0x0008)
    requires Same(x, y, 0x0010) && Same(x, y, 0x0020) && Same(x, y, 0x0040) && Same(x, y, 0x0080)
    requires Same(x, y, 0x0100) && Same(x, y, 0x0200) && Same(x, y, 0x0400) && Same(x, y, 0x0800)
    requires Same(x, y, 0x1000) && Same(x, y, 0x2000) && Same(x, y, 0x4000) && Same(x, y, 0x8000)
    ensures x == y
  {
  }

  lemma SameAt(x: bv16, y: bv16, i: nat)
    requires i < 16 && (Bit(x, i) <==> Bit(y, i))
    ensures Same(x, y, Mask(i))
  {
  }

  /** Agreement in all sixteen bits is equality. */
  lemma SameBits(x: bv16, y: bv16)
    requires forall i: nat :: Bit(x, i) <==> Bit(y, i)
    ensures x == y
  {
    hide Same, Bit, Single, Hits;
    SameAt(x, y, 0); SameAt(x, y, 1); SameAt(x, y, 2); SameAt(x, y, 3);
    SameAt(x, y, 4); SameAt(x, y, 5); SameAt(x, y, 6); SameAt(x, y, 7);
    SameAt(x, y, 8); SameAt(x, y, 9); SameAt(x, y, 10); SameAt(x, y, 11);
    SameAt(x, y, 12); SameAt(x, y, 13); SameAt(x, y, 14); SameAt(x, y, 15);
    SixteenBits(x, y);
  }

  lemma AndHits(x: bv16, y: bv16, m: bv16)
    requires Single(m)
    ensures Hits(x & y, m) <==> Hits(x, m) && Hits(y, m)
  {
  }

  lemma AndBits(x: bv16, y: bv16, i: nat)
    ensures Bit(x & y, i) <==> Bit(x, i) && Bit(y, i)
  {
    hide Hits, Mask, Single;
    if i < 16 { AndHits(x, y, Mask(i)); }
  }

  lemma OrZero(a: bv16, b: bv16)
    ensures a | b == 0 <==> a == 0 && b == 0
  {
  }

  lemma Distributes(x: bv16, y: bv16, m: bv16)
    ensures (x | y) & m == (x & m) | (y & m)
  {
  }

  lemma OrHits(x: bv16, y: bv16, m: bv16)
    ensures Hits(x | y, m) <==> Hits(x, m) || Hits(y, m)
  {
    Distributes(x, y, m);
    OrZero(x & m, y & m);
  }

  lemma OrBits(x: bv16, y: bv16, i: nat)
    ensures Bit(x | y, i) <==> Bit(x, i) || Bit(y, i)
  {
    hide Hits, Mask, Single;
    if i < 16 { OrHits(x, y, Mask(i)); }
  }

  lemma WithoutHits(x: bv16, y: bv16, m: bv16)
    requires Single(m)
    ensures Hits(x & !y, m) <==> Hits(x, m) && !Hits(y, m)
  {
  }

  lemma WithoutBits(x: bv16, y: bv16, i: nat)
    ensures Bit(x & !y, i) <==> Bit(x, i) && !Bit(y, i)
  {
    hide Hits, Mask, Single;
    if i < 16 { WithoutHits(x, y, Mask(i)); }
  }

  lemma ZeroBits(i: nat)
    ensures !Bit(0, i)
  {
    if i < 16 { assert 0 & Mask(i) == 0; }
  }

  /** The comparison of the source means the condition. */
  lemma SatisfiedMeans(events: bv16, bits: bv16, all: bool)
    ensures Satisfied(events, bits, all) <==> Holds(events, bits, all)
  {
    var both := events & bits;
    forall i: nat ensures Bit(both, i) <==> Bit(events, i) && Bit(bits, i) { AndBits(events, bits, i); }
    assert both == bits <==> AllSet(events, bits) by {
      if AllSet(events, bits) { SameBits(both, bits); }
    }
    assert both == 0 <==> !SomeSet(events, bits) by {
      forall i: nat ensures !Bit(0, i) { ZeroBits(i); }
      if !SomeSet(events, bits) { SameBits(both, 0); }
    }
    assert bits == 0 <==> NoneAwaited(bits) by {
      forall i: nat ensures !Bit(0, i) { ZeroBits(i); }
      if NoneAwaited(bits) { SameBits(bits, 0); }
    }
    assert both > 0 <==> both != 0;
    if both == bits && !all && bits != 0 { assert both != 0; }
  }

  // ----- the requests

  predicate WaitsFor(d: PD, id: nat) {
    d.state == WAIT_EVENTG && d.args.EgWaitBits? && d.args.id == id
  }

  /** Made READY by events that meet its condition, and otherwise left alone. */
  ghost predicate WokenIfMet(d: PD, d': PD, id: nat, events: bv16) {
    d' == if WaitsFor(d, id) && Holds(events, d.args.bits, d.args.all) then d.(state := READY) else d
  }

  lemma WokenMeans(d: PD, id: nat, events: bv16)
    ensures WokenIfMet(d, WokenBy(d, id, events), id, events)
  {
    if WaitsFor(d, id) { SatisfiedMeans(events, d.args.bits, d.args.all); }
    hide Holds, Satisfied;
  }

  lemma SetAt(i: KState, id: nat, events: bv16, p: Pid)
    requires 1 <= id <= |i.egs| && ListShape(i) && p in i.pd
    ensures var h := WithEvents(i, id, events); p in h.pd && WokenIfMet(i.pd[p], h.pd[p], id, events)
  {
    WokenMeans(i.pd[p], id, events);
    if p !in i.order { assert i.pd[p].state == DEAD; }
    hide WokenBy, Holds, Stays, ListShape;
  }

  lemma SetFields(i: KState, id: nat, events: bv16)
    requires 1 <= id <= |i.egs|
    ensures var h := WithEvents(i, id, events); h == i.(pd := h.pd, egs := i.egs[id - 1 := events])
  {
    hide WokenBy, Stays;
  }

  lemma SetKeys(i: KState, id: nat, events: bv16)
    requires 1 <= id <= |i.egs|
    ensures WithEvents(i, id, events).pd.Keys == i.pd.Keys
  {
    hide WokenBy, Stays;
    forall p ensures p in WithEvents(i, id, events).pd <==> p in i.pd {}
  }

  /** What a set by the current task does, before it is spelled out in bits. */
  ghost predicate SetDone(s: KState, id: nat, args: Request, events: bv16, h: KState)
    requires 1 <= id <= |s.egs|
  {
    var c := s.current;
    && h == s.(pd := h.pd, egs := s.egs[id - 1 := events], err := NO_ERR) && h.pd.Keys == s.pd.Keys
    && c in s.pd && c in h.pd && WokenIfMet(s.pd[c].(args := args), h.pd[c], id, events)
    && (forall p :: p in s.pd && p != c ==> p in h.pd && WokenIfMet(s.pd[p], h.pd[p], id, events))
  }

  lemma IssuedTask(s: KState, r: Request, p: Pid)
    requires s.current in s.pd && r.EgSetBits? && p in s.pd
    ensures p in Issue(s, r).pd && Issue(s, r).pd[p] == if p == s.current then s.pd[p].(args := r) else s.pd[p]
  {
  }

  lemma SetView(s: KState, id: nat, r: Request, events: bv16)
    requires Alive(s) && 1 <= id <= |s.egs| && r.EgSetBits? && s.current in s.pd
    ensures SetDone(s, id, r, events, WithEvents(Issue(s, r), id, events))
  {
    hide WokenIfMet, WithEvents, ObjectShape, ListShape;
    var i := Issue(s, r);
    var h := WithEvents(i, id, events);
    Entering(s);
    IssueShape(s, r);
    SetFields(i, id, events);
    SetKeys(i, id, events);
    forall p | p in s.pd
      ensures p in h.pd && WokenIfMet(if p == s.current then s.pd[p].(args := r) else s.pd[p], h.pd[p], id, events)
    {
      IssuedTask(s, r, p);
      SetAt(i, id, events, p);
    }
  }

  lemma RaisedBits(events: bv16, bits: bv16)
    ensures forall i: nat :: Bit(Raised(events, bits), i) <==> Bit(events, i) || Bit(bits, i)
  {
    hide Bit;
    forall i: nat ensures Bit(Raised(events, bits), i) <==> Bit(events, i) || Bit(bits, i) {
      OrBits(events, bits, i);
    }
  }

  lemma CalledSet(s: KState, id: nat, bits: bv16, anchor: nat)
    requires Alive(s) && 1 <= id <= |s.egs| && s.current in s.pd
    ensures |Issue(s, EgSetBits(id, bits)).egs| == |s.egs|
    ensures Called(s, EgSetBits(id, bits), anchor) ==
      WithEvents(Issue(s, EgSetBits(id, bits)), id, Raised(s.egs[id - 1], bits))
  {
    var r := EgSetBits(id, bits);
    hide Alive, Called, ObjectShape, WithEvents, Raised;
    CalledHandles(s, r, anchor);
  }

  /** A set adds exactly its bits. It makes READY exactly the tasks that wait on this group and whose condition
      now holds, changes nothing else of them, and leaves every other task alone. */
  lemma SetMeaning(s: KState, id: nat, bits: bv16, anchor: nat)
    requires Alive(s) && 1 <= id <= |s.egs| && s.current in s.pd && Awake(s.pd[s.current])
    ensures var h, c := Called(s, EgSetBits(id, bits), anchor), s.current;
      && |h.egs| == |s.egs| && h.egs == s.egs[id - 1 := h.egs[id - 1]] && Quiet(s, h.(egs := s.egs))
      && (forall i: nat :: Bit(h.egs[id - 1], i) <==> Bit(s.egs[id - 1], i) || Bit(bits, i))
      && h.pd.Keys == s.pd.Keys && c in h.pd && CallerSame(s.pd[c], h.pd[c])
      && (forall p :: p in s.pd && p != c ==> p in h.pd && WokenIfMet(s.pd[p], h.pd[p], id, h.egs[id - 1]))
  {
    hide WokenIfMet, WithEvents, Issue, Called, Bit, Shape, Raised;
    var r, c, events := EgSetBits(id, bits), s.current, Raised(s.egs[id - 1], bits);
    CalledSet(s, id, bits, anchor);
    SetView(s, id, r, events);
    RaisedBits(s.egs[id - 1], bits);
    AwakeStays(s.pd[c].(args := r), Called(s, r, anchor).pd[c], id, events);
  }

  lemma AwakeStays(d: PD, d': PD, id: nat, events: bv16)
    requires Awake(d) && WokenIfMet(d, d', id, events)
    ensures d' == d
  {
  }

  lemma ClearedBits(events: bv16, bits: bv16)
    ensures forall i: nat :: Bit(Cleared(events, bits), i) <==> Bit(events, i) && !Bit(bits, i)
  {
    hide Bit;
    forall i: nat ensures Bit(Cleared(events, bits), i) <==> Bit(events, i) && !Bit(bits, i) {
      WithoutBits(events, bits, i);
    }
  }

  lemma ClearView(s: KState, id: nat, bits: bv16, anchor: nat)
    requires Alive(s) && 1 <= id <= |s.egs| && s.current in s.pd
    ensures Called(s, EgClearBits(id, bits), anchor) ==
      s.(pd := s.pd[s.current := s.pd[s.current].(args := EgClearBits(id, bits))],
         egs := s.egs[id - 1 := Cleared(s.egs[id - 1], bits)], err := NO_ERR)
  {
    var r := EgClearBits(id, bits);
    hide Alive, Called, Issue, ObjectShape, Cleared;
    IssueStores(s, r);
    CalledHandles(s, r, anchor);
  }

  /** A clear removes exactly its bits, and wakes nobody. */
  lemma ClearMeaning(s: KState, id: nat, bits: bv16, anchor: nat)
    requires Alive(s) && 1 <= id <= |s.egs|
    ensures var h, c := Called(s, EgClearBits(id, bits), anchor), s.current;
      && |h.egs| == |s.egs| && h.egs == s.egs[id - 1 := h.egs[id - 1]] && Quiet(s, h.(egs := s.egs))
      && (forall i: nat :: Bit(h.egs[id - 1], i) <==> Bit(s.egs[id - 1], i) && !Bit(bits, i))
      && OthersSame(s, h, {c}) && c in s.pd && c in h.pd && CallerSame(s.pd[c], h.pd[c])
  {
    Entering(s);
    assert !s.cswitch;
    hide Called, Bit, Alive, Cleared;
    ClearView(s, id, bits, anchor);
    ClearedBits(s.egs[id - 1], bits);
    OneTask(s, Called(s, EgClearBits(id, bits), anchor), s.current);
  }

  /** A wait blocks the caller, with its timeout running, if and only if its condition does not hold now;
      otherwise it comes back at once. It changes nobody else. */
  lemma WaitMeaning(s: KState, id: nat, bits: bv16, all: bool, t: nat, anchor: nat)
    requires Alive(s) && 1 <= id <= |s.egs|
    ensures var h, c := Called(s, EgWaitBits(id, bits, all, t), anchor), s.current;
      && OthersSame(s, h, {c}) && c in s.pd && c in h.pd && Quiet(s, h.(cswitch := false))
      && h.cswitch == !Holds(s.egs[id - 1], bits, all)
      && h.pd[c] == s.pd[c].(args := EgWaitBits(id, bits, all, t), timeout := t,
                             state := if Holds(s.egs[id - 1], bits, all) then s.pd[c].state else WAIT_EVENTG)
  {
    var r, c := EgWaitBits(id, bits, all, t), s.current;
    Entering(s);
    assert !s.cswitch;
    hide Alive, Called, Holds, Satisfied, ObjectShape;
    CalledHandles(s, r, anchor);
    SatisfiedMeans(s.egs[id - 1], bits, all);
    OneTask(s, Called(s, r, anchor), c);
  }

  /** Without such a group a wait comes back at once, and reports nothing. */
  lemma WaitMissing(s: KState, id: nat, bits: bv16, all: bool, t: nat, anchor: nat)
    requires Alive(s) && !(1 <= id <= |s.egs|) && s.current in s.pd
    ensures Called(s, EgWaitBits(id, bits, all, t), anchor) ==
      s.(pd := s.pd[s.current := s.pd[s.current].(args := EgWaitBits(id, bits, all, t), timeout := t)], err := NO_ERR)
  {
    hide ListShape, ObjectShape, Satisfied;
    CalledHandles(s, EgWaitBits(id, bits, all, t), anchor);
  }
}
