/** Tick handling, task selection and dispatch of kernel.c. */
module Scheduler {
  import opened KernelTypes
  import opened KernelState

  // ----- ticks

  /** An unsigned 16-bit difference stored in a signed 16-bit int, as `remaining_ticks` is. */
  function Signed16(x: int): int {
    var u := x % WORD;
    if u < WORD / 2 then u else u - WORD
  }

  function TickTask(d: PD, k: nat): PD {
    var d1 := if d.state == READY then d.(starvation := (d.starvation + k) % WORD) else d;
    if d.timeout == 0 then d1
    else
      var remaining := Signed16(d.timeout - k);
      if remaining > 0 then d1.(timeout := remaining)
      else if d.state == SUSPENDED then d1.(timeout := 0, lastState := READY)
      else d1.(timeout := 0, state := READY, retval := 0)
  }

  /** What the passing of ticks may do to a descriptor. */
  ghost predicate Aged(d: PD, d': PD) {
    && d' == d.(state := d'.state, timeout := d'.timeout, lastState := d'.lastState,
                starvation := d'.starvation, retval := d'.retval)
    && if d.timeout == 0 then d' == d.(starvation := d'.starvation)
       else if d'.timeout > 0 then d' == d.(starvation := d'.starvation, timeout := d'.timeout)
       else if d.state == SUSPENDED then d'.state == SUSPENDED && d'.lastState == READY
       else d'.state == READY && d'.lastState == d.lastState && d.state != DEAD
  }

  /** s' is s after some ticks: descriptors aged, the clock advanced, and nothing else. */
  ghost predicate OnlyAged(s: KState, s': KState) {
    && s' == s.(pd := s'.pd, ticks := s'.ticks, clock := s'.clock)
    && s'.pd.Keys == s.pd.Keys
    && (forall p :: p in s'.pd ==> p in s.pd && Aged(s.pd[p], s'.pd[p]))
  }

  lemma AgedTwice(a: KState, b: KState, c: KState)
    requires OnlyAged(a, b) && OnlyAged(b, c)
    ensures OnlyAged(a, c)
  {
    forall p | p in c.pd ensures p in a.pd && Aged(a.pd[p], c.pd[p]) {
      assert Aged(b.pd[p], c.pd[p]);
      assert Aged(a.pd[p], b.pd[p]);
    }
  }

  lemma AgedKeepsLists(s: KState, s': KState)
    requires ListShape(s) && OnlyAged(s, s')
    ensures ListShape(s')
  {
    forall p | p in s'.pd ensures p in s.pd && Aged(s.pd[p], s'.pd[p]) {}
    forall p ensures p in s'.pd <==> p in s.pd {
      assert p in s.pd <==> p in s.pd.Keys;
      assert p in s'.pd <==> p in s'.pd.Keys;
    }
  }

  function TickHandler(s: KState): (s': KState)
    requires ListShape(s)
    ensures OnlyAged(s, s')
  {
    if s.ticks == 0 then s
    else
      s.(pd := map p | p in s.pd :: if p in s.order then TickTask(s.pd[p], s.ticks) else s.pd[p],
         ticks := 0, clock := s.clock + s.ticks)
  }

  /** Timer interrupts since Tick_Count was last looked at. */
  function Arrive(s: KState, n: nat): (s': KState)
    ensures ListShape(s) ==> ListShape(s')
  {
    s.(ticks := (s.ticks + n) % WORD)
  }

  /** The timer interrupt. */
  function Tick(s: KState): KState { Arrive(s, 1) }

  // ----- selection

  /** The list position visited at the k-th step of the circular scan. */
  function Visited(s: KState, k: nat): nat
    requires s.order != []
  {
    (s.last + 1 + k) % |s.order|
  }

  function TaskAt(s: KState, k: nat): PD
    requires s.order != [] && ListShape(s)
  {
    s.pd[s.order[Visited(s, k)]]
  }

  /** next_dispatch, highest_priority and most_starved during the scan, as scan steps (-1 for NULL). */
  datatype Scan = Scan(next: int, highest: nat, starved: int)

  function Look(s: KState, a: Scan, k: nat): Scan
    requires s.order != [] && ListShape(s) && a.starved < k
  {
    var d := TaskAt(s, k);
    if d.state != READY then a
    else if d.pri < a.highest then a.(next := k, highest := d.pri)
    else if d.starvation >= STARVATION_MAX then
      if a.starved >= 0 && TaskAt(s, a.starved).starvation <= d.starvation then a else a.(starved := k)
    else a
  }

  function ScanTo(s: KState, k: nat): (a: Scan)
    requires s.order != [] && ListShape(s)
    ensures -1 <= a.next < k && -1 <= a.starved < k
  {
    if k == 0 then Scan(-1, LOWEST_PRIORITY + 1, -1) else Look(s, ScanTo(s, k - 1), k - 1)
  }

  /** The scan step of the selected task, or -1. */
  function Select(s: KState): (k: int)
    requires s.order != [] && ListShape(s)
    ensures -1 <= k < |s.order|
  {
    var a := ScanTo(s, |s.order|);
    if a.starved >= 0 then a.starved else a.next
  }

  // ----- dispatch

  predicate SomeReady(s: KState)
    requires ListShape(s)
  {
    exists p :: p in s.order && s.pd[p].state == READY
  }

  /** No task is ready: the kernel waits, handling one batch of ticks after another. */
  function Idle(s: KState, batches: seq<nat>): (r: Option<KState>)
    requires ListShape(s)
    ensures r.Some? ==> ListShape(r.value) && SomeReady(r.value) && OnlyAged(s, r.value)
    decreases |batches|
  {
    if SomeReady(s) then Some(s)
    else if batches == [] then None
    else
      var s1 := Arrive(s, batches[0]);
      var s2 := TickHandler(s1);
      AgedKeepsLists(s1, s2);
      var r := Idle(s2, batches[1..]);
      if r.Some? then
        assert OnlyAged(s, s2) && OnlyAged(s2, r.value);
        AgedTwice(s, s2, r.value);
        r
      else r
  }

  function Requeue(s: KState): (s': KState)
    ensures ListShape(s) ==> ListShape(s')
  {
    if s.current in s.pd && s.pd[s.current].state == RUNNING
    then s.(pd := s.pd[s.current := s.pd[s.current].(state := READY)])
    else s
  }

  /** The state in which Kernel_Dispatch_Next_Task makes its choice; None if no task ever gets ready. */
  function Choice(s: KState, batches: seq<nat>): (r: Option<KState>)
    requires ListShape(s)
    ensures r.Some? ==> ListShape(r.value) && SomeReady(r.value) && OnlyAged(Requeue(s), r.value)
  {
    var s1 := Requeue(s);
    var s2 := TickHandler(s1);
    AgedKeepsLists(s1, s2);
    var r := Idle(s2, batches);
    if r.Some? then
      AgedTwice(s1, s2, r.value);
      r
    else r
  }

  function Run(s: KState, k: nat): KState
    requires s.order != [] && ListShape(s)
  {
    var i := Visited(s, k);
    var p := s.order[i];
    s.(last := i, current := p, pd := s.pd[p := s.pd[p].(state := RUNNING, starvation := 0)])
  }

  function Dispatch(s: KState, batches: seq<nat>): Option<KState>
    requires ListShape(s)
  {
    var c := Choice(s, batches);
    if c.None? then None
    else
      var k := Select(c.value);
      if k < 0 then None else Some(Run(c.value, k))
  }
}
