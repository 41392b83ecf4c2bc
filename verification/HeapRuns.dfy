/** The allocator in memory over whole runs, as written and corrected. */
module HeapRuns {
  import opened KernelTypes
  import opened HeapSegments
  import opened HeapMemory
  import opened HeapLaws
  import opened HeapPayloads
  import opened HeapAllocator

  // ----- the 16-bit break

  /** The test of grow_kmalloc_break in 16-bit arithmetic, for a request of `len` bytes. */
  predicate Accepts16(brk: nat, end: nat, start: nat, len: nat) {
    end <= Wrapped(brk, (len + H) % WORD) <= start
  }

  /** The wrapped test agrees with the integers exactly when neither the size nor the break wraps
      around into the heap again. */
  lemma GrowthTestExact(brk: nat, end: nat, start: nat, len: nat)
    requires 0 < end <= brk <= start < WORD && len < WORD
    ensures (Accepts16(brk, end, start, len) <==> end + len + H <= brk) <==>
      if len + H < WORD then len + H + (start - brk) < WORD
      else brk - end < len + H - WORD && len + H - WORD + (start - brk) < WORD
  {
    var total := len + H;
    var amount := total % WORD;
    assert amount == if total < WORD then total else total - WORD;
    assert Wrapped(brk, amount) == if amount <= brk then brk - amount else brk - amount + WORD;
  }

  // ----- the round trip in memory

  lemma FreshBlock(h: HeapSegments.Heap, end: nat, start: nat, len: nat)
    requires WellFormed(h, end, start) && Malloc(h, end, len).1 != 0
    ensures var (h', p) := Malloc(h, end, len);
      Find(h'.segs, p) < |h'.segs| && PredecessorUnused(h'.segs, p)
  {
    var (h', p) := Malloc(h, end, len);
    MallocWellFormed(h, end, start, len);
    MallocLive(h, end, start, len);
    var g := Seg(p - H, len, false);
    assert g in Live(h'.segs);
    var i :| 0 <= i < |h'.segs| && h'.segs[i] == g;
    Whole(h'.segs, i);
    FindIs(h'.segs[..i], g, h'.segs[i + 1..], h'.brk);
    NoneAbove(h, end, start, len);
  }

  /** The block that kmalloc returns has no free neighbour above it, so kfree has nothing to absorb there. */
  lemma NoneAbove(h: HeapSegments.Heap, end: nat, start: nat, len: nat)
    requires WellFormed(h, end, start) && Malloc(h, end, len).1 != 0
    ensures var (h', p) := Malloc(h, end, len); var i := Find(h'.segs, p);
      i < |h'.segs| ==> !MergesUp(h'.segs[i + 1..])
  {
    hide ExactAt, BestAt, Find, WellFormed, Rest, MergesUp;
    var s, e, b := h.segs, ExactAt(h.segs, len), BestAt(h.segs, len);
    MallocWellFormed(h, end, start, len);
    Fits(s, len);
    if e >= 0 {
      NextIsLive(h, end, start, e);
      AboveIn(Malloc(h, end, len).0, end, start, s[..e], s[e].(free := false), s[e + 1..]);
    } else if b >= 0 {
      NextIsLive(h, end, start, b);
      var rest := Rest(s[b], len);
      var y := Seg(End(rest), len, false);
      assert s[..b] + [rest, y] + s[b + 1..] == (s[..b] + [rest]) + [y] + s[b + 1..];
      AboveIn(Malloc(h, end, len).0, end, start, s[..b] + [rest], y, s[b + 1..]);
    } else {
      var g := Seg(h.brk - len - H, len, false);
      assert [g] + s == [] + [g] + s;
      LowestIsLive(h, end, start);
      AboveIn(Malloc(h, end, len).0, end, start, [], g, s);
    }
  }

  lemma NextIsLive(h: HeapSegments.Heap, end: nat, start: nat, i: nat)
    requires WellFormed(h, end, start) && i < |h.segs| && h.segs[i].free
    ensures !MergesUp(h.segs[i + 1..])
  {
    var s, up := h.segs, h.segs[i + 1..];
    assert up != [] ==> up[0] == s[i + 1] && !(s[i].free && s[i + 1].free);
  }

  lemma LowestIsLive(h: HeapSegments.Heap, end: nat, start: nat)
    requires WellFormed(h, end, start)
    ensures !MergesUp(h.segs)
  {
  }

  lemma AboveIn(h: HeapSegments.Heap, end: nat, start: nat, a: seq<Seg>, x: Seg, b: seq<Seg>)
    requires WellFormed(h, end, start) && h.segs == a + [x] + b
    ensures Find(h.segs, x.addr + H) == |a| && h.segs[|a| + 1..] == b
  {
    FindIs(a, x, b, h.brk);
  }

  /** kfree of what kmalloc just returned restores break, segments, list head and every link, even in
      the program as written, provided that the exact piece (if one was used) was the list head. */
  method AllocateThenFree(h: Allocator, len: nat) returns (p: nat)
    requires h.Valid() && Unwrapped(h.View(), h.start, len)
    requires h.corrected || ExactIsFirst(h.segs, len)
    modifies h
    ensures h.Valid() && h.View() == old(h.View()) && h.head == old(h.head)
    ensures SameHeaders(old(h.mem), h.mem, h.segs)
  {
    hide WellFormed, Threaded, Malloc, Free, ExactIsFirst, PredecessorUnused, SameBut, SameHeaders, Find;
    ghost var v, mem := h.View(), h.mem;
    p := h.Kmalloc(len);
    if p != 0 {
      FreshBlock(v, h.end, h.start, len);
      FreeUndoesMalloc(v, h.end, h.start, len);
      h.Kfree(p);
    } else {
      MallocFails(v, h.end, h.start, len);
    }
    OneThreading(mem, h.mem, h.segs);
  }

  /** The segments have the same headers, and so the free list the same links. */
  ghost predicate SameHeaders(mem: Memory, mem': Memory, s: seq<Seg>) {
    forall i :: 0 <= i < |s| ==> s[i].addr in mem && s[i].addr in mem' && mem[s[i].addr] == mem'[s[i].addr]
  }

  /** A partition determines its headers. */
  lemma OneThreading(mem: Memory, mem': Memory, s: seq<Seg>)
    requires Threaded(mem, s, 0) && Threaded(mem', s, 0)
    ensures SameHeaders(mem, mem', s)
  {
    forall i | 0 <= i < |s|
      ensures s[i].addr in mem && s[i].addr in mem' && mem[s[i].addr] == mem'[s[i].addr]
    {
      HeaderAt(mem, s, i);
      HeaderAt(mem', s, i);
    }
  }

  // ----- runs

  /** A call that does not wrap the 16-bit size or break, whose pointer does not lie inside a block, and that
      avoids the two slips of the program as written. */
  ghost predicate Careful(corrected: bool, h: HeapSegments.Heap, start: nat, c: HeapLaws.Call) {
    match c
    case Alloc(len) => Unwrapped(h, start, len) && (corrected || ExactIsFirst(h.segs, len))
    case Dispose(p) =>
      && (h.brk <= p <= start && p != 0 ==> Find(h.segs, p) < |h.segs|)
      && (corrected || PredecessorUnused(h.segs, p))
  }

  ghost predicate CarefulRun(corrected: bool, h: HeapSegments.Heap, end: nat, start: nat, cs: seq<HeapLaws.Call>)
    decreases |cs|
  {
    cs != [] ==> Careful(corrected, h, start, cs[0]) && CarefulRun(corrected, After(h, end, cs[0]), end, start, cs[1..])
  }

  /** Block `g` is live now and is not freed by any of the calls. */
  ghost predicate LivesOn(h: HeapSegments.Heap, end: nat, cs: seq<HeapLaws.Call>, g: Seg)
    decreases |cs|
  {
    g in Live(h.segs) && (cs != [] ==> LivesOn(After(h, end, cs[0]), end, cs[1..], g))
  }

  /** Over every careful run the headers, the free list and the break in memory follow the partition, and no
      header is written into the payload of a block that lives through the run. */
  method Execute(h: Allocator, cs: seq<HeapLaws.Call>)
    requires h.Valid() && CarefulRun(h.corrected, h.View(), h.end, h.start, cs)
    modifies h
    ensures h.Valid() && h.View() == Run(old(h.View()), old(h.end), cs)
    ensures forall g :: LivesOn(old(h.View()), old(h.end), cs, g) ==> Spares(old(h.mem), h.mem, g)
  {
    hide WellFormed, Threaded, Malloc, Free, ExactIsFirst, PredecessorUnused, SameBut, Live, Rewritten, Spares;
    var i := 0;
    NothingSpoilt(h.mem);
    while i < |cs|
      invariant 0 <= i <= |cs| && h.Valid() && h.end == old(h.end) && h.start == old(h.start)
      invariant CarefulRun(h.corrected, h.View(), h.end, h.start, cs[i..])
      invariant Run(h.View(), h.end, cs[i..]) == Run(old(h.View()), old(h.end), cs)
      invariant forall g :: LivesOn(old(h.View()), old(h.end), cs, g) ==>
        LivesOn(h.View(), h.end, cs[i..], g) && Spares(old(h.mem), h.mem, g)
    {
      ghost var mem, v := h.mem, h.View();
      assert cs[i..][0] == cs[i] && cs[i..][1..] == cs[i + 1..];
      match cs[i] {
        case Alloc(len) => var _ := h.Kmalloc(len);
        case Dispose(p) => h.Kfree(p);
      }
      forall g | LivesOn(v, h.end, cs[i..], g)
        ensures LivesOn(h.View(), h.end, cs[i + 1..], g) && Spares(mem, h.mem, g)
      {
        LivesNow(h.View(), h.end, cs[i + 1..], g);
      }
      forall g | LivesOn(old(h.View()), old(h.end), cs, g) ensures Spares(old(h.mem), h.mem, g) {
        SparesTwice(old(h.mem), mem, h.mem, g);
      }
      i := i + 1;
    }
  }

  lemma NothingSpoilt(mem: Memory)
    ensures forall g :: Spares(mem, mem, g)
  {
  }

  lemma LivesNow(h: HeapSegments.Heap, end: nat, cs: seq<HeapLaws.Call>, g: Seg)
    requires LivesOn(h, end, cs, g)
    ensures g in Live(h.segs)
  {
  }

  lemma LiveIsFound(h: HeapSegments.Heap, g: Seg)
    requires g in Live(h.segs)
    ensures Find(h.segs, g.addr + H) < |h.segs|
  {
    var i :| 0 <= i < |h.segs| && h.segs[i] == g;
    var _ := Find(h.segs, g.addr + H);
  }

  /** With the corrections, freeing every live block in any order is always careful. */
  lemma {:induction false} FreeingIsCareful(h: HeapSegments.Heap, end: nat, start: nat, gs: seq<Seg>)
    requires WellFormed(h, end, start) && (forall g :: g in gs ==> g in Live(h.segs))
    requires forall i, j :: 0 <= i < j < |gs| ==> gs[i] != gs[j]
    ensures CarefulRun(true, h, end, start, Releases(gs))
    decreases |gs|
  {
    hide WellFormed, Live, Free, Find, ExactIsFirst, PredecessorUnused;
    if gs != [] {
      var g := gs[0];
      var p, h' := g.addr + H, Free(h, g.addr + H);
      assert Releases(gs)[1..] == Releases(gs[1..]);
      assert g in gs;
      LiveIsFound(h, g);
      FreeWellFormed(h, end, start, p);
      FreeLive(h, end, start, g);
      forall f | f in gs[1..] ensures f in Live(h'.segs) {
        var j :| 0 <= j < |gs[1..]| && gs[1..][j] == f;
        assert gs[j + 1] == f && gs[0] != gs[j + 1];
        assert f in gs;
      }
      FreeingIsCareful(h', end, start, gs[1..]);
    }
  }

  /** The corrected allocator gives back everything: an empty list and a break at the heap start. */
  method FreeEverything(h: Allocator, ghost gs: seq<Seg>, ps: seq<nat>)
    requires h.Valid() && h.corrected && |ps| == |gs| && forall i :: 0 <= i < |gs| ==> ps[i] == gs[i].addr + H
    requires forall g :: g in gs <==> g in Live(h.segs)
    requires forall i, j :: 0 <= i < j < |gs| ==> gs[i] != gs[j]
    modifies h
    ensures h.Valid() && h.brk == h.start && h.head == 0 && h.segs == []
  {
    ghost var v := h.View();
    FreeingIsCareful(v, h.end, h.start, gs);
    FreeAll(v, h.end, h.start, gs);
    var calls := seq(|ps|, i requires 0 <= i < |ps| => Dispose(ps[i]));
    assert calls == Releases(gs);
    AlwaysTiled(v, h.end, h.start, calls);
    Execute(h, calls);
  }

  /** The program as written loses its list on the simplest of runs: two blocks, freed oldest first. */
  method OldestFirstBreaks(start: nat, end: nat) returns (h: Allocator)
    requires 0 < end && end + 2 * (8 + H) <= start < WORD / 2
    ensures !h.Valid()
  {
    h := new Allocator(false);
    var _ := h.Init(start, end);
    ghost var h0 := h.View();
    var a := h.Kmalloc(8);
    assert h.View() == HeapSegments.Heap(start - 8 - H, [Seg(start - 8 - H, 8, false)]);
    var b := h.Kmalloc(8);
    ghost var g, f := Seg(start - 8 - H, 8, false), Seg(start - 16 - 2 * H, 8, false);
    assert h.View() == HeapSegments.Heap(start - 16 - 2 * H, [f, g]);
    assert Find([f, g], a) == 1;
    h.Kfree(a);
    assert h.segs == [f, g.(free := true)];
    assert Find(h.segs, b) == 0;
    h.Kfree(b);
  }

  method FourBlocks(start: nat, end: nat) returns (h: Allocator, a: nat, c: nat)
    requires 0 < end && end + 40 + 4 * H <= start < WORD / 2
    ensures fresh(h) && h.Valid() && !h.corrected && h.start == start && h.end == end
    ensures a == start - 16 && c == start - 32 - 2 * H && h.brk == start - 40 - 4 * H
    ensures h.segs == [Seg(start - 40 - 4 * H, 8, false), Seg(start - 32 - 3 * H, 8, false),
                       Seg(start - 24 - 2 * H, 8, false), Seg(start - 16 - H, 16, false)]
  {
    h := new Allocator(false);
    var _ := h.Init(start, end);
    a := GrowBy(h, 16);
    var b := GrowBy(h, 8);
    c := GrowBy(h, 8);
    var d := GrowBy(h, 8);
  }

  method GrowBy(h: Allocator, len: nat) returns (p: nat)
    requires h.Valid() && (forall i :: 0 <= i < |h.segs| ==> !h.segs[i].free)
    requires h.end + len + H <= h.brk && len + H + h.start < WORD
    modifies h
    ensures h.Valid() && h.start == old(h.start) && h.end == old(h.end)
    ensures h.brk == old(h.brk) - len - H && h.segs == [Seg(h.brk, len, false)] + old(h.segs) && p == h.brk + H
  {
    hide Threaded, SameBut;
    ExactMeaning(h.segs, len);
    BestMeaning(h.segs, len);
    p := h.Kmalloc(len);
  }

  lemma LiveBetween(h: HeapSegments.Heap, a: seq<Seg>, x: Seg, b: seq<Seg>)
    requires h.segs == a + [x] + b && Laid(h.segs, h.brk) && !x.free && a != []
    requires !MergesDown(a) && !MergesUp(b)
    ensures Free(h, x.addr + H) == HeapSegments.Heap(h.brk, a + [x.(free := true)] + b)
    ensures PredecessorUnused(h.segs, x.addr + H) && Find(h.segs, x.addr + H) < |h.segs|
  {
    FindIs(a, x, b, h.brk);
    assert h.segs[..|a|] == a && h.segs[|a| + 1..] == b;
  }

  /** So it does when a block of the right size is free but is not the highest free one: the block is
      handed out and stays on the list. */
  method SecondExactPieceBreaks(start: nat, end: nat) returns (h: Allocator)
    requires 0 < end && end + 40 + 4 * H <= start < WORD / 2
    ensures !h.Valid()
  {
    hide Threaded, SameBut, SparesLive, Mangled, Free, PredecessorUnused, NoTouch;
    var a, c;
    h, a, c := FourBlocks(start, end);
    ghost var sd, sc, sb, sa := h.segs[0], h.segs[1], h.segs[2], h.segs[3];
    assert h.segs == [sd, sc, sb] + [sa] + [];
    LiveBetween(h.View(), [sd, sc, sb], sa, []);
    h.Kfree(a);
    ghost var rest := [sb, sa.(free := true)];
    assert h.segs == [sd] + [sc] + rest;
    LiveBetween(h.View(), [sd], sc, rest);
    h.Kfree(c);
    ghost var s := [sd] + [sc.(free := true)] + rest;
    assert h.segs == s;
    SecondExact(s, sa.addr);
    var e := h.Kmalloc(8);
  }

  lemma SecondExact(s: seq<Seg>, top: nat)
    requires |s| == 4 && s[1].free && s[1].size == 8 && !s[2].free && s[3] == Seg(top, 16, true) && top > 0
    ensures !ExactIsFirst(s, 8)
  {
    ExactMeaning(s, 8);
    assert ExactAt(s, 8) >= 1;
    assert ExactAt(s, 8) == 1;
    var two, one := [s[2], s[3]], [s[3]];
    assert s[ExactAt(s, 8) + 1..] == two && two[1..] == one;
    assert Low(one) == top;
  }
}
