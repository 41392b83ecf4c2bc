/** kmalloc.c as a partition of the heap into segments: what allocation and release do to it. */
module HeapSegments {
  /** sizeof(Heap_Seg): a 16-bit size and a 16-bit pointer. */
  const H: nat := 4

  /** A header at `addr` followed by `size` payload bytes. */
  datatype Seg = Seg(addr: nat, size: nat, free: bool)

  function End(g: Seg): nat { g.addr + H + g.size }

  function Span(s: seq<Seg>): nat {
    if s == [] then 0 else H + s[0].size + Span(s[1..])
  }

  /** The segments follow one another without a gap, upwards from `lo`. */
  ghost predicate Laid(s: seq<Seg>, lo: nat) {
    s != [] ==> s[0].addr == lo && Laid(s[1..], End(s[0]))
  }

  ghost predicate NoTouch(s: seq<Seg>) {
    forall i :: 0 <= i < |s| - 1 ==> !(s[i].free && s[i + 1].free)
  }

  /** The heap between its break and its start, lowest segment first. */
  datatype Heap = Heap(brk: nat, segs: seq<Seg>)

  /** [brk, start) is tiled, free segments do not touch, and the lowest segment is live. */
  ghost predicate WellFormed(h: Heap, end: nat, start: nat) {
    && 0 < end <= h.brk && Laid(h.segs, h.brk) && h.brk + Span(h.segs) == start
    && NoTouch(h.segs) && (h.segs != [] ==> !h.segs[0].free)
  }

  // ----- tilings

  lemma {:induction false} SpanJoin(a: seq<Seg>, b: seq<Seg>)
    ensures Span(a + b) == Span(a) + Span(b)
  {
    if a == [] {
      assert a + b == b;
    } else {
      assert (a + b)[1..] == a[1..] + b;
      SpanJoin(a[1..], b);
    }
  }

  lemma {:induction false} LaidJoin(a: seq<Seg>, b: seq<Seg>, lo: nat)
    ensures Laid(a + b, lo) <==> Laid(a, lo) && Laid(b, lo + Span(a))
  {
    if a == [] {
      assert a + b == b;
    } else {
      assert (a + b)[1..] == a[1..] + b;
      LaidJoin(a[1..], b, End(a[0]));
      assert a[0].addr == lo ==> End(a[0]) + Span(a[1..]) == lo + Span(a);
    }
  }

  /** A tiling that is cut in three, and what its parts say about the addresses in them. */
  lemma Cut(a: seq<Seg>, x: seq<Seg>, b: seq<Seg>, lo: nat)
    ensures Laid(a + x + b, lo) <==> Laid(a, lo) && Laid(x, lo + Span(a)) && Laid(b, lo + Span(a) + Span(x))
    ensures Span(a + x + b) == Span(a) + Span(x) + Span(b)
  {
    LaidJoin(a + x, b, lo);
    LaidJoin(a, x, lo);
    SpanJoin(a + x, b);
    SpanJoin(a, x);
  }

  lemma {:induction false} Within(s: seq<Seg>, lo: nat, i: nat)
    requires Laid(s, lo) && i < |s|
    ensures lo <= s[i].addr && End(s[i]) <= lo + Span(s)
    ensures i == 0 <==> s[i].addr == lo
  {
    if i > 0 { Within(s[1..], End(s[0]), i - 1); }
  }

  lemma {:induction false} Ordered(s: seq<Seg>, lo: nat, i: nat, j: nat)
    requires Laid(s, lo) && i < j < |s|
    ensures End(s[i]) <= s[j].addr
  {
    if i == 0 {
      Within(s[1..], End(s[0]), j - 1);
    } else {
      Ordered(s[1..], End(s[0]), i - 1, j - 1);
    }
  }

  // ----- allocation

  /** The highest free segment of exactly `len` bytes, or -1. */
  function ExactAt(s: seq<Seg>, len: nat): (i: int)
    ensures -1 <= i < |s|
  {
    if s == [] then -1
    else
      var e := ExactAt(s[1..], len);
      if e >= 0 then e + 1 else if s[0].free && s[0].size == len then 0 else -1
  }

  predicate Splittable(g: Seg, len: nat) { g.free && g.size > len + H }

  /** The smallest splittable segment, the highest one among equals, or -1. */
  function BestAt(s: seq<Seg>, len: nat): (i: int)
    ensures -1 <= i < |s|
  {
    if s == [] then -1
    else
      var b := BestAt(s[1..], len);
      if Splittable(s[0], len) && (b < 0 || s[0].size < s[1 + b].size) then 0 else if b < 0 then -1 else b + 1
  }

  lemma {:induction false} ExactMeaning(s: seq<Seg>, len: nat)
    ensures var i := ExactAt(s, len);
      && (i >= 0 ==> s[i].free && s[i].size == len)
      && (forall j :: i < j < |s| ==> !(s[j].free && s[j].size == len))
  {
    if s != [] {
      ExactMeaning(s[1..], len);
      forall j | ExactAt(s, len) < j < |s| ensures !(s[j].free && s[j].size == len) {
        assert j > 0 ==> s[j] == s[1..][j - 1];
      }
    }
  }

  lemma {:induction false} BestMeaning(s: seq<Seg>, len: nat)
    ensures var i := BestAt(s, len);
      && (i >= 0 ==> Splittable(s[i], len))
      && (forall j :: 0 <= j < |s| && Splittable(s[j], len) ==> i >= 0 && s[i].size <= s[j].size)
      && (forall j :: i < j < |s| && Splittable(s[j], len) ==> i >= 0 && s[i].size < s[j].size)
  {
    if s != [] {
      var t := s[1..];
      BestMeaning(t, len);
      forall j | 0 < j < |s| ensures s[j] == t[j - 1] {}
      forall j | 0 <= j < |s| && Splittable(s[j], len)
        ensures BestAt(s, len) >= 0 && s[BestAt(s, len)].size <= s[j].size
        ensures BestAt(s, len) < j ==> s[BestAt(s, len)].size < s[j].size
      {
        if j > 0 { assert Splittable(t[j - 1], len); }
      }
    }
  }

  /** The pieces found do fit. */
  lemma Fits(s: seq<Seg>, len: nat)
    ensures ExactAt(s, len) >= 0 ==> s[ExactAt(s, len)].free && s[ExactAt(s, len)].size == len
    ensures BestAt(s, len) >= 0 ==> Splittable(s[BestAt(s, len)], len)
  {
    ExactMeaning(s, len);
    BestMeaning(s, len);
  }

  /** What is left of a free segment that gives up its upper end. */
  function Rest(g: Seg, len: nat): (r: Seg)
    requires Splittable(g, len)
    ensures r.addr == g.addr && r.size + len + H == g.size && r.free
  {
    g.(size := g.size - (len + H))
  }

  /** The heap after kmalloc(len), and the address that it returns; 0 is NULL. */
  function Malloc(h: Heap, end: nat, len: nat): (Heap, nat) {
    Fits(h.segs, len);
    Taken(h, end, len, ExactAt(h.segs, len), BestAt(h.segs, len))
  }

  /** Segment `i` gives way to those of `xs`. */
  function Replaced(s: seq<Seg>, i: nat, xs: seq<Seg>): seq<Seg>
    requires i < |s|
  {
    s[..i] + xs + s[i + 1..]
  }

  /** The same, once the search has found its pieces `e` and `b`. */
  function Taken(h: Heap, end: nat, len: nat, e: int, b: int): (Heap, nat)
    requires -1 <= e < |h.segs| && -1 <= b < |h.segs| && (b >= 0 ==> Splittable(h.segs[b], len))
  {
    if e >= 0 then
      (Heap(h.brk, Replaced(h.segs, e, [h.segs[e].(free := false)])), h.segs[e].addr + H)
    else if b >= 0 then
      var rest := Rest(h.segs[b], len);
      (Heap(h.brk, Replaced(h.segs, b, [rest, Seg(End(rest), len, false)])), End(rest) + H)
    else if h.brk < end + len + H then (h, 0)
    else (Heap(h.brk - len - H, [Seg(h.brk - len - H, len, false)] + h.segs), h.brk - len)
  }

  // ----- release

  /** The segment whose payload starts at `p`, or |s|. */
  function Find(s: seq<Seg>, p: nat): (i: nat)
    ensures i <= |s| && (i < |s| ==> s[i].addr + H == p)
    ensures forall j :: 0 <= j < i ==> s[j].addr + H != p
  {
    if s == [] || s[0].addr + H == p then 0
    else
      var i := Find(s[1..], p);
      assert forall j :: 0 < j < 1 + i ==> s[j] == s[1..][j - 1];
      1 + i
  }

  predicate MergesUp(b: seq<Seg>) { b != [] && b[0].free }

  predicate MergesDown(a: seq<Seg>) { a != [] && a[|a| - 1].free }

  /** `x` together with the free neighbours on either side of it. */
  function Merged(a: seq<Seg>, x: Seg, b: seq<Seg>): Seg {
    var up := x.size + if MergesUp(b) then H + b[0].size else 0;
    if MergesDown(a) then Seg(a[|a| - 1].addr, a[|a| - 1].size + H + up, true) else Seg(x.addr, up, true)
  }

  function Below(a: seq<Seg>): seq<Seg> { if MergesDown(a) then a[..|a| - 1] else a }

  function Above(b: seq<Seg>): seq<Seg> { if MergesUp(b) then b[1..] else b }

  /** The heap after the live segment `x` between `a` and `b` is released. */
  function Release(brk: nat, a: seq<Seg>, x: Seg, b: seq<Seg>): Heap {
    if a == [] then Heap(End(Merged(a, x, b)), Above(b)) else Heap(brk, Below(a) + [Merged(a, x, b)] + Above(b))
  }

  /** The heap after kfree(p); anything but a live block is ignored. */
  function Free(h: Heap, p: nat): Heap {
    var i := Find(h.segs, p);
    if i == |h.segs| || h.segs[i].free then h else Release(h.brk, h.segs[..i], h.segs[i], h.segs[i + 1..])
  }

  // ----- both keep the heap well formed

  lemma Whole(s: seq<Seg>, i: nat)
    requires i < |s|
    ensures s == s[..i] + [s[i]] + s[i + 1..]
  {
  }

  /** One segment gives way to others that cover the same bytes. */
  lemma Exchange(a: seq<Seg>, x: Seg, y: seq<Seg>, b: seq<Seg>, lo: nat)
    requires Laid(a + [x] + b, lo) && Laid(y, x.addr) && Span(y) == H + x.size
    ensures Laid(a + y + b, lo) && Span(a + y + b) == Span(a + [x] + b)
  {
    Cut(a, [x], b, lo);
    Cut(a, y, b, lo);
  }

  /** ... and whose ends are free only where the segment was. */
  lemma ExchangeApart(a: seq<Seg>, x: Seg, y: seq<Seg>, b: seq<Seg>)
    requires NoTouch(a + [x] + b) && NoTouch(y) && y != []
    requires (y[0].free ==> x.free) && (y[|y| - 1].free ==> x.free)
    ensures NoTouch(a + y + b)
  {
    var s, t, d := a + [x] + b, a + y + b, |y| - 1;
    forall i | 0 <= i < |t| - 1 ensures !(t[i].free && t[i + 1].free) {
      if i < |a| {
        assert t[i] == s[i] && (if i + 1 < |a| then t[i + 1] == s[i + 1] else t[i + 1] == y[0] && s[i + 1] == x);
        assert !(s[i].free && s[i + 1].free);
      } else if i < |a| + d {
        assert t[i] == y[i - |a|] && t[i + 1] == y[i + 1 - |a|];
      } else {
        assert (if i == |a| + d then t[i] == y[d] && s[i - d] == x else t[i] == s[i - d]) && t[i + 1] == s[i + 1 - d];
        assert !(s[i - d].free && s[i + 1 - d].free);
      }
    }
  }

  lemma ExactWellFormed(h: Heap, end: nat, start: nat, e: nat)
    requires WellFormed(h, end, start) && e < |h.segs| && h.segs[e].free
    ensures WellFormed(Heap(h.brk, h.segs[..e] + [h.segs[e].(free := false)] + h.segs[e + 1..]), end, start)
  {
    hide NoTouch, Laid, Span;
    Whole(h.segs, e);
    TakeWhole(h.segs[..e], h.segs[e], h.segs[e + 1..], h.brk);
  }

  lemma SplitWellFormed(h: Heap, end: nat, start: nat, b: nat, len: nat)
    requires WellFormed(h, end, start) && b < |h.segs| && Splittable(h.segs[b], len)
    ensures var rest := Rest(h.segs[b], len);
      WellFormed(Heap(h.brk, h.segs[..b] + [rest, Seg(End(rest), len, false)] + h.segs[b + 1..]), end, start)
  {
    hide NoTouch, Laid, Span;
    Whole(h.segs, b);
    TakeTop(h.segs[..b], h.segs[b], h.segs[b + 1..], h.brk, len);
  }

  lemma GrownWellFormed(h: Heap, end: nat, start: nat, len: nat)
    requires WellFormed(h, end, start) && h.brk >= end + len + H
    ensures WellFormed(Heap(h.brk - len - H, [Seg(h.brk - len - H, len, false)] + h.segs), end, start)
  {
    hide NoTouch;
    GrowApart(Seg(h.brk - len - H, len, false), h.segs);
  }

  lemma MallocWellFormed(h: Heap, end: nat, start: nat, len: nat)
    requires WellFormed(h, end, start)
    ensures WellFormed(Malloc(h, end, len).0, end, start)
  {
    hide WellFormed, ExactAt, BestAt;
    var e, b := ExactAt(h.segs, len), BestAt(h.segs, len);
    Fits(h.segs, len);
    if e >= 0 {
      ExactWellFormed(h, end, start, e);
    } else if b >= 0 {
      SplitWellFormed(h, end, start, b, len);
    } else if h.brk >= end + len + H {
      GrownWellFormed(h, end, start, len);
    }
  }

  lemma TakeWhole(a: seq<Seg>, x: Seg, b: seq<Seg>, lo: nat)
    requires Laid(a + [x] + b, lo) && NoTouch(a + [x] + b) && x.free && !(a + [x] + b)[0].free
    ensures var t := a + [x.(free := false)] + b;
      Laid(t, lo) && NoTouch(t) && Span(t) == Span(a + [x] + b) && !t[0].free
  {
    var y := [x.(free := false)];
    LaidAt(a, x, b, lo);
    Exchange(a, x, y, b, lo);
    ExchangeApart(a, x, y, b);
  }

  lemma TakeTop(a: seq<Seg>, x: Seg, b: seq<Seg>, lo: nat, len: nat)
    requires Laid(a + [x] + b, lo) && NoTouch(a + [x] + b) && Splittable(x, len) && !(a + [x] + b)[0].free
    ensures var rest := Rest(x, len);
      var t := a + [rest, Seg(End(rest), len, false)] + b;
      Laid(t, lo) && NoTouch(t) && Span(t) == Span(a + [x] + b) && !t[0].free
  {
    var rest := Rest(x, len);
    var y := [rest, Seg(End(rest), len, false)];
    assert y[1..] == [y[1]] && Span(y[1..]) == H + len;
    LaidAt(a, x, b, lo);
    Exchange(a, x, y, b, lo);
    ExchangeApart(a, x, y, b);
  }

  lemma LaidAt(a: seq<Seg>, x: Seg, b: seq<Seg>, lo: nat)
    requires Laid(a + [x] + b, lo)
    ensures x.addr == lo + Span(a) && Laid([x], x.addr)
  {
    Cut(a, [x], b, lo);
  }

  lemma GrowApart(x: Seg, s: seq<Seg>)
    requires NoTouch(s) && !x.free
    ensures NoTouch([x] + s) && ([x] + s)[1..] == s
  {
    var t := [x] + s;
    forall i | 0 <= i < |t| - 1 ensures !(t[i].free && t[i + 1].free) {
      if i > 0 { assert t[i] == s[i - 1] && t[i + 1] == s[i]; }
    }
  }

  lemma BelowLaid(a: seq<Seg>, lo: nat)
    requires Laid(a, lo) && MergesDown(a)
    ensures var g := a[|a| - 1];
      Laid(Below(a), lo) && g.addr == lo + Span(Below(a)) && Span(a) == Span(Below(a)) + H + g.size
  {
    var g := a[|a| - 1];
    assert a == Below(a) + [g] && [g][1..] == [];
    LaidJoin(Below(a), [g], lo);
    SpanJoin(Below(a), [g]);
  }

  /** A release leaves a tiling of the same stretch. */
  lemma ReleaseLaid(brk: nat, a: seq<Seg>, x: Seg, b: seq<Seg>)
    requires Laid(a + [x] + b, brk)
    ensures var m := Merged(a, x, b);
      && Laid(Below(a) + [m] + Above(b), brk) && Span(Below(a) + [m] + Above(b)) == Span(a + [x] + b)
      && (a == [] ==> Laid(Above(b), End(m)) && End(m) + Span(Above(b)) == brk + Span(a + [x] + b))
  {
    var m := Merged(a, x, b);
    Cut(a, [x], b, brk);
    Cut(Below(a), [m], Above(b), brk);
    assert [x][1..] == [] && [m][1..] == [];
    if MergesDown(a) { BelowLaid(a, brk); }
  }

  lemma ReleaseWellFormed(brk: nat, a: seq<Seg>, x: Seg, b: seq<Seg>, end: nat, start: nat)
    requires WellFormed(Heap(brk, a + [x] + b), end, start) && !x.free
    ensures WellFormed(Release(brk, a, x, b), end, start)
  {
    assert a != [] ==> (a + [x] + b)[0] == a[0];
    hide NoTouch, Laid, Span, Merged;
    ReleaseLaid(brk, a, x, b);
    ReleaseApart(a, x, b);
    assert Below(a) != [] ==> (Below(a) + [Merged(a, x, b)] + Above(b))[0] == Below(a)[0];
    assert End(Merged(a, x, b)) >= brk by { MergedAbove(brk, a, x, b); }
  }

  lemma MergedAbove(brk: nat, a: seq<Seg>, x: Seg, b: seq<Seg>)
    requires Laid(a + [x] + b, brk)
    ensures End(Merged(a, x, b)) >= brk
  {
    ReleaseLaid(brk, a, x, b);
    Within(Below(a) + [Merged(a, x, b)] + Above(b), brk, |Below(a)|);
  }

  /** Segment i of the partition after a release, away from the merged one, is an old segment. */
  lemma ReleaseAt(a: seq<Seg>, x: Seg, b: seq<Seg>, i: nat) returns (j: nat)
    requires var t := Below(a) + [Merged(a, x, b)] + Above(b); i < |t| && i != |Below(a)|
    ensures var s, t := a + [x] + b, Below(a) + [Merged(a, x, b)] + Above(b);
      && j < |s| && t[i] == s[j] && j != |a|
      && (i < |Below(a)| ==> j == i) && (i > |Below(a)| ==> j == i + |s| - |t|)
  {
    var s, t := a + [x] + b, Below(a) + [Merged(a, x, b)] + Above(b);
    j := if i < |Below(a)| then i else i + |s| - |t|;
  }

  lemma ReleaseApart(a: seq<Seg>, x: Seg, b: seq<Seg>)
    requires NoTouch(a + [x] + b) && !x.free && (a != [] ==> !a[0].free)
    ensures NoTouch(Below(a) + [Merged(a, x, b)] + Above(b))
    ensures a == [] ==> NoTouch(Above(b)) && (Above(b) != [] ==> !Above(b)[0].free)
    ensures a != [] ==> Below(a) != [] && Below(a)[0] == a[0]
  {
    var s, t := a + [x] + b, Below(a) + [Merged(a, x, b)] + Above(b);
    var k := |Below(a)|;
    forall i | 0 <= i < |t| - 1 ensures !(t[i].free && t[i + 1].free) {
      if i == k {
        var j := ReleaseAt(a, x, b, i + 1);
        var before := s[j - 1];
        assert MergesUp(b) ==> before == b[0] && !(before.free && s[j].free);
        assert !MergesUp(b) ==> s[j] == b[0];
      } else if i + 1 == k {
        var j := ReleaseAt(a, x, b, i);
        var after := s[j + 1];
        assert MergesDown(a) ==> after == a[|a| - 1] && !(s[j].free && after.free);
        assert !MergesDown(a) ==> s[j] == a[|a| - 1];
      } else {
        var j := ReleaseAt(a, x, b, i);
        var j' := ReleaseAt(a, x, b, i + 1);
        assert j' == j + 1 && !(s[j].free && s[j'].free);
      }
    }
    if a == [] {
      var u := Above(b);
      forall i | 0 <= i < |u| - 1 ensures !(u[i].free && u[i + 1].free) {
        assert u[i] == t[i + 1] && u[i + 1] == t[i + 2];
      }
      assert u != [] ==> u[0] == t[1] && !(t[0].free && t[1].free);
    }
  }

  lemma FreeWellFormed(h: Heap, end: nat, start: nat, p: nat)
    requires WellFormed(h, end, start)
    ensures WellFormed(Free(h, p), end, start)
  {
    var i := Find(h.segs, p);
    if i < |h.segs| && !h.segs[i].free {
      Whole(h.segs, i);
      ReleaseWellFormed(h.brk, h.segs[..i], h.segs[i], h.segs[i + 1..], end, start);
    }
  }
}
