/** What the allocator promises over calls and over whole runs. */
module HeapLaws {
  import opened HeapSegments

  /** The blocks that callers own. */
  ghost function Live(s: seq<Seg>): set<Seg> {
    set i | 0 <= i < |s| && !s[i].free :: s[i]
  }

  lemma LiveHas(s: seq<Seg>, i: nat)
    requires i < |s| && !s[i].free
    ensures s[i] in Live(s)
  {
  }

  lemma LiveJoin(a: seq<Seg>, b: seq<Seg>)
    ensures Live(a + b) == Live(a) + Live(b)
  {
    forall g | g in Live(a) + Live(b) ensures g in Live(a + b) {
      if g in Live(a) {
        var i :| 0 <= i < |a| && !a[i].free && a[i] == g;
        assert (a + b)[i] == g;
      } else {
        var i :| 0 <= i < |b| && !b[i].free && b[i] == g;
        assert (a + b)[|a| + i] == g;
      }
    }
  }

  lemma LiveCut(a: seq<Seg>, x: seq<Seg>, b: seq<Seg>)
    ensures Live(a + x + b) == Live(a) + Live(x) + Live(b)
  {
    LiveJoin(a + x, b);
    LiveJoin(a, x);
  }

  lemma NotBeside(a: seq<Seg>, x: Seg, b: seq<Seg>, lo: nat)
    requires Laid(a + [x] + b, lo)
    ensures forall g :: g in a || g in b ==> g.addr != x.addr
  {
    var s := a + [x] + b;
    forall g | g in a || g in b ensures g.addr != x.addr {
      if g in a {
        var i :| 0 <= i < |a| && a[i] == g;
        assert s[i] == g && s[|a|] == x;
        Ordered(s, lo, i, |a|);
      } else {
        var i :| 0 <= i < |b| && b[i] == g;
        assert s[|a| + 1 + i] == g && s[|a|] == x;
        Ordered(s, lo, |a|, |a| + 1 + i);
      }
    }
  }

  // ----- one allocation

  /** kmalloc fails exactly when no free segment fits exactly or can be split, and the heap cannot grow. */
  lemma MallocFails(h: Heap, end: nat, start: nat, len: nat)
    requires WellFormed(h, end, start)
    ensures Malloc(h, end, len).1 == 0 <==>
      && (forall i :: 0 <= i < |h.segs| && h.segs[i].free ==> h.segs[i].size != len && h.segs[i].size <= len + H)
      && h.brk < end + len + H
    ensures Malloc(h, end, len).1 == 0 ==> Malloc(h, end, len).0 == h
  {
    hide WellFormed, ExactAt, BestAt;
    ExactMeaning(h.segs, len);
    BestMeaning(h.segs, len);
    var e, b := ExactAt(h.segs, len), BestAt(h.segs, len);
    if e < 0 && b < 0 {
      forall i | 0 <= i < |h.segs| && h.segs[i].free ensures h.segs[i].size != len && h.segs[i].size <= len + H {
        assert !Splittable(h.segs[i], len);
      }
    } else {
      var i := if e >= 0 then e else b;
      assert h.segs[i].free && (h.segs[i].size == len || h.segs[i].size > len + H);
    }
  }

  /** A successful kmalloc adds one block of `len` bytes and keeps every other block where it was. */
  lemma MallocLive(h: Heap, end: nat, start: nat, len: nat)
    requires WellFormed(h, end, start) && Malloc(h, end, len).1 != 0
    ensures var (h', p) := Malloc(h, end, len);
      && p > H && Live(h'.segs) == Live(h.segs) + {Seg(p - H, len, false)}
      && Seg(p - H, len, false) !in Live(h.segs)
  {
    hide NoTouch, Live, ExactAt, BestAt;
    var s, e, b := h.segs, ExactAt(h.segs, len), BestAt(h.segs, len);
    MallocWellFormed(h, end, start, len);
    Fits(s, len);
    if e >= 0 {
      Within(s, h.brk, e);
      Whole(s, e);
      LiveOne(s[e].(free := false));
      LiveTaken(s[..e], s[e], [s[e].(free := false)], s[e + 1..], h.brk);
    } else if b >= 0 {
      Within(s, h.brk, b);
      Whole(s, b);
      var rest := Rest(s[b], len);
      LiveTwo(rest, Seg(End(rest), len, false));
      LiveTaken(s[..b], s[b], [rest, Seg(End(rest), len, false)], s[b + 1..], h.brk);
    } else {
      LiveGrown(h, end, len);
    }
  }

  lemma LiveOne(g: Seg)
    requires !g.free
    ensures Live([g]) == {g}
  {
    LiveHas([g], 0);
  }

  lemma LiveTwo(f: Seg, g: Seg)
    requires f.free && !g.free
    ensures Live([f, g]) == {g}
  {
    LiveHas([f, g], 1);
  }

  lemma LiveGrown(h: Heap, end: nat, len: nat)
    requires Laid(h.segs, h.brk) && h.brk >= end + len + H
    ensures var g := Seg(h.brk - len - H, len, false); Live([g] + h.segs) == Live(h.segs) + {g} && g !in Live(h.segs)
  {
    var g := Seg(h.brk - len - H, len, false);
    LiveOne(g);
    LiveJoin([g], h.segs);
    forall i | 0 <= i < |h.segs| ensures h.segs[i] != g { Within(h.segs, h.brk, i); }
  }

  lemma LiveTaken(a: seq<Seg>, x: Seg, y: seq<Seg>, b: seq<Seg>, lo: nat)
    requires Laid(a + [x] + b, lo) && Laid(a + y + b, lo) && x.free && y != [] && !y[|y| - 1].free
    requires Live(y) == {y[|y| - 1]}
    ensures Live(a + y + b) == Live(a + [x] + b) + {y[|y| - 1]} && y[|y| - 1] !in Live(a + [x] + b)
  {
    var g, n := y[|y| - 1], |y| - 1;
    LiveCut(a, [x], b);
    LiveCut(a, y, b);
    assert a + y + b == (a + y[..n]) + [g] + b;
    NotBeside(a + y[..n], g, b, lo);
    assert forall i :: 0 <= i < |a| ==> (a + y[..n])[i] == a[i];
  }

  // ----- one release

  lemma ReleaseLive(brk: nat, a: seq<Seg>, x: Seg, b: seq<Seg>)
    requires Laid(a + [x] + b, brk) && !x.free
    ensures Live(Release(brk, a, x, b).segs) == Live(a + [x] + b) - {x}
  {
    var m := Merged(a, x, b);
    NotBeside(a, x, b, brk);
    assert [x][0] == x;
    LiveCut(a, [x], b);
    LiveCut(Below(a), [m], Above(b));
    if MergesDown(a) {
      assert a == Below(a) + [a[|a| - 1]];
      LiveJoin(Below(a), [a[|a| - 1]]);
    }
    if MergesUp(b) {
      assert b == [b[0]] + b[1..];
      LiveJoin([b[0]], b[1..]);
    }
  }

  lemma {:induction false} FindIs(a: seq<Seg>, x: Seg, b: seq<Seg>, lo: nat)
    requires Laid(a + [x] + b, lo)
    ensures Find(a + [x] + b, x.addr + H) == |a|
  {
    var s := a + [x] + b;
    assert s[|a|] == x;
    var i := Find(s, x.addr + H);
    if i < |a| { Ordered(s, lo, i, |a|); }
  }

  /** kfree removes exactly the block that it is given. */
  lemma FreeLive(h: Heap, end: nat, start: nat, g: Seg)
    requires WellFormed(h, end, start) && g in Live(h.segs)
    ensures Live(Free(h, g.addr + H).segs) == Live(h.segs) - {g}
  {
    var i :| 0 <= i < |h.segs| && !h.segs[i].free && h.segs[i] == g;
    Whole(h.segs, i);
    FindIs(h.segs[..i], g, h.segs[i + 1..], h.brk);
    ReleaseLive(h.brk, h.segs[..i], g, h.segs[i + 1..]);
  }

  /** Freeing a block twice in a row, or a block that is free, changes nothing. */
  lemma FreeAgain(h: Heap, p: nat)
    requires forall g :: g in Live(h.segs) ==> g.addr + H != p
    ensures Free(h, p) == h
  {
    var i := Find(h.segs, p);
    assert forall j :: 0 <= j < |h.segs| && !h.segs[j].free ==> h.segs[j] in Live(h.segs);
  }

  // ----- the round trip

  /** kfree of a live block in the middle of a partition. */
  lemma FreeIsRelease(brk: nat, a: seq<Seg>, x: Seg, b: seq<Seg>)
    requires Laid(a + [x] + b, brk) && !x.free
    ensures Free(Heap(brk, a + [x] + b), x.addr + H) == Release(brk, a, x, b)
  {
    FindIs(a, x, b, brk);
    var t := a + [x] + b;
    assert t[|a|] == x && t[..|a|] == a && t[|a| + 1..] == b;
  }

  /** Beside a free segment there is no free one. */
  lemma LonelyFree(a: seq<Seg>, x: Seg, b: seq<Seg>)
    requires NoTouch(a + [x] + b) && x.free
    ensures !MergesDown(a) && !MergesUp(b)
  {
    var s := a + [x] + b;
    assert s[|a|] == x;
    assert a != [] ==> s[|a| - 1] == a[|a| - 1];
    assert b != [] ==> s[|a| + 1] == b[0];
  }

  lemma UndoWhole(h: Heap, end: nat, start: nat, a: seq<Seg>, x: Seg, b: seq<Seg>)
    requires WellFormed(h, end, start) && h.segs == a + [x] + b && x.free
    ensures Free(Heap(h.brk, a + [x.(free := false)] + b), x.addr + H) == h
  {
    TakeWhole(a, x, b, h.brk);
    LonelyFree(a, x, b);
    assert h.segs[0] == (a + [x])[0];
    hide NoTouch, Laid, Free;
    FreeIsRelease(h.brk, a, x.(free := false), b);
  }

  /** A live segment merges back into the free one below it, of which it was the upper end. */
  lemma MergesBack(brk: nat, a: seq<Seg>, x: Seg, b: seq<Seg>, len: nat)
    requires Splittable(x, len) && !MergesUp(b)
    ensures var rest := Rest(x, len);
      Release(brk, a + [rest], Seg(End(rest), len, false), b) == Heap(brk, a + [x] + b)
  {
    var rest := Rest(x, len);
    assert Below(a + [rest]) == a;
    assert Merged(a + [rest], Seg(End(rest), len, false), b) == x;
  }

  lemma FreesUpperEnd(brk: nat, a: seq<Seg>, x: Seg, b: seq<Seg>, len: nat)
    requires Splittable(x, len) && !MergesUp(b)
    requires var rest := Rest(x, len); Laid(a + [rest, Seg(End(rest), len, false)] + b, brk)
    ensures var rest := Rest(x, len);
      Free(Heap(brk, a + [rest, Seg(End(rest), len, false)] + b), End(rest) + H) == Heap(brk, a + [x] + b)
  {
    hide Laid, Free, Release, Rest, MergesUp;
    var rest := Rest(x, len);
    var y := Seg(End(rest), len, false);
    MergesBack(brk, a, x, b, len);
    assert a + [rest, y] + b == (a + [rest]) + [y] + b;
    FreeIsRelease(brk, a + [rest], y, b);
  }

  lemma UndoSplit(h: Heap, end: nat, start: nat, a: seq<Seg>, x: Seg, b: seq<Seg>, len: nat)
    requires WellFormed(h, end, start) && h.segs == a + [x] + b && Splittable(x, len)
    ensures var rest := Rest(x, len);
      Free(Heap(h.brk, a + [rest, Seg(End(rest), len, false)] + b), End(rest) + H) == h
  {
    hide NoTouch, Laid, Span, Free, Rest, MergesUp, MergesDown;
    TakeTop(a, x, b, h.brk, len);
    LonelyFree(a, x, b);
    FreesUpperEnd(h.brk, a, x, b, len);
  }

  lemma UndoGrow(h: Heap, end: nat, start: nat, len: nat)
    requires WellFormed(h, end, start) && h.brk >= end + len + H
    ensures Free(Heap(h.brk - len - H, [Seg(h.brk - len - H, len, false)] + h.segs), h.brk - len) == h
  {
    var g := Seg(h.brk - len - H, len, false);
    var t := [g] + h.segs;
    assert t[0] == g && t[..0] == [] && t[1..] == h.segs;
    assert Find(t, h.brk - len) == 0;
  }

  /** Freeing what was just allocated restores the break and every segment, free ones included,
      whichever way the block had been found. */
  lemma FreeUndoesMalloc(h: Heap, end: nat, start: nat, len: nat)
    requires WellFormed(h, end, start) && Malloc(h, end, len).1 != 0
    ensures var (h', p) := Malloc(h, end, len); Free(h', p) == h
  {
    hide WellFormed, Free, ExactAt, BestAt, Rest;
    var s, e, b := h.segs, ExactAt(h.segs, len), BestAt(h.segs, len);
    Fits(s, len);
    if e >= 0 {
      Whole(s, e);
      UndoWhole(h, end, start, s[..e], s[e], s[e + 1..]);
    } else if b >= 0 {
      Whole(s, b);
      UndoSplit(h, end, start, s[..b], s[b], s[b + 1..], len);
    } else {
      UndoGrow(h, end, start, len);
    }
  }

  // ----- whole runs

  datatype Call = Alloc(len: nat) | Dispose(p: nat)

  function After(h: Heap, end: nat, c: Call): Heap {
    match c
    case Alloc(len) => Malloc(h, end, len).0
    case Dispose(p) => Free(h, p)
  }

  function Run(h: Heap, end: nat, cs: seq<Call>): Heap
    decreases |cs|
  {
    if cs == [] then h
    else Run(After(h, end, cs[0]), end, cs[1..])
  }

  /** After any sequence of calls, sensible or not, [brk, start) is tiled, no two free segments touch,
      and the lowest segment is live. */
  lemma {:induction false} AlwaysTiled(h: Heap, end: nat, start: nat, cs: seq<Call>)
    requires WellFormed(h, end, start)
    ensures WellFormed(Run(h, end, cs), end, start)
    decreases |cs|
  {
    if cs != [] {
      match cs[0] {
        case Alloc(len) => MallocWellFormed(h, end, start, len);
        case Dispose(p) => FreeWellFormed(h, end, start, p);
      }
      AlwaysTiled(After(h, end, cs[0]), end, start, cs[1..]);
    }
  }

  /** The blocks that the callers of a run still own. */
  ghost function Owned(owned: set<Seg>, h: Heap, end: nat, cs: seq<Call>): set<Seg>
    decreases |cs|
  {
    if cs == [] then owned
    else
      var owned1 :=
        match cs[0]
        case Alloc(len) =>
          var p := Malloc(h, end, len).1;
          if p < H then owned else owned + {Seg(p - H, len, false)}
        case Dispose(p) => set g | g in owned && g.addr + H != p;
      Owned(owned1, After(h, end, cs[0]), end, cs[1..])
  }

  lemma OneLiveAt(h: Heap, end: nat, start: nat, p: nat)
    requires WellFormed(h, end, start)
    ensures Live(Free(h, p).segs) == set g | g in Live(h.segs) && g.addr + H != p
  {
    if g :| g in Live(h.segs) && g.addr + H == p {
      FreeLive(h, end, start, g);
      var i :| 0 <= i < |h.segs| && h.segs[i] == g;
      Whole(h.segs, i);
      NotBeside(h.segs[..i], g, h.segs[i + 1..], h.brk);
      forall f | f in Live(h.segs) && f != g ensures f.addr != g.addr {
        var j :| 0 <= j < |h.segs| && h.segs[j] == f;
        assert j < i ==> h.segs[..i][j] == f;
        assert j > i ==> h.segs[i + 1..][j - i - 1] == f;
      }
    } else {
      FreeAgain(h, p);
    }
  }

  /** The live segments are exactly the blocks handed out and not yet freed: none is lost, moved,
      resized or handed out twice. */
  lemma {:induction false} LiveIsOwned(h: Heap, end: nat, start: nat, cs: seq<Call>)
    requires WellFormed(h, end, start)
    ensures Live(Run(h, end, cs).segs) == Owned(Live(h.segs), h, end, cs)
    decreases |cs|
  {
    hide Malloc, Free, WellFormed, Live;
    if cs != [] {
      var h' := After(h, end, cs[0]);
      match cs[0] {
        case Alloc(len) =>
          MallocWellFormed(h, end, start, len);
          MallocFails(h, end, start, len);
          if Malloc(h, end, len).1 != 0 { MallocLive(h, end, start, len); }
        case Dispose(p) =>
          FreeWellFormed(h, end, start, p);
          OneLiveAt(h, end, start, p);
      }
      LiveIsOwned(h', end, start, cs[1..]);
    }
  }

  /** Two blocks never share a byte, and all of them lie in [end, start). */
  lemma BlocksDisjoint(h: Heap, end: nat, start: nat, i: nat, j: nat)
    requires WellFormed(h, end, start) && i < |h.segs| && j < |h.segs|
    ensures end <= h.segs[i].addr && End(h.segs[i]) <= start
    ensures i != j ==> End(h.segs[i]) <= h.segs[j].addr || End(h.segs[j]) <= h.segs[i].addr
  {
    Within(h.segs, h.brk, i);
    if i < j { Ordered(h.segs, h.brk, i, j); }
    if j < i { Ordered(h.segs, h.brk, j, i); }
  }

  // ----- freeing everything

  lemma NothingLive(h: Heap, end: nat, start: nat)
    requires WellFormed(h, end, start) && Live(h.segs) == {}
    ensures h == Heap(start, [])
  {
    if h.segs != [] { LiveHas(h.segs, 0); }
  }

  ghost function Releases(gs: seq<Seg>): seq<Call> {
    seq(|gs|, i requires 0 <= i < |gs| => Dispose(gs[i].addr + H))
  }

  /** Freeing every block, in any order at all, gives back the whole heap. */
  lemma {:induction false} FreeAll(h: Heap, end: nat, start: nat, gs: seq<Seg>)
    requires WellFormed(h, end, start)
    requires forall g :: g in Live(h.segs) ==> g in gs
    ensures Run(h, end, Releases(gs)) == Heap(start, [])
    decreases |gs|
  {
    if gs == [] {
      NothingLive(h, end, start);
    } else {
      var p := gs[0].addr + H;
      assert Releases(gs)[1..] == Releases(gs[1..]);
      FreeWellFormed(h, end, start, p);
      OneLiveAt(h, end, start, p);
      FreeAll(Free(h, p), end, start, gs[1..]);
    }
  }
}
