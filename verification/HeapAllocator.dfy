/** kmalloc.c in place: headers in memory, the list head, and the break. */
module HeapAllocator {
  import opened KernelTypes
  import opened HeapSegments
  import opened HeapMemory
  import opened HeapPayloads

  /** What kmalloc compares with: the size of a block and its header, in 16 bits. */
  function Needed(len: nat): nat {
    (len + H) % WORD
  }

  predicate Larger(g: Seg, need: nat) { g.free && g.size > need }

  /** The best piece among the segments from `n` upwards, as the search of kmalloc keeps it. */
  ghost predicate BestSoFar(s: seq<Seg>, n: nat, b: int, need: nat)
    requires n <= |s|
  {
    && (b == -1 || (n <= b < |s| && Larger(s[b], need)))
    && (forall j :: n <= j < |s| && Larger(s[j], need) ==> b >= 0 && s[b].size <= s[j].size)
    && (forall j :: n <= j < |s| && b < j && Larger(s[j], need) ==> s[b].size < s[j].size)
  }

  ghost predicate NoExactFrom(s: seq<Seg>, n: nat, len: nat) {
    forall j :: n <= j < |s| ==> !(s[j].free && s[j].size == len)
  }

  /** Where the list goes on below position `n`. */
  ghost function TopBefore(s: seq<Seg>, n: nat): nat
    requires n <= |s|
  {
    Top(s[..n], 0)
  }

  ghost function LowAfter(s: seq<Seg>, n: nat): nat
    requires n < |s|
  {
    Low(s[n + 1..])
  }

  lemma WalkStarts(s: seq<Seg>, len: nat, need: nat)
    ensures TopBefore(s, |s|) == Top(s, 0) && NoExactFrom(s, |s|, len) && BestSoFar(s, |s|, -1, need)
  {
    assert s[..|s|] == s;
  }

  /** The search of kmalloc goes on from position `n`: it meets the next free segment, `m`, or ends. */
  lemma WalkStep(mem: Memory, s: seq<Seg>, n: nat, lo: nat, len: nat, b: int, need: nat) returns (m: int)
    requires Threaded(mem, s, 0) && Laid(s, lo) && lo > 0 && n <= |s| && (n < |s| ==> s[n].free)
    requires NoExactFrom(s, n, len) && BestSoFar(s, n, b, need)
    ensures -1 <= m < n && (m < 0 <==> TopBefore(s, n) == 0) && (n < |s| ==> s[n].addr > 0)
    ensures m < 0 ==> ExactAt(s, len) < 0 && BestSoFar(s, 0, b, need)
    ensures m >= 0 ==> s[m].free && TopBefore(s, n) == s[m].addr > 0
    ensures m >= 0 ==> s[m].addr in mem && mem[s[m].addr] == Header(s[m].size, TopBefore(s, m))
    ensures m >= 0 ==> BestSoFar(s, m, if s[m].size > need && (b < 0 || s[m].size < s[b].size) then m else b, need)
    ensures m >= 0 && s[m].size != len ==> NoExactFrom(s, m, len)
    ensures m >= 0 && s[m].size == len ==>
      ExactAt(s, len) == m && LowAfter(s, m) == if n == |s| then 0 else s[n].addr
    ensures -1 <= b < |s| && (b >= 0 ==> s[b].addr > 0 && s[b].addr in mem && mem[s[b].addr].size == s[b].size)
  {
    hide Laid, Threaded, Top, Low, ExactAt;
    m := NextPiece(s, n, lo);
    PositiveAddrs(s, lo);
    if b >= 0 { HeaderAt(mem, s, b); }
    if m < 0 {
      ExactMeaning(s, len);
    } else {
      HeaderAt(mem, s, m);
      if s[m].size == len { ExactFound(s, len, m, n, lo); }
    }
  }

  /** While the size does not wrap, this is the best piece. */
  lemma BestIsBest(s: seq<Seg>, b: int, len: nat)
    requires BestSoFar(s, 0, b, Needed(len))
    ensures len + H < WORD ==> b == BestAt(s, len)
  {
    if len + H < WORD {
      assert Needed(len) == len + H;
      forall j | 0 <= j < |s| ensures Larger(s[j], Needed(len)) <==> Splittable(s[j], len) {}
      BestMeaning(s, len);
      var i := BestAt(s, len);
      if b >= 0 { assert Splittable(s[b], len); }
    }
  }

  /** kmalloc as written unlinks an exact piece correctly only from the head of the list. */
  ghost predicate ExactIsFirst(s: seq<Seg>, len: nat) {
    var e := ExactAt(s, len);
    e >= 0 ==> Low(s[e + 1..]) == 0
  }

  /** kfree as written keeps a wrong predecessor after it has absorbed the head of the list. It then
      goes wrong if it also merges downwards or reduces the break. */
  ghost predicate PredecessorUnused(s: seq<Seg>, p: nat) {
    var i := Find(s, p);
    i < |s| && !s[i].free ==>
      !(MergesUp(s[i + 1..]) && Low(Above(s[i + 1..])) == 0 && (MergesDown(s[..i]) || i == 0))
  }

  lemma TopBelow(a: seq<Seg>, lo: nat, hi: nat)
    requires Laid(a, lo) && lo + Span(a) <= hi && hi > 0
    ensures Top(a, 0) < hi
  {
    var m := TopAt(a, 0);
    if m >= 0 { Within(a, lo, m); }
  }

  /** The piece that kmalloc as written hands out is still on the list, unless it was the head. */
  lemma StillLinked(mem: Memory, a: seq<Seg>, x: Seg, b: seq<Seg>, lo: nat)
    requires Threaded(mem, a + [x] + b, 0) && Laid(a + [x] + b, lo) && lo > 0 && x.free && Low(b) != 0
    ensures !Threaded(mem[x.addr := Header(x.size, 0)], a + [x.(free := false)] + b, 0)
  {
    var mem', y := mem[x.addr := Header(x.size, 0)], x.(free := false);
    LinkedOut(mem, a, x, b, lo);
    Apart(a, x, b, lo);
    Cut(a, [x], b, lo);
    TopBelow(a, lo, x.addr);
    ThreadedCut(mem', a, y, b, 0);
    if Threaded(mem', b, Top(a, 0)) { Relink(mem', b, End(x), Top(a, 0), 0); }
  }

  /** Two headers were written, that of a segment and a new one. */
  lemma TwoHeaders(mem: Memory, s: seq<Seg>, q: nat, x: Header, p: nat, y: Header)
    requires q in Addrs(s) && p >= H
    ensures SameBut(mem, mem[q := x][p - H := y], Addrs(s) + NewHeader(p))
  {
  }

  lemma CutsWrongly(h: Heap, mem: Memory, mem': Memory, end: nat, start: nat, len: nat, b: nat, p: nat)
    requires BestSoFar(h.segs, 0, b, Needed(len)) && b < |h.segs| && Overlaps(mem, mem', h.segs[b], len, p)
    ensures Mangled(h, mem, mem', h.brk, end, start, len, p)
  {
  }

  lemma GrowsWrongly(h: Heap, mem: Memory, mem': Memory, brk': nat, end: nat, start: nat, len: nat, b: int, p: nat)
    requires BestSoFar(h.segs, 0, b, Needed(len)) && b < 0 && Shifted(mem, mem', h.brk, brk', end, start, len, p)
    ensures Mangled(h, mem, mem', brk', end, start, len, p)
  {
  }

  lemma BestIsLarger(s: seq<Seg>, b: nat, need: nat)
    requires BestSoFar(s, 0, b, need)
    ensures b < |s| && Larger(s[b], need)
  {
  }

  lemma EndsBelow(h: Heap, end: nat, start: nat, b: nat)
    requires WellFormed(h, end, start) && b < |h.segs|
    ensures End(h.segs[b]) <= start && h.segs[b].addr > 0
  {
    Within(h.segs, h.brk, b);
  }

  /** The writes of kmalloc when it splits the best piece, `x`. */
  lemma SplitInMemory(h: Heap, mem: Memory, end: nat, start: nat, len: nat, a: seq<Seg>, x: Seg, c: seq<Seg>)
    requires WellFormed(h, end, start) && Threaded(mem, h.segs, 0) && h.segs == a + [x] + c && Splittable(x, len)
    requires ExactAt(h.segs, len) < 0 && BestAt(h.segs, len) == |a|
    ensures var rest := Rest(x, len);
      var s' := a + [rest, Seg(End(rest), len, false)] + c;
      && x.addr in mem && mem[x.addr].size == x.size && x.addr in Addrs(h.segs)
      && Malloc(h, end, len) == (Heap(h.brk, s'), End(rest) + H) && WellFormed(Heap(h.brk, s'), end, start)
      && Threaded(mem[x.addr := Header(rest.size, mem[x.addr].next)][End(rest) := Header(len, 0)], s', 0)
      && Top(s', 0) == Top(h.segs, 0)
  {
    assert h.segs[..|a|] == a && h.segs[|a|] == x && h.segs[|a| + 1..] == c;
    MallocWellFormed(h, end, start, len);
    assert Laid(h.segs, h.brk) && h.brk > 0;
    hide WellFormed, Threaded, BestAt, ExactAt, Top, Laid, Span, NoTouch;
    SplitOff(mem, a, x, c, h.brk, len);
    Headers(a, x, c);
  }

  /** The address after the header that is put at the upper end of a piece. */
  lemma SplitAddress(x: Seg, len: nat)
    requires Splittable(x, len) && End(x) < WORD
    ensures var p := (x.addr + H + (x.size - Needed(len)) + H) % WORD;
      p == End(Rest(x, len)) + H && Wrapped(p, H) == End(Rest(x, len)) && Needed(len) == len + H
  {
    var e := End(Rest(x, len));
    assert e + H + len == End(x);
    assert (e + H) % WORD == e + H && (e + H - H) % WORD == e;
  }

  /** What the second attempt of kmalloc does to memory and to the partition. */
  lemma SplitMeans(h: Heap, mem: Memory, mem': Memory, end: nat, start: nat, len: nat, b: nat, p: nat)
      returns (s': seq<Seg>)
    requires WellFormed(h, end, start) && Threaded(mem, h.segs, 0) && start < WORD && len < WORD && b < |h.segs|
    requires ExactAt(h.segs, len) < 0 && BestSoFar(h.segs, 0, b, Needed(len)) && h.segs[b].addr in mem
    requires len + H < WORD ==> b == BestAt(h.segs, len)
    requires Larger(h.segs[b], Needed(len)) && p == (End(h.segs[b]) - Needed(len) + H) % WORD
    requires var x := h.segs[b];
      mem' == mem[x.addr := Header(x.size - Needed(len), mem[x.addr].next)][Wrapped(p, H) := Header(len, 0)]
    ensures len + H < WORD ==>
      && Malloc(h, end, len) == (Heap(h.brk, s'), p) && WellFormed(Heap(h.brk, s'), end, start)
      && Threaded(mem', s', 0) && Top(s', 0) == Top(h.segs, 0) && SameBut(mem, mem', Addrs(h.segs) + NewHeader(p))
    ensures len + H >= WORD ==> s' == h.segs && Mangled(h, mem, mem', h.brk, end, start, len, p)
  {
    var a, x, c := h.segs[..b], h.segs[b], h.segs[b + 1..];
    if len + H < WORD {
      s' := a + [Rest(x, len), Seg(End(Rest(x, len)), len, false)] + c;
      Whole(h.segs, b);
      EndsBelow(h, end, start, b);
      hide WellFormed, Threaded, Malloc, BestAt, ExactAt, Top, Rest, Addrs, SameBut, BestSoFar, Mangled;
      SplitAddress(x, len);
      SplitInMemory(h, mem, end, start, len, a, x, c);
      TwoHeaders(mem, h.segs, x.addr, Header(x.size - Needed(len), mem[x.addr].next), p, Header(len, 0));
    } else {
      s' := h.segs;
      CutsWrongly(h, mem, mem', end, start, len, b, p);
    }
  }

  /** And when it lowers the break by a block `g`, as long as nothing wraps. */
  lemma GrowthInMemory(h: Heap, mem: Memory, end: nat, start: nat, len: nat, g: Seg)
    requires WellFormed(h, end, start) && Threaded(mem, h.segs, 0) && start < WORD
    requires ExactAt(h.segs, len) < 0 && BestAt(h.segs, len) < 0 && len + H + (start - h.brk) < WORD
    requires g == Seg(if h.brk < len + H then 0 else h.brk - len - H, len, false)
    ensures Needed(len) == len + H
    ensures if end <= Wrapped(h.brk, len + H) <= start then
        && Wrapped(h.brk, len + H) == g.addr && Wrapped(h.brk, len) == g.addr + H
        && Malloc(h, end, len) == (Heap(g.addr, [g] + h.segs), g.addr + H)
        && WellFormed(Heap(g.addr, [g] + h.segs), end, start)
        && Threaded(mem[g.addr := Header(len, 0)], [g] + h.segs, 0) && Top([g] + h.segs, 0) == Top(h.segs, 0)
      else Malloc(h, end, len) == (h, 0)
  {
    MallocWellFormed(h, end, start, len);
    NoWrap(h.brk, len + H, end, start);
    if end + len + H <= h.brk { Grown(mem, h.segs, h.brk, g); }
  }

  /** What the third attempt does; the break goes to `brk'`. */
  lemma GrowthMeans(h: Heap, mem: Memory, mem': Memory, brk': nat, end: nat, start: nat, len: nat, b: int, p: nat)
      returns (s': seq<Seg>)
    requires WellFormed(h, end, start) && Threaded(mem, h.segs, 0) && start < WORD && len < WORD
    requires ExactAt(h.segs, len) < 0 && BestSoFar(h.segs, 0, b, Needed(len)) && b < 0
    requires len + H < WORD ==> BestAt(h.segs, len) < 0
    requires Shifted(mem, mem', h.brk, brk', end, start, len, p)
    ensures len + H + (start - h.brk) < WORD ==>
      && Malloc(h, end, len) == (Heap(brk', s'), p) && WellFormed(Heap(brk', s'), end, start)
      && Threaded(mem', s', 0) && Top(s', 0) == Top(h.segs, 0) && SameBut(mem, mem', NewHeader(p))
    ensures len + H + (start - h.brk) >= WORD ==> s' == h.segs && Mangled(h, mem, mem', brk', end, start, len, p)
  {
    s' := h.segs;
    if len + H + (start - h.brk) < WORD {
      var g := Seg(if h.brk < len + H then 0 else h.brk - len - H, len, false);
      hide Threaded, Malloc, BestAt, ExactAt, Top, BestSoFar, Mangled;
      GrowthInMemory(h, mem, end, start, len, g);
      if end <= Wrapped(h.brk, Needed(len)) <= start { s' := [g] + s'; }
    } else {
      GrowsWrongly(h, mem, mem', brk', end, start, len, b, p);
    }
  }

  /** The writes of kmalloc for an exact piece `x`; they leave a proper list just when `prev` is right. */
  lemma ExactTaken(mem: Memory, head: nat, a: seq<Seg>, x: Seg, b: seq<Seg>, lo: nat, prev: nat)
    requires Threaded(mem, a + [x] + b, 0) && Laid(a + [x] + b, lo) && lo > 0 && x.free && head == Top(a + [x] + b, 0)
    requires prev == Low(b) || (prev == x.addr && Low(b) != 0)
    ensures x.addr in mem && (prev != 0 ==> prev in mem) && mem[x.addr].size == x.size && Low(b) != x.addr
    ensures var mem1 := if prev != 0 then mem[prev := mem[prev].(next := mem[x.addr].next)] else mem;
      var mem' := mem1[x.addr := mem1[x.addr].(next := 0)];
      var s := a + [x.(free := false)] + b;
      && (Threaded(mem', s, 0) && (if prev == 0 then mem[x.addr].next else head) == Top(s, 0) <==> prev == Low(b))
      && SameBut(mem, mem', Addrs(a + [x] + b))
  {
    LinkedOut(mem, a, x, b, lo);
    ThreadedCut(mem, a, x, b, 0);
    Headers(a, x, b);
    Apart(a, x, b, lo);
    var mem1 := if prev != 0 then mem[prev := mem[prev].(next := mem[x.addr].next)] else mem;
    var mem' := mem1[x.addr := mem1[x.addr].(next := 0)];
    if prev == Low(b) {
      assert mem' == SetNext(mem, Low(b), Top(a, 0))[x.addr := Header(x.size, 0)];
    } else {
      assert mem' == mem[x.addr := Header(x.size, 0)];
      StillLinked(mem, a, x, b, lo);
    }
  }

  /** The header that a successful kmalloc writes beside the old ones. */
  function NewHeader(p: nat): set<nat> {
    if p < H then {} else {p - H}
  }

  /** No 16-bit sum wraps around: an exact or splittable piece is there, or the break can be lowered. */
  ghost predicate Unwrapped(h: Heap, start: nat, len: nat) {
    len + H < WORD && (ExactAt(h.segs, len) >= 0 || BestAt(h.segs, len) >= 0 || len + H + (start - h.brk) < WORD)
  }

  /** The size has wrapped, and piece `g` is cut by the wrapped size: the new header overlaps what
      follows the piece. */
  ghost predicate Overlaps(mem: Memory, mem': Memory, g: Seg, len: nat, p: nat) {
    && Larger(g, Needed(len)) && g.addr in mem && p == (End(g) - Needed(len) + H) % WORD
    && mem' == mem[g.addr := Header(g.size - Needed(len), mem[g.addr].next)][Wrapped(p, H) := Header(len, 0)]
  }

  /** The wrapped break is taken if it happens to lie in the heap, and a header is written there. */
  ghost predicate Shifted(mem: Memory, mem': Memory, brk: nat, brk': nat, end: nat, start: nat, len: nat, p: nat) {
    var b := Wrapped(brk, Needed(len));
    if end <= b <= start then brk' == b && p == Wrapped(brk, len) && mem' == mem[b := Header(len, 0)]
    else brk' == brk && p == 0 && mem' == mem
  }

  /** What kmalloc does when a 16-bit sum wraps around. */
  ghost predicate Mangled(h: Heap, mem: Memory, mem': Memory, brk': nat, end: nat, start: nat, len: nat, p: nat) {
    exists b :: BestSoFar(h.segs, 0, b, Needed(len)) &&
      if b >= 0 then brk' == h.brk && Overlaps(mem, mem', h.segs[b], len, p)
      else Shifted(mem, mem', h.brk, brk', end, start, len, p)
  }

  /** `q` is the address of segment `b`, or 0 for none. */
  ghost predicate AddrAt(s: seq<Seg>, b: int, q: nat) {
    if b == -1 then q == 0 else 0 <= b < |s| && q == s[b].addr
  }

  function One(p: nat): set<nat> { if p == 0 then {} else {p} }

  class Allocator {
    /** Whether the two one-line corrections are in place: advance `previous_piece` before
        `current_piece`, and forget the predecessor once the head has been absorbed. */
    const corrected: bool
    var start: nat
    var end: nat
    var brk: nat
    var head: nat
    var mem: Memory
    ghost var segs: seq<Seg>

    ghost function View(): Heap
      reads this
    {
      Heap(brk, segs)
    }

    ghost predicate Valid()
      reads this
    {
      WellFormed(View(), end, start) && start < WORD && Threaded(mem, segs, 0) && head == Top(segs, 0)
    }

    constructor (corrected: bool)
      ensures this.corrected == corrected && start == end == brk == head == 0 && segs == []
    {
      this.corrected, start, end, brk, head, mem, segs := corrected, 0, 0, 0, 0, map[], [];
    }

    /** init_kmalloc. A heap that reaches down to address 0 would have NULL among its headers. */
    method Init(start: nat, end: nat) returns (ok: bool)
      requires start < WORD
      modifies this
      ensures ok == (end <= start)
      ensures ok ==> (Valid() <==> 0 < end)
      ensures ok ==> this.start == start && this.end == end && View() == Heap(start, [])
      ensures !ok ==>
        this.start == old(this.start) && this.end == old(this.end) && View() == old(View()) && head == old(head)
    {
      if start < end { return false; }
      this.start, this.end, brk, head := start, end, start, 0;
      segs := [];
      ok := true;
    }

    // ----- kmalloc

    /** grow_kmalloc_break, in 16-bit pointer arithmetic. */
    method GrowBreak(amount: nat) returns (ok: bool)
      requires amount < WORD
      modifies this`brk
      ensures ok == (end <= Wrapped(old(brk), amount) <= start)
      ensures brk == if ok then Wrapped(old(brk), amount) else old(brk)
    {
      var newBreak := Wrapped(brk, amount);
      if newBreak < end || newBreak > start { return false; }
      brk := newBreak;
      ok := true;
    }

    /** The search of kmalloc: the first exact piece with its recorded predecessor, and the best other
        piece, compared in 16 bits. */
    method Search(len: nat) returns (exact: nat, exactPrev: nat, smallest: nat)
      requires Valid() && len < WORD
      ensures var e := ExactAt(segs, len);
        && exact == (if e < 0 then 0 else segs[e].addr)
        && (e >= 0 ==> exactPrev == if corrected || LowAfter(segs, e) == 0 then LowAfter(segs, e) else exact)
        && (e < 0 ==> exists b :: BestSoFar(segs, 0, b, Needed(len)) && AddrAt(segs, b, smallest))
        && (e < 0 && len + H < WORD ==> AddrAt(segs, BestAt(segs, len), smallest))
    {
      hide Laid, Threaded, Span, NoTouch, Top, ExactAt, BestAt, Needed, BestSoFar, NoExactFrom, TopBefore, LowAfter;
      var current, previous := head, 0;
      var need := Needed(len);
      exact, exactPrev, smallest := 0, 0, 0;
      ghost var s, n: nat, b: int := segs, |segs|, -1;
      WalkStarts(s, len, need);
      ghost var m: int;
      while current != 0
        invariant n <= |s| && current == TopBefore(s, n) && exact == 0 && NoExactFrom(s, n, len)
        invariant -1 <= b < |s| && BestSoFar(s, n, b, need) && smallest == if b < 0 then 0 else s[b].addr
        invariant n < |s| ==> s[n].free
        invariant previous == if n == |s| then 0 else if corrected then s[n].addr else current
        decreases n
      {
        m := WalkStep(mem, s, n, brk, len, b, need);
        if mem[current].size == len {
          exact, exactPrev := current, previous;
          break;
        }
        if mem[current].size > need && (smallest == 0 || mem[current].size < mem[smallest].size) {
          smallest := current;
          b := m;
        }
        if corrected {
          previous := current;
          current := mem[current].next;
        } else {
          current := mem[current].next;
          previous := current;
        }
        n := m;
      }
      if exact == 0 {
        m := WalkStep(mem, s, n, brk, len, b, need);
        BestIsBest(s, b, len);
      }
    }

    /** Attempt 1 of kmalloc. */
    method TakeExact(exact: nat, exactPrev: nat, len: nat) returns (p: nat)
      requires Valid() && ExactAt(segs, len) >= 0
      requires var e := ExactAt(segs, len); var low := Low(segs[e + 1..]);
        exact == segs[e].addr && exactPrev == if corrected || low == 0 then low else exact
      modifies this`mem, this`head, this`segs
      ensures (View(), p) == Malloc(old(View()), end, len)
      ensures Valid() <==> corrected || ExactIsFirst(old(segs), len)
      ensures SameBut(old(mem), mem, Addrs(old(segs)))
    {
      hide Threaded, SameBut, NoTouch, Laid, Span, Low, Top, Addrs;
      ghost var e := ExactAt(segs, len);
      ghost var a, x, b := segs[..e], segs[e], segs[e + 1..];
      Whole(segs, e);
      Fits(segs, len);
      MallocWellFormed(View(), end, start, len);
      ExactTaken(mem, head, a, x, b, brk, exactPrev);
      if exactPrev != 0 {
        mem := mem[exactPrev := mem[exactPrev].(next := mem[exact].next)];
      } else {
        head := mem[exact].next;
      }
      mem := mem[exact := mem[exact].(next := 0)];
      segs := a + [x.(free := false)] + b;
      p := exact + H;
    }

    /** Attempt 2: the upper end of a larger piece. When the size has wrapped, the new header is put
        less than a header's length below the end of the piece. */
    method SplitPiece(piece: nat, len: nat, ghost b: int) returns (p: nat)
      requires Valid() && len < WORD && ExactAt(segs, len) < 0 <= b < |segs| && piece == segs[b].addr
      requires BestSoFar(segs, 0, b, Needed(len)) && (len + H < WORD ==> b == BestAt(segs, len))
      modifies this`mem, this`segs
      ensures len + H < WORD ==> (View(), p) == Malloc(old(View()), end, len) && Valid()
      ensures len + H < WORD ==> SameBut(old(mem), mem, Addrs(old(segs)) + NewHeader(p))
      ensures len + H >= WORD ==>
        segs == old(segs) && Mangled(old(View()), old(mem), mem, brk, end, start, len, p)
    {
      hide Threaded, WellFormed, Malloc, BestAt, ExactAt, Top, Needed, Addrs, SameBut, BestSoFar, Mangled, Wrapped;
      HeaderAt(mem, segs, b);
      BestIsLarger(segs, b, Needed(len));
      var need := Needed(len);
      mem := mem[piece := mem[piece].(size := mem[piece].size - need)];
      p := (piece + H + mem[piece].size + H) % WORD;
      mem := mem[Wrapped(p, H) := Header(len, 0)];
      segs := SplitMeans(View(), old(mem), mem, end, start, len, b, p);
    }

    /** Attempt 3: more heap. When the size or the break has wrapped, the break can move up instead. */
    method GrowHeap(len: nat, ghost b: int) returns (p: nat)
      requires Valid() && len < WORD && ExactAt(segs, len) < 0 && b < 0 && BestSoFar(segs, 0, b, Needed(len))
      requires len + H < WORD ==> BestAt(segs, len) < 0
      modifies this`mem, this`segs, this`brk
      ensures len + H + (start - old(brk)) < WORD ==>
        (View(), p) == Malloc(old(View()), end, len) && Valid() && SameBut(old(mem), mem, NewHeader(p))
      ensures len + H + (start - old(brk)) >= WORD ==>
        segs == old(segs) && Mangled(old(View()), old(mem), mem, brk, end, start, len, p)
    {
      hide Threaded, WellFormed, Malloc, BestAt, ExactAt, Top, SameBut, BestSoFar, Mangled;
      NoExactPiece(len);
      p := Wrapped(brk, len);
      var ok := GrowBreak(Needed(len));
      if ok {
        WrappedTwice(old(brk), len);
        mem := mem[Wrapped(p, H) := Header(len, 0)];
      } else {
        p := 0;
      }
      segs := GrowthMeans(old(View()), old(mem), mem, brk, end, start, len, b, p);
    }

    /** kmalloc. It does what `Malloc` says as long as neither the size nor the break wraps around. */
    method Kmalloc(len: nat) returns (p: nat)
      requires Valid() && len < WORD
      modifies this
      ensures start == old(start) && end == old(end)
      ensures Unwrapped(old(View()), start, len) ==>
        && (View(), p) == Malloc(old(View()), end, len)
        && (Valid() <==> corrected || ExactIsFirst(old(segs), len))
        && SameBut(old(mem), mem, Addrs(old(segs)) + NewHeader(p))
        && SparesLive(old(mem), mem, old(segs), segs)
      ensures !Unwrapped(old(View()), start, len) ==>
        segs == old(segs) && head == old(head) && Mangled(old(View()), old(mem), mem, brk, end, start, len, p)
    {
      hide WellFormed, Threaded, SameBut, SparesLive, Low, Top, Malloc, BestSoFar, Mangled, Needed, ExactAt, BestAt,
           Addrs;
      var exact, exactPrev, smallest := Search(len);
      NoExactPiece(len);
      AddrsPositive();
      ghost var v, b := View(), -1;
      if exact == 0 {
        b :| BestSoFar(segs, 0, b, Needed(len)) && AddrAt(segs, b, smallest);
        BestIsBest(segs, b, len);
      }
      if exact != 0 {
        assert Unwrapped(v, start, len);
        p := TakeExact(exact, exactPrev, len);
        SameButMore(old(mem), mem, Addrs(old(segs)), Addrs(old(segs)) + NewHeader(p));
      } else if smallest != 0 {
        assert len + H < WORD ==> Unwrapped(v, start, len);
        p := SplitPiece(smallest, len, b);
      } else {
        p := GrowHeap(len, b);
        if Unwrapped(v, start, len) {
          SameButMore(old(mem), mem, NewHeader(p), Addrs(old(segs)) + NewHeader(p));
        }
      }
      if Unwrapped(v, start, len) {
        MallocSpares(v, end, start, len, old(mem), mem, Addrs(old(segs)) + NewHeader(p));
      }
    }

    /** No piece is so large that its size and its header together exceed 16 bits. */
    lemma NoExactPiece(len: nat)
      requires Valid()
      ensures brk <= start && (len + H >= WORD ==> ExactAt(segs, len) < 0)
    {
      var e := ExactAt(segs, len);
      ExactMeaning(segs, len);
      if e >= 0 { Within(segs, brk, e); }
    }

    // ----- kfree

    /** pointer_is_valid */
    method PointerIsValid(p: nat) returns (ok: bool)
      requires Valid() && (brk <= p <= start && p != 0 ==> Find(segs, p) < |segs|)
      ensures ok ==> Find(segs, p) < |segs|
      ensures !ok ==> Find(segs, p) == |segs| || segs[Find(segs, p)].free
    {
      if p == 0 || p < brk || p < end || p > start {
        NoneThere(View(), end, start, p);
        return false;
      }
      HeaderAt(mem, segs, Find(segs, p));
      Within(segs, brk, Find(segs, p));
      if mem[p - H].size >= start - end || mem[p - H].next != 0 { return false; }
      ok := true;
    }

    /** Step 1 of kfree, the search: the free neighbours of the segment at `entry`. */
    method Neighbours(entry: nat, ghost i: nat) returns (double: bool, left: nat, leftPrev: nat, right: nat)
      requires Valid() && i < |segs| && segs[i].addr == entry
      ensures double == segs[i].free
      ensures !double ==>
        left == Low(segs[i + 1..]) && leftPrev == LowButOne(segs[i + 1..]) && right == Top(segs[..i], 0)
    {
      hide Laid, Threaded, Span, NoTouch, Top, Low, LowButOne;
      PositiveAddrs(segs, brk);
      var current := head;
      left, leftPrev, right := 0, 0, 0;
      ghost var n := |segs|;
      assert segs[..n] == segs;
      LowOfNone(segs);
      while current != 0
        invariant i < n <= |segs| && current == Top(segs[..n], 0) && right == 0
        invariant left == Low(segs[n..]) && leftPrev == LowButOne(segs[n..])
        decreases n
      {
        ghost var m := NextPiece(segs, n, brk);
        HeaderAt(mem, segs, m);
        SameOrder(segs, brk, m, i);
        if current > entry {
          LowAtFree(segs, m, n);
          leftPrev := left;
          left := current;
          current := mem[current].next;
          n := m;
        } else if current < entry {
          right := current;
          LowSkips(segs, i + 1, n);
          TopSkips(segs, i, n);
          return false, left, leftPrev, right;
        } else {
          return true, left, leftPrev, right;
        }
      }
      var m := NextPiece(segs, n, brk);
      LowSkips(segs, i + 1, n);
      TopSkips(segs, i, n);
      double := false;
    }

    /** Step 1 of kfree: the piece goes back on the list. */
    method Insert(entry: nat, left: nat, ghost a: seq<Seg>, ghost x: Seg, ghost b: seq<Seg>, ghost lo: nat)
      requires Threaded(mem, a + [x] + b, 0) && Laid(a + [x] + b, lo) && lo > 0 && head == Top(a + [x] + b, 0)
      requires !x.free && entry == x.addr && left == Low(b)
      modifies this`mem, this`head
      ensures Threaded(mem, a + [x.(free := true)] + b, 0) && head == Top(a + [x.(free := true)] + b, 0)
      ensures SameBut(old(mem), mem, Addrs(a + [x] + b))
    {
      LinkedIn(mem, a, x, b, lo);
      ThreadedCut(mem, a, x, b, 0);
      Headers(a, x, b);
      Apart(a, x, b, lo);
      if left == 0 {
        mem := mem[entry := mem[entry].(next := head)];
        head := entry;
      } else {
        mem := mem[entry := mem[entry].(next := mem[left].next)];
        mem := mem[left := mem[left].(next := entry)];
      }
      assert mem == SetNext(old(mem)[x.addr := Header(x.size, Top(a, 0))], Low(b), x.addr);
    }

    /** Steps 2 and 3 of kfree: the piece at `upper` is absorbed by its neighbour at `lower`, whose
        predecessor on the list becomes `prev`. */
    method Absorb(lower: nat, upper: nat, prev: nat, ghost a: seq<Seg>, ghost x: Seg, ghost y: Seg, ghost b: seq<Seg>,
        ghost lo: nat)
      requires Threaded(mem, a + [x] + ([y] + b), 0) && Laid(a + [x] + ([y] + b), lo) && lo > 0
      requires head == Top(a + [x] + ([y] + b), 0) && x.free && y.free && lower == x.addr && upper == y.addr
      requires prev == Low(b) || prev in mem
      modifies this`mem, this`head
      ensures var z := x.(size := x.size + H + y.size);
        prev == Low(b) ==> Threaded(mem, a + [z] + b, 0) && head == Top(a + [z] + b, 0)
      ensures if prev == 0 then head == lower else head == old(head)
      ensures SameBut(old(mem), mem, Addrs(a + [x] + ([y] + b)) + One(prev)) && old(mem).Keys <= mem.Keys
    {
      Fused(mem, a, x, y, b, lo);
      Headers(a, x, [y] + b);
      InTail(y, b);
      mem := mem[lower := mem[lower].(size := mem[lower].size + mem[upper].size + H)];
      mem := mem[upper := Header(0, 0)];
      if prev != 0 {
        mem := mem[prev := mem[prev].(next := lower)];
      } else {
        head := lower;
      }
    }

    /** Step 2 of kfree. As written it leaves `prev` at the absorbed piece when that was the list head. */
    method MergeUp(entry: nat, left: nat, leftPrev: nat, ghost a: seq<Seg>, ghost x: Seg, ghost b: seq<Seg>,
        ghost lo: nat)
        returns (prev: nat)
      requires Threaded(mem, a + [x] + b, 0) && Laid(a + [x] + b, lo) && lo > 0 && head == Top(a + [x] + b, 0)
      requires x.free && entry == x.addr && left == Low(b) && leftPrev == LowButOne(b)
      modifies this`mem, this`head
      ensures Threaded(mem, a + [Risen(x, b)] + Above(b), 0) && head == Top(a + [Risen(x, b)] + Above(b), 0)
      ensures if !corrected && MergesUp(b) && Low(Above(b)) == 0 then prev == left && prev != 0 && head == entry
              else prev == Low(Above(b))
      ensures prev == 0 || (prev in mem && prev in Addrs(b))
      ensures SameBut(old(mem), mem, Addrs(a + [x] + b)) && old(mem).Keys <= mem.Keys
    {
      hide Span, SameBut, Addrs;
      ThreadedCut(mem, a, x, b, 0);
      Apart(a, x, b, lo);
      Headers(a, x, b);
      LowIn(mem, b, End(x), x.addr);
      UpIffAdjacent(b, End(x));
      prev := left;
      SameButMore(mem, mem, {}, Addrs(a + [x] + b));
      if left != 0 && entry + H + mem[entry].size == left {
        ghost var y, rest := b[0], b[1..];
        assert b == [y] + rest;
        InTail(y, rest);
        LowIn(mem, rest, End(y), y.addr);
        Absorb(entry, left, leftPrev, a, x, y, rest, lo);
        SameButMore(old(mem), mem, Addrs(a + [x] + ([y] + rest)) + One(leftPrev), Addrs(a + [x] + b));
        if leftPrev != 0 {
          prev := leftPrev;
        } else if corrected {
          prev := 0;
        }
      }
    }

    /** Step 3 of kfree. */
    method MergeDown(entry: nat, right: nat, prev: nat, ghost a: seq<Seg>, ghost x: Seg, ghost b: seq<Seg>,
        ghost lo: nat)
        returns (entry': nat)
      requires Threaded(mem, a + [x] + b, 0) && Laid(a + [x] + b, lo) && lo > 0 && head == Top(a + [x] + b, 0)
      requires x.free && entry == x.addr && right == Top(a, 0)
      requires prev == Low(b) || (prev != 0 && prev in mem)
      modifies this`mem, this`head
      ensures entry' in mem && entry' == Sunk(a, x).addr
      ensures !MergesDown(a) ==> mem == old(mem) && head == old(head)
      ensures prev == Low(b) ==>
        Threaded(mem, Below(a) + [Sunk(a, x)] + b, 0) && head == Top(Below(a) + [Sunk(a, x)] + b, 0)
      ensures prev != 0 ==> head == old(head) && prev in mem
      ensures SameBut(old(mem), mem, Addrs(a + [x] + b) + One(prev)) && old(mem).Keys <= mem.Keys
    {
      hide Span, SameBut, Addrs;
      ThreadedCut(mem, a, x, b, 0);
      Apart(a, x, b, lo);
      LowIn(mem, b, End(x), x.addr);
      LaidAt(a, x, b, lo);
      DownIffAdjacent(mem, a, lo, x);
      entry' := entry;
      SameButMore(mem, mem, {}, Addrs(a + [x] + b) + One(prev));
      if right != 0 && right + H + mem[right].size == entry {
        ghost var rest, r := a[..|a| - 1], a[|a| - 1];
        assert a + [x] + b == rest + [r] + ([x] + b);
        Absorb(right, entry, prev, rest, r, x, b, lo);
        entry' := right;
      }
    }

    /** Step 4 of kfree. */
    method ReduceBreak(entry: nat, prev: nat)
      requires entry in mem && (prev == 0 || prev in mem)
      modifies this`mem, this`head, this`brk
      ensures var drop := entry == old(brk) && old(mem)[entry].next == 0;
        var mem1 := old(mem)[entry := Header(0, 0)];
        && brk == (if drop then entry + H + old(mem)[entry].size else old(brk))
        && mem == (if drop then SetNext(mem1, prev, 0) else old(mem))
        && head == if drop && prev == 0 then 0 else old(head)
    {
      if entry == brk && mem[entry].next == 0 {
        brk := entry + H + mem[entry].size;
        mem := mem[entry := Header(0, 0)];
        if prev != 0 {
          mem := mem[prev := mem[prev].(next := 0)];
        } else {
          head := 0;
        }
      }
    }

    /** kfree of the live block `x` between `a` and `b`: steps 1 to 4. */
    method FreeBlock(entry: nat, left: nat, leftPrev: nat, right: nat, ghost a: seq<Seg>, ghost x: Seg,
        ghost b: seq<Seg>)
      requires Valid() && segs == a + [x] + b && !x.free && entry == x.addr
      requires left == Low(b) && leftPrev == LowButOne(b) && right == Top(a, 0)
      modifies this`mem, this`head, this`brk, this`segs
      ensures View() == Release(old(brk), a, x, b) && SameBut(old(mem), mem, Addrs(a + [x] + b))
      ensures Valid() <==> corrected || !(MergesUp(b) && Low(Above(b)) == 0 && (MergesDown(a) || a == []))
    {
      hide Threaded, Laid, Span, NoTouch, SameBut, Addrs, Top, Low, LowButOne;
      ghost var lo, x1, x2, m, b2 := brk, x.(free := true), Risen(x, b), Merged(a, x, b), Above(b);
      ReleaseWellFormed(lo, a, x, b, end, start);
      Tilings(a, x, b, lo);
      Headers(a, x, b);
      Insert(entry, left, a, x, b, lo);
      ghost var mem1 := mem;
      var prev := MergeUp(entry, left, leftPrev, a, x1, b, lo);
      ghost var mem2 := mem;
      var entry' := MergeDown(entry, right, prev, a, x2, b2, lo);
      ghost var mem3 := mem;
      if a == [] {
        Bottom(mem3, x2, b2, lo);
      } else {
        AboveBreak(lo, a, x, b, end, start);
      }
      ReduceBreak(entry', prev);
      if Low(b2) == 0 { TopIsLast(Below(a), m, b2, End(x2)); }
      segs := Release(lo, a, x, b).segs;
      OnlyOld(old(mem), mem1, mem2, mem3, a, x, b, prev, entry');
    }

    /** kfree. Anything but the address of a live block is ignored, a second free included. */
    method Kfree(p: nat)
      requires Valid() && (brk <= p <= start && p != 0 ==> Find(segs, p) < |segs|)
      modifies this`mem, this`head, this`brk, this`segs
      ensures View() == Free(old(View()), p) && SameBut(old(mem), mem, Addrs(old(segs)))
      ensures SparesLive(old(mem), mem, old(segs), segs)
      ensures Valid() <==> corrected || PredecessorUnused(old(segs), p)
    {
      hide Threaded, Laid, Span, NoTouch, Addrs, Top, Low, LowButOne, Release, SparesLive, SameBut;
      ghost var i, v := Find(segs, p), View();
      var ok := PointerIsValid(p);
      if !ok {
        NothingWritten(mem, Addrs(segs));
        FreeSpares(v, end, start, p, mem, mem);
        return;
      }
      Whole(segs, i);
      var double, left, leftPrev, right := Neighbours(p - H, i);
      if double {
        NothingWritten(mem, Addrs(segs));
        FreeSpares(v, end, start, p, mem, mem);
        return;
      }
      assert segs[..i] == [] <==> i == 0;
      FreeBlock(p - H, left, leftPrev, right, segs[..i], segs[i], segs[i + 1..]);
      FreeSpares(v, end, start, p, old(mem), mem);
    }

    lemma AddrsPositive()
      requires Valid()
      ensures forall i :: 0 <= i < |segs| ==> segs[i].addr > 0
    {
      PositiveAddrs(segs, brk);
    }
  }

  function Wrapped(brk: nat, amount: nat): nat {
    (brk - amount) % WORD
  }

  lemma WrappedTwice(brk: nat, len: nat)
    requires brk < WORD && len < WORD
    ensures Wrapped(Wrapped(brk, len), H) == Wrapped(brk, Needed(len))
  {
  }

  lemma NothingWritten(mem: Memory, qs: set<nat>)
    ensures SameBut(mem, mem, qs)
  {
  }

  lemma SameButMore(mem: Memory, mem': Memory, a: set<nat>, b: set<nat>)
    requires SameBut(mem, mem', a) && a <= b
    ensures SameBut(mem, mem', b)
  {
  }

  /** The 16-bit test of the break agrees with the integers. */
  lemma NoWrap(brk: nat, amount: nat, end: nat, start: nat)
    requires 0 < end <= brk <= start < WORD && amount + (start - brk) < WORD
    ensures end <= Wrapped(brk, amount) <= start <==> end + amount <= brk
    ensures end + amount <= brk ==> Wrapped(brk, amount) == brk - amount
    ensures forall less: nat :: less <= amount && end + amount <= brk ==> Wrapped(brk, less) == brk - less
  {
  }

  lemma Headers(a: seq<Seg>, x: Seg, b: seq<Seg>)
    ensures x.addr in Addrs(a + [x] + b)
    ensures Addrs(b) <= Addrs(a + [x] + b) && Addrs(a) <= Addrs(a + [x] + b)
  {
    var s := a + [x] + b;
    assert s[|a|] == x;
    forall q | q in Addrs(b) ensures q in Addrs(s) {
      var i :| 0 <= i < |b| && b[i].addr == q;
      assert s[|a| + 1 + i].addr == q;
    }
    forall q | q in Addrs(a) ensures q in Addrs(s) {
      var i :| 0 <= i < |a| && a[i].addr == q;
      assert s[i].addr == q;
    }
  }

  /** `x` with the free neighbour above it. */
  function Risen(x: Seg, b: seq<Seg>): Seg {
    Seg(x.addr, x.size + (if MergesUp(b) then H + b[0].size else 0), true)
  }

  /** `x` absorbed by the free neighbour below it. */
  function Sunk(a: seq<Seg>, x: Seg): Seg {
    if MergesDown(a) then a[|a| - 1].(size := a[|a| - 1].size + H + x.size) else x
  }

  lemma DownIffAdjacent(mem: Memory, a: seq<Seg>, lo: nat, x: Seg)
    requires Threaded(mem, a, 0) && Laid(a, lo) && lo > 0 && x.addr == lo + Span(a)
    ensures var right := Top(a, 0);
      && (right != 0 ==> right in mem)
      && (right != 0 && right + H + mem[right].size == x.addr <==> MergesDown(a))
      && (MergesDown(a) ==> right == a[|a| - 1].addr)
  {
    PositiveAddrs(a, lo);
    var m := TopAt(a, 0);
    if m >= 0 {
      HeaderAt(mem, a, m);
      var n := |a| - 1;
      LastEnds(a, lo);
      if m < n { Ordered(a, lo, m, n); }
    }
  }

  lemma AboveBreak(lo: nat, a: seq<Seg>, x: Seg, b: seq<Seg>, end: nat, start: nat)
    requires WellFormed(Heap(lo, a + [x] + b), end, start) && !x.free && a != []
    ensures Merged(a, x, b).addr != lo
  {
    var t := Below(a) + [Merged(a, x, b)] + Above(b);
    ReleaseWellFormed(lo, a, x, b, end, start);
    assert (a + [x] + b)[0] == a[0];
    assert Below(a) != [] && t[|Below(a)|] == Merged(a, x, b);
    Within(t, lo, |Below(a)|);
  }

  /** A free segment at the bottom leaves a proper list when it is dropped with the right predecessor. */
  lemma Bottom(mem: Memory, x: Seg, b: seq<Seg>, lo: nat)
    requires Laid([] + [x] + b, lo) && lo > 0 && x.free
    ensures Threaded(mem, [] + [x] + b, 0) ==>
      && x.addr in mem && mem[x.addr] == Header(x.size, 0)
      && Threaded(SetNext(mem[x.addr := Header(0, 0)], Low(b), 0), b, 0)
      && Top(b, 0) == if Low(b) == 0 then 0 else Top([] + [x] + b, 0)
  {
    assert [] + [x] + b == [x] + b;
    if Threaded(mem, [x] + b, 0) { Dropped(mem, x, b, lo); }
  }

  lemma {:induction false} NoLow(s: seq<Seg>, below: nat)
    requires Low(s) == 0 && forall i :: 0 <= i < |s| ==> s[i].addr > 0
    ensures Top(s, below) == below
  {
    if s != [] { NoLow(s[1..], below); }
  }

  lemma TopIsLast(a: seq<Seg>, m: Seg, b: seq<Seg>, lo: nat)
    requires Laid(b, lo) && lo > 0 && Low(b) == 0 && m.free
    ensures Top(a + [m] + b, 0) == m.addr && Top(b, 0) == 0
  {
    PositiveAddrs(b, lo);
    NoLow(b, 0);
    NoLow(b, m.addr);
    ThreadedCut(map[], a, m, b, 0);
  }

  lemma AddrsCut(a: seq<Seg>, x: Seg, b: seq<Seg>)
    ensures Addrs(a + [x] + b) == Addrs(a) + {x.addr} + Addrs(b)
  {
    var s := a + [x] + b;
    Headers(a, x, b);
    forall q | q in Addrs(s) ensures q in Addrs(a) + {x.addr} + Addrs(b) {
      var i :| 0 <= i < |s| && s[i].addr == q;
      if i < |a| {
        assert a[i].addr == q;
      } else if i > |a| {
        assert b[i - |a| - 1].addr == q;
      }
    }
  }

  lemma AddrsAbove(b: seq<Seg>)
    ensures Addrs(Above(b)) <= Addrs(b)
  {
    if MergesUp(b) {
      assert b == [b[0]] + b[1..];
      InTail(b[0], b[1..]);
    }
  }

  /** All writes of kfree went to headers of the old partition. */
  lemma OnlyOld(mem0: Memory, mem1: Memory, mem2: Memory, mem3: Memory, a: seq<Seg>, x: Seg, b: seq<Seg>, prev: nat,
      entry: nat)
    requires SameBut(mem0, mem1, Addrs(a + [x] + b)) && SameBut(mem1, mem2, Addrs(a + [x.(free := true)] + b))
    requires SameBut(mem2, mem3, Addrs(a + [Risen(x, b)] + Above(b)) + One(prev))
    requires prev == 0 || prev in Addrs(b)
    requires entry == Merged(a, x, b).addr
    ensures SameBut(mem0, mem3, Addrs(a + [x] + b))
    ensures SameBut(mem0, SetNext(mem3[entry := Header(0, 0)], prev, 0), Addrs(a + [x] + b))
  {
    AddrsCut(a, x, b);
    AddrsCut(a, x.(free := true), b);
    AddrsCut(a, Risen(x, b), Above(b));
    AddrsAbove(b);
    if MergesDown(a) { assert a[|a| - 1].addr in Addrs(a); }
  }

  /** The intermediate partitions of kfree are laid out like the first. */
  lemma Tilings(a: seq<Seg>, x: Seg, b: seq<Seg>, lo: nat)
    requires Laid(a + [x] + b, lo)
    ensures Laid(a + [x.(free := true)] + b, lo) && Laid(a + [Risen(x, b)] + Above(b), lo)
    ensures Sunk(a, Risen(x, b)) == Merged(a, x, b) && Risen(x.(free := true), b) == Risen(x, b)
    ensures a == [] ==> x.addr == lo
    ensures Laid(Above(b), End(Risen(x, b))) && x.addr >= lo
    ensures MergesDown(a) ==> Merged(a, x, b).addr < x.addr
  {
    if MergesDown(a) {
      assert (a + [x] + b)[|a| - 1] == a[|a| - 1] && (a + [x] + b)[|a|] == x;
      Ordered(a + [x] + b, lo, |a| - 1, |a|);
    }
    Cut(a, [x], b, lo);
    Cut(a, [x.(free := true)], b, lo);
    Cut(a, [Risen(x, b)], Above(b), lo);
  }

  lemma {:induction false} LastEnds(s: seq<Seg>, lo: nat)
    requires Laid(s, lo) && s != []
    ensures End(s[|s| - 1]) == lo + Span(s)
  {
    if |s| > 1 { LastEnds(s[1..], End(s[0])); }
  }

  lemma UpIffAdjacent(b: seq<Seg>, lo: nat)
    requires Laid(b, lo) && lo > 0
    ensures Low(b) == lo <==> MergesUp(b)
  {
    if b != [] && !b[0].free && Low(b) != 0 {
      LowSeg(b[1..]);
      var i :| 0 <= i < |b[1..]| && b[1..][i].addr == Low(b);
      assert b[i + 1].addr == Low(b);
      Within(b, lo, i + 1);
    }
  }

  lemma {:induction false} LowSeg(s: seq<Seg>)
    ensures Low(s) != 0 ==> exists i :: 0 <= i < |s| && s[i].free && s[i].addr == Low(s)
  {
    if s != [] && !s[0].free && Low(s) != 0 {
      LowSeg(s[1..]);
      var i :| 0 <= i < |s[1..]| && s[1..][i].free && s[1..][i].addr == Low(s);
      assert s[i + 1].free && s[i + 1].addr == Low(s);
    } else if s != [] && Low(s) != 0 {
      assert s[0].free && s[0].addr == Low(s);
    }
  }

  lemma LowIn(mem: Memory, s: seq<Seg>, lo: nat, below: nat)
    requires Threaded(mem, s, below) && Laid(s, lo) && lo > 0
    ensures Low(s) == 0 || (Low(s) in mem && Low(s) in Addrs(s))
  {
    Relink(mem, s, lo, below, below);
  }

  lemma NoneThere(h: Heap, end: nat, start: nat, p: nat)
    requires WellFormed(h, end, start) && (p < h.brk || p > start)
    ensures Find(h.segs, p) == |h.segs|
  {
    var i := Find(h.segs, p);
    if i < |h.segs| { Within(h.segs, h.brk, i); }
  }

  lemma SameOrder(s: seq<Seg>, lo: nat, m: nat, i: nat)
    requires Laid(s, lo) && m < |s| && i < |s|
    ensures s[m].addr > s[i].addr <==> m > i
    ensures s[m].addr == s[i].addr <==> m == i
  {
    if m < i { Ordered(s, lo, m, i); }
    if i < m { Ordered(s, lo, i, m); }
  }

  lemma LowOfNone(s: seq<Seg>)
    ensures Low(s[|s|..]) == 0 && LowButOne(s[|s|..]) == 0
  {
  }

  lemma LowAtFree(s: seq<Seg>, m: nat, n: nat)
    requires m < n <= |s| && s[m].free && forall j :: m < j < n ==> !s[j].free
    ensures Low(s[m..]) == s[m].addr && LowButOne(s[m..]) == Low(s[n..])
  {
    assert s[m..][0] == s[m] && s[m..][1..] == s[m + 1..];
    LowSkips(s, m + 1, n);
  }

  lemma {:induction false} TopSkips(s: seq<Seg>, m: nat, n: nat)
    requires m <= n <= |s| && forall j :: m <= j < n ==> !s[j].free
    ensures Top(s[..m], 0) == Top(s[..n], 0)
    decreases n - m
  {
    if m < n {
      TopSkips(s, m, n - 1);
      var t := s[..n - 1];
      assert s[..n] == t + [s[n - 1]];
      ThreadedJoin(map[], t, [s[n - 1]], 0);
    }
  }

  lemma PositiveAddrs(s: seq<Seg>, lo: nat)
    requires Laid(s, lo) && lo > 0
    ensures forall i :: 0 <= i < |s| ==> s[i].addr >= lo
  {
    forall i | 0 <= i < |s| ensures s[i].addr >= lo { Within(s, lo, i); }
  }

  /** The free segment that the walk meets next, below position `n`. */
  lemma NextPiece(s: seq<Seg>, n: nat, lo: nat) returns (m: int)
    requires Laid(s, lo) && lo > 0 && n <= |s|
    ensures -1 <= m < n && (m < 0 <==> Top(s[..n], 0) == 0)
    ensures m >= 0 ==> s[m].free && Top(s[..n], 0) == s[m].addr
    ensures forall j :: m < j < n ==> !s[j].free
  {
    PositiveAddrs(s, lo);
    m := TopAt(s[..n], 0);
    forall j | 0 <= j < n ensures s[..n][j] == s[j] {}
  }

  lemma ExactFound(s: seq<Seg>, len: nat, m: nat, n: nat, lo: nat)
    requires m < n <= |s| && s[m].free && s[m].size == len && (n < |s| ==> s[n].free)
    requires forall j :: m < j < n ==> !s[j].free
    requires forall j :: n <= j < |s| ==> !(s[j].free && s[j].size == len)
    ensures ExactAt(s, len) == m
    ensures Low(s[m + 1..]) == if n == |s| then 0 else s[n].addr
  {
    ExactMeaning(s, len);
    LowSkips(s, m + 1, n);
  }
}
