/** The payloads of live blocks: no header is ever written into one. */
module HeapPayloads {
  import opened HeapSegments
  import opened HeapMemory
  import opened HeapLaws

  /** The header at `q` was written: it appeared, disappeared or changed. */
  predicate Rewritten(mem: Memory, mem': Memory, q: nat) {
    (q in mem && q in mem' && mem[q] != mem'[q]) || (q in mem) != (q in mem')
  }

  /** No header that was written overlaps the payload of block `g`. */
  ghost predicate Spares(mem: Memory, mem': Memory, g: Seg) {
    forall q: nat :: Rewritten(mem, mem', q) ==> q + H <= g.addr + H || End(g) <= q
  }

  /** That holds of every block that is live before and after. */
  ghost predicate SparesLive(mem: Memory, mem': Memory, s: seq<Seg>, s': seq<Seg>) {
    forall g :: g in Live(s) && g in Live(s') ==> Spares(mem, mem', g)
  }

  lemma SparesTwice(a: Memory, b: Memory, c: Memory, g: Seg)
    requires Spares(a, b, g) && Spares(b, c, g)
    ensures Spares(a, c, g)
  {
    forall q: nat | Rewritten(a, c, q) ensures q + H <= g.addr + H || End(g) <= q {
      assert Rewritten(a, b, q) || Rewritten(b, c, q);
    }
  }

  /** The headers of a partition lie beside the payloads of its live blocks. */
  lemma HeaderBeside(h: Heap, end: nat, start: nat, g: Seg, q: nat)
    requires WellFormed(h, end, start) && g in Live(h.segs) && q in Addrs(h.segs)
    ensures q + H <= g.addr + H || End(g) <= q
  {
    var i :| 0 <= i < |h.segs| && h.segs[i] == g;
    var j :| 0 <= j < |h.segs| && h.segs[j].addr == q;
    BlocksDisjoint(h, end, start, i, j);
  }

  /** Writes that go to headers of the old and of the new partition spare every block live in both. */
  lemma PayloadsUntouched(h: Heap, h': Heap, end: nat, start: nat, mem: Memory, mem': Memory, qs: set<nat>)
    requires WellFormed(h, end, start) && WellFormed(h', end, start) && SameBut(mem, mem', qs)
    requires qs <= Addrs(h.segs) + Addrs(h'.segs)
    ensures SparesLive(mem, mem', h.segs, h'.segs)
  {
    hide WellFormed, Live, Addrs;
    forall g, q: nat | g in Live(h.segs) && g in Live(h'.segs) && Rewritten(mem, mem', q)
      ensures q + H <= g.addr + H || End(g) <= q
    {
      assert q in qs;
      if q in Addrs(h.segs) { HeaderBeside(h, end, start, g, q); }
      else { HeaderBeside(h', end, start, g, q); }
    }
  }

  /** So the writes of kmalloc do: the one new header is that of the block it returns. */
  lemma MallocSpares(h: Heap, end: nat, start: nat, len: nat, mem: Memory, mem': Memory, qs: set<nat>)
    requires WellFormed(h, end, start) && SameBut(mem, mem', qs)
    requires var p := Malloc(h, end, len).1; qs <= Addrs(h.segs) + if p < H then {} else {p - H}
    ensures SparesLive(mem, mem', h.segs, Malloc(h, end, len).0.segs)
  {
    hide WellFormed, Addrs, Live, Malloc, ExactAt, BestAt;
    var (h', p) := Malloc(h, end, len);
    MallocWellFormed(h, end, start, len);
    if p >= H {
      MallocLive(h, end, start, len);
      LiveAddr(h'.segs, Seg(p - H, len, false));
    }
    PayloadsUntouched(h, h', end, start, mem, mem', qs);
  }

  lemma LiveAddr(s: seq<Seg>, g: Seg)
    requires g in Live(s)
    ensures g.addr in Addrs(s)
  {
    var i :| 0 <= i < |s| && s[i] == g;
    assert s[i].addr in Addrs(s);
  }

  /** And those of kfree. */
  lemma FreeSpares(h: Heap, end: nat, start: nat, p: nat, mem: Memory, mem': Memory)
    requires WellFormed(h, end, start) && SameBut(mem, mem', Addrs(h.segs))
    ensures SparesLive(mem, mem', h.segs, Free(h, p).segs)
  {
    FreeWellFormed(h, end, start, p);
    hide WellFormed, Addrs, Free;
    PayloadsUntouched(h, Free(h, p), end, start, mem, mem', Addrs(h.segs));
  }
}
