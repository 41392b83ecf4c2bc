/** The headers in memory: how the free list is threaded through a partition of the heap. */
module HeapMemory {
  import opened HeapSegments

  /** struct heap_seg; 0 is the NULL pointer. */
  datatype Header = Header(size: nat, next: nat)

  type Memory = map<nat, Header>

  /** Nothing outside the given headers differs. */
  ghost predicate SameBut(mem: Memory, mem': Memory, headers: set<nat>) {
    forall a :: a !in headers ==> (a in mem <==> a in mem') && (a in mem ==> mem'[a] == mem[a])
  }

  /** The highest free segment, or `below` if there is none. */
  function Top(s: seq<Seg>, below: nat): nat {
    if s == [] then below else Top(s[1..], if s[0].free then s[0].addr else below)
  }

  /** The lowest free segment, or 0. */
  function Low(s: seq<Seg>): nat {
    if s == [] then 0 else if s[0].free then s[0].addr else Low(s[1..])
  }

  /** The lowest free segment but one, or 0. */
  function LowButOne(s: seq<Seg>): nat {
    if s == [] then 0 else if s[0].free then Low(s[1..]) else LowButOne(s[1..])
  }

  /** Every segment has its header; a free one links to the next free one downwards (at the bottom, to
      `below`), a live one links nowhere. */
  ghost predicate Threaded(mem: Memory, s: seq<Seg>, below: nat) {
    s != [] ==>
      && s[0].addr in mem && mem[s[0].addr] == Header(s[0].size, if s[0].free then below else 0)
      && Threaded(mem, s[1..], if s[0].free then s[0].addr else below)
  }

  ghost function Addrs(s: seq<Seg>): set<nat> {
    set i | 0 <= i < |s| :: s[i].addr
  }

  function SetNext(mem: Memory, a: nat, next: nat): Memory {
    if a != 0 && a in mem then mem[a := mem[a].(next := next)] else mem
  }

  // ----- cutting and framing

  lemma {:induction false} ThreadedJoin(mem: Memory, a: seq<Seg>, b: seq<Seg>, below: nat)
    ensures Threaded(mem, a + b, below) <==> Threaded(mem, a, below) && Threaded(mem, b, Top(a, below))
    ensures Top(a + b, below) == Top(b, Top(a, below))
  {
    if a == [] {
      assert a + b == b;
    } else {
      assert (a + b)[1..] == a[1..] + b;
      ThreadedJoin(mem, a[1..], b, if a[0].free then a[0].addr else below);
    }
  }

  lemma ThreadedCut(mem: Memory, a: seq<Seg>, x: Seg, b: seq<Seg>, below: nat)
    ensures var t := Top(a, below);
      Threaded(mem, a + [x] + b, below) <==>
        (&& Threaded(mem, a, below)
         && x.addr in mem && mem[x.addr] == Header(x.size, if x.free then t else 0)
         && Threaded(mem, b, if x.free then x.addr else t))
    ensures Top(a + [x] + b, below) == Top(b, if x.free then x.addr else Top(a, below))
  {
    ThreadedJoin(mem, a + [x], b, below);
    ThreadedJoin(mem, a, [x], below);
    assert [x][1..] == [];
  }

  lemma {:induction false} ThreadedFrame(mem: Memory, mem': Memory, s: seq<Seg>, below: nat)
    requires Threaded(mem, s, below)
    requires forall a :: a in Addrs(s) && a in mem ==> a in mem' && mem'[a] == mem[a]
    ensures Threaded(mem', s, below)
  {
    if s != [] {
      assert s[0].addr in Addrs(s);
      forall a | a in Addrs(s[1..]) ensures a in Addrs(s) {
        var i :| 0 <= i < |s[1..]| && s[1..][i].addr == a;
        assert s[i + 1].addr == a;
      }
      ThreadedFrame(mem, mem', s[1..], if s[0].free then s[0].addr else below);
    }
  }

  /** Redirecting the lowest link redirects the whole thread. */
  lemma {:induction false} Relink(mem: Memory, s: seq<Seg>, lo: nat, below: nat, below': nat)
    requires Threaded(mem, s, below) && Laid(s, lo) && lo > 0
    ensures Threaded(SetNext(mem, Low(s), below'), s, below')
    ensures Top(s, below') == if Low(s) == 0 then below' else Top(s, below)
    ensures Low(s) == 0 ==> Top(s, below) == below
    ensures Low(s) != 0 ==> Low(s) in Addrs(s) && Low(s) in mem && mem[Low(s)].next == below
  {
    if s != [] {
      NotAbove(s, lo);
      var mem' := SetNext(mem, Low(s), below');
      if s[0].free {
        assert s[0].addr in Addrs(s);
        ThreadedFrame(mem, mem', s[1..], s[0].addr);
      } else {
        Relink(mem, s[1..], End(s[0]), below, below');
        if Low(s) != 0 {
          var i :| 0 <= i < |s[1..]| && s[1..][i].addr == Low(s);
          assert s[i + 1].addr == Low(s);
        }
      }
    }
  }

  lemma NotAbove(s: seq<Seg>, lo: nat)
    requires Laid(s, lo) && s != []
    ensures forall a :: a in Addrs(s[1..]) ==> a > s[0].addr
  {
    forall a | a in Addrs(s[1..]) ensures a > s[0].addr {
      var i :| 0 <= i < |s[1..]| && s[1..][i].addr == a;
      Ordered(s, lo, 0, i + 1);
    }
  }

  /** No segment beside `x` shares its address. */
  lemma Apart(a: seq<Seg>, x: Seg, b: seq<Seg>, lo: nat)
    requires Laid(a + [x] + b, lo)
    ensures forall q :: q in Addrs(a) ==> q < x.addr
    ensures forall q :: q in Addrs(b) ==> q > x.addr
    ensures Laid(a, lo) && Laid(b, End(x)) && x.addr >= lo
    ensures lo > 0 ==> 0 !in Addrs(a) && 0 !in Addrs(b)
  {
    var s := a + [x] + b;
    Cut(a, [x], b, lo);
    assert s[|a|] == x;
    forall q | q in Addrs(a) ensures q < x.addr && (lo > 0 ==> q > 0) {
      var i :| 0 <= i < |a| && a[i].addr == q;
      assert s[i] == a[i];
      Ordered(s, lo, i, |a|);
      Within(s, lo, i);
    }
    forall q | q in Addrs(b) ensures q > x.addr {
      var i :| 0 <= i < |b| && b[i].addr == q;
      assert s[|a| + 1 + i] == b[i];
      Ordered(s, lo, |a|, |a| + 1 + i);
    }
  }

  // ----- the updates of kmalloc and kfree

  /** A live segment is linked in: its header links down, and the free one above it links to it. */
  lemma LinkedIn(mem: Memory, a: seq<Seg>, x: Seg, b: seq<Seg>, lo: nat)
    requires Threaded(mem, a + [x] + b, 0) && Laid(a + [x] + b, lo) && lo > 0 && !x.free
    ensures var y, mem' := x.(free := true), SetNext(mem[x.addr := Header(x.size, Top(a, 0))], Low(b), x.addr);
      && Threaded(mem', a + [y] + b, 0)
      && Top(a + [y] + b, 0) == if Low(b) == 0 then x.addr else Top(a + [x] + b, 0)
    ensures Low(b) == 0 ==> Top(a + [x] + b, 0) == Top(a, 0)
    ensures Low(b) != 0 ==> Low(b) in mem && mem[Low(b)].next == Top(a, 0) && Low(b) in Addrs(b)
  {
    var t, y := Top(a, 0), x.(free := true);
    ThreadedCut(mem, a, x, b, 0);
    Apart(a, x, b, lo);
    var mem1 := mem[x.addr := Header(x.size, t)];
    ThreadedFrame(mem, mem1, b, t);
    Relink(mem1, b, End(x), t, x.addr);
    Relink(mem, b, End(x), t, x.addr);
    var mem' := SetNext(mem1, Low(b), x.addr);
    ThreadedFrame(mem, mem', a, 0);
    ThreadedCut(mem', a, y, b, 0);
  }

  /** A free segment is taken off the list. */
  lemma LinkedOut(mem: Memory, a: seq<Seg>, x: Seg, b: seq<Seg>, lo: nat)
    requires Threaded(mem, a + [x] + b, 0) && Laid(a + [x] + b, lo) && lo > 0 && x.free
    ensures x.addr in mem && mem[x.addr].next == Top(a, 0)
    ensures var y, mem' := x.(free := false), SetNext(mem, Low(b), Top(a, 0))[x.addr := Header(x.size, 0)];
      && Threaded(mem', a + [y] + b, 0)
      && Top(a + [y] + b, 0) == if Low(b) == 0 then Top(a, 0) else Top(a + [x] + b, 0)
    ensures Low(b) == 0 ==> Top(a + [x] + b, 0) == x.addr
    ensures Low(b) != 0 ==> Low(b) in mem && mem[Low(b)].next == x.addr && Low(b) in Addrs(b)
  {
    var t, y := Top(a, 0), x.(free := false);
    ThreadedCut(mem, a, x, b, 0);
    Apart(a, x, b, lo);
    Relink(mem, b, End(x), x.addr, t);
    var mem1 := SetNext(mem, Low(b), t);
    var mem' := mem1[x.addr := Header(x.size, 0)];
    ThreadedFrame(mem1, mem', b, t);
    ThreadedFrame(mem, mem', a, 0);
    ThreadedCut(mem', a, y, b, 0);
  }

  /** Two free neighbours become one, under the lower one's header. */
  lemma Fused(mem: Memory, a: seq<Seg>, x: Seg, y: Seg, b: seq<Seg>, lo: nat)
    requires Threaded(mem, a + [x] + ([y] + b), 0) && Laid(a + [x] + ([y] + b), lo) && lo > 0 && x.free && y.free
    ensures x.addr in mem && mem[x.addr] == Header(x.size, Top(a, 0)) && y.addr in mem && mem[y.addr].size == y.size
    ensures var z := x.(size := x.size + H + y.size);
      var mem1 := mem[x.addr := Header(z.size, mem[x.addr].next)][y.addr := Header(0, 0)];
      var mem' := SetNext(mem1, Low(b), x.addr);
      && Threaded(mem', a + [z] + b, 0)
      && Top(a + [z] + b, 0) == if Low(b) == 0 then x.addr else Top(a + [x] + ([y] + b), 0)
    ensures Low(b) != 0 ==> Low(b) in mem && Low(b) in Addrs(b) && Low(b) != x.addr && Low(b) != y.addr
    ensures y.addr == End(x) && x.addr > 0
  {
    var t, z := Top(a, 0), x.(size := x.size + H + y.size);
    ThreadedCut(mem, a, x, [y] + b, 0);
    ThreadedJoin(mem, [y], b, x.addr);
    assert [y][1..] == [] && ([y] + b)[1..] == b && ([y] + b)[0] == y;
    Apart(a, x, [y] + b, lo);
    NotAbove([y] + b, End(x));
    assert y.addr in Addrs([y] + b);
    var mem1 := mem[x.addr := Header(z.size, t)][y.addr := Header(0, 0)];
    InTail(y, b);
    ThreadedFrame(mem, mem1, b, y.addr);
    Relink(mem1, b, End(y), y.addr, x.addr);
    Relink(mem, b, End(y), y.addr, x.addr);
    var mem' := SetNext(mem1, Low(b), x.addr);
    ThreadedFrame(mem, mem', a, 0);
    ThreadedCut(mem', a, z, b, 0);
  }

  lemma InTail(y: Seg, b: seq<Seg>)
    ensures forall q :: q in Addrs(b) ==> q in Addrs([y] + b)
    ensures y.addr in Addrs([y] + b)
  {
    forall q | q in Addrs(b) ensures q in Addrs([y] + b) {
      var i :| 0 <= i < |b| && b[i].addr == q;
      assert ([y] + b)[i + 1].addr == q;
    }
    assert ([y] + b)[0].addr == y.addr;
  }

  /** The lowest segment, which is free, leaves the heap. */
  lemma Dropped(mem: Memory, x: Seg, b: seq<Seg>, lo: nat)
    requires Threaded(mem, [x] + b, 0) && Laid([x] + b, lo) && lo > 0 && x.free
    ensures var mem' := SetNext(mem[x.addr := Header(0, 0)], Low(b), 0);
      && Threaded(mem', b, 0) && Top(b, 0) == if Low(b) == 0 then 0 else Top([x] + b, 0)
    ensures x.addr in mem && mem[x.addr] == Header(x.size, 0)
    ensures Low(b) != 0 ==> Low(b) in mem && Low(b) in Addrs(b) && Low(b) != x.addr
  {
    assert [] + [x] + b == [x] + b;
    ThreadedCut(mem, [], x, b, 0);
    Apart([], x, b, lo);
    var mem1 := mem[x.addr := Header(0, 0)];
    ThreadedFrame(mem, mem1, b, x.addr);
    Relink(mem1, b, End(x), x.addr, 0);
    Relink(mem, b, End(x), x.addr, 0);
  }

  /** A free segment gives up its upper end to a new live one. */
  lemma SplitOff(mem: Memory, a: seq<Seg>, x: Seg, b: seq<Seg>, lo: nat, len: nat)
    requires Threaded(mem, a + [x] + b, 0) && Laid(a + [x] + b, lo) && lo > 0 && Splittable(x, len)
    ensures x.addr in mem && mem[x.addr].size == x.size
    ensures var rest := Rest(x, len);
      var mem' := mem[x.addr := Header(rest.size, mem[x.addr].next)][End(rest) := Header(len, 0)];
      && Threaded(mem', a + [rest, Seg(End(rest), len, false)] + b, 0)
      && Top(a + [rest, Seg(End(rest), len, false)] + b, 0) == Top(a + [x] + b, 0)
  {
    var rest := Rest(x, len);
    var y := Seg(End(rest), len, false);
    ThreadedCut(mem, a, x, b, 0);
    var mem' := mem[x.addr := Header(rest.size, mem[x.addr].next)][y.addr := Header(len, 0)];
    Apart(a, x, b, lo);
    BeyondEnd(b, End(x));
    ThreadedFrame(mem, mem', a, 0);
    ThreadedFrame(mem, mem', b, x.addr);
    assert ([y] + b)[1..] == b && ([y] + b)[0] == y;
    ThreadedCut(mem', a, rest, [y] + b, 0);
    assert a + [rest] + ([y] + b) == a + [rest, y] + b;
  }

  lemma BeyondEnd(b: seq<Seg>, lo: nat)
    requires Laid(b, lo)
    ensures forall q :: q in Addrs(b) ==> q >= lo
  {
    forall q | q in Addrs(b) ensures q >= lo {
      var i :| 0 <= i < |b| && b[i].addr == q;
      Within(b, lo, i);
    }
  }

  /** The heap grows downwards by a live segment. */
  lemma Grown(mem: Memory, s: seq<Seg>, lo: nat, x: Seg)
    requires Threaded(mem, s, 0) && Laid(s, lo) && End(x) == lo && !x.free
    ensures Threaded(mem[x.addr := Header(x.size, 0)], [x] + s, 0) && Top([x] + s, 0) == Top(s, 0)
  {
    BeyondEnd(s, lo);
    ThreadedFrame(mem, mem[x.addr := Header(x.size, 0)], s, 0);
    assert ([x] + s)[1..] == s;
  }

  // ----- walking the list

  /** Where `Top` points. */
  lemma {:induction false} TopAt(s: seq<Seg>, below: nat) returns (m: int)
    ensures -1 <= m < |s|
    ensures m < 0 ==> Top(s, below) == below && forall j :: 0 <= j < |s| ==> !s[j].free
    ensures m >= 0 ==> s[m].free && Top(s, below) == s[m].addr && forall j :: m < j < |s| ==> !s[j].free
  {
    if s == [] { return -1; }
    m := TopAt(s[1..], if s[0].free then s[0].addr else below);
    assert forall j :: 0 < j < |s| ==> s[j] == s[1..][j - 1];
    m := if m >= 0 then m + 1 else if s[0].free then 0 else -1;
  }

  lemma HeaderAt(mem: Memory, s: seq<Seg>, i: nat)
    requires Threaded(mem, s, 0) && i < |s|
    ensures s[i].addr in mem && mem[s[i].addr] == Header(s[i].size, if s[i].free then Top(s[..i], 0) else 0)
  {
    Whole(s, i);
    ThreadedCut(mem, s[..i], s[i], s[i + 1..], 0);
  }

  lemma {:induction false} LowSkips(s: seq<Seg>, m: nat, n: nat)
    requires m <= n <= |s| && forall j :: m <= j < n ==> !s[j].free
    ensures Low(s[m..]) == Low(s[n..]) && LowButOne(s[m..]) == LowButOne(s[n..])
    decreases n - m
  {
    if m < n {
      assert s[m..][0] == s[m] && s[m..][1..] == s[m + 1..];
      LowSkips(s, m + 1, n);
    }
  }

  // ----- the list itself

  /** The addresses that the links visit. */
  ghost function FreeList(s: seq<Seg>): seq<nat> {
    if s == [] then [] else FreeList(s[1..]) + (if s[0].free then [s[0].addr] else [])
  }

  /** Following the links from `a` visits `list` and ends in NULL. */
  ghost predicate Visits(mem: Memory, a: nat, list: seq<nat>)
    decreases |list|
  {
    if list == [] then a == 0 else a == list[0] && a != 0 && a in mem && Visits(mem, mem[a].next, list[1..])
  }

  lemma {:induction false} VisitsMore(mem: Memory, s: seq<Seg>, lo: nat, below: nat, rest: seq<nat>)
    requires Threaded(mem, s, below) && Laid(s, lo) && lo > 0 && Visits(mem, below, rest)
    ensures Visits(mem, Top(s, below), FreeList(s) + rest)
  {
    if s == [] {
      assert FreeList(s) + rest == rest;
    } else if s[0].free {
      assert ([s[0].addr] + rest)[1..] == rest;
      VisitsMore(mem, s[1..], End(s[0]), s[0].addr, [s[0].addr] + rest);
      assert FreeList(s) + rest == FreeList(s[1..]) + ([s[0].addr] + rest);
    } else {
      VisitsMore(mem, s[1..], End(s[0]), below, rest);
      assert FreeList(s) == FreeList(s[1..]);
    }
  }

  lemma {:induction false} ListIs(s: seq<Seg>, lo: nat)
    requires Laid(s, lo)
    ensures forall i, j :: 0 <= i < j < |FreeList(s)| ==> FreeList(s)[i] > FreeList(s)[j]
    ensures forall q :: q in FreeList(s) <==> exists i :: 0 <= i < |s| && s[i].free && s[i].addr == q
    ensures forall q :: q in FreeList(s) ==> q >= lo
  {
    if s != [] {
      ListIs(s[1..], End(s[0]));
      var list, tail := FreeList(s), FreeList(s[1..]);
      assert forall q :: q in list <==> q in tail || (s[0].free && q == s[0].addr);
      forall q | q in list ensures exists i :: 0 <= i < |s| && s[i].free && s[i].addr == q {
        if q in tail {
          var i :| 0 <= i < |s[1..]| && s[1..][i].free && s[1..][i].addr == q;
          assert s[i + 1] == s[1..][i];
        }
      }
      forall i | 0 <= i < |s| && s[i].free ensures s[i].addr in list {
        if i > 0 { assert s[i] == s[1..][i - 1]; }
      }
      forall i, j | 0 <= i < j < |list| ensures list[i] > list[j] {
        assert list[i] == tail[i];
        if j < |tail| { assert list[j] == tail[j]; }
        assert tail[i] in tail;
      }
    }
  }

  /** From the head, the links visit every free segment once, in strictly descending order, and no other. */
  lemma FreeListInMemory(mem: Memory, s: seq<Seg>, lo: nat)
    requires Threaded(mem, s, 0) && Laid(s, lo) && lo > 0
    ensures Visits(mem, Top(s, 0), FreeList(s))
    ensures forall i, j :: 0 <= i < j < |FreeList(s)| ==> FreeList(s)[i] > FreeList(s)[j]
    ensures forall q :: q in FreeList(s) <==> exists i :: 0 <= i < |s| && s[i].free && s[i].addr == q
  {
    VisitsMore(mem, s, lo, 0, []);
    assert FreeList(s) + [] == FreeList(s);
    ListIs(s, lo);
  }
}
