/** PtrList.c: a linked list whose first entry is embedded, so that it stays where it is. */
module PtrList {
  /** struct ptrlist; 0 is the NULL pointer. */
  class Entry {
    var ptr: nat
    var next: Entry?

    constructor (ptr: nat)
      ensures this.ptr == ptr && next == null
    {
      this.ptr, next := ptr, null;
    }
  }

  /** Different entries, each linked to the next one, and the last one to none. */
  ghost predicate Chained(ns: seq<Entry>)
    reads ns
  {
    && ns != []
    && (forall i, j :: 0 <= i < j < |ns| ==> ns[i] != ns[j])
    && (forall i :: 0 <= i < |ns| - 1 ==> ns[i].next == ns[i + 1])
    && ns[|ns| - 1].next == null
  }

  ghost function Ptrs(ns: seq<Entry>): (s: seq<nat>)
    reads ns
    ensures |s| == |ns| && forall i :: 0 <= i < |ns| ==> s[i] == ns[i].ptr
  {
    seq(|ns|, i requires 0 <= i < |ns| reads ns => ns[i].ptr)
  }

  lemma LinkAt(ns: seq<Entry>, i: nat)
    requires Chained(ns) && i < |ns|
    ensures if i + 1 < |ns| then ns[i].next == ns[i + 1] && ns[i].next != null else ns[i].next == null
    ensures ns[i] in ns
  {
  }

  /** Leaving out one entry keeps the rest chained, once its predecessor skips it. */
  lemma Relinked(ns: seq<Entry>, ns': seq<Entry>, k: nat)
    requires 0 < k < |ns| && ns' == ns[..k] + ns[k + 1..]
    requires forall i, j :: 0 <= i < j < |ns| ==> ns[i] != ns[j]
    requires forall i :: 0 <= i < |ns| - 1 && i != k - 1 ==> ns[i].next == ns[i + 1]
    requires k < |ns| - 1 ==> ns[|ns| - 1].next == null
    requires if k + 1 < |ns| then ns[k - 1].next == ns[k + 1] else ns[k - 1].next == null
    ensures Chained(ns')
    ensures forall n :: n in ns' ==> n in ns
  {
    forall i | 0 <= i < |ns'| - 1 ensures ns'[i].next == ns'[i + 1] {
      var j := if i < k then i else i + 1;
      assert ns'[i] == ns[j];
      if i == k - 1 {
        assert ns'[i + 1] == ns[k + 1];
      } else {
        assert ns'[i + 1] == ns[j + 1] && ns[j].next == ns[j + 1];
      }
    }
  }

  /** The items after the second one has been copied over the first. */
  lemma CopiedPtrs(ns: seq<Entry>, ns': seq<Entry>, ptrs: seq<nat>)
    requires |ns| == |ptrs| > 1 && ns' == ns[..1] + ns[2..] && ns[0].ptr == ptrs[1]
    requires forall i :: 1 < i < |ns| ==> ns[i].ptr == ptrs[i]
    ensures Ptrs(ns') == ptrs[1..]
  {
    forall i | 0 <= i < |ns'| ensures ns'[i].ptr == ptrs[1..][i] {
      assert i > 0 ==> ns'[i] == ns[i + 1];
    }
  }

  /** The items after one entry has been left out. */
  lemma LessOne(ns: seq<Entry>, ns': seq<Entry>, ptrs: seq<nat>, k: nat)
    requires k < |ns| == |ptrs| && ns' == ns[..k] + ns[k + 1..]
    requires forall i :: 0 <= i < |ns| && i != k ==> ns[i].ptr == ptrs[i]
    ensures Ptrs(ns') == ptrs[..k] + ptrs[k + 1..]
  {
    forall i | 0 <= i < |ns'| ensures ns'[i].ptr == (ptrs[..k] + ptrs[k + 1..])[i] {
      assert ns'[i] == if i < k then ns[i] else ns[i + 1];
    }
  }

  /** Entries that keep their links and a last one that is new stay chained. */
  lemma ChainedMore(ns: seq<Entry>, e: Entry)
    requires ns != [] && e !in ns && e.next == null && ns[|ns| - 1].next == e
    requires forall i, j :: 0 <= i < j < |ns| ==> ns[i] != ns[j]
    requires forall i :: 0 <= i < |ns| - 1 ==> ns[i].next == ns[i + 1]
    ensures Chained(ns + [e])
  {
    var t := ns + [e];
    forall i | 0 <= i < |t| - 1 ensures t[i].next == t[i + 1] {
      assert i < |ns| - 1 ==> ns[i].next == ns[i + 1];
    }
  }

  lemma Links(ns: seq<Entry>)
    requires Chained(ns)
    ensures forall i, j :: 0 <= i < j < |ns| ==> ns[i] != ns[j]
    ensures forall i :: 0 <= i < |ns| - 1 ==> ns[i].next == ns[i + 1]
    ensures ns != [] && ns[|ns| - 1].next == null
  {
  }

  lemma LaterDiffer(ns: seq<Entry>)
    requires Chained(ns)
    ensures forall i :: 0 < i < |ns| ==> ns[i] != ns[0]
    ensures forall i :: 0 <= i < |ns| - 1 ==> ns[i] != ns[|ns| - 1]
  {
  }

  class List {
    const head: Entry
    ghost var nodes: seq<Entry>

    ghost function Repr(): set<object>
      reads this
    {
      {this as object} + (set n | n in nodes :: n as object)
    }

    /** The head is the first entry. An empty list is a head that points to nothing. */
    ghost predicate Valid()
      reads this, nodes
    {
      Chained(nodes) && nodes[0] == head && (|nodes| > 1 ==> 0 !in Ptrs(nodes))
    }

    /** The listed pointers, in order. */
    ghost function Items(): (s: seq<nat>)
      reads this, nodes
      requires Valid()
      ensures s == [] || |s| == |nodes|
    {
      if nodes[0].ptr == 0 then [] else Ptrs(nodes)
    }

    constructor ()
      ensures Valid() && Items() == [] && forall o :: o in Repr() ==> fresh(o)
    {
      head := new Entry(0);
      new;
      nodes := [head];
    }

    /** ptrlist_cnext: the next entry, and the head again after the last one. */
    method CNext(current: Entry, ghost i: nat) returns (e: Entry)
      requires Valid() && i < |nodes| && nodes[i] == current
      ensures e == nodes[(i + 1) % |nodes|]
    {
      if current.next == null {
        e := head;
      } else {
        e := current.next;
      }
    }

    /** ptrlist_findtail */
    method FindTail() returns (e: Entry)
      requires Valid()
      ensures e == nodes[|nodes| - 1]
    {
      e := head;
      ghost var i := 0;
      while e.next != null
        invariant 0 <= i < |nodes| && e == nodes[i]
        decreases |nodes| - i
      {
        LinkAt(nodes, i);
        e := e.next;
        i := i + 1;
      }
      LinkAt(nodes, i);
    }

    /** ptrlist_add */
    method Add(ptr: nat) returns (e: Entry)
      requires Valid() && ptr != 0
      modifies Repr()
      ensures Valid() && Items() == old(Items()) + [ptr] && e == nodes[|nodes| - 1]
      ensures forall o :: o in Repr() ==> o in old(Repr()) || fresh(o)
    {
      LinkAt(nodes, 0);
      LinkAt(nodes, |nodes| - 1);
      if head.ptr == 0 && head.next == null {
        head.ptr := ptr;
        return head;
      }
      e := AddAtTail(ptr);
    }

    method AddAtTail(ptr: nat) returns (e: Entry)
      requires Valid() && ptr != 0 && Items() != []
      modifies Repr()
      ensures Valid() && Items() == old(Items()) + [ptr] && e == nodes[|nodes| - 1]
      ensures forall o :: o in Repr() ==> o in old(Repr()) || fresh(o)
    {
      LinkAt(nodes, |nodes| - 1);
      LaterDiffer(nodes);
      ghost var ptrs := Ptrs(nodes);
      e := new Entry(ptr);
      var tail := FindTail();
      tail.next := e;
      ChainedMore(nodes, e);
      nodes := nodes + [e];
      hide Chained;
      assert Ptrs(nodes) == ptrs + [ptr];
    }

    /** ptrlist_find: the entry of the first occurrence, or null. */
    method Find(ptr: nat) returns (e: Entry?)
      requires Valid() && ptr != 0
      ensures e == null ==> ptr !in Items()
      ensures e != null ==>
        exists i :: 0 <= i < |Items()| && nodes[i] == e && Items()[i] == ptr && ptr !in Items()[..i]
    {
      e := head;
      ghost var i := 0;
      while e != null && e.ptr != ptr
        invariant 0 <= i <= |nodes| && e == (if i < |nodes| then nodes[i] else null)
        invariant forall j :: 0 <= j < i ==> nodes[j].ptr != ptr
        decreases |nodes| - i
      {
        e := e.next;
        i := i + 1;
      }
      if e != null {
        assert Items()[i] == ptr && ptr !in Items()[..i];
      }
    }

    /** The successor of the head is copied into it. */
    method CopyNext(temp: Entry)
      requires Valid() && |nodes| > 1 && head.next == temp
      modifies Repr()
      ensures Valid() && Items() == old(Items())[1..] && Repr() <= old(Repr())
    {
      hide Chained, Ptrs;
      LinkAt(nodes, 0);
      LinkAt(nodes, 1);
      Links(nodes);
      ghost var ns, ptrs := nodes, Ptrs(nodes);
      head.ptr := temp.ptr;
      head.next := temp.next;
      nodes := [head] + nodes[2..];
      assert nodes == ns[..1] + ns[2..];
      Relinked(ns, nodes, 1);
      CopiedPtrs(ns, nodes, ptrs);
    }

    /** ptrlist_remove of the head. */
    method RemoveHead()
      requires Valid()
      modifies Repr()
      ensures Valid() && Items() == (if old(Items()) == [] then [] else old(Items())[1..]) && Repr() <= old(Repr())
    {
      LinkAt(nodes, 0);
      var temp := head.next;
      if temp == null {
        head.ptr := 0;
        head.next := null;
        assert |old(Items())| <= 1;
      } else {
        CopyNext(temp);
      }
    }

    method RemoveAfter(before: Entry, ghost i: nat)
      requires Valid() && 0 < i < |nodes| && before == nodes[i - 1]
      modifies Repr()
      ensures Valid() && i < |old(Items())| && Items() == old(Items())[..i] + old(Items())[i + 1..]
      ensures Repr() <= old(Repr())
    {
      LinkAt(nodes, i - 1);
      LinkAt(nodes, i);
      ghost var ptrs := Ptrs(nodes);
      before.next := before.next.next;
      nodes := nodes[..i] + nodes[i + 1..];
      Relinked(old(nodes), nodes, i);
      hide Chained, Ptrs;
      LessOne(old(nodes), nodes, ptrs, i);
    }

    /** The entry before `e`, or null. */
    method FindBefore(e: Entry) returns (before: Entry?, ghost i: nat)
      requires Valid() && e != head
      ensures before == null ==> e !in nodes
      ensures before != null ==> i + 1 < |nodes| && before == nodes[i] && e == nodes[i + 1]
    {
      before, i := head, 0;
      while before != null && before.next != e
        invariant 0 <= i <= |nodes| && before == (if i < |nodes| then nodes[i] else null)
        invariant e !in nodes[..i] && (i < |nodes| ==> nodes[i] != e)
        decreases |nodes| - i
      {
        LinkAt(nodes, i);
        before := before.next;
        i := i + 1;
      }
      if before == null {
        assert nodes[..i] == nodes;
      } else {
        LinkAt(nodes, i);
      }
    }

    /** ptrlist_remove: deletes one entry and keeps the order of the others; false if it is not there.
        Removing the head of an empty list leaves it empty. */
    method Remove(e: Entry) returns (ok: bool, ghost at: nat)
      requires Valid()
      modifies Repr()
      ensures Valid() && ok == (e in old(nodes)) && Repr() <= old(Repr())
      ensures !ok ==> Items() == old(Items())
      ensures old(Items()) == [] ==> Items() == []
      ensures ok && old(Items()) != [] ==>
        && at < |old(Items())| == |old(nodes)| && old(nodes)[at] == e
        && Items() == old(Items())[..at] + old(Items())[at + 1..]
    {
      hide Chained;
      HeadIsFirst();
      if e == head {
        RemoveHead();
        return true, 0;
      }
      var before;
      ghost var i;
      before, i := FindBefore(e);
      if before == null { return false, 0; }
      RemoveAfter(before, i + 1);
      ok, at := true, i + 1;
    }

    lemma HeadIsFirst()
      requires Valid()
      ensures nodes != [] && nodes[0] == head && head in nodes
    {
      LinkAt(nodes, 0);
    }
  }

  /** Removing what was just added gives back the list. */
  method AddThenRemove(l: List, ptr: nat)
    requires l.Valid() && ptr != 0
    modifies l.Repr()
    ensures l.Valid() && l.Items() == old(l.Items())
  {
    var e := l.Add(ptr);
    ghost var s := l.Items();
    var ok, at := l.Remove(e);
    assert l.Items() == s[..|s| - 1] + s[|s|..];
  }
}
