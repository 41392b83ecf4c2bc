/** Queue.c: a linked queue with a tail pointer and a count, which stands for a sequence. */
module Queue {
  /** QElement; `val` is the word that the union of int and pointer occupies. */
  class QElement {
    var val: nat
    var next: QElement?

    constructor (val: nat)
      ensures this.val == val && next == null
    {
      this.val, next := val, null;
    }
  }

  /** Different elements, each linked to the next one, and the last one to none. */
  ghost predicate Chained(ns: seq<QElement>)
    reads ns
  {
    && (forall i, j :: 0 <= i < j < |ns| ==> ns[i] != ns[j])
    && (forall i :: 0 <= i < |ns| - 1 ==> ns[i].next == ns[i + 1])
    && (ns != [] ==> ns[|ns| - 1].next == null)
  }

  lemma ChainTail(ns: seq<QElement>)
    requires Chained(ns) && ns != []
    ensures Chained(ns[1..]) && (if |ns| > 1 then ns[0].next == ns[1] else ns[0].next == null)
  {
    forall i | 0 <= i < |ns| - 2 ensures ns[1..][i].next == ns[1..][i + 1] {
      assert ns[i + 1].next == ns[i + 2];
    }
  }

  class Queue {
    const isPtrQueue: bool
    var head: QElement?
    var tail: QElement?
    var count: nat
    ghost var nodes: seq<QElement>

    ghost predicate Valid()
      reads this, nodes
    {
      && count == |nodes|
      && Chained(nodes)
      && head == (if nodes == [] then null else nodes[0])
      && tail == (if nodes == [] then null else nodes[|nodes| - 1])
    }

    ghost function Repr(): set<object>
      reads this
    {
      {this as object} + (set n | n in nodes :: n as object)
    }

    /** The queued values, oldest first. */
    ghost function Contents(): (s: seq<nat>)
      reads this, nodes
      ensures |s| == |nodes|
    {
      seq(|nodes|, i requires 0 <= i < |nodes| reads this, nodes => nodes[i].val)
    }

    /** new_int_queue and new_ptr_queue */
    constructor (isPtrQueue: bool)
      ensures Valid() && Contents() == [] && nodes == [] && this.isPtrQueue == isPtrQueue
    {
      this.isPtrQueue, head, tail, count, nodes := isPtrQueue, null, null, 0, [];
    }

    /** enqueue */
    method Link(qe: QElement)
      requires Valid() && qe !in nodes && qe.next == null
      modifies Repr()
      ensures Valid() && nodes == old(nodes) + [qe] && Contents() == old(Contents()) + [qe.val]
    {
      if head == null {
        head := qe;
      } else {
        assert nodes[|nodes| - 1] in nodes;
        tail.next := qe;
      }
      tail := qe;
      count := count + 1;
      nodes := nodes + [qe];
    }

    /** enqueue_int, or enqueue_ptr if `ptr`: a value of the wrong kind is refused. */
    method Enqueue(ptr: bool, val: nat) returns (ok: bool)
      requires Valid()
      modifies Repr()
      ensures Valid() && ok == (ptr == isPtrQueue) && forall o :: o in Repr() ==> o in old(Repr()) || fresh(o)
      ensures Contents() == if ok then old(Contents()) + [val] else old(Contents())
    {
      if ptr != isPtrQueue { return false; }
      var qe := new QElement(val);
      Link(qe);
      ok := true;
    }

    /** dequeue */
    method Unlink() returns (qe: QElement?)
      requires Valid()
      modifies this
      ensures Valid() && qe == old(head) && Repr() <= old(Repr())
      ensures nodes == if qe == null then old(nodes) else old(nodes)[1..]
      ensures Contents() == if qe == null then old(Contents()) else old(Contents())[1..]
    {
      if head == null || count <= 0 { return null; }
      qe := head;
      ChainTail(nodes);
      assert forall n :: n in nodes[1..] ==> n in nodes;
      head := head.next;
      count := count - 1;
      nodes := nodes[1..];
      if head == null {
        tail := null;
        count := 0;
      }
    }

    /** dequeue_int and dequeue_ptr; an empty queue yields 0. */
    method Dequeue() returns (val: nat)
      requires Valid()
      modifies this
      ensures Valid() && Repr() <= old(Repr())
      ensures var s := old(Contents());
        if s == [] then val == 0 && Contents() == [] else val == s[0] && Contents() == s[1..]
    {
      var qe := Unlink();
      val := if qe == null then 0 else qe.val;
    }

    /** queue_peek_int and queue_peek_ptr */
    method Peek() returns (val: nat)
      requires Valid()
      ensures val == if Contents() == [] then 0 else Contents()[0]
    {
      val := if head == null || count == 0 then 0 else head.val;
    }
  }

  // ----- any interleaving of operations

  datatype Op = Put(ptr: bool, val: nat) | Take | Look

  /** A queue as a sequence, with everything that has left it so far. */
  datatype Fifo = Fifo(waiting: seq<nat>, out: seq<nat>)

  function Apply(f: Fifo, isPtr: bool, op: Op): Fifo {
    match op
    case Put(ptr, val) => if ptr == isPtr then f.(waiting := f.waiting + [val]) else f
    case Take => if f.waiting == [] then f else Fifo(f.waiting[1..], f.out + [f.waiting[0]])
    case Look => f
  }

  function ApplyAll(f: Fifo, isPtr: bool, ops: seq<Op>): Fifo
    decreases |ops|
  {
    if ops == [] then f else ApplyAll(Apply(f, isPtr, ops[0]), isPtr, ops[1..])
  }

  /** The values that the operations put in. */
  function Accepted(isPtr: bool, ops: seq<Op>): seq<nat> {
    if ops == [] then []
    else (if ops[0].Put? && ops[0].ptr == isPtr then [ops[0].val] else []) + Accepted(isPtr, ops[1..])
  }

  /** First in, first out: what has left, followed by what is waiting, is what was there and what was
      put in, in order. */
  lemma {:induction false} FirstInFirstOut(f: Fifo, isPtr: bool, ops: seq<Op>)
    ensures var g := ApplyAll(f, isPtr, ops); g.out + g.waiting == f.out + f.waiting + Accepted(isPtr, ops)
    decreases |ops|
  {
    if ops != [] {
      var f' := Apply(f, isPtr, ops[0]);
      FirstInFirstOut(f', isPtr, ops[1..]);
      var head := if ops[0].Put? && ops[0].ptr == isPtr then [ops[0].val] else [];
      assert f'.out + f'.waiting == f.out + f.waiting + head;
    }
  }

  /** The linked queue does what the sequence does, whatever is done with it; `out` are the values
      that its dequeues really returned. */
  method Perform(q: Queue, ops: seq<Op>) returns (out: seq<nat>)
    requires q.Valid()
    modifies q.Repr()
    ensures q.Valid() && Fifo(q.Contents(), out) == ApplyAll(Fifo(old(q.Contents()), []), q.isPtrQueue, ops)
  {
    ghost var goal := ApplyAll(Fifo(q.Contents(), []), q.isPtrQueue, ops);
    out := [];
    var i := 0;
    while i < |ops|
      invariant 0 <= i <= |ops| && q.Valid()
      invariant forall o :: o in q.Repr() ==> o in old(q.Repr()) || fresh(o)
      invariant ApplyAll(Fifo(q.Contents(), out), q.isPtrQueue, ops[i..]) == goal
    {
      assert ops[i..][0] == ops[i] && ops[i..][1..] == ops[i + 1..];
      match ops[i] {
        case Put(ptr, val) => var _ := q.Enqueue(ptr, val);
        case Take =>
          var some := q.count > 0;
          var val := q.Dequeue();
          if some { out := out + [val]; }
        case Look => var _ := q.Peek();
      }
      i := i + 1;
    }
  }
}
