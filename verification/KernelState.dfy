/** The whole kernel state as a value, and how wait queues and task states have to agree. */
module KernelState {
  import opened KernelTypes

  /** `last` is the list position of Last_Dispatched. `clock` totals the ticks handled so far and is
      history. `pd` also keeps the descriptors of terminated tasks, which are never freed. */
  datatype KState = KState(
    order: seq<Pid>, pd: map<Pid, PD>, current: Pid, last: nat, ticks: nat, clock: nat,
    muts: seq<Mut>, sems: seq<Sem>, mbs: seq<Mb>, egs: seq<bv16>,
    lastPid: nat, cswitch: bool, err: ErrorCode)

  ghost predicate MutShape(m: Mut, pd: map<Pid, PD>) {
    && |m.waiters| == |m.origs|
    && (m.owner != 0 <==> m.lockCount > 0)
    && (m.waiters != [] ==> m.owner != 0)
    && (m.owner != 0 ==> m.owner in pd)
    && (forall p :: p in m.waiters ==> p in pd)
  }

  ghost predicate MbShape(b: Mb, pd: map<Pid, PD>) {
    && (forall p :: p in b.send ==> p in pd)
    && (forall p :: p in b.recv ==> p in pd)
  }

  ghost predicate SemShape(m: Sem, pd: map<Pid, PD>) {
    forall p :: p in m.waiters ==> p in pd
  }

  /** A suspended task remembers a state that it can resume to. */
  predicate CanThaw(d: PD) {
    d.state == SUSPENDED ==> d.lastState == READY || d.lastState == SLEEPING
  }

  /** Waiting for nothing. The running task is awake even when it has suspended itself. */
  predicate Awake(d: PD) {
    d.state == RUNNING || d.state == READY || (d.state == SUSPENDED && d.lastState == READY)
  }

  ghost predicate ListShape(s: KState) {
    && (forall p :: p in s.pd <==> 1 <= p <= s.lastPid)
    && NoDup(s.order)
    && (forall p :: p in s.order <==> p in s.pd && s.pd[p].state != DEAD)
    && (forall p :: p in s.pd ==> CanThaw(s.pd[p]))
    && (s.current != 0 ==> s.current in s.pd)
  }

  ghost predicate ObjectShape(s: KState) {
    && (forall i :: 0 <= i < |s.muts| ==> MutShape(s.muts[i], s.pd))
    && (forall i :: 0 <= i < |s.sems| ==> SemShape(s.sems[i], s.pd))
    && (forall i :: 0 <= i < |s.mbs| ==> MbShape(s.mbs[i], s.pd))
  }

  /** What every reachable state satisfies, whatever the requests were. */
  ghost predicate Shape(s: KState) {
    && ListShape(s)
    && ObjectShape(s)
  }

  /** The state while a task runs: it is at the dispatched position, and no switch is pending. */
  ghost predicate Alive(s: KState) {
    Shape(s) && s.current != 0 && s.last < |s.order| && s.order[s.last] == s.current && !s.cswitch
  }

  // ----- where a task waits

  datatype Place = Nowhere | OnMutex(id: nat) | OnSemaphore(id: nat) | OnSend(id: nat) | OnRecv(id: nat)

  /** The queue in which a task should be, read off its own state and request arguments. */
  function PlaceOf(d: PD): Place {
    match d.state
    case WAIT_MUTEX => OnMutex(if d.args.MutLock? then d.args.id else 0)
    case WAIT_SEMAPHORE => OnSemaphore(if d.args.SemGet? then d.args.id else 0)
    case WAIT_MAILBOX =>
      if d.args.MbRecv? then OnRecv(d.args.id)
      else OnSend(if d.args.MbSend? then d.args.id else 0)
    case _ => Nowhere
  }

  function QueueAt(s: KState, pl: Place): seq<Pid> {
    match pl
    case Nowhere => []
    case OnMutex(id) => if 1 <= id <= |s.muts| then s.muts[id - 1].waiters else []
    case OnSemaphore(id) => if 1 <= id <= |s.sems| then s.sems[id - 1].waiters else []
    case OnSend(id) => if 1 <= id <= |s.mbs| then s.mbs[id - 1].send else []
    case OnRecv(id) => if 1 <= id <= |s.mbs| then s.mbs[id - 1].recv else []
  }

  ghost predicate AgreeAt(s: KState, pl: Place) {
    && NoDup(QueueAt(s, pl))
    && forall p :: p in QueueAt(s, pl) <==> p in s.pd && PlaceOf(s.pd[p]) == pl
  }

  /** Every queue holds exactly the tasks that are in its wait state for that object, once each. */
  ghost predicate Agree(s: KState) {
    forall pl: Place :: pl != Nowhere ==> AgreeAt(s, pl)
  }

  /** Tasks that s' inherits from s wait where they waited, except those in `moved`. */
  ghost predicate SamePlaces(s: KState, s': KState, moved: set<Pid>) {
    && (forall p :: p in s.pd ==> p in s'.pd)
    && (forall p :: p in s'.pd && p !in s.pd ==> PlaceOf(s'.pd[p]) == Nowhere)
    && (forall p :: p in s.pd && p !in moved ==> PlaceOf(s'.pd[p]) == PlaceOf(s.pd[p]))
  }

  lemma AgreeFrame(s: KState, s': KState)
    requires Agree(s)
    requires forall pl :: QueueAt(s', pl) == QueueAt(s, pl)
    requires SamePlaces(s, s', {})
    ensures Agree(s')
  {
    forall pl: Place | pl != Nowhere ensures AgreeAt(s', pl) {
      assert AgreeAt(s, pl);
    }
  }

  lemma AgreePush(s: KState, s': KState, c: Pid, at: Place)
    requires Agree(s) && at != Nowhere
    requires c in s.pd && PlaceOf(s.pd[c]) == Nowhere
    requires SamePlaces(s, s', {c}) && PlaceOf(s'.pd[c]) == at
    requires QueueAt(s', at) == QueueAt(s, at) + [c]
    requires forall pl :: pl != at ==> QueueAt(s', pl) == QueueAt(s, pl)
    ensures Agree(s')
  {
    forall pl: Place | pl != Nowhere ensures AgreeAt(s', pl) {
      assert AgreeAt(s, pl);
    }
  }

  /** The first k tasks of one queue leave it and wait nowhere any more. */
  lemma AgreePop(s: KState, s': KState, at: Place, k: nat)
    requires Agree(s) && at != Nowhere && k <= |QueueAt(s, at)|
    requires QueueAt(s', at) == QueueAt(s, at)[k..]
    requires forall pl :: pl != at ==> QueueAt(s', pl) == QueueAt(s, pl)
    requires SamePlaces(s, s', Elems(QueueAt(s, at)[..k]))
    requires forall p :: p in QueueAt(s, at)[..k] && p in s'.pd ==> PlaceOf(s'.pd[p]) == Nowhere
    ensures Agree(s')
  {
    forall pl: Place | pl != Nowhere ensures AgreeAt(s', pl) {
      assert AgreeAt(s, pl) && AgreeAt(s, at);
      hide Agree;
      if pl == at { PopsHere(s, s', at, k); } else { PopsElsewhere(s, s', at, k, pl); }
    }
  }

  lemma PopsHere(s: KState, s': KState, at: Place, k: nat)
    requires AgreeAt(s, at) && at != Nowhere && k <= |QueueAt(s, at)|
    requires QueueAt(s', at) == QueueAt(s, at)[k..]
    requires SamePlaces(s, s', Elems(QueueAt(s, at)[..k]))
    requires forall p :: p in QueueAt(s, at)[..k] && p in s'.pd ==> PlaceOf(s'.pd[p]) == Nowhere
    ensures AgreeAt(s', at)
  {
    var q := QueueAt(s, at);
    assert q == q[..k] + q[k..];
    forall p | p in q[k..] ensures p !in q[..k] {
      var j :| 0 <= j < |q[k..]| && q[k..][j] == p;
      assert q[k + j] == p;
    }
  }

  lemma PopsElsewhere(s: KState, s': KState, at: Place, k: nat, pl: Place)
    requires AgreeAt(s, at) && AgreeAt(s, pl) && pl != Nowhere && pl != at && k <= |QueueAt(s, at)|
    requires QueueAt(s', pl) == QueueAt(s, pl)
    requires SamePlaces(s, s', Elems(QueueAt(s, at)[..k]))
    requires forall p :: p in QueueAt(s, at)[..k] && p in s'.pd ==> PlaceOf(s'.pd[p]) == Nowhere
    ensures AgreeAt(s', pl)
  {
    var q := QueueAt(s, at);
    forall p | p in q[..k] ensures p in q {}
  }

  /** Two different queues never share a task, and no queue holds a task twice. */
  lemma OneQueueEach(s: KState, a: Place, i: nat, b: Place, j: nat)
    requires Agree(s)
    requires i < |QueueAt(s, a)| && j < |QueueAt(s, b)|
    requires QueueAt(s, a)[i] == QueueAt(s, b)[j]
    ensures a == b && i == j
  {
    assert AgreeAt(s, a) && AgreeAt(s, b);
    assert QueueAt(s, a)[i] in QueueAt(s, a) && QueueAt(s, b)[j] in QueueAt(s, b);
  }
}
